/** Every step of the joint machine keeps its invariant. */
module TransferSteps {
  import opened Bytes
  import opened Chunks
  import opened Cryptography
  import opened Protocol
  import opened Pipeline
  import opened Transfer

  /** The facts about the two ends that the control program uses. */
  ghost predicate KeysAgree(cfg: Config)
    requires |cfg.secret| >= SECRET_PREFIX
  {
    var word, k := Word(cfg.secret), SharedSession(cfg).key;
    var fromReceiver := cfg.crypto.pub(PakeSender, word, cfg.receiverPrivate);
    var fromSender := cfg.crypto.pub(PakeReceiver, word, cfg.senderPrivate);
    && cfg.crypto.agree(PakeReceiver, word, cfg.senderPrivate, fromReceiver) == Agreed(k)
    && cfg.crypto.agree(PakeSender, word, cfg.receiverPrivate, fromSender) == Agreed(k)
    && |cfg.salt| == SALT_LENGTH
  }

  /** The receiver can make the folders, and the announced sizes are true. */
  ghost predicate FilesReady(cfg: Config) {
    && cfg.foldersMade
    && |cfg.sources| == |FileList(cfg)|
    && forall i :: 0 <= i < |cfg.sources| ==> FileList(cfg)[i].size == |cfg.sources[i]|
  }

  lemma HonestKeys(cfg: Config)
    requires Honest(cfg) && |cfg.secret| >= SECRET_PREFIX
    ensures KeysAgree(cfg)
  {
    var word := Word(cfg.secret);
    var fromSender := cfg.crypto.pub(PakeReceiver, word, cfg.senderPrivate);
    assert cfg.crypto.agree(PakeSender, word, cfg.receiverPrivate, fromSender).Agreed?;
  }

  lemma HonestPlan(cfg: Config)
    requires Honest(cfg) && |cfg.secret| >= SECRET_PREFIX
    ensures LawfulPlan(PlanOf(cfg)) && FilesReady(cfg)
  {
    var p := PlanOf(cfg);
    forall i | 0 <= i < |p.sources|
      ensures |p.sources[i]| < I64_LIMIT
    {
      assert FileList(cfg)[i].size == |cfg.sources[i]|;
    }
  }

  // ----- steps of the control program -----

  lemma BeginSenderKeeps(cfg: Config, s: System, s': System, phase: Phase)
    requires Agreeable(cfg) && Control(cfg, s, phase) && Step(cfg, s, BeginSender, s')
    ensures Control(cfg, s', phase) && s'.data == s.data && FocusOf(cfg, s') == FocusOf(cfg, s)
  {
  }

  lemma BeginReceiverKeeps(cfg: Config, s: System, s': System, phase: Phase)
    requires Agreeable(cfg) && Control(cfg, s, phase) && Step(cfg, s, BeginReceiver, s')
    ensures Control(cfg, s', KeySent) && s'.data == s.data && FocusOf(cfg, s') == FocusOf(cfg, s)
  {
  }

  function PhaseAfterSender(phase: Phase, m: Message): Phase {
    match phase
    case KeySent => KeyAnswered
    case IpSent => InfoSent
    case Closing => if m == Finished then Answered else Closing
    case _ => phase
  }

  lemma SenderHandlesKeeps(cfg: Config, s: System, s': System, phase: Phase)
    requires Agreeable(cfg) && KeysAgree(cfg) && FilesReady(cfg) && Control(cfg, s, phase)
    requires Step(cfg, s, SenderHandles, s')
    ensures Control(cfg, s', PhaseAfterSender(phase, s.toSender[0])) && s'.data == s.data
    ensures FocusOf(cfg, s') == FocusOf(cfg, s)
  {
    match phase
    case KeySent =>
    case IpSent =>
    case Closing => SenderAnswersClosing(cfg, s, s');
    case Transferring => SenderServes(cfg, s, s');
  }

  /** What `send_file` does with a request: nothing at all for an empty file. */
  lemma RequestServed(cfg: Config, i: nat)
    requires Agreeable(cfg) && FilesReady(cfg) && i < |cfg.sources|
    ensures HandleMessage(ServingSender(cfg, Waiting), cfg.crypto, RecipientReady(i), WorldOf(cfg))
            == Outcome(ServingSender(cfg, if cfg.sources[i] == [] then Waiting else Sending(i, 0)), [])
  {
    assert LengthOf(Lengths(cfg), i) == |cfg.sources[i]|;
  }

  lemma FinishedReturns(c: Client, crypto: Crypto, world: Surroundings)
    requires |c.secret| >= SECRET_PREFIX
    ensures HandleMessage(c, crypto, Finished, world) == Outcome(c.(pc := Returned), [Finished])
  {
  }

  lemma SenderAnswersClosing(cfg: Config, s: System, s': System)
    requires Agreeable(cfg) && FilesReady(cfg) && Control(cfg, s, Closing) && Step(cfg, s, SenderHandles, s')
    ensures Control(cfg, s', PhaseAfterSender(Closing, s.toSender[0]))
    ensures s'.data == s.data && FocusOf(cfg, s') == FocusOf(cfg, s)
  {
    var last := |s.toSender| - 1;
    if last > 0 {
      SenderServesClosing(cfg, s, s', last);
    } else {
      FinishedReturns(s.sender, cfg.crypto, WorldOf(cfg));
    }
  }

  lemma SenderServesClosing(cfg: Config, s: System, s': System, last: nat)
    requires Agreeable(cfg) && FilesReady(cfg) && Control(cfg, s, Closing) && Step(cfg, s, SenderHandles, s')
    requires 0 < last == |s.toSender| - 1
    ensures s.toSender[0].RecipientReady? && Control(cfg, s', Closing)
    ensures s'.data == s.data && FocusOf(cfg, s') == FocusOf(cfg, s)
  {
    var asked := s.toSender[..last];
    assert asked[0] == s.toSender[0] == RecipientReady(|cfg.sources| - last);
    RequestServed(cfg, |cfg.sources| - last);
    assert s'.toSender[..last - 1] == asked[1..];
  }

  lemma SenderServes(cfg: Config, s: System, s': System)
    requires Agreeable(cfg) && FilesReady(cfg) && Control(cfg, s, Transferring) && Step(cfg, s, SenderHandles, s')
    ensures Control(cfg, s', Transferring) && s'.data == s.data && FocusOf(cfg, s') == FocusOf(cfg, s)
  {
    var i, last := s.receiver.pc.index, |s.toSender| - 1;
    if s.receiver.pc.Requesting? || s.receiver.pc.Sizing? {
      SenderServesEarlier(cfg, s, s', i);
    } else if last > 0 {
      SenderServesEmpty(cfg, s, s', i, last);
    } else {
      SenderServesCurrent(cfg, s, s', i);
    }
  }

  lemma SenderServesEarlier(cfg: Config, s: System, s': System, i: nat)
    requires Agreeable(cfg) && FilesReady(cfg) && Control(cfg, s, Transferring) && Step(cfg, s, SenderHandles, s')
    requires (s.receiver.pc.Requesting? || s.receiver.pc.Sizing?) && i == s.receiver.pc.index
    ensures Control(cfg, s', Transferring) && s'.data == s.data && FocusOf(cfg, s') == FocusOf(cfg, s)
  {
    assert s.toSender[0] == RecipientReady(i - |s.toSender|);
    RequestServed(cfg, i - |s.toSender|);
  }

  lemma SenderServesCurrent(cfg: Config, s: System, s': System, i: nat)
    requires Agreeable(cfg) && FilesReady(cfg) && Control(cfg, s, Transferring) && Step(cfg, s, SenderHandles, s')
    requires (s.receiver.pc.Receiving? || s.receiver.pc.Forwarding?) && i == s.receiver.pc.index && |s.toSender| == 1
    ensures Control(cfg, s', Transferring) && s'.data == s.data && FocusOf(cfg, s') == FocusOf(cfg, s)
  {
    RequestServed(cfg, i);
    CountAgrees(|cfg.sources[i]|, 0);
  }

  lemma SenderServesEmpty(cfg: Config, s: System, s': System, i: nat, last: nat)
    requires Agreeable(cfg) && FilesReady(cfg) && Control(cfg, s, Transferring) && Step(cfg, s, SenderHandles, s')
    requires (s.receiver.pc.Receiving? || s.receiver.pc.Forwarding?) && i == s.receiver.pc.index
    requires 0 < last == |s.toSender| - 1
    ensures Control(cfg, s', Transferring) && s'.data == s.data && FocusOf(cfg, s') == FocusOf(cfg, s)
  {
    var asked := s.toSender[..last];
    assert asked[0] == s.toSender[0] == RecipientReady(i - last);
    RequestServed(cfg, i - last);
    assert s'.toSender[..last - 1] == asked[1..];
  }

  function PhaseAfterReceiver(cfg: Config, phase: Phase): Phase {
    match phase
    case KeyAnswered => IpSent
    case InfoSent => InfoNext
    case InfoNext => if cfg.files.Some? && cfg.files.value.toTransfer.Some? then Transferring else Closing
    case Answered => Closed
    case _ => phase
  }

  lemma ReceiverHandlesKeeps(cfg: Config, s: System, s': System, phase: Phase)
    requires Agreeable(cfg) && KeysAgree(cfg) && FilesReady(cfg) && Control(cfg, s, phase)
    requires Step(cfg, s, ReceiverHandles, s')
    ensures Control(cfg, s', PhaseAfterReceiver(cfg, phase)) && s'.data == s.data && FocusOf(cfg, s') == FocusOf(cfg, s)
  {
    ReceiverIsAwaited(cfg, s, phase);
    match phase
    case KeyAnswered => ReceiverTakesKey(cfg, s, s');
    case InfoSent => ReceiverTakesIp(cfg, s, s');
    case InfoNext => ReceiverTakesInfo(cfg, s, s');
    case Answered => ReceiverTakesFinished(cfg, s, s');
  }

  lemma ReceiverIsAwaited(cfg: Config, s: System, phase: Phase)
    requires Agreeable(cfg) && Control(cfg, s, phase) && s.toReceiver != []
    ensures phase.KeyAnswered? || phase.InfoSent? || phase.InfoNext? || phase.Answered?
  {
  }

  lemma ReceiverTakesKey(cfg: Config, s: System, s': System)
    requires Agreeable(cfg) && KeysAgree(cfg) && Control(cfg, s, KeyAnswered) && Step(cfg, s, ReceiverHandles, s')
    ensures Control(cfg, s', IpSent) && s'.data == s.data && FocusOf(cfg, s') == FocusOf(cfg, s)
  {
  }

  lemma ReceiverTakesIp(cfg: Config, s: System, s': System)
    requires Agreeable(cfg) && Control(cfg, s, InfoSent) && Step(cfg, s, ReceiverHandles, s')
    ensures Control(cfg, s', InfoNext) && s'.data == s.data && FocusOf(cfg, s') == FocusOf(cfg, s)
  {
  }

  lemma ReceiverTakesInfo(cfg: Config, s: System, s': System)
    requires Agreeable(cfg) && FilesReady(cfg) && Control(cfg, s, InfoNext) && Step(cfg, s, ReceiverHandles, s')
    ensures Control(cfg, s', PhaseAfterReceiver(cfg, InfoNext)) && s'.data == s.data
    ensures FocusOf(cfg, s') == FocusOf(cfg, s)
  {
    InfoHandled(cfg, s, s');
  }

  lemma InfoHandled(cfg: Config, s: System, s': System)
    requires Agreeable(cfg) && FilesReady(cfg) && Control(cfg, s, InfoNext) && Step(cfg, s, ReceiverHandles, s')
    ensures s'.sender == ServingSender(cfg, Waiting) && s'.data == s.data && s'.toReceiver == []
    ensures s'.receiver == InformedReceiver(cfg, if cfg.files.value.toTransfer.Some? then Requesting(0) else Waiting)
    ensures s'.toSender == if cfg.files.value.toTransfer.Some? then [] else [Finished]
  {
  }

  lemma ReceiverTakesFinished(cfg: Config, s: System, s': System)
    requires Agreeable(cfg) && Control(cfg, s, Answered) && Step(cfg, s, ReceiverHandles, s')
    ensures Control(cfg, s', Closed) && s'.data == s.data && FocusOf(cfg, s') == FocusOf(cfg, s)
  {
  }

  /** Only during the transfer is anyone inside a file or chunk loop. */
  lemma InLoopIsTransferring(cfg: Config, s: System, phase: Phase)
    requires Agreeable(cfg) && Control(cfg, s, phase)
    requires s.sender.pc.Sending? || s.receiver.pc.Requesting? || s.receiver.pc.Sizing? || s.receiver.pc.Receiving?
          || s.receiver.pc.Forwarding?
    ensures phase == Transferring
  {
  }

  lemma NextFileKeeps(cfg: Config, s: System, s': System)
    requires Agreeable(cfg) && FilesReady(cfg) && Control(cfg, s, Transferring) && Step(cfg, s, NextFile, s')
    requires PipeInv(PlanOf(cfg), s.data, FocusOf(cfg, s))
    ensures InvAt(cfg, s', Transferring)
  {
    NextFileCounts(cfg, s, s');
    FileCompletes(PlanOf(cfg), s.data, FocusOf(cfg, s));
    AllQueued(cfg, s);
    NextFileControl(cfg, s, s', s.receiver.pc.index);
  }

  lemma NextFileCounts(cfg: Config, s: System, s': System)
    requires Agreeable(cfg) && FilesReady(cfg) && Control(cfg, s, Transferring) && Step(cfg, s, NextFile, s')
    ensures var f := FocusOf(cfg, s);
            f.On? && f.held == [] && f.index < |cfg.sources| && f.taken >= ChunkCount(|cfg.sources[f.index]|)
    ensures s'.data == s.data && FocusOf(cfg, s') == Off
  {
  }

  lemma AllQueued(cfg: Config, s: System)
    requires Agreeable(cfg) && Control(cfg, s, Transferring) && s.receiver.pc.Receiving?
    requires FocusOf(cfg, s).queued == ChunkCount(|cfg.sources[s.receiver.pc.index]|)
    ensures !s.sender.pc.Sending? && (s.toSender != [] ==> cfg.sources[s.receiver.pc.index] == [])
  {
    var length := |cfg.sources[s.receiver.pc.index]|;
    CountAgrees(length, 0);
    if s.sender.pc.Sending? {
      CountAgrees(length, s.sender.pc.next);
    }
  }

  lemma NextFileControl(cfg: Config, s: System, s': System, i: nat)
    requires Agreeable(cfg) && Control(cfg, s, Transferring) && Step(cfg, s, NextFile, s')
    requires i == s.receiver.pc.index && (s.toSender != [] ==> cfg.sources[i] == []) && !s.sender.pc.Sending?
    ensures Control(cfg, s', Transferring)
  {
    if s.toSender != [] {
      var last := |s.toSender| - 1;
      assert s.toSender == s.toSender[..last] + [RecipientReady(i)];
    }
  }

  lemma RequestFileKeeps(cfg: Config, s: System, s': System)
    requires Agreeable(cfg) && FilesReady(cfg) && LawfulPlan(PlanOf(cfg))
    requires Control(cfg, s, Transferring) && Step(cfg, s, RequestFile, s')
    requires PipeInv(PlanOf(cfg), s.data, FocusOf(cfg, s))
    ensures Inv(cfg, s')
  {
    var i, list := s.receiver.pc.index, FileList(cfg);
    RequestFileControl(cfg, s, s', i);
    if i < |list| {
      CreateFileKeeps(PlanOf(cfg), s.data);
      assert InvAt(cfg, s', Transferring);
    } else {
      assert InvAt(cfg, s', Closing);
    }
  }

  lemma RequestFileControl(cfg: Config, s: System, s': System, i: nat)
    requires Agreeable(cfg) && FilesReady(cfg) && Control(cfg, s, Transferring) && Step(cfg, s, RequestFile, s')
    requires s.receiver.pc == Requesting(i)
    ensures FocusOf(cfg, s') == if i < |cfg.sources| then Opened(i) else Off
    ensures Control(cfg, s', if i < |cfg.sources| then Transferring else Closing)
  {
    assert s'.toSender[..|s.toSender|] == s.toSender;
  }

  lemma SizeAndRequestKeeps(cfg: Config, s: System, s': System)
    requires Agreeable(cfg) && FilesReady(cfg) && LawfulPlan(PlanOf(cfg))
    requires Control(cfg, s, Transferring) && Step(cfg, s, SizeAndRequest, s')
    requires PipeInv(PlanOf(cfg), s.data, FocusOf(cfg, s))
    ensures InvAt(cfg, s', Transferring)
  {
    SizeAndRequestControl(cfg, s, s', s.receiver.pc.index);
    SizeFileKeeps(PlanOf(cfg), s.data, s.receiver.pc.index);
  }

  lemma SizeAndRequestControl(cfg: Config, s: System, s': System, i: nat)
    requires Agreeable(cfg) && FilesReady(cfg) && Control(cfg, s, Transferring) && Step(cfg, s, SizeAndRequest, s')
    requires s.receiver.pc == Sizing(i)
    ensures i < |cfg.sources| && FocusOf(cfg, s) == Opened(i) && FocusOf(cfg, s') == On(i, 0, [], 0)
    ensures s.data.disk.handles != [] && s'.data == SizeFile(s.data, |cfg.sources[i]|)
    ensures Control(cfg, s', Transferring)
  {
    assert s'.toSender[..|s.toSender|] == s.toSender;
  }

  // ----- steps at the two ends of the data plane -----

  lemma QueueNextKeeps(cfg: Config, s: System, s': System)
    requires Agreeable(cfg) && FilesReady(cfg) && LawfulPlan(PlanOf(cfg)) && Control(cfg, s, Transferring)
    requires Step(cfg, s, QueueNext, s')
    requires PipeInv(PlanOf(cfg), s.data, FocusOf(cfg, s))
    ensures InvAt(cfg, s', Transferring)
  {
    QueueNextControl(cfg, s, s');
    var f := FocusOf(cfg, s);
    QueueRequestKeeps(PlanOf(cfg), s.data, f);
    InvFrom(cfg, s', f.(queued := f.queued + 1));
  }

  lemma InvFrom(cfg: Config, s: System, f: Focus)
    requires Agreeable(cfg) && Control(cfg, s, Transferring) && FocusOf(cfg, s) == f
    requires PipeInv(PlanOf(cfg), s.data, f)
    ensures InvAt(cfg, s, Transferring)
  {
  }

  lemma QueueNextControl(cfg: Config, s: System, s': System)
    requires Agreeable(cfg) && FilesReady(cfg) && Control(cfg, s, Transferring) && Step(cfg, s, QueueNext, s')
    ensures Control(cfg, s', Transferring)
    ensures FocusOf(cfg, s).On? && FocusOf(cfg, s).index < |cfg.sources|
    ensures var f := FocusOf(cfg, s); var length := |cfg.sources[f.index]|;
            && f.queued * CHUNK < length
            && s'.data == QueueRequest(s.data, ChunkRequest(f.index, ChunkAt(length, f.queued)))
            && FocusOf(cfg, s') == f.(queued := f.queued + 1)
  {
    var Sending(i, k) := s.sender.pc;
    assert LengthOf(Lengths(cfg), i) == |cfg.sources[i]|;
    CountAgrees(|cfg.sources[i]|, k);
    CountAgrees(|cfg.sources[i]|, k + 1);
  }

  lemma TakeChunkKeeps(cfg: Config, s: System, s': System, m: Bytes)
    requires Agreeable(cfg) && Control(cfg, s, Transferring) && Step(cfg, s, TakeChunk(m), s')
    requires PipeInv(PlanOf(cfg), s.data, FocusOf(cfg, s))
    ensures InvAt(cfg, s', Transferring)
  {
    TakeChunkControl(cfg, s, s', m);
    var f := FocusOf(cfg, s);
    TakeFrameKeeps(PlanOf(cfg), s.data, s'.data, f, m);
    InvFrom(cfg, s', f.(taken := f.taken + 1, held := [m]));
  }

  lemma TakeChunkControl(cfg: Config, s: System, s': System, m: Bytes)
    requires Agreeable(cfg) && Control(cfg, s, Transferring) && Step(cfg, s, TakeChunk(m), s')
    ensures Control(cfg, s', Transferring)
    ensures var f := FocusOf(cfg, s);
            f.On? && f.held == [] && FocusOf(cfg, s') == f.(taken := f.taken + 1, held := [m])
  {
  }

  lemma ForwardChunkKeeps(cfg: Config, s: System, s': System)
    requires Agreeable(cfg) && Control(cfg, s, Transferring) && Step(cfg, s, ForwardChunk, s')
    requires PipeInv(PlanOf(cfg), s.data, FocusOf(cfg, s))
    ensures InvAt(cfg, s', Transferring)
  {
    ForwardChunkControl(cfg, s, s');
    QueueChunkKeeps(PlanOf(cfg), s.data, FocusOf(cfg, s), s.receiver.pc.chunk);
  }

  lemma ForwardChunkControl(cfg: Config, s: System, s': System)
    requires Agreeable(cfg) && Control(cfg, s, Transferring) && Step(cfg, s, ForwardChunk, s')
    ensures Control(cfg, s', Transferring) && s'.data == QueueChunk(s.data, s.receiver.pc.chunk)
    ensures var f := FocusOf(cfg, s);
            f.On? && f.held == [s.receiver.pc.chunk] && FocusOf(cfg, s') == f.(held := [])
  {
  }

  // ----- steps of the tasks -----

  predicate IsTaskEvent(e: Event) {
    e.ReadChunk? || e.EncryptAndSend? || e.MoveData? || e.SpawnWriter? || e.RunWriter?
  }

  /** Whoever has a session has the same one. */
  lemma SessionsAgree(cfg: Config, s: System, phase: Phase)
    requires Agreeable(cfg) && Control(cfg, s, phase)
    ensures s.sender.session.Some? ==> s.sender.session.value == SharedSession(cfg)
    ensures s.receiver.session.Some? ==> s.receiver.session.value == SharedSession(cfg)
  {
  }

  lemma TaskTouchesData(cfg: Config, s: System, e: Event, s': System)
    requires IsTaskEvent(e) && Step(cfg, s, e, s')
    ensures s' == s.(data := s'.data)
  {
  }

  lemma DataKeepsControl(cfg: Config, s: System, s': System, phase: Phase)
    requires Agreeable(cfg) && Control(cfg, s, phase)
    requires s' == s.(data := s'.data) && |s'.data.disk.handles| == |s.data.disk.handles|
    ensures Control(cfg, s', phase) && FocusOf(cfg, s') == FocusOf(cfg, s)
  {
  }

  lemma TaskKeepsPipe(cfg: Config, s: System, e: Event, s': System, f: Focus)
    requires |cfg.secret| >= SECRET_PREFIX && LawfulPlan(PlanOf(cfg)) && PipeInv(PlanOf(cfg), s.data, f)
    requires s.sender.session.Some? ==> s.sender.session.value == SharedSession(cfg)
    requires s.receiver.session.Some? ==> s.receiver.session.value == SharedSession(cfg)
    requires IsTaskEvent(e) && Step(cfg, s, e, s')
    ensures PipeInv(PlanOf(cfg), s'.data, f) && |s'.data.disk.handles| == |s.data.disk.handles|
  {
    var p := PlanOf(cfg);
    match e
    case ReadChunk => ReadKeeps(p, s.data, s'.data, f);
    case EncryptAndSend(buffer, nonce) => SendKeeps(p, s.data, s'.data, f, buffer, nonce);
    case MoveData => MoveKeeps(p, s.data, s'.data, f);
    case SpawnWriter => SpawnStepKeeps(p, s.data, s'.data, f);
    case RunWriter(t) => WriteKeeps(p, s.data, s'.data, f, t); WriteKeepsDisk(p, s.data.disk, s'.data.disk, t);
  }

  // ----- all steps, all runs -----

  predicate IsControlEvent(e: Event) {
    e.BeginSender? || e.BeginReceiver? || e.SenderHandles? || e.ReceiverHandles?
  }

  lemma ControlEventKeeps(cfg: Config, s: System, e: Event, s': System, phase: Phase) returns (phase': Phase)
    requires Agreeable(cfg) && KeysAgree(cfg) && FilesReady(cfg) && Control(cfg, s, phase)
    requires IsControlEvent(e) && Step(cfg, s, e, s')
    ensures Control(cfg, s', phase') && s'.data == s.data && FocusOf(cfg, s') == FocusOf(cfg, s)
  {
    match e
    case BeginSender =>
      BeginSenderKeeps(cfg, s, s', phase);
      phase' := phase;
    case BeginReceiver =>
      BeginReceiverKeeps(cfg, s, s', phase);
      phase' := KeySent;
    case SenderHandles =>
      SenderHandlesKeeps(cfg, s, s', phase);
      phase' := PhaseAfterSender(phase, s.toSender[0]);
    case ReceiverHandles =>
      ReceiverHandlesKeeps(cfg, s, s', phase);
      phase' := PhaseAfterReceiver(cfg, phase);
  }

  lemma TaskEventKeeps(cfg: Config, s: System, e: Event, s': System, phase: Phase)
    requires Agreeable(cfg) && LawfulPlan(PlanOf(cfg)) && InvAt(cfg, s, phase)
    requires IsTaskEvent(e) && Step(cfg, s, e, s')
    ensures InvAt(cfg, s', phase)
  {
    SessionsAgree(cfg, s, phase);
    TaskKeepsPipe(cfg, s, e, s', FocusOf(cfg, s));
    TaskTouchesData(cfg, s, e, s');
    DataKeepsControl(cfg, s, s', phase);
  }

  lemma EndEventKeeps(cfg: Config, s: System, e: Event, s': System)
    requires Agreeable(cfg) && FilesReady(cfg) && LawfulPlan(PlanOf(cfg)) && InvAt(cfg, s, Transferring)
    requires !IsControlEvent(e) && !IsTaskEvent(e) && Step(cfg, s, e, s')
    ensures Inv(cfg, s')
  {
    match e
    case QueueNext =>
      QueueNextKeeps(cfg, s, s');
    case RequestFile =>
      RequestFileKeeps(cfg, s, s');
    case SizeAndRequest =>
      SizeAndRequestKeeps(cfg, s, s');
    case TakeChunk(m) =>
      TakeChunkKeeps(cfg, s, s', m);
    case NextFile =>
      NextFileKeeps(cfg, s, s');
    case ForwardChunk =>
      ForwardChunkKeeps(cfg, s, s');
  }

  lemma StepKeeps(cfg: Config, s: System, e: Event, s': System)
    requires Honest(cfg) && Agreeable(cfg) && Inv(cfg, s) && Step(cfg, s, e, s')
    ensures Inv(cfg, s')
  {
    HonestKeys(cfg);
    HonestPlan(cfg);
    StepKeepsFrom(cfg, s, e, s');
  }

  lemma StepKeepsFrom(cfg: Config, s: System, e: Event, s': System)
    requires Agreeable(cfg) && KeysAgree(cfg) && FilesReady(cfg) && LawfulPlan(PlanOf(cfg))
    requires Inv(cfg, s) && Step(cfg, s, e, s')
    ensures Inv(cfg, s')
  {
    var phase :| InvAt(cfg, s, phase);
    if IsControlEvent(e) {
      var phase' := ControlEventKeeps(cfg, s, e, s', phase);
      assert InvAt(cfg, s', phase');
    } else if IsTaskEvent(e) {
      TaskEventKeeps(cfg, s, e, s', phase);
    } else {
      InLoopIsTransferring(cfg, s, phase);
      EndEventKeeps(cfg, s, e, s');
    }
  }

  lemma InitHolds(cfg: Config)
    requires Honest(cfg) && Agreeable(cfg)
    ensures Inv(cfg, Init(cfg))
  {
    HonestPlan(cfg);
    EmptyPipe(PlanOf(cfg));
    assert InvAt(cfg, Init(cfg), Opening);
  }

  lemma {:induction false} RunKeeps(cfg: Config, run: seq<System>)
    requires Honest(cfg) && Agreeable(cfg) && IsRun(cfg, run)
    ensures Inv(cfg, run[|run| - 1])
    decreases |run|
  {
    var n := |run|;
    if n == 1 {
      InitHolds(cfg);
    } else {
      RunKeeps(cfg, run[..n - 1]);
      assert Next(cfg, run[n - 2], run[n - 1]);
      var e :| Step(cfg, run[n - 2], e, run[n - 1]);
      StepKeeps(cfg, run[n - 2], e, run[n - 1]);
    }
  }

  lemma ReachableInv(cfg: Config, s: System)
    requires Honest(cfg) && Agreeable(cfg) && Reachable(cfg, s)
    ensures Inv(cfg, s)
  {
    var run: seq<System> :| IsRun(cfg, run) && run[|run| - 1] == s;
    RunKeeps(cfg, run);
  }
}
