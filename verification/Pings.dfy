/** What keepalive pings do that reach the data connection of the receiver before
    the chunks.  The joint machine of `Transfer` starts with `p` of them on the way;
    everything else is as before. */
module Pings {
  import opened Bytes
  import opened Framing
  import opened Chunks
  import opened Cryptography
  import opened Protocol
  import opened Transport
  import opened FileTasks
  import opened Pipeline
  import opened Transfer
  import opened TransferSteps

  function Copies(ping: Bytes, p: nat): seq<Bytes> {
    seq(p, _ => ping)
  }

  function PingedInit(cfg: Config, ping: Bytes, p: nat): System {
    Init(cfg).(data := NO_DATA.(path := IDLE.(downlink := FrameAll(Copies(ping, p)))))
  }

  ghost predicate IsPingedRun(cfg: Config, ping: Bytes, p: nat, run: seq<System>) {
    && |run| > 0 && run[0] == PingedInit(cfg, ping, p)
    && forall i, j :: 0 <= i < |run| && j == i + 1 < |run| ==> Next(cfg, run[i], run[j])
  }

  ghost predicate PingedReachable(cfg: Config, ping: Bytes, p: nat, s: System) {
    exists run: seq<System> :: IsPingedRun(cfg, ping, p, run) && run[|run| - 1] == s
  }

  // ----- the control program, without the help of the data plane -----

  predicate IsEarly(phase: Phase) {
    !phase.Transferring? && !phase.Closing? && !phase.Answered? && !phase.Closed?
  }

  ghost predicate AreRequests(cfg: Config, msgs: seq<Message>) {
    forall m :: m in msgs ==> m.RecipientReady? && 0 <= m.index < |cfg.sources|
  }

  ghost predicate SenderAt(cfg: Config, pc: Pc) {
    pc == Waiting || (pc.Sending? && pc.index < |cfg.sources| && pc.next * CHUNK < |cfg.sources[pc.index]|)
  }

  ghost predicate ReceiverAt(cfg: Config, pc: Pc, handles: nat) {
    match pc
    case Requesting(i) => i <= |cfg.sources| && handles == i
    case Sizing(i) => i < |cfg.sources| && handles == i + 1
    case Receiving(i, n) => i < |cfg.sources| && n <= ChunkCount(|cfg.sources[i]|) && handles == i + 1
    case Forwarding(i, n, _) => i < |cfg.sources| && n < ChunkCount(|cfg.sources[i]|) && handles == i + 1
    case _ => false
  }

  /** Where the clients are, when the receiver may run ahead of the sender. */
  ghost predicate Loose(cfg: Config, s: System, phase: Phase)
    requires Agreeable(cfg)
  {
    match phase
    case Transferring =>
      && s.sender == ServingSender(cfg, s.sender.pc) && SenderAt(cfg, s.sender.pc)
      && s.receiver == InformedReceiver(cfg, s.receiver.pc)
      && ReceiverAt(cfg, s.receiver.pc, |s.data.disk.handles|)
      && cfg.files.value.toTransfer.Some? && s.toReceiver == [] && AreRequests(cfg, s.toSender)
    case Closing =>
      && s.sender == ServingSender(cfg, s.sender.pc) && SenderAt(cfg, s.sender.pc)
      && s.receiver == InformedReceiver(cfg, Waiting) && s.toReceiver == []
      && s.toSender != [] && s.toSender[|s.toSender| - 1] == Finished
      && AreRequests(cfg, s.toSender[..|s.toSender| - 1])
    case Answered =>
      && s.sender == ServingSender(cfg, Returned) && s.receiver == InformedReceiver(cfg, Waiting)
      && s.toSender == [] && s.toReceiver == [Finished]
    case Closed =>
      && s.sender == ServingSender(cfg, Returned) && s.receiver == InformedReceiver(cfg, Returned)
      && s.toSender == [Finished] && s.toReceiver == []
    case _ => Control(cfg, s, phase)
  }

  lemma SenderServesLoose(cfg: Config, s: System, s': System, phase: Phase) returns (phase': Phase)
    requires Agreeable(cfg) && KeysAgree(cfg) && FilesReady(cfg) && Loose(cfg, s, phase)
    requires Step(cfg, s, SenderHandles, s')
    ensures Loose(cfg, s', phase') && s'.data == s.data && s'.receiver == s.receiver
  {
    if IsEarly(phase) {
      SenderHandlesKeeps(cfg, s, s', phase);
      phase' := PhaseAfterSender(phase, s.toSender[0]);
    } else if s.toSender[0] == Finished {
      phase' := Answered;
      assert phase == Closing && |s.toSender| == 1;
    } else {
      phase' := phase;
      ServedLoose(cfg, s, s', phase);
    }
  }

  lemma ServedLoose(cfg: Config, s: System, s': System, phase: Phase)
    requires Agreeable(cfg) && FilesReady(cfg) && Loose(cfg, s, phase) && (phase.Transferring? || phase.Closing?)
    requires Step(cfg, s, SenderHandles, s') && s.toSender[0] != Finished
    ensures Loose(cfg, s', phase)
  {
    var last := |s.toSender| - 1;
    var m := s.toSender[0];
    assert phase.Closing? ==> last > 0 && m in s.toSender[..last];
    RequestServed(cfg, m.index);
    if phase.Closing? {
      assert s'.toSender[..last - 1] == s.toSender[..last][1..];
    }
  }

  lemma ReceiverHandlesLoose(cfg: Config, s: System, s': System, phase: Phase) returns (phase': Phase)
    requires Agreeable(cfg) && KeysAgree(cfg) && FilesReady(cfg) && Loose(cfg, s, phase)
    requires Step(cfg, s, ReceiverHandles, s')
    ensures Loose(cfg, s', phase') && s'.data == s.data && Counted(cfg, s'.receiver) == Counted(cfg, s.receiver)
  {
    phase' := PhaseAfterReceiver(cfg, phase);
    if IsEarly(phase) {
      ReceiverIsAwaited(cfg, s, phase);
      EarlyCounts(cfg, s, phase);
      if phase.InfoNext? {
        InfoTaken(cfg, s, s');
      } else {
        ReceiverHandlesKeeps(cfg, s, s', phase);
        EarlyCounts(cfg, s', phase');
      }
    } else {
      LateReceiverIsAwaited(cfg, s, phase);
      FinishedTaken(cfg, s, s');
    }
  }

  lemma LateReceiverIsAwaited(cfg: Config, s: System, phase: Phase)
    requires Agreeable(cfg) && Loose(cfg, s, phase) && !IsEarly(phase) && s.toReceiver != []
    ensures phase == Answered
  {
  }

  lemma FinishedTaken(cfg: Config, s: System, s': System)
    requires Agreeable(cfg) && Loose(cfg, s, Answered) && Step(cfg, s, ReceiverHandles, s')
    ensures Loose(cfg, s', Closed) && s'.data == s.data && Counted(cfg, s'.receiver) == Counted(cfg, s.receiver)
  {
    FinishedReturns(s.receiver, cfg.crypto, WorldOf(cfg));
    assert s'.receiver == s.receiver.(pc := Returned);
  }

  lemma EarlyCounts(cfg: Config, s: System, phase: Phase)
    requires Agreeable(cfg) && IsEarly(phase) && Control(cfg, s, phase)
    ensures Counted(cfg, s.receiver) == 0 && Held(s.receiver.pc) == []
  {
  }

  lemma InfoTaken(cfg: Config, s: System, s': System)
    requires Agreeable(cfg) && FilesReady(cfg) && Control(cfg, s, InfoNext) && Step(cfg, s, ReceiverHandles, s')
    ensures Loose(cfg, s', PhaseAfterReceiver(cfg, InfoNext)) && s'.data == s.data && Counted(cfg, s'.receiver) == 0
  {
    InfoHandled(cfg, s, s');
  }

  // ----- counting -----

  /** How many frames are counted before file `i`. */
  function Before(cfg: Config, i: nat): nat
    requires i <= |cfg.sources|
  {
    if i == 0 then 0 else Before(cfg, i - 1) + CountOf(cfg.sources[i - 1])
  }

  function Total(cfg: Config): nat {
    Before(cfg, |cfg.sources|)
  }

  function BeforeOr0(cfg: Config, i: nat): nat {
    if i <= |cfg.sources| then Before(cfg, i) else 0
  }

  /** How many frames the receiver has counted so far. */
  function Counted(cfg: Config, c: Client): nat {
    match c.pc
    case Requesting(i) => BeforeOr0(cfg, i)
    case Sizing(i) => BeforeOr0(cfg, i)
    case Receiving(i, n) => BeforeOr0(cfg, i) + n
    case Forwarding(i, n, _) => BeforeOr0(cfg, i) + n + 1
    case Waiting => if c.state == FileTransfer then Total(cfg) else 0
    case Returned => if c.state == FileTransfer then Total(cfg) else 0
    case _ => 0
  }

  // ----- the frames in line -----

  function Datas(chunks: seq<FileChunk>): seq<Bytes> {
    seq(|chunks|, i requires 0 <= i < |chunks| => chunks[i].data)
  }

  /** The frames not yet with a task, in the order in which tasks will get them. */
  function Line(d: Data, held: seq<Bytes>): seq<Bytes> {
    Datas(d.chunks) + held + InFlight(d.path)
  }

  function Held(pc: Pc): seq<Bytes> {
    if pc.Forwarding? then [pc.chunk] else []
  }

  /** A frame that opens to an offset and data. */
  ghost predicate Whole(m: Bytes, open: Opener) {
    |m| >= NONCE_LENGTH && open(m).Some? && |open(m).value| >= 8
  }

  /** The task was given the ping, and has crashed on it or is about to. */
  predicate HoldsPing(w: Writer, ping: Bytes) {
    w.Crashed? || (w.Fresh? && w.cipher == ping)
  }

  ghost predicate HoldsChunk(w: Writer, open: Opener) {
    !w.Crashed? && (w.Fresh? ==> Whole(w.cipher, open))
  }

  /** The first `p` places in line are pings, all later ones are chunks. */
  ghost predicate RightFrame(m: Bytes, n: nat, ping: Bytes, p: nat, open: Opener) {
    if n < p then m == ping else Whole(m, open)
  }

  ghost predicate RightLine(line: seq<Bytes>, from: nat, ping: Bytes, p: nat, open: Opener) {
    forall k :: 0 <= k < |line| ==> RightFrame(line[k], from + k, ping, p, open)
  }

  ghost predicate RightTasks(ws: seq<Writer>, ping: Bytes, p: nat, open: Opener) {
    forall t :: 0 <= t < |ws| ==> if t < p then HoldsPing(ws[t], ping) else HoldsChunk(ws[t], open)
  }

  ghost predicate BuffersLong(buffers: multiset<Bytes>) {
    forall b :: b in buffers ==> |b| >= 8
  }

  ghost predicate Flow(d: Data, held: seq<Bytes>, counted: nat, ping: Bytes, p: nat, open: Opener) {
    && PathInv(d.path)
    && BuffersLong(d.buffers)
    && counted == |d.disk.writers| + |d.chunks| + |held|
    && p <= |d.disk.writers| + |Line(d, held)|
    && RightTasks(d.disk.writers, ping, p, open)
    && RightLine(Line(d, held), |d.disk.writers|, ping, p, open)
  }

  lemma FlowStarts(ping: Bytes, p: nat, open: Opener)
    requires Sendable(ping)
    ensures Flow(NO_DATA.(path := IDLE.(downlink := FrameAll(Copies(ping, p)))), [], 0, ping, p, open)
  {
    var path := IDLE.(downlink := FrameAll(Copies(ping, p)));
    assert Stream(path) == FrameAll(Copies(ping, p));
    RoundTrip(Copies(ping, p));
    assert Line(NO_DATA.(path := path), []) == Copies(ping, p);
  }

  /** Reading a range adds a buffer; it does not touch the line. */
  lemma ReadFlows(d: Data, d': Data, sources: seq<Bytes>, held: seq<Bytes>, counted: nat,
                  ping: Bytes, p: nat, open: Opener)
    requires Flow(d, held, counted, ping, p, open) && ReadStep(sources, d, d')
    ensures Flow(d', held, counted, ping, p, open)
  {
    assert Line(d', held) == Line(d, held);
  }

  lemma SendFlows(d: Data, d': Data, held: seq<Bytes>, counted: nat, ping: Bytes, p: nat, open: Opener,
                  capacity: nat, buffer: Bytes, m: Bytes)
    requires Flow(d, held, counted, ping, p, open) && SendStep(capacity, d, d', buffer, m) && Whole(m, open)
    ensures Flow(d', held, counted, ping, p, open)
  {
    if Sendable(m) {
      EnqueueAppends(d.path, d'.path, m, capacity);
      assert Line(d', held) == Line(d, held) + [m];
    } else {
      assert Line(d', held) == Line(d, held);
    }
  }

  lemma MoveFlows(d: Data, d': Data, held: seq<Bytes>, counted: nat, ping: Bytes, p: nat, open: Opener, capacity: nat)
    requires Flow(d, held, counted, ping, p, open) && MoveStep(capacity, d, d')
    ensures Flow(d', held, counted, ping, p, open)
  {
    InternalKeeps(d.path, d'.path, capacity);
    assert Line(d', held) == Line(d, held);
  }

  lemma TakeFlows(d: Data, d': Data, m: Bytes, counted: nat, ping: Bytes, p: nat, open: Opener)
    requires Flow(d, [], counted, ping, p, open) && TakeFrameStep(d, d', m)
    ensures Flow(d', [m], counted + 1, ping, p, open)
  {
    DequeueTakesOldest(d.path, d'.path, m);
    TakenOn(Datas(d.chunks), m, InFlight(d'.path));
    assert Line(d', [m]) == Line(d, []);
  }

  lemma ForwardFlows(d: Data, m: Bytes, counted: nat, ping: Bytes, p: nat, open: Opener)
    requires Flow(d, [m], counted, ping, p, open) && d.disk.handles != []
    ensures Flow(QueueChunk(d, m), [], counted, ping, p, open)
  {
    var d' := QueueChunk(d, m);
    DatasGrow(d.chunks, FileChunk(|d.disk.handles| - 1, m));
    HandedOn(Datas(d.chunks), m, InFlight(d.path));
    assert Line(d', []) == Line(d, [m]);
  }

  lemma DatasGrow(chunks: seq<FileChunk>, c: FileChunk)
    ensures Datas(chunks + [c]) == Datas(chunks) + [c.data]
  {
  }

  lemma TakenOn(xs: seq<Bytes>, m: Bytes, ys: seq<Bytes>)
    ensures xs + [] + ([m] + ys) == xs + [m] + ys
  {
  }

  lemma HandedOn(xs: seq<Bytes>, m: Bytes, ys: seq<Bytes>)
    ensures xs + [m] + [] + ys == xs + [m] + ys
  {
  }

  lemma SpawnFlows(d: Data, d': Data, held: seq<Bytes>, counted: nat, ping: Bytes, p: nat, open: Opener)
    requires Flow(d, held, counted, ping, p, open) && SpawnStep(d, d')
    ensures Flow(d', held, counted, ping, p, open)
  {
    assert Datas(d'.chunks) == Datas(d.chunks)[1..];
    assert Line(d', held) == Line(d, held)[1..];
    assert RightFrame(Line(d, held)[0], |d.disk.writers|, ping, p, open);
    LineMovesUp(Line(d, held), |d.disk.writers|, ping, p, open);
  }

  lemma LineMovesUp(line: seq<Bytes>, from: nat, ping: Bytes, p: nat, open: Opener)
    requires line != [] && RightLine(line, from, ping, p, open)
    ensures RightLine(line[1..], from + 1, ping, p, open)
  {
    forall k | 0 <= k < |line| - 1
      ensures RightFrame(line[1..][k], from + 1 + k, ping, p, open)
    {
      assert RightFrame(line[k + 1], from + (k + 1), ping, p, open);
    }
  }

  /** A task that opens a ping crashes, one that opens a chunk does not. */
  lemma WriteFlows(d: Data, d': Data, t: nat, held: seq<Bytes>, counted: nat, ping: Bytes, p: nat, open: Opener)
    requires |ping| < NONCE_LENGTH
    requires Flow(d, held, counted, ping, p, open) && WriteStep(d, d', t, open)
    ensures Flow(d', held, counted, ping, p, open)
  {
    TasksStayRight(d.disk, d'.disk, t, ping, p, open);
    assert Line(d', held) == Line(d, held);
  }

  lemma TasksStayRight(d: Disk, d': Disk, t: nat, ping: Bytes, p: nat, open: Opener)
    requires |ping| < NONCE_LENGTH && RightTasks(d.writers, ping, p, open) && WriterStep(d, d', t, open)
    ensures |d'.writers| == |d.writers| && RightTasks(d'.writers, ping, p, open)
  {
    forall u | 0 <= u < |d'.writers|
      ensures if u < p then HoldsPing(d'.writers[u], ping) else HoldsChunk(d'.writers[u], open)
    {
      assert u != t ==> d'.writers[u] == d.writers[u];
    }
  }

  // ----- where the frames go -----

  /** Place `n` in line belongs to file `h`, whichever file the frame was cut from. */
  ghost predicate InPlace(cfg: Config, n: nat, h: nat) {
    h < |cfg.sources| && Before(cfg, h) <= n < Before(cfg, h + 1)
  }

  ghost predicate TaskInPlace(cfg: Config, w: Writer, t: nat) {
    w.Complete? || w.Crashed? || InPlace(cfg, t, w.handle)
  }

  ghost predicate Placed(cfg: Config, d: Data) {
    && (forall t :: 0 <= t < |d.disk.writers| ==> TaskInPlace(cfg, d.disk.writers[t], t))
    && (forall t :: 0 <= t < |d.chunks| ==> InPlace(cfg, |d.disk.writers| + t, d.chunks[t].handle))
  }

  lemma ForwardPlaces(cfg: Config, d: Data, m: Bytes, i: nat, n: nat)
    requires Placed(cfg, d) && i < |cfg.sources| && n < CountOf(cfg.sources[i])
    requires |d.disk.handles| == i + 1 && |d.disk.writers| + |d.chunks| == Before(cfg, i) + n
    ensures Placed(cfg, QueueChunk(d, m))
  {
    assert InPlace(cfg, |d.disk.writers| + |d.chunks|, i);
  }

  lemma SamePlaces(cfg: Config, d: Data, d': Data)
    requires Placed(cfg, d) && d'.chunks == d.chunks && d'.disk.writers == d.disk.writers
    ensures Placed(cfg, d')
  {
  }

  lemma SpawnPlaces(cfg: Config, d: Data, d': Data)
    requires Placed(cfg, d) && SpawnStep(d, d')
    ensures Placed(cfg, d')
  {
    assert InPlace(cfg, |d.disk.writers| + 0, d.chunks[0].handle);
    forall t | 0 <= t < |d'.chunks|
      ensures InPlace(cfg, |d'.disk.writers| + t, d'.chunks[t].handle)
    {
      assert InPlace(cfg, |d.disk.writers| + (t + 1), d.chunks[t + 1].handle);
    }
  }

  lemma WritePlaces(cfg: Config, d: Data, d': Data, t: nat, open: Opener)
    requires Placed(cfg, d) && WriteStep(d, d', t, open)
    ensures Placed(cfg, d')
  {
    forall u | 0 <= u < |d'.disk.writers|
      ensures TaskInPlace(cfg, d'.disk.writers[u], u)
    {
      assert TaskInPlace(cfg, d.disk.writers[u], u);
    }
  }

  lemma TaskPlaces(cfg: Config, s: System, e: Event, s': System)
    requires Placed(cfg, s.data) && IsTaskEvent(e) && Step(cfg, s, e, s')
    ensures Placed(cfg, s'.data)
  {
    if e.SpawnWriter? {
      SpawnPlaces(cfg, s.data, s'.data);
    } else if e.RunWriter? {
      WritePlaces(cfg, s.data, s'.data, e.task, OpenerOf(cfg.crypto, s.receiver.session.value));
    }
  }

  // ----- every step, every run -----

  ghost predicate PingedInv(cfg: Config, ping: Bytes, p: nat, s: System)
    requires Agreeable(cfg)
  {
    && (exists phase :: Loose(cfg, s, phase))
    && Flow(s.data, Held(s.receiver.pc), Counted(cfg, s.receiver), ping, p, PlanOf(cfg).open)
    && Placed(cfg, s.data)
  }

  lemma LooseSessions(cfg: Config, s: System, phase: Phase)
    requires Agreeable(cfg) && Loose(cfg, s, phase)
    ensures s.sender.session.Some? ==> s.sender.session.value == SharedSession(cfg)
    ensures s.receiver.session.Some? ==> s.receiver.session.value == SharedSession(cfg)
  {
    if IsEarly(phase) {
      SessionsAgree(cfg, s, phase);
    }
  }

  lemma ControlFlows(cfg: Config, s: System, e: Event, s': System, phase: Phase) returns (phase': Phase)
    requires Agreeable(cfg) && KeysAgree(cfg) && FilesReady(cfg) && Loose(cfg, s, phase)
    requires IsControlEvent(e) && Step(cfg, s, e, s')
    ensures Loose(cfg, s', phase') && s'.data == s.data
    ensures Counted(cfg, s'.receiver) == Counted(cfg, s.receiver) && Held(s'.receiver.pc) == Held(s.receiver.pc)
  {
    match e
    case BeginSender =>
      phase' := phase;
      BeginLoose(cfg, s, e, s', phase);
    case BeginReceiver =>
      phase' := KeySent;
      BeginLoose(cfg, s, e, s', phase);
    case SenderHandles =>
      phase' := SenderServesLoose(cfg, s, s', phase);
    case ReceiverHandles =>
      phase' := ReceiverHandlesLoose(cfg, s, s', phase);
      LooseHoldsNothing(cfg, s', phase');
  }

  lemma BeginLoose(cfg: Config, s: System, e: Event, s': System, phase: Phase)
    requires Agreeable(cfg) && Loose(cfg, s, phase) && (e.BeginSender? || e.BeginReceiver?) && Step(cfg, s, e, s')
    ensures Loose(cfg, s', if e.BeginSender? then phase else KeySent) && s'.data == s.data
    ensures Counted(cfg, s'.receiver) == Counted(cfg, s.receiver) && Held(s'.receiver.pc) == Held(s.receiver.pc)
  {
    StartIsEarly(cfg, s, phase);
    EarlyCounts(cfg, s, phase);
    if e.BeginSender? {
      BeginSenderKeeps(cfg, s, s', phase);
    } else {
      BeginReceiverKeeps(cfg, s, s', phase);
      EarlyCounts(cfg, s', KeySent);
    }
  }

  lemma StartIsEarly(cfg: Config, s: System, phase: Phase)
    requires Agreeable(cfg) && Loose(cfg, s, phase) && (s.sender.pc == Start || s.receiver.pc == Start)
    ensures IsEarly(phase)
  {
  }

  lemma LooseHoldsNothing(cfg: Config, s: System, phase: Phase)
    requires Agreeable(cfg) && Loose(cfg, s, phase)
    ensures s.receiver.pc.Forwarding? ==> phase == Transferring
    ensures s.sender.pc.Sending? ==> phase == Transferring || phase == Closing
  {
  }

  lemma TaskFlows(cfg: Config, ping: Bytes, p: nat, s: System, e: Event, s': System)
    requires |cfg.secret| >= SECRET_PREFIX && LawfulPlan(PlanOf(cfg)) && |ping| < NONCE_LENGTH
    requires s.sender.session.Some? ==> s.sender.session.value == SharedSession(cfg)
    requires s.receiver.session.Some? ==> s.receiver.session.value == SharedSession(cfg)
    requires Flow(s.data, Held(s.receiver.pc), Counted(cfg, s.receiver), ping, p, PlanOf(cfg).open)
    requires IsTaskEvent(e) && Step(cfg, s, e, s')
    ensures Flow(s'.data, Held(s.receiver.pc), Counted(cfg, s.receiver), ping, p, PlanOf(cfg).open)
  {
    var held, counted, open := Held(s.receiver.pc), Counted(cfg, s.receiver), PlanOf(cfg).open;
    match e
    case ReadChunk => ReadFlows(s.data, s'.data, cfg.sources, held, counted, ping, p, open);
    case EncryptAndSend(b, nonce) =>
      var m := PlanOf(cfg).seal(nonce, b);
      assert Whole(m, open);
      SendFlows(s.data, s'.data, held, counted, ping, p, open, cfg.capacity, b, m);
    case MoveData => MoveFlows(s.data, s'.data, held, counted, ping, p, open, cfg.capacity);
    case SpawnWriter => SpawnFlows(s.data, s'.data, held, counted, ping, p, open);
    case RunWriter(t) => WriteFlows(s.data, s'.data, t, held, counted, ping, p, open);
  }

  lemma SameLineFlows(d: Data, d': Data, held: seq<Bytes>, counted: nat, ping: Bytes, p: nat, open: Opener)
    requires Flow(d, held, counted, ping, p, open)
    requires d'.path == d.path && d'.buffers == d.buffers && d'.chunks == d.chunks
    requires d'.disk.writers == d.disk.writers
    ensures Flow(d', held, counted, ping, p, open)
  {
    assert Line(d', held) == Line(d, held);
  }

  /** Whoever is in a loop goes on in it, and no frame moves. */
  ghost predicate LoopMoves(cfg: Config, s: System, s': System, phase': Phase)
    requires Agreeable(cfg)
  {
    && Loose(cfg, s', phase') && Counted(cfg, s'.receiver) == Counted(cfg, s.receiver)
    && Held(s'.receiver.pc) == Held(s.receiver.pc)
  }

  lemma QueueNextLoose(cfg: Config, s: System, s': System, phase: Phase)
    requires Agreeable(cfg) && FilesReady(cfg) && Loose(cfg, s, phase) && Step(cfg, s, QueueNext, s')
    ensures LoopMoves(cfg, s, s', phase)
  {
    LooseInLoop(cfg, s, phase);
    assert LengthOf(Lengths(cfg), s.sender.pc.index) == |cfg.sources[s.sender.pc.index]|;
  }

  lemma RequestFileLoose(cfg: Config, s: System, s': System)
    requires Agreeable(cfg) && FilesReady(cfg) && Loose(cfg, s, Transferring) && Step(cfg, s, RequestFile, s')
    ensures LoopMoves(cfg, s, s', if s.receiver.pc.index >= |cfg.sources| then Closing else Transferring)
  {
    assert s'.toSender[..|s.toSender|] == s.toSender;
  }

  lemma SizeAndRequestLoose(cfg: Config, s: System, s': System)
    requires Agreeable(cfg) && FilesReady(cfg) && Loose(cfg, s, Transferring) && Step(cfg, s, SizeAndRequest, s')
    ensures LoopMoves(cfg, s, s', Transferring)
  {
    assert s'.toSender == s.toSender + [RecipientReady(s.receiver.pc.index)];
    CountAgrees(|cfg.sources[s.receiver.pc.index]|, 0);
  }

  lemma NextFileLoose(cfg: Config, s: System, s': System)
    requires Agreeable(cfg) && FilesReady(cfg) && Loose(cfg, s, Transferring) && Step(cfg, s, NextFile, s')
    ensures LoopMoves(cfg, s, s', Transferring)
  {
    var i := s.receiver.pc.index;
    assert Expected(s.receiver, i) == CountOf(cfg.sources[i]);
  }

  lemma LoopTouches(cfg: Config, s: System, e: Event, s': System)
    requires Step(cfg, s, e, s') && (e.QueueNext? || e.RequestFile? || e.SizeAndRequest? || e.NextFile?)
    ensures s'.data.path == s.data.path && s'.data.buffers == s.data.buffers && s'.data.chunks == s.data.chunks
    ensures s'.data.disk.writers == s.data.disk.writers
  {
  }

  lemma LooseInLoop(cfg: Config, s: System, phase: Phase)
    requires Agreeable(cfg) && Loose(cfg, s, phase)
    ensures s.sender.pc.Sending? ==> phase == Transferring || phase == Closing
    ensures (s.receiver.pc.Requesting? || s.receiver.pc.Sizing? || s.receiver.pc.Receiving?
             || s.receiver.pc.Forwarding?) ==> phase == Transferring
  {
  }

  lemma TakeChunkFlows(cfg: Config, ping: Bytes, p: nat, s: System, m: Bytes, s': System)
    requires Agreeable(cfg) && FilesReady(cfg) && Loose(cfg, s, Transferring) && Step(cfg, s, TakeChunk(m), s')
    requires Flow(s.data, Held(s.receiver.pc), Counted(cfg, s.receiver), ping, p, PlanOf(cfg).open)
    ensures Loose(cfg, s', Transferring)
    ensures Flow(s'.data, Held(s'.receiver.pc), Counted(cfg, s'.receiver), ping, p, PlanOf(cfg).open)
  {
    TakeChunkLoose(cfg, s, m, s');
    TakeFlows(s.data, s'.data, m, Counted(cfg, s.receiver), ping, p, PlanOf(cfg).open);
  }

  lemma TakeChunkLoose(cfg: Config, s: System, m: Bytes, s': System)
    requires Agreeable(cfg) && FilesReady(cfg) && Loose(cfg, s, Transferring) && Step(cfg, s, TakeChunk(m), s')
    ensures Loose(cfg, s', Transferring) && Counted(cfg, s'.receiver) == Counted(cfg, s.receiver) + 1
    ensures Held(s.receiver.pc) == [] && Held(s'.receiver.pc) == [m]
  {
    var i := s.receiver.pc.index;
    assert Expected(s.receiver, i) == ChunkCount(|cfg.sources[i]|);
  }

  lemma ForwardChunkFlows(cfg: Config, ping: Bytes, p: nat, s: System, s': System)
    requires Agreeable(cfg) && Loose(cfg, s, Transferring) && Step(cfg, s, ForwardChunk, s') && Placed(cfg, s.data)
    requires Flow(s.data, Held(s.receiver.pc), Counted(cfg, s.receiver), ping, p, PlanOf(cfg).open)
    ensures Loose(cfg, s', Transferring) && Placed(cfg, s'.data)
    ensures Flow(s'.data, Held(s'.receiver.pc), Counted(cfg, s'.receiver), ping, p, PlanOf(cfg).open)
  {
    ForwardChunkLoose(cfg, s, s');
    ForwardFlows(s.data, s.receiver.pc.chunk, Counted(cfg, s.receiver), ping, p, PlanOf(cfg).open);
    ForwardPlaces(cfg, s.data, s.receiver.pc.chunk, s.receiver.pc.index, s.receiver.pc.count);
  }

  lemma ForwardChunkLoose(cfg: Config, s: System, s': System)
    requires Agreeable(cfg) && Loose(cfg, s, Transferring) && Step(cfg, s, ForwardChunk, s')
    ensures Loose(cfg, s', Transferring) && Counted(cfg, s'.receiver) == Counted(cfg, s.receiver)
    ensures Held(s.receiver.pc) == [s.receiver.pc.chunk] && Held(s'.receiver.pc) == []
    ensures s.data.disk.handles != [] && s'.data == QueueChunk(s.data, s.receiver.pc.chunk)
    ensures s.receiver.pc.index < |cfg.sources| && s.receiver.pc.count < CountOf(cfg.sources[s.receiver.pc.index])
    ensures |s.data.disk.handles| == s.receiver.pc.index + 1
    ensures Counted(cfg, s.receiver) == Before(cfg, s.receiver.pc.index) + s.receiver.pc.count + 1
  {
  }

  lemma PingedStepKeeps(cfg: Config, ping: Bytes, p: nat, s: System, e: Event, s': System)
    requires Honest(cfg) && Agreeable(cfg) && |ping| < NONCE_LENGTH
    requires PingedInv(cfg, ping, p, s) && Step(cfg, s, e, s')
    ensures PingedInv(cfg, ping, p, s')
  {
    HonestKeys(cfg);
    HonestPlan(cfg);
    var phase :| Loose(cfg, s, phase);
    PingedStepFrom(cfg, ping, p, s, e, s', phase);
  }

  lemma PingedStepFrom(cfg: Config, ping: Bytes, p: nat, s: System, e: Event, s': System, phase: Phase)
    requires Agreeable(cfg) && KeysAgree(cfg) && FilesReady(cfg) && LawfulPlan(PlanOf(cfg)) && |ping| < NONCE_LENGTH
    requires Loose(cfg, s, phase) && Step(cfg, s, e, s') && Placed(cfg, s.data)
    requires Flow(s.data, Held(s.receiver.pc), Counted(cfg, s.receiver), ping, p, PlanOf(cfg).open)
    ensures PingedInv(cfg, ping, p, s')
  {
    if IsControlEvent(e) {
      var phase' := ControlFlows(cfg, s, e, s', phase);
    } else if IsTaskEvent(e) {
      TaskPinged(cfg, ping, p, s, e, s', phase);
    } else {
      LoopPinged(cfg, ping, p, s, e, s', phase);
    }
  }

  lemma TaskPinged(cfg: Config, ping: Bytes, p: nat, s: System, e: Event, s': System, phase: Phase)
    requires Agreeable(cfg) && LawfulPlan(PlanOf(cfg)) && |ping| < NONCE_LENGTH
    requires Loose(cfg, s, phase) && IsTaskEvent(e) && Step(cfg, s, e, s') && Placed(cfg, s.data)
    requires Flow(s.data, Held(s.receiver.pc), Counted(cfg, s.receiver), ping, p, PlanOf(cfg).open)
    ensures PingedInv(cfg, ping, p, s')
  {
    LooseSessions(cfg, s, phase);
    TaskFlows(cfg, ping, p, s, e, s');
    TaskPlaces(cfg, s, e, s');
    TaskStaysLoose(cfg, s, e, s', phase);
  }

  lemma LoopPinged(cfg: Config, ping: Bytes, p: nat, s: System, e: Event, s': System, phase: Phase)
    requires Agreeable(cfg) && FilesReady(cfg) && Loose(cfg, s, phase) && Placed(cfg, s.data)
    requires !IsControlEvent(e) && !IsTaskEvent(e) && Step(cfg, s, e, s')
    requires Flow(s.data, Held(s.receiver.pc), Counted(cfg, s.receiver), ping, p, PlanOf(cfg).open)
    ensures PingedInv(cfg, ping, p, s')
  {
    LooseInLoop(cfg, s, phase);
    if e.TakeChunk? {
      TakeChunkFlows(cfg, ping, p, s, e.m, s');
      SamePlaces(cfg, s.data, s'.data);
    } else if e.ForwardChunk? {
      ForwardChunkFlows(cfg, ping, p, s, s');
    } else {
      QuietLoopPinged(cfg, ping, p, s, e, s', phase);
    }
  }

  lemma QuietLoopPinged(cfg: Config, ping: Bytes, p: nat, s: System, e: Event, s': System, phase: Phase)
    requires Agreeable(cfg) && FilesReady(cfg) && Loose(cfg, s, phase) && (e.QueueNext? || phase == Transferring)
    requires e.QueueNext? || e.RequestFile? || e.SizeAndRequest? || e.NextFile?
    requires Step(cfg, s, e, s') && Placed(cfg, s.data)
    requires Flow(s.data, Held(s.receiver.pc), Counted(cfg, s.receiver), ping, p, PlanOf(cfg).open)
    ensures PingedInv(cfg, ping, p, s')
  {
    var phase' := LoopStaysLoose(cfg, s, e, s', phase);
    LoopTouches(cfg, s, e, s');
    SameLineFlows(s.data, s'.data, Held(s.receiver.pc), Counted(cfg, s.receiver), ping, p, PlanOf(cfg).open);
    SamePlaces(cfg, s.data, s'.data);
  }

  lemma LoopStaysLoose(cfg: Config, s: System, e: Event, s': System, phase: Phase) returns (phase': Phase)
    requires Agreeable(cfg) && FilesReady(cfg) && Loose(cfg, s, phase) && (e.QueueNext? || phase == Transferring)
    requires e.QueueNext? || e.RequestFile? || e.SizeAndRequest? || e.NextFile?
    requires Step(cfg, s, e, s')
    ensures LoopMoves(cfg, s, s', phase')
  {
    phase' := phase;
    match e
    case QueueNext => QueueNextLoose(cfg, s, s', phase);
    case RequestFile =>
      RequestFileLoose(cfg, s, s');
      phase' := if s.receiver.pc.index >= |cfg.sources| then Closing else Transferring;
    case SizeAndRequest => SizeAndRequestLoose(cfg, s, s');
    case NextFile => NextFileLoose(cfg, s, s');
  }

  lemma TaskStaysLoose(cfg: Config, s: System, e: Event, s': System, phase: Phase)
    requires Agreeable(cfg) && Loose(cfg, s, phase) && IsTaskEvent(e) && Step(cfg, s, e, s')
    ensures Loose(cfg, s', phase) && Counted(cfg, s'.receiver) == Counted(cfg, s.receiver) && s'.receiver == s.receiver
  {
    TaskTouchesData(cfg, s, e, s');
    TaskKeepsHandles(cfg, s, e, s');
    LooseIgnoresData(cfg, s, s', phase);
  }

  lemma TaskKeepsHandles(cfg: Config, s: System, e: Event, s': System)
    requires IsTaskEvent(e) && Step(cfg, s, e, s')
    ensures |s'.data.disk.handles| == |s.data.disk.handles|
  {
  }

  lemma LooseIgnoresData(cfg: Config, s: System, s': System, phase: Phase)
    requires Agreeable(cfg) && Loose(cfg, s, phase) && s' == s.(data := s'.data)
    requires |s'.data.disk.handles| == |s.data.disk.handles|
    ensures Loose(cfg, s', phase) && Counted(cfg, s'.receiver) == Counted(cfg, s.receiver)
  {
  }

  lemma {:induction false} PingedRunKeeps(cfg: Config, ping: Bytes, p: nat, run: seq<System>)
    requires Honest(cfg) && Agreeable(cfg) && |ping| < NONCE_LENGTH && IsPingedRun(cfg, ping, p, run)
    ensures PingedInv(cfg, ping, p, run[|run| - 1])
    decreases |run|
  {
    var n := |run|;
    if n == 1 {
      FlowStarts(ping, p, PlanOf(cfg).open);
      assert Loose(cfg, run[0], Opening) && Placed(cfg, run[0].data);
    } else {
      PingedRunKeeps(cfg, ping, p, run[..n - 1]);
      assert Next(cfg, run[n - 2], run[n - 1]);
      var e :| Step(cfg, run[n - 2], e, run[n - 1]);
      PingedStepKeeps(cfg, ping, p, run[n - 2], e, run[n - 1]);
    }
  }

  // ----- what the pings cost -----

  lemma TotalCounted(cfg: Config, s: System, phase: Phase)
    requires Agreeable(cfg) && FilesReady(cfg) && Loose(cfg, s, phase) && s.receiver.pc == Returned
    ensures Counted(cfg, s.receiver) == Total(cfg)
  {
    if cfg.files.value.toTransfer.None? {
      assert |cfg.sources| == 0;
    }
  }

  lemma {:induction false} NothingToCount(cfg: Config, i: nat)
    requires i <= |cfg.sources|
    ensures Before(cfg, i) == 0 <==> forall j :: 0 <= j < i ==> cfg.sources[j] == []
  {
    if i > 0 {
      NothingToCount(cfg, i - 1);
      CountAgrees(|cfg.sources[i - 1]|, 0);
    }
  }

  /** In every run that starts with `p` pings on the data connection, the first `p`
      frames that the writer task gets are the pings, and their tasks crash; every
      other frame goes to the file that its place belongs to, `p` places too late;
      and still neither session panics. */
  lemma PingsComeFirst(cfg: Config, ping: Bytes, p: nat, s: System)
    requires Honest(cfg) && Agreeable(cfg) && |ping| < NONCE_LENGTH && PingedReachable(cfg, ping, p, s)
    ensures forall t :: 0 <= t < |s.data.disk.writers| ==> (HoldsPing(s.data.disk.writers[t], ping) <==> t < p)
    ensures forall t :: 0 <= t < |s.data.disk.writers| ==> TaskInPlace(cfg, s.data.disk.writers[t], t)
    ensures !s.sender.pc.Panicked? && !s.receiver.pc.Panicked?
  {
    var run: seq<System> :| IsPingedRun(cfg, ping, p, run) && run[|run| - 1] == s;
    PingedRunKeeps(cfg, ping, p, run);
    var phase :| Loose(cfg, s, phase);
    LooseIsAlive(cfg, s, phase);
  }

  lemma LooseIsAlive(cfg: Config, s: System, phase: Phase)
    requires Agreeable(cfg) && Loose(cfg, s, phase)
    ensures !s.sender.pc.Panicked? && !s.receiver.pc.Panicked?
  {
  }

  /** When the receiver is done and all frames have tasks, there are as many tasks as
      the files have chunks, and the first `p` of them hold pings: as many chunks
      never reach a file.  All tasks hold chunks exactly when there was no ping, or
      all files are empty. */
  lemma PingsCostExactly(cfg: Config, ping: Bytes, p: nat, s: System)
    requires Honest(cfg) && Agreeable(cfg) && |ping| < NONCE_LENGTH && PingedReachable(cfg, ping, p, s)
    requires s.receiver.pc == Returned && s.data.chunks == []
    ensures |s.data.disk.writers| == Total(cfg)
    ensures forall t :: 0 <= t < Total(cfg) ==> (HoldsPing(s.data.disk.writers[t], ping) <==> t < p)
    ensures (forall w :: w in s.data.disk.writers ==> !HoldsPing(w, ping))
            <==> p == 0 || forall j :: 0 <= j < |cfg.sources| ==> cfg.sources[j] == []
  {
    PingsComeFirst(cfg, ping, p, s);
    HonestPlan(cfg);
    var run: seq<System> :| IsPingedRun(cfg, ping, p, run) && run[|run| - 1] == s;
    PingedRunKeeps(cfg, ping, p, run);
    var phase :| Loose(cfg, s, phase);
    TotalCounted(cfg, s, phase);
    NothingToCount(cfg, |cfg.sources|);
    if p > 0 && Total(cfg) > 0 {
      assert s.data.disk.writers[0] in s.data.disk.writers;
    }
  }
}
