/** What every configuration keeps, honest or not: queues stay within their bounds, a
    client that has stopped stays as it is, and nothing is asked for or touched that
    the receiving user has not agreed to. */
module Safety {
  import opened EndToEnd
  import opened FileTasks
  import opened Options
  import opened Pipeline
  import opened Protocol
  import opened Transfer
  import opened TransferSteps
  import opened Transport

  // ----- stopping -----

  predicate HasStopped(pc: Pc) {
    pc.Returned? || pc.Failed? || pc.Panicked?
  }

  /** At most the oldest message has been taken, and none was added. */
  predicate NothingSent(before: seq<Message>, after: seq<Message>) {
    after == before || (before != [] && after == before[1..])
  }

  /** Whoever has returned, failed or panicked does nothing any more. */
  lemma StoppedForGood(cfg: Config, s: System, e: Event, s': System)
    requires Step(cfg, s, e, s')
    ensures HasStopped(s.sender.pc) ==> s'.sender == s.sender && NothingSent(s.toReceiver, s'.toReceiver)
    ensures HasStopped(s.receiver.pc) ==> s'.receiver == s.receiver && NothingSent(s.toSender, s'.toSender)
    ensures HasStopped(s.receiver.pc) ==> SameHandles(s.data.disk.handles, s'.data.disk.handles)
  {
    if e.RunWriter? {
      StepKeepsFiles(s.data.disk, s'.data.disk, e.task, OpenerOf(cfg.crypto, s.receiver.session.value));
    }
  }

  // ----- bounds -----

  /** The channels to the reader and writer tasks, the two of the data connection, and
      the relay's buffer. */
  ghost predicate Bounded(d: Data, capacity: nat) {
    && |d.requests| <= capacity && |d.chunks| <= capacity
    && |d.path.queue| <= capacity && |d.path.inbox| <= capacity
    && |d.path.copy| <= 1024
  }

  lemma PathStaysBounded(p: Path, p': Path, capacity: nat)
    requires Internal(p, p', capacity) && |p.queue| <= capacity && |p.inbox| <= capacity && |p.copy| <= 1024
    ensures |p'.queue| <= capacity && |p'.inbox| <= capacity && |p'.copy| <= 1024
  {
  }

  lemma StaysBounded(cfg: Config, s: System, e: Event, s': System)
    requires Bounded(s.data, cfg.capacity) && Step(cfg, s, e, s')
    ensures Bounded(s'.data, cfg.capacity)
  {
    if e.MoveData? {
      PathStaysBounded(s.data.path, s'.data.path, cfg.capacity);
    }
  }

  // ----- consent -----

  /** The user has said yes, the folders could be made, and there is a list. */
  predicate Agreed(cfg: Config) {
    cfg.confirmed && cfg.foldersMade && cfg.files.Some? && cfg.files.value.toTransfer.Some?
  }

  predicate InFileLoop(pc: Pc) {
    pc.Requesting? || pc.Sizing? || pc.Receiving? || pc.Forwarding?
  }

  /** A message that is sent to the sender: a request for an announced file needs
      consent, and an error is the last thing that a refusing receiver says. */
  ghost predicate Licensed(cfg: Config, receiver: Client, m: Message) {
    && (m.RecipientReady? ==> Agreed(cfg) && 0 <= m.index < |FileList(cfg)| && FileList(cfg)[m.index].size >= 0)
    && (m.TypeError? ==> !cfg.confirmed && receiver.pc == Failed(TransferDenied))
  }

  /** None of the first `n` files is announced with a negative size. */
  ghost predicate SizesTrue(cfg: Config, n: nat) {
    n <= |FileList(cfg)| && forall j :: 0 <= j < n ==> FileList(cfg)[j].size >= 0
  }

  ghost predicate ReceiverLicensed(cfg: Config, c: Client) {
    && !c.isSender
    && (c.toReceive.Some? ==> c.toReceive == cfg.files)
    && (c.state == FileTransfer || InFileLoop(c.pc) ==> Agreed(cfg) && c.toReceive == cfg.files)
    && (InFileLoop(c.pc) ==> SizesTrue(cfg, if c.pc.Requesting? || c.pc.Sizing? then c.pc.index else c.pc.index + 1))
    && (c.pc == Start ==> c.state == KeyExchange)
    && (c.pc == Waiting && c.state == FileTransfer ==> SizesTrue(cfg, |FileList(cfg)|))
    && (c.pc == Failed(BadSize) ==> !SizesTrue(cfg, |FileList(cfg)|))
    && (c.state == FileTransferred ==> cfg.confirmed && cfg.foldersMade)
    && (c.pc == Failed(TransferDenied) ==> !cfg.confirmed)
    && (c.pc == Failed(FoldersNotMade) ==> cfg.confirmed && !cfg.foldersMade)
  }

  ghost predicate SenderLicensed(cfg: Config, c: Client) {
    && c.isSender && c.files == cfg.files
    && (c.pc.Sending? ==> Agreed(cfg))
  }

  /** Nothing is touched, asked for or said without consent. */
  ghost predicate Consented(cfg: Config, s: System) {
    && SenderLicensed(cfg, s.sender) && ReceiverLicensed(cfg, s.receiver)
    && (forall m :: m in s.toReceiver && m.FilesInfo? ==> Some(m.info) == cfg.files)
    && (forall m :: m in s.toSender ==> Licensed(cfg, s.receiver, m))
    && (!Agreed(cfg) ==> s.data == NO_DATA)
  }

  lemma SenderStaysLicensed(cfg: Config, s: System, s': System)
    requires Consented(cfg, s) && Step(cfg, s, SenderHandles, s')
    ensures Consented(cfg, s')
  {
    var m := s.toSender[0];
    var o := HandleMessage(s.sender, cfg.crypto, m, WorldOf(cfg));
    assert m in s.toSender && Licensed(cfg, s.receiver, m);
    SenderTakes(cfg, s.sender, m);
    forall x | x in s'.toReceiver && x.FilesInfo?
      ensures Some(x.info) == cfg.files
    {
      assert x in s.toReceiver || x in o.sent;
    }
    forall x | x in s'.toSender
      ensures Licensed(cfg, s'.receiver, x)
    {
      assert x in s.toSender;
    }
  }

  lemma SenderTakes(cfg: Config, c: Client, m: Message)
    requires SenderLicensed(cfg, c) && |c.secret| >= SECRET_PREFIX && c.pc == Waiting
    requires m.RecipientReady? ==> Agreed(cfg)
    ensures var o := HandleMessage(c, cfg.crypto, m, WorldOf(cfg));
            && SenderLicensed(cfg, o.client)
            && forall x :: x in o.sent && x.FilesInfo? ==> Some(x.info) == cfg.files
  {
  }

  lemma ReceiverStaysLicensed(cfg: Config, s: System, s': System)
    requires Consented(cfg, s) && Step(cfg, s, ReceiverHandles, s')
    ensures Consented(cfg, s')
  {
    var m := s.toReceiver[0];
    var o := HandleMessage(s.receiver, cfg.crypto, m, WorldOf(cfg));
    assert m in s.toReceiver;
    ReceiverTakes(cfg, s.receiver, m);
    forall x | x in s'.toReceiver && x.FilesInfo?
      ensures Some(x.info) == cfg.files
    {
      assert x in s.toReceiver;
    }
    forall x | x in s'.toSender
      ensures Licensed(cfg, s'.receiver, x)
    {
      assert x in s.toSender || x in o.sent;
      if x in s.toSender {
        assert Licensed(cfg, s.receiver, x);
      }
    }
  }

  ghost predicate ReceiverTookWell(cfg: Config, o: Outcome) {
    ReceiverLicensed(cfg, o.client) && forall x :: x in o.sent ==> Licensed(cfg, o.client, x)
  }

  lemma ReceiverTakes(cfg: Config, c: Client, m: Message)
    requires ReceiverLicensed(cfg, c) && |c.secret| >= SECRET_PREFIX && c.pc == Waiting
    requires m.FilesInfo? ==> Some(m.info) == cfg.files
    ensures ReceiverTookWell(cfg, HandleMessage(c, cfg.crypto, m, WorldOf(cfg)))
  {
    match m
    case FilesInfo(_) => ReceiverTakesList(cfg, c, m);
    case Pake(_, _) => ReceiverTakesKeys(cfg, c, m);
    case _ => ReceiverTakesOther(cfg, c, m);
  }

  lemma ReceiverTakesList(cfg: Config, c: Client, m: Message)
    requires ReceiverLicensed(cfg, c) && |c.secret| >= SECRET_PREFIX && c.pc == Waiting
    requires m.FilesInfo? && Some(m.info) == cfg.files
    ensures ReceiverTookWell(cfg, HandleMessage(c, cfg.crypto, m, WorldOf(cfg)))
  {
  }

  lemma ReceiverTakesKeys(cfg: Config, c: Client, m: Message)
    requires ReceiverLicensed(cfg, c) && |c.secret| >= SECRET_PREFIX && c.pc == Waiting
    requires m.Pake?
    ensures ReceiverTookWell(cfg, HandleMessage(c, cfg.crypto, m, WorldOf(cfg)))
  {
  }

  lemma ReceiverTakesOther(cfg: Config, c: Client, m: Message)
    requires ReceiverLicensed(cfg, c) && |c.secret| >= SECRET_PREFIX && c.pc == Waiting
    requires !m.Pake? && !m.FilesInfo?
    ensures ReceiverTookWell(cfg, HandleMessage(c, cfg.crypto, m, WorldOf(cfg)))
  {
  }

  lemma BeginStaysLicensed(cfg: Config, s: System, e: Event, s': System)
    requires Consented(cfg, s) && (e.BeginSender? || e.BeginReceiver?) && Step(cfg, s, e, s')
    ensures Consented(cfg, s')
  {
    if e.BeginReceiver? {
      var o := Begin(s.receiver, cfg.crypto);
      forall x | x in s'.toSender
        ensures Licensed(cfg, s'.receiver, x)
      {
        assert x in s.toSender || x in o.sent;
        if x in s.toSender {
          assert Licensed(cfg, s.receiver, x);
        }
      }
    } else {
      assert s'.toReceiver == s.toReceiver + [];
    }
  }

  lemma IdleTasksRest(cfg: Config, s: System, e: Event, s': System)
    requires s.data == NO_DATA && IsTaskEvent(e)
    ensures !Step(cfg, s, e, s')
  {
    if e.MoveData? && Step(cfg, s, e, s') {
      IdleRests(s'.data.path, cfg.capacity);
    }
  }

  lemma IdleRests(p: Path, capacity: nat)
    ensures !Internal(IDLE, p, capacity)
  {
  }

  lemma LoopStaysLicensed(cfg: Config, s: System, e: Event, s': System)
    requires Consented(cfg, s) && !IsControlEvent(e) && !IsTaskEvent(e) && Step(cfg, s, e, s')
    ensures Consented(cfg, s')
  {
    LoopClients(cfg, s, e, s');
    forall x | x in s'.toSender
      ensures Licensed(cfg, s'.receiver, x)
    {
      LoopMessage(cfg, s, e, s', x);
    }
  }

  lemma LoopClients(cfg: Config, s: System, e: Event, s': System)
    requires SenderLicensed(cfg, s.sender) && ReceiverLicensed(cfg, s.receiver)
    requires !IsControlEvent(e) && !IsTaskEvent(e) && Step(cfg, s, e, s')
    ensures SenderLicensed(cfg, s'.sender) && ReceiverLicensed(cfg, s'.receiver)
    ensures Agreed(cfg) && s'.toReceiver == s.toReceiver
  {
    if e.RequestFile? {
      LoopCreates(cfg, s, e, s');
    } else if e.SizeAndRequest? {
      LoopRequests(cfg, s, e, s');
    } else if !e.QueueNext? {
      LoopBody(cfg, s, e, s');
    }
  }

  lemma LoopCreates(cfg: Config, s: System, e: Event, s': System)
    requires ReceiverLicensed(cfg, s.receiver) && Step(cfg, s, e, s')
    requires e.RequestFile?
    ensures ReceiverLicensed(cfg, s'.receiver) && s'.sender == s.sender
    ensures Agreed(cfg) && s'.toReceiver == s.toReceiver
  {
  }

  lemma LoopRequests(cfg: Config, s: System, e: Event, s': System)
    requires ReceiverLicensed(cfg, s.receiver) && Step(cfg, s, e, s')
    requires e.SizeAndRequest?
    ensures ReceiverLicensed(cfg, s'.receiver) && s'.sender == s.sender
    ensures Agreed(cfg) && s'.toReceiver == s.toReceiver
  {
  }

  lemma LoopBody(cfg: Config, s: System, e: Event, s': System)
    requires ReceiverLicensed(cfg, s.receiver) && Step(cfg, s, e, s')
    requires e.TakeChunk? || e.NextFile? || e.ForwardChunk?
    ensures ReceiverLicensed(cfg, s'.receiver) && s'.sender == s.sender
    ensures Agreed(cfg) && s'.toReceiver == s.toReceiver
  {
  }

  lemma LoopMessage(cfg: Config, s: System, e: Event, s': System, m: Message)
    requires ReceiverLicensed(cfg, s.receiver) && (m in s.toSender ==> Licensed(cfg, s.receiver, m))
    requires !IsControlEvent(e) && !IsTaskEvent(e) && Step(cfg, s, e, s') && m in s'.toSender
    ensures Licensed(cfg, s'.receiver, m)
  {
    if m !in s.toSender {
      assert m == Finished || m == RecipientReady(s.receiver.pc.index);
    }
  }

  lemma StaysConsented(cfg: Config, s: System, e: Event, s': System)
    requires Consented(cfg, s) && Step(cfg, s, e, s')
    ensures Consented(cfg, s')
  {
    if e.SenderHandles? {
      SenderStaysLicensed(cfg, s, s');
    } else if e.ReceiverHandles? {
      ReceiverStaysLicensed(cfg, s, s');
    } else if IsControlEvent(e) {
      BeginStaysLicensed(cfg, s, e, s');
    } else if IsTaskEvent(e) {
      TaskStaysLicensed(cfg, s, e, s');
    } else {
      LoopStaysLicensed(cfg, s, e, s');
    }
  }

  lemma TaskStaysLicensed(cfg: Config, s: System, e: Event, s': System)
    requires Consented(cfg, s) && IsTaskEvent(e) && Step(cfg, s, e, s')
    ensures Consented(cfg, s')
  {
    TaskTouchesData(cfg, s, e, s');
    if !Agreed(cfg) {
      IdleTasksRest(cfg, s, e, s');
    }
  }

  // ----- every run -----

  lemma {:induction false} RunIsSafe(cfg: Config, run: seq<System>)
    requires IsRun(cfg, run)
    ensures var s := run[|run| - 1]; Bounded(s.data, cfg.capacity) && Consented(cfg, s)
    decreases |run|
  {
    var n := |run|;
    if n > 1 {
      EndToEnd.ShorterRun(cfg, run);
      RunIsSafe(cfg, run[..n - 1]);
      var e :| Step(cfg, run[n - 2], e, run[n - 1]);
      StaysBounded(cfg, run[n - 2], e, run[n - 1]);
      StaysConsented(cfg, run[n - 2], e, run[n - 1]);
    }
  }

  /** In every run of any configuration, also with a peer that announces sizes that are
      not true or with a cipher that does not work, no queue outgrows its bound. */
  lemma QueuesAreBounded(cfg: Config, s: System)
    requires Reachable(cfg, s)
    ensures Bounded(s.data, cfg.capacity)
  {
    var run: seq<System> :| IsRun(cfg, run) && run[|run| - 1] == s;
    RunIsSafe(cfg, run);
  }

  /** In every run of any configuration: unless the user agreed, the folders could be
      made and there is a list, no file is created or written, nothing is read or put
      on the data connection, and no file is asked for. */
  lemma NothingWithoutConsent(cfg: Config, s: System)
    requires Reachable(cfg, s)
    ensures !Agreed(cfg) ==> s.data == NO_DATA && !InFileLoop(s.receiver.pc) && !s.sender.pc.Sending?
    ensures forall m :: m in s.toSender && m.RecipientReady? ==>
              Agreed(cfg) && 0 <= m.index < |FileList(cfg)| && FileList(cfg)[m.index].size >= 0
    ensures InFileLoop(s.receiver.pc) ==> SizesTrue(cfg, s.receiver.pc.index)
    ensures s.receiver.pc == Failed(BadSize) ==> !SizesTrue(cfg, |FileList(cfg)|)
    ensures s.receiver.pc == Failed(FoldersNotMade) ==> cfg.confirmed && !cfg.foldersMade
    ensures s.receiver.pc == Failed(TransferDenied) || TypeError in s.toSender ==> !cfg.confirmed
    ensures TypeError in s.toSender ==> s.receiver.pc == Failed(TransferDenied)
  {
    var run: seq<System> :| IsRun(cfg, run) && run[|run| - 1] == s;
    RunIsSafe(cfg, run);
    forall m | m in s.toSender
      ensures Licensed(cfg, s.receiver, m)
    {
    }
  }
}
