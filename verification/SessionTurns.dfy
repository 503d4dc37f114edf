/** The session objects take part in the joint machine: each turn of a
    `ClientSession` is a step of `Transfer` from a reachable state to a reachable
    state, so every theorem about that machine is about these methods, whatever
    the other client and the tasks do between the turns. */
module SessionTurns {
  import opened Chunks
  import opened ClientSessions
  import opened Pipeline
  import opened Protocol
  import opened Transfer
  import opened EndToEnd

  lemma ReachStep(cfg: Config, s: System, e: Event, s': System)
    requires Reachable(cfg, s) && Step(cfg, s, e, s')
    ensures Reachable(cfg, s')
  {
    var run: seq<System> :| IsRun(cfg, run) && run[|run| - 1] == s;
    ExtendRun(cfg, run, e, s');
    assert (run + [s'])[|run + [s']| - 1] == s';
  }

  lemma SenderSteps(cfg: Config, s: System)
    requires Reachable(cfg, s) && s.sender.pc == Waiting && s.toSender != [] && |s.sender.secret| >= SECRET_PREFIX
    ensures Step(cfg, s, SenderHandles, AfterSender(cfg, s)) && Reachable(cfg, AfterSender(cfg, s))
  {
    ReachStep(cfg, s, SenderHandles, AfterSender(cfg, s));
  }

  lemma ReceiverSteps(cfg: Config, s: System)
    requires Reachable(cfg, s) && s.receiver.pc == Waiting && s.toReceiver != []
    requires |s.receiver.secret| >= SECRET_PREFIX
    ensures Step(cfg, s, ReceiverHandles, AfterReceiver(cfg, s)) && Reachable(cfg, AfterReceiver(cfg, s))
  {
    ReachStep(cfg, s, ReceiverHandles, AfterReceiver(cfg, s));
  }

  /** The session is the machine's sender, or its receiver, at that point of its program. */
  ghost predicate IsClient(session: ClientSession, s: System, pc: Pc)
    reads session
  {
    session.View(pc) == if session.isSender then s.sender else s.receiver
  }

  /** What the session has sent since is what the machine has put on its channel. */
  ghost predicate SentOn(session: ClientSession, before: seq<Message>, s: System, s': System)
    reads session
  {
    && before <= session.sent
    && if session.isSender
       then s'.toReceiver == s.toReceiver + session.sent[|before|..]
       else s'.toSender == s.toSender + session.sent[|before|..]
  }

  method OpenTurn(session: ClientSession, cfg: Config, ghost s: System) returns (status: Status, ghost s': System)
    requires Reachable(cfg, s) && IsClient(session, s, Start)
    modifies session
    ensures Reachable(cfg, s') && Step(cfg, s, if session.isSender then BeginSender else BeginReceiver, s')
    ensures IsClient(session, s', ClientSession.PcOf(status)) && SentOn(session, old(session.sent), s, s')
  {
    ghost var before := session.sent;
    status := session.Open(cfg.crypto);
    if session.isSender {
      var o := Begin(s.sender, cfg.crypto);
      s' := s.(sender := o.client, toReceiver := s.toReceiver + o.sent);
      ReachStep(cfg, s, BeginSender, s');
    } else {
      var o := Begin(s.receiver, cfg.crypto);
      s' := s.(receiver := o.client, toSender := s.toSender + o.sent);
      ReachStep(cfg, s, BeginReceiver, s');
    }
  }

  /** The sender handles the next message.  A request takes the machine to the head
      of the chunk loop; the session has run that loop to its end, and what it
      handed over is what the machine queues from there on. */
  method SenderTurn(session: ClientSession, cfg: Config, ghost s: System, msg: Message)
    returns (status: Status, ghost s': System)
    requires Reachable(cfg, s) && session.isSender && IsClient(session, s, Waiting)
    requires s.toSender != [] && msg == s.toSender[0] && |session.sharedSecret| >= SECRET_PREFIX
    modifies session
    ensures Reachable(cfg, s') && Step(cfg, s, SenderHandles, s') && s' == AfterSender(cfg, s)
    ensures session.View(ClientSession.PcOf(status)) == Settled(s'.sender) && SentOn(session, old(session.sent), s, s')
    ensures session.requested == old(session.requested) + Queues(s'.sender.pc, Wanted(msg, WorldOf(cfg)))
  {
    var receiveFiles;
    status, receiveFiles := session.ProcessMessage(cfg.crypto, msg, WorldOf(cfg));
    s' := AfterSender(cfg, s);
    SenderSteps(cfg, s);
  }

  /** From the head of the chunk loop the machine queues those chunks, one a step. */
  lemma QueuesInOrder(cfg: Config, s: System, s': System)
    requires Step(cfg, s, QueueNext, s')
    requires s.sender.pc.next * CHUNK < LengthOf(Lengths(cfg), s.sender.pc.index)
    ensures var Sending(i, k) := s.sender.pc; var chunks := Queues(Sending(i, 0), LengthOf(Lengths(cfg), i));
            && k < |chunks| && s'.data.requests == s.data.requests + [ChunkRequest(chunks[k].0, chunks[k].1)]
            && s'.sender.pc == if k + 1 < |chunks| then Sending(i, k + 1) else Waiting
  {
    var Sending(i, k) := s.sender.pc;
    CountAgrees(LengthOf(Lengths(cfg), i), k);
    CountAgrees(LengthOf(Lengths(cfg), i), k + 1);
  }

  /** The receiver handles the next message. */
  method ReceiverTurn(session: ClientSession, cfg: Config, ghost s: System, msg: Message)
    returns (status: Status, receiveFiles: bool, ghost s': System)
    requires Reachable(cfg, s) && !session.isSender && IsClient(session, s, Waiting)
    requires s.toReceiver != [] && msg == s.toReceiver[0] && |session.sharedSecret| >= SECRET_PREFIX
    modifies session
    ensures Reachable(cfg, s') && Step(cfg, s, ReceiverHandles, s') && s' == AfterReceiver(cfg, s)
    ensures IsClient(session, s', if receiveFiles then Requesting(0) else ClientSession.PcOf(status))
    ensures SentOn(session, old(session.sent), s, s')
  {
    status, receiveFiles := session.ProcessMessage(cfg.crypto, msg, WorldOf(cfg));
    s' := AfterReceiver(cfg, s);
    ReceiverSteps(cfg, s);
  }

  ghost predicate AtFileLoop(session: ClientSession, cfg: Config, s: System, pc: Pc)
    reads session
  {
    && Reachable(cfg, s) && !session.isSender && IsClient(session, s, pc)
    && session.filesToReceive.Some? && session.filesToReceive.value.toTransfer.Some?
  }

  /** At the head of the file loop: the next file is created, or the loop is over. */
  method LoopTurn(session: ClientSession, cfg: Config, ghost s: System, index: nat) returns (ghost s': System)
    requires AtFileLoop(session, cfg, s, Requesting(index))
    modifies session`sent, session`created
    ensures Reachable(cfg, s') && Step(cfg, s, RequestFile, s') && SentOn(session, old(session.sent), s, s')
    ensures IsClient(session, s',
                     if index < |session.filesToReceive.value.toTransfer.value| then Sizing(index) else Waiting)
  {
    var list := session.filesToReceive.value.toTransfer.value;
    if index < |list| {
      session.CreateFile(index);
      s' := s.(receiver := s.receiver.(pc := Sizing(index)),
               data := Pipeline.CreateFile(s.data, cfg.resolve(list[index].path)));
    } else {
      session.Send(Finished);
      s' := s.(receiver := s.receiver.(pc := Waiting), toSender := s.toSender + [Finished]);
    }
    ReachStep(cfg, s, Event.RequestFile, s');
  }

  /** The file just created gets its length and is asked for. */
  method RequestTurn(session: ClientSession, cfg: Config, ghost s: System, index: nat)
    returns (status: Status, ghost s': System)
    requires AtFileLoop(session, cfg, s, Sizing(index)) && s.data.disk.handles != []
    requires index < |session.filesToReceive.value.toTransfer.value|
    modifies session`sent, session`created
    ensures Reachable(cfg, s') && Step(cfg, s, SizeAndRequest, s') && SentOn(session, old(session.sent), s, s')
    ensures IsClient(session, s', if status == Proceed then Receiving(index, 0) else ClientSession.PcOf(status))
  {
    var list := session.filesToReceive.value.toTransfer.value;
    status := session.RequestFile(index);
    if status == Proceed {
      s' := s.(receiver := s.receiver.(pc := Receiving(index, 0)), toSender := s.toSender + [RecipientReady(index)],
               data := SizeFile(s.data, list[index].size));
    } else {
      s' := s.(receiver := s.receiver.(pc := Failed(BadSize)));
    }
    ReachStep(cfg, s, SizeAndRequest, s');
  }
}
