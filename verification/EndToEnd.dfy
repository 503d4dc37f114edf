/** What holds of every run of a transfer: agreement, no panic, progress,
    termination, and delivery. */
module EndToEnd {
  import opened Bytes
  import opened Framing
  import opened Chunks
  import opened Protocol
  import opened Transport
  import opened FileTasks
  import opened Pipeline
  import opened Transfer
  import opened TransferSteps
  import opened Utf8

  // ----- safety -----

  predicate HasPanicked(s: System) {
    s.sender.pc.Panicked? || s.receiver.pc.Panicked?
  }

  predicate HasFailed(s: System) {
    s.sender.pc.Failed? || s.receiver.pc.Failed?
  }

  /** Both ends that hold a session hold the same key and salt, and nothing is
      queued for the data connection before the receiver holds its session. */
  lemma SessionAgreement(cfg: Config, s: System)
    requires Honest(cfg) && Agreeable(cfg) && Reachable(cfg, s)
    ensures s.sender.session.Some? && s.receiver.session.Some? ==> s.sender.session == s.receiver.session
    ensures s.sender.session.Some? ==> s.sender.session.value.salt == cfg.salt
    ensures s.data.requests != [] || s.data.buffers != multiset{} || InFlight(s.data.path) != [] ==>
              s.sender.session.Some? && s.receiver.session.Some?
  {
    ReachableInv(cfg, s);
    var phase :| InvAt(cfg, s, phase);
    SessionsAgree(cfg, s, phase);
    if !FocusOf(cfg, s).On? {
      assert DataIdle(s.data);
    }
  }

  lemma NoPanicNoFailure(cfg: Config, s: System)
    requires Honest(cfg) && Agreeable(cfg) && Reachable(cfg, s)
    ensures !HasPanicked(s) && !HasFailed(s)
  {
    ReachableInv(cfg, s);
    var phase :| InvAt(cfg, s, phase);
    ControlIsAlive(cfg, s, phase);
  }

  lemma ControlIsAlive(cfg: Config, s: System, phase: Phase)
    requires Agreeable(cfg) && Control(cfg, s, phase)
    ensures !HasPanicked(s) && !HasFailed(s)
  {
  }

  /** What has not yet been counted by the receiver belongs to file `i`: the
      ranges to read, the buffers, the frames on the connection and the frame the
      receiver holds. */
  ghost predicate OnlyFile(cfg: Config, s: System, i: nat, held: seq<Bytes>)
    requires |cfg.secret| >= SECRET_PREFIX
  {
    UpstreamGenuine(Source(cfg, i), i, s.data.requests, s.data.buffers, InFlight(s.data.path), held, PlanOf(cfg).open)
  }

  /** A frame carries no file index, yet it always reaches the file it was cut
      from, also while tasks of earlier files are still writing; and when a file is
      requested, nothing of an earlier one is left before the receiver's counter. */
  lemma NoMixing(cfg: Config, s: System)
    requires Honest(cfg) && Agreeable(cfg) && Reachable(cfg, s)
    ensures ChunksGenuine(cfg.sources, s.data.disk.handles, s.data.chunks, PlanOf(cfg).open)
    ensures AllGenuine(s.data.disk, cfg.sources, PlanOf(cfg).open)
    ensures forall h :: 0 <= h < |s.data.disk.handles| ==>
              h < |Targets(cfg)| && s.data.disk.handles[h].file == Targets(cfg)[h]
    ensures !s.receiver.pc.Receiving? && !s.receiver.pc.Forwarding? ==> DataIdle(s.data)
    ensures s.receiver.pc.Receiving? ==> OnlyFile(cfg, s, s.receiver.pc.index, [])
    ensures s.receiver.pc.Forwarding? ==> OnlyFile(cfg, s, s.receiver.pc.index, [s.receiver.pc.chunk])
  {
    ReachableInv(cfg, s);
    var phase :| InvAt(cfg, s, phase);
  }

  /** Long before it is whole, a file holds nothing but bytes of its source and zeros:
      nothing of what it held before, and nothing of any other file. */
  lemma NoForeignBytes(cfg: Config, s: System, i: nat)
    requires Honest(cfg) && Agreeable(cfg) && Reachable(cfg, s) && Consistent(PlanOf(cfg))
    requires i < |s.data.disk.handles|
    ensures var file := s.data.disk.handles[i].file;
            && i < |cfg.sources| && file in s.data.disk.files && |s.data.disk.files[file]| <= |cfg.sources[i]|
            && forall pos :: 0 <= pos < |s.data.disk.files[file]| ==>
                 s.data.disk.files[file][pos] == cfg.sources[i][pos] || s.data.disk.files[file][pos] == 0
  {
    ReachableInv(cfg, s);
    var phase :| InvAt(cfg, s, phase);
    FileIsClean(PlanOf(cfg), s.data.disk, i);
  }

  lemma FileIsClean(p: Plan, disk: Disk, i: nat)
    requires DiskPart(p, disk) && Consistent(p) && i < |disk.handles|
    ensures disk.handles[i].file in disk.files && Clean(disk.files[disk.handles[i].file], p.sources[i])
  {
    var h := LastOnFile(disk, i);
    assert p.targets[h] == p.targets[i];
    assert Content(disk, h) == disk.files[disk.handles[i].file];
  }

  function Source(cfg: Config, i: nat): Bytes {
    if i < |cfg.sources| then cfg.sources[i] else []
  }

  // ----- when a panicking arm is reached -----

  ghost predicate CanPanic(cfg: Config) {
    exists s :: Reachable(cfg, s) && HasPanicked(s)
  }

  lemma ExtendRun(cfg: Config, run: seq<System>, e: Event, s': System)
    requires IsRun(cfg, run) && Step(cfg, run[|run| - 1], e, s')
    ensures IsRun(cfg, run + [s'])
  {
    var longer := run + [s'];
    assert Next(cfg, run[|run| - 1], s');
  }

  lemma ShorterRun(cfg: Config, run: seq<System>)
    requires IsRun(cfg, run) && |run| > 1
    ensures IsRun(cfg, run[..|run| - 1]) && Next(cfg, run[|run| - 2], run[|run| - 1])
  {
    assert forall i, j :: 0 <= i < |run| - 1 && j == i + 1 < |run| - 1 ==> Next(cfg, run[i], run[j]);
  }

  function AfterSender(cfg: Config, s: System): System
    requires s.toSender != [] && |s.sender.secret| >= SECRET_PREFIX
  {
    var o := HandleMessage(s.sender, cfg.crypto, s.toSender[0], WorldOf(cfg));
    s.(sender := o.client, toSender := s.toSender[1..], toReceiver := s.toReceiver + o.sent)
  }

  function AfterReceiver(cfg: Config, s: System): System
    requires s.toReceiver != [] && |s.receiver.secret| >= SECRET_PREFIX
  {
    var o := HandleMessage(s.receiver, cfg.crypto, s.toReceiver[0], WorldOf(cfg));
    s.(receiver := o.client, toReceiver := s.toReceiver[1..], toSender := s.toSender + o.sent)
  }

  /** Up to the exchange of addresses nothing depends on files or the user. */
  lemma RunToIpExchange(cfg: Config) returns (run: seq<System>)
    requires CanCut(cfg.secret) && KeysAgree(cfg)
    ensures IsRun(cfg, run)
    ensures var s := run[|run| - 1];
            && s.sender == KeyedSender(cfg) && s.receiver == KeyedReceiver(cfg)
            && s.toSender == [ExternalIP(cfg.receiverIp)] && s.toReceiver == [] && s.data == NO_DATA
  {
    var s0 := Init(cfg);
    var receiving := Begin(s0.receiver, cfg.crypto);
    var s1 := s0.(receiver := receiving.client, toSender := receiving.sent);
    run := [s0];
    ExtendRun(cfg, run, BeginReceiver, s1);
    run := run + [s1];
    var s2 := s1.(sender := Begin(s1.sender, cfg.crypto).client);
    ExtendRun(cfg, run, BeginSender, s2);
    run := run + [s2];
    var s3 := AfterSender(cfg, s2);
    ExtendRun(cfg, run, SenderHandles, s3);
    run := run + [s3];
    var s4 := AfterReceiver(cfg, s3);
    ExtendRun(cfg, run, ReceiverHandles, s4);
    run := run + [s4];
  }

  lemma PanicRun(cfg: Config) returns (run: seq<System>)
    requires |cfg.secret| >= SECRET_PREFIX ==> KeysAgree(cfg)
    requires !Agreeable(cfg)
    ensures IsRun(cfg, run)
    ensures if CanCut(cfg.secret) then run[|run| - 1].sender.pc.Panicked? else run[|run| - 1].receiver.pc.Panicked?
  {
    if !CanCut(cfg.secret) {
      var s0 := Init(cfg);
      var o := Begin(s0.receiver, cfg.crypto);
      var s1 := s0.(receiver := o.client, toSender := s0.toSender + o.sent);
      ExtendRun(cfg, [s0], BeginReceiver, s1);
      run := [s0] + [s1];
    } else {
      run := RunToIpExchange(cfg);
      var s5 := AfterSender(cfg, run[|run| - 1]);
      ExtendRun(cfg, run, SenderHandles, s5);
      run := run + [s5];
      if cfg.files.Some? {
        RefusedRun(cfg, s5);
        var s6 := AfterReceiver(cfg, s5);
        ExtendRun(cfg, run, ReceiverHandles, s6);
        run := run + [s6];
        var s7 := AfterReceiver(cfg, s6);
        ExtendRun(cfg, run, ReceiverHandles, s7);
        run := run + [s7];
        var s8 := AfterSender(cfg, s7);
        ExtendRun(cfg, run, SenderHandles, s8);
        run := run + [s8];
      }
    }
  }

  /** The refusal is sent as an error message, and the sender cannot take one. */
  lemma RefusedRun(cfg: Config, s5: System)
    requires |cfg.secret| >= SECRET_PREFIX && cfg.files.Some? && !cfg.confirmed
    requires s5.sender == ServingSender(cfg, Waiting) && s5.receiver == KeyedReceiver(cfg)
    requires s5.toSender == [] && s5.toReceiver == [ExternalIP(cfg.senderIp), FilesInfo(cfg.files.value)]
    ensures var s6 := AfterReceiver(cfg, s5);
            s6.receiver.pc == Waiting && s6.toReceiver == [FilesInfo(cfg.files.value)]
            && |s6.receiver.secret| >= SECRET_PREFIX
            && s6.toSender == []
            && var s7 := AfterReceiver(cfg, s6);
               s7.sender == s5.sender && s7.toSender == [TypeError] && AfterSender(cfg, s7).sender.pc.Panicked?
  {
  }

  /** A run that reaches a panicking arm exists exactly when the first five bytes of
      the secret are not those of its first few characters (it is shorter, or the
      fifth byte ends inside a character), the sender has no files, or the user
      refuses. */
  lemma PanicsExactlyWhen(cfg: Config, text: Text)
    requires Honest(cfg) && cfg.secret == Encode(text)
    ensures CanPanic(cfg) <==> !IsBoundary(text, 5) || cfg.files.None? || !cfg.confirmed
  {
    CutsExactlyWhen(text);
    if Agreeable(cfg) {
      forall s | Reachable(cfg, s)
        ensures !HasPanicked(s)
      {
        NoPanicNoFailure(cfg, s);
      }
    } else {
      if |cfg.secret| >= SECRET_PREFIX {
        HonestKeys(cfg);
      }
      var run := PanicRun(cfg);
      assert Reachable(cfg, run[|run| - 1]);
    }
  }

  /** "abcd", any character of more than one byte, and whatever follows: long enough,
      and yet the cut falls inside that character. */
  lemma SplitCharacterPanics(cfg: Config, c: Scalar, rest: Text)
    requires Honest(cfg) && c >= 0x80 && cfg.secret == Encode([0x61, 0x62, 0x63, 0x64, c] + rest)
    ensures |cfg.secret| > 5 && CanPanic(cfg)
  {
    var text := [0x61, 0x62, 0x63, 0x64, c] + rest;
    EncodeSplit(text, 4);
    assert text[..4] == [0x61, 0x62, 0x63, 0x64];
    FourLetters();
    assert text[4..][0] == c;
    BoundaryExactlyWhen(text, 5);
    ScalarBytes(c, 1);
    PanicsExactlyWhen(cfg, text);
  }

  lemma FourLetters()
    ensures Encode([0x61, 0x62, 0x63, 0x64]) == [0x61, 0x62, 0x63, 0x64]
  {
    assert [0x61, 0x62, 0x63, 0x64][1..] == [0x62, 0x63, 0x64] && [0x62, 0x63, 0x64][1..] == [0x63, 0x64];
    assert Encode([0x63, 0x64]) == [0x63, 0x64];
  }

  // ----- progress -----

  /** Both sessions have returned, nothing is on the way, no task is at work. */
  ghost predicate Final(s: System) {
    s.sender.pc == Returned && s.receiver.pc == Returned && Drained(s.data)
  }

  lemma ControlProgress(cfg: Config, s: System, phase: Phase) returns (e: Event, s': System)
    requires Agreeable(cfg) && Control(cfg, s, phase) && !phase.Transferring? && !phase.Closed?
    ensures Step(cfg, s, e, s')
  {
    if phase.Opening? {
      var o := Begin(s.receiver, cfg.crypto);
      e, s' := BeginReceiver, s.(receiver := o.client, toSender := s.toSender + o.sent);
    } else if phase.KeySent? && s.sender.pc == Start {
      var o := Begin(s.sender, cfg.crypto);
      e, s' := BeginSender, s.(sender := o.client, toReceiver := s.toReceiver + o.sent);
    } else if phase.KeySent? || phase.IpSent? || phase.Closing? {
      e, s' := SenderHandles, AfterSender(cfg, s);
    } else {
      e, s' := ReceiverHandles, AfterReceiver(cfg, s);
    }
  }

  lemma TaskProgress(cfg: Config, s: System, phase: Phase) returns (e: Event, s': System)
    requires Agreeable(cfg) && Control(cfg, s, phase) && (phase.Transferring? || phase.Closed?)
    requires DiskInv(s.data.disk) && (s.data.chunks != [] || !Settled(s.data.disk))
    ensures Step(cfg, s, e, s')
  {
    if s.data.chunks != [] {
      var d := s.data;
      e := SpawnWriter;
      s' := s.(data := d.(chunks := d.chunks[1..], disk := Spawn(d.disk, d.chunks[0].handle, d.chunks[0].data)));
    } else {
      var disk', t := DiskProgress(s.data.disk, OpenerOf(cfg.crypto, s.receiver.session.value));
      e, s' := RunWriter(t), s.(data := s.data.(disk := disk'));
    }
  }

  predicate WaitsForChunk(cfg: Config, s: System) {
    s.receiver.pc.Receiving? && s.data.path.inbox == []
    && s.receiver.pc.count < ChunkCount(|Source(cfg, s.receiver.pc.index)|)
  }

  /** Something moves a missing chunk towards the receiver. */
  lemma SupplyProgress(cfg: Config, s: System) returns (e: Event, s': System)
    requires Agreeable(cfg) && FilesReady(cfg) && LawfulPlan(PlanOf(cfg)) && InvAt(cfg, s, Transferring)
    requires WaitsForChunk(cfg, s)
    ensures Step(cfg, s, e, s')
  {
    var d := s.data;
    if Stream(d.path) != [] {
      var path' := PathProgress(d.path, cfg.capacity);
      e, s' := MoveData, s.(data := d.(path := path'));
    } else if d.buffers != multiset{} {
      var b :| b in d.buffers;
      e, s' := SendProgress(cfg, s, b);
    } else if d.requests != [] {
      e, s' := ReadProgress(cfg, s, s.receiver.pc.index);
    } else {
      assert |d.requests| + |d.buffers| + |InFlight(d.path)| == 0;
      e, s' := SenderProgress(cfg, s);
    }
  }

  lemma SenderProgress(cfg: Config, s: System) returns (e: Event, s': System)
    requires Agreeable(cfg) && FilesReady(cfg) && Control(cfg, s, Transferring) && cfg.capacity > 0
    requires WaitsForChunk(cfg, s) && s.data.requests == []
    requires s.receiver.pc.count == Queued(cfg, s, s.receiver.pc.index)
    ensures Step(cfg, s, e, s')
  {
    if s.toSender != [] {
      e, s' := SenderHandles, AfterSender(cfg, s);
    } else {
      var i := s.receiver.pc.index;
      assert s.sender.pc.Sending?;
      var Sending(_, k) := s.sender.pc;
      var length := LengthOf(Lengths(cfg), i);
      e := QueueNext;
      s' := s.(data := QueueRequest(s.data, ChunkRequest(i, ChunkAt(length, k))),
               sender := s.sender.(pc := if (k + 1) * CHUNK < length then Sending(i, k + 1) else Waiting));
    }
  }

  lemma ReadProgress(cfg: Config, s: System, i: nat) returns (e: Event, s': System)
    requires i < |cfg.sources| && RequestsGenuine(cfg.sources[i], i, s.data.requests) && s.data.requests != []
    ensures Step(cfg, s, e, s')
  {
    var d, q := s.data, s.data.requests[0];
    assert q in d.requests;
    e := ReadChunk;
    s' := s.(data := d.(requests := d.requests[1..],
                        buffers := d.buffers + multiset{BufferOf(cfg.sources[q.index], q.range)}));
  }

  lemma SendProgress(cfg: Config, s: System, b: Bytes) returns (e: Event, s': System)
    requires cfg.capacity > 0 && b in s.data.buffers && s.sender.session.Some?
    requires PathInv(s.data.path) && Stream(s.data.path) == []
    ensures Step(cfg, s, e, s')
  {
    var d := s.data;
    EmptyStreamEmptyQueue(d.path);
    var m := cfg.crypto.seal(s.sender.session.value, 0, b);
    e := EncryptAndSend(b, 0);
    s' := s.(data := d.(buffers := d.buffers - multiset{b},
                        path := if Sendable(m) then d.path.(queue := d.path.queue + [Frame(m)]) else d.path));
  }

  lemma EmptyStreamEmptyQueue(path: Path)
    requires PathInv(path) && Stream(path) == []
    ensures path.queue == []
  {
    assert Concat(path.queue) == [];
  }

  /** The receiver can go on by itself unless it waits for a chunk. */
  lemma ReceiverProgress(cfg: Config, s: System) returns (e: Event, s': System)
    requires Agreeable(cfg) && FilesReady(cfg) && Control(cfg, s, Transferring) && cfg.capacity > 0
    requires s.data.chunks == []
    requires s.receiver.pc.Receiving? ==>
               s.receiver.pc.count >= ChunkCount(|Source(cfg, s.receiver.pc.index)|) || s.data.path.inbox != []
    ensures Step(cfg, s, e, s')
  {
    var d := s.data;
    match s.receiver.pc
    case Requesting(i) =>
      var list := FileList(cfg);
      e := RequestFile;
      if i >= |list| {
        s' := s.(receiver := s.receiver.(pc := Waiting), toSender := s.toSender + [Finished]);
      } else {
        s' := s.(receiver := s.receiver.(pc := Sizing(i)), data := CreateFile(d, cfg.resolve(list[i].path)));
      }
    case Sizing(i) =>
      e := SizeAndRequest;
      s' := s.(receiver := s.receiver.(pc := Receiving(i, 0)), toSender := s.toSender + [RecipientReady(i)],
               data := SizeFile(d, FileList(cfg)[i].size));
    case Receiving(i, n) =>
      assert Expected(s.receiver, i) == ChunkCount(|cfg.sources[i]|);
      if n >= Expected(s.receiver, i) {
        e, s' := NextFile, s.(receiver := s.receiver.(pc := Requesting(i + 1)));
      } else {
        var m := d.path.inbox[0];
        e := TakeChunk(m);
        s' := s.(data := d.(path := d.path.(inbox := d.path.inbox[1..])),
                 receiver := s.receiver.(pc := Forwarding(i, n, m)));
      }
    case Forwarding(i, n, m) =>
      e, s' := ForwardChunk, s.(data := QueueChunk(d, m), receiver := s.receiver.(pc := Receiving(i, n + 1)));
  }

  /** Every reachable state that is not final has a step. */
  lemma Progress(cfg: Config, s: System) returns (e: Event, s': System)
    requires Honest(cfg) && Agreeable(cfg) && Reachable(cfg, s) && !Final(s)
    ensures Step(cfg, s, e, s')
  {
    ReachableInv(cfg, s);
    HonestPlan(cfg);
    e, s' := ProgressFrom(cfg, s);
  }

  lemma ProgressFrom(cfg: Config, s: System) returns (e: Event, s': System)
    requires Agreeable(cfg) && FilesReady(cfg) && LawfulPlan(PlanOf(cfg)) && Inv(cfg, s) && !Final(s)
    ensures Step(cfg, s, e, s')
  {
    var phase :| InvAt(cfg, s, phase);
    if !phase.Transferring? && !phase.Closed? {
      e, s' := ControlProgress(cfg, s, phase);
    } else if s.data.chunks != [] || !Settled(s.data.disk) {
      e, s' := TaskProgress(cfg, s, phase);
    } else {
      assert phase.Transferring?;
      if WaitsForChunk(cfg, s) {
        e, s' := SupplyProgress(cfg, s);
      } else {
        e, s' := ReceiverProgress(cfg, s);
      }
    }
  }

  // ----- termination -----

  /** What is left to do, most significant first: phases and files of the
      receiver, frames to count, requests to serve, chunks to queue, and then the
      stages of the data plane in order. */
  datatype Rank = Rank(phase: nat, files: nat, frames: nat, asked: nat, toQueue: nat,
                       requests: nat, buffers: nat, path: nat, chunks: nat, disk: nat)

  function Monus(a: int, b: int): nat {
    if a > b then a - b else 0
  }

  function PhaseRank(c: Client): nat {
    match c.pc
    case Start => 6
    case Waiting => (match c.state case KeyExchange => 5 case IpExchange => 4 case FileInfoTransfer => 3 case _ => 1)
    case Requesting(_) => 2
    case Sizing(_) => 2
    case Receiving(_, _) => 2
    case Forwarding(_, _, _) => 2
    case _ => 0
  }

  function FilesRank(cfg: Config, pc: Pc): nat {
    match pc
    case Requesting(i) => 3 * Monus(|cfg.sources|, i) + 1
    case Sizing(i) => 3 * Monus(|cfg.sources|, i)
    case Receiving(i, _) => Monus(3 * Monus(|cfg.sources|, i), 1)
    case Forwarding(i, _, _) => Monus(3 * Monus(|cfg.sources|, i), 1)
    case _ => 0
  }

  function FramesRank(cfg: Config, pc: Pc): nat {
    match pc
    case Receiving(i, n) => 2 * Monus(ChunkCount(|Source(cfg, i)|), n)
    case Forwarding(i, n, _) => Monus(2 * ChunkCount(|Source(cfg, i)|), 2 * n + 1)
    case _ => 0
  }

  function ToQueueRank(cfg: Config, pc: Pc): nat {
    match pc
    case Start => 1
    case Sending(i, k) => Monus(ChunkCount(|Source(cfg, i)|), k)
    case _ => 0
  }

  function RankOf(cfg: Config, s: System): Rank {
    Rank(PhaseRank(s.receiver), FilesRank(cfg, s.receiver.pc), FramesRank(cfg, s.receiver.pc), |s.toSender|,
         ToQueueRank(cfg, s.sender.pc), |s.data.requests|, |s.data.buffers|, PathRank(s.data.path), |s.data.chunks|,
         DiskRank(s.data.disk.writers))
  }

  ghost predicate Below(a: Rank, b: Rank) {
    || a.phase < b.phase
    || (a.phase == b.phase && (a.files < b.files
    || (a.files == b.files && (a.frames < b.frames
    || (a.frames == b.frames && (a.asked < b.asked
    || (a.asked == b.asked && (a.toQueue < b.toQueue
    || (a.toQueue == b.toQueue && (a.requests < b.requests
    || (a.requests == b.requests && (a.buffers < b.buffers
    || (a.buffers == b.buffers && (a.path < b.path
    || (a.path == b.path && (a.chunks < b.chunks
    || (a.chunks == b.chunks && a.disk < b.disk)))))))))))))))))
  }

  lemma BeginDecreases(cfg: Config, s: System, e: Event, s': System)
    requires (e.BeginSender? || e.BeginReceiver?) && Step(cfg, s, e, s')
    requires !s.receiver.isSender && s.receiver.state == KeyExchange
    ensures Below(RankOf(cfg, s'), RankOf(cfg, s))
  {
  }

  lemma SenderHandlesDecreases(cfg: Config, s: System, s': System)
    requires Step(cfg, s, SenderHandles, s')
    ensures Below(RankOf(cfg, s'), RankOf(cfg, s))
  {
    assert s'.receiver == s.receiver && |s'.toSender| == |s.toSender| - 1;
  }

  lemma ReceiverHandlesDecreases(cfg: Config, s: System, s': System, phase: Phase)
    requires Agreeable(cfg) && KeysAgree(cfg) && Control(cfg, s, phase) && Step(cfg, s, ReceiverHandles, s')
    ensures Below(RankOf(cfg, s'), RankOf(cfg, s))
  {
    match phase
    case KeyAnswered => assert PhaseRank(s'.receiver) == 4;
    case InfoSent => assert PhaseRank(s'.receiver) == 3;
    case InfoNext => assert PhaseRank(s'.receiver) <= 2;
    case Answered => assert PhaseRank(s'.receiver) == 0;
  }

  lemma ControlDecreases(cfg: Config, s: System, e: Event, s': System, phase: Phase)
    requires Agreeable(cfg) && KeysAgree(cfg) && Control(cfg, s, phase)
    requires IsControlEvent(e) && Step(cfg, s, e, s')
    ensures Below(RankOf(cfg, s'), RankOf(cfg, s))
  {
    if e.SenderHandles? {
      SenderHandlesDecreases(cfg, s, s');
    } else if e.ReceiverHandles? {
      ReceiverHandlesDecreases(cfg, s, s', phase);
    } else {
      StartedLate(cfg, s, phase);
      BeginDecreases(cfg, s, e, s');
    }
  }

  lemma StartedLate(cfg: Config, s: System, phase: Phase)
    requires Agreeable(cfg) && Control(cfg, s, phase) && (s.sender.pc == Start || s.receiver.pc == Start)
    ensures !s.receiver.isSender && s.receiver.state == KeyExchange
  {
  }

  lemma TaskDecreases(cfg: Config, s: System, e: Event, s': System)
    requires PathInv(s.data.path) && IsTaskEvent(e) && Step(cfg, s, e, s')
    requires e.RunWriter? ==> NothingGrows(cfg, s)
    ensures Below(RankOf(cfg, s'), RankOf(cfg, s))
  {
    match e
    case MoveData =>
      InternalDecreases(s.data.path, s'.data.path, cfg.capacity);
    case RunWriter(t) =>
      var open := OpenerOf(cfg.crypto, s.receiver.session.value);
      forall c: Bytes {:trigger open(c)} | open(c).Some?
        ensures |open(c).value| <= |c|
      {
        assert ShrinksOpen(open, c);
      }
      StepDecreases(s.data.disk, s'.data.disk, t, open);
    case EncryptAndSend(b, nonce) =>
      assert |s'.data.buffers| == |s.data.buffers| - 1;
    case _ =>
  }

  /** Opening a frame never adds anything to it. */
  ghost predicate NothingGrows(cfg: Config, s: System) {
    s.receiver.session.Some? ==>
      var open := OpenerOf(cfg.crypto, s.receiver.session.value);
      forall c: Bytes :: ShrinksOpen(open, c)
  }

  ghost predicate ShrinksOpen(open: Opener, c: Bytes) {
    open(c).Some? ==> |open(c).value| <= |c|
  }

  lemma QueueDecreases(cfg: Config, s: System, s': System)
    requires Agreeable(cfg) && FilesReady(cfg) && Control(cfg, s, Transferring) && Step(cfg, s, QueueNext, s')
    ensures Below(RankOf(cfg, s'), RankOf(cfg, s))
  {
    var Sending(i, k) := s.sender.pc;
    assert LengthOf(Lengths(cfg), i) == |cfg.sources[i]|;
    CountAgrees(|cfg.sources[i]|, k);
    CountAgrees(|cfg.sources[i]|, k + 1);
  }

  lemma FrameDecreases(cfg: Config, s: System, e: Event, s': System)
    requires Agreeable(cfg) && FilesReady(cfg) && Control(cfg, s, Transferring)
    requires (e.TakeChunk? || e.ForwardChunk?) && Step(cfg, s, e, s')
    requires s.receiver.pc.Forwarding? ==> s.receiver.pc.count < ChunkCount(|Source(cfg, s.receiver.pc.index)|)
    ensures Below(RankOf(cfg, s'), RankOf(cfg, s))
  {
    assert Expected(s.receiver, s.receiver.pc.index) == ChunkCount(|Source(cfg, s.receiver.pc.index)|);
  }

  lemma FileDecreases(cfg: Config, s: System, e: Event, s': System)
    requires Agreeable(cfg) && FilesReady(cfg) && Control(cfg, s, Transferring)
    requires (e.RequestFile? || e.SizeAndRequest? || e.NextFile?) && Step(cfg, s, e, s')
    ensures Below(RankOf(cfg, s'), RankOf(cfg, s))
  {
  }

  lemma EndDecreases(cfg: Config, s: System, e: Event, s': System)
    requires Agreeable(cfg) && FilesReady(cfg) && Control(cfg, s, Transferring)
    requires FocusInv(PlanOf(cfg), s.data, FocusOf(cfg, s))
    requires !IsControlEvent(e) && !IsTaskEvent(e) && Step(cfg, s, e, s')
    ensures Below(RankOf(cfg, s'), RankOf(cfg, s))
  {
    if e.QueueNext? {
      QueueDecreases(cfg, s, s');
    } else if e.TakeChunk? || e.ForwardChunk? {
      FrameDecreases(cfg, s, e, s');
    } else {
      FileDecreases(cfg, s, e, s');
    }
  }

  /** Every step from a reachable state leaves less to do. */
  lemma StepBelow(cfg: Config, s: System, e: Event, s': System)
    requires Honest(cfg) && Agreeable(cfg) && Reachable(cfg, s) && Step(cfg, s, e, s')
    ensures Below(RankOf(cfg, s'), RankOf(cfg, s))
  {
    ReachableInv(cfg, s);
    HonestKeys(cfg);
    HonestPlan(cfg);
    StepBelowFrom(cfg, s, e, s');
  }

  lemma StepBelowFrom(cfg: Config, s: System, e: Event, s': System)
    requires Agreeable(cfg) && KeysAgree(cfg) && FilesReady(cfg) && Inv(cfg, s) && Step(cfg, s, e, s')
    requires e.RunWriter? ==> NothingGrows(cfg, s)
    ensures Below(RankOf(cfg, s'), RankOf(cfg, s))
  {
    var phase :| InvAt(cfg, s, phase);
    if IsControlEvent(e) {
      ControlDecreases(cfg, s, e, s', phase);
    } else if IsTaskEvent(e) {
      TaskDecreases(cfg, s, e, s');
    } else {
      InLoopIsTransferring(cfg, s, phase);
      EndDecreases(cfg, s, e, s');
    }
  }

  // ----- delivery -----

  /** Every announced path names a file that holds the content announced. */
  ghost predicate Delivered(cfg: Config, s: System) {
    && |FileList(cfg)| == |cfg.sources|
    && forall i :: 0 <= i < |cfg.sources| ==> HoldsSource(cfg, s, i)
  }

  ghost predicate HoldsSource(cfg: Config, s: System, i: nat)
    requires i < |cfg.sources| == |FileList(cfg)|
  {
    var file := cfg.resolve(FileList(cfg)[i].path);
    file in s.data.disk.files && s.data.disk.files[file] == cfg.sources[i]
  }

  /** When a transfer is over, the files have arrived exactly when no file, under
      whatever spellings of its path, was announced with two different contents. */
  lemma DeliveredExactlyWhen(cfg: Config, s: System)
    requires Honest(cfg) && Agreeable(cfg) && Reachable(cfg, s) && Final(s)
    ensures Delivered(cfg, s) <==> Consistent(PlanOf(cfg))
  {
    ReachableInv(cfg, s);
    HonestPlan(cfg);
    FinalIsDelivered(cfg, s);
  }

  lemma FinalIsDelivered(cfg: Config, s: System)
    requires Agreeable(cfg) && FilesReady(cfg) && LawfulPlan(PlanOf(cfg)) && Inv(cfg, s) && Final(s)
    ensures Delivered(cfg, s) <==> Consistent(PlanOf(cfg))
  {
    var phase :| InvAt(cfg, s, phase);
    FinalIsClosed(cfg, s, phase);
    if Consistent(PlanOf(cfg)) {
      forall i | 0 <= i < |cfg.sources|
        ensures HoldsSource(cfg, s, i)
      {
        DrainedIsDelivered(PlanOf(cfg), s.data, i);
      }
    } else {
      DeliveredIsConsistent(cfg, s);
    }
  }

  lemma FinalIsClosed(cfg: Config, s: System, phase: Phase)
    requires Agreeable(cfg) && Control(cfg, s, phase) && s.sender.pc == Returned && s.receiver.pc == Returned
    ensures FocusOf(cfg, s) == Off && |s.data.disk.handles| == |cfg.sources|
  {
  }

  lemma DeliveredIsConsistent(cfg: Config, s: System)
    requires |cfg.secret| >= SECRET_PREFIX && |FileList(cfg)| == |cfg.sources|
    ensures Delivered(cfg, s) ==> Consistent(PlanOf(cfg))
  {
    var p := PlanOf(cfg);
    if Delivered(cfg, s) {
      forall i, j | 0 <= i < |p.targets| && 0 <= j < |p.targets| && p.targets[i] == p.targets[j]
        ensures p.sources[i] == p.sources[j]
      {
        assert HoldsSource(cfg, s, i) && HoldsSource(cfg, s, j);
      }
    }
  }

  // ----- all runs -----

  /** A run that goes on as long as it can and then rests. */
  ghost predicate IsFullRun(cfg: Config, run: nat -> System) {
    run(0) == Init(cfg) && forall i: nat :: GoesOn(cfg, run, i)
  }

  ghost predicate CanStep(cfg: Config, s: System) {
    exists s' :: Next(cfg, s, s')
  }

  ghost predicate GoesOn(cfg: Config, run: nat -> System, i: nat) {
    if CanStep(cfg, run(i)) then Next(cfg, run(i), run(i + 1)) else run(i + 1) == run(i)
  }

  lemma {:induction false} FullRunReachable(cfg: Config, run: nat -> System, i: nat) returns (prefix: seq<System>)
    requires IsFullRun(cfg, run)
    ensures IsRun(cfg, prefix) && prefix[|prefix| - 1] == run(i)
    decreases i
  {
    if i == 0 {
      prefix := [run(0)];
    } else {
      prefix := FullRunReachable(cfg, run, i - 1);
      assert GoesOn(cfg, run, i - 1);
      if CanStep(cfg, run(i - 1)) {
        var e :| Step(cfg, run(i - 1), e, run(i));
        ExtendRun(cfg, prefix, e, run(i));
        prefix := prefix + [run(i)];
      }
    }
  }

  lemma {:induction false} RunEnds(cfg: Config, run: nat -> System, i: nat) returns (n: nat)
    requires Honest(cfg) && Agreeable(cfg) && IsFullRun(cfg, run)
    ensures Final(run(n))
    decreases RankOf(cfg, run(i)).phase, RankOf(cfg, run(i)).files, RankOf(cfg, run(i)).frames,
              RankOf(cfg, run(i)).asked, RankOf(cfg, run(i)).toQueue, RankOf(cfg, run(i)).requests,
              RankOf(cfg, run(i)).buffers, RankOf(cfg, run(i)).path,
              RankOf(cfg, run(i)).chunks, RankOf(cfg, run(i)).disk
  {
    var prefix := FullRunReachable(cfg, run, i);
    if Final(run(i)) {
      n := i;
    } else {
      var e, s' := Progress(cfg, run(i));
      assert Next(cfg, run(i), s');
      assert GoesOn(cfg, run, i);
      var e' :| Step(cfg, run(i), e', run(i + 1));
      StepBelow(cfg, run(i), e', run(i + 1));
      n := RunEnds(cfg, run, i + 1);
    }
  }

  /** Whatever the scheduler, the segmentation and the nonces: every run of an
      honest, agreed transfer ends, with both sessions returned and all tasks done,
      and then the destination holds the source files. */
  lemma TransferCompletes(cfg: Config, run: nat -> System) returns (n: nat)
    requires Honest(cfg) && Agreeable(cfg) && IsFullRun(cfg, run)
    ensures Final(run(n))
    ensures Delivered(cfg, run(n)) <==> Consistent(PlanOf(cfg))
    ensures forall i: nat {:trigger run(i)} :: !HasPanicked(run(i)) && !HasFailed(run(i))
  {
    n := RunEnds(cfg, run, 0);
    var prefix := FullRunReachable(cfg, run, n);
    DeliveredExactlyWhen(cfg, run(n));
    forall i: nat {:trigger run(i)}
      ensures !HasPanicked(run(i)) && !HasFailed(run(i))
    {
      var before := FullRunReachable(cfg, run, i);
      NoPanicNoFailure(cfg, run(i));
    }
  }
}
