/** Two clients, their control connection and their data connection, as one
    machine: every message handled, every chunk handed from one task or queue to
    the next, every partial read and write is a step, in any interleaving. */
module Transfer {
  import opened Bytes
  import opened Chunks
  import opened Cryptography
  import opened Options
  import opened Protocol
  import opened FileTasks
  import opened Pipeline

  datatype Config = Config(
    secret: Bytes, senderPrivate: nat, receiverPrivate: nat, salt: Bytes, senderIp: string, receiverIp: string,
    files: Option<FilesInformation>,   // what the sending user passes in
    sources: seq<Bytes>,               // the contents of the files listed there
    confirmed: bool,                   // the receiving user's answer
    foldersMade: bool,                 // the receiver could make the empty folders
    resolve: string -> FileId,         // which file a path of the receiver names
    capacity: nat,                     // of each bounded queue
    crypto: Crypto)

  datatype System = System(
    sender: Client, receiver: Client, toSender: seq<Message>, toReceiver: seq<Message>, data: Data)

  function FileList(cfg: Config): seq<FileInfo> {
    if cfg.files.Some? && cfg.files.value.toTransfer.Some? then cfg.files.value.toTransfer.value else []
  }

  function Lengths(cfg: Config): seq<nat> {
    seq(|cfg.sources|, i requires 0 <= i < |cfg.sources| => |cfg.sources[i]|)
  }

  function WorldOf(cfg: Config): Surroundings {
    Surroundings(cfg.confirmed, cfg.foldersMade, Lengths(cfg))
  }

  function OpenerOf(crypto: Crypto, session: Session): Opener {
    (cipher: Bytes) => crypto.open(session, cipher)
  }

  function NewClient(cfg: Config, isSender: bool): Client {
    Client(isSender, cfg.secret, if isSender then cfg.senderPrivate else cfg.receiverPrivate, cfg.salt,
           if isSender then cfg.senderIp else cfg.receiverIp, if isSender then cfg.files else None,
           KeyExchange, None, None, None, None, false, Start)
  }

  function Init(cfg: Config): System {
    System(NewClient(cfg, true), NewClient(cfg, false), [], [], NO_DATA)
  }

  // ----- steps -----

  datatype Event =
    | BeginSender | BeginReceiver | SenderHandles | ReceiverHandles
    | QueueNext | ReadChunk | EncryptAndSend(buffer: Bytes, nonce: nat) | MoveData
    | RequestFile | SizeAndRequest | TakeChunk(m: Bytes) | NextFile | ForwardChunk
    | SpawnWriter | RunWriter(task: nat)

  ghost predicate Step(cfg: Config, s: System, e: Event, s': System) {
    match e
    case BeginSender =>
      s.sender.pc == Start &&
      var o := Begin(s.sender, cfg.crypto);
      s' == s.(sender := o.client, toReceiver := s.toReceiver + o.sent)
    case BeginReceiver =>
      s.receiver.pc == Start &&
      var o := Begin(s.receiver, cfg.crypto);
      s' == s.(receiver := o.client, toSender := s.toSender + o.sent)
    case SenderHandles =>
      s.sender.pc == Waiting && s.toSender != [] && |s.sender.secret| >= SECRET_PREFIX &&
      var o := HandleMessage(s.sender, cfg.crypto, s.toSender[0], WorldOf(cfg));
      s' == s.(sender := o.client, toSender := s.toSender[1..], toReceiver := s.toReceiver + o.sent)
    case ReceiverHandles =>
      s.receiver.pc == Waiting && s.toReceiver != [] && |s.receiver.secret| >= SECRET_PREFIX &&
      var o := HandleMessage(s.receiver, cfg.crypto, s.toReceiver[0], WorldOf(cfg));
      s' == s.(receiver := o.client, toReceiver := s.toReceiver[1..], toSender := s.toSender + o.sent)
    case QueueNext =>
      s.sender.pc.Sending? && |s.data.requests| < cfg.capacity &&
      var Sending(i, k) := s.sender.pc;
      var length := LengthOf(Lengths(cfg), i);
      s' == s.(data := QueueRequest(s.data, ChunkRequest(i, ChunkAt(length, k))),
               sender := s.sender.(pc := if (k + 1) * CHUNK < length then Sending(i, k + 1) else Waiting))
    case ReadChunk =>
      ReadStep(cfg.sources, s.data, s'.data) && s' == s.(data := s'.data)
    case EncryptAndSend(buffer, nonce) =>
      s.sender.session.Some?
      && SendStep(cfg.capacity, s.data, s'.data, buffer, cfg.crypto.seal(s.sender.session.value, nonce, buffer))
      && s' == s.(data := s'.data)
    case MoveData =>
      MoveStep(cfg.capacity, s.data, s'.data) && s' == s.(data := s'.data)
    case RequestFile =>
      s.receiver.pc.Requesting? && s.receiver.toReceive.Some? && s.receiver.toReceive.value.toTransfer.Some? &&
      var i, list := s.receiver.pc.index, s.receiver.toReceive.value.toTransfer.value;
      if i >= |list| then
        s' == s.(receiver := s.receiver.(pc := Waiting), toSender := s.toSender + [Finished])
      else
        s' == s.(receiver := s.receiver.(pc := Sizing(i)), data := CreateFile(s.data, cfg.resolve(list[i].path)))
    case SizeAndRequest =>
      s.receiver.pc.Sizing? && s.receiver.toReceive.Some? && s.receiver.toReceive.value.toTransfer.Some? &&
      var i, list := s.receiver.pc.index, s.receiver.toReceive.value.toTransfer.value;
      i < |list| && s.data.disk.handles != [] &&
      if list[i].size < 0 then
        s' == s.(receiver := s.receiver.(pc := Failed(BadSize)))
      else
        s' == s.(receiver := s.receiver.(pc := Receiving(i, 0)), toSender := s.toSender + [RecipientReady(i)],
                 data := SizeFile(s.data, list[i].size))
    case TakeChunk(m) =>
      s.receiver.pc.Receiving? &&
      var Receiving(i, n) := s.receiver.pc;
      n < Expected(s.receiver, i) && TakeFrameStep(s.data, s'.data, m)
      && s' == s.(data := s'.data, receiver := s.receiver.(pc := Forwarding(i, n, m)))
    case NextFile =>
      s.receiver.pc.Receiving? &&
      var Receiving(i, n) := s.receiver.pc;
      n >= Expected(s.receiver, i)
      && s' == s.(receiver := s.receiver.(pc := Requesting(i + 1)))
    case ForwardChunk =>
      s.receiver.pc.Forwarding? && |s.data.chunks| < cfg.capacity && s.data.disk.handles != [] &&
      var Forwarding(i, n, m) := s.receiver.pc;
      if s.receiver.tasksStarted then
        s' == s.(data := QueueChunk(s.data, m), receiver := s.receiver.(pc := Receiving(i, n + 1)))
      else
        s' == s.(receiver := s.receiver.(pc := Panicked))
    case SpawnWriter =>
      SpawnStep(s.data, s'.data) && s' == s.(data := s'.data)
    case RunWriter(t) =>
      s.receiver.session.Some?
      && WriteStep(s.data, s'.data, t, OpenerOf(cfg.crypto, s.receiver.session.value))
      && s' == s.(data := s'.data)
  }

  ghost predicate Next(cfg: Config, s: System, s': System) {
    exists e :: Step(cfg, s, e, s')
  }

  /** The number of frames the receiver counts for its `i`-th file. */
  function Expected(c: Client, i: nat): int {
    if c.toReceive.Some? && c.toReceive.value.toTransfer.Some? && i < |c.toReceive.value.toTransfer.value|
    then ChunkCount(c.toReceive.value.toTransfer.value[i].size)
    else 0
  }

  ghost predicate IsRun(cfg: Config, run: seq<System>) {
    && |run| > 0 && run[0] == Init(cfg)
    && forall i, j :: 0 <= i < |run| && j == i + 1 < |run| ==> Next(cfg, run[i], run[j])
  }

  ghost predicate Reachable(cfg: Config, s: System) {
    exists run: seq<System> :: IsRun(cfg, run) && run[|run| - 1] == s
  }

  // ----- what an honest transfer brings along -----

  /** Lawful cryptography, some room in every queue, folders that can be made, and
      a file list that tells the truth about the files. */
  ghost predicate Honest(cfg: Config) {
    && Lawful(cfg.crypto)
    && cfg.capacity > 0
    && cfg.foldersMade
    && |cfg.salt| == SALT_LENGTH
    && |cfg.sources| == |FileList(cfg)|
    && forall i :: 0 <= i < |cfg.sources| ==> FileList(cfg)[i].size == |cfg.sources[i]| < I64_LIMIT
  }

  /** A secret that can be cut as text, a file list, and a user who says yes. */
  predicate Agreeable(cfg: Config) {
    CanCut(cfg.secret) && cfg.files.Some? && cfg.confirmed
  }

  // ----- the control phases -----

  datatype Phase =
    | Opening | KeySent | KeyAnswered | IpSent | InfoSent | InfoNext | Transferring | Closing | Answered | Closed

  function SharedKey(cfg: Config): Agreement
    requires |cfg.secret| >= SECRET_PREFIX
  {
    var word := Word(cfg.secret);
    cfg.crypto.agree(PakeReceiver, word, cfg.senderPrivate,
                     cfg.crypto.pub(PakeSender, word, cfg.receiverPrivate))
  }

  function SharedSession(cfg: Config): Session
    requires |cfg.secret| >= SECRET_PREFIX
  {
    Session(if SharedKey(cfg).Agreed? then SharedKey(cfg).key else 0, cfg.salt)
  }

  /** The sender after the key exchange, and the receiver likewise. */
  function KeyedSender(cfg: Config): Client
    requires |cfg.secret| >= SECRET_PREFIX
  {
    WithSession(NewClient(cfg, true), PakeReceiver, SharedSession(cfg).key, cfg.salt).(pc := Waiting)
  }

  function KeyedReceiver(cfg: Config): Client
    requires |cfg.secret| >= SECRET_PREFIX
  {
    WithSession(NewClient(cfg, false), PakeSender, SharedSession(cfg).key, cfg.salt).(pc := Waiting)
  }

  function ServingSender(cfg: Config, pc: Pc): Client
    requires |cfg.secret| >= SECRET_PREFIX
  {
    KeyedSender(cfg).(peerIp := Some(cfg.receiverIp), state := FileTransfer, pc := pc)
  }

  function InformedReceiver(cfg: Config, pc: Pc): Client
    requires |cfg.secret| >= SECRET_PREFIX && cfg.files.Some?
  {
    KeyedReceiver(cfg).(peerIp := Some(cfg.senderIp), toReceive := cfg.files,
                        state := if cfg.files.value.toTransfer.Some? then FileTransfer else FileTransferred, pc := pc)
  }

  /** Requests that wait for the sender are consecutive and end before file `to`;
      all of them are for empty files, for whose chunks the receiver does not wait. */
  ghost predicate Asked(cfg: Config, msgs: seq<Message>, to: nat) {
    && |msgs| <= to <= |cfg.sources|
    && (forall p :: 0 <= p < |msgs| ==> msgs[p] == RecipientReady(to - |msgs| + p))
    && (forall j :: to - |msgs| <= j < to ==> cfg.sources[j] == [])
  }

  /** Which client is where, what exactly is on the control connection, and how
      many files the receiver has handles. */
  ghost predicate Control(cfg: Config, s: System, phase: Phase)
    requires Agreeable(cfg)
  {
    var word := Word(cfg.secret);
    var opening := Pake(cfg.crypto.pub(PakeSender, word, cfg.receiverPrivate), SIEC);
    var answer := Pake(cfg.crypto.pub(PakeReceiver, word, cfg.senderPrivate), cfg.salt);
    var unkeyed := s.sender == NewClient(cfg, true) || s.sender == NewClient(cfg, true).(pc := Waiting);
    var keyed := NewClient(cfg, false).(key := Some(PakeKey(PakeSender, None)), pc := Waiting);
    var handles := |s.data.disk.handles|;
    match phase
    case Opening =>
      unkeyed && s.receiver == NewClient(cfg, false) && s.toSender == [] && s.toReceiver == [] && handles == 0
    case KeySent =>
      unkeyed && s.receiver == keyed && s.toSender == [opening] && s.toReceiver == [] && handles == 0
    case KeyAnswered =>
      s.sender == KeyedSender(cfg) && s.receiver == keyed
      && s.toSender == [] && s.toReceiver == [answer] && handles == 0
    case IpSent =>
      s.sender == KeyedSender(cfg) && s.receiver == KeyedReceiver(cfg)
      && s.toSender == [ExternalIP(cfg.receiverIp)] && s.toReceiver == [] && handles == 0
    case InfoSent =>
      s.sender == ServingSender(cfg, Waiting) && s.receiver == KeyedReceiver(cfg)
      && s.toSender == [] && s.toReceiver == [ExternalIP(cfg.senderIp), FilesInfo(cfg.files.value)] && handles == 0
    case InfoNext =>
      s.sender == ServingSender(cfg, Waiting)
      && s.receiver == KeyedReceiver(cfg).(peerIp := Some(cfg.senderIp), state := FileInfoTransfer)
      && s.toSender == [] && s.toReceiver == [FilesInfo(cfg.files.value)] && handles == 0
    case Transferring =>
      s.sender == ServingSender(cfg, s.sender.pc) && s.receiver == InformedReceiver(cfg, s.receiver.pc)
      && cfg.files.value.toTransfer.Some? && s.toReceiver == [] && AtFiles(cfg, s, handles)
    case Closing =>
      s.sender == ServingSender(cfg, Waiting) && s.receiver == InformedReceiver(cfg, Waiting)
      && s.toSender != [] && Asked(cfg, s.toSender[..|s.toSender| - 1], |cfg.sources|)
      && s.toSender[|s.toSender| - 1] == Finished && s.toReceiver == [] && handles == |cfg.sources|
    case Answered =>
      s.sender == ServingSender(cfg, Returned) && s.receiver == InformedReceiver(cfg, Waiting)
      && s.toSender == [] && s.toReceiver == [Finished] && handles == |cfg.sources|
    case Closed =>
      s.sender == ServingSender(cfg, Returned) && s.receiver == InformedReceiver(cfg, Returned)
      && s.toSender == [Finished] && s.toReceiver == [] && handles == |cfg.sources|
  }

  ghost predicate AtFiles(cfg: Config, s: System, handles: nat) {
    match s.receiver.pc
    case Requesting(i) => handles == i && Asked(cfg, s.toSender, i) && s.sender.pc == Waiting
    case Sizing(i) => handles == i + 1 && i < |cfg.sources| && Asked(cfg, s.toSender, i) && s.sender.pc == Waiting
    case Receiving(i, _) => handles == i + 1 && AtFile(cfg, s, i)
    case Forwarding(i, _, _) => handles == i + 1 && AtFile(cfg, s, i)
    case _ => false
  }

  /** While the receiver is at file `i`, the sender is at that file too, or done
      with it, or still has to take the request for it. */
  ghost predicate AtFile(cfg: Config, s: System, i: nat) {
    && i < |cfg.sources|
    && if s.toSender == [] then
         || s.sender.pc == Waiting
         || (s.sender.pc.Sending? && s.sender.pc.index == i && s.sender.pc.next * CHUNK < |cfg.sources[i]|)
       else
         s.sender.pc == Waiting
         && s.toSender[|s.toSender| - 1] == RecipientReady(i) && Asked(cfg, s.toSender[..|s.toSender| - 1], i)
  }

  // ----- the control program and the data plane together -----

  function Targets(cfg: Config): seq<FileId> {
    seq(|FileList(cfg)|, i requires 0 <= i < |FileList(cfg)| => cfg.resolve(FileList(cfg)[i].path))
  }

  function PlanOf(cfg: Config): Plan
    requires |cfg.secret| >= SECRET_PREFIX
  {
    Plan(cfg.sources, Targets(cfg), cfg.capacity,
         (nonce: nat, m: Bytes) => cfg.crypto.seal(SharedSession(cfg), nonce, m),
         OpenerOf(cfg.crypto, SharedSession(cfg)))
  }

  /** How many chunks of file `i` the sender has queued so far. */
  function Queued(cfg: Config, s: System, i: nat): nat {
    if s.toSender != [] then 0
    else if s.sender.pc.Sending? then s.sender.pc.next
    else if i < |cfg.sources| then CountOf(cfg.sources[i]) else 0
  }

  function CountOf(source: Bytes): nat {
    CountAgrees(|source|, 0);
    ChunkCount(|source|)
  }

  function FocusOf(cfg: Config, s: System): Focus {
    match s.receiver.pc
    case Sizing(i) => Opened(i)
    case Receiving(i, n) => On(i, n, [], Queued(cfg, s, i))
    case Forwarding(i, n, m) => On(i, n + 1, [m], Queued(cfg, s, i))
    case _ => Off
  }

  ghost predicate InvAt(cfg: Config, s: System, phase: Phase)
    requires Agreeable(cfg)
  {
    Control(cfg, s, phase) && PipeInv(PlanOf(cfg), s.data, FocusOf(cfg, s))
  }

  ghost predicate Inv(cfg: Config, s: System)
    requires Agreeable(cfg)
  {
    exists phase :: InvAt(cfg, s, phase)
  }
}
