/** The decisions of `ClientSession::process_client` and its helpers, as
    functions from a client and a message to the client after it and what it
    sends.  `ClientSession.dfy` proves the field-updating methods against them;
    `Transfer.dfy` runs two clients against each other. */
module Protocol {
  import opened Bytes
  import opened Cryptography
  import opened Options

  datatype ClientState = KeyExchange | IpExchange | FileInfoTransfer | FileTransfer | FileTransferred

  /** `path` is the remote folder joined with the name. */
  datatype FileInfo = FileInfo(path: string, size: int)

  datatype FilesInformation = FilesInformation(toTransfer: Option<seq<FileInfo>>)

  datatype Message =
    | Pake(pub: nat, bytes2: Bytes)
    | ExternalIP(ip: string)
    | FilesInfo(info: FilesInformation)
    | RecipientReady(index: int)
    | TypeError
    | Finished

  datatype SessionError =
    | CurveNotSupported
    | CurveNotInitialized
    | BadKey
    | BadSalt
    | InvalidState
    | TransferDenied
    | FoldersNotMade
    | BadSize

  /** Where `process_client` is.  `Sending` is inside the chunk loop of
      `send_file`; the four receiving points are the head of the file loop, the
      file just created and still without a length, the chunk loop, and the wait
      for room in the writer task's queue. */
  datatype Pc =
    | Start
    | Waiting
    | Sending(index: nat, next: nat)
    | Requesting(index: nat)
    | Sizing(index: nat)
    | Receiving(index: nat, count: nat)
    | Forwarding(index: nat, count: nat, chunk: Bytes)
    | Returned
    | Failed(error: SessionError)
    | Panicked

  datatype PakeKey = PakeKey(role: Role, k: Option<nat>)

  /** `secret` is the UTF-8 encoding of the shared secret. */
  datatype Client = Client(
    isSender: bool, secret: Bytes, private: nat, freshSalt: Bytes, externalIp: string,
    files: Option<FilesInformation>,
    state: ClientState, key: Option<PakeKey>, session: Option<Session>, peerIp: Option<string>,
    toReceive: Option<FilesInformation>, tasksStarted: bool, pc: Pc)

  datatype Outcome = Outcome(client: Client, sent: seq<Message>)

  /** What comes from outside: the receiving user's answer, whether the empty
      folders could be made, and the lengths of the files on the sender's disk. */
  datatype Surroundings = Surroundings(confirmed: bool, foldersMade: bool, lengths: seq<nat>)

  const SIEC: Bytes := [115, 105, 101, 99]

  const SECRET_PREFIX: nat := 5

  function Word(secret: Bytes): Bytes
    requires |secret| >= SECRET_PREFIX
  {
    secret[SECRET_PREFIX..]
  }

  /** In UTF-8 a byte within 0x80..0xBF continues a character. */
  predicate Continues(b: Byte) {
    0x80 <= b < 0xC0
  }

  /** The secret can be cut as text, not only as bytes: the cut is not inside a
      character. */
  predicate CanCut(secret: Bytes) {
    |secret| == SECRET_PREFIX || (|secret| > SECRET_PREFIX && !Continues(secret[SECRET_PREFIX]))
  }

  function Fail(c: Client, error: SessionError): Outcome {
    Outcome(c.(pc := Failed(error)), [])
  }

  function Panic(c: Client): Outcome {
    Outcome(c.(pc := Panicked), [])
  }

  /** Up to the message loop.  Both ends cut the bytes of the secret for the data
      connection; the receiver then cuts the text and opens the key exchange. */
  function Begin(c: Client, crypto: Crypto): Outcome {
    if |c.secret| < SECRET_PREFIX then Panic(c)
    else if c.isSender then Outcome(c.(pc := Waiting), [])
    else if !CanCut(c.secret) then Panic(c)
    else Outcome(c.(key := Some(PakeKey(PakeSender, None)), pc := Waiting),
                 [Pake(crypto.pub(PakeSender, Word(c.secret), c.private), SIEC)])
  }

  /** `process_key_exchange`, which also starts the file-system tasks. */
  function ExchangeKeys(c: Client, crypto: Crypto, pub: nat, bytes2: Bytes): Outcome
    requires |c.secret| >= SECRET_PREFIX
  {
    var word := Word(c.secret);
    if c.isSender then
      if bytes2 != SIEC then Fail(c, CurveNotSupported)
      else if !CanCut(c.secret) then Panic(c)
      else
        var answer := [Pake(crypto.pub(PakeReceiver, word, c.private), c.freshSalt)];
        match crypto.agree(PakeReceiver, word, c.private, pub)
        case Rejected => Fail(c, BadKey)
        case Keyless => Outcome(c.(key := Some(PakeKey(PakeReceiver, None)), pc := Panicked), answer)
        case Agreed(k) => Outcome(WithSession(c, PakeReceiver, k, c.freshSalt), answer)
    else if c.key.None? then Fail(c, CurveNotInitialized)
    else
      var agreement := crypto.agree(PakeSender, word, c.private, pub);
      if agreement.Rejected? then Fail(c, BadKey)
      else
        var k := if agreement.Agreed? then Some(agreement.key) else None;
        var c' := c.(key := Some(PakeKey(PakeSender, k)));
        if |bytes2| != SALT_LENGTH then Fail(c', BadSalt)
        else if k.None? then Panic(c')
        else Outcome(WithSession(c, PakeSender, k.value, bytes2), [ExternalIP(c.externalIp)])
  }

  function WithSession(c: Client, role: Role, k: nat, salt: Bytes): Client {
    c.(key := Some(PakeKey(role, Some(k))), session := Some(Session(k, salt)), state := IpExchange,
       tasksStarted := true)
  }

  /** `process_ip_exchange`. */
  function ExchangeIps(c: Client, ip: string): Outcome {
    if c.state != IpExchange then Fail(c, InvalidState)
    else Outcome(c.(peerIp := Some(ip), state := FileInfoTransfer),
                 if c.isSender then [ExternalIP(c.externalIp)] else [])
  }

  /** `process_files_info`. */
  function AcceptFiles(c: Client, info: FilesInformation, world: Surroundings): Outcome {
    if c.isSender then Panic(c)
    else if c.state != FileInfoTransfer then Fail(c, InvalidState)
    else
      var c' := c.(toReceive := Some(info));
      if !world.confirmed then Outcome(c'.(pc := Failed(TransferDenied)), [TypeError])
      else if !world.foldersMade then Fail(c', FoldersNotMade)
      else if info.toTransfer.None? then Outcome(c'.(state := FileTransferred), [Finished])
      else Outcome(c'.(state := FileTransfer), [])
  }

  /** `send_file` up to its chunk loop, given the length of the file asked for. */
  function ServeFile(c: Client, index: int, length: nat): Outcome {
    if !c.tasksStarted || c.files.None? || !c.isSender || c.state != FileTransfer then Panic(c)
    else if c.files.value.toTransfer.None? then Outcome(c, [])
    else if !(0 <= index < |c.files.value.toTransfer.value|) then Panic(c)
    else Outcome(if 0 < length then c.(pc := Sending(index, 0)) else c, [])
  }

  function LengthOf(lengths: seq<nat>, index: int): nat {
    if 0 <= index < |lengths| then lengths[index] else 0
  }

  /** The two checks that follow the `match` in the message loop. */
  function AfterMessage(o: Outcome): Outcome {
    var c := o.client;
    if c.pc != Waiting then o
    else if c.isSender && c.state == FileInfoTransfer then
      if c.files.None? then Outcome(c.(pc := Panicked), o.sent)
      else Outcome(c.(state := FileTransfer), o.sent + [FilesInfo(c.files.value)])
    else if !c.isSender && c.state == FileTransfer then
      if c.toReceive.None? || c.toReceive.value.toTransfer.None? then Outcome(c.(pc := Panicked), o.sent)
      else Outcome(c.(pc := Requesting(0)), o.sent)
    else o
  }

  /** The `match` of the message loop. */
  function TakeMessage(c: Client, crypto: Crypto, msg: Message, world: Surroundings): Outcome
    requires |c.secret| >= SECRET_PREFIX
  {
    match msg
    case Pake(pub, bytes2) => ExchangeKeys(c, crypto, pub, bytes2)
    case ExternalIP(ip) => ExchangeIps(c, ip)
    case FilesInfo(info) => AcceptFiles(c, info, world)
    case RecipientReady(index) => ServeFile(c, index, LengthOf(world.lengths, index))
    case TypeError => Panic(c)
    case Finished => Outcome(c.(pc := Returned), [Finished])
  }

  /** One round of the message loop. */
  function HandleMessage(c: Client, crypto: Crypto, msg: Message, world: Surroundings): Outcome
    requires |c.secret| >= SECRET_PREFIX
  {
    AfterMessage(TakeMessage(c, crypto, msg, world))
  }
}
