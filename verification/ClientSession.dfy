/** `ClientSession` of `src/proto/client_session.rs` as an object whose methods
    update its fields, proved against the functions of `Protocol`. */
module ClientSessions {
  import opened Bytes
  import opened Chunks
  import opened Cryptography
  import opened Options
  import opened Protocol

  datatype Status = Proceed | Stopped(error: SessionError) | Panics | Done

  class ClientSession {
    const isSender: bool
    const sharedSecret: Bytes
    const private: nat
    const freshSalt: Bytes
    const externalIp: string
    const files: Option<FilesInformation>

    var state: ClientState
    var key: Option<PakeKey>
    var encryptedSession: Option<Session>
    var peerExternalIp: Option<string>
    var filesToReceive: Option<FilesInformation>
    var tasksStarted: bool
    var sent: seq<Message>                // on the control connection
    var requested: seq<(int, Range)>      // handed to the reader task
    var created: seq<string>              // paths given to `File::create`

    constructor (isSender: bool, sharedSecret: Bytes, private: nat, freshSalt: Bytes, externalIp: string,
                 files: Option<FilesInformation>)
      ensures View(Start) == Client(isSender, sharedSecret, private, freshSalt, externalIp, files,
                                    KeyExchange, None, None, None, None, false, Start)
      ensures sent == [] && requested == [] && created == []
    {
      this.isSender, this.sharedSecret, this.private := isSender, sharedSecret, private;
      this.freshSalt, this.externalIp, this.files := freshSalt, externalIp, files;
      state, key, encryptedSession, peerExternalIp, filesToReceive := KeyExchange, None, None, None, None;
      tasksStarted, sent, requested, created := false, [], [], [];
    }

    /** The session as a value, at a given point of its program. */
    ghost function View(pc: Pc): Client
      reads this
    {
      Client(isSender, sharedSecret, private, freshSalt, externalIp, files,
             state, key, encryptedSession, peerExternalIp, filesToReceive, tasksStarted, pc)
    }

    /** Where the program is after a step with this status. */
    static function PcOf(status: Status): Pc {
      match status
      case Proceed => Waiting
      case Stopped(error) => Failed(error)
      case Panics => Panicked
      case Done => Returned
    }

    method Send(msg: Message)
      modifies this`sent
      ensures sent == old(sent) + [msg]
    {
      sent := sent + [msg];
    }

    /** Up to the message loop. */
    method Open(crypto: Crypto) returns (status: Status)
      modifies this`key, this`sent
      ensures var o := Begin(old(View(Start)), crypto);
              View(PcOf(status)) == o.client && sent == old(sent) + o.sent
    {
      if |sharedSecret| < SECRET_PREFIX {
        return Panics;
      }
      if !isSender {
        if !CanCut(sharedSecret) {
          return Panics;
        }
        key := Some(PakeKey(PakeSender, None));
        Send(Pake(crypto.pub(PakeSender, Word(sharedSecret), private), SIEC));
      }
      status := Proceed;
    }

    method ProcessKeyExchange(crypto: Crypto, pub: nat, bytes2: Bytes) returns (status: Status)
      requires |sharedSecret| >= SECRET_PREFIX
      modifies this`key, this`encryptedSession, this`state, this`tasksStarted, this`sent
      ensures var o := ExchangeKeys(old(View(Waiting)), crypto, pub, bytes2);
              View(PcOf(status)) == o.client && sent == old(sent) + o.sent
    {
      var word := Word(sharedSecret);
      var salt := freshSalt;
      if isSender {
        if bytes2 != SIEC {
          return Stopped(CurveNotSupported);
        }
        if !CanCut(sharedSecret) {
          return Panics;
        }
        var agreement := crypto.agree(PakeReceiver, word, private, pub);
        if agreement.Rejected? {
          return Stopped(BadKey);
        }
        key := Some(PakeKey(PakeReceiver, if agreement.Agreed? then Some(agreement.key) else None));
        Send(Pake(crypto.pub(PakeReceiver, word, private), salt));
      } else {
        if key.None? {
          return Stopped(CurveNotInitialized);
        }
        var agreement := crypto.agree(PakeSender, word, private, pub);
        if agreement.Rejected? {
          return Stopped(BadKey);
        }
        key := Some(PakeKey(PakeSender, if agreement.Agreed? then Some(agreement.key) else None));
        if |bytes2| != SALT_LENGTH {
          return Stopped(BadSalt);
        }
        salt := bytes2;
      }
      if key.value.k.None? {
        return Panics;
      }
      encryptedSession := Some(Session(key.value.k.value, salt));
      if !isSender {
        Send(ExternalIP(externalIp));
      }
      state := IpExchange;
      tasksStarted := true;
      status := Proceed;
    }

    method ProcessIpExchange(ip: string) returns (status: Status)
      modifies this`peerExternalIp, this`state, this`sent
      ensures var o := ExchangeIps(old(View(Waiting)), ip);
              View(PcOf(status)) == o.client && sent == old(sent) + o.sent
    {
      if state != IpExchange {
        return Stopped(InvalidState);
      }
      if isSender {
        Send(ExternalIP(externalIp));
      }
      peerExternalIp := Some(ip);
      state := FileInfoTransfer;
      status := Proceed;
    }

    method ProcessFilesInfo(info: FilesInformation, world: Surroundings) returns (status: Status)
      modifies this`filesToReceive, this`state, this`sent
      ensures var o := AcceptFiles(old(View(Waiting)), info, world);
              View(PcOf(status)) == o.client && sent == old(sent) + o.sent
    {
      if isSender {
        return Panics;
      }
      if state != FileInfoTransfer {
        return Stopped(InvalidState);
      }
      filesToReceive := Some(info);
      if !world.confirmed {
        Send(TypeError);
        return Stopped(TransferDenied);
      }
      if !world.foldersMade {
        return Stopped(FoldersNotMade);
      }
      if info.toTransfer.None? {
        Send(Finished);
        state := FileTransferred;
      } else {
        state := FileTransfer;
      }
      status := Proceed;
    }

    /** `send_file` with its whole chunk loop; `length` is the length of the file
        that the index selects.  What it hands to the reader task cuts that file
        exactly, into as many chunks as the receiver counts. */
    method SendFile(index: int, length: nat) returns (status: Status)
      modifies this`requested
      ensures var o := ServeFile(old(View(Waiting)), index, length);
              && View(PcOf(status)) == Settled(o.client)
              && requested == old(requested) + Queues(o.client.pc, length)
      ensures status == Proceed && files.value.toTransfer.Some? ==>
                && old(requested) <= requested
                && |requested| - |old(requested)| == ChunkCount(length)
                && CutsExactly(RangesOf(requested[|old(requested)|..]), length)
                && forall r :: r in requested[|old(requested)|..] ==> r.0 == index
    {
      if !tasksStarted || files.None? || !isSender || state != FileTransfer {
        return Panics;
      }
      if files.value.toTransfer.Some? {
        if !(0 <= index < |files.value.toTransfer.value|) {
          return Panics;
        }
        var ranges := SplitFile(length);
        var chunks := seq(|ranges|, i requires 0 <= i < |ranges| => (index, ranges[i]));
        requested := requested + chunks;
        CountAgrees(length, 0);
        assert chunks == ChunkRequests(index, length);
        assert requested[|old(requested)|..] == chunks;
        assert RangesOf(chunks) == ranges;
      }
      status := Proceed;
    }

    static function RangesOf(requests: seq<(int, Range)>): seq<Range> {
      seq(|requests|, i requires 0 <= i < |requests| => requests[i].1)
    }

    /** The two checks at the end of a round: the sender announces its files; the
        receiver learns that it has files to ask for. */
    method EndRound(status: Status) returns (result: Status, receiveFiles: bool)
      modifies this`state, this`sent
      ensures var o := AfterMessage(Outcome(old(View(PcOf(status))), []));
              && View(if receiveFiles then Requesting(0) else PcOf(result)) == o.client
              && sent == old(sent) + o.sent
      ensures receiveFiles ==> result == Proceed && !isSender
    {
      receiveFiles := false;
      result := status;
      if status == Proceed {
        if isSender && state == FileInfoTransfer {
          if files.None? {
            return Panics, false;
          }
          Send(FilesInfo(files.value));
          state := FileTransfer;
        }
        if !isSender && state == FileTransfer {
          if filesToReceive.None? || filesToReceive.value.toTransfer.None? {
            return Panics, false;
          }
          receiveFiles := true;
        }
      }
    }

    method TakeOneMessage(crypto: Crypto, msg: Message, world: Surroundings) returns (status: Status)
      requires |sharedSecret| >= SECRET_PREFIX
      modifies this
      ensures var o := TakeMessage(old(View(Waiting)), crypto, msg, world);
              && View(PcOf(status)) == Settled(o.client)
              && sent == old(sent) + o.sent
              && requested == old(requested) + Queues(o.client.pc, Wanted(msg, world))
              && (o.client.pc.Sending? ==> isSender && state == FileTransfer)
      ensures created == old(created)
    {
      match msg {
        case Pake(pub, bytes2) =>
          status := ProcessKeyExchange(crypto, pub, bytes2);
        case ExternalIP(ip) =>
          status := ProcessIpExchange(ip);
        case FilesInfo(info) =>
          status := ProcessFilesInfo(info, world);
        case RecipientReady(index) =>
          status := SendFile(index, LengthOf(world.lengths, index));
        case Finished =>
          Send(Finished);
          status := Done;
        case TypeError =>
          status := Panics;
      }
    }

    /** One round of the message loop. */
    method ProcessMessage(crypto: Crypto, msg: Message, world: Surroundings)
      returns (status: Status, receiveFiles: bool)
      requires |sharedSecret| >= SECRET_PREFIX
      modifies this
      ensures var o := HandleMessage(old(View(Waiting)), crypto, msg, world);
              && View(if receiveFiles then Requesting(0) else PcOf(status)) == Settled(o.client)
              && sent == old(sent) + o.sent
              && requested == old(requested) + Queues(o.client.pc, Wanted(msg, world))
              && (o.client.pc.Sending? ==> isSender)
      ensures receiveFiles ==> status == Proceed && !isSender
      ensures created == old(created)
    {
      ghost var o := TakeMessage(View(Waiting), crypto, msg, world);
      status := TakeOneMessage(crypto, msg, world);
      status, receiveFiles := FinishRound(o, status);
    }

    method FinishRound(ghost o: Outcome, status: Status) returns (result: Status, receiveFiles: bool)
      requires View(PcOf(status)) == Settled(o.client)
      requires o.client.pc.Sending? ==> isSender && state == FileTransfer
      modifies this`state, this`sent
      ensures View(if receiveFiles then Requesting(0) else PcOf(result)) == Settled(AfterMessage(o).client)
      ensures old(sent) <= sent && o.sent + sent[|old(sent)|..] == AfterMessage(o).sent
      ensures forall length :: Queues(AfterMessage(o).client.pc, length) == Queues(o.client.pc, length)
      ensures AfterMessage(o).client.pc.Sending? ==> isSender
      ensures receiveFiles ==> result == Proceed && !isSender
    {
      SettlesTheSame(o, View(PcOf(status)));
      result, receiveFiles := EndRound(status);
    }

    /** `File::create`. */
    method CreateFile(index: nat)
      requires filesToReceive.Some? && filesToReceive.value.toTransfer.Some?
      requires index < |filesToReceive.value.toTransfer.value|
      modifies this`created
      ensures created == old(created) + [filesToReceive.value.toTransfer.value[index].path]
    {
      created := created + [filesToReceive.value.toTransfer.value[index].path];
    }

    /** `set_len`, which a negative size makes fail, and the request. */
    method RequestFile(index: nat) returns (status: Status)
      requires filesToReceive.Some? && filesToReceive.value.toTransfer.Some?
      requires index < |filesToReceive.value.toTransfer.value|
      modifies this`sent
      ensures if filesToReceive.value.toTransfer.value[index].size < 0
              then status == Stopped(BadSize) && sent == old(sent)
              else status == Proceed && sent == old(sent) + [RecipientReady(index)]
    {
      if filesToReceive.value.toTransfer.value[index].size < 0 {
        return Stopped(BadSize);
      }
      Send(RecipientReady(index));
      status := Proceed;
    }

    /** The loop over the files.  It creates one file after the other, asks for it,
        gives it the next frames of the data connection, as many as its size
        announces, and finishes; which file a frame belongs to follows from its
        position alone.  When the connection closes early the later files are
        still asked for, and get nothing; at a negative size the loop fails. */
    method ReceiveFiles(frames: seq<Bytes>) returns (status: Status, routed: seq<seq<Bytes>>)
      requires filesToReceive.Some? && filesToReceive.value.toTransfer.Some?
      modifies this`sent, this`created
      ensures var list := filesToReceive.value.toTransfer.value;
              && |routed| == Sized(list, 0)
              && created == old(created) + PathsOf(list, if |routed| < |list| then |routed| + 1 else |routed|)
              && sent == old(sent) + Asking(|routed|) + (if |routed| == |list| then [Finished] else [])
              && status == (if |routed| == |list| then Proceed else Stopped(BadSize))
              && Joined(routed) <= frames
              && Shared(list, |frames|, routed)
    {
      var list := filesToReceive.value.toTransfer.value;
      routed := [];
      var rest := frames;
      for index := 0 to |list|
        invariant |routed| == index && Sized(list, index) == Sized(list, 0)
        invariant created == old(created) + PathsOf(list, index)
        invariant sent == old(sent) + Asking(index)
        invariant Joined(routed) + rest == frames
        invariant Shared(list, |frames|, routed)
      {
        CreateFile(index);
        PathsOne(list, index);
        status := RequestFile(index);
        if status != Proceed {
          return status, routed;
        }
        AskingOne(index);
        var forwarded := CountFrames(list[index].size, rest);
        JoinedRest(routed, forwarded, rest);
        SharedOneMore(list, |frames|, routed, forwarded);
        routed, rest := routed + [forwarded], rest[|forwarded|..];
      }
      Send(Finished);
      status := Proceed;
    }
  }

  /** A client whose chunk loop has run to its end. */
  function Settled(c: Client): Client {
    if c.pc.Sending? then c.(pc := Waiting) else c
  }

  /** Only a sender that serves files is in a chunk loop, and the checks at the end
      of a round do nothing to it. */
  lemma SettlesTheSame(o: Outcome, c: Client)
    requires c == Settled(o.client)
    requires o.client.pc.Sending? ==> c.isSender && c.state == FileTransfer
    ensures var after := AfterMessage(Outcome(c, []));
            && after.client == Settled(AfterMessage(o).client)
            && AfterMessage(o).sent == o.sent + after.sent
            && forall length :: Queues(AfterMessage(o).client.pc, length) == Queues(o.client.pc, length)
  {
  }

  /** The length of the file a message asks for. */
  function Wanted(msg: Message, world: Surroundings): nat {
    if msg.RecipientReady? then LengthOf(world.lengths, msg.index) else 0
  }

  /** What the chunk loop hands to the reader task from its start on. */
  function Queues(pc: Pc, length: nat): seq<(int, Range)> {
    if pc.Sending? then ChunkRequests(pc.index, length) else []
  }

  function ChunkRequests(index: int, length: nat): seq<(int, Range)> {
    CountAgrees(length, 0);
    seq(ChunkCount(length), k requires 0 <= k => (index, ChunkAt(length, k)))
  }

  /** The first entry from `from` on with a negative size, or the end of the list. */
  function Sized(list: seq<FileInfo>, from: nat): (n: nat)
    requires from <= |list|
    ensures from <= n <= |list|
    ensures n < |list| ==> list[n].size < 0
    ensures forall i :: from <= i < n ==> list[i].size >= 0
    decreases |list| - from
  {
    if from < |list| && list[from].size >= 0 then Sized(list, from + 1) else from
  }

  function PathsOf(list: seq<FileInfo>, n: nat): seq<string>
    requires n <= |list|
  {
    seq(n, i requires 0 <= i < n => list[i].path)
  }

  lemma PathsOne(list: seq<FileInfo>, n: nat)
    requires n < |list|
    ensures PathsOf(list, n + 1) == PathsOf(list, n) + [list[n].path]
  {
  }

  function Asking(n: nat): seq<Message> {
    seq(n, i => RecipientReady(i))
  }

  lemma AskingOne(n: nat)
    ensures Asking(n + 1) == Asking(n) + [RecipientReady(n)]
  {
  }

  function Joined(parts: seq<seq<Bytes>>): seq<Bytes> {
    if parts == [] then [] else Joined(parts[..|parts| - 1]) + parts[|parts| - 1]
  }

  /** Each file in turn gets as many frames as its size announces, or what is left. */
  ghost predicate Shared(list: seq<FileInfo>, total: nat, routed: seq<seq<Bytes>>) {
    && |routed| <= |list|
    && forall i :: 0 <= i < |routed| ==> ShareAt(list, total, routed, i)
  }

  ghost predicate ShareAt(list: seq<FileInfo>, total: nat, routed: seq<seq<Bytes>>, i: nat)
    requires i < |routed| <= |list|
  {
    |routed[i]| == Share(list[i].size, total - |Joined(routed[..i])|)
  }

  function Share(size: int, left: int): int {
    if size <= 0 then 0 else Min(ChunkCount(size), left)
  }

  lemma SharedOneMore(list: seq<FileInfo>, total: nat, routed: seq<seq<Bytes>>, part: seq<Bytes>)
    requires Shared(list, total, routed) && |routed| < |list|
    requires |part| == Share(list[|routed|].size, total - |Joined(routed)|)
    ensures Shared(list, total, routed + [part])
  {
    var longer := routed + [part];
    forall i | 0 <= i < |longer|
      ensures ShareAt(list, total, longer, i)
    {
      if i < |routed| {
        assert ShareAt(list, total, routed, i);
        SamePrefix(routed, part, i);
      } else {
        SamePrefix(routed, part, i);
        assert routed[..i] == routed;
      }
    }
  }

  lemma SamePrefix(routed: seq<seq<Bytes>>, part: seq<Bytes>, i: nat)
    requires i <= |routed|
    ensures (routed + [part])[..i] == routed[..i]
  {
  }

  lemma JoinedRest(parts: seq<seq<Bytes>>, part: seq<Bytes>, rest: seq<Bytes>)
    requires part <= rest
    ensures Joined(parts + [part]) + rest[|part|..] == Joined(parts) + rest
  {
    JoinedOne(parts, part);
    assert rest == part + rest[|part|..];
  }

  lemma JoinedOne(parts: seq<seq<Bytes>>, part: seq<Bytes>)
    ensures Joined(parts + [part]) == Joined(parts) + part
  {
    assert (parts + [part])[..|parts|] == parts;
  }

  // ----- stray frames -----

  lemma {:induction false} JoinedLength(list: seq<FileInfo>, parts: seq<seq<Bytes>>, rest: seq<Bytes>)
    requires |parts| <= |list| && CutAsAnnounced(list, parts)
    ensures Shared(list, |Joined(parts) + rest|, parts)
  {
    if parts != [] {
      var last := |parts| - 1;
      JoinedLength(list, parts[..last], parts[last] + rest);
      assert parts == parts[..last] + [parts[last]];
      assert Joined(parts[..last]) + (parts[last] + rest) == Joined(parts) + rest;
      assert CountOfEntry(list, last) == |parts[last]|;
      SharedOneMore(list, |Joined(parts) + rest|, parts[..last], parts[last]);
    }
  }

  function CountOfEntry(list: seq<FileInfo>, i: nat): int
    requires i < |list|
  {
    ChunkCount(list[i].size)
  }

  /** Each part has the chunks that its entry announces. */
  ghost predicate CutAsAnnounced(list: seq<FileInfo>, parts: seq<seq<Bytes>>)
    requires |parts| <= |list|
  {
    forall i :: 0 <= i < |parts| ==> list[i].size >= 0 && |parts[i]| == CountOfEntry(list, i)
  }

  /** One sequence of frames is shared out in one way only. */
  lemma {:induction false} SharingIsUnique(list: seq<FileInfo>, frames: seq<Bytes>, a: seq<seq<Bytes>>,
                                           b: seq<seq<Bytes>>)
    requires Shared(list, |frames|, a) && Shared(list, |frames|, b) && |a| == |b|
    requires Joined(a) <= frames && Joined(b) <= frames
    ensures a == b
  {
    if a != [] {
      var last := |a| - 1;
      ShorterShare(list, frames, a);
      ShorterShare(list, frames, b);
      SharingIsUnique(list, frames, a[..last], b[..last]);
      assert ShareAt(list, |frames|, a, last) && ShareAt(list, |frames|, b, last);
      NextPart(Joined(a[..last]), a[last], b[last], frames);
      assert a == a[..last] + [a[last]] && b == b[..last] + [b[last]];
    }
  }

  lemma NextPart(before: seq<Bytes>, x: seq<Bytes>, y: seq<Bytes>, frames: seq<Bytes>)
    requires before + x <= frames && before + y <= frames && |x| == |y|
    ensures x == y
  {
    assert x == frames[|before|..|before| + |x|] && y == frames[|before|..|before| + |y|];
  }

  lemma ShorterShare(list: seq<FileInfo>, frames: seq<Bytes>, a: seq<seq<Bytes>>)
    requires a != [] && Shared(list, |frames|, a) && Joined(a) <= frames
    ensures Shared(list, |frames|, a[..|a| - 1]) && Joined(a[..|a| - 1]) <= frames
  {
    var last := |a| - 1;
    PrefixOnly(Joined(a[..last]), a[last], frames);
    forall i | 0 <= i < last
      ensures ShareAt(list, |frames|, a[..last], i)
    {
      ShareOfPrefix(list, |frames|, a, last, i);
    }
  }

  lemma PrefixOnly(x: seq<Bytes>, y: seq<Bytes>, frames: seq<Bytes>)
    requires x + y <= frames
    ensures x <= frames
  {
    assert x == (x + y)[..|x|];
  }

  lemma ShareOfPrefix(list: seq<FileInfo>, total: nat, a: seq<seq<Bytes>>, n: nat, i: nat)
    requires i < n <= |a| <= |list| && ShareAt(list, total, a, i)
    ensures ShareAt(list, total, a[..n], i)
  {
    assert a[..n][..i] == a[..i];
  }

  /** Stray frames ahead of the chunks, such as keepalive pings, push every chunk
      back: each file is given just its own chunks exactly when there are no stray
      frames, or no chunks. */
  lemma StraysShiftFiles(list: seq<FileInfo>, strays: seq<Bytes>, chunks: seq<seq<Bytes>>, routed: seq<seq<Bytes>>)
    requires |chunks| == |list| == |routed| && CutAsAnnounced(list, chunks)
    requires forall x :: x in strays ==> x !in Joined(chunks)
    requires Joined(routed) <= strays + Joined(chunks) && Shared(list, |strays + Joined(chunks)|, routed)
    ensures routed == chunks <==> strays == [] || Joined(chunks) == []
  {
    if strays == [] {
      OnlyOneShare(list, chunks, routed, strays + Joined(chunks));
    } else if Joined(chunks) == [] {
      NothingJoined(chunks);
      NothingShared(list, strays, chunks, routed);
    } else {
      StrayComesFirst(strays, Joined(chunks));
    }
  }

  lemma OnlyOneShare(list: seq<FileInfo>, chunks: seq<seq<Bytes>>, routed: seq<seq<Bytes>>, frames: seq<Bytes>)
    requires |chunks| == |list| == |routed| && CutAsAnnounced(list, chunks) && frames == Joined(chunks)
    requires Joined(routed) <= frames && Shared(list, |frames|, routed)
    ensures routed == chunks
  {
    assert Joined(chunks) + [] == frames;
    JoinedLength(list, chunks, []);
    SharingIsUnique(list, frames, routed, chunks);
  }

  lemma StrayComesFirst(strays: seq<Bytes>, joined: seq<Bytes>)
    requires strays != [] && joined != [] && forall x :: x in strays ==> x !in joined
    ensures !(joined <= strays + joined)
  {
    assert strays[0] in strays && joined[0] in joined;
    assert (strays + joined)[0] == strays[0];
  }

  lemma {:induction false} NothingJoined(parts: seq<seq<Bytes>>)
    requires Joined(parts) == []
    ensures forall i :: 0 <= i < |parts| ==> parts[i] == []
  {
    if parts != [] {
      NothingJoined(parts[..|parts| - 1]);
    }
  }

  lemma NothingShared(list: seq<FileInfo>, strays: seq<Bytes>, chunks: seq<seq<Bytes>>, routed: seq<seq<Bytes>>)
    requires |chunks| == |list| == |routed| && CutAsAnnounced(list, chunks)
    requires forall i :: 0 <= i < |chunks| ==> chunks[i] == []
    requires Shared(list, |strays + Joined(chunks)|, routed)
    ensures routed == chunks
  {
    forall i | 0 <= i < |list|
      ensures routed[i] == chunks[i]
    {
      assert ShareAt(list, |strays + Joined(chunks)|, routed, i);
      CountAgrees(list[i].size, 0);
    }
  }
}
