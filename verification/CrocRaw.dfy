/** The byte-level objects of `src/proto/croc_raw.rs` and the copy loop of
    `src/relay/server.rs`, over a connection whose bytes arrive in arbitrary
    segments.  Their contracts speak of the bytes only, never of the segments. */
module CrocRaw {
  import opened Bytes
  import opened Framing
  import opened Options

  datatype IoError = UnexpectedEof | BadMagicBytes(found: Bytes) | TooLong

  /** A TCP connection: the segments still to be read, after which the peer has
      closed, and the bytes written so far. */
  class Connection {
    var arriving: seq<Bytes>
    var sent: Bytes

    constructor (segments: seq<Bytes>)
      ensures arriving == segments && sent == []
    {
      arriving, sent := segments, [];
    }

    function Pending(): Bytes
      reads this
    {
      Concat(arriving)
    }

    /** One `read`: at least one byte unless the stream has ended. */
    method Read(max: nat) returns (data: Bytes)
      requires max > 0
      modifies this`arriving
      ensures |data| <= max
      ensures data + Pending() == old(Pending())
      ensures data == [] <==> old(Pending()) == []
    {
      while arriving != [] && arriving[0] == []
        invariant Pending() == old(Pending())
        decreases |arriving|
      {
        arriving := arriving[1..];
      }
      if arriving == [] {
        data := [];
      } else {
        var head, tail := arriving[0], arriving[1..];
        var k := if |head| <= max then |head| else max;
        data := head[..k];
        arriving := [head[k..]] + tail;
        assert data + (head[k..] + Concat(tail)) == head + Concat(tail);
      }
    }

    /** `read_exact`: on an early end the bytes read so far are lost. */
    method ReadExact(n: nat) returns (r: Result<Bytes, IoError>)
      modifies this`arriving
      ensures n <= |old(Pending())| ==> r == Ok(old(Pending())[..n]) && Pending() == old(Pending())[n..]
      ensures n > |old(Pending())| ==> r == Err(UnexpectedEof) && Pending() == []
    {
      var buffer: Bytes := [];
      while |buffer| < n
        invariant |buffer| <= n
        invariant buffer + Pending() == old(Pending())
        decreases n - |buffer|
      {
        var data := Read(n - |buffer|);
        if data == [] {
          return Err(UnexpectedEof);
        }
        buffer := buffer + data;
      }
      assert old(Pending())[..n] == buffer;
      r := Ok(buffer);
    }

    method WriteAll(data: Bytes)
      modifies this`sent
      ensures sent == old(sent) + data
    {
      sent := sent + data;
    }
  }

  /** The buffer that all three writers build; a message too long for the length
      field is refused. */
  method BuildFrame(msg: Bytes) returns (r: Result<Bytes, IoError>)
    ensures r == if Sendable(msg) then Ok(Frame(msg)) else Err(TooLong)
  {
    var buffer: Bytes := [];
    buffer := buffer + MAGIC;
    if |msg| >= U32_LIMIT {
      return Err(TooLong);
    }
    buffer := buffer + ToLE(|msg|, 4);
    buffer := buffer + msg;
    assert buffer == Frame(msg);
    r := Ok(buffer);
  }

  /** `CrocProto::write`. */
  method Write(connection: Connection, msg: Bytes) returns (r: Result<(), IoError>)
    modifies connection`sent
    ensures r.Ok? <==> Sendable(msg)
    ensures connection.sent == if Sendable(msg) then old(connection.sent) + Frame(msg) else old(connection.sent)
  {
    var buffer := BuildFrame(msg);
    if buffer.Err? {
      return Err(buffer.error);
    }
    connection.WriteAll(buffer.value);
    r := Ok(());
  }

  /** `CrocProto::read`, and one round of the reader task. */
  method Read(connection: Connection) returns (r: Result<Bytes, IoError>)
    modifies connection`arriving
    ensures match ParseOne(old(connection.Pending()))
            case Message(m, rest) => r == Ok(m) && connection.Pending() == rest
            case BadMagic =>
              r == Err(BadMagicBytes(old(connection.Pending())[..4]))
              && connection.Pending() == old(connection.Pending())[4..]
            case Truncated => r == Err(UnexpectedEof) && connection.Pending() == []
  {
    ghost var s := connection.Pending();
    var magic := connection.ReadExact(4);
    if magic.Err? {
      return magic;
    }
    if magic.value != MAGIC {
      return Err(BadMagicBytes(magic.value));
    }
    var length := connection.ReadExact(4);
    if length.Err? {
      return length;
    }
    assert s[4..][..4] == s[4..8] && s[4..][4..] == s[8..];
    ghost var n := FromLE(length.value);
    assert 8 + n <= |s| ==> s[8..][..n] == s[8..8 + n] && s[8..][n..] == s[8 + n..];
    r := connection.ReadExact(FromLE(length.value));
  }

  /** The reader task of `MpscCrocProto::from_stream`: it passes on every whole
      frame, in order, until the stream ends or is not a frame. */
  method ReaderTask(connection: Connection) returns (delivered: seq<Bytes>)
    modifies connection`arriving
    ensures delivered == ParseAll(old(connection.Pending()))
  {
    delivered := [];
    var running := true;
    while running
      invariant running ==> delivered + ParseAll(connection.Pending()) == ParseAll(old(connection.Pending()))
      invariant !running ==> delivered == ParseAll(old(connection.Pending()))
      decreases running, |connection.Pending()|
    {
      ghost var rest := connection.Pending();
      var message := Read(connection);
      if message.Err? {
        running := false;
      } else {
        delivered := delivered + [message.value];
        assert ParseAll(rest) == [message.value] + ParseAll(connection.Pending());
      }
    }
  }

  /** The writer task: frames leave in channel order, each in one piece. */
  method WriterTask(queue: seq<Bytes>, connection: Connection)
    modifies connection`sent
    ensures connection.sent == old(connection.sent) + Concat(queue)
  {
    var i := 0;
    while i < |queue|
      invariant 0 <= i <= |queue|
      invariant connection.sent == old(connection.sent) + Concat(queue[..i])
    {
      connection.WriteAll(queue[i]);
      ConcatOne(queue[..i], queue[i]);
      assert queue[..i + 1] == queue[..i] + [queue[i]];
      i := i + 1;
    }
    assert queue[..i] == queue;
  }

  /** `asymmetric_bridge_sockets`: reads of at most 1024 bytes, passed on until
      the end of the stream. */
  method CopyAll(from: Connection, to: Connection)
    requires from != to
    modifies from`arriving, to`sent
    ensures from.Pending() == []
    ensures to.sent == old(to.sent) + old(from.Pending())
  {
    var amount := 1;
    while amount != 0
      invariant to.sent + from.Pending() == old(to.sent) + old(from.Pending())
      invariant amount == 0 ==> from.Pending() == []
      decreases amount != 0, |from.Pending()|
    {
      ghost var left := from.Pending();
      var buffer := from.Read(COPY_BUFFER);
      amount := |buffer|;
      if amount != 0 {
        to.WriteAll(buffer);
        assert to.sent + from.Pending() == old(to.sent) + old(from.Pending());
      }
    }
  }
}
