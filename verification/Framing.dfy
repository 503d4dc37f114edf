/** The frame format of `src/proto/croc_raw.rs`: the four bytes "croc", the
    payload length as a little-endian u32, then the payload. */
module Framing {
  import opened Bytes

  const MAGIC: Bytes := [99, 114, 111, 99]

  const U32_LIMIT: nat := 0x1_0000_0000

  /** What the relay sends to a client that waits for its peer. */
  const PING_MESSAGE: Bytes := [1]

  /** The relay copies the stream in reads of at most this size. */
  const COPY_BUFFER: nat := 1024

  /** The lengths that fit the header; a longer message is not sent at all. */
  predicate Sendable(m: Bytes) {
    |m| < U32_LIMIT
  }

  predicate AllSendable(ms: seq<Bytes>) {
    forall m :: m in ms ==> Sendable(m)
  }

  function Frame(m: Bytes): Bytes {
    MAGIC + ToLE(|m|, 4) + m
  }

  function FrameAll(ms: seq<Bytes>): Bytes {
    if ms == [] then [] else Frame(ms[0]) + FrameAll(ms[1..])
  }

  datatype Parsed = Message(payload: Bytes, rest: Bytes) | BadMagic | Truncated

  /** What one `read` makes of the bytes still to come, whatever the sizes in
      which they arrive. */
  function ParseOne(s: Bytes): (p: Parsed)
    ensures p.Message? ==> |p.rest| + |p.payload| + 8 == |s|
  {
    if |s| < 4 then Truncated
    else if s[..4] != MAGIC then BadMagic
    else if |s| < 8 then Truncated
    else
      var n := FromLE(s[4..8]);
      if |s| < 8 + n then Truncated else Message(s[8..8 + n], s[8 + n..])
  }

  /** What the endless reader task delivers before it stops. */
  function ParseAll(s: Bytes): seq<Bytes>
    decreases |s|
  {
    match ParseOne(s)
    case Message(m, rest) => [m] + ParseAll(rest)
    case _ => []
  }

  lemma HeaderFacts(m: Bytes, rest: Bytes)
    requires Sendable(m)
    ensures |Frame(m)| == 8 + |m|
    ensures (Frame(m) + rest)[..4] == MAGIC
    ensures (Frame(m) + rest)[4..8] == ToLE(|m|, 4)
    ensures FromLE((Frame(m) + rest)[4..8]) == |m|
    ensures (Frame(m) + rest)[8..8 + |m|] == m
    ensures (Frame(m) + rest)[8 + |m|..] == rest
  {
    WidthFacts();
    LERoundTrip(|m|, 4);
    var s := Frame(m) + rest;
    assert s[4..8] == ToLE(|m|, 4);
  }

  lemma ParseFrame(m: Bytes, rest: Bytes)
    requires Sendable(m)
    ensures ParseOne(Frame(m) + rest) == Message(m, rest)
  {
    HeaderFacts(m, rest);
  }

  /** The reverse: what parses as a message is that message's frame. */
  lemma ParsedIsFrame(s: Bytes)
    requires ParseOne(s).Message?
    ensures Sendable(ParseOne(s).payload)
    ensures s == Frame(ParseOne(s).payload) + ParseOne(s).rest
  {
    WidthFacts();
    LECanonical(s[4..8]);
    var n := FromLE(s[4..8]);
    assert s == s[..4] + s[4..8] + s[8..8 + n] + s[8 + n..];
  }

  lemma {:induction false} ParsedAreSendable(s: Bytes)
    ensures AllSendable(ParseAll(s))
    decreases |s|
  {
    if ParseOne(s).Message? {
      ParsedIsFrame(s);
      ParsedAreSendable(ParseOne(s).rest);
    }
  }

  lemma {:induction false} FrameAllAppend(xs: seq<Bytes>, ys: seq<Bytes>)
    ensures FrameAll(xs + ys) == FrameAll(xs) + FrameAll(ys)
  {
    if xs == [] {
      assert xs + ys == ys;
    } else {
      FrameAllAppend(xs[1..], ys);
      assert (xs + ys)[1..] == xs[1..] + ys;
    }
  }

  lemma FrameAllOne(xs: seq<Bytes>, y: Bytes)
    ensures FrameAll(xs + [y]) == FrameAll(xs) + Frame(y)
  {
    FrameAllAppend(xs, [y]);
    assert FrameAll([y]) == Frame(y) + FrameAll([]);
  }

  /** Parsing commutes with framing, whatever follows the whole frames. */
  lemma {:induction false} ParseFrames(ms: seq<Bytes>, tail: Bytes)
    requires AllSendable(ms)
    ensures ParseAll(FrameAll(ms) + tail) == ms + ParseAll(tail)
  {
    if ms == [] {
      assert FrameAll(ms) + tail == tail;
    } else {
      var rest := FrameAll(ms[1..]) + tail;
      assert FrameAll(ms) + tail == Frame(ms[0]) + rest;
      ParseFrame(ms[0], rest);
      ParseFrames(ms[1..], tail);
    }
  }

  lemma RoundTrip(ms: seq<Bytes>)
    requires AllSendable(ms)
    ensures ParseAll(FrameAll(ms)) == ms
  {
    ParseFrames(ms, []);
    assert FrameAll(ms) + [] == FrameAll(ms);
  }

  lemma CutFrame(m: Bytes, cut: Bytes)
    requires Sendable(m) && cut <= Frame(m) && |cut| < |Frame(m)|
    ensures ParseOne(cut) == Truncated
  {
    var f := Frame(m);
    assert f + [] == f;
    HeaderFacts(m, []);
    assert |cut| >= 4 ==> cut[..4] == f[..4];
    assert |cut| >= 8 ==> cut[4..8] == f[4..8];
  }

  lemma CutAfterFrame(ms: seq<Bytes>, rest: Bytes, got: seq<Bytes>)
    requires ms != [] && got <= ms[1..] && FrameAll(got) <= rest
    requires |got| < |ms[1..]| ==> |rest| < |FrameAll(ms[1..][..|got| + 1])|
    ensures [ms[0]] + got <= ms
    ensures FrameAll([ms[0]] + got) <= Frame(ms[0]) + rest
    ensures |got| + 1 < |ms| ==> |Frame(ms[0]) + rest| < |FrameAll(ms[..|got| + 2])|
  {
    assert ([ms[0]] + got)[1..] == got;
    if |got| + 1 < |ms| {
      assert ms[..|got| + 2][1..] == ms[1..][..|got| + 1];
    }
  }

  lemma FirstFrame(ms: seq<Bytes>)
    requires ms != []
    ensures FrameAll(ms[..1]) == Frame(ms[0])
  {
    assert ms[..1][1..] == [] && FrameAll([]) == [];
  }

  /** A stream cut anywhere yields exactly the messages whose frames are whole:
      the delivered frames are within the cut, and the next one is not. */
  lemma {:induction false} CutStream(ms: seq<Bytes>, cut: Bytes)
    requires AllSendable(ms)
    requires cut <= FrameAll(ms)
    ensures ParseAll(cut) <= ms
    ensures FrameAll(ParseAll(cut)) <= cut
    ensures |ParseAll(cut)| < |ms| ==> |cut| < |FrameAll(ms[..|ParseAll(cut)| + 1])|
  {
    if ms == [] {
    } else {
      var f, after := Frame(ms[0]), FrameAll(ms[1..]);
      PrefixOfSum(cut, f, after);
      HeaderFacts(ms[0], after);
      if |f| <= |cut| {
        var rest := cut[|f|..];
        assert cut == f + rest;
        ParseFrame(ms[0], rest);
        CutStream(ms[1..], rest);
        CutAfterFrame(ms, rest, ParseAll(rest));
      } else {
        CutFrame(ms[0], cut);
        FirstFrame(ms);
      }
    }
  }

  /** Two message sequences with the same bytes are the same sequence. */
  lemma FramingInjective(xs: seq<Bytes>, ys: seq<Bytes>)
    requires AllSendable(xs) && AllSendable(ys)
    requires FrameAll(xs) == FrameAll(ys)
    ensures xs == ys
  {
    RoundTrip(xs);
    RoundTrip(ys);
  }

  // ----- what the bytes are -----

  /** Byte by byte: "croc", the length with its least significant byte first, the
      message. */
  lemma FrameBytes(m: Bytes, k: nat)
    requires k < |Frame(m)|
    ensures |Frame(m)| == 8 + |m|
    ensures Frame(m)[k] == if k < 4 then Ascii("croc")[k]
                           else if k < 8 then |m| / Pow256(k - 4) % 256
                           else m[k - 8]
  {
    MagicSpelled();
    if 4 <= k < 8 {
      LEDigits(|m|, 4, k - 4);
    }
  }

  lemma MagicSpelled()
    ensures MAGIC == Ascii("croc")
  {
    SpelledOut("croc", MAGIC);
  }

  /** `s` ends inside the frame of some message. */
  ghost predicate CutShort(s: Bytes) {
    exists m: Bytes :: Sendable(m) && s < Frame(m)
  }

  /** A stream holds a message first exactly when it begins with that message's
      frame. */
  lemma MessageExactlyWhen(s: Bytes, m: Bytes, rest: Bytes)
    ensures ParseOne(s) == Message(m, rest) <==> Sendable(m) && s == Frame(m) + rest
  {
    if ParseOne(s) == Message(m, rest) {
      ParsedIsFrame(s);
    }
    if Sendable(m) && s == Frame(m) + rest {
      ParseFrame(m, rest);
    }
  }

  /** It is refused exactly when its first four bytes are there and are not the
      magic, and it is too short exactly when it has fewer than four bytes or ends
      inside a frame. */
  lemma NoMessageExactlyWhen(s: Bytes)
    ensures ParseOne(s).BadMagic? <==> |s| >= 4 && s[..4] != Ascii("croc")
    ensures ParseOne(s).Truncated? <==> |s| < 4 || CutShort(s)
  {
    MagicSpelled();
    if |s| >= 4 && CutShort(s) {
      var m: Bytes :| Sendable(m) && s < Frame(m);
      CutFrame(m, s);
    }
    if |s| >= 4 && ParseOne(s).Truncated? {
      Completed(s);
    }
  }

  /** What is missing can be made up. */
  lemma Completed(s: Bytes)
    requires |s| >= 4 && ParseOne(s).Truncated?
    ensures CutShort(s)
  {
    WidthFacts();
    if |s| < 8 {
      var header := s[4..] + seq(8 - |s|, _ => 0);
      LECanonical(header);
      var m: Bytes := seq(FromLE(header), _ => 0);
      assert s == MAGIC + s[4..] && s <= MAGIC + header;
      assert s < Frame(m);
    } else {
      LECanonical(s[4..8]);
      var n := FromLE(s[4..8]);
      var m: Bytes := s[8..] + seq(n - (|s| - 8), _ => 0);
      assert s == MAGIC + s[4..8] + s[8..];
      assert Frame(m) == MAGIC + s[4..8] + m;
      assert s < Frame(m);
    }
  }
}
