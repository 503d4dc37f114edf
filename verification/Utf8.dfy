/** Text as UTF-8: where its bytes can be cut without cutting a character. */
module Utf8 {
  import opened Bytes
  import opened Protocol

  /** A Unicode scalar value. */
  type Scalar = c: nat | c < 0xD800 || 0xE000 <= c < 0x11_0000

  type Text = seq<Scalar>

  /** The last six bits of a number, as a byte that continues a character. */
  function Continuation(n: nat): Byte {
    0x80 + n % 0x40
  }

  function EncodeScalar(c: Scalar): (s: Bytes)
    ensures 1 <= |s| <= 4
  {
    if c < 0x80 then [c]
    else if c < 0x800 then [0xC0 + c / 0x40, Continuation(c)]
    else if c < 0x1_0000 then [0xE0 + c / 0x1000, Continuation(c / 0x40), Continuation(c)]
    else [0xF0 + c / 0x4_0000, Continuation(c / 0x1000), Continuation(c / 0x40), Continuation(c)]
  }

  function Encode(text: Text): Bytes {
    if text == [] then [] else EncodeScalar(text[0]) + Encode(text[1..])
  }

  /** `at` bytes are the bytes of the first few characters, or of all. */
  ghost predicate IsBoundary(text: Text, at: nat) {
    exists n :: BoundaryAfter(text, at, n)
  }

  ghost predicate BoundaryAfter(text: Text, at: nat, n: nat) {
    n <= |text| && |Encode(text[..n])| == at
  }

  /** The first byte of a character continues none, and all others do. */
  lemma ScalarBytes(c: Scalar, k: nat)
    requires k < |EncodeScalar(c)|
    ensures 0x80 <= EncodeScalar(c)[k] < 0xC0 <==> k > 0
  {
  }

  lemma EncodeFirst(text: Text, n: nat)
    requires 0 < n <= |text|
    ensures Encode(text[..n]) == EncodeScalar(text[0]) + Encode(text[1..][..n - 1])
  {
    assert text[..n][0] == text[0] && text[..n][1..] == text[1..][..n - 1];
  }

  lemma LaterBoundary(text: Text, at: nat)
    requires text != [] && at >= |EncodeScalar(text[0])|
    ensures IsBoundary(text, at) <==> IsBoundary(text[1..], at - |EncodeScalar(text[0])|)
  {
    var later := at - |EncodeScalar(text[0])|;
    if n: nat :| BoundaryAfter(text, at, n) {
      if n > 0 {
        EncodeFirst(text, n);
        assert BoundaryAfter(text[1..], later, n - 1);
      }
    }
    if n: nat :| BoundaryAfter(text[1..], later, n) {
      EncodeFirst(text, n + 1);
      assert BoundaryAfter(text, at, n + 1);
    }
  }

  lemma NoBoundaryInside(text: Text, at: nat)
    requires text != [] && 0 < at < |EncodeScalar(text[0])|
    ensures !IsBoundary(text, at)
  {
    if n: nat :| BoundaryAfter(text, at, n) {
      if n > 0 {
        EncodeFirst(text, n);
      }
    }
  }

  /** A position in the bytes of a text is a boundary exactly when it is the end, or
      the byte there continues no character. */
  lemma {:induction false} BoundaryExactlyWhen(text: Text, at: nat)
    requires at <= |Encode(text)|
    ensures IsBoundary(text, at) <==> at == |Encode(text)| || !(0x80 <= Encode(text)[at] < 0xC0)
  {
    if at == 0 {
      assert text[..0] == [] && BoundaryAfter(text, 0, 0);
      if text != [] {
        ScalarBytes(text[0], 0);
      }
    } else {
      var first := |EncodeScalar(text[0])|;
      if at < first {
        NoBoundaryInside(text, at);
        ScalarBytes(text[0], at);
      } else {
        LaterBoundary(text, at);
        BoundaryExactlyWhen(text[1..], at - first);
      }
    }
  }

  lemma BoundaryIsInside(text: Text, at: nat)
    requires IsBoundary(text, at)
    ensures at <= |Encode(text)|
  {
    var n: nat :| BoundaryAfter(text, at, n);
    EncodeSplit(text, n);
  }

  lemma {:induction false} EncodeSplit(text: Text, n: nat)
    requires n <= |text|
    ensures Encode(text) == Encode(text[..n]) + Encode(text[n..])
  {
    if n > 0 {
      EncodeFirst(text, n);
      EncodeSplit(text[1..], n - 1);
      Associates(EncodeScalar(text[0]), Encode(text[1..][..n - 1]), Encode(text[n..]));
      assert text[1..][n - 1..] == text[n..];
    } else {
      assert text[..0] == [] && text[0..] == text;
    }
  }

  /** A secret can be cut after five bytes exactly when these are the bytes of its
      first few characters. */
  lemma CutsExactlyWhen(text: Text)
    ensures CanCut(Encode(text)) <==> IsBoundary(text, 5)
  {
    if IsBoundary(text, 5) {
      BoundaryIsInside(text, 5);
    }
    if |Encode(text)| >= 5 {
      BoundaryExactlyWhen(text, 5);
    }
  }
}
