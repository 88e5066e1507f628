/** What `TextEncoder` produces: UTF-8, as in section 3 of RFC 3629. */
module Utf8 {
  import opened Codec

  /** One code point. */
  function EncodeChar(c: char): Bytes {
    var x := c as int;
    if x < 0x80 then [x]
    else if x < 0x800 then [0xC0 + x / 64, 0x80 + x % 64]
    else if x < 0x1_0000 then [0xE0 + x / 64 / 64, 0x80 + x / 64 % 64, 0x80 + x % 64]
    else [0xF0 + x / 64 / 64 / 64, 0x80 + x / 64 / 64 % 64, 0x80 + x / 64 % 64, 0x80 + x % 64]
  }

  function Encode(s: string): Bytes {
    if s == "" then [] else Encode(s[..|s| - 1]) + EncodeChar(s[|s| - 1])
  }

  predicate IsContinuation(b: Byte) { 0x80 <= b < 0xC0 }

  /** How many bytes the sequence that ends here has: back to the first that is not a
      continuation byte. */
  function LastWidth(b: Bytes): (n: nat)
    requires b != []
    ensures 1 <= n <= |b|
  {
    if !IsContinuation(b[|b| - 1]) || |b| == 1 then 1 else 1 + LastWidth(b[..|b| - 1])
  }

  /** The number in a sequence of one to four bytes. */
  function CodePoint(b: Bytes): int {
    if |b| == 0 then 0
    else if |b| == 1 then b[0]
    else Tail(b[0] as int - (if |b| == 2 then 0xC0 else if |b| == 3 then 0xE0 else 0xF0), b[1..])
  }

  /** Each further byte adds its six bits. */
  function Tail(lead: int, b: Bytes): int
    decreases |b|
  {
    if b == [] then lead else Tail(64 * lead + (b[0] as int - 0x80), b[1..])
  }

  function Decode(b: Bytes): seq<int> {
    if b == [] then [] else
      var n := LastWidth(b);
      Decode(b[..|b| - n]) + [CodePoint(b[|b| - n..])]
  }

  function CodePoints(s: string): seq<int> { seq(|s|, i requires 0 <= i < |s| => s[i] as int) }

  lemma {:induction false} DecodeChar(c: char)
    ensures var b := EncodeChar(c);
      && CodePoint(b) == c as int && 1 <= |b| <= 4
      && !IsContinuation(b[0]) && forall i :: 0 < i < |b| ==> IsContinuation(b[i])
  {
    var x, b := c as int, EncodeChar(c);
    if |b| == 2 {
      TailTwo(x / 64, x % 64);
    } else if |b| == 3 {
      TailThree(x / 64 / 64, x / 64 % 64, x % 64);
    } else if |b| == 4 {
      TailFour(x / 64 / 64 / 64, x / 64 / 64 % 64, x / 64 % 64, x % 64);
    }
  }

  lemma {:induction false} TailTwo(a: int, d: nat)
    requires d < 64
    ensures Tail(a, [0x80 + d]) == 64 * a + d
  {}

  lemma {:induction false} TailThree(a: int, b: nat, d: nat)
    requires b < 64 && d < 64
    ensures Tail(a, [0x80 + b, 0x80 + d]) == 64 * (64 * a + b) + d
  {
    assert [0x80 + b, 0x80 + d][1..] == [0x80 + d];
    TailTwo(64 * a + b, d);
  }

  lemma {:induction false} TailFour(a: int, b: nat, e: nat, d: nat)
    requires b < 64 && e < 64 && d < 64
    ensures Tail(a, [0x80 + b, 0x80 + e, 0x80 + d]) == 64 * (64 * (64 * a + b) + e) + d
  {
    assert [0x80 + b, 0x80 + e, 0x80 + d][1..] == [0x80 + e, 0x80 + d];
    TailThree(64 * a + b, e, d);
  }

  lemma {:induction false} WidthOfLast(rest: Bytes, b: Bytes)
    requires 1 <= |b| && !IsContinuation(b[0]) && forall i :: 0 < i < |b| ==> IsContinuation(b[i])
    ensures LastWidth(rest + b) == |b|
    decreases |b|
  {
    if |b| > 1 {
      assert (rest + b)[..|rest + b| - 1] == rest + b[..|b| - 1];
      WidthOfLast(rest, b[..|b| - 1]);
    }
  }

  /** The encoding loses nothing. */
  lemma {:induction false} DecodeEncode(s: string)
    ensures Decode(Encode(s)) == CodePoints(s)
  {
    hide EncodeChar, CodePoint, LastWidth;
    if s != "" {
      var rest, c := s[..|s| - 1], s[|s| - 1];
      var b := EncodeChar(c);
      DecodeEncode(rest);
      DecodeChar(c);
      WidthOfLast(Encode(rest), b);
      assert (Encode(rest) + b)[..|Encode(rest)|] == Encode(rest) && (Encode(rest) + b)[|Encode(rest)|..] == b;
      assert CodePoints(s) == CodePoints(rest) + [c as int];
    }
  }

  lemma {:induction false} EncodeConcat(s: string, t: string)
    ensures Encode(s + t) == Encode(s) + Encode(t)
    decreases |t|
  {
    hide EncodeChar;
    if t == "" {
      assert s + t == s;
    } else {
      EncodeConcat(s, t[..|t| - 1]);
      assert (s + t)[..|s + t| - 1] == s + t[..|t| - 1];
      var a, b, c := Encode(s), Encode(t[..|t| - 1]), EncodeChar(t[|t| - 1]);
      assert a + b + c == a + (b + c);
    }
  }
}
