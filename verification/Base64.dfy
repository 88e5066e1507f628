/** Canonical base64 as the relay accepts it (sections 3.5, 4 and 5 of RFC 4648):
    the accepted strings are exactly the encoder's outputs. */
module Base64 {
  import opened Codec
  import opened Sums

  type Sextet = v: int | 0 <= v < 64

  /** The v-th character of `STANDARD_B64_ALPHABET`. */
  function Symbol(v: Sextet): char {
    if v < 26 then 'A' + v as char
    else if v < 52 then 'a' + (v - 26) as char
    else if v < 62 then '0' + (v - 52) as char
    else if v == 62 then '+'
    else '/'
  }

  /** `STANDARD_B64_ALPHABET.indexOf(c)`. */
  function IndexOf(c: char): (i: int)
    ensures -1 <= i < 64
  {
    if 'A' <= c <= 'Z' then (c - 'A') as int
    else if 'a' <= c <= 'z' then (c - 'a') as int + 26
    else if '0' <= c <= '9' then (c - '0') as int + 52
    else if c == '+' then 62
    else if c == '/' then 63
    else -1
  }

  predicate InAlphabet(c: char) { IndexOf(c) >= 0 }

  lemma SymbolIndex(v: Sextet)
    ensures IndexOf(Symbol(v)) == v && Symbol(v) != '='
  {}

  lemma IndexSymbol(c: char)
    requires InAlphabet(c)
    ensures Symbol(IndexOf(c)) == c
  {}

  lemma PadNotInAlphabet()
    ensures !InAlphabet('=')
  {}

  // ---------------------------------------------------------------------------
  // Encoder and decoder

  /** `b64e`: four characters for every three bytes, the rest padded. */
  function Encode(b: seq<Byte>): string
    decreases |b|
  {
    if b == [] then ""
    else if |b| == 1 then [Symbol(b[0] / 4), Symbol(b[0] % 4 * 16), '=', '=']
    else if |b| == 2 then [Symbol(b[0] / 4), Symbol(b[0] % 4 * 16 + b[1] / 16), Symbol(b[1] % 16 * 4), '=']
    else EncodeThree(b[0], b[1], b[2]) + Encode(b[3..])
  }

  function EncodeThree(x: Byte, y: Byte, z: Byte): string {
    [Symbol(x / 4), Symbol(x % 4 * 16 + y / 16), Symbol(y % 16 * 4 + z / 64), Symbol(z % 64)]
  }

  function Bits(c: char): Sextet
    requires InAlphabet(c)
  {
    IndexOf(c)
  }

  /** `/^(?:[A-Za-z0-9+/]{4})*(?:[A-Za-z0-9+/]{2}==|[A-Za-z0-9+/]{3}=)?$/` */
  predicate MatchesStandard(s: string)
    decreases |s|
  {
    || s == ""
    || (|s| >= 4 && InAlphabet(s[0]) && InAlphabet(s[1]) && InAlphabet(s[2]) && InAlphabet(s[3]) && MatchesStandard(s[4..]))
    || (|s| == 4 && InAlphabet(s[0]) && InAlphabet(s[1]) && s[3] == '=' && (s[2] == '=' || InAlphabet(s[2])))
  }

  /** `b64d` on a string of that shape; unused low bits are dropped. */
  function Decode(s: string): seq<Byte>
    requires MatchesStandard(s)
    decreases |s|
  {
    if s == "" then []
    else
      var a, b := Bits(s[0]), Bits(s[1]);
      if s[2] == '=' then [a * 4 + b / 16]
      else
        var c := Bits(s[2]);
        if s[3] == '=' then [a * 4 + b / 16, b % 16 * 16 + c / 4]
        else [a * 4 + b / 16, b % 16 * 16 + c / 4, c % 4 * 64 + Bits(s[3])] + Decode(s[4..])
  }

  function Padding(s: string): int {
    if |s| >= 2 && s[|s| - 1] == '=' && s[|s| - 2] == '=' then 2
    else if |s| >= 1 && s[|s| - 1] == '=' then 1
    else 0
  }

  function DecodedBytes(s: string): int { |s| / 4 * 3 - Padding(s) }

  predicate LowBitsClear(s: string)
    requires |s| > Padding(s)
  {
    var last := IndexOf(s[|s| - Padding(s) - 1]);
    (Padding(s) == 2 ==> last % 16 == 0) && (Padding(s) == 1 ==> last % 4 == 0)
  }

  predicate IsCanonicalBase64(s: string, maxChars: int, expectedBytes: Option<int>) {
    && |s| != 0
    && |s| <= maxChars
    && |s| % 4 == 0
    && MatchesStandard(s)
    && (expectedBytes.Some? ==> DecodedBytes(s) == expectedBytes.value)
    && LowBitsClear(s)
  }

  // ---------------------------------------------------------------------------
  // Block arithmetic

  lemma SplitThree(x: Byte, y: Byte, z: Byte)
    ensures (x / 4) * 4 + (x % 4 * 16 + y / 16) / 16 == x
    ensures (x % 4 * 16 + y / 16) % 16 * 16 + (y % 16 * 4 + z / 64) / 4 == y
    ensures (y % 16 * 4 + z / 64) % 4 * 64 + z % 64 == z
  {
    assert (x % 4 * 16 + y / 16) / 16 == x % 4;
    assert (x % 4 * 16 + y / 16) % 16 == y / 16;
    assert (y % 16 * 4 + z / 64) / 4 == y % 16;
    assert (y % 16 * 4 + z / 64) % 4 == z / 64;
  }

  lemma JoinFour(a: Sextet, b: Sextet, c: Sextet, d: Sextet)
    ensures (a * 4 + b / 16) / 4 == a
    ensures (a * 4 + b / 16) % 4 * 16 + (b % 16 * 16 + c / 4) / 16 == b
    ensures (b % 16 * 16 + c / 4) % 16 * 4 + (c % 4 * 64 + d) / 64 == c
    ensures (c % 4 * 64 + d) % 64 == d
  {
    assert (a * 4 + b / 16) % 4 == b / 16;
    assert (b % 16 * 16 + c / 4) / 16 == b % 16;
    assert (b % 16 * 16 + c / 4) % 16 == c / 4;
    assert (c % 4 * 64 + d) / 64 == c % 4;
  }

  // ---------------------------------------------------------------------------
  // Encoding then decoding

  lemma DecodeGroup(x: Byte, y: Byte, z: Byte, t: string)
    requires MatchesStandard(t)
    ensures MatchesStandard(EncodeThree(x, y, z) + t)
    ensures Decode(EncodeThree(x, y, z) + t) == [x, y, z] + Decode(t)
  {
    hide Symbol, IndexOf;
    SplitThree(x, y, z);
    SymbolIndex(x / 4);
    SymbolIndex(x % 4 * 16 + y / 16);
    SymbolIndex(y % 16 * 4 + z / 64);
    SymbolIndex(z % 64);
    assert (EncodeThree(x, y, z) + t)[4..] == t;
  }

  lemma DecodeEncodeOne(x: Byte)
    ensures MatchesStandard(Encode([x])) && Decode(Encode([x])) == [x]
  {
    hide Symbol, IndexOf;
    SplitThree(x, 0, 0);
    SymbolIndex(x / 4);
    SymbolIndex(x % 4 * 16);
    assert Encode([x]) == [Symbol(x / 4), Symbol(x % 4 * 16), '=', '='];
  }

  lemma DecodeEncodeTwo(x: Byte, y: Byte)
    ensures MatchesStandard(Encode([x, y])) && Decode(Encode([x, y])) == [x, y]
  {
    hide Symbol, IndexOf;
    SplitThree(x, y, 0);
    SymbolIndex(x / 4);
    SymbolIndex(x % 4 * 16 + y / 16);
    SymbolIndex(y % 16 * 4);
    assert Encode([x, y]) == [Symbol(x / 4), Symbol(x % 4 * 16 + y / 16), Symbol(y % 16 * 4), '='];
  }

  /** Every byte string's encoding decodes to itself. */
  lemma {:induction false} DecodeEncode(b: seq<Byte>)
    ensures MatchesStandard(Encode(b)) && Decode(Encode(b)) == b
    decreases |b|
  {
    hide Symbol, IndexOf;
    if b == [] {
      assert Encode(b) == "";
    } else if |b| == 1 {
      assert b == [b[0]];
      DecodeEncodeOne(b[0]);
    } else if |b| == 2 {
      assert b == [b[0], b[1]];
      DecodeEncodeTwo(b[0], b[1]);
    } else {
      hide Decode, MatchesStandard, EncodeThree;
      DecodeEncode(b[3..]);
      DecodeGroup(b[0], b[1], b[2], Encode(b[3..]));
      assert b == [b[0], b[1], b[2]] + b[3..];
    }
  }

  /** The checks on the end of a string see only its last group. */
  lemma TailOnly(g: string, t: string)
    requires |g| == 4 && |t| >= 4
    ensures Padding(g + t) == Padding(t) && |g + t| > Padding(g + t) && |t| > Padding(t)
    ensures LowBitsClear(g + t) == LowBitsClear(t)
    ensures |t| % 4 == 0 ==> DecodedBytes(g + t) == DecodedBytes(t) + 3
  {
    var s := g + t;
    assert s[|s| - 1] == t[|t| - 1] && s[|s| - 2] == t[|t| - 2];
    assert s[|s| - Padding(s) - 1] == t[|t| - Padding(t) - 1];
  }

  lemma {:induction false} EncodeLength(b: seq<Byte>)
    ensures |Encode(b)| % 4 == 0 && (b != [] ==> |Encode(b)| >= 4)
    decreases |b|
  {
    hide Symbol;
    if |b| >= 3 { EncodeLength(b[3..]); }
  }

  /** Every encoding passes the checks on length, padding and unused bits. */
  lemma {:induction false} EncodeCanonical(b: seq<Byte>)
    requires b != []
    ensures |Encode(b)| > Padding(Encode(b)) && LowBitsClear(Encode(b)) && DecodedBytes(Encode(b)) == |b|
    decreases |b|
  {
    hide Symbol, IndexOf;
    EncodeLength(b);
    if |b| == 1 {
      SymbolIndex(b[0] % 4 * 16);
    } else if |b| == 2 {
      SymbolIndex(b[1] % 16 * 4);
    } else if |b| == 3 {
      assert Encode(b[3..]) == "";
      SymbolIndex(b[2] % 64);
      assert Encode(b) == EncodeThree(b[0], b[1], b[2]);
    } else {
      EncodeLength(b[3..]);
      EncodeCanonical(b[3..]);
      TailOnly(EncodeThree(b[0], b[1], b[2]), Encode(b[3..]));
    }
  }

  // ---------------------------------------------------------------------------
  // Decoding then encoding

  lemma EncodeGroup(a: char, b: char, c: char, d: char, rest: seq<Byte>)
    requires InAlphabet(a) && InAlphabet(b) && InAlphabet(c) && InAlphabet(d)
    ensures Encode([Bits(a) * 4 + Bits(b) / 16, Bits(b) % 16 * 16 + Bits(c) / 4, Bits(c) % 4 * 64 + Bits(d)] + rest)
         == [a, b, c, d] + Encode(rest)
  {
    hide Symbol, IndexOf;
    JoinFour(Bits(a), Bits(b), Bits(c), Bits(d));
    IndexSymbol(a);
    IndexSymbol(b);
    IndexSymbol(c);
    IndexSymbol(d);
    var x, y, z := Bits(a) * 4 + Bits(b) / 16, Bits(b) % 16 * 16 + Bits(c) / 4, Bits(c) % 4 * 64 + Bits(d);
    assert EncodeThree(x, y, z) == [a, b, c, d];
    assert ([x, y, z] + rest)[3..] == rest;
  }

  lemma EncodeTwoPads(s: string)
    requires |s| == 4 && InAlphabet(s[0]) && InAlphabet(s[1]) && s[2] == '=' && s[3] == '='
    requires IndexOf(s[1]) % 16 == 0
    ensures Encode(Decode(s)) == s && |Decode(s)| == 1
  {
    hide Symbol, IndexOf;
    JoinFour(Bits(s[0]), Bits(s[1]), 0, 0);
    IndexSymbol(s[0]);
    IndexSymbol(s[1]);
  }

  lemma EncodeOnePad(s: string)
    requires |s| == 4 && InAlphabet(s[0]) && InAlphabet(s[1]) && InAlphabet(s[2]) && s[3] == '='
    requires IndexOf(s[2]) % 4 == 0
    ensures Encode(Decode(s)) == s && |Decode(s)| == 2
  {
    hide Symbol, IndexOf;
    JoinFour(Bits(s[0]), Bits(s[1]), Bits(s[2]), 0);
    IndexSymbol(s[0]);
    IndexSymbol(s[1]);
    IndexSymbol(s[2]);
    PadNotInAlphabet();
    var x, y := Bits(s[0]) * 4 + Bits(s[1]) / 16, Bits(s[1]) % 16 * 16 + Bits(s[2]) / 4;
    assert Decode(s) == [x, y];
    hide Decode, MatchesStandard;
    assert s == [s[0], s[1], s[2], s[3]];
  }

  /** The three shapes a matching string can start with. */
  lemma FirstGroup(s: string)
    requires s != "" && MatchesStandard(s)
    ensures |s| >= 4 && InAlphabet(s[0]) && InAlphabet(s[1])
    ensures s[3] != '=' ==> InAlphabet(s[2]) && InAlphabet(s[3]) && MatchesStandard(s[4..])
    ensures s[3] == '=' ==> |s| == 4 && (s[2] == '=' || InAlphabet(s[2]))
  {
    PadNotInAlphabet();
  }

  lemma DecodeFirst(s: string)
    requires |s| >= 4 && MatchesStandard(s) && s[3] != '='
    requires InAlphabet(s[0]) && InAlphabet(s[1]) && InAlphabet(s[2]) && InAlphabet(s[3]) && MatchesStandard(s[4..])
    ensures var a, b, c, d := Bits(s[0]), Bits(s[1]), Bits(s[2]), Bits(s[3]);
      Decode(s) == [a * 4 + b / 16, b % 16 * 16 + c / 4, c % 4 * 64 + d] + Decode(s[4..])
  {
    PadNotInAlphabet();
    hide IndexOf;
  }

  lemma DecodeGroupOf(s: string)
    requires |s| >= 4 && MatchesStandard(s) && s[3] != '='
    requires InAlphabet(s[0]) && InAlphabet(s[1]) && InAlphabet(s[2]) && InAlphabet(s[3]) && MatchesStandard(s[4..])
    ensures Encode(Decode(s)) == s[..4] + Encode(Decode(s[4..]))
    ensures |Decode(s)| == 3 + |Decode(s[4..])|
  {
    hide IndexOf, Encode, Decode, MatchesStandard, InAlphabet;
    DecodeFirst(s);
    EncodeGroup(s[0], s[1], s[2], s[3], Decode(s[4..]));
    assert s[..4] == [s[0], s[1], s[2], s[3]];
  }

  lemma OnlyGroup(s: string)
    requires |s| == 4 && s[3] == '=' && MatchesStandard(s) && LowBitsClear(s)
    ensures Encode(Decode(s)) == s && |Decode(s)| == DecodedBytes(s)
  {
    FirstGroup(s);
    hide IndexOf, Encode, Decode, MatchesStandard;
    if s[2] == '=' { EncodeTwoPads(s); } else { EncodeOnePad(s); }
  }

  /** A string that passes the checks is the encoding of what it decodes to. */
  lemma {:induction false} EncodeDecode(s: string)
    requires s != "" && |s| % 4 == 0 && MatchesStandard(s) && LowBitsClear(s)
    ensures Encode(Decode(s)) == s && |Decode(s)| == DecodedBytes(s)
    decreases |s|
  {
    FirstGroup(s);
    if s[3] == '=' {
      OnlyGroup(s);
    } else {
      DecodeLater(s);
      if s[4..] != "" { EncodeDecode(s[4..]); }
      hide Encode, Decode, MatchesStandard, LowBitsClear, Padding;
      DecodeGroupOf(s);
      DecodeEmpty();
      assert s == s[..4] + s[4..];
    }
  }

  /** What the checks say about the groups after the first. */
  lemma DecodeLater(s: string)
    requires |s| >= 4 && |s| % 4 == 0 && s[3] != '=' && MatchesStandard(s) && LowBitsClear(s)
    ensures s[4..] == "" ==> DecodedBytes(s) == 3
    ensures s[4..] != "" ==> |s[4..]| > Padding(s[4..]) && LowBitsClear(s[4..]) && DecodedBytes(s) == DecodedBytes(s[4..]) + 3
  {
    hide IndexOf, MatchesStandard;
    if s[4..] != "" {
      assert s == s[..4] + s[4..];
      TailOnly(s[..4], s[4..]);
    }
  }

  lemma DecodeEmpty()
    ensures MatchesStandard("") && Decode("") == [] && Encode([]) == ""
  {}

  /** `s` is the encoding of some byte string within the caller's limits. */
  ghost predicate IsEncoding(s: string, maxChars: int, expectedBytes: Option<int>) {
    exists b: seq<Byte> :: b != [] && Encode(b) == s && |s| <= maxChars && (expectedBytes.Some? ==> |b| == expectedBytes.value)
  }

  lemma EncodingAccepted(b: seq<Byte>, maxChars: int, expectedBytes: Option<int>)
    requires b != [] && |Encode(b)| <= maxChars && (expectedBytes.Some? ==> |b| == expectedBytes.value)
    ensures IsCanonicalBase64(Encode(b), maxChars, expectedBytes)
  {
    EncodeLength(b);
    DecodeEncode(b);
    EncodeCanonical(b);
  }

  /** The accepted strings are exactly the encoder's outputs, within the caller's
      limits on characters and decoded bytes. */
  lemma AcceptedExactlyEncodings(s: string, maxChars: int, expectedBytes: Option<int>)
    ensures IsCanonicalBase64(s, maxChars, expectedBytes) <==> IsEncoding(s, maxChars, expectedBytes)
  {
    if IsCanonicalBase64(s, maxChars, expectedBytes) {
      EncodeDecode(s);
      DecodeEmpty();
      hide Encode, Decode, LowBitsClear, IndexOf;
      assert IsEncoding(s, maxChars, expectedBytes);
    }
    if IsEncoding(s, maxChars, expectedBytes) {
      var b: seq<Byte> :| b != [] && Encode(b) == s && |s| <= maxChars && (expectedBytes.Some? ==> |b| == expectedBytes.value);
      hide *;
      EncodingAccepted(b, maxChars, expectedBytes);
    }
  }

  /** One byte string has one accepted representation. */
  lemma EncodingUnique(s: string, t: string, maxChars: int)
    requires IsCanonicalBase64(s, maxChars, None) && IsCanonicalBase64(t, maxChars, None)
    requires Decode(s) == Decode(t)
    ensures s == t
  {
    EncodeDecode(s);
    EncodeDecode(t);
  }

  // ---------------------------------------------------------------------------
  // The unpadded url variant

  function ToUrlChar(c: char): char { if c == '+' then '-' else if c == '/' then '_' else c }
  function FromUrlChar(c: char): char { if c == '-' then '+' else if c == '_' then '/' else c }

  function MapChars(s: string, f: char -> char): string { seq(|s|, i requires 0 <= i < |s| => f(s[i])) }

  function StripPad(s: string): string
    decreases |s|
  {
    if s != "" && s[|s| - 1] == '=' then StripPad(s[..|s| - 1]) else s
  }

  /** `b64url`. */
  function EncodeUrl(b: seq<Byte>): string { StripPad(MapChars(Encode(b), ToUrlChar)) }

  function Repeat(c: char, n: nat): string { seq(n, i => c) }

  /** The string `b64urlDecode` hands to `b64d`. */
  function ToStandard(s: string): string { MapChars(s, FromUrlChar) + Repeat('=', (4 - |s| % 4) % 4) }

  predicate InUrlAlphabet(c: char) { c != '+' && c != '/' && InAlphabet(FromUrlChar(c)) }

  predicate IsCanonicalBase64Url(s: string, maxChars: int, expectedBytes: Option<int>) {
    && |s| != 0
    && |s| <= maxChars
    && (forall c :: c in s ==> InUrlAlphabet(c))
    && |s| % 4 != 1
    && (expectedBytes.Some? ==> |s| * 6 / 8 == expectedBytes.value)
    && var last := IndexOf(FromUrlChar(s[|s| - 1]));
       (|s| % 4 == 2 ==> last % 16 == 0) && (|s| % 4 == 3 ==> last % 4 == 0)
  }

  lemma {:induction false} AllAlphabetMatches(s: string)
    requires |s| % 4 != 1 && forall c :: c in s ==> InAlphabet(c)
    ensures MatchesStandard(s + Repeat('=', (4 - |s| % 4) % 4))
    decreases |s|
  {
    hide IndexOf, InAlphabet;
    var pad := Repeat('=', (4 - |s| % 4) % 4);
    if |s| >= 4 {
      AllAlphabetMatches(s[4..]);
      assert (s + pad)[4..] == s[4..] + pad;
    }
  }

  lemma MappedAlphabet(s: string)
    requires forall c :: c in s ==> InUrlAlphabet(c)
    ensures forall c :: c in MapChars(s, FromUrlChar) ==> InAlphabet(c)
  {
    hide IndexOf;
    var m := MapChars(s, FromUrlChar);
    forall c | c in m ensures InAlphabet(c) {
      var i :| 0 <= i < |m| && m[i] == c;
      assert s[i] in s;
    }
  }

  lemma PaddingOfPadded(m: string, n: nat)
    requires m != "" && m[|m| - 1] != '=' && n <= 2
    ensures Padding(m + Repeat('=', n)) == n
  {
    var t := m + Repeat('=', n);
    if n == 1 {
      assert t[|t| - 1] == '=' && t[|t| - 2] == m[|m| - 1];
    } else if n == 0 {
      assert t == m;
    }
  }

  /** Translating an accepted url string gives an accepted padded string, of the
      decoded length the url check computes. */
  lemma UrlToStandard(s: string, maxChars: int, expectedBytes: Option<int>)
    requires IsCanonicalBase64Url(s, maxChars, expectedBytes)
    ensures var t := ToStandard(s);
      && IsCanonicalBase64(t, |t|, expectedBytes)
      && DecodedBytes(t) == |s| * 6 / 8
  {
    hide IndexOf, MatchesStandard, Padding, FromUrlChar, InUrlAlphabet, InAlphabet;
    var m := MapChars(s, FromUrlChar);
    var n := (4 - |s| % 4) % 4;
    MappedAlphabet(s);
    AllAlphabetMatches(m);
    assert m[|m| - 1] in m;
    PadNotInAlphabet();
    PaddingOfPadded(m, n);
    var t := ToStandard(s);
    assert t[|t| - n - 1] == m[|m| - 1] == FromUrlChar(s[|s| - 1]);
    assert DecodedBytes(t) == |s| * 6 / 8;
  }

  lemma {:induction false} StripAll(s: string, n: nat)
    requires s == "" || s[|s| - 1] != '='
    ensures StripPad(s + Repeat('=', n)) == s
    decreases n
  {
    var t := s + Repeat('=', n);
    if n > 0 {
      assert t[..|t| - 1] == s + Repeat('=', n - 1);
      StripAll(s, n - 1);
    } else {
      assert t == s;
    }
  }

  lemma UrlCharBack(c: char)
    ensures InUrlAlphabet(c) ==> ToUrlChar(FromUrlChar(c)) == c && c != '='
    ensures ToUrlChar('=') == '='
  {}

  /** Translating back recovers the url string. */
  lemma UrlOfStandard(s: string)
    requires s != "" && forall c :: c in s ==> InUrlAlphabet(c)
    ensures StripPad(MapChars(ToStandard(s), ToUrlChar)) == s
  {
    var n := (4 - |s| % 4) % 4;
    var m, t := MapChars(ToStandard(s), ToUrlChar), s + Repeat('=', n);
    hide InUrlAlphabet, FromUrlChar, ToUrlChar;
    UrlCharBack('=');
    forall i | 0 <= i < |t| ensures m[i] == t[i] {
      if i < |s| {
        assert s[i] in s;
        UrlCharBack(s[i]);
        assert ToStandard(s)[i] == FromUrlChar(s[i]);
      } else {
        assert ToStandard(s)[i] == '=';
      }
    }
    assert m == t;
    assert s[|s| - 1] in s;
    UrlCharBack(s[|s| - 1]);
    StripAll(s, n);
  }

  /** The shape of any encoding: alphabet characters, then the padding. */
  lemma {:induction false} MatchShape(s: string)
    requires MatchesStandard(s)
    ensures Padding(s) <= |s| && |s| % 4 == 0
    ensures forall i :: 0 <= i < |s| - Padding(s) ==> InAlphabet(s[i])
    ensures forall i :: |s| - Padding(s) <= i < |s| ==> s[i] == '='
    decreases |s|
  {
    if |s| > 4 {
      var t := s[4..];
      assert s == s[..4] + t;
      MatchShape(t);
      TailOnly(s[..4], t);
      forall i | 0 <= i < |s| - Padding(s) ensures InAlphabet(s[i]) {
        if i >= 4 { assert s[i] == t[i - 4]; }
      }
      forall i | |s| - Padding(s) <= i < |s| ensures s[i] == '=' {
        assert s[i] == t[i - 4];
      }
    }
  }

  /** `b64url` strips exactly the padding and keeps the rest, translated. */
  lemma UrlBody(s: string, n: nat)
    requires n < |s|
    requires forall i :: 0 <= i < |s| - n ==> InAlphabet(s[i])
    requires forall i :: |s| - n <= i < |s| ==> s[i] == '='
    ensures StripPad(MapChars(s, ToUrlChar)) == MapChars(s[..|s| - n], ToUrlChar)
  {
    var body := MapChars(s[..|s| - n], ToUrlChar);
    var whole, parts := MapChars(s, ToUrlChar), body + Repeat('=', n);
    forall i | 0 <= i < |s| ensures whole[i] == parts[i] {
      if i >= |s| - n { assert s[i] == '='; }
    }
    assert whole == parts;
    assert InAlphabet(s[|s| - n - 1]);
    PadNotInAlphabet();
    assert body[|body| - 1] == ToUrlChar(s[|s| - n - 1]) != '=';
    StripAll(body, n);
  }

  lemma UrlBodyChars(r: string)
    requires forall i :: 0 <= i < |r| ==> InAlphabet(r[i])
    ensures forall c :: c in MapChars(r, ToUrlChar) ==> InUrlAlphabet(c)
    ensures MapChars(MapChars(r, ToUrlChar), FromUrlChar) == r
  {
    var m := MapChars(r, ToUrlChar);
    forall i | 0 <= i < |r| ensures InUrlAlphabet(m[i]) && FromUrlChar(m[i]) == r[i] {
      assert InAlphabet(r[i]) && !InAlphabet('-') && !InAlphabet('_');
    }
  }

  /** How the url form and the padded form of one byte string relate. */
  lemma UrlEncodeShape(b: seq<Byte>)
    requires b != []
    ensures var s, u, n := Encode(b), EncodeUrl(b), Padding(Encode(b));
      && |s| > n && |s| % 4 == 0 && 0 <= n <= 2 && |b| == DecodedBytes(s)
      && u == MapChars(s[..|s| - n], ToUrlChar) && MapChars(u, FromUrlChar) == s[..|s| - n]
      && (forall c :: c in u ==> InUrlAlphabet(c))
      && (forall i :: |s| - n <= i < |s| ==> s[i] == '=')
      && LowBitsClear(s)
  {
    var s := Encode(b);
    DecodeEncode(b);
    EncodeCanonical(b);
    EncodeLength(b);
    MatchShape(s);
    PaddingRange(s);
    hide IndexOf, Encode, Decode, MatchesStandard, Padding, InUrlAlphabet, FromUrlChar, ToUrlChar, StripPad, MapChars;
    UrlBody(s, Padding(s));
    UrlBodyChars(s[..|s| - Padding(s)]);
  }

  lemma UrlEncodeAccepted(b: seq<Byte>)
    requires b != []
    ensures IsCanonicalBase64Url(EncodeUrl(b), |EncodeUrl(b)|, Some(|b|)) && ToStandard(EncodeUrl(b)) == Encode(b)
  {
    hide IndexOf, Encode, Padding, InUrlAlphabet, FromUrlChar, ToUrlChar, EncodeUrl;
    UrlEncodeShape(b);
    var s, u, n := Encode(b), EncodeUrl(b), Padding(Encode(b));
    assert FromUrlChar(u[|u| - 1]) == MapChars(u, FromUrlChar)[|u| - 1] == s[|s| - n - 1];
    assert (4 - |u| % 4) % 4 == n;
    assert s == s[..|s| - n] + Repeat('=', n);
  }

  lemma PaddingRange(s: string)
    ensures 0 <= Padding(s) <= 2
  {}

  /** `s` is the url encoding of some byte string within the caller's limits. */
  ghost predicate IsUrlEncoding(s: string, maxChars: int, expectedBytes: Option<int>) {
    exists b: seq<Byte> :: b != [] && EncodeUrl(b) == s && |s| <= maxChars && (expectedBytes.Some? ==> |b| == expectedBytes.value)
  }

  lemma UrlAcceptedIsEncoding(s: string, maxChars: int, expectedBytes: Option<int>)
    requires IsCanonicalBase64Url(s, maxChars, expectedBytes)
    ensures IsUrlEncoding(s, maxChars, expectedBytes)
  {
    UrlToStandard(s, maxChars, expectedBytes);
    var t := ToStandard(s);
    hide Encode, Decode, MatchesStandard, LowBitsClear, IndexOf, ToStandard, InUrlAlphabet, Padding;
    EncodeDecode(t);
    UrlOfStandard(s);
    DecodeEmpty();
    assert EncodeUrl(Decode(t)) == s;
  }

  /** The accepted url strings are exactly the outputs of `b64url`. */
  lemma UrlAcceptedExactlyEncodings(s: string, maxChars: int, expectedBytes: Option<int>)
    ensures IsCanonicalBase64Url(s, maxChars, expectedBytes) <==> IsUrlEncoding(s, maxChars, expectedBytes)
  {
    hide Encode, EncodeUrl, InUrlAlphabet, IndexOf;
    if IsCanonicalBase64Url(s, maxChars, expectedBytes) {
      UrlAcceptedIsEncoding(s, maxChars, expectedBytes);
    }
    if IsUrlEncoding(s, maxChars, expectedBytes) {
      var b: seq<Byte> :| b != [] && EncodeUrl(b) == s && |s| <= maxChars && (expectedBytes.Some? ==> |b| == expectedBytes.value);
      UrlEncodeAccepted(b);
    }
  }

  /** `b64urlDecode` undoes `b64url`. */
  lemma UrlDecodeEncode(b: seq<Byte>)
    requires b != []
    ensures MatchesStandard(ToStandard(EncodeUrl(b))) && Decode(ToStandard(EncodeUrl(b))) == b
  {
    UrlEncodeAccepted(b);
    DecodeEncode(b);
  }
}
