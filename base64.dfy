/** Base64 as section 4 of RFC 4648 defines it. `btoa` encodes with the
    padded alphabet of Table 1; `atob` runs the "forgiving-base64 decode" of
    the WHATWG Infra standard: ASCII whitespace is dropped, one or two final
    `=` may be left off, and the spare bits of a final partial group are
    ignored. Bytes are integers in [0, 256). */
module Base64 {
  import opened Common

  type Byte = x: int | 0 <= x < 256
  type Sextet = x: int | 0 <= x < 64

  /** Table 1 of section 4 of RFC 4648. */
  function CharOf(v: Sextet): char
  {
    if v < 26 then ('A' as int + v) as char
    else if v < 52 then ('a' as int + (v - 26)) as char
    else if v < 62 then ('0' as int + (v - 52)) as char
    else if v == 62 then '+'
    else '/'
  }

  predicate IsAlphabet(c: char)
  {
    ('A' <= c <= 'Z') || ('a' <= c <= 'z') || ('0' <= c <= '9') || c == '+' || c == '/'
  }

  /** The inverse of Table 1. */
  function ValueOf(c: char): (v: Sextet)
    requires IsAlphabet(c)
    ensures CharOf(v) == c
  {
    if 'A' <= c <= 'Z' then c as int - 'A' as int
    else if 'a' <= c <= 'z' then c as int - 'a' as int + 26
    else if '0' <= c <= '9' then c as int - '0' as int + 52
    else if c == '+' then 62
    else 63
  }

  lemma ValueOfCharOf(v: Sextet)
    ensures IsAlphabet(CharOf(v)) && ValueOf(CharOf(v)) == v
  {
  }

  function Chars(v: seq<Sextet>): (r: string)
    ensures |r| == |v| && forall c <- r :: IsAlphabet(c)
  {
    seq(|v|, i requires 0 <= i < |v| => ValueOfCharOf(v[i]); CharOf(v[i]))
  }

  function Values(s: string): (r: seq<Sextet>)
    requires forall c <- s :: IsAlphabet(c)
    ensures |r| == |s|
  {
    seq(|s|, i requires 0 <= i < |s| => ValueOf(s[i]))
  }

  lemma ValuesChars(v: seq<Sextet>)
    ensures Values(Chars(v)) == v
  {
    forall i | 0 <= i < |v| ensures Values(Chars(v))[i] == v[i] {
      ValueOfCharOf(v[i]);
    }
  }

  lemma CharsValues(s: string)
    requires forall c <- s :: IsAlphabet(c)
    ensures Chars(Values(s)) == s
  {
  }

  /** The four sextets of a group of three bytes x, y, z, most significant
      bits first. */
  function S0(x: Byte): Sextet { x / 4 }
  function S1(x: Byte, y: Byte): Sextet { (x % 4) * 16 + y / 16 }
  function S2(y: Byte, z: Byte): Sextet { (y % 16) * 4 + z / 64 }
  function S3(z: Byte): Sextet { z % 64 }

  /** The three bytes of a group of four sextets a, b, c, d. */
  function B0(a: Sextet, b: Sextet): Byte { (a as int) * 4 + (b as int) / 16 }
  function B1(b: Sextet, c: Sextet): Byte { ((b as int) % 16) * 16 + (c as int) / 4 }
  function B2(c: Sextet, d: Sextet): Byte { ((c as int) % 4) * 64 + (d as int) }

  lemma GroupBytes(x: Byte, y: Byte, z: Byte)
    ensures B0(S0(x), S1(x, y)) == x
    ensures B1(S1(x, y), S2(y, z)) == y
    ensures B2(S2(y, z), S3(z)) == z
  {
  }

  lemma GroupSextets(a: Sextet, b: Sextet, c: Sextet, d: Sextet)
    ensures S0(B0(a, b)) == a
    ensures S1(B0(a, b), B1(b, c)) == b
    ensures S2(B1(b, c), B2(c, d)) == c
    ensures S3(B2(c, d)) == d
  {
  }

  /** The sextets of `b`: each group of three bytes gives four sextets; a
      final group of one or two bytes gives two or three sextets, the spare
      low bits zero. */
  function ToSextets(b: seq<Byte>): seq<Sextet>
    decreases |b|
  {
    if |b| == 0 then []
    else if |b| == 1 then [S0(b[0]), S1(b[0], 0)]
    else if |b| == 2 then [S0(b[0]), S1(b[0], b[1]), S2(b[1], 0)]
    else [S0(b[0]), S1(b[0], b[1]), S2(b[1], b[2]), S3(b[2])] + ToSextets(b[3..])
  }

  /** The bytes of `v`, four sextets to three bytes; a final group of two or
      three sextets gives one or two bytes and its spare bits are dropped.
      A single final sextet carries no byte (the decoder refuses it before
      this point). */
  function FromSextets(v: seq<Sextet>): seq<Byte>
    decreases |v|
  {
    if |v| < 2 then []
    else if |v| == 2 then [B0(v[0], v[1])]
    else if |v| == 3 then [B0(v[0], v[1]), B1(v[1], v[2])]
    else [B0(v[0], v[1]), B1(v[1], v[2]), B2(v[2], v[3])] + FromSextets(v[4..])
  }

  /** Four sextets per full group of three bytes, and two or three for a
      final group of one or two. */
  lemma {:induction false} ToSextetsLength(b: seq<Byte>)
    ensures |ToSextets(b)| % 4 == (if |b| % 3 == 0 then 0 else |b| % 3 + 1)
    decreases |b|
  {
    ToSextetsCount(b);
    SextetCountMod(|b|);
  }

  /** How many sextets n bytes give. */
  function SextetCount(n: nat): nat
  {
    if n == 0 then 0 else if n == 1 then 2 else if n == 2 then 3 else 4 + SextetCount(n - 3)
  }

  lemma {:induction false} ToSextetsCount(b: seq<Byte>)
    ensures |ToSextets(b)| == SextetCount(|b|)
    decreases |b|
  {
    if |b| >= 3 {
      ToSextetsStep(b);
      ToSextetsCount(b[3..]);
    }
  }

  lemma {:induction false} SextetCountMod(n: nat)
    ensures SextetCount(n) % 4 == (if n % 3 == 0 then 0 else n % 3 + 1)
  {
    if n >= 3 {
      SextetCountMod(n - 3);
    }
  }

  /** A full leading group of three bytes gives four sextets. */
  lemma ToSextetsStep(b: seq<Byte>)
    requires |b| >= 3
    ensures |b[3..]| % 3 == |b| % 3
    ensures |ToSextets(b)| == 4 + |ToSextets(b[3..])|
  {
  }

  lemma ToSextetsCons(x: Byte, y: Byte, z: Byte, rest: seq<Byte>)
    ensures ToSextets([x, y, z] + rest) == [S0(x), S1(x, y), S2(y, z), S3(z)] + ToSextets(rest)
  {
    var b := [x, y, z] + rest;
    assert b[3..] == rest;
  }

  lemma FromSextetsCons(a: Sextet, b: Sextet, c: Sextet, d: Sextet, w: seq<Sextet>)
    ensures FromSextets([a, b, c, d] + w) == [B0(a, b), B1(b, c), B2(c, d)] + FromSextets(w)
  {
    var v := [a, b, c, d] + w;
    assert v[4..] == w;
  }

  /** Three bytes per full group of four sextets, and one or two for a final
      group of two or three. */
  lemma {:induction false} FromSextetsLength(v: seq<Sextet>)
    requires |v| % 4 != 1
    ensures |FromSextets(v)| % 3 == (if |v| % 4 == 0 then 0 else |v| % 4 - 1)
    decreases |v|
  {
    FromSextetsCount(v);
    ByteCountMod(|v|);
  }

  /** How many bytes n sextets give. */
  function ByteCount(n: nat): nat
  {
    if n < 2 then 0 else if n == 2 then 1 else if n == 3 then 2 else 3 + ByteCount(n - 4)
  }

  lemma {:induction false} FromSextetsCount(v: seq<Sextet>)
    ensures |FromSextets(v)| == ByteCount(|v|)
    decreases |v|
  {
    if |v| >= 4 {
      FromSextetsStep(v);
      FromSextetsCount(v[4..]);
    }
  }

  lemma {:induction false} ByteCountMod(n: nat)
    requires n % 4 != 1
    ensures ByteCount(n) % 3 == (if n % 4 == 0 then 0 else n % 4 - 1)
  {
    if n >= 4 {
      ByteCountMod(n - 4);
    }
  }

  /** A full leading group of four sextets gives three bytes. */
  lemma FromSextetsStep(v: seq<Sextet>)
    requires |v| >= 4
    ensures |FromSextets(v)| == 3 + |FromSextets(v[4..])|
  {
  }

  /** The spare bits of a final partial group are zero. */
  predicate CanonicalTail(v: seq<Sextet>)
  {
    && (|v| % 4 == 2 ==> v[|v| - 1] % 16 == 0)
    && (|v| % 4 == 3 ==> v[|v| - 1] % 4 == 0)
  }

  /** The spare low bits of a final one- or two-byte group are zero. */
  lemma SpareBitsZero(x: Byte, y: Byte)
    ensures S1(x, 0) % 16 == 0
    ensures S2(y, 0) % 4 == 0
  {
    assert S1(x, 0) in {0, 16, 32, 48};
  }

  lemma {:induction false} ToSextetsCanonical(b: seq<Byte>)
    ensures |ToSextets(b)| % 4 != 1
    ensures CanonicalTail(ToSextets(b))
    decreases |b|
  {
    if |b| == 1 {
      SpareBitsZero(b[0], 0);
    } else if |b| == 2 {
      SpareBitsZero(b[0], b[1]);
    } else if |b| >= 3 {
      var rest := b[3..];
      ToSextetsCanonical(rest);
      assert b == [b[0], b[1], b[2]] + rest;
      ToSextetsCons(b[0], b[1], b[2], rest);
      CanonicalTailPrepend([S0(b[0]), S1(b[0], b[1]), S2(b[1], b[2]), S3(b[2])], ToSextets(rest));
    }
  }

  /** A full group in front keeps the tail of a sextet list canonical. */
  lemma CanonicalTailPrepend(g: seq<Sextet>, w: seq<Sextet>)
    requires |g| == 4 && |w| % 4 != 1 && CanonicalTail(w)
    ensures |g + w| % 4 != 1 && CanonicalTail(g + w)
  {
    if |w| > 0 {
      assert (g + w)[|g + w| - 1] == w[|w| - 1];
    }
  }

  /** Dropping a full group keeps the tail of a sextet list canonical. */
  lemma CanonicalTailDrop(v: seq<Sextet>)
    requires |v| >= 4 && |v| % 4 != 1 && CanonicalTail(v)
    ensures |v[4..]| % 4 != 1 && CanonicalTail(v[4..])
  {
    var w := v[4..];
    if |w| > 0 {
      assert w[|w| - 1] == v[|v| - 1];
    }
  }

  lemma {:induction false} FromToSextets(b: seq<Byte>)
    ensures |ToSextets(b)| % 4 != 1
    ensures FromSextets(ToSextets(b)) == b
    decreases |b|
  {
    ToSextetsLength(b);
    if 1 <= |b| <= 2 {
      ShortGroupRoundTrip(b);
    } else if |b| >= 3 {
      var rest := b[3..];
      FromToSextets(rest);
      FullGroupRoundTrip(b[0], b[1], b[2], ToSextets(rest));
      assert ToSextets(b) == [S0(b[0]), S1(b[0], b[1]), S2(b[1], b[2]), S3(b[2])] + ToSextets(rest);
      assert b == [b[0], b[1], b[2]] + rest;
    }
  }

  lemma ShortGroupRoundTrip(b: seq<Byte>)
    requires 1 <= |b| <= 2
    ensures |ToSextets(b)| % 4 != 1
    ensures FromSextets(ToSextets(b)) == b
  {
    if |b| == 1 {
      assert b == [b[0]];
      OneByteRoundTrip(b[0]);
    } else {
      assert b == [b[0], b[1]];
      TwoBytesRoundTrip(b[0], b[1]);
    }
  }

  lemma OneByteRoundTrip(x: Byte)
    ensures ToSextets([x]) == [S0(x), S1(x, 0)]
    ensures FromSextets([S0(x), S1(x, 0)]) == [x]
  {
    OneByteFrom(x);
  }

  lemma OneByteFrom(x: Byte)
    ensures FromSextets([S0(x), S1(x, 0)]) == [x]
  {
    var v := [S0(x), S1(x, 0)];
    assert FromSextets(v) == [B0(v[0], v[1])];
    GroupBytes(x, 0, 0);
  }

  lemma TwoBytesRoundTrip(x: Byte, y: Byte)
    ensures ToSextets([x, y]) == [S0(x), S1(x, y), S2(y, 0)]
    ensures FromSextets([S0(x), S1(x, y), S2(y, 0)]) == [x, y]
  {
    TwoBytesFrom(x, y);
  }

  lemma TwoBytesFrom(x: Byte, y: Byte)
    ensures FromSextets([S0(x), S1(x, y), S2(y, 0)]) == [x, y]
  {
    var v := [S0(x), S1(x, y), S2(y, 0)];
    assert FromSextets(v) == [B0(v[0], v[1]), B1(v[1], v[2])];
    GroupBytes(x, y, 0);
  }

  lemma FullGroupRoundTrip(x: Byte, y: Byte, z: Byte, w: seq<Sextet>)
    ensures FromSextets([S0(x), S1(x, y), S2(y, z), S3(z)] + w) == [x, y, z] + FromSextets(w)
  {
    var v := [S0(x), S1(x, y), S2(y, z), S3(z)] + w;
    assert v[4..] == w;
    GroupBytes(x, y, z);
  }

  lemma {:induction false} ToFromSextets(v: seq<Sextet>)
    requires |v| % 4 != 1 && CanonicalTail(v)
    ensures ToSextets(FromSextets(v)) == v
    decreases |v|
  {
    if |v| == 2 {
      GroupSextets(v[0], v[1], 0, 0);
    } else if |v| == 3 {
      GroupSextets(v[0], v[1], v[2], 0);
    } else if |v| >= 4 {
      var w := v[4..];
      CanonicalTailDrop(v);
      ToFromSextets(w);
      var a, b, c, d := v[0], v[1], v[2], v[3];
      calc {
        ToSextets(FromSextets(v));
        { assert v == [a, b, c, d] + w; FromSextetsCons(a, b, c, d, w); }
        ToSextets([B0(a, b), B1(b, c), B2(c, d)] + FromSextets(w));
        { ToSextetsCons(B0(a, b), B1(b, c), B2(c, d), FromSextets(w)); }
        [S0(B0(a, b)), S1(B0(a, b), B1(b, c)), S2(B1(b, c), B2(c, d)), S3(B2(c, d))] + ToSextets(FromSextets(w));
        { GroupSextets(a, b, c, d); }
        [a, b, c, d] + w;
        v;
      }
    }
  }

  /** The `=` that complete the last group: none, two or one, for a length
      that leaves 0, 1 or 2 bytes over. */
  function Padding(rem: nat): string
  {
    if rem == 1 then "==" else if rem == 2 then "=" else ""
  }

  /** `btoa` on bytes. */
  function Encode(b: seq<Byte>): string
  {
    Chars(ToSextets(b)) + Padding(|b| % 3)
  }

  /** ASCII whitespace as the Infra standard defines it: TAB, LF, FF, CR and
      SPACE. */
  predicate IsAsciiWhitespace(c: char)
  {
    c == '\t' || c == '\n' || c as int == 12 || c == '\r' || c == ' '
  }

  function StripWhitespace(s: string): (r: string)
    ensures forall c <- r :: !IsAsciiWhitespace(c)
  {
    if s == [] then []
    else StripWhitespace(s[..|s| - 1]) + (if IsAsciiWhitespace(s[|s| - 1]) then [] else [s[|s| - 1]])
  }

  lemma {:induction false} StripNoWhitespace(s: string)
    requires forall c <- s :: !IsAsciiWhitespace(c)
    ensures StripWhitespace(s) == s
    decreases |s|
  {
    if s != [] {
      StripNoWhitespace(s[..|s| - 1]);
    }
  }

  /** Step 2 of the forgiving decode: a length divisible by four loses one
      or two final `=`. */
  function StripPadding(s: string): string
  {
    if |s| % 4 == 0 && |s| >= 2 && s[|s| - 2..] == "==" then s[..|s| - 2]
    else if |s| % 4 == 0 && |s| >= 1 && s[|s| - 1] == '=' then s[..|s| - 1]
    else s
  }

  /** `atob`: the forgiving decode; None is the InvalidCharacterError it
      throws. */
  function Decode(s: string): Option<seq<Byte>>
  {
    var t := StripPadding(StripWhitespace(s));
    if |t| % 4 == 1 || !(forall c <- t :: IsAlphabet(c)) then None
    else Some(FromSextets(Values(t)))
  }

  /** A final group of one character cannot be decoded. */
  lemma LoneSextetRejected(s: string)
    requires |StripPadding(StripWhitespace(s))| % 4 == 1
    ensures Decode(s).None?
  {
  }

  /** The canonical encodings: no whitespace, padded to a multiple of four,
      and the spare bits of a final partial group zero. */
  predicate Canonical(s: string)
  {
    && (forall c <- s :: !IsAsciiWhitespace(c))
    && |s| % 4 == 0
    && var t := StripPadding(s);
       && |t| % 4 != 1
       && (forall c <- t :: IsAlphabet(c))
       && CanonicalTail(Values(t))
  }

  lemma EncodeLength(b: seq<Byte>)
    ensures |Encode(b)| % 4 == 0
  {
    ToSextetsLength(b);
    var n := |ToSextets(b)|;
    var p := |Padding(|b| % 3)|;
    assert |Encode(b)| == n + p;
    assert n % 4 + p == 0 || n % 4 + p == 4;
  }

  lemma EncodeShape(b: seq<Byte>)
    ensures var s := Encode(b);
      && (forall c <- s :: !IsAsciiWhitespace(c))
      && |s| % 4 == 0
      && StripPadding(s) == Chars(ToSextets(b))
  {
    var v := ToSextets(b);
    var s := Encode(b);
    EncodeLength(b);
    assert s == Chars(v) + Padding(|b| % 3);
    forall c <- s ensures !IsAsciiWhitespace(c) {
      if c in Chars(v) {
        assert IsAlphabet(c);
      }
    }
    if |b| % 3 == 0 {
      if |s| > 0 {
        assert s[|s| - 1] == Chars(v)[|v| - 1];
        assert IsAlphabet(s[|s| - 1]);
      }
    } else if |b| % 3 == 1 {
      assert s[..|s| - 2] == Chars(v);
    } else {
      assert s[|s| - 2] == Chars(v)[|v| - 1];
      assert IsAlphabet(s[|s| - 2]);
      assert s[..|s| - 1] == Chars(v);
    }
  }

  /** Round trip: `atob(btoa(b))` gives back the bytes. */
  lemma DecodeEncode(b: seq<Byte>)
    ensures Decode(Encode(b)) == Some(b)
  {
    var s := Encode(b);
    EncodeShape(b);
    StripNoWhitespace(s);
    ValuesChars(ToSextets(b));
    FromToSextets(b);
  }

  /** `btoa` only produces canonical encodings. */
  lemma EncodeIsCanonical(b: seq<Byte>)
    ensures Canonical(Encode(b))
  {
    EncodeShape(b);
    ValuesChars(ToSextets(b));
    ToSextetsCanonical(b);
  }

  /** Removing the padding of a string whose length is a multiple of four
      takes off exactly what `Padding` puts back. */
  lemma PaddingRestored(s: string)
    requires |s| % 4 == 0
    ensures var t := StripPadding(s);
      s == t + Padding(if |t| % 4 == 2 then 1 else if |t| % 4 == 3 then 2 else 0)
  {
    if |s| >= 2 && s[|s| - 2..] == "==" {
      var t := s[..|s| - 2];
      assert StripPadding(s) == t && |t| % 4 == 2;
      assert s == t + "==";
    } else if |s| >= 1 && s[|s| - 1] == '=' {
      var t := s[..|s| - 1];
      assert StripPadding(s) == t && |t| % 4 == 3;
      assert s == t + "=";
    } else {
      assert StripPadding(s) == s;
    }
  }

  /** A canonical string `atob` accepts is what `btoa` makes of the
      result. */
  lemma CanonicalDecodeEncodes(s: string, b: seq<Byte>)
    requires Canonical(s) && Decode(s) == Some(b)
    ensures Encode(b) == s
  {
    StripNoWhitespace(s);
    var t := StripPadding(s);
    var v := Values(t);
    assert b == FromSextets(v);
    ToFromSextets(v);
    CharsValues(t);
    FromSextetsLength(v);
    PaddingRestored(s);
  }

  /** For a string `atob` accepts, `btoa` of the result gives the string
      back exactly when it is canonical. */
  lemma EncodeDecode(s: string, b: seq<Byte>)
    requires Decode(s) == Some(b)
    ensures Encode(b) == s <==> Canonical(s)
  {
    if Encode(b) == s {
      EncodeIsCanonical(b);
    }
    if Canonical(s) {
      CanonicalDecodeEncodes(s, b);
    }
  }
}
