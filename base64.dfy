/**
 * The base64 encoding of section 4 of RFC 4648, which Python's
 * `base64.b64encode` implements and `WordPress.__init__` (app.py) uses for the
 * HTTP Basic credentials. The encoder's output is ASCII, so the
 * `.decode("utf-8")` that follows it in the source maps each output byte to
 * the character with that code; the model returns those characters directly.
 */
module Base64 {
  import opened Wrappers
  import opened Bytes

  type Sextet = i: int | 0 <= i < 64

  /** Table 1 of RFC 4648: A-Z, a-z, 0-9, '+', '/'. */
  function Symbol(i: Sextet): (c: char)
    ensures SymbolIndex(c) == Some(i)
  {
    if i < 26 then ('A' as int + i) as char
    else if i < 52 then ('a' as int + (i - 26)) as char
    else if i < 62 then ('0' as int + (i - 52)) as char
    else if i == 62 then '+'
    else '/'
  }

  /** The inverse of Table 1; `None` for a character outside the alphabet. */
  function SymbolIndex(c: char): Option<Sextet> {
    if 'A' <= c <= 'Z' then Some(c as int - 'A' as int)
    else if 'a' <= c <= 'z' then Some(c as int - 'a' as int + 26)
    else if '0' <= c <= '9' then Some(c as int - '0' as int + 52)
    else if c == '+' then Some(62)
    else if c == '/' then Some(63)
    else None
  }

  /** The pad character of section 4 of RFC 4648. */
  const Pad: char := '='

  predicate IsEncodingChar(c: char) {
    SymbolIndex(c).Some? || c == Pad
  }

  /** One 24-bit group: three octets become four characters. */
  function EncodeGroup(a: Byte, b: Byte, c: Byte): seq<char> {
    [Symbol(a / 4), Symbol((a % 4) * 16 + b / 16), Symbol((b % 16) * 4 + c / 64), Symbol(c % 64)]
  }

  /**
   * `base64.b64encode`: groups of three octets, a final group of one or two
   * octets padded with "==" or "=" (cases 2 and 3 at the end of section 4).
   */
  function Encode(bytes: seq<Byte>): seq<char> {
    if |bytes| == 0 then []
    else if |bytes| == 1 then
      [Symbol(bytes[0] / 4), Symbol((bytes[0] % 4) * 16), Pad, Pad]
    else if |bytes| == 2 then
      [Symbol(bytes[0] / 4), Symbol((bytes[0] % 4) * 16 + bytes[1] / 16), Symbol((bytes[1] % 16) * 4), Pad]
    else
      EncodeGroup(bytes[0], bytes[1], bytes[2]) + Encode(bytes[3..])
  }

  /** Four characters for every started group of three octets, all from the alphabet or the pad. */
  lemma {:induction false} EncodeShape(bytes: seq<Byte>)
    ensures |Encode(bytes)| == 4 * ((|bytes| + 2) / 3)
    ensures forall i :: 0 <= i < |Encode(bytes)| ==> IsEncodingChar(Encode(bytes)[i])
    decreases |bytes|
  {
    if |bytes| > 2 {
      var g, rest := EncodeGroup(bytes[0], bytes[1], bytes[2]), Encode(bytes[3..]);
      EncodeShape(bytes[3..]);
      assert Encode(bytes) == g + rest;
      assert (|bytes| + 2) / 3 == (|bytes| - 3 + 2) / 3 + 1;
      forall i | 0 <= i < |g + rest| ensures IsEncodingChar((g + rest)[i]) {
        if i >= 4 { assert (g + rest)[i] == rest[i - 4]; }
      }
    }
  }

  /**
   * One quantum of four characters; padding is accepted only in the last one,
   * and only when the pad bits it leaves over are zero (section 3.5 of RFC 4648).
   */
  function DecodeQuantum(q: seq<char>, last: bool): Option<seq<Byte>>
    requires |q| == 4
  {
    var i0, i1, i2, i3 := SymbolIndex(q[0]), SymbolIndex(q[1]), SymbolIndex(q[2]), SymbolIndex(q[3]);
    if i0.None? || i1.None? then None
    else if i2.Some? && i3.Some? then
      Some([i0.value * 4 + i1.value / 16,
            (i1.value % 16) * 16 + i2.value / 4,
            (i2.value % 4) * 64 + i3.value])
    else if last && i2.Some? && q[3] == Pad && i2.value % 4 == 0 then
      Some([i0.value * 4 + i1.value / 16, (i1.value % 16) * 16 + i2.value / 4])
    else if last && q[2] == Pad && q[3] == Pad && i1.value % 16 == 0 then
      Some([i0.value * 4 + i1.value / 16])
    else None
  }

  /** The decoder of section 4 of RFC 4648; `None` for text that is not an encoding. */
  function Decode(s: seq<char>): (r: Option<seq<Byte>>)
    decreases |s|
  {
    if |s| == 0 then Some([])
    else if |s| < 4 then None
    else if |s| == 4 then DecodeQuantum(s, true)
    else
      match DecodeQuantum(s[..4], false)
      case None => None
      case Some(head) =>
        match Decode(s[4..])
        case None => None
        case Some(tail) => Some(head + tail)
  }

  /** `q * k + r` with `0 <= r < k` has quotient `q` and remainder `r`, for the three divisors used here. */
  lemma QuotRem(q: int, r: int, k: int)
    requires k == 4 || k == 16 || k == 64
    requires 0 <= r < k
    ensures (q * k + r) / k == q && (q * k + r) % k == r
  {
  }

  lemma GroupRoundTrip(a: Byte, b: Byte, c: Byte, last: bool)
    ensures DecodeQuantum(EncodeGroup(a, b, c), last) == Some([a, b, c])
  {
    var c1, c2 := (a % 4) * 16 + b / 16, (b % 16) * 4 + c / 64;
    QuotRem(a % 4, b / 16, 16);
    QuotRem(b % 16, c / 64, 4);
    var q := EncodeGroup(a, b, c);
    assert SymbolIndex(q[0]) == Some(a / 4);
    assert SymbolIndex(q[1]) == Some(c1);
    assert SymbolIndex(q[2]) == Some(c2);
    assert SymbolIndex(q[3]) == Some(c % 64);
    assert (a / 4) * 4 + c1 / 16 == a;
    assert (c1 % 16) * 16 + c2 / 4 == b;
    assert (c2 % 4) * 64 + c % 64 == c;
  }

  lemma OneByteRoundTrip(a: Byte)
    ensures Decode(Encode([a])) == Some([a])
  {
    var s := Encode([a]);
    QuotRem(a % 4, 0, 16);
    assert SymbolIndex(s[0]) == Some(a / 4);
    assert SymbolIndex(s[1]) == Some((a % 4) * 16);
    assert SymbolIndex(s[2]).None? && s[2] == Pad && s[3] == Pad;
    assert DecodeQuantum(s, true) == Some([a]);
  }

  lemma TwoByteRoundTrip(a: Byte, b: Byte)
    ensures Decode(Encode([a, b])) == Some([a, b])
  {
    var s := Encode([a, b]);
    var c1, c2 := (a % 4) * 16 + b / 16, (b % 16) * 4;
    QuotRem(a % 4, b / 16, 16);
    QuotRem(b % 16, 0, 4);
    assert SymbolIndex(s[0]) == Some(a / 4);
    assert SymbolIndex(s[1]) == Some(c1);
    assert SymbolIndex(s[2]) == Some(c2);
    assert SymbolIndex(s[3]).None? && s[3] == Pad;
    assert (a / 4) * 4 + c1 / 16 == a;
    assert (c1 % 16) * 16 + c2 / 4 == b;
    assert DecodeQuantum(s, true) == Some([a, b]);
  }

  /** A leading quantum without padding decodes on its own, ahead of the rest. */
  lemma DecodeAhead(q: seq<char>, rest: seq<char>, head: seq<Byte>, tail: seq<Byte>)
    requires |q| == 4 && |rest| > 0
    requires DecodeQuantum(q, false) == Some(head) && Decode(rest) == Some(tail)
    ensures Decode(q + rest) == Some(head + tail)
  {
    assert (q + rest)[..4] == q && (q + rest)[4..] == rest;
  }

  /** The last group: one, two or three octets, padded as needed. */
  lemma ShortRoundTrip(bytes: seq<Byte>)
    requires 1 <= |bytes| <= 3
    ensures Decode(Encode(bytes)) == Some(bytes)
  {
    if |bytes| == 1 {
      assert bytes == [bytes[0]];
      OneByteRoundTrip(bytes[0]);
    } else if |bytes| == 2 {
      assert bytes == [bytes[0], bytes[1]];
      TwoByteRoundTrip(bytes[0], bytes[1]);
    } else {
      ThreeByteRoundTrip(bytes);
    }
  }

  lemma ThreeByteRoundTrip(bytes: seq<Byte>)
    requires |bytes| == 3
    ensures Decode(Encode(bytes)) == Some(bytes)
  {
    assert bytes[3..] == [];
    GroupRoundTrip(bytes[0], bytes[1], bytes[2], true);
    assert Encode(bytes) == EncodeGroup(bytes[0], bytes[1], bytes[2]);
    assert bytes == [bytes[0], bytes[1], bytes[2]];
  }

  /** Past three octets, the first group's characters come first and more follow. */
  lemma EncodeAhead(bytes: seq<Byte>)
    requires |bytes| > 3
    ensures Encode(bytes) == EncodeGroup(bytes[0], bytes[1], bytes[2]) + Encode(bytes[3..])
    ensures |Encode(bytes[3..])| > 0
  {
  }

  /** Decoding undoes encoding: no information is lost in the Authorization header. */
  lemma {:induction false} DecodeEncode(bytes: seq<Byte>)
    ensures Decode(Encode(bytes)) == Some(bytes)
    decreases |bytes|
  {
    if |bytes| == 0 {
    } else if |bytes| <= 3 {
      ShortRoundTrip(bytes);
    } else {
      var head := [bytes[0], bytes[1], bytes[2]];
      GroupRoundTrip(bytes[0], bytes[1], bytes[2], false);
      DecodeEncode(bytes[3..]);
      EncodeAhead(bytes);
      DecodeAhead(EncodeGroup(bytes[0], bytes[1], bytes[2]), Encode(bytes[3..]), head, bytes[3..]);
      assert bytes == head + bytes[3..];
    }
  }

  lemma SymbolOfIndex(c: char)
    requires SymbolIndex(c).Some?
    ensures Symbol(SymbolIndex(c).value) == c
  {
  }

  /** Three octets encode as their group followed by the encoding of what comes after. */
  lemma EncodeGroupThen(h: seq<Byte>, t: seq<Byte>)
    requires |h| == 3
    ensures Encode(h + t) == EncodeGroup(h[0], h[1], h[2]) + Encode(t)
  {
    assert (h + t)[3..] == t;
  }

  /** Regrouping four sextets into three octets and back gives the same sextets. */
  lemma Regroup(i0: Sextet, i1: Sextet, i2: Sextet, i3: Sextet)
    ensures var a, b, c := i0 * 4 + i1 / 16, (i1 % 16) * 16 + i2 / 4, (i2 % 4) * 64 + i3;
            && a / 4 == i0 && (a % 4) * 16 + b / 16 == i1
            && (b % 16) * 4 + c / 64 == i2 && c % 64 == i3
  {
    QuotRem(i0, i1 / 16, 4);
    QuotRem(i1 % 16, i2 / 4, 16);
    QuotRem(i2 % 4, i3, 64);
  }

  /** The same for a quantum ending in one pad, whose last two bits are zero. */
  lemma RegroupTwo(i0: Sextet, i1: Sextet, i2: Sextet)
    requires i2 % 4 == 0
    ensures var a, b := i0 * 4 + i1 / 16, (i1 % 16) * 16 + i2 / 4;
            a / 4 == i0 && (a % 4) * 16 + b / 16 == i1 && (b % 16) * 4 == i2
  {
    QuotRem(i0, i1 / 16, 4);
    QuotRem(i1 % 16, i2 / 4, 16);
  }

  /** The same for a quantum ending in two pads, whose last four bits are zero. */
  lemma RegroupOne(i0: Sextet, i1: Sextet)
    requires i1 % 16 == 0
    ensures var a := i0 * 4 + i1 / 16; a / 4 == i0 && (a % 4) * 16 == i1
  {
    QuotRem(i0, i1 / 16, 4);
  }

  /** Four sextets regrouped into three octets encode back to their four symbols. */
  lemma GroupOfSextets(i0: Sextet, i1: Sextet, i2: Sextet, i3: Sextet, a: Byte, b: Byte, c: Byte)
    requires a == i0 * 4 + i1 / 16 && b == (i1 % 16) * 16 + i2 / 4 && c == (i2 % 4) * 64 + i3
    ensures EncodeGroup(a, b, c) == [Symbol(i0), Symbol(i1), Symbol(i2), Symbol(i3)]
  {
    Regroup(i0, i1, i2, i3);
  }

  lemma FullQuantumEncodes(q: seq<char>, last: bool)
    requires |q| == 4 && SymbolIndex(q[0]).Some? && SymbolIndex(q[1]).Some?
    requires SymbolIndex(q[2]).Some? && SymbolIndex(q[3]).Some?
    ensures |DecodeQuantum(q, last).value| == 3
    ensures var b := DecodeQuantum(q, last).value; EncodeGroup(b[0], b[1], b[2]) == q
  {
    var i0, i1, i2, i3 := SymbolIndex(q[0]).value, SymbolIndex(q[1]).value, SymbolIndex(q[2]).value, SymbolIndex(q[3]).value;
    var b := DecodeQuantum(q, last).value;
    GroupOfSextets(i0, i1, i2, i3, b[0], b[1], b[2]);
    SymbolOfIndex(q[0]);
    SymbolOfIndex(q[1]);
    SymbolOfIndex(q[2]);
    SymbolOfIndex(q[3]);
  }

  lemma OneOctetOfSextets(i0: Sextet, i1: Sextet, a: Byte)
    requires i1 % 16 == 0 && a == i0 * 4 + i1 / 16
    ensures Encode([a]) == [Symbol(i0), Symbol(i1), Pad, Pad]
  {
    RegroupOne(i0, i1);
  }

  lemma TwoOctetsOfSextets(i0: Sextet, i1: Sextet, i2: Sextet, a: Byte, b: Byte)
    requires i2 % 4 == 0 && a == i0 * 4 + i1 / 16 && b == (i1 % 16) * 16 + i2 / 4
    ensures Encode([a, b]) == [Symbol(i0), Symbol(i1), Symbol(i2), Pad]
  {
    RegroupTwo(i0, i1, i2);
  }

  lemma PaddedQuantumEncodes(q: seq<char>)
    requires |q| == 4 && DecodeQuantum(q, true).Some?
    requires SymbolIndex(q[2]).None? || SymbolIndex(q[3]).None?
    ensures Encode(DecodeQuantum(q, true).value) == q
  {
    var i0, i1 := SymbolIndex(q[0]).value, SymbolIndex(q[1]).value;
    var b := DecodeQuantum(q, true).value;
    SymbolOfIndex(q[0]);
    SymbolOfIndex(q[1]);
    if SymbolIndex(q[2]).Some? {
      var i2 := SymbolIndex(q[2]).value;
      SymbolOfIndex(q[2]);
      assert |b| == 2 && q[3] == Pad;
      TwoOctetsOfSextets(i0, i1, i2, b[0], b[1]);
      assert b == [b[0], b[1]];
    } else {
      assert |b| == 1 && q[2] == Pad && q[3] == Pad;
      OneOctetOfSextets(i0, i1, b[0]);
      assert b == [b[0]];
    }
  }

  /**
   * Encoding undoes decoding: a text the decoder accepts is the encoding of
   * what it decodes to, so the octets determine the text.
   */
  lemma {:induction false} EncodeDecode(s: seq<char>)
    requires Decode(s).Some?
    ensures Encode(Decode(s).value) == s
    decreases |s|
  {
    if |s| == 4 {
      var q := s;
      if SymbolIndex(q[2]).Some? && SymbolIndex(q[3]).Some? {
        FullQuantumEncodes(q, true);
        var b := Decode(s).value;
        EncodeGroupThen(b, []);
        assert b + [] == b;
      } else {
        PaddedQuantumEncodes(q);
      }
    } else if |s| > 4 {
      var head := DecodeQuantum(s[..4], false).value;
      var tail := Decode(s[4..]).value;
      FullQuantumEncodes(s[..4], false);
      EncodeDecode(s[4..]);
      EncodeGroupThen(head, tail);
      assert s == s[..4] + s[4..];
    }
  }
}
