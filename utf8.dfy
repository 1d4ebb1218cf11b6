/**
 * UTF-8, the encoding Python's `str.encode()` uses by default: `WordPress.__init__`
 * (app.py) encodes the credentials string with it before base64. A Dafny
 * `char` is a Unicode scalar value, so every string has an encoding.
 */
module Utf8 {
  import opened Wrappers
  import opened Bytes

  /** The one to four octets of one scalar value (Table 3-6 of the Unicode Standard). */
  function EncodeChar(c: char): (r: seq<Byte>)
    ensures 1 <= |r| <= 4
  {
    var n := c as int;
    if n < 0x80 then [n]
    else if n < 0x800 then [0xC0 + n / 64, 0x80 + n % 64]
    else if n < 0x10000 then [0xE0 + n / 4096, 0x80 + (n / 64) % 64, 0x80 + n % 64]
    else [0xF0 + n / 262144, 0x80 + (n / 4096) % 64, 0x80 + (n / 64) % 64, 0x80 + n % 64]
  }

  /** `str.encode()`: the encodings of the characters, concatenated. */
  function Encode(s: string): (r: seq<Byte>)
    ensures |s| <= |r| <= 4 * |s|
  {
    if s == [] then [] else EncodeChar(s[0]) + Encode(s[1..])
  }

  /** How many octets the sequence starting with `lead` has; 0 when `lead` cannot start one. */
  function SequenceLength(lead: Byte): nat {
    if lead < 0x80 then 1
    else if 0xC0 <= lead < 0xE0 then 2
    else if 0xE0 <= lead < 0xF0 then 3
    else if 0xF0 <= lead < 0xF8 then 4
    else 0
  }

  predicate IsContinuation(b: Byte) {
    0x80 <= b < 0xC0
  }

  /** The bits a sequence carries: those of the lead octet below its length marker, then six per continuation octet. */
  function Payload(q: seq<Byte>): int
    requires 1 <= |q| <= 4
  {
    var b: seq<int> := q;
    if |b| == 1 then b[0]
    else if |b| == 2 then (b[0] - 0xC0) * 64 + (b[1] - 0x80)
    else if |b| == 3 then (b[0] - 0xE0) * 4096 + (b[1] - 0x80) * 64 + (b[2] - 0x80)
    else (b[0] - 0xF0) * 262144 + (b[1] - 0x80) * 4096 + (b[2] - 0x80) * 64 + (b[3] - 0x80)
  }

  /** The scalar value of one well-formed sequence; overlong forms and surrogates are refused. */
  function DecodeSequence(q: seq<Byte>): Option<char>
    requires 1 <= |q| <= 4
  {
    if exists i :: 1 <= i < |q| && !IsContinuation(q[i]) then None
    else
      var n := Payload(q);
      var least := if |q| == 1 then 0 else if |q| == 2 then 0x80 else if |q| == 3 then 0x800 else 0x10000;
      if least <= n && (n < 0xD800 || 0xE000 <= n < 0x110000) then Some(n as char) else None
  }

  /** UTF-8 decoding; `None` for octets that are not well-formed UTF-8. */
  function Decode(b: seq<Byte>): Option<string>
    decreases |b|
  {
    if |b| == 0 then Some([])
    else
      var len := SequenceLength(b[0]);
      if len == 0 || |b| < len then None
      else
        match DecodeSequence(b[..len])
        case None => None
        case Some(c) =>
          match Decode(b[len..])
          case None => None
          case Some(rest) => Some([c] + rest)
  }

  lemma ThreeDigits(n: int)
    requires 0 <= n
    ensures n == (n / 4096) * 4096 + ((n / 64) % 64) * 64 + n % 64
  {
    var q, r := n / 64, n % 64;
    var p, s := q / 64, q % 64;
    assert n == 4096 * p + 64 * s + r;
    assert n / 4096 == p;
  }

  lemma FourDigits(n: int)
    requires 0 <= n
    ensures n == (n / 262144) * 262144 + ((n / 4096) % 64) * 4096 + ((n / 64) % 64) * 64 + n % 64
  {
    ThreeDigits(n);
    var t, u := n / 4096, n % 4096;
    assert n == 4096 * t + u;
    assert n / 262144 == t / 64 by {
      assert n == 262144 * (t / 64) + 4096 * (t % 64) + u;
    }
    assert t == (t / 64) * 64 + t % 64;
  }

  lemma DecodeEncodeChar(c: char)
    ensures SequenceLength(EncodeChar(c)[0]) == |EncodeChar(c)|
    ensures DecodeSequence(EncodeChar(c)) == Some(c)
  {
    var n := c as int;
    var q := EncodeChar(c);
    if n < 0x80 {
    } else if n < 0x800 {
      assert q[0] - 0xC0 == n / 64;
      assert Payload(q) == n;
    } else if n < 0x10000 {
      ThreeDigits(n);
      assert Payload(q) == n;
    } else {
      FourDigits(n);
      assert n / 262144 < 5;
      assert Payload(q) == n;
    }
  }

  /** Decoding undoes `str.encode()`: the encoded credentials determine the string. */
  lemma {:induction false} DecodeEncode(s: string)
    ensures Decode(Encode(s)) == Some(s)
  {
    if s != [] {
      var head, tail := EncodeChar(s[0]), Encode(s[1..]);
      var b := head + tail;
      DecodeEncodeChar(s[0]);
      assert b[..|head|] == head && b[|head|..] == tail;
      DecodeEncode(s[1..]);
      assert s == [s[0]] + s[1..];
    }
  }
}
