/** UTF-8 as `str.encode` writes it and a strict decoder reads it (RFC 3629, section 3). */
module Utf8 {
  import opened Wrappers

  type Byte = n: nat | n < 256

  function EncodeChar(c: char): (bs: seq<Byte>)
    ensures 1 <= |bs| <= 4
  {
    var n := c as int;
    if n < 0x80 then [n]
    else if n < 0x800 then [0xC0 + n / 64, 0x80 + n % 64]
    else if n < 0x10000 then [0xE0 + n / 4096, 0x80 + n / 64 % 64, 0x80 + n % 64]
    else [0xF0 + n / 262144, 0x80 + n / 4096 % 64, 0x80 + n / 64 % 64, 0x80 + n % 64]
  }

  function Encode(s: string): seq<Byte> {
    if s == "" then [] else EncodeChar(s[0]) + Encode(s[1..])
  }

  predicate Trailing(b: Byte) { 0x80 <= b < 0xC0 }

  function Six(b: Byte): int { var n: int := b; n - 0x80 }

  /** The first character and the bytes after it; overlong forms and surrogates are refused. */
  function DecodeChar(bs: seq<Byte>): (r: Option<(char, seq<Byte>)>)
    requires bs != []
    ensures r.Some? ==> |r.value.1| < |bs|
  {
    var b: int := bs[0];
    if b < 0x80 then Some((b as char, bs[1..]))
    else if 0xC2 <= b < 0xE0 && |bs| >= 2 && Trailing(bs[1]) then
      var n := (b - 0xC0) * 64 + Six(bs[1]);
      Some((n as char, bs[2..]))
    else if 0xE0 <= b < 0xF0 && |bs| >= 3 && Trailing(bs[1]) && Trailing(bs[2]) then
      var n := (b - 0xE0) * 4096 + Six(bs[1]) * 64 + Six(bs[2]);
      if n < 0x800 || 0xD800 <= n < 0xE000 then None else Some((n as char, bs[3..]))
    else if 0xF0 <= b < 0xF5 && |bs| >= 4 && Trailing(bs[1]) && Trailing(bs[2]) && Trailing(bs[3]) then
      var n := (b - 0xF0) * 262144 + Six(bs[1]) * 4096 + Six(bs[2]) * 64 + Six(bs[3]);
      if n < 0x10000 || 0x110000 <= n then None else Some((n as char, bs[4..]))
    else None
  }

  function Decode(bs: seq<Byte>): Option<string>
    decreases |bs|
  {
    if bs == [] then Some("")
    else match DecodeChar(bs)
      case None => None
      case Some((c, rest)) =>
        match Decode(rest) case None => None case Some(s) => Some([c] + s)
  }

  lemma DecodeCharEncoded(c: char, rest: seq<Byte>)
    ensures DecodeChar(EncodeChar(c) + rest) == Some((c, rest))
  {
    var n := c as int;
    assert n == n / 64 * 64 + n % 64;
    assert n / 64 == n / 4096 * 64 + n / 64 % 64;
    assert n / 4096 == n / 262144 * 64 + n / 4096 % 64;
    assert (EncodeChar(c) + rest)[|EncodeChar(c)|..] == rest;
  }

  lemma {:induction false} RoundTrip(s: string)
    ensures Decode(Encode(s)) == Some(s)
  {
    if s != "" {
      DecodeCharEncoded(s[0], Encode(s[1..]));
      RoundTrip(s[1..]);
      assert [s[0]] + s[1..] == s;
    }
  }

  /** One character of each length, from the examples of RFC 3629, section 7. */
  lemma Samples()
    ensures EncodeChar('A') == [0x41]
    ensures EncodeChar('\U{0391}') == [0xCE, 0x91]
    ensures EncodeChar('\U{2262}') == [0xE2, 0x89, 0xA2]
    ensures EncodeChar('\U{233B4}') == [0xF0, 0xA3, 0x8E, 0xB4]
  {
  }
}
