/** The URL-safe base64 of RFC 4648, section 5, with the lenient reader that Python's `binascii` provides. */
module Base64Url {
  import opened Wrappers
  import opened Utf8

  const PAD: char := '='

  function SextetChar(n: nat): (c: char)
    requires n < 64
    ensures c != PAD && c < 128 as char
  {
    if n < 26 then 'A' + n as char
    else if n < 52 then 'a' + (n - 26) as char
    else if n < 62 then '0' + (n - 52) as char
    else if n == 62 then '-' else '_'
  }

  /** '-' and '_' are first translated to '+' and '/', which are accepted as well. */
  function Sextet(c: char): (r: Option<nat>)
    ensures r.Some? ==> r.value < 64
  {
    if 'A' <= c <= 'Z' then Some((c - 'A') as nat)
    else if 'a' <= c <= 'z' then Some((c - 'a') as nat + 26)
    else if '0' <= c <= '9' then Some((c - '0') as nat + 52)
    else if c == '-' || c == '+' then Some(62)
    else if c == '_' || c == '/' then Some(63)
    else None
  }

  // The four sextets of three bytes.

  function First(a: Byte): (n: nat) ensures n < 64 { a / 4 }

  function Second(a: Byte, b: Byte): (n: nat) ensures n < 64 { a % 4 * 16 + b / 16 }

  function Third(b: Byte, c: Byte): (n: nat) ensures n < 64 { b % 16 * 4 + c / 64 }

  function Fourth(c: Byte): (n: nat) ensures n < 64 { c % 64 }

  lemma Rejoined(a: Byte, b: Byte, c: Byte)
    ensures First(a) * 4 + Second(a, b) / 16 == a
    ensures Second(a, b) % 16 == b / 16 && b / 16 * 16 + Third(b, c) / 4 == b
    ensures Third(b, c) % 4 == c / 64 && c / 64 * 64 + Fourth(c) == c
  {
  }

  /** Groups of four characters, the last one padded. */
  function Encode(bs: seq<Byte>): (s: string)
    ensures |s| % 4 == 0
  {
    if bs == [] then ""
    else if |bs| == 1 then [SextetChar(First(bs[0])), SextetChar(Second(bs[0], 0)), PAD, PAD]
    else if |bs| == 2 then
      [SextetChar(First(bs[0])), SextetChar(Second(bs[0], bs[1])), SextetChar(Third(bs[1], 0)), PAD]
    else
      [SextetChar(First(bs[0])), SextetChar(Second(bs[0], bs[1])), SextetChar(Third(bs[1], bs[2])), SextetChar(Fourth(bs[2]))]
      + Encode(bs[3..])
  }

  /** `rstrip("=")`. */
  function StripPad(s: string): string {
    if s != "" && s[|s| - 1] == PAD then StripPad(s[..|s| - 1]) else s
  }

  function Pads(n: nat): string { seq(n, _ => PAD) }

  /** `value + "=" * (-len(value) % 4)`. */
  function Repad(s: string): string { s + Pads((-|s|) % 4) }

  /**
   `binascii.a2b_base64` in its default mode: characters outside the alphabet are skipped, padding that completes a
   group ends the input, and an incomplete group at the end is an error.
   */
  function Scan(s: string, quad: nat, left: nat, pads: nat): Option<seq<Byte>>
    requires quad < 4 && left < 64 && (quad == 2 ==> left < 16) && (quad == 3 ==> left < 4)
  {
    if s == "" then if quad == 0 then Some([]) else None
    else if s[0] == PAD then
      if quad >= 2 && quad + pads + 1 >= 4 then Some([])
      else Scan(s[1..], quad, left, if quad >= 2 then pads + 1 else pads)
    else match Sextet(s[0])
      case None => Scan(s[1..], quad, left, pads)
      case Some(n) =>
        if quad == 0 then Scan(s[1..], 1, n, 0)
        else if quad == 1 then Emit(left * 4 + n / 16, Scan(s[1..], 2, n % 16, 0))
        else if quad == 2 then Emit(left * 16 + n / 4, Scan(s[1..], 3, n % 4, 0))
        else Emit(left * 64 + n, Scan(s[1..], 0, 0, 0))
  }

  function Emit(b: nat, rest: Option<seq<Byte>>): Option<seq<Byte>>
    requires b < 256
  {
    match rest case None => None case Some(bs) => Some([b] + bs)
  }

  /** `base64.urlsafe_b64decode` of a text; one with a character outside ASCII is refused. */
  function Decode(s: string): Option<seq<Byte>> {
    if exists i :: 0 <= i < |s| && s[i] >= 128 as char then None else Scan(s, 0, 0, 0)
  }

  // ---------------------------------------------------------------- round trips

  lemma SextetRoundTrip(n: nat)
    requires n < 64
    ensures Sextet(SextetChar(n)) == Some(n)
  {
  }

  lemma Scan0(n: nat, rest: string)
    requires n < 64
    ensures Scan([SextetChar(n)] + rest, 0, 0, 0) == Scan(rest, 1, n, 0)
  {
    SextetRoundTrip(n);
    assert ([SextetChar(n)] + rest)[1..] == rest;
  }

  lemma Scan1(n: nat, rest: string, left: nat)
    requires n < 64 && left < 64
    ensures Scan([SextetChar(n)] + rest, 1, left, 0) == Emit(left * 4 + n / 16, Scan(rest, 2, n % 16, 0))
  {
    SextetRoundTrip(n);
    assert ([SextetChar(n)] + rest)[1..] == rest;
  }

  lemma Scan2(n: nat, rest: string, left: nat)
    requires n < 64 && left < 16
    ensures Scan([SextetChar(n)] + rest, 2, left, 0) == Emit(left * 16 + n / 4, Scan(rest, 3, n % 4, 0))
  {
    SextetRoundTrip(n);
    assert ([SextetChar(n)] + rest)[1..] == rest;
  }

  lemma Scan3(n: nat, rest: string, left: nat)
    requires n < 64 && left < 4
    ensures Scan([SextetChar(n)] + rest, 3, left, 0) == Emit(left * 64 + n, Scan(rest, 0, 0, 0))
  {
    SextetRoundTrip(n);
    assert ([SextetChar(n)] + rest)[1..] == rest;
  }

  /** A group of sextets, spelled one after another. */
  function Spell(w: nat, rest: string): string
    requires w < 64
  {
    [SextetChar(w)] + rest
  }

  lemma ScanTwo(a: Byte, b: Byte, rest: string)
    ensures Scan(Spell(First(a), Spell(Second(a, b), rest)), 0, 0, 0) == Emit(a, Scan(rest, 2, b / 16, 0))
  {
    Scan0(First(a), Spell(Second(a, b), rest));
    Scan1(Second(a, b), rest, First(a));
    Rejoined(a, b, 0);
  }

  lemma ScanThird(b: Byte, c: Byte, rest: string)
    ensures Scan(Spell(Third(b, c), rest), 2, b / 16, 0) == Emit(b, Scan(rest, 3, c / 64, 0))
  {
    Scan2(Third(b, c), rest, b / 16);
    Rejoined(0, b, c);
  }

  lemma ScanThree(a: Byte, b: Byte, c: Byte, rest: string)
    ensures Scan(Spell(First(a), Spell(Second(a, b), Spell(Third(b, c), rest))), 0, 0, 0)
         == Emit(a, Emit(b, Scan(rest, 3, c / 64, 0)))
  {
    ScanTwo(a, b, Spell(Third(b, c), rest));
    ScanThird(b, c, rest);
  }

  lemma ScanGroup(a: Byte, b: Byte, c: Byte, rest: string)
    ensures Scan(Spell(First(a), Spell(Second(a, b), Spell(Third(b, c), Spell(Fourth(c), rest)))), 0, 0, 0)
         == Emit(a, Emit(b, Emit(c, Scan(rest, 0, 0, 0))))
  {
    ScanThree(a, b, c, Spell(Fourth(c), rest));
    Scan3(Fourth(c), rest, c / 64);
    Rejoined(a, b, c);
  }

  lemma ScanPads()
    ensures Scan([PAD, PAD], 2, 0, 0) == Some([]) && Scan([PAD], 3, 0, 0) == Some([])
  {
    assert [PAD, PAD][1..] == [PAD];
    assert Scan([PAD], 2, 0, 1) == Some([]);
  }

  lemma ScanOne(a: Byte)
    ensures Scan(Encode([a]), 0, 0, 0) == Some([a])
  {
    ScanPads();
    ScanTwo(a, 0, [PAD, PAD]);
    assert [a] + [] == [a];
    assert Encode([a]) == Spell(First(a), Spell(Second(a, 0), [PAD, PAD]));
  }

  lemma ScanPair(a: Byte, b: Byte)
    ensures Scan(Encode([a, b]), 0, 0, 0) == Some([a, b])
  {
    ScanPads();
    ScanThree(a, b, 0, [PAD]);
    assert [a] + ([b] + []) == [a, b];
    assert Encode([a, b]) == Spell(First(a), Spell(Second(a, b), Spell(Third(b, 0), [PAD])));
  }

  lemma EncodeGroup(a: Byte, b: Byte, c: Byte, bs: seq<Byte>)
    ensures Encode([a, b, c] + bs)
         == Spell(First(a), Spell(Second(a, b), Spell(Third(b, c), Spell(Fourth(c), Encode(bs)))))
  {
    assert ([a, b, c] + bs)[3..] == bs;
  }

  lemma EmitGroup(a: Byte, b: Byte, c: Byte, bs: seq<Byte>)
    ensures Emit(a, Emit(b, Emit(c, Some(bs)))) == Some([a, b, c] + bs)
  {
    assert [a] + ([b] + ([c] + bs)) == [a, b, c] + bs;
  }

  /** Reading the padded encoding gives the bytes back. */
  lemma {:induction false} ScanEncoded(bs: seq<Byte>)
    ensures Scan(Encode(bs), 0, 0, 0) == Some(bs)
    decreases |bs|
  {
    if |bs| == 1 {
      assert bs == [bs[0]];
      ScanOne(bs[0]);
    } else if |bs| == 2 {
      assert bs == [bs[0], bs[1]];
      ScanPair(bs[0], bs[1]);
    } else if |bs| >= 3 {
      var a, b, c, rest := bs[0], bs[1], bs[2], bs[3..];
      assert bs == [a, b, c] + rest;
      EncodeGroup(a, b, c, rest);
      ScanGroup(a, b, c, Encode(rest));
      ScanEncoded(rest);
      EmitGroup(a, b, c, rest);
    }
  }

  /** The encoding is a text of alphabet characters and at most two pads. */
  lemma {:induction false} EncodedShape(bs: seq<Byte>) returns (body: string, n: nat)
    ensures Encode(bs) == body + Pads(n) && n <= 2 && (body == "" || body[|body| - 1] != PAD)
    decreases |bs|
  {
    if |bs| < 3 {
      n := if |bs| == 1 then 2 else if |bs| == 2 then 1 else 0;
      body := Encode(bs)[..|Encode(bs)| - n];
    } else {
      var rest;
      rest, n := EncodedShape(bs[3..]);
      body := Encode(bs)[..4] + rest;
      assert Encode(bs)[4..] == Encode(bs[3..]);
    }
  }

  lemma {:induction false} StripPads(body: string, n: nat)
    requires body == "" || body[|body| - 1] != PAD
    ensures StripPad(body + Pads(n)) == body
  {
    if n == 0 {
      assert body + Pads(0) == body;
    } else {
      assert (body + Pads(n))[..|body| + n - 1] == body + Pads(n - 1);
      StripPads(body, n - 1);
    }
  }

  /** Stripping the pads and adding back `-len % 4` of them restores the encoding of every byte string. */
  lemma PaddingRestored(bs: seq<Byte>)
    ensures Repad(StripPad(Encode(bs))) == Encode(bs)
  {
    var body, n := EncodedShape(bs);
    StripPads(body, n);
    FillUp(|body|, n);
  }

  lemma FillUp(m: int, n: int)
    requires (m + n) % 4 == 0 && 0 <= n <= 2
    ensures -m % 4 == n
  {
  }

  lemma {:induction false} EncodedAscii(bs: seq<Byte>)
    ensures forall i :: 0 <= i < |Encode(bs)| ==> Encode(bs)[i] < 128 as char
    decreases |bs|
  {
    if |bs| >= 3 {
      EncodedAscii(bs[3..]);
    }
  }

  /** An unpadded encoding, padded again and read, gives the bytes back. */
  lemma RoundTrip(bs: seq<Byte>)
    ensures Decode(Repad(StripPad(Encode(bs)))) == Some(bs)
  {
    PaddingRestored(bs);
    EncodedAscii(bs);
    ScanEncoded(bs);
  }

  // ---------------------------------------------------------------- the alphabet and the published samples

  const UPPER: string := "ABCDEFGHIJKLMNOPQRSTUVWXYZ"
  const LOWER: string := "abcdefghijklmnopqrstuvwxyz"

  lemma UpperAt(n: nat)
    requires n < 26
    ensures SextetChar(n) == UPPER[n]
  {
    if n < 13 { assert UPPER[n] == "ABCDEFGHIJKLM"[n]; } else { assert UPPER[n] == "NOPQRSTUVWXYZ"[n - 13]; }
  }

  lemma LowerAt(n: nat)
    requires n < 26
    ensures SextetChar(26 + n) == LOWER[n]
  {
    if n < 13 { assert LOWER[n] == "abcdefghijklm"[n]; } else { assert LOWER[n] == "nopqrstuvwxyz"[n - 13]; }
  }

  /** The URL-safe alphabet in order of value (RFC 4648, section 5). */
  lemma Alphabet(n: nat)
    requires n < 64
    ensures SextetChar(n) == (UPPER + LOWER + "0123456789" + "-_")[n]
  {
    if n < 26 { UpperAt(n); } else if n < 52 { LowerAt(n - 26); }
  }

  /** The test vectors of RFC 4648, section 10. */
  lemma TestVectors()
    ensures Encode([]) == ""
    ensures Encode([102]) == "Zg=="
    ensures Encode([102, 111]) == "Zm8="
    ensures Encode([102, 111, 111]) == "Zm9v"
    ensures Encode([102, 111, 111, 98]) == "Zm9vYg=="
    ensures Encode([102, 111, 111, 98, 97]) == "Zm9vYmE="
    ensures Encode([102, 111, 111, 98, 97, 114]) == "Zm9vYmFy"
  {
    var foo: seq<Byte> := [102, 111, 111];
    assert Encode(foo) == "Zm9v";
    assert (foo + [98])[3..] == [98] && foo + [98] == [102, 111, 111, 98];
    assert (foo + [98, 97])[3..] == [98, 97] && foo + [98, 97] == [102, 111, 111, 98, 97];
    assert (foo + [98, 97, 114])[3..] == [98, 97, 114] && foo + [98, 97, 114] == [102, 111, 111, 98, 97, 114];
  }
}
