/** The Redis command encoder, and a reader of RESP arrays of bulk strings that recovers what was encoded. */
module Resp {
  import opened Wrappers
  import opened Digits
  import opened Utf8

  type Bytes = seq<Byte>

  const CRLF: Bytes := [13, 10]
  const STAR: Byte := 42
  const DOLLAR: Byte := 36

  // ---------------------------------------------------------------- the encoder

  /** A type mark, a decimal length and a line end. */
  function Header(mark: Byte, n: nat): Bytes { [mark] + (Encode(Decimal(n)) + CRLF) }

  function Bulk(part: Bytes): Bytes { Header(DOLLAR, |part|) + (part + CRLF) }

  function Bulks(parts: seq<Bytes>): Bytes {
    if parts == [] then [] else Bulk(parts[0]) + Bulks(parts[1..])
  }

  function Command(parts: seq<Bytes>): Bytes { Header(STAR, |parts|) + Bulks(parts) }

  function EncodedParts(parts: seq<string>): (r: seq<Bytes>)
    ensures |r| == |parts| && forall i :: 0 <= i < |r| ==> r[i] == Encode(parts[i])
  {
    seq(|parts|, i requires 0 <= i < |parts| => Encode(parts[i]))
  }

  function Joined(pieces: seq<Bytes>): Bytes {
    if pieces == [] then [] else Joined(pieces[..|pieces| - 1]) + pieces[|pieces| - 1]
  }

  lemma Assoc(a: Bytes, b: Bytes, c: Bytes)
    ensures a + (b + c) == (a + b) + c
  {
  }

  lemma JoinedAppend(pieces: seq<Bytes>, a: Bytes)
    ensures Joined(pieces + [a]) == Joined(pieces) + a
  {
    assert (pieces + [a])[..|pieces|] == pieces;
  }

  lemma {:induction false} BulksAppend(parts: seq<Bytes>, part: Bytes)
    ensures Bulks(parts + [part]) == Bulks(parts) + Bulk(part)
  {
    if parts == [] {
      assert [] + [part] == [part];
    } else {
      assert (parts + [part])[1..] == parts[1..] + [part];
      BulksAppend(parts[1..], part);
    }
  }

  lemma BulkPieces(pieces: seq<Bytes>, part: Bytes)
    ensures Joined(pieces + [Header(DOLLAR, |part|), part, CRLF]) == Joined(pieces) + Bulk(part)
  {
    var one, two := pieces + [Header(DOLLAR, |part|)], pieces + [Header(DOLLAR, |part|)] + [part];
    JoinedAppend(pieces, Header(DOLLAR, |part|));
    JoinedAppend(one, part);
    JoinedAppend(two, CRLF);
    assert pieces + [Header(DOLLAR, |part|), part, CRLF] == two + [CRLF];
  }

  lemma Extended(command: seq<Bytes>, encoded: seq<Bytes>, i: nat)
    requires i < |encoded| && Joined(command) == Header(STAR, |encoded|) + Bulks(encoded[..i])
    ensures Joined(command + [Header(DOLLAR, |encoded[i]|), encoded[i], CRLF]) == Header(STAR, |encoded|) + Bulks(encoded[..i + 1])
  {
    var part := encoded[i];
    BulkPieces(command, part);
    BulksAppend(encoded[..i], part);
    assert encoded[..i + 1] == encoded[..i] + [part];
    Assoc(Header(STAR, |encoded|), Bulks(encoded[..i]), Bulk(part));
  }

  method EncodeCommand(parts: seq<string>) returns (bytes: Bytes)
    ensures bytes == Command(EncodedParts(parts))
  {
    var encoded := EncodedParts(parts);
    var command := [Header(STAR, |encoded|)];
    var i := 0;
    while i < |encoded|
      invariant 0 <= i <= |encoded|
      invariant Joined(command) == Header(STAR, |encoded|) + Bulks(encoded[..i])
    {
      var part := encoded[i];
      Extended(command, encoded, i);
      command := command + [Header(DOLLAR, |part|), part, CRLF];
      i := i + 1;
    }
    assert encoded[..i] == encoded;
    bytes := Joined(command);
  }

  // ---------------------------------------------------------------- the reader

  predicate DigitByte(b: Byte) { 48 <= b < 58 }

  /** Digits up to a line end. */
  function ReadNumber(bs: Bytes, sofar: nat): (r: Option<(nat, Bytes)>)
    ensures r.Some? ==> |r.value.1| < |bs|
  {
    if bs == [] then None
    else if DigitByte(bs[0]) then
      var digit: nat := bs[0] - 48;
      ReadNumber(bs[1..], sofar * 10 + digit)
    else if bs[0] == 13 && |bs| >= 2 && bs[1] == 10 then Some((sofar, bs[2..]))
    else None
  }

  function ReadHeader(mark: Byte, bs: Bytes): (r: Option<(nat, Bytes)>)
    ensures r.Some? ==> |r.value.1| < |bs|
  {
    if |bs| >= 2 && bs[0] == mark && DigitByte(bs[1]) then ReadNumber(bs[1..], 0) else None
  }

  function ReadBulk(bs: Bytes): (r: Option<(Bytes, Bytes)>)
    ensures r.Some? ==> |r.value.1| < |bs|
  {
    match ReadHeader(DOLLAR, bs)
    case None => None
    case Some((n, rest)) =>
      if |rest| >= n + 2 && rest[n] == 13 && rest[n + 1] == 10 then Some((rest[..n], rest[n + 2..])) else None
  }

  function ReadBulks(n: nat, bs: Bytes): (r: Option<(seq<Bytes>, Bytes)>)
    ensures r.Some? ==> |r.value.1| <= |bs|
  {
    if n == 0 then Some(([], bs))
    else match ReadBulk(bs)
      case None => None
      case Some((part, rest)) =>
        match ReadBulks(n - 1, rest)
        case None => None
        case Some((parts, end)) => Some(([part] + parts, end))
  }

  function ReadCommand(bs: Bytes): (r: Option<(seq<Bytes>, Bytes)>)
    ensures r.Some? ==> |r.value.1| < |bs|
  {
    match ReadHeader(STAR, bs)
    case None => None
    case Some((n, rest)) => ReadBulks(n, rest)
  }

  function ReadCommands(bs: Bytes): Option<seq<seq<Bytes>>>
    decreases |bs|
  {
    if bs == [] then Some([])
    else match ReadCommand(bs)
      case None => None
      case Some((command, rest)) =>
        match ReadCommands(rest) case None => None case Some(commands) => Some([command] + commands)
  }

  // ---------------------------------------------------------------- round trips

  lemma {:induction false} EncodeAppend(s: string, t: string)
    ensures Encode(s + t) == Encode(s) + Encode(t)
  {
    if s == "" {
      assert s + t == t;
    } else {
      assert (s + t)[1..] == s[1..] + t;
      EncodeAppend(s[1..], t);
    }
  }

  lemma EncodeDigit(d: nat)
    requires d < 10
    ensures Encode([DigitChar(d)]) == [48 + d]
  {
    assert [DigitChar(d)][1..] == "";
  }

  /** Reading on past a printed number continues from its value. */
  lemma {:induction false} ReadDecimal(n: nat, rest: Bytes)
    ensures ReadNumber(Encode(Decimal(n)) + rest, 0) == ReadNumber(rest, n)
    ensures Encode(Decimal(n)) != [] && DigitByte(Encode(Decimal(n))[0])
  {
    var d := n % 10;
    EncodeDigit(d);
    assert ([48 + d] + rest)[1..] == rest;
    if n >= 10 {
      EncodeAppend(Decimal(n / 10), [DigitChar(d)]);
      ReadDecimal(n / 10, [48 + d] + rest);
      assert Encode(Decimal(n)) + rest == Encode(Decimal(n / 10)) + ([48 + d] + rest);
    }
  }

  lemma ReadHeaderPrinted(mark: Byte, n: nat, rest: Bytes)
    ensures ReadHeader(mark, Header(mark, n) + rest) == Some((n, rest))
  {
    ReadDecimal(n, CRLF + rest);
    var bs := Header(mark, n) + rest;
    assert bs[1..] == Encode(Decimal(n)) + (CRLF + rest);
    assert (CRLF + rest)[2..] == rest;
  }

  lemma ReadBulkPrinted(part: Bytes, rest: Bytes)
    ensures ReadBulk(Bulk(part) + rest) == Some((part, rest))
  {
    var tail := part + CRLF + rest;
    ReadHeaderPrinted(DOLLAR, |part|, tail);
    assert Bulk(part) + rest == Header(DOLLAR, |part|) + tail;
    assert tail[..|part|] == part && tail[|part| + 2..] == rest;
  }

  lemma BulksFirst(parts: seq<Bytes>, rest: Bytes)
    requires parts != []
    ensures Bulks(parts) + rest == Bulk(parts[0]) + (Bulks(parts[1..]) + rest) && [parts[0]] + parts[1..] == parts
  {
    Assoc(Bulk(parts[0]), Bulks(parts[1..]), rest);
  }

  lemma {:induction false} ReadBulksPrinted(parts: seq<Bytes>, rest: Bytes)
    ensures ReadBulks(|parts|, Bulks(parts) + rest) == Some((parts, rest))
  {
    if parts == [] {
      assert [] + rest == rest;
    } else {
      var first, others := parts[0], parts[1..];
      ReadBulkPrinted(first, Bulks(others) + rest);
      ReadBulksPrinted(others, rest);
      BulksFirst(parts, rest);
    }
  }

  /** Whatever the parts contain, line ends included, the reader recovers them and leaves the rest untouched. */
  lemma ReadCommandPrinted(parts: seq<Bytes>, rest: Bytes)
    ensures ReadCommand(Command(parts) + rest) == Some((parts, rest))
  {
    ReadHeaderPrinted(STAR, |parts|, Bulks(parts) + rest);
    ReadBulksPrinted(parts, rest);
    assert Command(parts) + rest == Header(STAR, |parts|) + (Bulks(parts) + rest);
  }

  function Stream(commands: seq<seq<Bytes>>): Bytes {
    if commands == [] then [] else Command(commands[0]) + Stream(commands[1..])
  }

  /** Commands sent one after another are split back into the same commands. */
  lemma {:induction false} StreamRoundTrip(commands: seq<seq<Bytes>>)
    ensures ReadCommands(Stream(commands)) == Some(commands)
  {
    if commands != [] {
      ReadCommandPrinted(commands[0], Stream(commands[1..]));
      StreamRoundTrip(commands[1..]);
      assert [commands[0]] + commands[1..] == commands;
    }
  }

  function DecodedParts(parts: seq<Bytes>): Option<seq<string>> {
    if parts == [] then Some([])
    else match (Decode(parts[0]), DecodedParts(parts[1..]))
      case (Some(s), Some(rest)) => Some([s] + rest)
      case _ => None
  }

  lemma {:induction false} PartsRoundTrip(parts: seq<string>)
    ensures DecodedParts(EncodedParts(parts)) == Some(parts)
  {
    if parts != [] {
      assert EncodedParts(parts)[1..] == EncodedParts(parts[1..]);
      RoundTrip(parts[0]);
      PartsRoundTrip(parts[1..]);
      assert [parts[0]] + parts[1..] == parts;
    }
  }

  /** The texts of a command survive encoding and reading. */
  lemma CommandRoundTrip(parts: seq<string>, rest: Bytes)
    ensures ReadCommand(Command(EncodedParts(parts)) + rest) == Some((EncodedParts(parts), rest))
    ensures DecodedParts(EncodedParts(parts)) == Some(parts)
  {
    ReadCommandPrinted(EncodedParts(parts), rest);
    PartsRoundTrip(parts);
  }

  /** The sample of the protocol's specification: `LLEN mylist`. */
  lemma Sample()
    ensures Command([[76, 76, 69, 78], [109, 121, 108, 105, 115, 116]]) ==
      [42, 50, 13, 10]
      + ([36, 52, 13, 10] + ([76, 76, 69, 78] + [13, 10]) + ([36, 54, 13, 10] + ([109, 121, 108, 105, 115, 116] + [13, 10])))
  {
    var llen: Bytes, mylist: Bytes := [76, 76, 69, 78], [109, 121, 108, 105, 115, 116];
    OneDigit(STAR, 2);
    OneDigit(DOLLAR, 4);
    OneDigit(DOLLAR, 6);
    assert [llen, mylist][1..] == [mylist];
    assert Bulks([mylist]) == Bulk(mylist) + [];
    assert Bulks([llen, mylist]) == Bulk(llen) + Bulk(mylist);
  }

  lemma OneDigit(mark: Byte, n: nat)
    requires n < 10
    ensures Header(mark, n) == [mark, 48 + n, 13, 10]
  {
    EncodeDigit(n);
  }
}
