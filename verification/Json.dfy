/** The compact JSON objects of string members that the service prints, and a reader for them (RFC 8259, section 7). */
module Json {
  import opened Wrappers
  import opened Digits

  datatype Member = Member(name: string, text: string)

  /** The letter of a two-character escape. */
  function ShortEscape(c: char): Option<char> {
    if c == '"' || c == '\\' then Some(c)
    else if c == '\n' then Some('n')
    else if c == '\r' then Some('r')
    else if c == '\t' then Some('t')
    else if c == 8 as char then Some('b')
    else if c == 12 as char then Some('f')
    else None
  }

  function ReadShort(letter: char): Option<char> {
    if letter == '"' || letter == '\\' || letter == '/' then Some(letter)
    else if letter == 'n' then Some('\n')
    else if letter == 'r' then Some('\r')
    else if letter == 't' then Some('\t')
    else if letter == 'b' then Some(8 as char)
    else if letter == 'f' then Some(12 as char)
    else None
  }

  function EscapeChar(c: char): (e: string)
    ensures e != "" && e[0] != '"'
  {
    match ShortEscape(c)
    case Some(letter) => ['\\', letter]
    case None => if c < ' ' then ['\\', 'u'] + Fixed(c as nat, 16, 4) else [c]
  }

  function Escape(s: string): string {
    if s == "" then "" else EscapeChar(s[0]) + Escape(s[1..])
  }

  /** One character of a string literal and what follows it. */
  function ReadChar(s: string): (r: Option<(char, string)>)
    requires s != ""
    ensures r.Some? ==> |r.value.1| < |s|
  {
    if s[0] < ' ' then None
    else if s[0] != '\\' then Some((s[0], s[1..]))
    else if |s| < 2 then None
    else match ReadShort(s[1])
      case Some(c) => Some((c, s[2..]))
      case None =>
        if s[1] == 'u' && |s| >= 6 then
          match ReadHex(s[2..6]) case Some(c) => Some((c, s[6..])) case None => None
        else None
  }

  function ReadHex(h: string): Option<char> {
    if IsDigits(h, 16) && Value(h, 16) < 0xD800 then Some(Value(h, 16) as char) else None
  }

  /** The rest of a string literal whose opening quote has been read. */
  function ReadString(s: string): (r: Option<(string, string)>)
    ensures r.Some? ==> |r.value.1| < |s|
    decreases |s|
  {
    if s == "" then None
    else if s[0] == '"' then Some(("", s[1..]))
    else match ReadChar(s)
      case None => None
      case Some((c, rest)) =>
        match ReadString(rest)
        case None => None
        case Some((text, after)) => Some(([c] + text, after))
  }

  function Quote(s: string): string { ['"'] + Escape(s) + ['"'] }

  function ReadQuoted(s: string): (r: Option<(string, string)>)
    ensures r.Some? ==> |r.value.1| < |s|
  {
    if s == "" || s[0] != '"' then None else ReadString(s[1..])
  }

  function PrintMember(m: Member, rest: string): string {
    Quote(m.name) + ([':'] + (Quote(m.text) + rest))
  }

  function PrintMembers(ms: seq<Member>): string
    requires ms != []
  {
    PrintMember(ms[0], if |ms| == 1 then ['}'] else [','] + PrintMembers(ms[1..]))
  }

  function PrintObject(ms: seq<Member>): string {
    if ms == [] then "{}" else ['{'] + PrintMembers(ms)
  }

  function ReadMember(s: string): (r: Option<(Member, string)>)
    ensures r.Some? ==> |r.value.1| < |s|
  {
    match ReadQuoted(s)
    case None => None
    case Some((name, colon)) =>
      if colon == "" || colon[0] != ':' then None
      else match ReadQuoted(colon[1..])
        case None => None
        case Some((text, rest)) => Some((Member(name, text), rest))
  }

  function ReadMembers(s: string): Option<seq<Member>>
    decreases |s|
  {
    match ReadMember(s)
    case None => None
    case Some((m, rest)) =>
      if rest == ['}'] then Some([m])
      else if rest == "" || rest[0] != ',' then None
      else match ReadMembers(rest[1..])
        case None => None
        case Some(ms) => Some([m] + ms)
  }

  function ReadObject(s: string): Option<seq<Member>> {
    if s == "{}" then Some([]) else if s == "" || s[0] != '{' then None else ReadMembers(s[1..])
  }

  /** A later member of the same name wins. */
  function Lookup(ms: seq<Member>, name: string): Option<string> {
    if ms == [] then None
    else if ms[|ms| - 1].name == name then Some(ms[|ms| - 1].text)
    else Lookup(ms[..|ms| - 1], name)
  }

  lemma ReadHexControl(c: char)
    requires c < ' '
    ensures ReadHex(Fixed(c as nat, 16, 4)) == Some(c)
  {
    assert Pow(16, 4) == 65536;
    FixedRoundTrip(c as nat, 16, 4);
  }

  lemma ReadCharEscaped(c: char, rest: string)
    ensures ReadChar(EscapeChar(c) + rest) == Some((c, rest))
  {
    var e := EscapeChar(c);
    var s := e + rest;
    assert s[|e|..] == rest;
    if ShortEscape(c).None? && c < ' ' {
      assert s[2..6] == Fixed(c as nat, 16, 4);
      ReadHexControl(c);
    }
  }

  lemma ReadStringStep(c: char, tail: string, text: string, rest: string)
    requires ReadString(tail) == Some((text, rest))
    ensures ReadString(EscapeChar(c) + tail) == Some(([c] + text, rest))
  {
    ReadCharEscaped(c, tail);
  }

  lemma {:induction false} ReadStringEscaped(s: string, rest: string)
    ensures ReadString(Escape(s) + ['"'] + rest) == Some((s, rest))
  {
    if s == "" {
      assert Escape(s) + ['"'] + rest == ['"'] + rest;
    } else {
      var tail := Escape(s[1..]) + ['"'] + rest;
      assert Escape(s) + ['"'] + rest == EscapeChar(s[0]) + tail;
      ReadStringEscaped(s[1..], rest);
      ReadStringStep(s[0], tail, s[1..], rest);
      assert [s[0]] + s[1..] == s;
    }
  }

  lemma ReadQuotedPrinted(t: string, rest: string)
    ensures ReadQuoted(Quote(t) + rest) == Some((t, rest))
  {
    assert (Quote(t) + rest)[1..] == Escape(t) + ['"'] + rest;
    ReadStringEscaped(t, rest);
  }

  lemma ReadMemberPrinted(m: Member, rest: string)
    ensures ReadMember(PrintMember(m, rest)) == Some((m, rest))
  {
    var colon := [':'] + (Quote(m.text) + rest);
    ReadQuotedPrinted(m.name, colon);
    assert colon[1..] == Quote(m.text) + rest;
    ReadQuotedPrinted(m.text, rest);
  }

  lemma ReadMembersLast(m: Member)
    ensures ReadMembers(PrintMember(m, ['}'])) == Some([m])
  {
    ReadMemberPrinted(m, ['}']);
  }

  lemma ReadMembersMore(m: Member, after: string, ms: seq<Member>)
    requires ReadMembers(after) == Some(ms)
    ensures ReadMembers(PrintMember(m, [','] + after)) == Some([m] + ms)
  {
    var rest := [','] + after;
    ReadMemberPrinted(m, rest);
    assert rest[1..] == after;
    assert rest[0] != '}';
  }

  lemma {:induction false} ReadMembersPrinted(ms: seq<Member>)
    requires ms != []
    ensures ReadMembers(PrintMembers(ms)) == Some(ms)
  {
    if |ms| == 1 {
      ReadMembersLast(ms[0]);
      assert ms == [ms[0]];
    } else {
      ReadMembersPrinted(ms[1..]);
      ReadMembersMore(ms[0], PrintMembers(ms[1..]), ms[1..]);
      assert [ms[0]] + ms[1..] == ms;
    }
  }

  /** Printing loses nothing, so distinct member lists have distinct texts. */
  lemma ObjectRoundTrip(ms: seq<Member>)
    ensures ReadObject(PrintObject(ms)) == Some(ms)
  {
    if ms != [] {
      assert PrintObject(ms)[1..] == PrintMembers(ms);
      ReadMembersPrinted(ms);
    }
  }

  // ---------------------------------------------------------------- the text, written out

  /** Characters that a string literal holds as they are. */
  predicate Plain(c: char) { c >= ' ' && c != '"' && c != '\\' }

  lemma {:induction false} EscapePlain(s: string)
    requires forall c :: c in s ==> Plain(c)
    ensures Escape(s) == s
  {
    if s != "" {
      assert Plain(s[0]);
      EscapePlain(s[1..]);
      assert [s[0]] + s[1..] == s;
    }
  }

  /** Two-character escapes for quote, backslash, newline, return, tab, backspace and form feed .. */
  lemma ShortEscapes()
    ensures EscapeChar('"') == "\\\"" && EscapeChar('\\') == "\\\\" && EscapeChar('\n') == "\\n" && EscapeChar('\r') == "\\r"
    ensures EscapeChar('\t') == "\\t" && EscapeChar(8 as char) == "\\b" && EscapeChar(12 as char) == "\\f"
  {
  }

  /** .. four hexadecimal digits for the other control characters, and the rest as they are. */
  lemma OtherEscapes(c: char)
    requires c != '"' && c != '\\' && c != '\n' && c != '\r' && c != '\t' && c != 8 as char && c != 12 as char
    ensures EscapeChar(c) == if c < ' ' then ['\\', 'u'] + Fixed(c as nat, 16, 4) else [c]
  {
  }

  lemma PrintedPair(name: string, text: string, name': string, text': string)
    ensures PrintObject([Member(name, text), Member(name', text')]) ==
      "{" + (Quote(name) + (":" + (Quote(text) + ("," + (Quote(name') + (":" + (Quote(text') + "}")))))))
  {
    var ms := [Member(name, text), Member(name', text')];
    assert ms[1..] == [Member(name', text')];
    assert PrintMembers(ms[1..]) == PrintMember(ms[1], "}");
    assert PrintMembers(ms) == PrintMember(ms[0], "," + PrintMember(ms[1], "}"));
  }

  lemma QuotePlain(s: string)
    requires forall c :: c in s ==> Plain(c)
    ensures Quote(s) == "\"" + s + "\""
  {
    EscapePlain(s);
  }
}
