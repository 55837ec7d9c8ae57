/** UUIDs and UTC timestamps with the spellings that `str(UUID)` and `datetime.isoformat` give them. */
module Values {
  import opened Wrappers
  import opened Digits
  import Text

  const UUID_LIMIT: nat := 0x1_0000_0000_0000_0000_0000_0000_0000_0000

  type Uuid = n: nat | n < UUID_LIMIT

  /** Lower-case hexadecimal in groups of 8-4-4-4-12. */
  function PrintUuid(u: Uuid): (s: string)
    ensures |s| == 36
    ensures forall i :: 0 <= i < 36 ==> s[i] in "0123456789abcdef-"
  {
    var h := Fixed(u, 16, 32);
    Group(h[..8], Group(h[8..12], Group(h[12..16], Group(h[16..20], h[20..]))))
  }

  function Group(head: string, rest: string): string {
    head + "-" + rest
  }

  function Remove(s: string, c: char): string {
    if s == "" then "" else if s[0] == c then Remove(s[1..], c) else [s[0]] + Remove(s[1..], c)
  }

  /** `s.replace(word, "")`. */
  function RemoveWord(s: string, word: string): string
    requires word != ""
  {
    if |s| < |word| then s
    else if s[..|word|] == word then RemoveWord(s[|word|..], word)
    else [s[0]] + RemoveWord(s[1..], word)
  }

  predicate Brace(c: char) { c == '{' || c == '}' }

  /** What `UUID(..)` reads as hexadecimal: without `urn:`, `uuid:`, outer braces and dashes. */
  function UuidDigits(s: string): string {
    Remove(Text.Trim(RemoveWord(RemoveWord(s, "urn:"), "uuid:"), Brace), '-')
  }

  /** The space that `int` ignores around a number. */
  predicate IntSpace(c: char) { 9 <= c as int <= 13 || c == ' ' || (c as int >= 0x80 && Text.PythonSpace(c)) }

  /** Digits with single underscores between them. */
  function ReadGrouped(w: string): Option<nat> {
    var digits := Remove(w, '_');
    if w == "" || w[0] == '_' || w[|w| - 1] == '_' || (exists i :: 0 < i < |w| && w[i - 1] == '_' && w[i] == '_') || !IsDigits(digits, 16)
    then None
    else Some(Value(digits, 16))
  }

  /** `int(s, 16)` of a text without a minus sign: an optional plus sign and an optional `0x`, in either case. */
  function ReadHex(s: string): Option<nat> {
    var t := Text.Trim(s, IntSpace);
    var u := if t != "" && t[0] == '+' then t[1..] else t;
    if |u| >= 2 && u[0] == '0' && (u[1] == 'x' || u[1] == 'X') then ReadGrouped(if |u| >= 3 && u[2] == '_' then u[3..] else u[2..])
    else ReadGrouped(u)
  }

  /** `UUID(s)`: 32 characters must remain, and stand for a number of 128 bits. */
  function ParseUuid(s: string): Option<Uuid> {
    var h := UuidDigits(s);
    if |h| != 32 then None
    else match ReadHex(h)
      case None => None
      case Some(n) => if n < UUID_LIMIT then Some(n) else None
  }

  lemma {:induction false} RemoveNothing(s: string, c: char)
    requires c !in s
    ensures Remove(s, c) == s
  {
    if s != "" {
      RemoveNothing(s[1..], c);
    }
  }

  lemma {:induction false} RemoveNoWord(s: string, word: string)
    requires word != "" && word[0] !in s
    ensures RemoveWord(s, word) == s
  {
    if |s| >= |word| {
      assert s[..|word|][0] != word[0];
      RemoveNoWord(s[1..], word);
    }
  }

  lemma TrimNothing(s: string, space: char -> bool)
    requires s != "" && !space(s[0]) && !space(s[|s| - 1])
    ensures Text.Trim(s, space) == s
  {
  }

  lemma PlainDigit(c: char)
    requires DigitValue(c).Some?
    ensures c != '_' && c != '+' && c != 'x' && c != 'X' && !IntSpace(c)
  {
  }

  lemma ReadDigits(h: string)
    requires h != "" && IsDigits(h, 16)
    ensures ReadHex(h) == Some(Value(h, 16))
  {
    PlainDigit(h[0]);
    PlainDigit(h[|h| - 1]);
    TrimNothing(h, IntSpace);
    if |h| >= 2 { PlainDigit(h[1]); }
    forall c | c in h ensures c != '_' {
      PlainDigit(c);
    }
    RemoveNothing(h, '_');
  }

  lemma PowUuid()
    ensures Pow(16, 32) == UUID_LIMIT
  {
    assert Pow(16, 8) == 0x1_0000_0000;
    assert Pow(16, 16) == 0x1_0000_0000_0000_0000;
    assert Pow(16, 24) == 0x1_0000_0000_0000_0000_0000_0000;
  }

  lemma {:induction false} RemoveDashesGroup(head: string, rest: string)
    requires '-' !in head
    ensures Remove(Group(head, rest), '-') == head + Remove(rest, '-')
  {
    if head == "" {
      assert Group(head, rest)[1..] == rest;
    } else {
      assert Group(head, rest)[1..] == Group(head[1..], rest);
      RemoveDashesGroup(head[1..], rest);
    }
  }

  lemma RemoveDashesGroups(a: string, b: string, c: string, d: string, e: string)
    requires '-' !in a && '-' !in b && '-' !in c && '-' !in d && '-' !in e
    ensures Remove(Group(a, Group(b, Group(c, Group(d, e)))), '-') == a + (b + (c + (d + e)))
  {
    RemoveNothing(e, '-');
    RemoveDashesGroup(d, e);
    RemoveDashesGroup(c, Group(d, e));
    RemoveDashesGroup(b, Group(c, Group(d, e)));
    RemoveDashesGroup(a, Group(b, Group(c, Group(d, e))));
  }

  lemma Regroup(h: string)
    requires |h| == 32
    ensures h == h[..8] + (h[8..12] + (h[12..16] + (h[16..20] + h[20..])))
  {
    assert h[16..] == h[16..20] + h[20..];
    assert h[12..] == h[12..16] + h[16..];
    assert h[8..] == h[8..12] + h[12..];
  }

  lemma RemoveDashesPrinted(u: Uuid)
    ensures Remove(PrintUuid(u), '-') == Fixed(u, 16, 32)
  {
    var h := Fixed(u, 16, 32);
    Regroup(h);
    RemoveDashesGroups(h[..8], h[8..12], h[12..16], h[16..20], h[20..]);
  }

  lemma PrintedChar(c: char)
    requires c in "0123456789abcdef-"
    ensures c != 'u' && !Brace(c)
  {
  }

  lemma PrintedChars(u: Uuid)
    ensures forall c :: c in PrintUuid(u) ==> c != 'u' && !Brace(c)
  {
    forall c | c in PrintUuid(u) ensures c != 'u' && !Brace(c) {
      PrintedChar(c);
    }
  }

  lemma OnlyDashesGo(s: string)
    requires s != "" && forall c :: c in s ==> c != 'u' && !Brace(c)
    ensures UuidDigits(s) == Remove(s, '-')
  {
    RemoveNoWord(s, "urn:");
    RemoveNoWord(s, "uuid:");
    TrimNothing(s, Brace);
  }

  lemma PrintedDigits(u: Uuid)
    ensures UuidDigits(PrintUuid(u)) == Fixed(u, 16, 32)
  {
    PrintedChars(u);
    OnlyDashesGo(PrintUuid(u));
    RemoveDashesPrinted(u);
  }

  lemma UuidRoundTrip(u: Uuid)
    ensures ParseUuid(PrintUuid(u)) == Some(u)
  {
    PrintedDigits(u);
    PowUuid();
    FixedRoundTrip(u, 16, 32);
    ReadDigits(Fixed(u, 16, 32));
  }

  // ---------------------------------------------------------------- timestamps

  datatype Moment = Moment(year: nat, month: nat, day: nat, hour: nat, minute: nat, second: nat, micro: nat)

  function DaysInMonth(year: nat, month: nat): nat {
    if month == 2 then
      if year % 4 == 0 && (year % 100 != 0 || year % 400 == 0) then 29 else 28
    else if month in {4, 6, 9, 11} then 30
    else 31
  }

  predicate OnCalendar(m: Moment) {
    && 1 <= m.year <= 9999 && 1 <= m.month <= 12 && 1 <= m.day <= DaysInMonth(m.year, m.month)
    && m.hour < 24 && m.minute < 60 && m.second < 60 && m.micro < 1000000
  }

  /** A timezone-aware instant as the database returns it, in UTC. */
  type Timestamp = m: Moment | OnCalendar(m) witness Moment(1, 1, 1, 0, 0, 0, 0)

  /** A mixed-radix reading that orders UTC timestamps as instants. */
  function Instant(t: Timestamp): nat {
    (Minutes(t) * 60 + t.second) * 1000000 + t.micro
  }

  function Minutes(t: Timestamp): nat { (((t.year * 13 + t.month) * 32 + t.day) * 24 + t.hour) * 60 + t.minute }

  function Clock(hour: nat, minute: nat, second: nat): (s: string)
    ensures |s| == 8
    ensures forall i :: 0 <= i < |s| ==> s[i] in "0123456789abcdef-T:.+"
  {
    Fixed(hour, 10, 2) + ":" + Fixed(minute, 10, 2) + ":" + Fixed(second, 10, 2)
  }

  function Date(year: nat, month: nat, day: nat): (s: string)
    ensures |s| == 10
    ensures forall i :: 0 <= i < |s| ==> s[i] in "0123456789abcdef-T:.+"
  {
    Fixed(year, 10, 4) + "-" + Fixed(month, 10, 2) + "-" + Fixed(day, 10, 2)
  }

  function Fraction(micro: nat): (s: string)
    ensures forall i :: 0 <= i < |s| ==> s[i] in "0123456789abcdef-T:.+"
  {
    if micro == 0 then "" else "." + Fixed(micro, 10, 6)
  }

  function PrintTimestamp(t: Timestamp): (s: string)
    ensures forall i :: 0 <= i < |s| ==> s[i] in "0123456789abcdef-T:.+"
  {
    Date(t.year, t.month, t.day) + "T" + Clock(t.hour, t.minute, t.second)
    + Fraction(t.micro) + "+00:00"
  }

  function Field(s: string, from: nat, to: nat): Option<nat>
    requires from <= to <= |s|
  {
    if IsDigits(s[from..to], 10) then Some(Value(s[from..to], 10)) else None
  }

  function ParseDate(s: string): Option<(nat, nat, nat)>
    requires |s| == 10
  {
    match (Field(s, 0, 4), Field(s, 5, 7), Field(s, 8, 10))
    case (Some(y), Some(m), Some(d)) => if s[4] == '-' && s[7] == '-' then Some((y, m, d)) else None
    case _ => None
  }

  function ParseClock(s: string): Option<(nat, nat, nat)>
    requires |s| == 8
  {
    match (Field(s, 0, 2), Field(s, 3, 5), Field(s, 6, 8))
    case (Some(h), Some(m), Some(n)) => if s[2] == ':' && s[5] == ':' then Some((h, m, n)) else None
    case _ => None
  }

  function ParseFraction(s: string): Option<nat> {
    if s == "" then Some(0) else if |s| == 7 && s[0] == '.' then Field(s, 1, 7) else None
  }

  /** Reads the spelling `PrintTimestamp` writes; a value without an offset is refused, as a naive datetime is. */
  function ParseTimestamp(s: string): Option<Timestamp> {
    if |s| < 25 || s[10] != 'T' || s[|s| - 6..] != "+00:00" then None
    else match (ParseDate(s[..10]), ParseClock(s[11..19]), ParseFraction(s[19..|s| - 6]))
      case (Some((y, mo, d)), Some((h, mi, se)), Some(us)) =>
        var m := Moment(y, mo, d, h, mi, se, us);
        if OnCalendar(m) then Some(m) else None
      case _ => None
  }

  lemma FieldFixed(s: string, from: nat, n: nat, w: nat)
    requires from + w <= |s| && s[from..from + w] == Fixed(n, 10, w) && n < Pow(10, w)
    ensures Field(s, from, from + w) == Some(n)
  {
    FixedRoundTrip(n, 10, w);
  }

  lemma Widths()
    ensures Pow(10, 2) == 100 && Pow(10, 4) == 10000 && Pow(10, 6) == 1000000
  {
  }

  lemma Spaced(a: string, b: string, c: string, mark: string)
    requires |b| == 2 && |c| == 2 && |mark| == 1
    ensures var s, n := a + mark + b + mark + c, |a|;
      |s| == n + 6 && s[0..n] == a && s[n] == mark[0] && s[n + 1..n + 3] == b && s[n + 3] == mark[0] && s[n + 4..n + 6] == c
  {
  }

  lemma ParseDateParts(year: string, month: string, day: string)
    requires |year| == 4 && |month| == 2 && |day| == 2 && IsDigits(year, 10) && IsDigits(month, 10) && IsDigits(day, 10)
    ensures var s := year + "-" + month + "-" + day;
      |s| == 10 && ParseDate(s) == Some((Value(year, 10), Value(month, 10), Value(day, 10)))
  {
    Spaced(year, month, day, "-");
  }

  lemma ParseClockParts(hour: string, minute: string, second: string)
    requires |hour| == 2 && |minute| == 2 && |second| == 2 && IsDigits(hour, 10) && IsDigits(minute, 10) && IsDigits(second, 10)
    ensures var s := hour + ":" + minute + ":" + second;
      |s| == 8 && ParseClock(s) == Some((Value(hour, 10), Value(minute, 10), Value(second, 10)))
  {
    Spaced(hour, minute, second, ":");
  }

  lemma DateRoundTrip(t: Timestamp)
    ensures ParseDate(Date(t.year, t.month, t.day)) == Some((t.year, t.month, t.day))
  {
    Widths();
    FixedRoundTrip(t.year, 10, 4);
    FixedRoundTrip(t.month, 10, 2);
    FixedRoundTrip(t.day, 10, 2);
    ParseDateParts(Fixed(t.year, 10, 4), Fixed(t.month, 10, 2), Fixed(t.day, 10, 2));
  }

  lemma ClockRoundTrip(t: Timestamp)
    ensures ParseClock(Clock(t.hour, t.minute, t.second)) == Some((t.hour, t.minute, t.second))
  {
    Widths();
    FixedRoundTrip(t.hour, 10, 2);
    FixedRoundTrip(t.minute, 10, 2);
    FixedRoundTrip(t.second, 10, 2);
    ParseClockParts(Fixed(t.hour, 10, 2), Fixed(t.minute, 10, 2), Fixed(t.second, 10, 2));
  }

  lemma FractionRoundTrip(micro: nat)
    requires micro < 1000000
    ensures ParseFraction(Fraction(micro)) == Some(micro)
  {
    Widths();
    if micro != 0 { FieldFixed(Fraction(micro), 1, micro, 6); }
  }

  lemma Pieces(date: string, clock: string, fraction: string, s: string)
    requires |date| == 10 && |clock| == 8 && s == date + "T" + clock + fraction + "+00:00"
    ensures |s| >= 25 && s[10] == 'T' && s[..10] == date && s[11..19] == clock
    ensures s[19..|s| - 6] == fraction && s[|s| - 6..] == "+00:00"
  {
  }

  lemma TimestampRoundTrip(t: Timestamp)
    ensures ParseTimestamp(PrintTimestamp(t)) == Some(t)
  {
    Pieces(Date(t.year, t.month, t.day), Clock(t.hour, t.minute, t.second), Fraction(t.micro), PrintTimestamp(t));
    DateRoundTrip(t);
    ClockRoundTrip(t);
    FractionRoundTrip(t.micro);
  }

  // ---------------------------------------------------------------- the order of instants

  lemma AtLeast(gap: int, radix: nat)
    requires gap >= 1
    ensures gap * radix >= radix
  {
  }

  lemma Apart(a: nat, b: nat, radix: nat)
    requires a < b
    ensures a * radix + radix <= b * radix
  {
    AtLeast(b - a, radix);
    assert (b - a) * radix == b * radix - a * radix;
  }

  lemma Digit(a: nat, x: nat, b: nat, y: nat, radix: nat)
    requires a * radix + x == b * radix + y && x < radix && y < radix
    ensures a == b && x == y
  {
    if a < b { Apart(a, b, radix); }
    if b < a { Apart(b, a, radix); }
  }

  lemma MinutesInjective(t: Timestamp, u: Timestamp)
    requires Minutes(t) == Minutes(u)
    ensures t.year == u.year && t.month == u.month && t.day == u.day && t.hour == u.hour && t.minute == u.minute
  {
    var m, d := t.year * 13 + t.month, (t.year * 13 + t.month) * 32 + t.day;
    Digit(Hours(t), t.minute, Hours(u), u.minute, 60);
    Digit(d, t.hour, (u.year * 13 + u.month) * 32 + u.day, u.hour, 24);
    Digit(m, t.day, u.year * 13 + u.month, u.day, 32);
    Digit(t.year, t.month, u.year, u.month, 13);
  }

  function Hours(t: Timestamp): nat { ((t.year * 13 + t.month) * 32 + t.day) * 24 + t.hour }

  lemma InstantInjective(t: Timestamp, u: Timestamp)
    ensures Instant(t) == Instant(u) ==> t == u
  {
    if Instant(t) == Instant(u) {
      Digit(Minutes(t) * 60 + t.second, t.micro, Minutes(u) * 60 + u.second, u.micro, 1000000);
      Digit(Minutes(t), t.second, Minutes(u), u.second, 60);
      MinutesInjective(t, u);
    }
  }

  lemma ComparedDigit(a: nat, x: nat, b: nat, y: nat, radix: nat)
    requires x < radix && y < radix
    ensures a * radix + x > b * radix + y <==> a > b || (a == b && x > y)
  {
    if a < b { Apart(a, b, radix); }
    if b < a { Apart(b, a, radix); }
  }

  /** One moment is after another, compared from the year down. */
  predicate After(t: Timestamp, u: Timestamp) {
    t.year > u.year || (t.year == u.year && (
    t.month > u.month || (t.month == u.month && (
    t.day > u.day || (t.day == u.day && (
    t.hour > u.hour || (t.hour == u.hour && (
    t.minute > u.minute || (t.minute == u.minute && (
    t.second > u.second || (t.second == u.second && t.micro > u.micro)))))))))))
  }

  lemma MinutesAfter(t: Timestamp, u: Timestamp)
    ensures Minutes(t) > Minutes(u) <==>
      t.year > u.year || (t.year == u.year && (
      t.month > u.month || (t.month == u.month && (
      t.day > u.day || (t.day == u.day && (
      t.hour > u.hour || (t.hour == u.hour && t.minute > u.minute)))))))
    ensures Minutes(t) == Minutes(u) <==>
      t.year == u.year && t.month == u.month && t.day == u.day && t.hour == u.hour && t.minute == u.minute
  {
    var y, z := t.year * 13 + t.month, u.year * 13 + u.month;
    ComparedDigit(Hours(t), t.minute, Hours(u), u.minute, 60);
    ComparedDigit(y * 32 + t.day, t.hour, z * 32 + u.day, u.hour, 24);
    ComparedDigit(y, t.day, z, u.day, 32);
    ComparedDigit(t.year, t.month, u.year, u.month, 13);
    if Minutes(t) == Minutes(u) { MinutesInjective(t, u); }
    if Hours(t) == Hours(u) { HoursInjective(t, u); }
  }

  lemma HoursInjective(t: Timestamp, u: Timestamp)
    requires Hours(t) == Hours(u)
    ensures t.year == u.year && t.month == u.month && t.day == u.day && t.hour == u.hour
  {
    var y, z := t.year * 13 + t.month, u.year * 13 + u.month;
    Digit(y * 32 + t.day, t.hour, z * 32 + u.day, u.hour, 24);
    Digit(y, t.day, z, u.day, 32);
    Digit(t.year, t.month, u.year, u.month, 13);
  }

  /** The number that orders timestamps orders them as dates and clocks do. */
  lemma InstantAfter(t: Timestamp, u: Timestamp)
    ensures Instant(t) > Instant(u) <==> After(t, u)
  {
    ComparedDigit(Minutes(t) * 60 + t.second, t.micro, Minutes(u) * 60 + u.second, u.micro, 1000000);
    ComparedDigit(Minutes(t), t.second, Minutes(u), u.second, 60);
    MinutesAfter(t, u);
    if Minutes(t) * 60 + t.second == Minutes(u) * 60 + u.second { Digit(Minutes(t), t.second, Minutes(u), u.second, 60); }
  }

  // ---------------------------------------------------------------- the spellings, character by character

  lemma Two(n: nat)
    requires n < 100
    ensures Fixed(n, 10, 2) == [DigitChar(n / 10), DigitChar(n % 10)]
  {
    assert Fixed(n / 10 / 10, 10, 0) == "";
    assert Fixed(n / 10, 10, 1) == [DigitChar(n / 10)];
  }

  lemma Four(n: nat)
    requires n < 10000
    ensures Fixed(n, 10, 4) == Fixed(n / 100, 10, 2) + Fixed(n % 100, 10, 2)
  {
    var a, b := n / 100, n % 100;
    Two(b);
    assert n / 10 == a * 10 + b / 10 && n % 10 == b % 10;
    assert n / 10 / 10 == a && (n / 10) % 10 == b / 10;
    assert Fixed(n / 10, 10, 3) == Fixed(a, 10, 2) + [DigitChar(b / 10)];
  }

  lemma Centuries(n: nat)
    ensures n / 100 / 10 == n / 1000
    ensures n % 100 / 10 == n / 10 % 10 && n % 100 % 10 == n % 10
  {
    var q, r := n / 100, n % 100;
    Split(n, 1000, q / 10, 100 * (q % 10) + r);
    Split(n, 10, 10 * q + r / 10, r % 10);
    Split(n / 10, 10, q, r / 10);
  }

  lemma Split(n: nat, b: nat, q: nat, r: nat)
    requires r < b && n == b * q + r
    ensures n / b == q && n % b == r
  {
    assert n == b * (n / b) + n % b;
    Digit(n / b, n % b, q, r, b);
  }

  function TwoDigits(n: nat): string
    requires n < 100
  {
    [DigitChar(n / 10), DigitChar(n % 10)]
  }

  /** Four digits of the year, two each of month, day, hour, minute and second, zero padded, the greatest first. */
  lemma PrintedMoment(t: Timestamp)
    ensures PrintTimestamp(t) ==
      [DigitChar(t.year / 1000), DigitChar(t.year / 100 % 10), DigitChar(t.year / 10 % 10), DigitChar(t.year % 10)]
      + "-" + TwoDigits(t.month) + "-" + TwoDigits(t.day)
      + "T" + (TwoDigits(t.hour) + ":" + TwoDigits(t.minute) + ":" + TwoDigits(t.second))
      + Fraction(t.micro) + "+00:00"
  {
    Year(t.year);
    Two(t.month);
    Two(t.day);
    Two(t.hour);
    Two(t.minute);
    Two(t.second);
  }

  lemma Year(n: nat)
    requires n < 10000
    ensures Fixed(n, 10, 4) == [DigitChar(n / 1000), DigitChar(n / 100 % 10), DigitChar(n / 10 % 10), DigitChar(n % 10)]
  {
    Four(n);
    Two(n / 100);
    Two(n % 100);
    Centuries(n);
  }

  /** The dashes of a printed UUID stand after 8, 12, 16 and 20 of its 32 digits. */
  lemma PrintedPlaces(u: Uuid)
    ensures var s, h := PrintUuid(u), Fixed(u, 16, 32);
      && s[..8] == h[..8] && s[8] == '-' && s[9..13] == h[8..12] && s[13] == '-' && s[14..18] == h[12..16] && s[18] == '-'
      && s[19..23] == h[16..20] && s[23] == '-' && s[24..] == h[20..]
  {
  }
}
