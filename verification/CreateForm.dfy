/** The create form: how successive submissions choose their idempotency keys. */
module CreateForm {
  import opened Wrappers
  import opened Values
  import opened Projects
  import Text

  datatype FormStatus = Idle | Failed

  datatype FormState = FormState(status: FormStatus, key: string, fingerprint: Option<string>, titleError: bool, typeError: bool)

  datatype Access = Unresolved | AuthRequired | Unselected | Selected(accountId: Uuid)

  /** One press of the button, with the two UUIDs the action may draw and the answers it gets. */
  datatype Submission = Submission(
    titleValue: Option<string>, typeValue: Option<string>, keyDraw: string, changeDraw: string, access: Access, created: bool)
  {
    function Title(): string { if titleValue.Some? then Text.ScriptTrim(titleValue.value) else "" }

    function TypeText(): string { if typeValue.Some? then typeValue.value else "" }

    predicate TitleError() { Title() == "" || ScriptLength(Title()) > 255 }

    predicate TypeError() { ParseType(TypeText()).None? }

    predicate Accepted() { !TitleError() && !TypeError() }
  }

  datatype Sent = Sent(accountId: Uuid, title: string, kind: ProjectType, key: string)

  /** `next` is None when the action ends in a redirect. */
  datatype Turn = Turn(next: Option<FormState>, sent: Option<Sent>)

  /** JavaScript counts UTF-16 code units. */
  function ScriptLength(s: string): nat {
    if s == "" then 0 else (if s[0] as int > 0xFFFF then 2 else 1) + ScriptLength(s[1..])
  }

  predicate Hex(c: char) { '0' <= c <= '9' || 'a' <= c <= 'f' || 'A' <= c <= 'F' }

  /** The pattern a usable key matches: versions 1 to 5 of the RFC variant, in either case. */
  predicate UuidText(s: string) {
    && |s| == 36
    && (forall i :: 0 <= i < 36 ==> if i == 8 || i == 13 || i == 18 || i == 23 then s[i] == '-' else Hex(s[i]))
    && '1' <= s[14] <= '5' && (s[19] == '8' || s[19] == '9' || s[19] == 'a' || s[19] == 'b' || s[19] == 'A' || s[19] == 'B')
  }

  function Fingerprint(title: string, kind: string): string { title + "\0" + kind }

  /** A fresh key whenever the content differs from what the kept key was last used for. */
  function ChooseKey(previous: FormState, s: Submission): string {
    if previous.fingerprint.Some? && previous.fingerprint.value != "" && previous.fingerprint.value != Fingerprint(s.Title(), s.TypeText())
    then s.changeDraw
    else if UuidText(previous.key) then previous.key
    else s.keyDraw
  }

  function Submit(previous: FormState, s: Submission): Turn {
    if !s.Accepted() then Turn(Some(previous.(status := Failed, titleError := s.TitleError(), typeError := s.TypeError())), None)
    else
      var key := ChooseKey(previous, s);
      var failed := FormState(Failed, key, Some(Fingerprint(s.Title(), s.TypeText())), false, false);
      match s.access
      case Unresolved => Turn(Some(failed), None)
      case Unselected => Turn(Some(failed), None)
      case AuthRequired => Turn(None, None)
      case Selected(account) =>
        Turn(if s.created then None else Some(failed), Some(Sent(account, s.Title(), ParseType(s.TypeText()).value, key)))
  }

  method CreateProjectAction(previous: FormState, s: Submission) returns (turn: Turn)
    ensures turn == Submit(previous, s)
  {
    var title, kind := s.Title(), s.TypeText();
    var titleError, typeError := false, false;
    if title == "" || ScriptLength(title) > 255 { titleError := true; }
    if ParseType(kind).None? { typeError := true; }
    if titleError || typeError {
      return Turn(Some(previous.(status := Failed, titleError := titleError, typeError := typeError)), None);
    }
    var fingerprint := Fingerprint(title, kind);
    var key := if UuidText(previous.key) then previous.key else s.keyDraw;
    if previous.fingerprint.Some? && previous.fingerprint.value != "" && previous.fingerprint.value != fingerprint {
      key := s.changeDraw;
    }
    var failed := FormState(Failed, key, Some(fingerprint), false, false);
    match s.access
    case Unresolved => turn := Turn(Some(failed), None);
    case AuthRequired => turn := Turn(None, None);
    case Unselected => turn := Turn(Some(failed), None);
    case Selected(account) =>
      var sent := Sent(account, title, ParseType(kind).value, key);
      turn := if s.created then Turn(None, Some(sent)) else Turn(Some(failed), Some(sent));
  }

  /** What an open form sends over a run of submissions; it is gone once the action redirects. */
  function Session(state: FormState, submissions: seq<Submission>): seq<Sent>
    decreases |submissions|
  {
    if submissions == [] then []
    else
      var turn := Submit(state, submissions[0]);
      (if turn.sent.Some? then [turn.sent.value] else [])
      + if turn.next.Some? then Session(turn.next.value, submissions[1..]) else []
  }

  /** A form as the page renders it. */
  datatype Form = Form(key: string, submissions: seq<Submission>)
  {
    function Log(): seq<Sent> { Session(FormState(Idle, key, None, false, false), submissions) }

    function Draws(): set<string> { {key} + Drawn(submissions) }
  }

  function Drawn(submissions: seq<Submission>): set<string> {
    if submissions == [] then {}
    else {submissions[0].keyDraw, submissions[0].changeDraw} + Drawn(submissions[1..])
  }

  /** The UUIDs drawn during a session differ from each other and from those drawn before. */
  predicate FreshDraws(used: set<string>, submissions: seq<Submission>)
    decreases |submissions|
  {
    submissions == []
    || (var s := submissions[0];
        && s.keyDraw !in used && s.changeDraw !in used && s.keyDraw != s.changeDraw
        && FreshDraws(used + {s.keyDraw, s.changeDraw}, submissions[1..]))
  }

  predicate FreshForms(used: set<string>, forms: seq<Form>)
    decreases |forms|
  {
    forms == []
    || (&& forms[0].key !in used && FreshDraws(used + {forms[0].key}, forms[0].submissions)
        && FreshForms(used + forms[0].Draws(), forms[1..]))
  }

  // ---------------------------------------------------------------- the fingerprint

  lemma FingerprintInjective(title: string, kind: string, title': string, kind': string)
    requires ParseType(kind).Some? && ParseType(kind').Some? && Fingerprint(title, kind) == Fingerprint(title', kind')
    ensures title == title' && kind == kind'
  {
    LastNul(title, kind);
    LastNul(title', kind');
    var f, n := Fingerprint(title, kind), |title|;
    assert n == |title'|;
    assert title == f[..n] && title' == f[..n] && kind == f[n + 1..] && kind' == f[n + 1..];
  }

  /** The separator is the last NUL of a fingerprint. */
  lemma LastNul(title: string, kind: string)
    requires ParseType(kind).Some?
    ensures var f := Fingerprint(title, kind); f[|title|] == '\0' && forall i :: |title| < i < |f| ==> f[i] != '\0'
  {
    assert forall i :: 0 <= i < |kind| ==> kind[i] != '\0';
  }

  predicate SameContent(a: Sent, b: Sent) { a.title == b.title && a.kind == b.kind }

  function SentPrint(a: Sent): string { Fingerprint(a.title, TypeName(a.kind)) }

  lemma SamePrint(a: Sent, b: Sent)
    ensures SentPrint(a) == SentPrint(b) <==> SameContent(a, b)
  {
    NamesRoundTrip(a.kind, Draft);
    NamesRoundTrip(b.kind, Draft);
    if SentPrint(a) == SentPrint(b) {
      FingerprintInjective(a.title, TypeName(a.kind), b.title, TypeName(b.kind));
    }
  }

  // ---------------------------------------------------------------- keys and contents

  /** A message that can follow a state: under a key not drawn so far, or the kept key with the kept content. */
  predicate Follows(state: FormState, used: set<string>, a: Sent) {
    a.key !in used || (a.key == state.key && (state.fingerprint.Some? ==> state.fingerprint == Some(SentPrint(a))))
  }

  ghost predicate OneContentPerKey(log: seq<Sent>) {
    forall i, j :: 0 <= i < |log| && 0 <= j < |log| && log[i].key == log[j].key ==> SameContent(log[i], log[j])
  }

  predicate Kept(state: FormState, used: set<string>) {
    state.key in used && state.fingerprint != Some("")
  }

  lemma TurnKeeps(state: FormState, used: set<string>, s: Submission)
    requires Kept(state, used)
    ensures var turn, used' := Submit(state, s), used + {s.keyDraw, s.changeDraw};
      && (turn.next.Some? ==> Kept(turn.next.value, used'))
      && (turn.next.Some? && turn.sent.Some? ==>
            turn.next.value.key == turn.sent.value.key && turn.next.value.fingerprint == Some(SentPrint(turn.sent.value)))
      && (turn.sent.Some? ==> turn.sent.value.key in used')
  {
    if s.Accepted() {
      ParsedName(s.TypeText());
      assert |Fingerprint(s.Title(), s.TypeText())| > 0;
    }
  }

  /** Nothing a turn leads to goes back to a key that was dropped. */
  lemma TurnFollows(state: FormState, used: set<string>, s: Submission, a: Sent)
    requires Kept(state, used) && s.keyDraw !in used && s.changeDraw !in used
    requires var turn := Submit(state, s);
      || turn.sent == Some(a)
      || (turn.next.Some? && Follows(turn.next.value, used + {s.keyDraw, s.changeDraw}, a))
    ensures Follows(state, used, a)
  {
    if s.Accepted() { ParsedName(s.TypeText()); }
  }

  lemma {:induction false} SessionFollows(state: FormState, used: set<string>, submissions: seq<Submission>)
    requires Kept(state, used) && FreshDraws(used, submissions)
    ensures forall a :: a in Session(state, submissions) ==> Follows(state, used, a) && a.key in used + Drawn(submissions)
    ensures OneContentPerKey(Session(state, submissions))
    decreases |submissions|
  {
    if submissions != [] {
      var s, used' := submissions[0], used + {submissions[0].keyDraw, submissions[0].changeDraw};
      var turn := Submit(state, s);
      TurnKeeps(state, used, s);
      var rest := if turn.next.Some? then Session(turn.next.value, submissions[1..]) else [];
      if turn.next.Some? { SessionFollows(turn.next.value, used', submissions[1..]); }
      forall a | a in Session(state, submissions) ensures Follows(state, used, a) && a.key in used + Drawn(submissions) {
        TurnFollows(state, used, s, a);
      }
      if turn.sent.Some? { PrependContent(turn.sent.value, rest); }
    }
  }

  lemma PrependContent(a: Sent, rest: seq<Sent>)
    requires OneContentPerKey(rest) && forall b :: b in rest && b.key == a.key ==> SentPrint(b) == SentPrint(a)
    ensures OneContentPerKey([a] + rest)
  {
    forall b | b in rest && b.key == a.key ensures SameContent(a, b) {
      SamePrint(a, b);
    }
  }

  ghost predicate SentBy(forms: seq<Form>, a: Sent) { exists f :: 0 <= f < |forms| && a in forms[f].Log() }

  lemma FormLog(used: set<string>, form: Form)
    requires form.key !in used && FreshDraws(used + {form.key}, form.submissions)
    ensures forall a :: a in form.Log() ==> a.key !in used && a.key in form.Draws()
    ensures OneContentPerKey(form.Log())
  {
    var state := FormState(Idle, form.key, None, false, false);
    SessionFollows(state, used + {form.key}, form.submissions);
    forall a | a in form.Log() ensures a.key !in used && a.key in form.Draws() {
      assert Follows(state, used + {form.key}, a);
    }
  }

  lemma LaterForm(forms: seq<Form>, a: Sent)
    requires SentBy(forms, a)
    ensures forms != [] && (a in forms[0].Log() || SentBy(forms[1..], a))
  {
    var f :| 0 <= f < |forms| && a in forms[f].Log();
    if f > 0 { assert forms[1..][f - 1] == forms[f]; }
  }

  /** Over every run of every form a key is never sent with two contents. */
  lemma {:induction false} KeysAreNotReused(used: set<string>, forms: seq<Form>, a: Sent, b: Sent)
    requires FreshForms(used, forms) && SentBy(forms, a) && SentBy(forms, b)
    ensures a.key !in used && (a.key == b.key ==> SameContent(a, b))
    decreases |forms|
  {
    var form, used' := forms[0], used + forms[0].Draws();
    FormLog(used, form);
    LaterForm(forms, a);
    LaterForm(forms, b);
    if a in form.Log() {
      if b !in form.Log() { KeysAreNotReused(used', forms[1..], b, b); }
    } else if b in form.Log() {
      KeysAreNotReused(used', forms[1..], a, a);
    } else {
      KeysAreNotReused(used', forms[1..], a, b);
    }
  }

  // ---------------------------------------------------------------- unchanged content

  predicate UuidDraws(submissions: seq<Submission>) {
    forall i :: 0 <= i < |submissions| ==> UuidText(submissions[i].keyDraw) && UuidText(submissions[i].changeDraw)
  }

  /** All submissions carry this content, once the title is trimmed. */
  predicate Unchanged(submissions: seq<Submission>, title: string, kind: string) {
    forall i :: 0 <= i < |submissions| ==> submissions[i].Title() == title && submissions[i].TypeText() == kind
  }

  lemma {:induction false} KeptKey(state: FormState, submissions: seq<Submission>, title: string, kind: string)
    requires UuidText(state.key) && state.fingerprint == Some(Fingerprint(title, kind)) && Unchanged(submissions, title, kind)
    ensures forall a :: a in Session(state, submissions) ==> a.key == state.key
    decreases |submissions|
  {
    if submissions != [] {
      var turn := Submit(state, submissions[0]);
      if turn.next.Some? { KeptKey(turn.next.value, submissions[1..], title, kind); }
    }
  }

  /** The first accepted submission of a stretch fixes its key. */
  lemma FirstKey(state: FormState, s: Submission, rest: seq<Submission>, title: string, kind: string)
    requires s.Accepted() && UuidText(s.keyDraw) && UuidText(s.changeDraw)
    requires s.Title() == title && s.TypeText() == kind && Unchanged(rest, title, kind)
    ensures forall a :: a in Session(state, [s] + rest) ==> a.key == ChooseKey(state, s)
  {
    var turn := Submit(state, s);
    assert ([s] + rest)[1..] == rest;
    if turn.next.Some? { KeptKey(turn.next.value, rest, title, kind); }
  }

  /** A stretch of consecutive submissions with unchanged content uses one key, whatever the state it starts in. */
  lemma {:induction false} StretchUsesOneKey(state: FormState, submissions: seq<Submission>, title: string, kind: string)
    returns (key: string)
    requires UuidDraws(submissions) && Unchanged(submissions, title, kind)
    ensures forall a :: a in Session(state, submissions) ==> a.key == key
    decreases |submissions|
  {
    if submissions == [] {
      key := "";
    } else {
      var s, rest := submissions[0], submissions[1..];
      assert submissions == [s] + rest;
      if s.Accepted() {
        FirstKey(state, s, rest, title, kind);
        key := ChooseKey(state, s);
      } else {
        key := StretchUsesOneKey(Submit(state, s).next.value, rest, title, kind);
      }
    }
  }

  // ---------------------------------------------------------------- one turn, case by case

  /** What the key of an accepted submission is: fresh for changed content, else the kept one if it is usable, else fresh. */
  predicate Keyed(previous: FormState, s: Submission, key: string) {
    var content := s.Title() + "\0" + s.TypeText();
    if previous.fingerprint.Some? && previous.fingerprint.value != "" && previous.fingerprint.value != content then key == s.changeDraw
    else key == if UuidText(previous.key) then previous.key else s.keyDraw
  }

  /**
   A refused submission keeps key and content and flags exactly its bad fields; an accepted one keeps its key and content
   unless it ends in a redirect, and is sent, trimmed, exactly when an account is selected.
   */
  lemma TurnExactly(previous: FormState, s: Submission)
    ensures var turn, title, kind := Submit(previous, s), s.Title(), s.TypeText();
      var badTitle, badType := title == "" || ScriptLength(title) > 255, kind != "landing" && kind != "corporate" && kind != "portfolio";
      if badTitle || badType then
        turn.sent.None? && turn.next == Some(FormState(Failed, previous.key, previous.fingerprint, badTitle, badType))
      else
        && (turn.sent.Some? <==> s.access.Selected?)
        && (turn.sent.Some? ==>
              && turn.sent.value.accountId == s.access.accountId && turn.sent.value.title == title
              && TypeName(turn.sent.value.kind) == kind && Keyed(previous, s, turn.sent.value.key))
        && (turn.next.None? <==> s.access.AuthRequired? || (s.access.Selected? && s.created))
        && (turn.next.Some? ==>
              && turn.next.value.status == Failed && turn.next.value.fingerprint == Some(title + "\0" + kind)
              && !turn.next.value.titleError && !turn.next.value.typeError && Keyed(previous, s, turn.next.value.key))
  {
    if s.Accepted() { ParsedName(s.TypeText()); }
  }

  /** A text is as long as its characters, and one more for each outside the basic plane. */
  lemma {:induction false} ScriptLengthExactly(s: string)
    ensures ScriptLength(s) == |s| + |Beyond(s)|
  {
    if s != "" {
      ScriptLengthExactly(s[1..]);
    }
  }

  function Beyond(s: string): string {
    if s == "" then "" else (if s[0] > '\U{FFFF}' then [s[0]] else "") + Beyond(s[1..])
  }
}
