/** The Project entity, its title rule, the stored create snapshot and the canonical create payload. */
module Projects {
  import opened Wrappers
  import opened Values
  import Json
  import Text

  datatype ProjectType = Landing | Corporate | Portfolio

  datatype Status = Draft | Active | AwaitingApproval | Approved | Generating | Delivered | Archived

  datatype Project = Project(
    id: Uuid, accountId: Uuid, ownerId: Uuid, title: string, projectType: ProjectType, status: Status,
    contextVersion: nat, createdAt: Timestamp, updatedAt: Timestamp, deletedAt: Option<Timestamp>)
  {
    predicate ReadOnly() { status.Archived? || deletedAt.Some? }
  }

  const MAX_TITLE_LENGTH: nat := 255

  /** The stripped title, or None for an empty or overlong one. */
  function ValidateTitle(value: string): Option<string> {
    var normalized := Text.Strip(value);
    if normalized == "" || |normalized| > MAX_TITLE_LENGTH then None else Some(normalized)
  }

  lemma ValidateTitleIdempotent(value: string)
    requires ValidateTitle(value).Some?
    ensures ValidateTitle(ValidateTitle(value).value) == ValidateTitle(value)
  {
    Text.TrimIdempotent(value, Text.PythonSpace);
  }

  function TypeName(t: ProjectType): string {
    match t case Landing => "landing" case Corporate => "corporate" case Portfolio => "portfolio"
  }

  function ParseType(s: string): Option<ProjectType> {
    if s == "landing" then Some(Landing) else if s == "corporate" then Some(Corporate)
    else if s == "portfolio" then Some(Portfolio) else None
  }

  function StatusName(s: Status): string {
    match s
    case Draft => "draft"
    case Active => "active"
    case AwaitingApproval => "awaiting_approval"
    case Approved => "approved"
    case Generating => "generating"
    case Delivered => "delivered"
    case Archived => "archived"
  }

  function ParseStatus(s: string): Option<Status> {
    if s == "draft" then Some(Draft) else if s == "active" then Some(Active)
    else if s == "awaiting_approval" then Some(AwaitingApproval) else if s == "approved" then Some(Approved)
    else if s == "generating" then Some(Generating) else if s == "delivered" then Some(Delivered)
    else if s == "archived" then Some(Archived) else None
  }

  /** The members of the stored JSON document. */
  datatype Snapshot = Snapshot(
    id: string, accountId: string, ownerId: string, title: string, projectType: string, status: string,
    contextVersion: int, createdAt: string, updatedAt: string)

  function ToSnapshot(p: Project): Snapshot {
    Snapshot(PrintUuid(p.id), PrintUuid(p.accountId), PrintUuid(p.ownerId), p.title, TypeName(p.projectType),
             StatusName(p.status), p.contextVersion, PrintTimestamp(p.createdAt), PrintTimestamp(p.updatedAt))
  }

  function FromSnapshot(s: Snapshot): Option<Project> {
    match (ParseUuid(s.id), ParseUuid(s.accountId), ParseUuid(s.ownerId), ValidateTitle(s.title), ParseType(s.projectType),
           ParseStatus(s.status), ParseTimestamp(s.createdAt), ParseTimestamp(s.updatedAt))
    case (Some(id), Some(account), Some(owner), Some(_), Some(kind), Some(status), Some(created), Some(updated)) =>
      if s.contextVersion < 0 then None
      else Some(Project(id, account, owner, s.title, kind, status, s.contextVersion, created, updated, None))
    case _ => None
  }

  lemma NamesRoundTrip(t: ProjectType, s: Status)
    ensures ParseType(TypeName(t)) == Some(t)
    ensures ParseStatus(StatusName(s)) == Some(s)
  {
  }

  lemma ParsedName(s: string)
    requires ParseType(s).Some?
    ensures TypeName(ParseType(s).value) == s
  {
  }

  /** Reading a stored snapshot gives back the project it was taken from, deletion mark aside. */
  lemma SnapshotRoundTrip(p: Project)
    requires ValidateTitle(p.title).Some?
    ensures FromSnapshot(ToSnapshot(p)) == Some(p.(deletedAt := None))
  {
    UuidRoundTrip(p.id);
    UuidRoundTrip(p.accountId);
    UuidRoundTrip(p.ownerId);
    TimestampRoundTrip(p.createdAt);
    TimestampRoundTrip(p.updatedAt);
    NamesRoundTrip(p.projectType, p.status);
  }

  /** The text whose SHA-256 the reservation stores; the digest is taken to be collision free. */
  function Payload(title: string, kind: ProjectType): string {
    Json.PrintObject([Json.Member("project_type", TypeName(kind)), Json.Member("title", title)])
  }

  lemma PayloadInjective(title: string, kind: ProjectType, title': string, kind': ProjectType)
    ensures Payload(title, kind) == Payload(title', kind') <==> title == title' && kind == kind'
  {
    var ms := [Json.Member("project_type", TypeName(kind)), Json.Member("title", title)];
    var ms' := [Json.Member("project_type", TypeName(kind')), Json.Member("title", title')];
    Json.ObjectRoundTrip(ms);
    Json.ObjectRoundTrip(ms');
    if Payload(title, kind) == Payload(title', kind') {
      assert ms == ms';
      assert ms[0] == ms'[0] && ms[1] == ms'[1];
      NamesRoundTrip(kind, Draft);
      NamesRoundTrip(kind', Draft);
    }
  }

  /** The stored vocabularies. */
  lemma Vocabularies()
    ensures TypeName(Landing) == "landing" && TypeName(Corporate) == "corporate" && TypeName(Portfolio) == "portfolio"
    ensures StatusName(Draft) == "draft" && StatusName(Active) == "active" && StatusName(AwaitingApproval) == "awaiting_approval"
    ensures StatusName(Approved) == "approved" && StatusName(Generating) == "generating"
    ensures StatusName(Delivered) == "delivered" && StatusName(Archived) == "archived"
  {
  }

  /** The canonical payload, written out piece by piece; of the pieces only the title is escaped. */
  lemma PayloadText(title: string, kind: ProjectType)
    ensures Payload(title, kind) ==
      "{" + ("\"" + "project_type" + "\"" + (":" + ("\"" + TypeName(kind) + "\""
      + ("," + ("\"" + "title" + "\"" + (":" + ("\"" + Json.Escape(title) + "\"" + "}")))))))
  {
    Json.PrintedPair("project_type", TypeName(kind), "title", title);
    Quoted();
    TypeLetters(kind);
    QuoteLetters(TypeName(kind));
  }

  predicate Letters(s: string) { forall i :: 0 <= i < |s| ==> 'a' <= s[i] <= 'z' || s[i] == '_' }

  lemma QuoteLetters(s: string)
    requires Letters(s)
    ensures Json.Quote(s) == "\"" + s + "\""
  {
    Json.QuotePlain(s);
  }

  lemma Quoted()
    ensures Json.Quote("project_type") == "\"" + "project_type" + "\"" && Json.Quote("title") == "\"" + "title" + "\""
  {
    assert Letters("project_type") && Letters("title");
    QuoteLetters("project_type");
    QuoteLetters("title");
  }

  lemma TypeLetters(kind: ProjectType)
    ensures Letters(TypeName(kind))
  {
    assert Letters("landing") && Letters("corporate") && Letters("portfolio");
  }
}
