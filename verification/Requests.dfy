/** What a project call checks before it opens its transaction. */
module Requests {
  import opened Wrappers
  import opened Values
  import opened Projects
  import opened Identity
  import Text
  import ProjectRuns

  datatype TenantContext = TenantContext(subjectId: Uuid, accountId: Uuid, role: Role, membershipStatus: MembershipStatus)

  datatype Command =
    | CreateCommand(title: string, kind: string, key: string)
    | UpdateCommand(projectId: Uuid, title: string, expected: Option<Timestamp>)
    | ArchiveCommand(projectId: Uuid)
    | DeleteCommand(projectId: Uuid)

  datatype Denial = PermissionDenied | Invalid

  predicate Privileged(context: TenantContext) { context.role.Owner? || context.role.Admin? }

  /**
   The operation a call brings to its transaction; `freshId` is what the id factory yields. An `expected` of None is a
   timestamp without a timezone.
   */
  function Prepare(context: TenantContext, command: Command, freshId: Uuid): Result<ProjectRuns.Op, Denial> {
    if context.membershipStatus != MembershipStatus.Active then Err(PermissionDenied)
    else match command
      case CreateCommand(title, kind, key) =>
        (match (ValidateTitle(title), ParseType(kind))
         case (Some(t), Some(k)) =>
           if Text.Strip(key) == "" then Err(Invalid)
           else Ok(ProjectRuns.Create(context.accountId, context.subjectId, key, t, k, Payload(t, k), freshId))
         case _ => Err(Invalid))
      case UpdateCommand(id, title, expected) =>
        (match (ValidateTitle(title), expected)
         case (Some(t), Some(e)) => Ok(ProjectRuns.Retitle(context.accountId, id, t, e))
         case _ => Err(Invalid))
      case ArchiveCommand(id) =>
        if Privileged(context) then Ok(ProjectRuns.Archive(context.accountId, id)) else Err(PermissionDenied)
      case DeleteCommand(id) =>
        if Privileged(context) then Ok(ProjectRuns.Delete(context.accountId, id)) else Err(PermissionDenied)
  }

  /** Between 1 and 255 characters once stripped. */
  predicate GoodTitle(title: string) { 1 <= |Text.Strip(title)| <= 255 }

  predicate GoodType(kind: string) { kind == "landing" || kind == "corporate" || kind == "portfolio" }

  lemma ValidatedExactly(title: string, kind: string)
    ensures ValidateTitle(title) == if GoodTitle(title) then Some(Text.Strip(title)) else None
    ensures ParseType(kind).Some? <==> GoodType(kind)
    ensures ParseType(kind).Some? ==> TypeName(ParseType(kind).value) == kind
  {
  }

  /**
   A call that reaches its transaction is the one that was asked for, field by field: in the caller's own account, by an
   active member, an archive or deletion by an owner or admin, and with the title stripped.
   */
  lemma PreparedOp(context: TenantContext, command: Command, freshId: Uuid)
    requires Prepare(context, command, freshId).Ok?
    ensures var op := Prepare(context, command, freshId).value;
      && op.Valid() && op.accountId == context.accountId && context.membershipStatus.Active?
      && (op.Archive? || op.Delete? ==> Privileged(context))
      && (op.Create? || op.Retitle? ==> ValidateTitle(op.title) == Some(op.title))
      && (match command
          case CreateCommand(title, kind, key) =>
            op.Create? && op.key == key && op.actorId == context.subjectId && op.projectId == freshId
            && op.title == Text.Strip(title) && TypeName(op.kind) == kind
          case UpdateCommand(id, title, expected) =>
            op.Retitle? && op.projectId == id && Some(op.expected) == expected && op.title == Text.Strip(title)
          case ArchiveCommand(id) => op.Archive? && op.projectId == id
          case DeleteCommand(id) => op.Delete? && op.projectId == id)
  {
    if command.CreateCommand? {
      ValidateTitleIdempotent(command.title);
      ValidatedExactly(command.title, command.kind);
    } else if command.UpdateCommand? {
      ValidateTitleIdempotent(command.title);
      ValidatedExactly(command.title, "landing");
    }
  }

  /**
   A call is denied exactly to inactive members, and to plain members who archive or delete; and it is invalid exactly for
   a title that is empty or longer than 255 once stripped, an unknown type, a blank key, or a timestamp without timezone.
   */
  lemma RefusedExactly(context: TenantContext, command: Command, freshId: Uuid)
    ensures Prepare(context, command, freshId) == Err(PermissionDenied) <==>
      !context.membershipStatus.Active? || ((command.ArchiveCommand? || command.DeleteCommand?) && context.role.Member?)
    ensures Prepare(context, command, freshId) == Err(Invalid) <==>
      context.membershipStatus.Active?
      && match command
         case CreateCommand(title, kind, key) => !GoodTitle(title) || !GoodType(kind) || Text.Strip(key) == ""
         case UpdateCommand(_, title, expected) => !GoodTitle(title) || expected.None?
         case ArchiveCommand(_) => false
         case DeleteCommand(_) => false
  {
    if command.CreateCommand? { ValidatedExactly(command.title, command.kind); }
    else if command.UpdateCommand? { ValidatedExactly(command.title, "landing"); }
  }

  lemma PreparedCreate(context: TenantContext, command: Command, freshId: Uuid) returns (op: ProjectRuns.Op)
    requires command.CreateCommand? && Prepare(context, command, freshId).Ok?
    ensures Prepare(context, command, freshId) == Ok(op) && op.Valid()
    ensures op.Create? && op.title == Text.Strip(command.title) && TypeName(op.kind) == command.kind
  {
    op := Prepare(context, command, freshId).value;
    PreparedOp(context, command, freshId);
  }

  lemma SameInputs(p: ProjectRuns.Op, q: ProjectRuns.Op)
    requires p.Create? && q.Create? && p.Valid() && q.Valid()
    ensures p.payload == q.payload <==> p.title == q.title && TypeName(p.kind) == TypeName(q.kind)
  {
    PayloadInjective(p.title, p.kind, q.title, q.kind);
    NamesRoundTrip(p.kind, Draft);
    NamesRoundTrip(q.kind, Draft);
  }

  /** The payloads of two creates agree exactly when their types do and their titles do once stripped. */
  lemma SamePayload(c: TenantContext, d: TenantContext, a: Command, b: Command, i: Uuid, j: Uuid)
    returns (p: ProjectRuns.Op, q: ProjectRuns.Op)
    requires a.CreateCommand? && b.CreateCommand? && Prepare(c, a, i).Ok? && Prepare(d, b, j).Ok?
    ensures Prepare(c, a, i) == Ok(p) && Prepare(d, b, j) == Ok(q) && p.Create? && q.Create?
    ensures p.payload == q.payload <==> Text.Strip(a.title) == Text.Strip(b.title) && a.kind == b.kind
  {
    p := PreparedCreate(c, a, i);
    q := PreparedCreate(d, b, j);
    SameInputs(p, q);
  }
}
