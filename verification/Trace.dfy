/** Trace contexts: a context variable, blocks that bind it, enrichment inside them, and the form jobs carry. */
module Trace {
  import opened Wrappers
  import opened Values

  datatype TraceContext = TraceContext(
    correlationId: string, requestId: Option<string>, accountId: Option<string>, projectId: Option<string>, jobId: Option<string>)

  /** `str(UUID(value))`, or None for a value that is no UUID. */
  function UuidString(value: string): Option<string> {
    match ParseUuid(value) case None => None case Some(u) => Some(PrintUuid(u))
  }

  predicate Canonical(value: string) { UuidString(value) == Some(value) }

  lemma UuidStringCanonical(value: string)
    ensures UuidString(value).Some? ==> Canonical(UuidString(value).value)
  {
    match ParseUuid(value) case None => case Some(u) => PrintCanonical(u);
  }

  lemma PrintCanonical(u: Uuid)
    ensures Canonical(PrintUuid(u))
  {
    UuidRoundTrip(u);
  }

  // ---------------------------------------------------------------- enrichment

  predicate UuidOrAbsent(value: Option<string>) { value.Some? ==> UuidString(value.value).Some? }

  function Named(value: Option<string>, otherwise: Option<string>): Option<string>
    requires UuidOrAbsent(value)
  {
    if value.Some? then UuidString(value.value) else otherwise
  }

  /** The enriched context, or None where the call raises: no context, nothing named, or a value that is no UUID. */
  function Enriched(current: Option<TraceContext>, account: Option<string>, project: Option<string>, job: Option<string>): Option<TraceContext> {
    if current.None? || (account.None? && project.None? && job.None?)
       || !UuidOrAbsent(account) || !UuidOrAbsent(project) || !UuidOrAbsent(job)
    then None
    else
      var c := current.value;
      Some(c.(accountId := Named(account, c.accountId), projectId := Named(project, c.projectId), jobId := Named(job, c.jobId)))
  }

  /** The id a call named: the same UUID in canonical spelling; an id it did not name stays. */
  predicate Names(given: Option<string>, before: Option<string>, after: Option<string>) {
    if given.None? then after == before
    else after.Some? && Canonical(after.value) && ParseUuid(after.value) == ParseUuid(given.value)
  }

  lemma UuidStringNames(given: string, before: Option<string>)
    requires UuidString(given).Some?
    ensures Names(Some(given), before, UuidString(given))
  {
    match ParseUuid(given)
    case None =>
    case Some(u) =>
      PrintCanonical(u);
      UuidRoundTrip(u);
  }

  /** Enrichment names exactly what it is given, and is refused exactly without a context, without ids, or for a value that is no UUID. */
  lemma EnrichedIds(c: TraceContext, account: Option<string>, project: Option<string>, job: Option<string>)
    ensures Enriched(None, account, project, job).None?
    ensures Enriched(Some(c), account, project, job).Some? <==>
      (account.Some? || project.Some? || job.Some?) && UuidOrAbsent(account) && UuidOrAbsent(project) && UuidOrAbsent(job)
    ensures Enriched(Some(c), account, project, job).Some? ==>
      var d := Enriched(Some(c), account, project, job).value;
      && Names(account, c.accountId, d.accountId) && Names(project, c.projectId, d.projectId) && Names(job, c.jobId, d.jobId)
      && d.correlationId == c.correlationId && d.requestId == c.requestId
  {
    if account.Some? && UuidOrAbsent(account) { UuidStringNames(account.value, c.accountId); }
    if project.Some? && UuidOrAbsent(project) { UuidStringNames(project.value, c.projectId); }
    if job.Some? && UuidOrAbsent(job) { UuidStringNames(job.value, c.jobId); }
  }

  // ---------------------------------------------------------------- programs

  /** What code does with the variable: enrich, bind a context around a block, raise, or catch what a block raises. */
  datatype Statement =
    | Enrich(account: Option<string>, project: Option<string>, job: Option<string>)
    | Bind(context: TraceContext, body: seq<Statement>)
    | Raise
    | Try(guarded: seq<Statement>)

  datatype State = State(current: Option<TraceContext>, raised: bool)

  function Execute(p: seq<Statement>, s: State): State
    decreases p
  {
    if p == [] || s.raised then s else Execute(p[1..], ExecuteOne(p[0], s.current))
  }

  function ExecuteOne(statement: Statement, current: Option<TraceContext>): State
    decreases statement
  {
    match statement
    case Enrich(account, project, job) =>
      var enriched := Enriched(current, account, project, job);
      if enriched.Some? then State(enriched, false) else State(current, true)
    case Bind(context, body) => State(current, Execute(body, State(Some(context), false)).raised)
    case Raise => State(current, true)
    case Try(guarded) => State(Execute(guarded, State(current, false)).current, false)
  }

  class ContextVariable {
    var current: Option<TraceContext>

    /** `ContextVar.set`, whose token remembers the value replaced. */
    method Set(value: Option<TraceContext>) returns (token: Option<TraceContext>)
      modifies this
      ensures token == old(current) && current == value
    {
      token := current;
      current := value;
    }

    method Reset(token: Option<TraceContext>)
      modifies this
      ensures current == token
    {
      current := token;
    }

    method EnrichTraceContext(account: Option<string>, project: Option<string>, job: Option<string>) returns (enriched: Option<TraceContext>)
      modifies this
      ensures enriched == Enriched(old(current), account, project, job)
      ensures current == if enriched.Some? then enriched else old(current)
    {
      if current.None? || (account.None? && project.None? && job.None?) { return None; }
      var context := current.value;
      if account.Some? {
        if UuidString(account.value).None? { return None; }
        context := context.(accountId := UuidString(account.value));
      }
      if project.Some? {
        if UuidString(project.value).None? { return None; }
        context := context.(projectId := UuidString(project.value));
      }
      if job.Some? {
        if UuidString(job.value).None? { return None; }
        context := context.(jobId := UuidString(job.value));
      }
      var token := Set(Some(context));
      enriched := Some(context);
    }

    /** Runs a block; `raised` tells whether an exception leaves it. */
    method Run(p: seq<Statement>) returns (raised: bool)
      modifies this
      ensures State(current, raised) == Execute(p, State(old(current), false))
      decreases p, 0
    {
      raised := false;
      var rest := p;
      while rest != [] && !raised
        invariant Execute(p, State(old(current), false)) == Execute(rest, State(current, raised))
        invariant |rest| <= |p| && rest == p[|p| - |rest|..]
        decreases |rest|
      {
        assert rest[0] in p;
        match rest[0] {
          case Enrich(account, project, job) =>
            var enriched := EnrichTraceContext(account, project, job);
            raised := enriched.None?;
          case Bind(context, body) => raised := BindTraceContext(context, body);
          case Raise => raised := true;
          case Try(guarded) => var ignored := Run(guarded);
        }
        rest := rest[1..];
      }
    }

    /** `bind_trace_context`: the value is restored however the block is left. */
    method BindTraceContext(context: TraceContext, body: seq<Statement>) returns (raised: bool)
      modifies this
      ensures current == old(current)
      ensures raised == Execute(body, State(Some(context), false)).raised
      decreases body, 1
    {
      var token := Set(Some(context));
      raised := Run(body);
      Reset(token);
    }
  }

  // ---------------------------------------------------------------- what blocks keep

  /** Same request and correlation. */
  predicate SameTrace(c: TraceContext, d: TraceContext) {
    d.correlationId == c.correlationId && d.requestId == c.requestId
  }

  /** No enrichment of this block, nested blocks aside, names the given id. */
  predicate NamesNo(p: seq<Statement>, which: Which)
    decreases p
  {
    p == [] || (NamesNoIn(p[0], which) && NamesNo(p[1..], which))
  }

  predicate NamesNoIn(statement: Statement, which: Which)
    decreases statement
  {
    match statement
    case Enrich(account, project, job) => (match which case AccountId => account.None? case ProjectId => project.None? case JobId => job.None?)
    case Bind(_, _) => true
    case Raise => true
    case Try(guarded) => NamesNo(guarded, which)
  }

  datatype Which = AccountId | ProjectId | JobId

  function Field(c: TraceContext, which: Which): Option<string> {
    match which case AccountId => c.accountId case ProjectId => c.projectId case JobId => c.jobId
  }

  /** What a stretch of code may do to the variable: nothing when unset, else no more than enrich. */
  predicate Bounded(before: Option<TraceContext>, after: Option<TraceContext>) {
    before.Some? == after.Some? && (before.Some? ==> SameTrace(before.value, after.value))
  }

  /** At every point of every block, at any depth of nesting and with any exceptions, its request and correlation ids are its own. */
  lemma {:induction false} BlockKeepsTrace(p: seq<Statement>, s: State)
    ensures Bounded(s.current, Execute(p, s).current)
    decreases p
  {
    if p != [] && !s.raised {
      StatementKeepsTrace(p[0], s.current);
      BlockKeepsTrace(p[1..], ExecuteOne(p[0], s.current));
    }
  }

  lemma {:induction false} StatementKeepsTrace(statement: Statement, current: Option<TraceContext>)
    ensures Bounded(current, ExecuteOne(statement, current).current)
    decreases statement
  {
    if statement.Try? {
      BlockKeepsTrace(statement.guarded, State(current, false));
    }
  }

  /** An id that no enrichment of a block names is still as the block was entered, whatever nested blocks do. */
  lemma {:induction false} BlockKeepsUnnamed(p: seq<Statement>, s: State, which: Which)
    requires s.current.Some? && NamesNo(p, which)
    ensures Execute(p, s).current.Some? && Field(Execute(p, s).current.value, which) == Field(s.current.value, which)
    decreases p
  {
    if p != [] && !s.raised {
      StatementKeepsUnnamed(p[0], s.current.value, which);
      BlockKeepsUnnamed(p[1..], ExecuteOne(p[0], s.current), which);
    }
  }

  lemma {:induction false} StatementKeepsUnnamed(statement: Statement, c: TraceContext, which: Which)
    requires NamesNoIn(statement, which)
    ensures var after := ExecuteOne(statement, Some(c)).current;
      after.Some? && Field(after.value, which) == Field(c, which)
    decreases statement
  {
    if statement.Try? {
      BlockKeepsUnnamed(statement.guarded, State(Some(c), false), which);
    }
  }

  /** Removing a bind block that does not raise from a program changes nothing outside it. */
  lemma {:induction false} BindIsInvisible(before: seq<Statement>, context: TraceContext, body: seq<Statement>, after: seq<Statement>, s: State)
    requires !Execute(body, State(Some(context), false)).raised
    ensures Execute(before + ([Bind(context, body)] + after), s) == Execute(before + after, s)
    decreases before
  {
    var block := [Bind(context, body)] + after;
    if before == [] {
      assert [] + block == block && [] + after == after && block[1..] == after;
    } else if !s.raised {
      assert (before + block)[1..] == before[1..] + block && (before + after)[1..] == before[1..] + after;
      BindIsInvisible(before[1..], context, body, after, ExecuteOne(before[0], s.current));
    }
  }

  // ---------------------------------------------------------------- jobs

  predicate Leading(c: char) { 'A' <= c <= 'Z' || 'a' <= c <= 'z' || '0' <= c <= '9' }

  /** Letters, digits and `_.:-`, at most 128 of them, the first a letter or digit. */
  predicate SafeIdentifier(s: string) {
    && 1 <= |s| <= 128 && Leading(s[0])
    && forall i :: 0 < i < |s| ==> Leading(s[i]) || s[i] == '_' || s[i] == '.' || s[i] == ':' || s[i] == '-'
  }

  datatype Job = Job(jobId: string, taskType: string, payloadVersion: string, accountId: string, projectId: Option<string>, correlationId: string)

  /** A value of a message: text, null, or anything else. */
  datatype Value = Text(text: string) | Null | Other

  type Message = map<string, Value>

  function Get(m: Message, key: string): Value { if key in m then m[key] else Null }

  function UuidOf(v: Value): Option<string> { if v.Text? then UuidString(v.text) else None }

  function SafeOf(v: Value): Option<string> { if v.Text? && SafeIdentifier(v.text) then Some(v.text) else None }

  /** None for a value that is refused, Some(None) for an absent one. */
  function OptionalUuidOf(v: Value): Option<Option<string>> {
    if v.Null? then Some(None)
    else match UuidOf(v) case None => None case Some(u) => Some(Some(u))
  }

  function MakeJob(job: Value, task: Value, version: Value, account: Value, project: Value, correlation: Option<string>): Option<Job> {
    match (UuidOf(job), SafeOf(task), SafeOf(version), UuidOf(account), OptionalUuidOf(project), correlation)
    case (Some(j), Some(t), Some(v), Some(a), Some(p), Some(c)) => Some(Job(j, t, v, a, p, c))
    case _ => None
  }

  function FromCurrentRequest(current: Option<TraceContext>, job: Value, task: Value, version: Value, account: Value, project: Value): Option<Job> {
    if current.None? then None else MakeJob(job, task, version, account, project, Some(current.value.correlationId))
  }

  function FromMessage(m: Message): Option<Job> {
    MakeJob(Get(m, "jobId"), Get(m, "taskType"), Get(m, "payloadVersion"), Get(m, "accountId"), Get(m, "projectId"),
            UuidOf(Get(m, "correlationId")))
  }

  function OptionalText(value: Option<string>): Value { if value.Some? then Text(value.value) else Null }

  function ToMessage(job: Job): Message {
    map["jobId" := Text(job.jobId), "taskType" := Text(job.taskType), "payloadVersion" := Text(job.payloadVersion),
        "accountId" := Text(job.accountId), "projectId" := OptionalText(job.projectId), "correlationId" := Text(job.correlationId)]
  }

  function ToTraceContext(job: Job): TraceContext {
    TraceContext(job.correlationId, None, Some(job.accountId), job.projectId, Some(job.jobId))
  }

  /** `generated` is what `uuid4` draws when the caller's value is missing or no UUID. */
  function SafeOrGenerated(value: Option<string>, generated: Uuid): string {
    if value.Some? && UuidString(value.value).Some? then UuidString(value.value).value else PrintUuid(generated)
  }

  function ResolveHttp(requestId: Option<string>, correlationId: Option<string>, drawnRequest: Uuid, drawnCorrelation: Uuid): TraceContext {
    TraceContext(SafeOrGenerated(correlationId, drawnCorrelation), Some(SafeOrGenerated(requestId, drawnRequest)), None, None, None)
  }

  lemma ResolvedCanonical(requestId: Option<string>, correlationId: Option<string>, drawnRequest: Uuid, drawnCorrelation: Uuid)
    ensures Canonical(ResolveHttp(requestId, correlationId, drawnRequest, drawnCorrelation).correlationId)
  {
    PrintCanonical(drawnCorrelation);
    if correlationId.Some? { UuidStringCanonical(correlationId.value); }
  }

  /** What every constructed job satisfies. */
  predicate WellFormed(job: Job) {
    && Canonical(job.jobId) && SafeIdentifier(job.taskType) && SafeIdentifier(job.payloadVersion)
    && Canonical(job.accountId) && (job.projectId.Some? ==> Canonical(job.projectId.value))
  }

  lemma MadeWellFormed(job: Value, task: Value, version: Value, account: Value, project: Value, correlation: Option<string>)
    requires MakeJob(job, task, version, account, project, correlation).Some?
    ensures WellFormed(MakeJob(job, task, version, account, project, correlation).value)
    ensures MakeJob(job, task, version, account, project, correlation).value.correlationId == correlation.value
  {
    UuidStringCanonical(job.text);
    UuidStringCanonical(account.text);
    if project.Text? { UuidStringCanonical(project.text); }
  }

  lemma MessageFields(job: Job)
    ensures FromMessage(ToMessage(job)) ==
      MakeJob(Text(job.jobId), Text(job.taskType), Text(job.payloadVersion), Text(job.accountId), OptionalText(job.projectId),
              UuidString(job.correlationId))
  {
  }

  /** A job survives its message exactly when its correlation id is a canonically spelled UUID. */
  lemma MessageRoundTrip(job: Job)
    requires WellFormed(job)
    ensures FromMessage(ToMessage(job)) == Some(job) <==> Canonical(job.correlationId)
  {
    MessageFields(job);
  }

  /** The jobs of a request resolved from HTTP, however enriched, all do, and carry on the request's correlation id. */
  lemma RequestJobSurvives(requestId: Option<string>, correlationId: Option<string>, drawnRequest: Uuid, drawnCorrelation: Uuid, p: seq<Statement>,
                           job: Value, task: Value, version: Value, account: Value, project: Value)
    ensures var current := Execute(p, State(Some(ResolveHttp(requestId, correlationId, drawnRequest, drawnCorrelation)), false)).current;
      var made := FromCurrentRequest(current, job, task, version, account, project);
      made.Some? ==>
        FromMessage(ToMessage(made.value)) == made
        && ToTraceContext(made.value).correlationId == ResolveHttp(requestId, correlationId, drawnRequest, drawnCorrelation).correlationId
  {
    var s := State(Some(ResolveHttp(requestId, correlationId, drawnRequest, drawnCorrelation)), false);
    var current := Execute(p, s).current;
    BlockKeepsTrace(p, s);
    ResolvedCanonical(requestId, correlationId, drawnRequest, drawnCorrelation);
    var made := FromCurrentRequest(current, job, task, version, account, project);
    if made.Some? {
      MadeWellFormed(job, task, version, account, project, Some(current.value.correlationId));
      MessageRoundTrip(made.value);
    }
  }

  // ---------------------------------------------------------------- case by case

  lemma First(statement: Statement, rest: seq<Statement>, s: State)
    ensures Execute([statement] + rest, s) == if s.raised then s else Execute(rest, ExecuteOne(statement, s.current))
  {
    assert ([statement] + rest)[1..] == rest;
  }

  /** Enriching changes the context for the rest of the block, or raises and skips the rest. */
  lemma EnrichRuns(account: Option<string>, project: Option<string>, job: Option<string>, rest: seq<Statement>, c: Option<TraceContext>)
    ensures Execute([Enrich(account, project, job)] + rest, State(c, false)) ==
      if Enriched(c, account, project, job).None? then State(c, true)
      else Execute(rest, State(Enriched(c, account, project, job), false))
  {
    First(Enrich(account, project, job), rest, State(c, false));
  }

  /** A bound block leaves its context behind, and skips the rest exactly when it raises. */
  lemma BindRuns(context: TraceContext, body: seq<Statement>, rest: seq<Statement>, c: Option<TraceContext>)
    ensures Execute([Bind(context, body)] + rest, State(c, false)) ==
      if Execute(body, State(Some(context), false)).raised then State(c, true) else Execute(rest, State(c, false))
  {
    First(Bind(context, body), rest, State(c, false));
  }

  /** Raising skips the rest; a guarded block keeps its context and its rest goes on. */
  lemma RaiseAndTryRun(guarded: seq<Statement>, rest: seq<Statement>, c: Option<TraceContext>)
    ensures Execute([Raise] + rest, State(c, false)) == State(c, true)
    ensures Execute([Try(guarded)] + rest, State(c, false)) ==
      Execute(rest, State(Execute(guarded, State(c, false)).current, false))
  {
    First(Raise, rest, State(c, false));
    First(Try(guarded), rest, State(c, false));
  }

  /** `drawn` is used exactly when nothing was given that is a UUID. */
  predicate GivenOrDrawn(given: Option<string>, drawn: Uuid, id: string) {
    if given.Some? && ParseUuid(given.value).Some? then Canonical(id) && ParseUuid(id) == ParseUuid(given.value) else id == PrintUuid(drawn)
  }

  /** A resolved request takes each id from its own header. */
  lemma ResolvedExactly(requestId: Option<string>, correlationId: Option<string>, drawnRequest: Uuid, drawnCorrelation: Uuid)
    ensures var c := ResolveHttp(requestId, correlationId, drawnRequest, drawnCorrelation);
      && c.requestId.Some? && GivenOrDrawn(requestId, drawnRequest, c.requestId.value)
      && GivenOrDrawn(correlationId, drawnCorrelation, c.correlationId)
      && c.accountId.None? && c.projectId.None? && c.jobId.None?
  {
    GivenIsKept(requestId, drawnRequest);
    GivenIsKept(correlationId, drawnCorrelation);
  }

  lemma GivenIsKept(given: Option<string>, drawn: Uuid)
    ensures GivenOrDrawn(given, drawn, SafeOrGenerated(given, drawn))
  {
    if given.Some? && ParseUuid(given.value).Some? { UuidStringNames(given.value, None); }
  }

  predicate IsUuid(v: Value) { v.Text? && ParseUuid(v.text).Some? }

  /** The same UUID in canonical spelling. */
  predicate SameUuid(v: Value, id: string) { v.Text? && Canonical(id) && ParseUuid(id) == ParseUuid(v.text) }

  /** A job is made exactly of five good values inside a request, each in its own place, and traced under the same ids. */
  lemma JobExactly(current: Option<TraceContext>, job: Value, task: Value, version: Value, account: Value, project: Value)
    ensures var made := FromCurrentRequest(current, job, task, version, account, project);
      && (made.Some? <==>
            current.Some? && IsUuid(job) && task.Text? && SafeIdentifier(task.text) && version.Text? && SafeIdentifier(version.text)
            && IsUuid(account) && (project.Null? || IsUuid(project)))
      && (made.Some? ==>
            && SameUuid(job, made.value.jobId) && SameUuid(account, made.value.accountId)
            && task == Text(made.value.taskType) && version == Text(made.value.payloadVersion)
            && (if project.Null? then made.value.projectId.None? else made.value.projectId.Some? && SameUuid(project, made.value.projectId.value))
            && made.value.correlationId == current.value.correlationId
            && ToTraceContext(made.value) == TraceContext(
                 current.value.correlationId, None, Some(made.value.accountId), made.value.projectId, Some(made.value.jobId)))
  {
    if IsUuid(job) { UuidStringNames(job.text, None); }
    if IsUuid(account) { UuidStringNames(account.text, None); }
    if IsUuid(project) { UuidStringNames(project.text, None); }
  }

  /** The six entries of a message. */
  lemma MessageExactly(job: Job)
    ensures var m := ToMessage(job);
      && Get(m, "jobId") == Text(job.jobId) && Get(m, "taskType") == Text(job.taskType)
      && Get(m, "payloadVersion") == Text(job.payloadVersion) && Get(m, "accountId") == Text(job.accountId)
      && Get(m, "projectId") == (if job.projectId.Some? then Text(job.projectId.value) else Null)
      && Get(m, "correlationId") == Text(job.correlationId)
  {
  }
}
