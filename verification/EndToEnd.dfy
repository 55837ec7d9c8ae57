/** The create form on top of the project service. */
module EndToEnd {
  import opened Wrappers
  import opened Values
  import opened Projects
  import opened Tables
  import opened CreateForm
  import opened ProjectRuns
  import opened ProjectInvariant
  import opened ProjectTheorems

  /** The call that the service makes of a message; it normalises the title once more. */
  predicate Carries(op: Op, a: Sent) {
    op.Create? && op.accountId == a.accountId && op.key == a.key && op.kind == a.kind && ValidateTitle(a.title) == Some(op.title)
  }

  /** Every create call answers a message of one of the forms. */
  ghost predicate FromForms(s: Sys, forms: seq<Form>) {
    forall r :: r in s.runs && s.runs[r].op.Create? ==> exists a :: SentBy(forms, a) && Carries(s.runs[r].op, a)
  }

  /** Whatever the forms' runs, retries and lost replies, no create is refused as a conflict. */
  lemma NoConflict(s: Sys, used: set<string>, forms: seq<Form>, r: Txn)
    requires Reached(s) && FreshForms(used, forms) && FromForms(s, forms) && r in s.runs
    ensures s.runs[r].op.Create? ==> s.runs[r].phase != Done(Conflict)
  {
    if s.runs[r].op.Create? && s.runs[r].phase == Done(Conflict) {
      var i := ConflictIsExact(s, r);
      var u := s.history[i].run;
      var a :| SentBy(forms, a) && Carries(s.runs[r].op, a);
      var b :| SentBy(forms, b) && Carries(s.runs[u].op, b);
      KeysAreNotReused(used, forms, a, b);
      assert false;
    }
  }

  /** A commit that created a project for a message of this log. */
  predicate Created(s: Sys, log: seq<Sent>, account: Uuid, i: nat) {
    && i < |s.history| && s.history[i].before.None? && s.history[i].run in s.runs
    && s.runs[s.history[i].run].op.Create? && s.runs[s.history[i].run].op.accountId == account
    && exists a :: a in log && Carries(s.runs[s.history[i].run].op, a)
  }

  /** Any stretch of consecutive submissions with unchanged content creates at most one project in an account. */
  lemma OneProjectPerStretch(s: Sys, state: FormState, submissions: seq<Submission>, title: string, kind: string, account: Uuid,
                             i: nat, j: nat)
    requires Reached(s) && UuidDraws(submissions) && Unchanged(submissions, title, kind)
    requires Created(s, Session(state, submissions), account, i) && Created(s, Session(state, submissions), account, j)
    ensures i == j
  {
    var key := StretchUsesOneKey(state, submissions, title, kind);
    var k := RequestKey(account, key);
    assert Source(s.runs, s.history[i], k) && Source(s.runs, s.history[j], k);
    ExactlyOnce(s);
  }
}
