/** A run in which the reserve falls short: Work with the longest pull request URL asks the worst question as its
    ninth record and can then not be answered at full length. */
module Shortfall {
  import opened Common
  import opened Text
  import opened Tables
  import opened Scan
  import opened Transitions
  import opened Invariant
  import opened Registration
  import opened Calls
  import opened History
  import opened Limits
  import opened Recoverable
  import C = Continuation
  import A = Assembly
  import P = Prompt
  import R = Reserve

  // ---------------------------------------------------------------- honest runs, step by step

  /** The prompt's wording, the digest, and what the one admission fixes. */
  datatype Service = Service(w: C.Wording, digest: string -> string, brief: Brief)

  ghost predicate Works(v: Service) { v.w.Valid() && C.IsDigest(v.digest) && Reserved(v.w, v.digest, v.brief) }

  function Briefs(v: Service): Id -> Brief { (_: Id) => v.brief }

  ghost predicate HonestlyReachable(db: DB, v: Service)
    requires v.w.Valid()
  {
    exists start: DB, events: seq<Event> ::
      Initial(start) && Inv(start) && HonestRun(start, events, v.w, v.digest, Briefs(v)) && Final(start, events) == db
  }

  lemma HonestStart(start: DB, v: Service)
    requires Initial(start) && v.w.Valid()
    ensures Inv(start) && HonestlyReachable(start, v)
  {
    InitialIsSound(start);
    hide Inv;
    assert HonestRun(start, [], v.w, v.digest, Briefs(v)) && Final(start, []) == start;
  }

  lemma HonestStep(db: DB, now: int, call: Call, v: Service)
    requires v.w.Valid() && HonestlyReachable(db, v) && Honest(db, now, call, v.w, v.digest, Briefs(v))
    ensures Linked(db) && KeysUnique(db) && HonestlyReachable(Step(db, now, call), v)
  {
    hide Inv, Linked, KeysUnique, Honest, Step;
    var start: DB, events: seq<Event> :|
      Initial(start) && Inv(start) && HonestRun(start, events, v.w, v.digest, Briefs(v)) && Final(start, events) == db;
    var more := events + [Event(now, call)];
    assert events[..|events|] == events && more[..|events|] == events && more[..|more|] == more;
    forall i | 0 <= i < |more| ensures Honest(At(start, more, i), more[i].now, more[i].call, v.w, v.digest, Briefs(v)) {
      if i < |events| { assert more[..i] == events[..i] && At(start, events, i) == At(start, more, i); }
    }
    NextAt(start, more, |events|);
    assert HonestRun(start, more, v.w, v.digest, Briefs(v)) && Final(start, more) == Step(db, now, call);
  }

  // The calls of this run, each as the transition it stands for.

  lemma RegisteringIs(db: DB, now: int, call: Call)
    requires Linked(db) && KeysUnique(db) && call.Registering?
    ensures Step(db, now, call) == After(db, RegisterWorker(db, now, call.worker, call.report))
  {
    hide Linked, KeysUnique, After, Claim, StartAttempt, Heartbeat, StartStage, CompleteStage, AppendUpdate, CompleteAttempt, Sweep;
    hide CancelRun, CancelSession, RetrySession, AnswerWork, Admit, ReplaceWork, SetRepositoryEnabled, RegisterWorker;
  }

  lemma AdmittingIs(db: DB, now: int, call: Call)
    requires Linked(db) && KeysUnique(db) && call.Admitting?
    ensures Step(db, now, call) == After(db, Admit(db, now, call.flavour, call.r, call.targets, call.acquired))
  {
    hide Linked, KeysUnique, After, Claim, StartAttempt, Heartbeat, StartStage, CompleteStage, AppendUpdate, CompleteAttempt, Sweep;
    hide CancelRun, CancelSession, RetrySession, AnswerWork, Admit, ReplaceWork, SetRepositoryEnabled, RegisterWorker;
  }

  lemma ClaimingIs(db: DB, now: int, call: Call)
    requires Linked(db) && KeysUnique(db) && call.Claiming?
    ensures Step(db, now, call) == After(db, Claim(db, now, call.worker, call.request, call.token, call.attempt, call.routing))
  {
    hide Linked, KeysUnique, After, Claim, StartAttempt, Heartbeat, StartStage, CompleteStage, AppendUpdate, CompleteAttempt, Sweep;
    hide CancelRun, CancelSession, RetrySession, AnswerWork, Admit, ReplaceWork, SetRepositoryEnabled, RegisterWorker;
  }

  lemma StartingIs(db: DB, now: int, call: Call)
    requires Linked(db) && KeysUnique(db) && call.Starting?
    ensures Step(db, now, call) == After(db, StartAttempt(db, now, call.attempt, call.token, call.from, call.runtimeStarted))
  {
    hide Linked, KeysUnique, After, Claim, StartAttempt, Heartbeat, StartStage, CompleteStage, AppendUpdate, CompleteAttempt, Sweep;
    hide CancelRun, CancelSession, RetrySession, AnswerWork, Admit, ReplaceWork, SetRepositoryEnabled, RegisterWorker;
  }

  lemma ReportingIs(db: DB, now: int, call: Call)
    requires Linked(db) && KeysUnique(db) && call.Reporting?
    ensures Step(db, now, call) == After(db, AppendUpdate(db, now, call.attempt, call.token, call.input, call.fits))
  {
    hide Linked, KeysUnique, After, Claim, StartAttempt, Heartbeat, StartStage, CompleteStage, AppendUpdate, CompleteAttempt, Sweep;
    hide CancelRun, CancelSession, RetrySession, AnswerWork, Admit, ReplaceWork, SetRepositoryEnabled, RegisterWorker;
  }

  lemma CompletingIs(db: DB, now: int, call: Call)
    requires Linked(db) && KeysUnique(db) && call.Completing?
    ensures Step(db, now, call) == After(db, CompleteAttempt(db, now, call.attempt, call.token, call.claimed, call.result, call.error))
  {
    hide Linked, KeysUnique, After, Claim, StartAttempt, Heartbeat, StartStage, CompleteStage, AppendUpdate, CompleteAttempt, Sweep;
    hide CancelRun, CancelSession, RetrySession, AnswerWork, Admit, ReplaceWork, SetRepositoryEnabled, RegisterWorker;
  }

  lemma RetryingIs(db: DB, now: int, call: Call)
    requires Linked(db) && KeysUnique(db) && call.Retrying?
    ensures Step(db, now, call) == After(db, RetrySession(db, now, call.run, call.work, call.route, call.acquired))
  {
    hide Linked, KeysUnique, After, Claim, StartAttempt, Heartbeat, StartStage, CompleteStage, AppendUpdate, CompleteAttempt, Sweep;
    hide CancelRun, CancelSession, RetrySession, AnswerWork, Admit, ReplaceWork, SetRepositoryEnabled, RegisterWorker;
  }

  lemma HonestIsReachable(db: DB, v: Service)
    requires v.w.Valid() && HonestlyReachable(db, v)
    ensures Reachable(db)
  {
    hide Inv, HonestRun;
  }

  // ---------------------------------------------------------------- one Work, one Worker

  /** Everything about the only Work there is; all identifiers but the second Attempt's are zero. */
  datatype Scene = Scene(
    token: Token, s: Session, e: Execution, attempts: map<Id, Attempt>, requests: set<(Id, string)>, claims: set<(Id, string)>)

  predicate Stage0(db: DB) {
    && db.workers == map[0 := Worker(1, true, 0, true)]
    && db.repositories == map[0 := Repository(true, true)]
    && db.mirrors == map[(0, 0) := Mirror(0, true, false)]
  }

  predicate Shows(db: DB, c: Scene) {
    && ValidToken(c.token) && Stage0(db) && db.runs.Keys == {0} && db.runs[0].contract.AgentUpdate? && db.runs[0].limit == 1
    && db.sessions == map[0 := c.s] && db.executions == map[0 := c.e] && db.attempts == c.attempts
    && db.updateRequests.Keys == c.requests && db.claims.Keys == c.claims
    && c.s.run == 0 && c.s.repository == 0 && |c.s.stages| == 1 && c.e.worker == 0
  }

  function NewAttempt(token: Token): Attempt { Attempt(0, 0, AttemptPreparing, token, LEASE_MILLIS, false, "", "") }

  // ---------------------------------------------------------------- registering and admitting

  function Plain(): Report { Report(1, 0, true, true, false, {}, map[0 := 0], [], []) }

  lemma Registers(v: Service) returns (db: DB)
    requires v.w.Valid()
    ensures HonestlyReachable(db, v) && Stage0(db)
    ensures db == EMPTY.(workers := db.workers, repositories := db.repositories, mirrors := db.mirrors)
  {
    hide HonestlyReachable, Inv, RegisterWorker, Registered, Plain, Step, Linked;
    var start := EMPTY.(repositories := map[0 := Repository(true, true)]);
    HonestStart(start, v);
    var call := Registering(0, Plain());
    HonestStep(start, 0, call, v);
    RegisteringIs(start, 0, call);
    db := Step(start, 0, call);
    RegistersFirst(start);
  }

  lemma RegistersFirst(db: DB)
    requires Linked(db) && db == EMPTY.(repositories := map[0 := Repository(true, true)])
    ensures RegisterWorker(db, 0, 0, Plain()).Done? && RegisterWorker(db, 0, 0, Plain()).db == Registered(db, 0, 0, Plain())
    ensures Registered(db, 0, 0, Plain())
      == db.(workers := map[0 := Worker(1, true, 0, true)], mirrors := map[(0, 0) := Mirror(0, true, false)])
  {
    hide Linked;
    FirstMirrors(db);
    assert WithStatics(db.repositories, Plain().statics.Keys) == db.repositories;
    hide ReportedMirrors;
  }

  lemma FirstMirrors(db: DB)
    requires Linked(db) && db.mirrors == map[]
    ensures ReportedMirrors(db, 0, Plain()) == map[(0, 0) := Mirror(0, true, false)]
  {
    hide Linked;
    assert Named(Plain().worktrees) == {};
    assert Attributed(Plain().worktrees, 0) == {};
    hide Attributed;
    var keys := set r: Id | r in Plain().statics :: (0 as Id, r);
    assert 0 in Plain().statics;
    assert forall k :: k in keys <==> k == (0, 0);
    assert keys == {(0, 0)};
    assert ReportedMirror(db, 0, Plain(), 0) == Mirror(0, true, false);
    hide ReportedMirror;
    assert ReportedMirrors(db, 0, Plain()).Keys == {(0, 0)};
  }

  function OneTarget(): Target { Target(0, 0, WholeRepository, 1, true, Some(0)) }

  function OneRun(): NewRun { NewRun(0, "run", "inputs", 0, 1, AgentUpdate, true) }

  lemma Admits(before: DB, token: Token, v: Service) returns (db: DB)
    requires Works(v) && ValidToken(token) && HonestlyReachable(before, v) && Stage0(before)
    requires before == EMPTY.(workers := before.workers, repositories := before.repositories, mirrors := before.mirrors)
    ensures HonestlyReachable(db, v)
    ensures Shows(db, Scene(token, FreshSession(0, OneTarget(), None, 0, 0, Some(0)), Execution(0, ExecQueued, false, 0), map[], {}, {}))
  {
    hide HonestlyReachable, Reserved, C.IsDigest, Admit, Step, Linked, KeysUnique;
    var call := Admitting(TaskRun, OneRun(), [OneTarget()], {});
    HonestStep(before, 0, call, v);
    AdmittingIs(before, 0, call);
    db := Step(before, 0, call);
    AdmitsOne(before);
  }

  lemma AdmitsOne(db: DB)
    requires Linked(db) && KeysUnique(db) && Stage0(db)
    requires db == EMPTY.(workers := db.workers, repositories := db.repositories, mirrors := db.mirrors)
    ensures var o := Admit(db, 0, TaskRun, OneRun(), [OneTarget()], {});
      && o.Done?
      && o.db == db.(runs := map[0 := Run("run", "inputs", 0, 1, AgentUpdate, 0, None)],
                     sessions := map[0 := FreshSession(0, OneTarget(), None, 0, 0, Some(0))],
                     executions := map[0 := Execution(0, ExecQueued, false, 0)], rows := 1)
  {
    assert TargetsError(db, TaskRun, OneRun(), [OneTarget()]).None?;
    hide Linked, FreshSession;
    assert Acquire(WithRun(db, OneRun(), 0), {}) == WithRun(db, OneRun(), 0) by { AcquiringNothing(WithRun(db, OneRun(), 0)); }
    var start := WithRun(db, OneRun(), 0);
    assert AdmitTargets(start, db, TaskRun, OneRun(), [OneTarget()], 0, 0) == (start, 0);
    assert AdmitTargets(start, db, TaskRun, OneRun(), [OneTarget()], 0, 1).0 == InsertTarget(start, 0, OneTarget(), None, 0, Some(0));
  }

  lemma AcquiringNothing(db: DB)
    ensures Acquire(db, {}) == db
  {
  }

  // ---------------------------------------------------------------- claiming and starting

  lemma Claims(before: DB, c: Scene, request: string, attempt: Id, v: Service) returns (db: DB)
    requires v.w.Valid() && HonestlyReachable(before, v) && Shows(before, c)
    requires c.s.state.WorkQueued? && c.e.state.ExecQueued? && attempt !in c.attempts && |c.attempts| <= 1
    requires forall a <- c.attempts :: !c.attempts[a].state.Active()
    requires !Blank(request) && Bytes(request) <= 200 && (0, request) !in c.claims
    ensures HonestlyReachable(db, v)
    ensures Shows(db, Scene(c.token, Taken(c.s, 0), c.e.(state := ExecPreparing, cancel := false), c.attempts[attempt := NewAttempt(c.token)],
                            c.requests, c.claims + {(0, request)}))
  {
    hide HonestlyReachable, Claim, Blank, Bytes, Step, Linked, KeysUnique, Shows, Assign;
    var call := Claiming(0, request, c.token, attempt, Routing({}, {}, {0}, {}));
    HonestStep(before, 0, call, v);
    ClaimingIs(before, 0, call);
    db := Step(before, 0, call);
    ClaimsOnly(before, c, request, attempt);
    AssignsOne(before, c, request, attempt);
  }

  lemma AssignsOne(db: DB, c: Scene, request: string, attempt: Id)
    requires Linked(db) && Shows(db, c)
    ensures Shows(Assign(db, 0, 0, request, c.token, 0, attempt),
                  Scene(c.token, Taken(c.s, 0), c.e.(state := ExecPreparing, cancel := false), c.attempts[attempt := NewAttempt(c.token)],
                        c.requests, c.claims + {(0, request)}))
  {
    hide Linked, ValidToken;
    var next := Assign(db, 0, 0, request, c.token, 0, attempt);
    assert next.sessions == map[0 := Taken(c.s, 0)];
    assert next.claims.Keys == c.claims + {(0, request)};
  }

  lemma PreparesNothing(db: DB)
    requires Linked(db)
    ensures Prepared(db, 0, 0, Routing({}, {}, {0}, {})) == db
  {
    hide Linked, BlockedKeys, QueuedElsewhere;
    MaterialiseKeepsLinks(db, 0, 0, {});
    assert Routed(BlockedKeys(db), {}) == {} && Routed(QueuedElsewhere(db, 0), {}) == {};
    AcquiringNothing(db);
  }

  lemma OnlyClaimable(db: DB, c: Scene)
    requires Linked(db) && Shows(db, c) && c.s.state.WorkQueued? && c.e.state.ExecQueued? && |c.attempts| <= 1
    ensures ClaimableKeys(db, 0, {0}) == {ExecutionKey(db, 0)}
  {
    assert Owned(db, 0) == {};
    assert Held(db, 0, 0) <= db.attempts.Keys;
    SubsetIsNoLarger(Held(db, 0, 0), db.attempts.Keys);
    assert RetentionUse(db, 0, 0) <= 1;
    hide Linked, RetentionUse, Owned, ExecutionKey;
  }

  lemma ClaimsOnly(db: DB, c: Scene, request: string, attempt: Id)
    requires Linked(db) && Shows(db, c)
    requires c.s.state.WorkQueued? && c.e.state.ExecQueued? && attempt !in c.attempts && |c.attempts| <= 1
    requires forall a <- c.attempts :: !c.attempts[a].state.Active()
    requires !Blank(request) && Bytes(request) <= 200 && (0, request) !in c.claims
    ensures var o := Claim(db, 0, 0, request, c.token, attempt, Routing({}, {}, {0}, {}));
      o.Done? && o.db == Assign(db, 0, 0, request, c.token, 0, attempt)
  {
    hide Linked, Blank, Bytes, ValidToken, Assign, ClaimableKeys, Prepared, ExecutionKey;
    assert ActiveOf(db, 0) == {};
    PreparesNothing(db);
    OnlyClaimable(db, c);
    assert First({ExecutionKey(db, 0)}) == ExecutionKey(db, 0);
    assert ExecutionKey(db, 0).id == 0 by { KeyOfZero(db); }
    hide ActiveOf, Leased;
    var ready := Prepared(db, 0, 0, Routing({}, {}, {0}, {}));
    assert ChooseWork(ready, 0, 0, request, c.token, attempt, {0}) == Done(Assign(db, 0, 0, request, c.token, 0, attempt), Claimed(attempt));
    hide ChooseWork;
  }

  lemma KeyOfZero(db: DB)
    requires Linked(db) && 0 in db.executions
    ensures ExecutionKey(db, 0).id == 0
  {
  }

  /** The Attempt that holds the lease. */
  predicate Leads(c: Scene, attempt: Id, state: AttemptState) {
    attempt in c.attempts && c.attempts[attempt] == NewAttempt(c.token).(state := state) && state.Active()
  }

  lemma Starts(before: DB, c: Scene, attempt: Id, v: Service) returns (db: DB)
    requires v.w.Valid() && HonestlyReachable(before, v) && Shows(before, c) && Leads(c, attempt, AttemptPreparing)
    requires c.s.pendingResume == ""
    ensures HonestlyReachable(db, v)
    ensures Shows(db, c.(s := Started(c.s, 0), e := c.e.(state := ExecRunning),
                         attempts := c.attempts[attempt := NewAttempt(c.token).(state := AttemptRunning)]))
  {
    hide HonestlyReachable, ValidCommitSha, Step, Linked, KeysUnique, ValidToken;
    var call := Starting(attempt, c.token, "", false);
    HonestStep(before, 0, call, v);
    StartingIs(before, 0, call);
    assert 0 in before.sessions && attempt in before.attempts;
    db := Step(before, 0, call);
  }

  // ---------------------------------------------------------------- reporting

  function UpdateOf(attempt: Id, input: UpdateInput): WorkUpdate {
    WorkUpdate(attempt, input.request, input.status, input.message, input.pullRequest, input.checkpoint, input.published, 0)
  }

  lemma ReportsOnce(before: DB, c: Scene, attempt: Id, input: UpdateInput, v: Service) returns (db: DB)
    requires Works(v) && HonestlyReachable(before, v) && Shows(before, c) && Leads(c, attempt, AttemptRunning)
    requires c.s.state.WorkRunning? && c.s.owner.OwnerWorkerAttempt? && c.e.state.ExecRunning? && !c.e.cancel
    requires UpdateInputError(input).None? && !input.replayOnly && (attempt, input.request) !in c.requests
    requires OutcomeOf(c.s.updates, attempt).None? && ProgressCount(c.s.updates, attempt) < MAX_PROGRESS
    requires input.status.UpdateNeedsInput? ==> Covered(c.s)
    ensures HonestlyReachable(db, v)
    ensures Shows(db, c.(s := c.s.(updates := c.s.updates + [UpdateOf(attempt, input)]),
                         requests := c.requests + {(attempt, input.request)}))
  {
    hide HonestlyReachable, Reachable, Reserved, C.IsDigest, UpdateInputError, ProgressCount, QuestionFits, Covered, OutcomeOf, AppendUpdate;
    hide Step, Linked, KeysUnique, Shows, Honest, Leads;
    var fits := QuestionFits(v.w, v.digest, v.brief, c.s, input, 0);
    var call := Reporting(attempt, c.token, input, fits);
    ReportingIsHonest(before, c, attempt, input, v);
    HonestStep(before, 0, call, v);
    ReportingIs(before, 0, call);
    db := Step(before, 0, call);
    QuestionIsTaken(before, c, attempt, input, v);
    ReportsRow(before, c, attempt, input, fits);
  }

  lemma ReportingIsHonest(db: DB, c: Scene, attempt: Id, input: UpdateInput, v: Service)
    requires v.w.Valid() && Shows(db, c) && Leads(c, attempt, AttemptRunning)
    ensures Honest(db, 0, Reporting(attempt, c.token, input, QuestionFits(v.w, v.digest, v.brief, c.s, input, 0)), v.w, v.digest, Briefs(v))
  {
    hide QuestionFits, ValidToken;
  }

  lemma QuestionIsTaken(db: DB, c: Scene, attempt: Id, input: UpdateInput, v: Service)
    requires Works(v) && HonestlyReachable(db, v) && Linked(db) && Shows(db, c) && Leads(c, attempt, AttemptRunning)
    requires input.status.UpdateNeedsInput? ==> Covered(c.s)
    ensures input.status.UpdateNeedsInput? ==>
      AppendUpdate(db, 0, attempt, c.token, input, QuestionFits(v.w, v.digest, v.brief, c.s, input, 0)) != Refused(PromptTooLarge)
  {
    hide HonestlyReachable, Reachable, Linked, Reserved, C.IsDigest, QuestionFits, Covered, AppendUpdate, ValidToken;
    HonestIsReachable(db, v);
    if input.status.UpdateNeedsInput? { ReportsAlwaysFit(db, 0, attempt, c.token, input, v.w, v.digest, v.brief); }
  }

  lemma ReportsRow(db: DB, c: Scene, attempt: Id, input: UpdateInput, fits: bool)
    requires Linked(db) && Shows(db, c) && Leads(c, attempt, AttemptRunning)
    requires c.s.state.WorkRunning? && c.s.owner.OwnerWorkerAttempt? && c.e.state.ExecRunning? && !c.e.cancel
    requires UpdateInputError(input).None? && !input.replayOnly && (attempt, input.request) !in c.requests
    requires OutcomeOf(c.s.updates, attempt).None? && ProgressCount(c.s.updates, attempt) < MAX_PROGRESS
    requires AppendUpdate(db, 0, attempt, c.token, input, fits) != Refused(PromptTooLarge) || !input.status.UpdateNeedsInput?
    ensures AppendUpdate(db, 0, attempt, c.token, input, fits).Done?
    ensures Shows(AppendUpdate(db, 0, attempt, c.token, input, fits).db,
                  c.(s := c.s.(updates := c.s.updates + [UpdateOf(attempt, input)]), requests := c.requests + {(attempt, input.request)}))
  {
    hide Linked, ValidToken, UpdateInputError, ProgressCount, OutcomeOf;
  }

  // ---------------------------------------------------------------- ending and retrying

  lemma Ends(before: DB, c: Scene, attempt: Id, claimed: AttemptState, v: Service) returns (db: DB)
    requires v.w.Valid() && HonestlyReachable(before, v) && Shows(before, c) && Leads(c, attempt, AttemptRunning)
    requires claimed.AttemptSucceeded? || claimed.AttemptFailed?
    requires c.s.stages[0].state.StagePending? && !c.e.cancel && OutcomeOf(c.s.updates, attempt).Some?
    ensures HonestlyReachable(db, v)
    ensures var v := Judge(false, AgentUpdate, OutcomeOf(c.s.updates, attempt), claimed, "", "");
      Shows(db, c.(s := JudgedSession(c.s, 0, v, OutcomeOf(c.s.updates, attempt)), e := c.e.(state := ExecutionOf(v.state)),
                   attempts := c.attempts[attempt := NewAttempt(c.token).(state := v.state)]))
  {
    hide HonestlyReachable, CompleteAttempt, OutcomeOf, JudgedSession, Step, Linked, KeysUnique, ValidToken;
    var call := Completing(attempt, c.token, claimed, "", "");
    HonestStep(before, 0, call, v);
    CompletingIs(before, 0, call);
    db := Step(before, 0, call);
    EndsRow(before, c, attempt, claimed);
  }

  lemma EndsRow(db: DB, c: Scene, attempt: Id, claimed: AttemptState)
    requires Linked(db) && Shows(db, c) && Leads(c, attempt, AttemptRunning)
    requires claimed.AttemptSucceeded? || claimed.AttemptFailed?
    requires c.s.stages[0].state.StagePending? && !c.e.cancel && OutcomeOf(c.s.updates, attempt).Some?
    ensures var o := CompleteAttempt(db, 0, attempt, c.token, claimed, "", "");
      var v := Judge(false, AgentUpdate, OutcomeOf(c.s.updates, attempt), claimed, "", "");
      && o.Done?
      && Shows(o.db, c.(s := JudgedSession(c.s, 0, v, OutcomeOf(c.s.updates, attempt)), e := c.e.(state := ExecutionOf(v.state)),
                        attempts := c.attempts[attempt := NewAttempt(c.token).(state := v.state)]))
  {
    var outcome := OutcomeOf(c.s.updates, attempt);
    var v := Judge(false, AgentUpdate, outcome, claimed, "", "");
    assert !v.missing;
    assert Bytes("") == 0;
    JudgedShape(c.s, v, outcome);
    assert CompleteAttempt(db, 0, attempt, c.token, claimed, "", "") == Ending(db, 0, attempt, v, outcome) by {
      hide Linked, ValidToken, Bytes, Ending, Judge;
    }
    assert v.result == "" && v.error == "";
    hide CompleteAttempt, Judge;
    EndingRow(db, c, attempt, v, outcome);
  }

  lemma EndingRow(db: DB, c: Scene, attempt: Id, v: Verdict, outcome: Option<WorkUpdate>)
    requires Linked(db) && Shows(db, c) && Leads(c, attempt, AttemptRunning) && v.result == "" && v.error == ""
    requires v.state.AttemptSucceeded? ==> AllSucceeded(JudgedStages(c.s.stages, v))
    requires var t := JudgedSession(c.s, 0, v, outcome); t.run == c.s.run && t.repository == c.s.repository && |t.stages| == 1
    ensures var o := Ending(db, 0, attempt, v, outcome);
      && o.Done?
      && Shows(o.db, c.(s := JudgedSession(c.s, 0, v, outcome), e := c.e.(state := ExecutionOf(v.state)),
                        attempts := c.attempts[attempt := NewAttempt(c.token).(state := v.state)]))
  {
    hide Linked, ValidToken, OtherLive, JudgedSession, JudgedStages, AllSucceeded, ExecutionOf;
    var t := JudgedSession(c.s, 0, v, outcome);
    CommitShows(db, c, attempt, NewAttempt(c.token).(state := v.state), t, c.e.(state := ExecutionOf(v.state)), Settled(db, 0, t, 0));
    hide Commit, Shows, Settled;
  }

  lemma CommitShows(db: DB, c: Scene, attempt: Id, a: Attempt, s: Session, e: Execution, t: Option<int>)
    requires Shows(db, c) && s.run == 0 && s.repository == 0 && |s.stages| == 1 && e.worker == 0
    ensures Shows(Commit(db, Some((attempt, a)), 0, s, Some(e), t), c.(s := s, e := e, attempts := c.attempts[attempt := a]))
  {
    hide ValidToken;
    assert db.sessions[0 := s] == map[0 := s];
    assert db.executions[0 := e] == map[0 := e];
  }

  lemma JudgedShape(s: Session, v: Verdict, outcome: Option<WorkUpdate>)
    requires |s.stages| == 1 && s.stages[0].state.StagePending? && !v.missing
    ensures var t := JudgedSession(s, 0, v, outcome); t.run == s.run && t.repository == s.repository && |t.stages| == 1
    ensures v.state.AttemptSucceeded? ==> AllSucceeded(JudgedStages(s.stages, v))
  {
  }

  lemma Retries(before: DB, c: Scene, v: Service) returns (db: DB)
    requires v.w.Valid() && HonestlyReachable(before, v) && Shows(before, c)
    requires c.s.state.WorkFailed? && c.s.owner.OwnerNone? && c.s.predecessor.None?
    ensures HonestlyReachable(db, v)
    ensures Shows(db, c.(s := Retried(c.s, 0), e := c.e.(worker := 0, state := ExecQueued, cancel := false)))
  {
    hide HonestlyReachable, Step, Linked, KeysUnique, Shows, RetrySession, Retried;
    var call := Retrying(0, 0, Some(0), {});
    HonestStep(before, 0, call, v);
    RetryingIs(before, 0, call);
    db := Step(before, 0, call);
    RetriesRow(before, c);
  }

  lemma RetriesRow(db: DB, c: Scene)
    requires Linked(db) && Shows(db, c) && c.s.state.WorkFailed? && c.s.owner.OwnerNone? && c.s.predecessor.None?
    ensures var o := RetrySession(db, 0, 0, 0, Some(0), {});
      o.Done? && Shows(o.db, c.(s := Retried(c.s, 0), e := c.e.(worker := 0, state := ExecQueued, cancel := false)))
  {
    hide Linked, ValidToken;
    assert !Replaced(db, 0);
    assert !MatchingLive(db, 0);
    assert SlotFree(db, 0) by { assert Slots(db, 0) == {}; }
    hide Replaced, MatchingLive, SlotFree;
    assert RetrySession(db, 0, 0, 0, Some(0), {}) == Done(Requeued(db, 0, 0, Some(0), {}), Nothing) by { hide Requeued; }
    hide RetrySession;
    RequeuesOne(db, c);
  }

  lemma RequeuesOne(db: DB, c: Scene)
    requires Linked(db) && Shows(db, c)
    ensures Shows(Requeued(db, 0, 0, Some(0), {}), c.(s := Retried(c.s, 0), e := c.e.(worker := 0, state := ExecQueued, cancel := false)))
  {
    AcquiringNothing(db);
    hide Linked, ValidToken, Acquire;
    assert db.sessions[0 := Retried(c.s, 0)] == map[0 := Retried(c.s, 0)];
  }

  // ---------------------------------------------------------------- the inputs

  function Sha64(): Sha { Repeat('f', 64) }

  function LongestPullRequest(): PullRequest { PullRequest(Repeat('u', 2048), Repeat('b', 255), Sha64()) }

  function Delivery(): UpdateInput { UpdateInput("ready", UpdateReady, "done", LongestPullRequest(), "", false, false) }

  function Progress(k: nat): UpdateInput { UpdateInput(Repeat('p', k), UpdateRunning, "working", NO_PULL_REQUEST, "", false, false) }

  function Question(): UpdateInput { UpdateInput("ask", UpdateNeedsInput, R.WorstQuestion(), NO_PULL_REQUEST, Sha64(), true, false) }

  function LongestAnswer(): string { Repeat('a', MAX_ANSWER_BYTES) }

  lemma NotBlank(text: string)
    requires text != "" && !IsSpace(text[0])
    ensures !Blank(text)
  {
  }

  lemma ShaIsValid()
    ensures ValidCommitSha(Sha64()) && Bytes(Sha64()) == 64
  {
    BytesOfRepeat('f', 64);
    hide Bytes;
  }

  lemma LongestPullRequestBytes()
    ensures var p := LongestPullRequest();
      Bytes(p.url) == 2048 && Bytes(p.branch) == 255 && Bytes(p.sha) == 64 && ValidCommitSha(p.sha) && p.url != "" && p.branch != ""
  {
    hide Bytes, Repeat, ValidCommitSha, Sha64;
    ShaIsValid();
    BytesOfRepeat('u', 2048);
    BytesOfRepeat('b', 255);
  }

  lemma DeliveryPasses()
    ensures UpdateInputError(Delivery()).None?
  {
    NotBlank("done");
    AsciiBytes("done");
    AsciiBytes("");
    LongestPullRequestBytes();
    hide Bytes, Blank, ValidCommitSha, LongestPullRequest;
  }

  lemma ProgressPasses(k: nat)
    ensures UpdateInputError(Progress(k)).None?
  {
    NotBlank("working");
    AsciiBytes("working");
    AsciiBytes("");
    hide Bytes, Blank, ValidCommitSha, Repeat;
  }

  lemma QuestionPasses()
    ensures UpdateInputError(Question()).None?
  {
    hide Bytes, Blank, ValidCommitSha, Sha64, R.WorstQuestion, P.Escape;
    R.WorstQuestionBytes();
    AsciiBytes("");
    ShaIsValid();
  }

  lemma LongestAnswerBytes()
    ensures !Blank(LongestAnswer()) && Bytes(LongestAnswer()) == MAX_ANSWER_BYTES
  {
    NotBlank(LongestAnswer());
    BytesOfRepeat('a', MAX_ANSWER_BYTES);
    hide Bytes, Blank, Repeat;
  }

  lemma {:induction false} OutcomeOfMore(updates: seq<WorkUpdate>, u: WorkUpdate, attempt: Id)
    requires OutcomeOf(updates, attempt).None?
    ensures OutcomeOf(updates + [u], attempt) == if u.attempt == attempt && !u.status.UpdateRunning? then Some(u) else None
  {
    if updates == [] {
      assert [] + [u] == [u] && [u][1..] == [];
    } else {
      assert (updates + [u])[1..] == updates[1..] + [u];
      OutcomeOfMore(updates[1..], u, attempt);
    }
  }

  lemma {:induction false} ProgressOfMore(updates: seq<WorkUpdate>, u: WorkUpdate, attempt: Id)
    ensures ProgressCount(updates + [u], attempt) == ProgressCount(updates, attempt) + if u.attempt == attempt && u.status.UpdateRunning? then 1 else 0
  {
    if updates == [] {
      assert [] + [u] == [u] && [u][1..] == [];
    } else {
      assert (updates + [u])[1..] == updates[1..] + [u];
      ProgressOfMore(updates[1..], u, attempt);
    }
  }

  // ---------------------------------------------------------------- the run

  /** The second Attempt runs; the first one failed after it had reported a pull request. */
  predicate Midway(c: Scene, n: nat) {
    && c.s.state.WorkRunning? && c.s.owner.OwnerWorkerAttempt? && c.s.mayRepeat && c.s.pullRequest == LongestPullRequest()
    && c.s.answers == [] && |c.s.updates| == n + 1 && |c.s.stages| == 1 && c.s.stages[0].state.StagePending?
    && c.e.state.ExecRunning? && !c.e.cancel && Leads(c, 1, AttemptRunning)
    && OutcomeOf(c.s.updates, 1).None? && ProgressCount(c.s.updates, 1) == n
    && forall q <- c.requests :: q.0 == 1 ==> q.1 == Repeat('p', |q.1|) && |q.1| < n
  }

  lemma FirstAttempt(token: Token, v: Service) returns (db: DB, c: Scene)
    requires Works(v) && ValidToken(token)
    ensures HonestlyReachable(db, v) && Shows(db, c) && c.token == token
    ensures c.s.state.WorkRunning? && c.s.owner.OwnerWorkerAttempt? && c.s.startedAt.Some? && c.s.predecessor.None?
    ensures c.s.pendingResume == "" && c.s.answers == [] && c.s.updates == [UpdateOf(0, Delivery())]
    ensures |c.s.stages| == 1 && c.s.stages[0].state.StagePending?
    ensures c.e.state.ExecRunning? && !c.e.cancel && Leads(c, 0, AttemptRunning) && c.attempts.Keys == {0}
    ensures c.requests == {(0, "ready")} && c.claims == {(0, "first")}
  {
    hide HonestlyReachable, Shows, Reserved, C.IsDigest, ValidToken, UpdateInputError, Blank, Bytes, OutcomeOf, ProgressCount, Covered;
    db := Registers(v);
    db := Admits(db, token, v);
    c := Scene(token, FreshSession(0, OneTarget(), None, 0, 0, Some(0)), Execution(0, ExecQueued, false, 0), map[], {}, {});
    NotBlank("first");
    assert Bytes("first") <= 200 by { AsciiBytes("first"); }
    db := Claims(db, c, "first", 0, v);
    c := Scene(token, Taken(c.s, 0), c.e.(state := ExecPreparing, cancel := false), c.attempts[0 := NewAttempt(token)], {}, {} + {(0, "first")});
    db := Starts(db, c, 0, v);
    c := c.(s := Started(c.s, 0), e := c.e.(state := ExecRunning), attempts := c.attempts[0 := NewAttempt(token).(state := AttemptRunning)]);
    DeliveryPasses();
    assert OutcomeOf([], 0).None? && ProgressCount([], 0) == 0 by { EmptyHistory(0); }
    db := ReportsOnce(db, c, 0, Delivery(), v);
    c := c.(s := c.s.(updates := c.s.updates + [UpdateOf(0, Delivery())]), requests := c.requests + {(0, "ready")});
  }

  lemma EmptyHistory(attempt: Id)
    ensures OutcomeOf([], attempt).None? && ProgressCount([], attempt) == 0
  {
  }

  /** A failed Attempt leaves the pull request it reported, and a retry says that effects may repeat. */
  lemma FailsAndRetries(s: Session, u: WorkUpdate)
    requires |s.stages| == 1 && s.startedAt.Some? && u.status.UpdateReady?
    ensures var failed := JudgedSession(s, 0, Judge(false, AgentUpdate, Some(u), AttemptFailed, "", ""), Some(u));
      var retried := Retried(failed, 0);
      && failed.state.WorkFailed? && failed.owner.OwnerNone? && failed.predecessor == s.predecessor
      && retried.state.WorkQueued? && retried.mayRepeat && retried.pullRequest == u.pullRequest
      && retried.updates == s.updates && retried.answers == s.answers && retried.pendingResume == s.pendingResume
      && |retried.stages| == 1 && retried.stages[0].state.StagePending?
  {
  }

  /** A successful Attempt that asked leaves the Work waiting for the answer. */
  lemma SucceedsAndWaits(s: Session, u: WorkUpdate)
    requires |s.stages| == 1 && u.status.UpdateNeedsInput?
    ensures var waiting := JudgedSession(s, 0, Judge(false, AgentUpdate, Some(u), AttemptSucceeded, "", ""), Some(u));
      && waiting.state.WorkNeedsInput? && waiting.owner.OwnerNone? && waiting.mayRepeat == s.mayRepeat
      && waiting.pullRequest == s.pullRequest && waiting.question == u.message && waiting.checkpoint == u.checkpoint
      && waiting.pendingResume == u.checkpoint && waiting.updates == s.updates && waiting.answers == s.answers
  {
  }

  lemma SecondAttempt(token: Token, v: Service) returns (db: DB, c: Scene)
    requires Works(v) && ValidToken(token)
    ensures HonestlyReachable(db, v) && Shows(db, c) && Midway(c, 0) && c.token == token
  {
    hide HonestlyReachable, Shows, Reserved, C.IsDigest, ValidToken, UpdateInputError, Blank, Bytes, OutcomeOf, ProgressCount, LongestPullRequest;
    db, c := FirstAttempt(token, v);
    var u := UpdateOf(0, Delivery());
    EmptyHistory(0);
    EmptyHistory(1);
    assert [] + [u] == [u];
    OutcomeOfMore([], u, 0);
    OutcomeOfMore([], u, 1);
    ProgressOfMore([], u, 1);
    var verdict := Judge(false, AgentUpdate, Some(u), AttemptFailed, "", "");
    db := Ends(db, c, 0, AttemptFailed, v);
    FailsAndRetries(c.s, u);
    hide JudgedSession, Retried;
    c := c.(s := JudgedSession(c.s, 0, verdict, Some(u)), e := c.e.(state := ExecutionOf(verdict.state)),
            attempts := c.attempts[0 := NewAttempt(token).(state := verdict.state)]);
    db := Retries(db, c, v);
    c := c.(s := Retried(c.s, 0), e := c.e.(worker := 0, state := ExecQueued, cancel := false));
    NotBlank("second");
    assert Bytes("second") <= 200 by { AsciiBytes("second"); }
    assert |c.attempts| == 1 by { assert c.attempts.Keys == {0}; assert |c.attempts.Keys| == |c.attempts|; }
    db := Claims(db, c, "second", 1, v);
    c := Scene(token, Taken(c.s, 0), c.e.(state := ExecPreparing, cancel := false), c.attempts[1 := NewAttempt(token)],
               c.requests, c.claims + {(0, "second")});
    db := Starts(db, c, 1, v);
    c := c.(s := Started(c.s, 0), e := c.e.(state := ExecRunning), attempts := c.attempts[1 := NewAttempt(token).(state := AttemptRunning)]);
  }

  lemma {:induction false} Progresses(token: Token, n: nat, v: Service) returns (db: DB, c: Scene)
    requires Works(v) && ValidToken(token) && n <= MAX_PROGRESS
    ensures HonestlyReachable(db, v) && Shows(db, c) && Midway(c, n) && c.token == token
  {
    hide HonestlyReachable, Shows, Reserved, C.IsDigest, ValidToken, UpdateInputError, Blank, Bytes, OutcomeOf, ProgressCount, LongestPullRequest, Covered;
    if n == 0 {
      db, c := SecondAttempt(token, v);
    } else {
      db, c := Progresses(token, n - 1, v);
      ProgressPasses(n - 1);
      var u := UpdateOf(1, Progress(n - 1));
      db := ReportsOnce(db, c, 1, Progress(n - 1), v);
      OutcomeOfMore(c.s.updates, u, 1);
      ProgressOfMore(c.s.updates, u, 1);
      c := c.(s := c.s.(updates := c.s.updates + [u]), requests := c.requests + {(1, Progress(n - 1).request)});
    }
  }

  /** The Work waits for an answer to the worst question, with nine records on file. */
  predicate Waits(s: Session) {
    && s.state.WorkNeedsInput? && s.owner.OwnerNone? && s.mayRepeat && s.pullRequest == LongestPullRequest()
    && s.question == R.WorstQuestion() && s.checkpoint == Sha64() && s.pendingResume == Sha64()
    && s.answers == [] && |s.updates| == 9
  }

  lemma Asks(token: Token, v: Service) returns (db: DB, c: Scene)
    requires Works(v) && ValidToken(token)
    ensures HonestlyReachable(db, v) && Shows(db, c) && Waits(c.s)
  {
    hide HonestlyReachable, Shows, Reserved, C.IsDigest, ValidToken, UpdateInputError, Blank, Bytes, OutcomeOf, ProgressCount, LongestPullRequest, Covered;
    db, c := Progresses(token, 7, v);
    QuestionPasses();
    assert Covered(c.s) by { NineAreCovered(c.s); }
    assert (1, "ask") !in c.requests by { assert "ask"[0] != Repeat('p', 3)[0]; }
    var u := UpdateOf(1, Question());
    db := ReportsOnce(db, c, 1, Question(), v);
    OutcomeOfMore(c.s.updates, u, 1);
    c := c.(s := c.s.(updates := c.s.updates + [u]), requests := c.requests + {(1, "ask")});
    var verdict := Judge(false, AgentUpdate, Some(u), AttemptSucceeded, "", "");
    db := Ends(db, c, 1, AttemptSucceeded, v);
    SucceedsAndWaits(c.s, u);
    hide JudgedSession;
    c := c.(s := JudgedSession(c.s, 0, verdict, Some(u)), e := c.e.(state := ExecutionOf(verdict.state)),
            attempts := c.attempts[1 := NewAttempt(token).(state := verdict.state)]);
  }

  lemma NineAreCovered(s: Session)
    requires |s.updates| == 8 && s.answers == [] && s.pullRequest == LongestPullRequest()
    ensures Covered(s)
  {
    LongestPullRequestBytes();
    hide Bytes, LongestPullRequest;
  }

  // ---------------------------------------------------------------- the refused answer

  lemma TenAreNot(url: string)
    requires Bytes(url) == 2048
    ensures !R.Coverable(Bytes(url), 10)
  {
    assert |Decimal(10)| == 2;
    hide Bytes;
  }

  /** The state in which the longest answer is weighed is the worst one. */
  lemma AnswerIsWorst(b: Brief, s: Session)
    requires Waits(s)
    ensures StateOf(b, s, s.question, LongestAnswer())
      == R.WorstState(b.title, b.repository, b.branch, LongestPullRequest().url).(resolvedPrompt := b.prompt)
  {
    hide R.WorstQuestion, R.ReserveUrl, Repeat;
  }

  lemma WorstDoesNotFit(v: Service, title: string, repository: string, branch: string, history: seq<P.Entry>)
    requires Works(v) && |history| == 10 && R.ReserveFits(v.w, v.digest, title, repository, "", branch)
    ensures var worst := R.WorstState(title, repository, branch, LongestPullRequest().url);
      A.Assembled(v.w, v.digest, worst.(resolvedPrompt := R.Tightest(v.w, worst)), history).None?
  {
    LongestPullRequestBytes();
    hide Bytes, LongestPullRequest, R.Tightest, R.ReserveFits, Reserved, C.IsDigest, R.WorstState, R.Coverable, A.Assembled;
    TenAreNot(LongestPullRequest().url);
    R.WorstFails(v.w, v.digest, title, repository, branch, LongestPullRequest().url, history);
  }

  lemma AnswerDoesNotFit(s: Session, title: string, repository: string, branch: string, v: Service)
    requires Works(v) && Waits(s) && HistoryOk(s.updates, s.answers)
    requires R.ReserveFits(v.w, v.digest, title, repository, "", branch)
    requires v.brief == Brief(title, repository, R.Tightest(v.w, R.WorstState(title, repository, branch, LongestPullRequest().url)), branch)
    ensures !AnswerFits(v.w, v.digest, v.brief, s, LongestAnswer(), 0)
  {
    hide LongestPullRequest, R.Tightest, R.ReserveFits, Reserved, C.IsDigest, R.WorstState, StateOf, HistoryOf, HistoryOk, LongestAnswer;
    hide A.Assembled, AnswerEntry;
    var question := LastQuestion(s.updates);
    var replied := AnswerEntry(WorkAnswer("", if question.Some? then question.value else 0, LongestAnswer(), 0));
    HistorySize(s);
    AnswerIsWorst(v.brief, s);
    WorstDoesNotFit(v, title, repository, branch, HistoryOf(s) + [replied]);
  }

  /** In some honest run Work waits for input and its answer, in order and no longer than allowed, is refused because
      the recovery prompt does not fit. */
  lemma SomeAnswerIsTooLarge(w: C.Wording, digest: string -> string, title: string, repository: string, branch: string)
    requires w.Valid() && C.IsDigest(digest) && R.ReserveFits(w, digest, title, repository, "", branch)
    ensures exists v: Service, db: DB ::
      && v.w == w && v.digest == digest && v.brief.title == title && v.brief.repository == repository && v.brief.branch == branch
      && Works(v) && HonestlyReachable(db, v) && Linked(db) && 0 in db.sessions && Waits(db.sessions[0])
      && !Blank(LongestAnswer()) && Bytes(LongestAnswer()) <= MAX_ANSWER_BYTES
      && AnswerWork(db, 0, 0, "answer", LongestAnswer(), AnswerFits(w, digest, v.brief, db.sessions[0], LongestAnswer(), 0), None, {})
        == Refused(PromptTooLarge)
  {
    hide Inv, Bytes, R.ReserveFits, R.Tightest, C.IsDigest, HonestlyReachable, R.WorstState, LongestPullRequest, LongestAnswer, Blank, AnswerWork, Waits, AnswerFits, HistoryOk;
    LongestAnswerBytes();
    var worst := R.WorstState(title, repository, branch, LongestPullRequest().url);
    var v := Service(w, digest, Brief(title, repository, R.Tightest(w, worst), branch));
    assert Works(v) by { TightIsReserved(w, digest, title, repository, branch); }
    hide Works;
    var token := Repeat('t', 32);
    assert ValidToken(token) by { BytesOfRepeat('t', 32); }
    var db, c := Asks(token, v);
    HonestIsReachable(db, v);
    ReachableWork(db, 0);
    AnswerDoesNotFit(c.s, title, repository, branch, v);
    ReachableIsSound(db);
    InvIsLinked(db);
    AnswerIsRefused(db, v);
  }

  lemma TightIsReserved(w: C.Wording, digest: string -> string, title: string, repository: string, branch: string)
    requires w.Valid() && C.IsDigest(digest) && R.ReserveFits(w, digest, title, repository, "", branch)
    ensures R.ReserveFits(w, digest, title, repository,
                          R.Tightest(w, R.WorstState(title, repository, branch, LongestPullRequest().url)), branch)
  {
    LongestPullRequestBytes();
    var ten := seq(10, _ => AnswerEntry(WorkAnswer("", 0, "", 0)));
    hide Bytes, R.ReserveFits, R.Tightest, C.IsDigest, LongestPullRequest, R.Coverable, R.WorstState;
    TenAreNot(LongestPullRequest().url);
    R.WorstFails(w, digest, title, repository, branch, LongestPullRequest().url, ten);
  }

  lemma AnswerIsRefused(db: DB, v: Service)
    requires Works(v) && Reachable(db) && Linked(db) && 0 in db.sessions && Waits(db.sessions[0])
    requires !AnswerFits(v.w, v.digest, v.brief, db.sessions[0], LongestAnswer(), 0)
    ensures AnswerWork(db, 0, 0, "answer", LongestAnswer(), AnswerFits(v.w, v.digest, v.brief, db.sessions[0], LongestAnswer(), 0), None, {})
      == Refused(PromptTooLarge)
  {
    LongestAnswerBytes();
    hide Reachable, Linked, Works, AnswerFits, Bytes, Blank, LongestAnswer, ValidCommitSha;
    WaitingWorkCanResume(db, 0);
  }
}
