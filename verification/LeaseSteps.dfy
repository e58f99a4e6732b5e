/** The transactions of the Worker that holds a lease, and the sweep that ends lapsed leases, keep the invariant. */
module LeaseSteps {
  import opened Common
  import opened Tables
  import opened Transitions
  import opened Invariant

  lemma RewritingSame<K, V>(m: map<K, V>, k: K)
    requires k in m
    ensures m[k := m[k]] == m
  {
  }

  // ---------------------------------------------------------------- the Work of a lease

  lemma CommitKeepsInv(db: DB, attempt: Option<(Id, Attempt)>, id: Id, s: Session, e: Option<Execution>, t: Option<int>)
    requires Inv(db) && CommitFits(db, attempt, id, s, e, t)
    requires WorkOk(Commit(db, attempt, id, s, e, t), id)
    ensures Inv(Commit(db, attempt, id, s, e, t))
  {
    hide Core;
    CommitKeeps(db, attempt, id, s, e, t);
  }

  /** What a live lease says about the Work behind it. */
  lemma LeaseHolds(db: DB, attempt: Id)
    requires Inv(db) && attempt in db.attempts && db.attempts[attempt].state.Active()
    ensures db.attempts[attempt].session in db.executions && db.attempts[attempt].session in db.sessions
    ensures var s, e := db.sessions[db.attempts[attempt].session], db.executions[db.attempts[attempt].session];
      && SessionOk(s) && ExecutionOk(s, e) && s.run in db.runs
      && AttemptsOk(db.attempts, db.executions, db.attempts[attempt].session, s)
      && LeaseOk(s, e, attempt, db.attempts[attempt])
      && s.state == (if db.attempts[attempt].state.AttemptPreparing? then WorkPreparing else WorkRunning)
      && e.state == ExecutionOf(db.attempts[attempt].state) && e.worker == db.attempts[attempt].worker
  {
    var id := db.attempts[attempt].session;
    assert WorkOk(db, id);
    assert ActiveFor(db.attempts, attempt, id);
  }

  lemma LinkedInv(db: DB)
    requires Inv(db)
    ensures Linked(db)
  {
  }

  lemma LeaseHasWork(db: DB, attempt: Id)
    requires Linked(db) && attempt in db.attempts
    ensures db.attempts[attempt].session in db.executions && db.attempts[attempt].session in db.sessions
    ensures db.sessions[db.attempts[attempt].session].run in db.runs
  {
  }

  lemma WorkHasRun(db: DB, work: Id)
    requires Linked(db)
    ensures work in db.sessions ==> db.sessions[work].run in db.runs
  {
  }

  /** Live Work belongs to a Run that has not ended. */
  lemma LiveRunIsOpen(db: DB, id: Id)
    requires Inv(db) && id in db.sessions && !db.sessions[id].state.Terminal()
    ensures db.sessions[id].run in db.runs && db.runs[db.sessions[id].run].terminalAt.None?
  {
    assert RunOk(db, db.sessions[id].run);
  }

  /** A live lease rewrites its Work and stays live; it may report one more update. */
  ghost predicate LeaseStaysFits(was: Session, s: Session, attempt: Id, a: Attempt, e: Execution) {
    && a.state.Active() && e.state == ExecutionOf(a.state) && e.worker == a.worker
    && SameIdentity(was, s) && s.answers == was.answers
    && (forall i :: |was.updates| <= i < |s.updates| ==> s.updates[i].attempt == attempt)
    && SessionOk(s) && ExecutionOk(s, e)
  }

  lemma LeaseStaysOk(attempts: map<Id, Attempt>, executions: map<Id, Execution>, was: Session, s: Session,
                     attempt: Id, a: Attempt, e: Execution)
    requires AttemptsOk(attempts, executions, a.session, was) && forall x <- was.answers :: x.question < |was.updates|
    requires ActiveFor(attempts, attempt, a.session) && LeaseStaysFits(was, s, attempt, a, e)
    ensures AttemptsOk(attempts[attempt := a], executions[a.session := e], a.session, s)
  {
    var next := attempts[attempt := a];
    assert ActiveFor(next, attempt, a.session);
    forall x | ActiveFor(next, x, a.session) ensures x == attempt {
      assert ActiveFor(attempts, x, a.session);
    }
    assert LeaseOk(was, executions[a.session], attempt, attempts[attempt]);
    assert forall i :: 0 <= i < |was.updates| ==> was.updates[i] == s.updates[i];
  }

  lemma AnswersLinked(s: Session)
    requires SessionOk(s)
    ensures forall x <- s.answers :: x.question < |s.updates|
  {
  }

  lemma LeaseStays(db: DB, attempt: Id, a: Attempt, s: Session, e: Execution)
    requires Inv(db) && attempt in db.attempts && db.attempts[attempt].state.Active()
    requires SameLease(db.attempts[attempt], a) && a.session in db.sessions && s.run in db.runs
    requires LeaseStaysFits(db.sessions[a.session], s, attempt, a, e)
    ensures Inv(Commit(db, Some((attempt, a)), a.session, s, Some(e), EndOf(db, s)))
  {
    hide Inv, StagesFit;
    LeaseHolds(db, attempt);
    LiveRunIsOpen(db, a.session);
    AnswersLinked(db.sessions[a.session]);
    LeaseStaysOk(db.attempts, db.executions, db.sessions[a.session], s, attempt, a, e);
    hide SessionOk, ExecutionOk, AttemptsOk;
    CommitKeepsInv(db, Some((attempt, a)), a.session, s, Some(e), EndOf(db, s));
  }

  ghost predicate LeasedWorkFits(was: Session, s: Session, attempt: Id) {
    && SameIdentity(was, s) && s.answers == was.answers && s.state == was.state && s.cancel == was.cancel
    && s.worker == was.worker && (forall i :: |was.updates| <= i < |s.updates| ==> s.updates[i].attempt == attempt)
    && SessionOk(s)
  }

  /** Rewriting an Attempt and an execution to what they are is not rewriting them. */
  lemma CommitOfSession(db: DB, attempt: Id, s: Session)
    requires attempt in db.attempts && db.attempts[attempt].session in db.executions && s.run in db.runs
    ensures var id := db.attempts[attempt].session;
      Commit(db, None, id, s, None, EndOf(db, s))
      == Commit(db, Some((attempt, db.attempts[attempt])), id, s, Some(db.executions[id]), EndOf(db, s))
  {
    RewritingSame(db.attempts, attempt);
    RewritingSame(db.executions, db.attempts[attempt].session);
  }

  lemma LeasedWorkStaysFits(was: Session, s: Session, attempt: Id, a: Attempt, e: Execution)
    requires LeasedWorkFits(was, s, attempt) && a.state.Active() && ExecutionOk(was, e) && LeaseOk(was, e, attempt, a)
    ensures LeaseStaysFits(was, s, attempt, a, e) && s.run == was.run
  {
    hide SessionOk;
  }

  /** The same for a transaction that touches only the Session. */
  lemma LeasedWorkStays(db: DB, attempt: Id, s: Session)
    requires Inv(db) && attempt in db.attempts && db.attempts[attempt].state.Active()
    requires db.attempts[attempt].session in db.sessions && s.run in db.runs
    requires LeasedWorkFits(db.sessions[db.attempts[attempt].session], s, attempt)
    ensures Inv(Commit(db, None, db.attempts[attempt].session, s, None, EndOf(db, s)))
  {
    var a := db.attempts[attempt];
    hide Inv, SessionOk, AttemptsOk, LeaseOk, SameIdentity, Commit, LeasedWorkFits, LeaseStaysFits, ExecutionOk;
    LeaseHolds(db, attempt);
    CommitOfSession(db, attempt, s);
    LeasedWorkStaysFits(db.sessions[a.session], s, attempt, a, db.executions[a.session]);
    LeaseStays(db, attempt, a, s, db.executions[a.session]);
  }

  lemma StartedOk(s: Session, e: Execution, now: int)
    requires SessionOk(s) && ExecutionOk(s, e) && s.state.WorkPreparing?
    ensures SessionOk(Started(s, now)) && ExecutionOk(Started(s, now), e.(state := ExecRunning))
  {
  }

  lemma ClearedOk(s: Session)
    requires SessionOk(s) && s.state.WorkRunning?
    ensures SessionOk(s.(pendingResume := ""))
  {
  }

  lemma StartAttemptKeeps(db: DB, now: int, attempt: Id, token: Token, from: Sha, runtimeStarted: bool)
    requires Inv(db) && Linked(db)
    ensures Inv(After(db, StartAttempt(db, now, attempt, token, from, runtimeStarted)))
  {
    hide Inv, Linked, SessionOk, ExecutionOk, AttemptsOk;
    var o := StartAttempt(db, now, attempt, token, from, runtimeStarted);
    if o.Done? && o.db != db {
      LeaseHolds(db, attempt);
      var a := db.attempts[attempt];
      var s, e := db.sessions[a.session], db.executions[a.session];
      if a.state.AttemptPreparing? {
        StartedOk(s, e, now);
        LeaseStays(db, attempt, a.(state := AttemptRunning), Started(s, now), e.(state := ExecRunning));
      } else {
        ClearedOk(s);
        LeasedWorkStays(db, attempt, s.(pendingResume := ""));
      }
    }
  }

  lemma HeartbeatKeeps(db: DB, now: int, attempt: Id, token: Token)
    requires Inv(db) && Linked(db)
    ensures Inv(After(db, Heartbeat(db, now, attempt, token)))
  {
    hide Inv, Linked, SessionOk, ExecutionOk, AttemptsOk;
    var o := Heartbeat(db, now, attempt, token);
    if o.Done? {
      LeaseHolds(db, attempt);
      var a := db.attempts[attempt];
      RewritingSame(db.executions, a.session);
      LeaseStays(db, attempt, a.(expiry := now + LEASE_MILLIS), db.sessions[a.session], db.executions[a.session]);
    }
  }

  // ---------------------------------------------------------------- stages

  lemma StartedStageOk(s: Session, position: nat)
    requires SessionOk(s) && s.state.WorkRunning? && position < |s.stages| && s.stages[position].state.Open()
    requires AllSucceeded(s.stages[..position])
    ensures SessionOk(s.(stages := s.stages[position := s.stages[position].(state := StageRunning)]))
  {
  }

  lemma EndedStageOk(s: Session, position: nat, ended: Stage)
    requires SessionOk(s) && s.state.WorkRunning? && position < |s.stages|
    requires s.stages[position].state.StageRunning? && !ended.state.Open()
    ensures SessionOk(s.(stages := EndStage(s.stages, position, ended)))
  {
    var stages := EndStage(s.stages, position, ended);
    forall i, j | 0 <= i < j < |stages| ensures Follows(stages[i].state, stages[j].state) {
      assert Follows(s.stages[i].state, s.stages[j].state);
      if i < position { assert Follows(s.stages[i].state, s.stages[position].state); }
      if position < j { assert Follows(s.stages[position].state, s.stages[j].state); }
    }
  }

  lemma StartStageKeeps(db: DB, now: int, attempt: Id, token: Token, position: int)
    requires Inv(db) && Linked(db)
    ensures Inv(After(db, StartStage(db, now, attempt, token, position)))
  {
    hide Inv, Linked, SessionOk, ExecutionOk, AttemptsOk;
    var o := StartStage(db, now, attempt, token, position);
    if o.Done? {
      LeaseHolds(db, attempt);
      var s := db.sessions[db.attempts[attempt].session];
      StartedStageOk(s, position);
      LeasedWorkStays(db, attempt, s.(stages := s.stages[position := s.stages[position].(state := StageRunning)]));
    }
  }

  lemma CompleteStageKeeps(db: DB, now: int, attempt: Id, token: Token, position: int, ended: Stage)
    requires Inv(db) && Linked(db)
    ensures Inv(After(db, CompleteStage(db, now, attempt, token, position, ended)))
  {
    hide Inv, Linked, SessionOk, ExecutionOk, AttemptsOk;
    var o := CompleteStage(db, now, attempt, token, position, ended);
    if o.Done? && o.db != db {
      LeaseHolds(db, attempt);
      var s := db.sessions[db.attempts[attempt].session];
      EndedStageOk(s, position, ended);
      LeasedWorkStays(db, attempt, s.(stages := EndStage(s.stages, position, ended)));
    }
  }

  // ---------------------------------------------------------------- agent updates

  predicate WellFormed(u: WorkUpdate) {
    && (u.status.UpdateNeedsInput? ==> ValidCommitSha(u.checkpoint) && u.message != "")
    && (u.status.UpdateReady? ==> u.pullRequest.url != "")
  }

  lemma AppendedOk(s: Session, u: WorkUpdate)
    requires SessionOk(s) && s.state.WorkRunning? && WellFormed(u) && OutcomeOf(s.updates, u.attempt).None?
    ensures SessionOk(s.(updates := s.updates + [u]))
  {
    var updates := s.updates + [u];
    assert forall x <- updates :: x in s.updates || x == u;
    assert forall x <- s.updates :: x in updates;
    assert HistoryOk(updates, s.answers);
  }

  lemma SameWorkKept(db: DB, next: DB)
    requires WorksOk(db) && next.sessions == db.sessions && next.executions == db.executions && next.attempts == db.attempts
    ensures WorksOk(next)
  {
    forall id | id in next.sessions ensures WorkOk(next, id) { assert WorkOk(db, id); }
  }

  lemma SameRunsKept(db: DB, next: DB)
    requires RunsOk(db) && next.sessions == db.sessions && next.runs == db.runs
    ensures RunsOk(next) && ((forall r <- db.runs :: HasWork(db, r)) ==> forall r <- next.runs :: HasWork(next, r))
  {
    forall r | r in next.runs ensures RunOk(next, r) && HasWork(next, r) == HasWork(db, r) {
      assert RunOk(db, r);
      RunUntouched(db, next, r);
    }
  }

  /** Tables outside the five of the protocol do not matter to it. */
  lemma OtherTablesKeep(db: DB, next: DB)
    requires Core(db) && next.runs == db.runs && next.sessions == db.sessions && next.executions == db.executions
    requires next.attempts == db.attempts && next.rows == db.rows
    requires RequestsLinked(next) && ClaimsOk(next) && RequestsOk(next)
    ensures Core(next) && (Inv(db) ==> Inv(next))
  {
    hide WorkOk, RunOk, HasWork, ClaimsOk, RequestsOk;
    SameWorkKept(db, next);
    SameRunsKept(db, next);
    assert LineageOk(next) && KeysUnique(next) && SessionsLinked(next) && AttemptsLinked(next);
  }

  lemma RequestAdded(db: DB, next: DB, attempt: Id, request: string, q: UpdateRequest)
    requires RequestsLinked(db) && ClaimsOk(db) && RequestsOk(db)
    requires attempt in db.attempts && db.attempts[attempt].session in db.sessions
    requires RequestOk(attempt, q, db.sessions[db.attempts[attempt].session].updates)
    requires next == db.(updateRequests := db.updateRequests[(attempt, request) := q])
    ensures RequestsLinked(next) && ClaimsOk(next) && RequestsOk(next)
  {
  }

  /** A remembered request may be added when it describes the update it names. */
  lemma RememberKeeps(db: DB, attempt: Id, request: string, q: UpdateRequest)
    requires Inv(db) && Linked(db) && attempt in db.attempts
    requires RequestOk(attempt, q, db.sessions[db.attempts[attempt].session].updates)
    ensures Inv(db.(updateRequests := db.updateRequests[(attempt, request) := q]))
  {
    hide WorksOk, RunsOk, LineageOk, KeysUnique, HasWork, SessionsLinked, RequestsLinked, ClaimsOk, RequestsOk, RequestOk;
    var next := db.(updateRequests := db.updateRequests[(attempt, request) := q]);
    RequestAdded(db, next, attempt, request, q);
    OtherTablesKeep(db, next);
  }

  lemma AppendUpdateKeeps(db: DB, now: int, attempt: Id, token: Token, input: UpdateInput, fits: bool)
    requires Inv(db) && Linked(db)
    ensures Inv(After(db, AppendUpdate(db, now, attempt, token, input, fits)))
  {
    hide Inv, Linked, SessionOk, ExecutionOk, AttemptsOk, ValidToken, ProgressCount;
    var o := AppendUpdate(db, now, attempt, token, input, fits);
    if o.Done? && o.db != db {
      LeaseHasWork(db, attempt);
      var id := db.attempts[attempt].session;
      var s := db.sessions[id];
      var outcome := OutcomeOf(s.updates, attempt);
      if outcome.Some? {
        RememberKeeps(db, attempt, input.request, RequestOf(input, PositionOf(s.updates, outcome.value)));
      } else {
        LeaseHolds(db, attempt);
        var u := WorkUpdate(attempt, input.request, input.status, input.message, input.pullRequest,
                            input.checkpoint, input.published, now);
        AppendedOk(s, u);
        var t := s.(updates := s.updates + [u]);
        LeasedWorkStays(db, attempt, t);
        LinkedInv(Commit(db, None, id, t, None, EndOf(db, s)));
        RememberKeeps(Commit(db, None, id, t, None, EndOf(db, s)), attempt, input.request, RequestOf(input, |s.updates|));
      }
    }
  }

  // ---------------------------------------------------------------- the end of an Attempt

  ghost predicate LeaseEndsFits(was: Session, s: Session, a: Attempt, e: Execution) {
    && !a.state.Active() && !e.state.Active() && !s.state.Slot()
    && SameIdentity(was, s) && s.updates == was.updates && s.answers == was.answers
    && SessionOk(s) && ExecutionOk(s, e)
  }

  lemma LeaseEndsOk(attempts: map<Id, Attempt>, executions: map<Id, Execution>, was: Session, s: Session,
                    attempt: Id, a: Attempt, e: Execution)
    requires AttemptsOk(attempts, executions, a.session, was) && ActiveFor(attempts, attempt, a.session)
    requires LeaseEndsFits(was, s, a, e)
    ensures AttemptsOk(attempts[attempt := a], executions[a.session := e], a.session, s)
  {
    var next := attempts[attempt := a];
    assert forall x :: ActiveFor(next, x, a.session) ==> ActiveFor(attempts, x, a.session) && x != attempt;
  }

  lemma LeaseEnds(db: DB, now: int, attempt: Id, a: Attempt, s: Session, e: Execution)
    requires Inv(db) && attempt in db.attempts && db.attempts[attempt].state.Active()
    requires SameLease(db.attempts[attempt], a) && a.session in db.sessions && s.run in db.runs
    requires LeaseEndsFits(db.sessions[a.session], s, a, e)
    ensures Inv(Commit(db, Some((attempt, a)), a.session, s, Some(e), Settled(db, a.session, s, now)))
  {
    hide SessionOk, ExecutionOk, AttemptsOk, Core, LeaseOk, OtherLive;
    LeaseHolds(db, attempt);
    LeaseEndsOk(db.attempts, db.executions, db.sessions[a.session], s, attempt, a, e);
    CommitKeepsInv(db, Some((attempt, a)), a.session, s, Some(e), Settled(db, a.session, s, now));
  }

  lemma ClosedStagesFit(stages: seq<Stage>, state: WorkState, running: StageState, error: string)
    requires |stages| > 0 && Ordered(stages) && !running.Open() && !running.StageSucceeded?
    requires state.WorkFailed? || state.WorkCancelled?
    ensures StagesFit(state, CloseStages(stages, running, error))
  {
    var closed := CloseStages(stages, running, error);
    forall i, j | 0 <= i < j < |closed| ensures Follows(closed[i].state, closed[j].state) {
      assert Follows(stages[i].state, stages[j].state);
    }
  }

  lemma JudgedStagesFit(s: Session, v: Verdict)
    requires |s.stages| > 0 && Ordered(s.stages)
    requires v.state.AttemptSucceeded? || v.state.AttemptFailed? || v.state.AttemptCancelled?
    requires if v.state.AttemptSucceeded? then AllSucceeded(JudgedStages(s.stages, v)) && !v.work.Slot() && !v.work.WorkBlocked?
             else v.work.WorkFailed? || v.work.WorkCancelled?
    ensures StagesFit(v.work, JudgedStages(s.stages, v))
  {
    var last := |s.stages| - 1;
    var marked := if v.missing && s.stages[last].state.StageSucceeded?
      then s.stages[last := s.stages[last].(state := StageFailed, error := v.error)] else s.stages;
    if !v.state.AttemptSucceeded? {
      forall i, j | 0 <= i < j < |marked| ensures Follows(marked[i].state, marked[j].state) {
        assert Follows(s.stages[i].state, s.stages[j].state);
      }
      ClosedStagesFit(marked, v.work, if v.state.AttemptCancelled? then StageCancelled else StageFailed, v.error);
    }
  }

  lemma CommitShaIsNotEmpty(sha: Sha)
    requires ValidCommitSha(sha)
    ensures sha != ""
  {
  }

  /** The outcome of the Attempt holding the lease is the newest question, and nobody answered it. */
  lemma OutcomeIsLastQuestion(s: Session, e: Execution, attempt: Id, a: Attempt)
    requires HistoryOk(s.updates, s.answers) && LeaseOk(s, e, attempt, a)
    requires OutcomeOf(s.updates, attempt).Some? && OutcomeOf(s.updates, attempt).value.status.UpdateNeedsInput?
    ensures LastQuestion(s.updates).Some?
    ensures forall x <- s.answers :: x.question != LastQuestion(s.updates).value
  {
    var u := OutcomeOf(s.updates, attempt).value;
    var i :| 0 <= i < |s.updates| && s.updates[i] == u;
    var q := LastQuestion(s.updates).value;
    assert i <= q;
    assert s.updates[q].attempt == attempt;
  }

  ghost predicate VerdictFits(s: Session, v: Verdict, outcome: Option<WorkUpdate>) {
    && (v.state.AttemptSucceeded? || v.state.AttemptFailed? || v.state.AttemptCancelled?)
    && (if v.state.AttemptSucceeded? then v.work.WorkNeedsInput? || v.work.WorkReady? || v.work.WorkSucceeded?
                                        || v.work.WorkNoChange? || v.work.WorkFailed?
        else v.work.WorkFailed? || v.work.WorkCancelled?)
    && (s.cancel ==> v.work.WorkCancelled?)
    && (v.work.WorkNeedsInput? ==> outcome.Some? && outcome.value.status.UpdateNeedsInput?)
    && (v.work.WorkReady? ==> outcome.Some? && outcome.value.status.UpdateReady?)
    && (outcome.Some? ==> outcome.value in s.updates)
  }

  lemma EvidenceOk(s: Session, outcome: Option<WorkUpdate>)
    requires SessionOk(s) && s.state.Terminal() && !s.state.WorkReady?
    requires outcome.Some? ==> outcome.value in s.updates
    ensures SessionOk(WithEvidence(s, outcome))
  {
  }

  /** An ended Session is in order before any evidence is added to it. */
  lemma EndedOk(s: Session, stages: seq<Stage>, state: WorkState, now: int)
    requires SessionOk(s) && |stages| == |s.stages| && StagesFit(state, stages)
    requires state.Terminal() && !state.WorkReady? && (s.cancel ==> state.WorkFailed? || state.WorkCancelled?)
    ensures SessionOk(s.(stages := stages, owner := OwnerNone, state := state, terminalAt := Some(now)))
  {
  }

  lemma AskedOk(s: Session, e: Execution, now: int, v: Verdict, outcome: Option<WorkUpdate>, attempt: Id, a: Attempt)
    requires SessionOk(s) && VerdictFits(s, v, outcome) && StagesFit(v.work, JudgedStages(s.stages, v))
    requires LeaseOk(s, e, attempt, a) && outcome == OutcomeOf(s.updates, attempt) && v.work.WorkNeedsInput?
    ensures SessionOk(JudgedSession(s, now, v, outcome))
  {
    OutcomeIsLastQuestion(s, e, attempt, a);
    CommitShaIsNotEmpty(outcome.value.checkpoint);
    hide StagesFit, JudgedStages, ValidCommitSha, LeaseOk;
  }

  lemma ReadyOk(s: Session, now: int, v: Verdict, outcome: Option<WorkUpdate>)
    requires SessionOk(s) && VerdictFits(s, v, outcome) && StagesFit(v.work, JudgedStages(s.stages, v)) && v.work.WorkReady?
    ensures SessionOk(JudgedSession(s, now, v, outcome))
  {
    hide StagesFit, JudgedStages;
  }

  lemma JudgedOk(s: Session, e: Execution, now: int, v: Verdict, outcome: Option<WorkUpdate>, attempt: Id, a: Attempt)
    requires SessionOk(s) && VerdictFits(s, v, outcome) && StagesFit(v.work, JudgedStages(s.stages, v))
    requires LeaseOk(s, e, attempt, a) && (outcome.Some? ==> outcome == OutcomeOf(s.updates, attempt))
    ensures SessionOk(JudgedSession(s, now, v, outcome))
  {
    if v.work.WorkNeedsInput? {
      AskedOk(s, e, now, v, outcome, attempt, a);
    } else if v.work.WorkReady? {
      ReadyOk(s, now, v, outcome);
    } else {
      OverOk(s, now, v, outcome);
    }
  }

  lemma OverOk(s: Session, now: int, v: Verdict, outcome: Option<WorkUpdate>)
    requires SessionOk(s) && VerdictFits(s, v, outcome) && StagesFit(v.work, JudgedStages(s.stages, v))
    requires !v.work.WorkNeedsInput? && !v.work.WorkReady?
    ensures SessionOk(JudgedSession(s, now, v, outcome))
  {
    StagesOfOk(s);
    SameLength(s.stages, v);
    hide SessionOk, StagesFit, JudgedStages;
    EndedOk(s, JudgedStages(s.stages, v), v.work, now);
    EvidenceOk(s.(stages := JudgedStages(s.stages, v), owner := OwnerNone, state := v.work, terminalAt := Some(now)), outcome);
  }

  lemma StagesOfOk(s: Session)
    requires SessionOk(s)
    ensures |s.stages| > 0 && Ordered(s.stages)
  {
  }

  lemma CompletedOk(s: Session, e: Execution, now: int, v: Verdict, outcome: Option<WorkUpdate>, attempt: Id, a: Attempt)
    requires SessionOk(s) && ExecutionOk(s, e) && LeaseOk(s, e, attempt, a) && VerdictFits(s, v, outcome)
    requires outcome.Some? ==> outcome == OutcomeOf(s.updates, attempt)
    requires v.state.AttemptSucceeded? ==> |s.stages| > 0 && AllSucceeded(JudgedStages(s.stages, v))
    ensures |s.stages| > 0
    ensures LeaseEndsFits(s, JudgedSession(s, now, v, outcome), a.(state := v.state), e.(state := ExecutionOf(v.state)))
  {
    hide SessionOk, HistoryOk, LeaseOk, AllSucceeded, StagesFit, JudgedStages, Ordered;
    StagesOfOk(s);
    JudgedStagesFit(s, v);
    JudgedOk(s, e, now, v, outcome, attempt, a);
    SameLength(s.stages, v);
  }

  lemma SameLength(stages: seq<Stage>, v: Verdict)
    requires |stages| > 0
    ensures |JudgedStages(stages, v)| == |stages|
  {
  }

  lemma JudgedRun(s: Session, now: int, v: Verdict, outcome: Option<WorkUpdate>)
    requires s.stages != []
    ensures JudgedSession(s, now, v, outcome).run == s.run
  {
  }

  lemma ExpiredRun(s: Session, now: int, attempt: Id)
    ensures ExpiredSession(s, now, OutcomeOf(s.updates, attempt)).run == s.run
  {
  }

  lemma CompleteAttemptKeeps(db: DB, now: int, attempt: Id, token: Token, claimed: AttemptState, result: string, error: string)
    requires Inv(db) && Linked(db)
    ensures Inv(After(db, CompleteAttempt(db, now, attempt, token, claimed, result, error)))
  {
    hide Inv, Linked, SessionOk, ExecutionOk, AttemptsOk, OtherLive, LeaseOk, JudgedSession, AllSucceeded, JudgedStages;
    var o := CompleteAttempt(db, now, attempt, token, claimed, result, error);
    if o.Done? && o.db != db {
      LeaseHasWork(db, attempt);
      LeaseHolds(db, attempt);
      var a := db.attempts[attempt];
      var s, e := db.sessions[a.session], db.executions[a.session];
      var contract := db.runs[s.run].contract;
      var outcome := if contract.AgentUpdate? then OutcomeOf(s.updates, attempt) else None;
      var v := Judge(e.cancel, contract, outcome, claimed, result, error);
      assert e.cancel == s.cancel by { CancelsAgree(s, e); }
      CompletedOk(s, e, now, v, outcome, attempt, a);
      LeaseEnds(db, now, attempt, a.(state := v.state, result := v.result, error := v.error),
                JudgedSession(s, now, v, outcome), e.(state := ExecutionOf(v.state)));
    }
  }

  lemma CancelsAgree(s: Session, e: Execution)
    requires ExecutionOk(s, e)
    ensures e.cancel == s.cancel
  {
  }

  // ---------------------------------------------------------------- sweeping

  lemma ExpiredSessionOk(s: Session, now: int, attempt: Id)
    requires SessionOk(s) && s.state.Owned()
    ensures SessionOk(ExpiredSession(s, now, OutcomeOf(s.updates, attempt)))
  {
    var stages := CloseStages(s.stages, StageFailed, LEASE_EXPIRED);
    ClosedStagesFit(s.stages, WorkFailed, StageFailed, LEASE_EXPIRED);
    hide StagesFit, HistoryOk, SessionOk;
    EndedOk(s, stages, WorkFailed, now);
    EvidenceOk(s.(state := WorkFailed, owner := OwnerNone, terminalAt := Some(now), stages := stages),
               OutcomeOf(s.updates, attempt));
  }

  lemma ExpiredOk(s: Session, e: Execution, now: int, a: Attempt, attempt: Id)
    requires SessionOk(s) && ExecutionOk(s, e) && s.state.Owned()
    ensures LeaseEndsFits(s, ExpiredSession(s, now, OutcomeOf(s.updates, attempt)), a.(state := AttemptLost), e.(state := ExecFailed))
  {
    hide SessionOk;
    ExpiredSessionOk(s, now, attempt);
  }

  lemma ExpireKeeps(db: DB, now: int, attempt: Id)
    requires Inv(db) && Linked(db)
    ensures Inv(Expire(db, now, attempt))
  {
    hide Inv, Linked, SessionOk, ExecutionOk, AttemptsOk, OtherLive, LeaseOk, ExpiredSession;
    if Expired(db, attempt, now) {
      LeaseHasWork(db, attempt);
      LeaseHolds(db, attempt);
      var a := db.attempts[attempt];
      var s, e := db.sessions[a.session], db.executions[a.session];
      ExpiredOk(s, e, now, a, attempt);
      LeaseEnds(db, now, attempt, a.(state := AttemptLost, error := LEASE_EXPIRED),
                ExpiredSession(s, now, OutcomeOf(s.updates, attempt)), e.(state := ExecFailed));
    }
  }

  lemma {:induction false} ExpireAllKeeps(db: DB, now: int, lapsed: seq<Id>)
    requires Inv(db) && Linked(db)
    ensures Inv(ExpireAll(db, now, lapsed))
  {
    hide Inv, Linked, Expire;
    if lapsed != [] {
      ExpireAllKeeps(db, now, lapsed[..|lapsed| - 1]);
      ExpireKeeps(ExpireAll(db, now, lapsed[..|lapsed| - 1]), now, lapsed[|lapsed| - 1]);
    }
  }

  lemma FewerClaimsKeep(db: DB, next: DB)
    requires Inv(db) && next == db.(claims := next.claims) && next.claims.Keys <= db.claims.Keys
    requires forall k <- next.claims :: next.claims[k] == db.claims[k]
    ensures Inv(next) && Linked(next)
  {
    hide WorksOk, RunsOk, LineageOk, KeysUnique, HasWork;
    assert RequestsLinked(next) && ClaimsOk(next) && RequestsOk(next);
    OtherTablesKeep(db, next);
  }

  lemma SweepKeeps(db: DB, now: int, lapsed: seq<Id>)
    requires Inv(db) && Linked(db)
    ensures Inv(After(db, Sweep(db, now, lapsed)))
  {
    hide Inv, Linked, Expire;
    if Sweep(db, now, lapsed).Done? {
      FewerClaimsKeep(db, ForgetEmptyClaims(db, now));
      ExpireAllKeeps(ForgetEmptyClaims(db, now), now, lapsed);
    }
  }
}
