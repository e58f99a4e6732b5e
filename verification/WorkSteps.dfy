/** Cancelling, retrying, answering and disabling a repository keep the invariant. */
module WorkSteps {
  import opened Common
  import opened Tables
  import opened Transitions
  import opened Invariant
  import opened LeaseSteps
  import opened ClaimSteps

  // ---------------------------------------------------------------- cancelling

  lemma CancelledStagesFit(stages: seq<Stage>)
    requires |stages| > 0 && Ordered(stages)
    ensures StagesFit(WorkCancelled, CancelStages(stages))
  {
    var cancelled := CancelStages(stages);
    forall i, j | 0 <= i < j < |cancelled| ensures Follows(cancelled[i].state, cancelled[j].state) {
      assert Follows(stages[i].state, stages[j].state);
    }
  }

  lemma CancelledOk(s: Session, now: int)
    requires SessionOk(s)
    ensures SessionOk(CancelledSession(s, now)) && SameIdentity(s, CancelledSession(s, now))
  {
    CancelledStagesFit(s.stages);
    hide StagesFit, HistoryOk;
  }

  lemma CancelledExecutionOk(s: Session, e: Execution, now: int)
    requires ExecutionOk(s, e)
    ensures ExecutionOk(CancelledSession(s, now), CancelledExecution(e))
  {
  }

  /** Attempts keep mirroring an execution whose state changes only when no Attempt is active. */
  lemma CancelledAttemptsOk(attempts: map<Id, Attempt>, executions: map<Id, Execution>, next: map<Id, Execution>, id: Id, s: Session, t: Session)
    requires AttemptsOk(attempts, executions, id, s) && t.updates == s.updates && t.answers == s.answers
    requires id in next <==> id in executions
    requires id in executions ==> next[id] == executions[id] || next[id] == CancelledExecution(executions[id])
    ensures AttemptsOk(attempts, next, id, t)
  {
  }

  lemma CancelAllWorks(db: DB, now: int, run: Id, work: set<Id>)
    requires WorksOk(db) && run in db.runs
    ensures WorksOk(CancelAll(db, now, run, work))
  {
    var next := CancelAll(db, now, run, work);
    forall id | id in next.sessions ensures WorkOk(next, id) {
      assert WorkOk(db, id);
      var s := db.sessions[id];
      CancelledOk(s, now);
      if id in db.executions { CancelledExecutionOk(s, db.executions[id], now); }
      CancelledAttemptsOk(db.attempts, db.executions, next.executions, id, s, next.sessions[id]);
      hide SessionOk, AttemptsOk, ExecutionOk;
    }
  }

  lemma CancelAllRuns(db: DB, now: int, run: Id, work: set<Id>)
    requires RunsOk(db) && run in db.runs && work <= SessionsOf(db, run) && HasWork(db, run)
    ensures RunsOk(CancelAll(db, now, run, work))
  {
    var next := CancelAll(db, now, run, work);
    forall r | r in next.runs ensures RunOk(next, r) {
      assert RunOk(db, r);
      if r == run {
        assert Slots(next, r) <= Slots(db, r);
        SubsetIsNoLarger(Slots(next, r), Slots(db, r));
        var id :| id in db.sessions && db.sessions[id].run == run;
        assert next.sessions[id].run == run;
      } else {
        RunUntouched(db, next, r);
      }
    }
  }

  lemma CancelledIdentity(s: Session, now: int)
    ensures SameIdentity(s, CancelledSession(s, now))
    ensures s.state.Terminal() ==> CancelledSession(s, now).state.Terminal()
  {
  }

  lemma CancelAllSessions(db: DB, now: int, run: Id, work: set<Id>)
    requires run in db.runs
    ensures SameSessions(db.sessions, CancelAll(db, now, run, work).sessions) && ReopensTails(db, CancelAll(db, now, run, work))
  {
    var next := CancelAll(db, now, run, work);
    hide SameIdentity, CancelledSession;
    forall id | id in db.sessions
      ensures SameIdentity(db.sessions[id], next.sessions[id])
      ensures db.sessions[id].state.Terminal() ==> next.sessions[id].state.Terminal()
    {
      CancelledIdentity(db.sessions[id], now);
      SameAsItself(db.sessions[id]);
    }
  }

  lemma SameAsItself(s: Session)
    ensures SameIdentity(s, s)
  {
  }

  lemma CancelAllCarries(db: DB, now: int, run: Id, work: set<Id>)
    requires AttemptsLinked(db) && RequestsLinked(db) && run in db.runs
    ensures Carries(db, CancelAll(db, now, run, work)) && ReopensTails(db, CancelAll(db, now, run, work))
    ensures AttemptsLinked(CancelAll(db, now, run, work)) && RequestsLinked(CancelAll(db, now, run, work))
  {
    CancelAllSessions(db, now, run, work);
    var next := CancelAll(db, now, run, work);
    hide ReopensTails, CancelledSession, CancelledExecution, HasLiveWork;
    forall k | k in next.updateRequests
      ensures next.updateRequests[k].update < |next.sessions[next.attempts[k.0].session].updates|
    {
      assert SameIdentity(db.sessions[db.attempts[k.0].session], next.sessions[db.attempts[k.0].session]);
    }
  }

  lemma CancelAllKeeps(db: DB, now: int, run: Id, work: set<Id>)
    requires Inv(db) && run in db.runs && work <= SessionsOf(db, run)
    ensures Inv(CancelAll(db, now, run, work))
  {
    hide WorksOk, RunsOk, LineageOk, ClaimsOk, RequestsOk, KeysUnique, SessionsLinked, AttemptsLinked, RequestsLinked, Carries, ReopensTails, CancelAll;
    CancelAllWorks(db, now, run, work);
    CancelAllRuns(db, now, run, work);
    CancelAllCarries(db, now, run, work);
    CarriesKeeps(db, CancelAll(db, now, run, work));
  }

  lemma CancelRunKeeps(db: DB, now: int, run: Id)
    requires Inv(db)
    ensures Inv(After(db, CancelRun(db, now, run)))
  {
    hide Inv, CancelAll;
    if run in db.runs { CancelAllKeeps(db, now, run, SessionsOf(db, run)); }
  }

  lemma CancelSessionKeeps(db: DB, now: int, run: Id, work: Id)
    requires Inv(db) && Linked(db)
    ensures Inv(After(db, CancelSession(db, now, run, work)))
  {
    hide Inv, CancelAll;
    if CancelSession(db, now, run, work).Done? { CancelAllKeeps(db, now, run, {work}); }
  }

  // ---------------------------------------------------------------- retrying

  lemma RetriedFits(s: Session, e: Execution)
    requires SessionOk(s) && (s.state.WorkFailed? || s.state.WorkCancelled?) && e.state.ExecQueued? && !e.cancel
    ensures UnownedFits(s, Retried(s, e.worker), Some(e))
  {
    assert Waiting(ResetStages(s.stages));
    hide HistoryOk;
  }

  lemma RetrySessionKeeps(db: DB, now: int, run: Id, work: Id, route: Option<Id>, acquired: set<(Id, Id)>)
    requires Inv(db) && Linked(db)
    ensures Inv(After(db, RetrySession(db, now, run, work, route, acquired)))
  {
    hide Inv, Linked, SessionOk, ExecutionOk, AttemptsOk, MatchingLive;
    if RetrySession(db, now, run, work, route, acquired).Done? {
      var routed := Acquire(db, acquired);
      AsideKeeps(db, routed);
      WorkHolds(routed, work);
      var s := db.sessions[work];
      RetriedFits(s, Queued(db, work, route.value, now));
      UnownedKeeps(routed, work, Retried(s, route.value), Some(Queued(db, work, route.value, now)), None);
    }
  }

  // ---------------------------------------------------------------- answering

  lemma ResumedHistoryOk(s: Session, answer: WorkAnswer)
    requires HistoryOk(s.updates, s.answers) && LastQuestion(s.updates) == Some(answer.question)
    requires StoredAnswer(s.answers, answer.request).None? && forall a <- s.answers :: a.question != answer.question
    ensures HistoryOk(s.updates, s.answers + [answer])
  {
  }

  lemma ResumedOk(s: Session, worker: Option<Id>, answer: WorkAnswer)
    requires SessionOk(s) && s.state.WorkNeedsInput? && LastQuestion(s.updates) == Some(answer.question)
    requires StoredAnswer(s.answers, answer.request).None? && forall a <- s.answers :: a.question != answer.question
    ensures s.stages != [] && SessionOk(Resumed(s, worker, answer))
  {
    ResumedHistoryOk(s, answer);
    hide HistoryOk;
  }

  /** The execution that answered Work has: queued for the route, or the one it had before. */
  function ResumedExecution(db: DB, work: Id, worker: Option<Id>, now: int): Option<Execution> {
    if worker.Some? then Some(Queued(db, work, worker.value, now))
    else if work in db.executions then Some(db.executions[work])
    else None
  }

  lemma ResumedFits(db: DB, work: Id, worker: Option<Id>, answer: WorkAnswer, now: int)
    requires work in db.sessions && SessionOk(db.sessions[work]) && db.sessions[work].state.WorkNeedsInput?
    requires work in db.executions ==> ExecutionOk(db.sessions[work], db.executions[work])
    requires LastQuestion(db.sessions[work].updates) == Some(answer.question)
    requires StoredAnswer(db.sessions[work].answers, answer.request).None?
    requires forall a <- db.sessions[work].answers :: a.question != answer.question
    ensures db.sessions[work].stages != []
    ensures UnownedFits(db.sessions[work], Resumed(db.sessions[work], worker, answer), ResumedExecution(db, work, worker, now))
  {
    ResumedOk(db.sessions[work], worker, answer);
    assert !db.sessions[work].cancel;
    hide SessionOk;
  }

  /** What an answer that is accepted has checked. */
  ghost predicate Answerable(db: DB, work: Id, answer: WorkAnswer) {
    && work in db.sessions && db.sessions[work].state.WorkNeedsInput?
    && LastQuestion(db.sessions[work].updates) == Some(answer.question)
    && StoredAnswer(db.sessions[work].answers, answer.request).None?
    && forall a <- db.sessions[work].answers :: a.question != answer.question
  }

  lemma ResumeKeeps(db: DB, now: int, work: Id, worker: Option<Id>, answer: WorkAnswer)
    requires Inv(db) && Answerable(db, work, answer) && db.sessions[work].run in db.runs
    requires worker.Some? ==> SlotFree(db, db.sessions[work].run)
    ensures db.sessions[work].stages != []
    ensures Inv(Commit(db, None, work, Resumed(db.sessions[work], worker, answer),
                       if worker.Some? then Some(Queued(db, work, worker.value, now)) else None, None))
  {
    hide Inv, SessionOk, ExecutionOk, AttemptsOk;
    WorkHolds(db, work);
    ResumedFits(db, work, worker, answer, now);
    if work in db.executions { RewritingSame(db.executions, work); }
    UnownedKeeps(db, work, Resumed(db.sessions[work], worker, answer), ResumedExecution(db, work, worker, now), None);
  }

  lemma AnswerWorkKeeps(db: DB, now: int, work: Id, request: string, message: string, fits: bool,
                        route: Option<Id>, acquired: set<(Id, Id)>)
    requires Inv(db) && Linked(db)
    ensures Inv(After(db, AnswerWork(db, now, work, request, message, fits, route, acquired)))
  {
    hide Inv, Blank, ValidCommitSha;
    var o := AnswerWork(db, now, work, request, message, fits, route, acquired);
    if o.Done? && o.db != db {
      var s := db.sessions[work];
      assert s.run in db.runs;
      hide Linked;
      var answer := WorkAnswer(request, LastQuestion(s.updates).value, message, now);
      var routed := if SlotFree(db, s.run) then Acquire(db, acquired) else db;
      AsideKeeps(db, routed);
      ResumeKeeps(routed, now, work, if SlotFree(db, s.run) then route else None, answer);
    }
  }

  // ---------------------------------------------------------------- disabling a repository

  lemma UnqueuedFrame(db: DB, repository: Id)
    ensures Unqueued(db, repository)
      == db.(executions := Unqueued(db, repository).executions, sessions := Unqueued(db, repository).sessions)
  {
  }

  lemma BlockedAgainOk(s: Session)
    requires SessionOk(s) && s.state.WorkQueued?
    ensures SessionOk(s.(state := WorkBlocked, worker := None, owner := OwnerNone))
    ensures !s.cancel
  {
    hide HistoryOk;
  }

  lemma UnqueuedWork(db: DB, repository: Id, id: Id)
    requires WorkOk(db, id) && id in QueuedIn(db, repository) && forall a <- db.attempts :: db.attempts[a].session != id
    ensures WorkOk(Unqueued(db, repository), id)
  {
    BlockedAgainOk(db.sessions[id]);
    hide SessionOk;
  }

  lemma NotUnqueuedWork(db: DB, repository: Id, id: Id)
    requires WorkOk(db, id) && id !in QueuedIn(db, repository)
    ensures WorkOk(Unqueued(db, repository), id)
  {
    hide SessionOk, ExecutionOk;
    UntouchedAttempts(db, Unqueued(db, repository), id);
    hide AttemptsOk;
  }

  lemma UnqueuedWorks(db: DB, repository: Id)
    requires WorksOk(db) && forall a <- db.attempts :: db.attempts[a].session !in QueuedIn(db, repository)
    ensures WorksOk(Unqueued(db, repository))
  {
    hide WorkOk;
    forall id | id in db.sessions ensures WorkOk(Unqueued(db, repository), id) {
      if id in QueuedIn(db, repository) { UnqueuedWork(db, repository, id); } else { NotUnqueuedWork(db, repository, id); }
    }
  }

  lemma UntouchedAttempts(db: DB, next: DB, id: Id)
    requires id in db.sessions && id in next.sessions && next.sessions[id] == db.sessions[id] && next.attempts == db.attempts
    requires id in next.executions <==> id in db.executions
    requires id in db.executions ==> next.executions[id] == db.executions[id]
    requires AttemptsOk(db.attempts, db.executions, id, db.sessions[id])
    ensures AttemptsOk(next.attempts, next.executions, id, next.sessions[id])
  {
  }

  lemma UnqueuedRuns(db: DB, repository: Id)
    requires RunsOk(db)
    ensures RunsOk(Unqueued(db, repository))
  {
    var next := Unqueued(db, repository);
    forall r | r in next.runs ensures RunOk(next, r) {
      assert RunOk(db, r);
      assert Slots(next, r) <= Slots(db, r);
      SubsetIsNoLarger(Slots(next, r), Slots(db, r));
      if HasWork(db, r) { var id :| id in db.sessions && db.sessions[id].run == r; assert next.sessions[id].run == r; }
      if HasLiveWork(db, r) {
        var id :| id in db.sessions && db.sessions[id].run == r && !db.sessions[id].state.Terminal();
        assert next.sessions[id].run == r;
      }
    }
  }

  lemma UnqueuedCarries(db: DB, repository: Id)
    requires Linked(db) && forall a <- db.attempts :: db.attempts[a].session !in QueuedIn(db, repository)
    ensures Carries(db, Unqueued(db, repository)) && ReopensTails(db, Unqueued(db, repository))
    ensures AttemptsLinked(Unqueued(db, repository)) && RequestsLinked(Unqueued(db, repository))
  {
  }

  lemma UnqueuedKeeps(db: DB, repository: Id)
    requires Inv(db) && forall a <- db.attempts :: db.attempts[a].session !in QueuedIn(db, repository)
    ensures Inv(Unqueued(db, repository))
  {
    hide WorksOk, RunsOk, LineageOk, ClaimsOk, RequestsOk, KeysUnique, SessionsLinked, AttemptsLinked, RequestsLinked, Carries, ReopensTails, Unqueued;
    UnqueuedWorks(db, repository);
    UnqueuedRuns(db, repository);
    UnqueuedCarries(db, repository);
    CarriesKeeps(db, Unqueued(db, repository));
  }

  lemma SetRepositoryEnabledKeeps(db: DB, repository: Id, enabled: bool)
    requires Inv(db)
    ensures Inv(After(db, SetRepositoryEnabled(db, repository, enabled)))
  {
    hide Inv;
    var o := SetRepositoryEnabled(db, repository, enabled);
    if o.Done? {
      if !enabled && db.repositories[repository].enabled {
        UnqueuedKeeps(db, repository);
        AsideKeeps(Unqueued(db, repository), o.db);
      } else {
        AsideKeeps(db, o.db);
      }
    }
  }
}
