/** What holds in every reachable state of the control plane. */
module Guarantees {
  import opened Common
  import opened Tables
  import opened Transitions
  import opened Invariant
  import opened LeaseSteps
  import opened ClaimSteps
  import opened Calls

  // ---------------------------------------------------------------- ownership

  /** Each Work has at most one live Attempt, and Session, execution, owner and Attempt agree on it. */
  lemma SingleOwner(db: DB, id: Id)
    requires Reachable(db) && id in db.sessions
    ensures forall a, b :: ActiveFor(db.attempts, a, id) && ActiveFor(db.attempts, b, id) ==> a == b
    ensures db.sessions[id].owner.OwnerWorkerAttempt? <==> exists a :: ActiveFor(db.attempts, a, id)
    ensures db.sessions[id].owner.OwnerWorkerAttempt? <==> db.sessions[id].state.Owned()
    ensures id in db.executions ==>
      var s, e := db.sessions[id], db.executions[id];
      && (s.state.WorkQueued? <==> e.state.ExecQueued?)
      && (s.state.WorkPreparing? <==> e.state.ExecPreparing?)
      && (s.state.WorkRunning? <==> e.state.ExecRunning?)
    ensures forall a :: ActiveFor(db.attempts, a, id) ==>
      id in db.executions && db.executions[id].state == ExecutionOf(db.attempts[a].state)
      && db.executions[id].worker == db.attempts[a].worker
  {
    hide Reachable, Inv, SessionOk;
    ReachableIsSound(db);
    WorkHolds(db, id);
    OwnerOk(db.sessions[id]);
    forall a | ActiveFor(db.attempts, a, id)
      ensures id in db.executions && LeaseOk(db.sessions[id], db.executions[id], a, db.attempts[a])
    {
    }
  }

  lemma OwnerOk(s: Session)
    requires SessionOk(s)
    ensures s.owner.OwnerWorkerAttempt? <==> s.state.Owned()
  {
  }

  // ---------------------------------------------------------------- pipelines

  ghost predicate PipelineOk(s: Session) {
    && 0 < |s.stages| && Shaped(s.stages, Leading(s.stages))
    && (forall i :: 0 <= i < |s.stages| && s.stages[i].state.StageRunning? ==> s.state.WorkRunning? && i == Leading(s.stages))
    && (s.state.WorkReady? || s.state.WorkSucceeded? || s.state.WorkNoChange? || s.state.WorkNeedsInput? ==>
          Leading(s.stages) == |s.stages|)
    && (s.state.WorkFailed? || s.state.WorkCancelled? ==>
          forall i :: 0 <= i < |s.stages| ==> !s.stages[i].state.Open())
  }

  lemma StagesShape(s: Session)
    requires StagesFit(s.state, s.stages)
    ensures PipelineOk(s)
  {
    OrderedIsShaped(s.stages);
  }

  /** A pipeline reads: some succeeded stages, then all pending, or one running and the rest pending,
      or one failed and the rest cancelled, or all cancelled.  Only running Work has a running stage. */
  lemma PipelineShape(db: DB, id: Id)
    requires Reachable(db) && id in db.sessions
    ensures PipelineOk(db.sessions[id])
  {
    hide Reachable, Inv, PipelineOk, StagesFit;
    ReachableIsSound(db);
    WorkHolds(db, id);
    StagesShape(db.sessions[id]);
  }

  // ---------------------------------------------------------------- Runs

  /** A Run never holds more slots than its limit, and its end is recorded exactly when all its Work is over. */
  lemma RunsAgree(db: DB, run: Id)
    requires Reachable(db) && run in db.runs
    ensures 1 <= db.runs[run].limit && |Slots(db, run)| <= db.runs[run].limit
    ensures db.runs[run].terminalAt.Some? <==> forall id <- db.sessions :: db.sessions[id].run == run ==> db.sessions[id].state.Terminal()
    ensures exists id <- db.sessions :: db.sessions[id].run == run
  {
    hide Reachable;
    ReachableIsSound(db);
    assert RunOk(db, run) && HasWork(db, run);
  }

  lemma RunHolds(db: DB, run: Id)
    requires Inv(db) && run in db.runs
    ensures RunOk(db, run) && HasWork(db, run)
  {
  }

  /** Queued Work always has a slot to move into, so the claim's own limit check cannot be what holds it back.
      This follows from the invariant alone, so it also holds of tables in the middle of a transaction. */
  lemma QueuedIsNeverHeldBack(db: DB, id: Id)
    requires Inv(db) && id in db.sessions && db.sessions[id].state.WorkQueued?
    ensures db.sessions[id].run in db.runs
    ensures |Owned(db, db.sessions[id].run)| < db.runs[db.sessions[id].run].limit
  {
    hide Inv;
    WorkHolds(db, id);
    var run := db.sessions[id].run;
    RunHolds(db, run);
    var slots := Slots(db, run);
    assert id in slots && Owned(db, run) <= slots - {id};
    SubsetIsNoLarger(Owned(db, run), slots - {id});
  }

  /** Every check of the claim's choice but the one against the Run's limit. */
  predicate Takeable(db: DB, worker: Id, capable: set<Id>, id: Id)
    requires Linked(db) && id in db.executions
  {
    && db.executions[id].worker == worker && db.executions[id].state.ExecQueued? && id in capable
    && (worker, db.sessions[id].repository) in db.mirrors && db.mirrors[(worker, db.sessions[id].repository)].advertised
    && RepositoryOpen(db, db.sessions[id].repository)
    && RetentionUse(db, worker, db.sessions[id].repository) < MAX_RETAINED
  }

  /** Hence the executions a Worker may take are exactly those its other checks allow. */
  lemma ClaimableIsTakeable(db: DB, worker: Id, capable: set<Id>, id: Id)
    requires Inv(db) && Linked(db) && id in db.executions
    ensures ExecutionKey(db, id) in ClaimableKeys(db, worker, capable) <==> Takeable(db, worker, capable, id)
  {
    hide Inv, RepositoryOpen, RetentionUse;
    if db.executions[id].state.ExecQueued? {
      assert db.sessions[id].state.WorkQueued? by { WorkHolds(db, id); }
      QueuedIsNeverHeldBack(db, id);
    }
    forall x | x in db.executions && ExecutionKey(db, x) == ExecutionKey(db, id) ensures x == id {}
  }

  /** A claim chooses among tables it has itself prepared: one Session materialised, one rerouted, routing's answers
      recorded.  There, too, the limit check never decides, and the claim finds nothing exactly when no execution
      passes the other checks. */
  lemma ClaimIgnoresTheLimit(db: DB, now: int, worker: Id, request: string, token: Token, attempt: Id, routing: Routing)
    requires Inv(db) && Linked(db)
    ensures var ready := Prepared(db, now, worker, routing);
      && (forall id <- ready.executions ::
            ExecutionKey(ready, id) in ClaimableKeys(ready, worker, routing.capable) <==> Takeable(ready, worker, routing.capable, id))
      && (ChooseWork(ready, now, worker, request, token, attempt, routing.capable) == EmptyClaim(ready, now, worker, request, token)
          <==> forall id <- ready.executions :: !Takeable(ready, worker, routing.capable, id))
  {
    hide Inv, Linked, Prepared, Takeable, ChooseWork, EmptyClaim, ClaimableKeys, ExecutionKey;
    var ready := Prepared(db, now, worker, routing);
    PreparedKeeps(db, now, worker, routing);
    NothingIsTakeable(ready, worker, routing.capable);
    ChoiceIsEmpty(ready, now, worker, request, token, attempt, routing.capable);
  }

  lemma ChoiceIsEmpty(db: DB, now: int, worker: Id, request: string, token: Token, attempt: Id, capable: set<Id>)
    requires Linked(db)
    ensures ChooseWork(db, now, worker, request, token, attempt, capable) == EmptyClaim(db, now, worker, request, token)
      <==> ClaimableKeys(db, worker, capable) == {}
  {
    hide Linked, ClaimableKeys, Assign;
  }

  lemma NothingIsTakeable(db: DB, worker: Id, capable: set<Id>)
    requires Inv(db) && Linked(db)
    ensures forall id <- db.executions :: ExecutionKey(db, id) in ClaimableKeys(db, worker, capable) <==> Takeable(db, worker, capable, id)
    ensures ClaimableKeys(db, worker, capable) == {} <==> forall id <- db.executions :: !Takeable(db, worker, capable, id)
  {
    hide Inv, Linked, Takeable, ClaimableKeys, ExecutionKey;
    var keys := ClaimableKeys(db, worker, capable);
    forall id | id in db.executions ensures ExecutionKey(db, id) in keys <==> Takeable(db, worker, capable, id) {
      ClaimableIsTakeable(db, worker, capable, id);
    }
    if keys != {} {
      var k :| k in keys;
      ClaimableKeyIs(db, worker, capable, k);
      assert Takeable(db, worker, capable, k.id);
    }
  }

  // ---------------------------------------------------------------- answers

  /** Work that waits for input has a question to answer and a commit to resume from: an answer is never
      refused for want of either, nor does it collide with an earlier answer. */
  lemma AnswersAreNeverStuck(db: DB, now: int, work: Id, request: string, message: string, fits: bool,
                             route: Option<Id>, acquired: set<(Id, Id)>)
    requires Reachable(db) && Linked(db)
    ensures AnswerWork(db, now, work, request, message, fits, route, acquired) !in
      {Refused(CheckpointMissing), Refused(QuestionMissing), Refused(Unavailable)}
  {
    hide Inv, Linked, Reachable, Blank;
    ReachableIsSound(db);
    if work in db.sessions && db.sessions[work].state.WorkNeedsInput? { WaitingWorkIsAnswerable(db, work); }
  }

  lemma WaitingWorkIsAnswerable(db: DB, work: Id)
    requires Inv(db) && work in db.sessions && db.sessions[work].state.WorkNeedsInput?
    ensures var s := db.sessions[work];
      && ValidCommitSha(s.pendingResume) && s.question != "" && s.stages != [] && s.owner.OwnerNone?
      && LastQuestion(s.updates).Some? && forall a <- s.answers :: a.question != LastQuestion(s.updates).value
  {
    assert WorkOk(db, work);
  }
}
