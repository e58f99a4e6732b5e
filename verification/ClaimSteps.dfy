/** Claiming keeps the invariant: materialising, rerouting, choosing and binding. */
module ClaimSteps {
  import opened Common
  import opened Tables
  import opened Scan
  import opened Transitions
  import opened Invariant
  import opened LeaseSteps

  // ---------------------------------------------------------------- Work no Attempt holds

  /** Work that no Attempt holds may be rewritten; its history only gains answers. */
  ghost predicate UnownedFits(was: Session, s: Session, e: Option<Execution>) {
    && !was.state.Owned() && !s.state.Owned() && SameIdentity(was, s) && s.updates == was.updates && SessionOk(s)
    && (if e.Some? then ExecutionOk(s, e.value) else !s.state.Slot() && !s.cancel)
  }

  lemma UnownedOk(attempts: map<Id, Attempt>, executions: map<Id, Execution>, id: Id, was: Session, s: Session, e: Option<Execution>)
    requires AttemptsOk(attempts, executions, id, was) && (id in executions ==> ExecutionOk(was, executions[id]))
    requires UnownedFits(was, s, e) && (e.None? ==> id !in executions)
    ensures AttemptsOk(attempts, if e.Some? then executions[id := e.value] else executions, id, s)
  {
    forall a | ActiveFor(attempts, a, id) ensures false {
    }
  }

  lemma UnownedKeeps(db: DB, id: Id, s: Session, e: Option<Execution>, t: Option<int>)
    requires Inv(db) && UnownedFits(if id in db.sessions then db.sessions[id] else s, s, e) && CommitFits(db, None, id, s, e, t)
    requires e.None? ==> id !in db.executions
    ensures Inv(Commit(db, None, id, s, e, t))
  {
    assert WorkOk(db, id);
    UnownedOk(db.attempts, db.executions, id, db.sessions[id], s, e);
    CommitKeeps(db, None, id, s, e, t);
  }

  // ---------------------------------------------------------------- claiming

  /** The protocol does not depend on Workers, repositories or the retention table. */
  lemma AsideCore(db: DB, next: DB)
    requires Core(db) && next == db.(workers := next.workers, repositories := next.repositories, mirrors := next.mirrors)
    ensures Core(next) && (Inv(db) ==> Inv(next))
  {
    hide WorksOk, RunsOk, LineageOk, KeysUnique, HasWork;
    assert RequestsLinked(next) && ClaimsOk(next) && RequestsOk(next);
    OtherTablesKeep(db, next);
  }

  lemma AsideKeeps(db: DB, next: DB)
    requires Inv(db) && next == db.(workers := next.workers, repositories := next.repositories, mirrors := next.mirrors)
    ensures Inv(next) && Linked(next)
  {
    hide WorksOk, RunsOk, LineageOk, KeysUnique, HasWork, Linked, ClaimsOk, RequestsOk;
    AsideCore(db, next);
  }

  lemma WorkHolds(db: DB, id: Id)
    requires Inv(db) && id in db.sessions
    ensures SessionOk(db.sessions[id]) && db.sessions[id].run in db.runs
    ensures if id in db.executions then ExecutionOk(db.sessions[id], db.executions[id])
            else !db.sessions[id].state.Slot() && !db.sessions[id].cancel
    ensures AttemptsOk(db.attempts, db.executions, id, db.sessions[id])
    ensures !db.sessions[id].state.Terminal() ==> EndOf(db, db.sessions[id]).None?
  {
    assert WorkOk(db, id);
    if !db.sessions[id].state.Terminal() { LiveRunIsOpen(db, id); }
  }

  lemma MaterialisedFits(s: Session, worker: Id, e: Execution)
    requires SessionOk(s) && s.state.WorkBlocked? && e.worker == worker && e.state.ExecQueued? && !e.cancel
    ensures UnownedFits(s, Materialised(s, worker), Some(e))
  {
  }

  lemma BlockedKeyIs(db: DB, k: Key)
    requires Linked(db) && k in BlockedKeys(db)
    ensures k.id in db.sessions && db.sessions[k.id].state.WorkBlocked? && SlotFree(db, db.sessions[k.id].run)
    ensures k == SessionKey(db, k.id) && RepositoryOpen(db, db.sessions[k.id].repository)
  {
  }

  lemma MaterialiseKeeps(db: DB, now: int, worker: Id, routed: set<Id>)
    requires Inv(db) && Linked(db)
    ensures Inv(Materialise(db, now, worker, routed))
  {
    hide Inv, Linked, SessionOk, ExecutionOk, AttemptsOk, BlockedKeys, SlotFree;
    var found := Routed(BlockedKeys(db), routed);
    if found != {} {
      var id := First(found).id;
      BlockedKeyIs(db, First(found));
      WorkHolds(db, id);
      MaterialisedFits(db.sessions[id], worker, Queued(db, id, worker, now));
      UnownedKeeps(db, id, Materialised(db.sessions[id], worker), Some(Queued(db, id, worker, now)), EndOf(db, db.sessions[id]));
    }
  }

  lemma QueuedKeyIs(db: DB, worker: Id, k: Key)
    requires k in QueuedElsewhere(db, worker)
    ensures k.id in db.sessions && db.sessions[k.id].state.WorkQueued?
    ensures k.id in db.executions && db.executions[k.id].state.ExecQueued?
  {
  }

  lemma ReroutedFits(s: Session, e: Execution, worker: Id)
    requires SessionOk(s) && ExecutionOk(s, e) && s.state.WorkQueued?
    ensures UnownedFits(s, s.(worker := Some(worker)), Some(e.(worker := worker)))
  {
  }

  lemma RerouteKeeps(db: DB, worker: Id, routed: set<Id>)
    requires Inv(db) && Linked(db)
    ensures Inv(Reroute(db, worker, routed))
  {
    hide Inv, Linked, SessionOk, ExecutionOk, AttemptsOk, QueuedElsewhere;
    var found := Routed(QueuedElsewhere(db, worker), routed);
    if found != {} {
      var id := First(found).id;
      QueuedKeyIs(db, worker, First(found));
      WorkHolds(db, id);
      ReroutedFits(db.sessions[id], db.executions[id], worker);
      UnownedKeeps(db, id, db.sessions[id].(worker := Some(worker)), Some(db.executions[id].(worker := worker)),
                   EndOf(db, db.sessions[id]));
    }
  }

  lemma PreparedKeeps(db: DB, now: int, worker: Id, routing: Routing)
    requires Inv(db) && Linked(db)
    ensures Inv(Prepared(db, now, worker, routing))
  {
    hide Inv, Linked, Materialise, Reroute;
    MaterialiseKeeps(db, now, worker, routing.blocked);
    MaterialiseKeepsLinks(db, now, worker, routing.blocked);
    var materialised := Materialise(db, now, worker, routing.blocked);
    RerouteKeeps(materialised, worker, routing.queued);
    AsideKeeps(Reroute(materialised, worker, routing.queued), Prepared(db, now, worker, routing));
  }

  lemma ClaimableKeyIs(db: DB, worker: Id, capable: set<Id>, k: Key)
    requires Linked(db) && k in ClaimableKeys(db, worker, capable)
    ensures k.id in db.executions && k.id in db.sessions && db.sessions[k.id].run in db.runs
    ensures db.executions[k.id].state.ExecQueued? && db.executions[k.id].worker == worker && k == ExecutionKey(db, k.id)
    ensures RetentionUse(db, worker, db.sessions[k.id].repository) < MAX_RETAINED
  {
  }

  lemma TakenOk(s: Session, e: Execution)
    requires SessionOk(s) && ExecutionOk(s, e) && s.state.WorkQueued?
    ensures SessionOk(Taken(s, e.worker)) && ExecutionOk(Taken(s, e.worker), e.(state := ExecPreparing, cancel := false))
  {
  }

  lemma TakenAttemptsOk(attempts: map<Id, Attempt>, executions: map<Id, Execution>, id: Id, s: Session, attempt: Id, a: Attempt)
    requires id in executions && executions[id].state.ExecQueued? && AttemptsOk(attempts, executions, id, s)
    requires forall x <- s.answers :: x.question < |s.updates|
    requires attempt !in attempts && a.session == id && a.state.AttemptPreparing? && a.worker == executions[id].worker
    ensures AttemptsOk(attempts[attempt := a], executions[id := executions[id].(state := ExecPreparing, cancel := false)],
                       id, Taken(s, a.worker))
  {
    var next := attempts[attempt := a];
    assert ActiveFor(next, attempt, id);
    forall x | ActiveFor(next, x, id) ensures x == attempt {
      assert x != attempt ==> ActiveFor(attempts, x, id);
    }
  }

  lemma BoundClaimKeeps(db: DB, next: DB, k: (Id, string), c: ClaimRequest)
    requires Inv(db) && next == db.(claims := db.claims[k := c])
    requires c.attempt.Some? ==>
      (c.attempt.value in db.attempts
       && db.attempts[c.attempt.value].worker == k.0 && db.attempts[c.attempt.value].token == c.token)
    ensures Inv(next)
  {
    hide WorksOk, RunsOk, LineageOk, KeysUnique, HasWork;
    assert RequestsLinked(next) && ClaimsOk(next) && RequestsOk(next);
    OtherTablesKeep(db, next);
  }

  lemma TakenCommitKeeps(db: DB, work: Id, attempt: Id, a: Attempt)
    requires Inv(db) && work in db.executions && work in db.sessions && attempt !in db.attempts
    requires db.sessions[work].run in db.runs && a.session == work && a.state.AttemptPreparing?
    requires db.executions[work].state.ExecQueued? && db.executions[work].worker == a.worker
    ensures Inv(Commit(db, Some((attempt, a)), work, Taken(db.sessions[work], a.worker),
                       Some(db.executions[work].(state := ExecPreparing, cancel := false)), EndOf(db, db.sessions[work])))
  {
    hide Inv, SessionOk, AttemptsOk;
    WorkHolds(db, work);
    var s, e := db.sessions[work], db.executions[work];
    TakenOk(s, e);
    AnswersLinked(s);
    TakenAttemptsOk(db.attempts, db.executions, work, s, attempt, a);
    CommitKeepsInv(db, Some((attempt, a)), work, Taken(s, a.worker), Some(e.(state := ExecPreparing, cancel := false)), EndOf(db, s));
  }

  lemma AssignKeeps(db: DB, now: int, worker: Id, request: string, token: Token, work: Id, attempt: Id)
    requires Inv(db) && Linked(db) && work in db.executions && attempt !in db.attempts
    requires db.executions[work].state.ExecQueued? && db.executions[work].worker == worker
    ensures Inv(Assign(db, now, worker, request, token, work, attempt))
  {
    hide Inv;
    var s := db.sessions[work];
    var a := Attempt(work, worker, AttemptPreparing, token, now + LEASE_MILLIS, false, "", "");
    TakenCommitKeeps(db, work, attempt, a);
    BoundClaimKeeps(
      Commit(db, Some((attempt, a)), work, Taken(s, worker), Some(db.executions[work].(state := ExecPreparing, cancel := false)), EndOf(db, s)),
      Assign(db, now, worker, request, token, work, attempt), (worker, request), ClaimRequest(token, Some(attempt), now));
  }

  lemma TakeWorkKeeps(db: DB, now: int, worker: Id, request: string, token: Token, attempt: Id, routing: Routing)
    requires Inv(db) && Linked(db) && worker in db.workers
    ensures Inv(After(db, TakeWork(db, now, worker, request, token, attempt, routing)))
  {
    hide Inv, Linked, Prepared, ClaimableKeys, Assign, BlockedKeys, ActiveOf;
    var o := TakeWork(db, now, worker, request, token, attempt, routing);
    var ready := Prepared(db, now, worker, routing);
    PreparedKeeps(db, now, worker, routing);
    PreparedFrame(db, now, worker, routing);
    var empty := ClaimRequest(token, None, now);
    BoundClaimKeeps(db, db.(claims := db.claims[(worker, request) := empty]), (worker, request), empty);
    BoundClaimKeeps(ready, ready.(claims := ready.claims[(worker, request) := empty]), (worker, request), empty);
    var keys := ClaimableKeys(ready, worker, routing.capable);
    if keys != {} && attempt !in db.attempts {
      ClaimableKeyIs(ready, worker, routing.capable, First(keys));
      AssignKeeps(ready, now, worker, request, token, First(keys).id, attempt);
    }
  }

  lemma MaterialiseFrame(db: DB, now: int, worker: Id, routed: set<Id>)
    requires Linked(db)
    ensures Materialise(db, now, worker, routed).attempts == db.attempts
  {
    hide BlockedKeys, RepositoryOpen, SlotFree;
    if Routed(BlockedKeys(db), routed) != {} { BlockedKeyIs(db, First(Routed(BlockedKeys(db), routed))); }
  }

  lemma RerouteFrame(db: DB, worker: Id, routed: set<Id>)
    requires Linked(db)
    ensures Reroute(db, worker, routed).attempts == db.attempts
  {
    hide QueuedElsewhere;
    var found := Routed(QueuedElsewhere(db, worker), routed);
    if found != {} { QueuedKeyIs(db, worker, First(found)); }
  }

  lemma PreparedFrame(db: DB, now: int, worker: Id, routing: Routing)
    requires Linked(db)
    ensures Prepared(db, now, worker, routing).attempts == db.attempts
  {
    hide Linked, Materialise, Reroute;
    MaterialiseKeepsLinks(db, now, worker, routing.blocked);
    MaterialiseFrame(db, now, worker, routing.blocked);
    RerouteFrame(Materialise(db, now, worker, routing.blocked), worker, routing.queued);
  }

  lemma ClaimKeeps(db: DB, now: int, worker: Id, request: string, token: Token, attempt: Id, routing: Routing)
    requires Inv(db) && Linked(db)
    ensures Inv(After(db, Claim(db, now, worker, request, token, attempt, routing)))
  {
    hide Inv, Linked, TakeWork;
    if worker in db.workers {
      var dropped := db.(claims := db.claims - {(worker, request)});
      FewerClaimsKeep(db, dropped);
      TakeWorkKeeps(dropped, now, worker, request, token, attempt, routing);
      TakeWorkKeeps(db, now, worker, request, token, attempt, routing);
    }
  }
}
