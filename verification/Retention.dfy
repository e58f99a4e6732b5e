/** The bookkeeping that keeps a Worker's retained worktrees of a repository bounded. */
module Retention {
  import opened Common
  import opened Tables
  import opened Scan
  import opened Transitions
  import opened Invariant
  import opened LeaseSteps
  import opened ClaimSteps
  import opened AdmissionSteps
  import opened Registration
  import opened Calls
  import opened Evolution
  import opened History

  // ---------------------------------------------------------------- places held

  /** No call but a claim can make a Worker hold another place. */
  lemma PlacesShrink(db: DB, next: DB, now: int, call: Call, worker: Id, repository: Id)
    requires AttemptsLinked(db) && Evolves(db, next, now, call)
    ensures forall a <- Held(next, worker, repository) :: a in Held(db, worker, repository) || (call.Claiming? && a == call.attempt && a !in db.attempts)
  {
    hide RunsEvolve, ClaimsEvolve, RequestsEvolve, ResumeStep;
    forall a | a in Held(next, worker, repository) && a in db.attempts ensures a in Held(db, worker, repository) {
      assert AttemptStep(call, now, a, db.attempts[a], next.attempts[a]);
      assert SessionStep(db, call, db.attempts[a].session, db.sessions[db.attempts[a].session], next.sessions[db.attempts[a].session]);
    }
  }

  /** Looking for work does not change the accounts. */
  lemma PreparingCountsTheSame(db: DB, now: int, worker: Id, routing: Routing, w: Id, r: Id)
    requires Linked(db)
    ensures RetentionUse(Prepared(db, now, worker, routing), w, r) == RetentionUse(db, w, r)
  {
    var ready := Prepared(db, now, worker, routing);
    PreparedFrame(db, now, worker, routing);
    PreparedQuiet(db, now, worker, routing);
    HeldTheSame(db, ready, w, r);
    hide Linked, Prepared, Held, Retained, AllQuiet, RunsEvolve;
  }

  lemma HeldTheSame(db: DB, next: DB, w: Id, r: Id)
    requires AttemptsLinked(db) && next.attempts == db.attempts && AllQuiet(db.sessions, next.sessions)
    ensures Held(next, w, r) == Held(db, w, r)
  {
    assert forall a <- db.attempts :: Quiet(db.sessions[db.attempts[a].session], next.sessions[db.attempts[a].session]);
  }

  lemma AssignedPlace(ready: DB, now: int, call: Call, k: Key, worker: Id, repository: Id)
    requires Linked(ready) && call.Claiming? && k in ClaimableKeys(ready, call.worker, call.routing.capable)
    requires k.id in ready.executions
    requires call.attempt in Held(Assign(ready, now, call.worker, call.request, call.token, k.id, call.attempt), worker, repository)
    ensures worker == call.worker && RetentionUse(ready, worker, repository) < MAX_RETAINED
  {
    ClaimableKeyIs(ready, call.worker, call.routing.capable, k);
    hide Linked, ClaimableKeys, RetentionUse;
  }

  lemma TakingSeesRoom(db: DB, now: int, call: Call, worker: Id, repository: Id)
    requires Linked(db) && call.Claiming? && call.worker in db.workers && call.attempt !in db.attempts
    requires call.attempt in
      Held(After(db, TakeWork(db, now, call.worker, call.request, call.token, call.attempt, call.routing)), worker, repository)
    ensures worker == call.worker && RetentionUse(db, worker, repository) < MAX_RETAINED
  {
    hide Linked, Prepared, ClaimableKeys, ActiveOf, RetentionUse, Assign;
    var ready := Prepared(db, now, call.worker, call.routing);
    PreparedFrame(db, now, call.worker, call.routing);
    PreparingCountsTheSame(db, now, call.worker, call.routing, worker, repository);
    var keys := ClaimableKeys(ready, call.worker, call.routing.capable);
    NotHeldYet(db, call.attempt, worker, repository);
    NotHeldYet(ready, call.attempt, worker, repository);
    ClaimableKeyIs(ready, call.worker, call.routing.capable, First(keys));
    AssignedPlace(ready, now, call, First(keys), worker, repository);
  }

  lemma NotHeldYet(db: DB, attempt: Id, worker: Id, repository: Id)
    requires attempt !in db.attempts
    ensures attempt !in Held(db, worker, repository)
  {
  }

  lemma FewerClaimsLinked(db: DB, next: DB)
    requires Linked(db) && next == db.(claims := next.claims) && next.claims.Keys <= db.claims.Keys
    requires forall k <- next.claims :: next.claims[k] == db.claims[k]
    ensures Linked(next)
  {
  }

  lemma ClaimsDoNotCount(db: DB, next: DB, worker: Id, repository: Id)
    requires next == db.(claims := next.claims)
    ensures Held(next, worker, repository) == Held(db, worker, repository)
    ensures RetentionUse(next, worker, repository) == RetentionUse(db, worker, repository)
  {
    assert Held(next, worker, repository) == Held(db, worker, repository);
  }

  /** A claim takes a place only where it saw fewer than the limit. */
  lemma ClaimSeesRoom(db: DB, now: int, call: Call, worker: Id, repository: Id)
    requires Linked(db) && call.Claiming? && call.attempt !in db.attempts
    requires call.attempt in
      Held(After(db, Claim(db, now, call.worker, call.request, call.token, call.attempt, call.routing)), worker, repository)
    ensures worker == call.worker && RetentionUse(db, worker, repository) < MAX_RETAINED
  {
    var dropped := db.(claims := db.claims - {(call.worker, call.request)});
    hide Linked, TakeWork, Leased, Held, Retained, RetentionUse, Blank;
    FewerClaimsLinked(db, dropped);
    NotHeldYet(db, call.attempt, worker, repository);
    ClaimsDoNotCount(db, dropped, worker, repository);
    if (call.worker, call.request) in db.claims {
      TakingSeesRoom(dropped, now, call, worker, repository);
    } else {
      TakingSeesRoom(db, now, call, worker, repository);
    }
  }

  lemma StepIsClaim(db: DB, now: int, call: Call)
    requires Linked(db) && KeysUnique(db) && call.Claiming?
    ensures Step(db, now, call)
      == After(db, Claim(db, now, call.worker, call.request, call.token, call.attempt, call.routing))
  {
    hide Linked, KeysUnique, Claim;
  }

  // ---------------------------------------------------------------- the bound

  /** Whatever the call, a Worker's use of a repository rises only by a claim that saw it below the limit, or by a report. */
  lemma RetentionRises(db: DB, now: int, call: Call, worker: Id, repository: Id)
    requires Inv(db) && Linked(db) && KeysUnique(db) && !(call.Registering? && call.worker == worker)
    ensures RetentionUse(Step(db, now, call), worker, repository) <= RetentionUse(db, worker, repository)
      || (call.Claiming? && call.worker == worker && RetentionUse(db, worker, repository) < MAX_RETAINED
          && RetentionUse(Step(db, now, call), worker, repository) == RetentionUse(db, worker, repository) + 1)
  {
    hide Inv, Linked, KeysUnique, Step, Held, Retained;
    var next := Step(db, now, call);
    if call.Registering? {
      RegistrationCountsTheSame(db, now, call, worker, repository);
    } else {
      StepEvolves(db, now, call);
      assert AttemptsLinked(db) by { LinkedAttempts(db); }
      PlacesShrink(db, next, now, call, worker, repository);
      hide Evolves;
      var before, after := Held(db, worker, repository), Held(next, worker, repository);
      if after <= before {
        SubsetIsNoLarger(after, before);
      } else {
        StepIsClaim(db, now, call);
        ClaimSeesRoom(db, now, call, worker, repository);
        SubsetIsNoLarger(after, before + {call.attempt});
      }
    }
  }

  lemma LinkedAttempts(db: DB)
    requires Linked(db)
    ensures AttemptsLinked(db)
  {
  }

  lemma RegistrationCountsTheSame(db: DB, now: int, call: Call, other: Id, repository: Id)
    requires Linked(db) && KeysUnique(db) && call.Registering? && call.worker != other
    ensures RetentionUse(Step(db, now, call), other, repository) == RetentionUse(db, other, repository)
  {
    hide Linked, KeysUnique, RetentionUse, RegisterWorker;
    RegistrationIsLocal(db, now, call.worker, call.report, other, repository);
  }

  /** Between two reports of a Worker its use of a repository stays within the limit it started at or the fixed limit. */
  lemma {:induction false} RetentionIsBounded(start: DB, events: seq<Event>, i: nat, j: nat, worker: Id, repository: Id)
    requires Inv(start) && i <= j <= |events|
    requires forall k :: i <= k < j ==> !(events[k].call.Registering? && events[k].call.worker == worker)
    ensures RetentionUse(At(start, events, j), worker, repository)
      <= Max(RetentionUse(At(start, events, i), worker, repository), MAX_RETAINED)
    decreases j
  {
    hide Inv, At, RetentionUse, Evolves, Step;
    if i < j {
      RetentionIsBounded(start, events, i, j - 1, worker, repository);
      NextAt(start, events, j - 1);
      RetentionRises(At(start, events, j - 1), events[j - 1].now, events[j - 1].call, worker, repository);
    }
  }
}
