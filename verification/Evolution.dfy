/** How one call may change a row, whatever the call. */
module Evolution {
  import opened Common
  import opened Tables
  import opened Scan
  import opened Transitions
  import opened Invariant
  import opened LeaseSteps
  import opened ClaimSteps
  import opened WorkSteps
  import opened AdmissionSteps
  import opened Registration
  import opened Calls

  // ---------------------------------------------------------------- the relation

  /** A terminal Attempt is frozen, a lapsed one can only be lost, and only a start makes one run. */
  predicate AttemptStep(call: Call, now: int, id: Id, a: Attempt, b: Attempt) {
    && SameLease(a, b) && (a.acknowledged ==> b.acknowledged)
    && (!a.state.Active() ==> b == a.(acknowledged := b.acknowledged))
    && (a.expiry <= now ==> b.expiry == a.expiry && (b.state == a.state || b.state.AttemptLost?))
    && (b.state.AttemptRunning? && !a.state.AttemptRunning? ==> call.Starting? && call.attempt == id)
  }

  /** An outcome of the Attempt holding the lease asked a question at this commit. */
  predicate AskedAt(attempts: map<Id, Attempt>, id: Id, s: Session, checkpoint: Sha, a: Id) {
    && ActiveFor(attempts, a, id) && OutcomeOf(s.updates, a).Some?
    && OutcomeOf(s.updates, a).value.status.UpdateNeedsInput? && OutcomeOf(s.updates, a).value.checkpoint == checkpoint
  }

  /** How the commit to resume from may change. */
  ghost predicate ResumeStep(db: DB, call: Call, id: Id, s: Session, t: Session) {
    || t.pendingResume == s.pendingResume
    || (t.pendingResume == "" && call.Starting? && call.runtimeStarted && call.from == s.pendingResume
        && ActiveFor(db.attempts, call.attempt, id))
    || (s.state.Owned() && !t.state.Owned() && exists a :: AskedAt(db.attempts, id, s, t.pendingResume, a))
  }

  /** The Work's Run expects agents to report. */
  predicate Reports(db: DB, s: Session) { s.run in db.runs && db.runs[s.run].contract.AgentUpdate? }

  ghost predicate SessionStep(db: DB, call: Call, id: Id, s: Session, t: Session) {
    && SameIdentity(s, t) && ResumeStep(db, call, id, s, t)
    && (t.updates != s.updates ==> call.Reporting? && Reports(db, s))
    && (s.state.Terminal() && t != s ==> call.Retrying? && call.work == id && !Replaced(db, id))
    && (s.cancel && !t.cancel ==> call.Retrying? && call.work == id)
  }

  /** Old Sessions step; new ones come from admissions and replacements only. */
  ghost predicate SessionsEvolve(db: DB, next: DB, call: Call) {
    && (forall id <- db.sessions :: id in next.sessions && SessionStep(db, call, id, db.sessions[id], next.sessions[id]))
    && (call.Admitting? || call.Replacing? || next.sessions.Keys == db.sessions.Keys)
  }

  ghost predicate AttemptsEvolve(db: DB, next: DB, now: int, call: Call) {
    && (forall a <- db.attempts :: a in next.attempts && AttemptStep(call, now, a, db.attempts[a], next.attempts[a]))
    && (forall a <- next.attempts :: a in db.attempts || (call.Claiming? && a == call.attempt && next.attempts[a].state.AttemptPreparing?))
  }

  ghost predicate RunsEvolve(before: map<Id, Run>, after: map<Id, Run>) {
    forall r <- before :: r in after && SameRun(before[r], after[r])
  }

  /** A claim request bound to an Attempt stays bound to it. */
  ghost predicate ClaimsEvolve(before: map<(Id, string), ClaimRequest>, after: map<(Id, string), ClaimRequest>) {
    forall k <- before :: before[k].attempt.Some? ==> k in after && after[k] == before[k]
  }

  /** An update request is remembered for good. */
  ghost predicate RequestsEvolve(before: map<(Id, string), UpdateRequest>, after: map<(Id, string), UpdateRequest>) {
    forall k <- before :: k in after && after[k] == before[k]
  }

  /** What a Worker is known to retain is as it was. */
  ghost predicate MirrorsEvolve(before: map<(Id, Id), Mirror>, after: map<(Id, Id), Mirror>) {
    forall w: Id, r: Id :: Retained(after, w, r) == Retained(before, w, r)
  }

  ghost predicate Evolves(db: DB, next: DB, now: int, call: Call) {
    && SessionsEvolve(db, next, call) && AttemptsEvolve(db, next, now, call) && RunsEvolve(db.runs, next.runs)
    && ClaimsEvolve(db.claims, next.claims) && RequestsEvolve(db.updateRequests, next.updateRequests)
    && (call.Registering? || MirrorsEvolve(db.mirrors, next.mirrors))
  }

  // ---------------------------------------------------------------- rewriting one Session

  lemma CommitEvolves(db: DB, now: int, call: Call, attempt: Option<(Id, Attempt)>, id: Id, s: Session, e: Option<Execution>, t: Option<int>)
    requires id in db.sessions && s.run in db.runs && SessionStep(db, call, id, db.sessions[id], s)
    requires attempt.Some? ==> attempt.value.0 in db.attempts
    requires attempt.Some? ==> AttemptStep(call, now, attempt.value.0, db.attempts[attempt.value.0], attempt.value.1)
    ensures Evolves(db, Commit(db, attempt, id, s, e, t), now, call)
  {
    hide SessionStep, AttemptStep, MirrorsEvolve, SameRun, ClaimsEvolve, RequestsEvolve;
    NothingEvolves(db, now, call);
    SameRunIsReflexive();
  }

  lemma SameRunIsReflexive()
    ensures forall r: Run, t: Option<int> :: SameRun(r, r.(terminalAt := t)) && SameRun(r, r)
  {
  }

  /** Nothing about the commit, the cancellation or an end changes. */
  predicate Quiet(s: Session, t: Session) {
    && SameIdentity(s, t) && t.updates == s.updates && t.pendingResume == s.pendingResume && t.cancel == s.cancel
    && (s.state.Terminal() ==> t == s)
  }

  lemma QuietStep(db: DB, call: Call, id: Id, s: Session, t: Session)
    requires Quiet(s, t)
    ensures SessionStep(db, call, id, s, t)
  {
  }

  ghost predicate AllQuiet(before: map<Id, Session>, after: map<Id, Session>) {
    before.Keys == after.Keys && forall id <- before :: Quiet(before[id], after[id])
  }

  /** A call that leaves every old Attempt alone and changes Sessions only quietly. */
  lemma QuietlyEvolves(db: DB, next: DB, now: int, call: Call)
    requires AllQuiet(db.sessions, next.sessions) && next.attempts == db.attempts && RunsEvolve(db.runs, next.runs) && ClaimsEvolve(db.claims, next.claims)
    requires next.updateRequests == db.updateRequests && MirrorsEvolve(db.mirrors, next.mirrors)
    ensures Evolves(db, next, now, call)
  {
    hide Quiet, SessionStep;
    forall id | id in db.sessions ensures SessionStep(db, call, id, db.sessions[id], next.sessions[id]) {
      QuietStep(db, call, id, db.sessions[id], next.sessions[id]);
    }
  }

  lemma NothingEvolves(db: DB, now: int, call: Call)
    ensures Evolves(db, db, now, call)
  {
  }

  // ---------------------------------------------------------------- leases

  lemma StartAttemptEvolves(db: DB, now: int, call: Call)
    requires Inv(db) && Linked(db) && call.Starting?
    ensures Evolves(db, After(db, StartAttempt(db, now, call.attempt, call.token, call.from, call.runtimeStarted)), now, call)
  {
    hide Inv, Evolves, Commit, SessionOk, ExecutionOk, AttemptsOk;
    var o := StartAttempt(db, now, call.attempt, call.token, call.from, call.runtimeStarted);
    NothingEvolves(db, now, call);
    if o.Done? && o.db != db {
      LeaseHasWork(db, call.attempt);
      LeaseHolds(db, call.attempt);
      var a := db.attempts[call.attempt];
      var s, e := db.sessions[a.session], db.executions[a.session];
      if a.state.AttemptPreparing? {
        CommitEvolves(db, now, call, Some((call.attempt, a.(state := AttemptRunning))), a.session, Started(s, now),
                      Some(e.(state := ExecRunning)), EndOf(db, s));
      } else {
        CommitEvolves(db, now, call, None, a.session, s.(pendingResume := ""), None, EndOf(db, s));
      }
    }
  }

  lemma HeartbeatEvolves(db: DB, now: int, call: Call)
    requires Linked(db) && call.Beating?
    ensures Evolves(db, After(db, Heartbeat(db, now, call.attempt, call.token)), now, call)
  {
    hide Evolves, Commit;
    var o := Heartbeat(db, now, call.attempt, call.token);
    NothingEvolves(db, now, call);
    if o.Done? {
      LeaseHasWork(db, call.attempt);
      var a := db.attempts[call.attempt];
      CommitEvolves(db, now, call, Some((call.attempt, a.(expiry := now + LEASE_MILLIS))), a.session,
                    db.sessions[a.session], None, EndOf(db, db.sessions[a.session]));
    }
  }

  lemma StartStageEvolves(db: DB, now: int, call: Call)
    requires Inv(db) && Linked(db) && call.StartingStage?
    ensures Evolves(db, After(db, StartStage(db, now, call.attempt, call.token, call.position)), now, call)
  {
    hide Inv, Evolves, Commit, SessionOk, ExecutionOk, AttemptsOk, SessionStep, LeaseOk;
    var o := StartStage(db, now, call.attempt, call.token, call.position);
    NothingEvolves(db, now, call);
    if o.Done? {
      LeaseHolds(db, call.attempt);
      var id := db.attempts[call.attempt].session;
      var s := db.sessions[id];
      var t := s.(stages := s.stages[call.position := s.stages[call.position].(state := StageRunning)]);
      QuietStep(db, call, id, s, t);
      CommitEvolves(db, now, call, None, id, t, None, EndOf(db, s));
    }
  }

  lemma CompleteStageEvolves(db: DB, now: int, call: Call)
    requires Inv(db) && Linked(db) && call.CompletingStage?
    ensures Evolves(db, After(db, CompleteStage(db, now, call.attempt, call.token, call.position, call.ended)), now, call)
  {
    hide Inv, Linked, Evolves, Commit, SessionOk, ExecutionOk, AttemptsOk, SessionStep, LeaseOk, ValidToken;
    var o := CompleteStage(db, now, call.attempt, call.token, call.position, call.ended);
    NothingEvolves(db, now, call);
    if o.Done? && o.db != db {
      LeaseHolds(db, call.attempt);
      var id := db.attempts[call.attempt].session;
      var s := db.sessions[id];
      var t := s.(stages := EndStage(s.stages, call.position, call.ended));
      QuietStep(db, call, id, s, t);
      CommitEvolves(db, now, call, None, id, t, None, EndOf(db, s));
    }
  }

  lemma ReportedStep(db: DB, call: Call, id: Id, s: Session, u: WorkUpdate)
    requires call.Reporting? && Reports(db, s) && !s.state.Terminal()
    ensures SessionStep(db, call, id, s, s.(updates := s.updates + [u]))
  {
  }

  lemma ReportingEvolves(db: DB, now: int, call: Call, id: Id, u: WorkUpdate)
    requires id in db.sessions && call.Reporting? && Reports(db, db.sessions[id]) && !db.sessions[id].state.Terminal()
    ensures var t := db.sessions[id].(updates := db.sessions[id].updates + [u]);
      Evolves(db, Commit(db, None, id, t, None, EndOf(db, t)), now, call)
  {
    hide Evolves, SessionStep;
    var t := db.sessions[id].(updates := db.sessions[id].updates + [u]);
    ReportedStep(db, call, id, db.sessions[id], u);
    CommitEvolves(db, now, call, None, id, t, None, EndOf(db, t));
  }

  lemma AppendUpdateEvolves(db: DB, now: int, call: Call)
    requires Inv(db) && Linked(db) && call.Reporting?
    ensures Evolves(db, After(db, AppendUpdate(db, now, call.attempt, call.token, call.input, call.fits)), now, call)
  {
    hide Inv, Evolves, UpdateInputError, Commit, ProgressCount, Leased;
    var o := AppendUpdate(db, now, call.attempt, call.token, call.input, call.fits);
    NothingEvolves(db, now, call);
    if o.Done? && o.db != db {
      LeaseHasWork(db, call.attempt);
      var id := db.attempts[call.attempt].session;
      var s := db.sessions[id];
      if OutcomeOf(s.updates, call.attempt).None? {
        var u := WorkUpdate(call.attempt, call.input.request, call.input.status, call.input.message, call.input.pullRequest,
                            call.input.checkpoint, call.input.published, now);
        var reported := s.(updates := s.updates + [u]);
        ReportingEvolves(db, now, call, id, u);
        RememberingEvolves(db, Commit(db, None, id, reported, None, EndOf(db, s)), now, call, o.db.updateRequests);
      } else {
        RememberingEvolves(db, db, now, call, o.db.updateRequests);
      }
    }
  }

  lemma RememberingEvolves(db: DB, next: DB, now: int, call: Call, requests: map<(Id, string), UpdateRequest>)
    requires Evolves(db, next, now, call) && RequestsEvolve(db.updateRequests, requests)
    ensures Evolves(db, next.(updateRequests := requests), now, call)
  {
  }

  // ---------------------------------------------------------------- ends

  /** What a verdict leaves of a Session: only a question moves the commit to resume from. */
  lemma JudgedFrame(s: Session, now: int, v: Verdict, outcome: Option<WorkUpdate>)
    requires s.stages != [] && (v.work.WorkNeedsInput? ==> outcome.Some? && outcome.value.status.UpdateNeedsInput?)
    ensures var t := JudgedSession(s, now, v, outcome);
      && SameIdentity(s, t) && t.updates == s.updates && t.state == v.work && t.cancel == s.cancel
      && (t.pendingResume == s.pendingResume
          || (outcome.Some? && outcome.value.status.UpdateNeedsInput? && t.pendingResume == outcome.value.checkpoint))
  {
    hide JudgedStages;
    SameLength(s.stages, v);
  }

  lemma JudgedStep(db: DB, call: Call, id: Id, s: Session, now: int, attempt: Id, v: Verdict, outcome: Option<WorkUpdate>)
    requires s.state.Owned() && ActiveFor(db.attempts, attempt, id) && !v.work.Owned() && s.stages != []
    requires outcome.Some? ==> outcome == OutcomeOf(s.updates, attempt)
    requires v.work.WorkNeedsInput? ==> outcome.Some? && outcome.value.status.UpdateNeedsInput?
    ensures SessionStep(db, call, id, s, JudgedSession(s, now, v, outcome))
  {
    hide JudgedSession, SameIdentity;
    JudgedFrame(s, now, v, outcome);
    if outcome.Some? && outcome.value.status.UpdateNeedsInput? {
      assert AskedAt(db.attempts, id, s, outcome.value.checkpoint, attempt);
    }
  }

  lemma CompleteAttemptEvolves(db: DB, now: int, call: Call)
    requires Inv(db) && Linked(db) && call.Completing?
    ensures Evolves(db, After(db, CompleteAttempt(db, now, call.attempt, call.token, call.claimed, call.result, call.error)), now, call)
  {
    hide Inv, Evolves, Commit, SessionStep, OtherLive, JudgedStages, SessionOk, ExecutionOk, AttemptsOk, LeaseOk, JudgedSession;
    var o := CompleteAttempt(db, now, call.attempt, call.token, call.claimed, call.result, call.error);
    NothingEvolves(db, now, call);
    if o.Done? && o.db != db {
      LeaseHasWork(db, call.attempt);
      var a := db.attempts[call.attempt];
      var s, e := db.sessions[a.session], db.executions[a.session];
      var contract := db.runs[s.run].contract;
      var outcome := if contract.AgentUpdate? then OutcomeOf(s.updates, call.attempt) else None;
      var v := Judge(e.cancel, contract, outcome, call.claimed, call.result, call.error);
      var ended := JudgedSession(s, now, v, outcome);
      LeaseHolds(db, call.attempt);
      JudgedStep(db, call, a.session, s, now, call.attempt, v, outcome);
      JudgedRun(s, now, v, outcome);
      CommitEvolves(db, now, call, Some((call.attempt, a.(state := v.state, result := v.result, error := v.error))),
                    a.session, ended, Some(e.(state := ExecutionOf(v.state))), Settled(db, a.session, ended, now));
    }
  }

  /** While leases lapse one by one, Work still held is as it was before the sweep. */
  ghost predicate StillHeldIsOld(db: DB, mid: DB) {
    && mid.attempts.Keys == db.attempts.Keys && db.sessions.Keys <= mid.sessions.Keys
    && forall a <- mid.attempts :: mid.attempts[a].state.Active() ==>
         mid.attempts[a] == db.attempts[a] && db.attempts[a].session in db.sessions
         && mid.sessions[mid.attempts[a].session] == db.sessions[mid.attempts[a].session]
  }

  /** What a lapsed lease leaves of a Session. */
  lemma ExpiredFrame(s: Session, now: int, attempt: Id)
    ensures var t, outcome := ExpiredSession(s, now, OutcomeOf(s.updates, attempt)), OutcomeOf(s.updates, attempt);
      && SameIdentity(s, t) && t.updates == s.updates && t.state.WorkFailed? && t.cancel == s.cancel
      && (t.pendingResume == s.pendingResume
          || (outcome.Some? && outcome.value.status.UpdateNeedsInput? && t.pendingResume == outcome.value.checkpoint))
  {
  }

  lemma ExpiredStep(db: DB, call: Call, id: Id, s: Session, now: int, attempt: Id)
    requires s.state.Owned() && ActiveFor(db.attempts, attempt, id)
    ensures SessionStep(db, call, id, s, ExpiredSession(s, now, OutcomeOf(s.updates, attempt)))
  {
    hide SameIdentity, ExpiredSession;
    ExpiredFrame(s, now, attempt);
    var outcome := OutcomeOf(s.updates, attempt);
    if outcome.Some? && outcome.value.status.UpdateNeedsInput? {
      assert AskedAt(db.attempts, id, s, outcome.value.checkpoint, attempt);
    }
  }

  /** A second rewriting within the same call. */
  lemma CommitExtends(db: DB, mid: DB, now: int, call: Call, attempt: Id, a: Attempt, id: Id, s: Session, e: Execution, t: Option<int>)
    requires Evolves(db, mid, now, call) && s.run in mid.runs && attempt in db.attempts && attempt in mid.attempts && id in mid.sessions
    requires id in db.sessions ==> SessionStep(db, call, id, db.sessions[id], s)
    requires AttemptStep(call, now, attempt, db.attempts[attempt], a)
    ensures Evolves(db, Commit(mid, Some((attempt, a)), id, s, Some(e), t), now, call)
  {
    hide SessionStep, AttemptStep;
    var next := Commit(mid, Some((attempt, a)), id, s, Some(e), t);
    assert SessionsEvolve(db, next, call) by { SessionsExtend(db, mid, next, call, id, s); }
    assert AttemptsEvolve(db, next, now, call) by { AttemptsExtend(db, mid, next, now, call, attempt, a); }
    hide SessionsEvolve, AttemptsEvolve;
    assert RunsEvolve(db.runs, next.runs) && ClaimsEvolve(db.claims, next.claims);
  }

  lemma SessionsExtend(db: DB, mid: DB, next: DB, call: Call, id: Id, s: Session)
    requires SessionsEvolve(db, mid, call) && id in mid.sessions && next.sessions == mid.sessions[id := s]
    requires id in db.sessions ==> SessionStep(db, call, id, db.sessions[id], s)
    ensures SessionsEvolve(db, next, call)
  {
    hide SessionStep;
  }

  lemma AttemptsExtend(db: DB, mid: DB, next: DB, now: int, call: Call, attempt: Id, a: Attempt)
    requires AttemptsEvolve(db, mid, now, call) && next.attempts == mid.attempts[attempt := a]
    requires attempt in db.attempts && AttemptStep(call, now, attempt, db.attempts[attempt], a)
    ensures AttemptsEvolve(db, next, now, call)
  {
    hide AttemptStep;
  }

  lemma StillHeldAfter(db: DB, mid: DB, attempt: Id, a: Attempt, id: Id, s: Session, e: Execution, t: Option<int>)
    requires StillHeldIsOld(db, mid) && attempt in mid.attempts && !a.state.Active() && s.run in mid.runs
    requires forall x <- mid.attempts :: x != attempt && mid.attempts[x].state.Active() ==> mid.attempts[x].session != id
    ensures StillHeldIsOld(db, Commit(mid, Some((attempt, a)), id, s, Some(e), t))
  {
  }

  lemma ExpireEvolves(db: DB, mid: DB, now: int, call: Call, attempt: Id)
    requires Inv(mid) && Linked(mid) && Evolves(db, mid, now, call) && StillHeldIsOld(db, mid)
    ensures Evolves(db, Expire(mid, now, attempt), now, call) && StillHeldIsOld(db, Expire(mid, now, attempt))
  {
    hide Inv, Linked, Evolves, SessionStep, AttemptStep, SessionOk, ExecutionOk, AttemptsOk, LeaseOk, OtherLive, ExpiredSession;
    if Expired(mid, attempt, now) {
      LeaseHasWork(mid, attempt);
      LeaseHolds(mid, attempt);
      var a := mid.attempts[attempt];
      var id := a.session;
      var s := mid.sessions[id];
      var ended := ExpiredSession(s, now, OutcomeOf(s.updates, attempt));
      var lost := a.(state := AttemptLost, error := LEASE_EXPIRED);
      ExpiredStep(db, call, id, s, now, attempt);
      LostStep(call, now, attempt, a);
      ExpiredRun(s, now, attempt);
      OnlyHolder(mid, attempt);
      var e, t := mid.executions[id].(state := ExecFailed), Settled(mid, id, ended, now);
      CommitExtends(db, mid, now, call, attempt, lost, id, ended, e, t);
      StillHeldAfter(db, mid, attempt, lost, id, ended, e, t);
    }
  }

  lemma LostStep(call: Call, now: int, attempt: Id, a: Attempt)
    requires a.state.Active()
    ensures AttemptStep(call, now, attempt, a, a.(state := AttemptLost, error := LEASE_EXPIRED))
  {
  }

  lemma OnlyHolder(db: DB, attempt: Id)
    requires Inv(db) && attempt in db.attempts && db.attempts[attempt].state.Active()
    ensures forall x <- db.attempts :: x != attempt && db.attempts[x].state.Active() ==> db.attempts[x].session != db.attempts[attempt].session
  {
    LeaseHolds(db, attempt);
    hide Inv;
    var id := db.attempts[attempt].session;
    forall x | x in db.attempts && db.attempts[x].state.Active() && db.attempts[x].session == id ensures x == attempt {
      assert ActiveFor(db.attempts, x, id) && ActiveFor(db.attempts, attempt, id);
    }
  }

  lemma {:induction false} ExpireAllEvolves(db: DB, start: DB, now: int, call: Call, lapsed: seq<Id>)
    requires Inv(start) && Linked(start) && Evolves(db, start, now, call) && StillHeldIsOld(db, start)
    ensures Evolves(db, ExpireAll(start, now, lapsed), now, call) && StillHeldIsOld(db, ExpireAll(start, now, lapsed))
  {
    hide Inv, Linked, Evolves, StillHeldIsOld, Expire;
    if lapsed != [] {
      var n := |lapsed| - 1;
      ExpireAllEvolves(db, start, now, call, lapsed[..n]);
      ExpireAllKeeps(start, now, lapsed[..n]);
      ExpireEvolves(db, ExpireAll(start, now, lapsed[..n]), now, call, lapsed[n]);
    }
  }

  lemma ForgettingEvolves(db: DB, now: int, call: Call)
    requires Linked(db)
    ensures Evolves(db, ForgetEmptyClaims(db, now), now, call) && StillHeldIsOld(db, ForgetEmptyClaims(db, now))
  {
    hide SessionsLinked, RequestsLinked, AllQuiet, Evolves;
    NothingIsQuiet(db);
    QuietlyEvolves(db, ForgetEmptyClaims(db, now), now, call);
  }

  lemma SweepEvolves(db: DB, now: int, call: Call)
    requires Inv(db) && Linked(db) && call.Sweeping?
    ensures Evolves(db, After(db, Sweep(db, now, call.lapsed)), now, call)
  {
    hide Inv, Linked, Evolves, StillHeldIsOld, Expire;
    NothingEvolves(db, now, call);
    if Sweep(db, now, call.lapsed).Done? {
      FewerClaimsKeep(db, ForgetEmptyClaims(db, now));
      ForgettingEvolves(db, now, call);
      ExpireAllEvolves(db, ForgetEmptyClaims(db, now), now, call, call.lapsed);
    }
  }

  // ---------------------------------------------------------------- claims

  lemma CommitIsQuiet(db: DB, id: Id, s: Session, e: Option<Execution>)
    requires id in db.sessions && s.run in db.runs && Quiet(db.sessions[id], s)
    ensures var next := Commit(db, None, id, s, e, EndOf(db, s));
      AllQuiet(db.sessions, next.sessions) && RunsEvolve(db.runs, next.runs)
  {
  }

  lemma MaterialiseQuiet(db: DB, now: int, worker: Id, routed: set<Id>)
    requires Linked(db)
    ensures var next := Materialise(db, now, worker, routed);
      AllQuiet(db.sessions, next.sessions) && RunsEvolve(db.runs, next.runs) && next.claims == db.claims && next.updateRequests == db.updateRequests
      && next.mirrors == db.mirrors
  {
    hide BlockedKeys, SlotFree, RepositoryOpen, AllQuiet, RunsEvolve;
    NothingIsQuiet(db);
    var found := Routed(BlockedKeys(db), routed);
    if found != {} {
      var id := First(found).id;
      BlockedKeyIs(db, First(found));
      CommitIsQuiet(db, id, Materialised(db.sessions[id], worker), Some(Queued(db, id, worker, now)));
    }
  }

  lemma RerouteQuiet(db: DB, worker: Id, routed: set<Id>)
    requires Linked(db)
    ensures var next := Reroute(db, worker, routed);
      AllQuiet(db.sessions, next.sessions) && RunsEvolve(db.runs, next.runs) && next.claims == db.claims && next.updateRequests == db.updateRequests
      && next.mirrors == db.mirrors
  {
    hide QueuedElsewhere, AllQuiet, RunsEvolve;
    NothingIsQuiet(db);
    var found := Routed(QueuedElsewhere(db, worker), routed);
    if found != {} {
      var id := First(found).id;
      QueuedKeyIs(db, worker, First(found));
      CommitIsQuiet(db, id, db.sessions[id].(worker := Some(worker)), Some(db.executions[id].(worker := worker)));
    }
  }

  lemma QuietChains(a: map<Id, Session>, b: map<Id, Session>, c: map<Id, Session>)
    requires AllQuiet(a, b) && AllQuiet(b, c)
    ensures AllQuiet(a, c)
  {
  }

  lemma RunsChain(a: map<Id, Run>, b: map<Id, Run>, c: map<Id, Run>)
    requires RunsEvolve(a, b) && RunsEvolve(b, c)
    ensures RunsEvolve(a, c)
  {
  }

  lemma PreparedQuiet(db: DB, now: int, worker: Id, routing: Routing)
    requires Linked(db)
    ensures var next := Prepared(db, now, worker, routing);
      AllQuiet(db.sessions, next.sessions) && RunsEvolve(db.runs, next.runs) && next.claims == db.claims && next.updateRequests == db.updateRequests
      && MirrorsEvolve(db.mirrors, next.mirrors)
  {
    hide Linked, Materialise, Reroute, AllQuiet, RunsEvolve, MirrorsEvolve;
    MaterialiseKeepsLinks(db, now, worker, routing.blocked);
    var mid := Materialise(db, now, worker, routing.blocked);
    var next := Reroute(mid, worker, routing.queued);
    MaterialiseQuiet(db, now, worker, routing.blocked);
    RerouteQuiet(mid, worker, routing.queued);
    QuietChains(db.sessions, mid.sessions, next.sessions);
    RunsChain(db.runs, mid.runs, next.runs);
    AcquiringRetains(next, routing.acquired);
  }

  lemma AcquiringRetains(db: DB, pairs: set<(Id, Id)>)
    ensures MirrorsEvolve(db.mirrors, Acquire(db, pairs).mirrors)
  {
  }

  lemma AssignQuiet(db: DB, now: int, worker: Id, request: string, token: Token, work: Id, attempt: Id)
    requires Linked(db) && work in db.executions && !db.sessions[work].state.Terminal()
    ensures var next := Assign(db, now, worker, request, token, work, attempt);
      AllQuiet(db.sessions, next.sessions) && RunsEvolve(db.runs, next.runs) && next.updateRequests == db.updateRequests
      && next.mirrors == db.mirrors
  {
    assert work in db.sessions && db.sessions[work].run in db.runs;
    hide Linked;
  }

  /** A claim changes Sessions only quietly and adds at most the Attempt it was given. */
  lemma ClaimingEvolves(db: DB, next: DB, now: int, call: Call)
    requires AllQuiet(db.sessions, next.sessions) && RunsEvolve(db.runs, next.runs) && ClaimsEvolve(db.claims, next.claims)
    requires next.updateRequests == db.updateRequests && MirrorsEvolve(db.mirrors, next.mirrors)
    requires next.attempts == db.attempts
      || (call.Claiming? && call.attempt !in db.attempts && call.attempt in next.attempts
          && next.attempts == db.attempts[call.attempt := next.attempts[call.attempt]]
          && next.attempts[call.attempt].state.AttemptPreparing?)
    ensures Evolves(db, next, now, call)
  {
    hide Quiet, SessionStep, RunsEvolve, ClaimsEvolve, MirrorsEvolve;
    forall id | id in db.sessions ensures SessionStep(db, call, id, db.sessions[id], next.sessions[id]) {
      QuietStep(db, call, id, db.sessions[id], next.sessions[id]);
    }
  }

  /** What a claim that looks for work may change. */
  ghost predicate TakesQuietly(db: DB, next: DB, call: Call)
    requires call.Claiming?
  {
    && AllQuiet(db.sessions, next.sessions) && RunsEvolve(db.runs, next.runs) && next.updateRequests == db.updateRequests
    && MirrorsEvolve(db.mirrors, next.mirrors)
    && (next.claims == db.claims
        || ((call.worker, call.request) in next.claims
            && next.claims == db.claims[(call.worker, call.request) := next.claims[(call.worker, call.request)]]))
    && (next.attempts == db.attempts
        || (call.attempt !in db.attempts && call.attempt in next.attempts
            && next.attempts == db.attempts[call.attempt := next.attempts[call.attempt]]
            && next.attempts[call.attempt].state.AttemptPreparing?))
  }

  lemma TakeWorkQuiet(db: DB, now: int, call: Call)
    requires Inv(db) && Linked(db) && call.Claiming? && call.worker in db.workers
    ensures TakesQuietly(db, After(db, TakeWork(db, now, call.worker, call.request, call.token, call.attempt, call.routing)), call)
  {
    hide Inv, Linked, Prepared, ClaimableKeys, ActiveOf, AllQuiet, RunsEvolve, First;
    var o := TakeWork(db, now, call.worker, call.request, call.token, call.attempt, call.routing);
    NothingIsQuiet(db);
    var ready := Prepared(db, now, call.worker, call.routing);
    PreparedFrame(db, now, call.worker, call.routing);
    PreparedQuiet(db, now, call.worker, call.routing);
    if o.Done? && o.reply.Claimed? {
      var k := First(ClaimableKeys(ready, call.worker, call.routing.capable));
      PreparedKeeps(db, now, call.worker, call.routing);
      ClaimableKeyIs(ready, call.worker, call.routing.capable, k);
      QueuedIsLive(ready, k.id);
      AssignQuiet(ready, now, call.worker, call.request, call.token, k.id, call.attempt);
      QuietChains(db.sessions, ready.sessions, o.db.sessions);
      RunsChain(db.runs, ready.runs, o.db.runs);
    }
  }

  lemma QueuedIsLive(db: DB, id: Id)
    requires Inv(db) && id in db.executions && id in db.sessions && db.executions[id].state.ExecQueued?
    ensures db.sessions[id].state.WorkQueued?
  {
    WorkHolds(db, id);
  }

  lemma NothingIsQuiet(db: DB)
    ensures AllQuiet(db.sessions, db.sessions) && RunsEvolve(db.runs, db.runs) && ClaimsEvolve(db.claims, db.claims)
    ensures MirrorsEvolve(db.mirrors, db.mirrors)
  {
  }

  lemma ClaimEvolves(db: DB, now: int, call: Call)
    requires Inv(db) && Linked(db) && call.Claiming?
    ensures Evolves(db, After(db, Claim(db, now, call.worker, call.request, call.token, call.attempt, call.routing)), now, call)
  {
    hide Inv, Linked, TakeWork, Evolves, AllQuiet, RunsEvolve;
    var o := Claim(db, now, call.worker, call.request, call.token, call.attempt, call.routing);
    NothingEvolves(db, now, call);
    if o.Done? && o.db != db {
      var dropped := db.(claims := db.claims - {(call.worker, call.request)});
      FewerClaimsKeep(db, dropped);
      if (call.worker, call.request) in db.claims {
        TakeWorkQuiet(dropped, now, call);
      } else {
        TakeWorkQuiet(db, now, call);
      }
      ClaimingEvolves(db, o.db, now, call);
    }
  }

  // ---------------------------------------------------------------- everything else

  lemma CancelledStep(db: DB, call: Call, id: Id, s: Session, now: int)
    ensures SessionStep(db, call, id, s, CancelledSession(s, now))
  {
  }

  lemma CancelAllEvolves(db: DB, now: int, call: Call, run: Id, work: set<Id>)
    requires run in db.runs
    ensures Evolves(db, CancelAll(db, now, run, work), now, call)
  {
    hide SessionStep, CancelledSession, CancelledExecution, HasLiveWork, AttemptsEvolve, ClaimsEvolve;
    var next := CancelAll(db, now, run, work);
    NothingEvolves(db, now, call);
    forall id | id in db.sessions ensures SessionStep(db, call, id, db.sessions[id], next.sessions[id]) {
      CancelledStep(db, call, id, db.sessions[id], now);
    }
    assert AttemptsEvolve(db, next, now, call) by { SameAttemptsEvolve(db, next, now, call); }
  }

  lemma SameAttemptsEvolve(db: DB, next: DB, now: int, call: Call)
    requires next.attempts == db.attempts
    ensures AttemptsEvolve(db, next, now, call)
  {
  }

  lemma SessionStays(db: DB, call: Call, id: Id, s: Session)
    ensures SessionStep(db, call, id, s, s)
  {
  }

  lemma AcquiringEvolves(db: DB, routed: DB, next: DB, now: int, call: Call)
    requires Evolves(routed, next, now, call) && routed == db.(mirrors := routed.mirrors)
    requires MirrorsEvolve(db.mirrors, routed.mirrors)
    ensures Evolves(db, next, now, call)
  {
    hide AttemptStep, SameIdentity, ResumeStep;
    forall id | id in db.sessions ensures SessionStep(db, call, id, db.sessions[id], next.sessions[id]) {
      assert SessionStep(routed, call, id, routed.sessions[id], next.sessions[id]);
      RoutedStep(db, routed, call, id, routed.sessions[id], next.sessions[id]);
    }
  }

  lemma RoutedStep(db: DB, routed: DB, call: Call, id: Id, s: Session, t: Session)
    requires SessionStep(routed, call, id, s, t) && routed == db.(mirrors := routed.mirrors)
    ensures SessionStep(db, call, id, s, t)
  {
  }

  lemma RetrySessionEvolves(db: DB, now: int, call: Call)
    requires Inv(db) && Linked(db) && call.Retrying?
    ensures Evolves(db, After(db, RetrySession(db, now, call.run, call.work, call.route, call.acquired)), now, call)
  {
    hide Inv, Evolves, MatchingLive, Commit;
    var o := RetrySession(db, now, call.run, call.work, call.route, call.acquired);
    NothingEvolves(db, now, call);
    if o.Done? {
      var s := db.sessions[call.work];
      assert s.run in db.runs;
      hide Linked;
      var routed := Acquire(db, call.acquired);
      CommitEvolves(routed, now, call, None, call.work, Retried(s, call.route.value),
                    Some(Queued(db, call.work, call.route.value, now)), None);
      AcquiringRetains(db, call.acquired);
      AcquiringEvolves(db, routed, o.db, now, call);
    }
  }

  lemma ResumedStep(db: DB, call: Call, id: Id, s: Session, worker: Option<Id>, answer: WorkAnswer)
    requires s.state.WorkNeedsInput? && !s.cancel && s.stages != []
    ensures SessionStep(db, call, id, s, Resumed(s, worker, answer))
  {
  }

  function AnswerOf(db: DB, now: int, call: Call): Outcome
    requires Linked(db) && call.Answering?
  {
    AnswerWork(db, now, call.work, call.request, call.message, call.fits, call.route, call.acquired)
  }

  /** An answer that changes anything resumes the Work, on a Worker if a slot is free. */
  lemma AnswerResumes(db: DB, now: int, call: Call)
    requires Linked(db) && call.Answering? && AnswerOf(db, now, call).Done? && AnswerOf(db, now, call).db != db
    ensures call.work in db.sessions && db.sessions[call.work].state.WorkNeedsInput?
    ensures LastQuestion(db.sessions[call.work].updates).Some?
    ensures var s := db.sessions[call.work];
      var free := SlotFree(db, s.run);
      AnswerOf(db, now, call).db
        == Commit(if free then Acquire(db, call.acquired) else db, None, call.work,
                  Resumed(s, if free then call.route else None,
                          WorkAnswer(call.request, LastQuestion(s.updates).value, call.message, now)),
                  if free && call.route.Some? then Some(Queued(db, call.work, call.route.value, now)) else None, None)
  {
    hide Commit, Blank, ValidCommitSha, SlotFree;
  }

  lemma AnswerWorkEvolves(db: DB, now: int, call: Call)
    requires Inv(db) && Linked(db) && call.Answering?
    ensures Evolves(db, After(db, AnswerOf(db, now, call)), now, call)
  {
    hide Inv, Evolves, Commit, SessionStep, AnswerOf;
    var o := AnswerOf(db, now, call);
    NothingEvolves(db, now, call);
    if o.Done? && o.db != db {
      AnswerResumes(db, now, call);
      var s := db.sessions[call.work];
      WorkHolds(db, call.work);
      assert !s.cancel by { WaitingIsNotCancelled(s); }
      hide Linked, SessionOk, AttemptsOk;
      var answer := WorkAnswer(call.request, LastQuestion(s.updates).value, call.message, now);
      var routed := if SlotFree(db, s.run) then Acquire(db, call.acquired) else db;
      var worker := if SlotFree(db, s.run) then call.route else None;
      ResumedStep(routed, call, call.work, s, worker, answer);
      CommitEvolves(routed, now, call, None, call.work, Resumed(s, worker, answer),
                    if worker.Some? then Some(Queued(db, call.work, worker.value, now)) else None, None);
      AcquiringRetains(db, call.acquired);
      AcquiringEvolves(db, routed, o.db, now, call);
    }
  }

  lemma WaitingIsNotCancelled(s: Session)
    requires SessionOk(s) && s.state.WorkNeedsInput?
    ensures !s.cancel
  {
  }

  /** Admissions add rows and change none. */
  lemma GrowingEvolves(db: DB, next: DB, now: int, call: Call)
    requires call.Admitting? || call.Replacing?
    requires next.attempts == db.attempts && next.claims == db.claims && next.updateRequests == db.updateRequests
    requires MirrorsEvolve(db.mirrors, next.mirrors)
    requires forall id <- db.sessions :: id in next.sessions && next.sessions[id] == db.sessions[id]
    requires forall r <- db.runs :: r in next.runs && next.runs[r] == db.runs[r]
    ensures Evolves(db, next, now, call)
  {
    hide SessionStep, AttemptsEvolve, MirrorsEvolve;
    SameAttemptsEvolve(db, next, now, call);
    forall id | id in db.sessions ensures SessionStep(db, call, id, db.sessions[id], next.sessions[id]) {
      SessionStays(db, call, id, db.sessions[id]);
    }
  }

  lemma {:induction false} AdmitTargetsFrame(db: DB, origin: DB, flavour: Flavour, r: NewRun, targets: seq<Target>, now: int, n: nat)
    requires Linked(origin) && n <= |targets|
    requires Chosen(origin, flavour, r.procedure, targets)
    requires forall t <- targets :: t.id !in origin.sessions
    requires forall id <- origin.sessions :: id in db.sessions && db.sessions[id] == origin.sessions[id]
    ensures var next := AdmitTargets(db, origin, flavour, r, targets, now, n).0;
      && next.attempts == db.attempts && next.claims == db.claims && next.runs == db.runs && next.updateRequests == db.updateRequests
      && next.mirrors == db.mirrors
      && forall id <- origin.sessions :: id in next.sessions && next.sessions[id] == origin.sessions[id]
  {
    hide Linked, Predecessor;
    if n != 0 { AdmitTargetsFrame(db, origin, flavour, r, targets, now, n - 1); }
  }

  lemma AdmitEvolves(db: DB, now: int, call: Call)
    requires Linked(db) && KeysUnique(db) && call.Admitting?
    ensures Evolves(db, After(db, Admit(db, now, call.flavour, call.r, call.targets, call.acquired)), now, call)
  {
    hide Evolves, Predecessor, KeyTaken, KeysUnique;
    var o := Admit(db, now, call.flavour, call.r, call.targets, call.acquired);
    NothingEvolves(db, now, call);
    if o.Done? && o.db != db {
      TargetsErrorMeans(db, call.flavour, call.r, call.targets);
      hide Linked;
      AdmitTargetsFrame(Acquire(WithRun(db, call.r, now), call.acquired), db, call.flavour, call.r, call.targets, now, |call.targets|);
      AcquiringRetains(WithRun(db, call.r, now), call.acquired);
      GrowingEvolves(db, o.db, now, call);
    }
  }

  lemma InsertedOnly(db: DB, r: NewRun, now: int, acquired: set<(Id, Id)>, t: Target, work: Id, route: Option<Id>, call: Call)
    requires r.id !in db.runs && t.id !in db.sessions && call.Replacing?
    ensures Evolves(db, InsertTarget(Acquire(WithRun(db, r, now), acquired), r.id, t, Some(work), now, route), now, call)
  {
    hide Evolves;
    AcquiringRetains(WithRun(db, r, now), acquired);
    GrowingEvolves(db, InsertTarget(Acquire(WithRun(db, r, now), acquired), r.id, t, Some(work), now, route), now, call);
  }

  lemma ReplaceWorkEvolves(db: DB, now: int, call: Call)
    requires Linked(db) && KeysUnique(db) && call.Replacing?
    ensures Evolves(db, After(db, ReplaceWork(db, now, call.requestKey, call.digest, call.work, call.run, call.newWork,
                                              call.eligible, call.fits, call.route, call.acquired)), now, call)
  {
    hide Evolves, KeyTaken, KeysUnique, MatchingLive, Replaced, InsertTarget, WithRun, Acquire;
    var o := ReplaceWork(db, now, call.requestKey, call.digest, call.work, call.run, call.newWork,
                         call.eligible, call.fits, call.route, call.acquired);
    NothingEvolves(db, now, call);
    if o.Done? && o.db != db {
      var s := db.sessions[call.work];
      var origin := db.runs[s.run];
      InsertedOnly(db, NewRun(call.run, call.requestKey, call.digest, origin.procedure, origin.limit, origin.contract, true),
                   now, call.acquired, Target(call.newWork, s.repository, s.source, |s.stages|, call.fits, call.route), call.work, call.route, call);
    }
  }

  lemma UnqueuedQuiet(db: DB, repository: Id)
    ensures AllQuiet(db.sessions, Unqueued(db, repository).sessions)
  {
  }

  lemma UnqueuedEvolves(db: DB, now: int, call: Call, repository: Id)
    ensures Evolves(db, Unqueued(db, repository), now, call)
  {
    hide Evolves, AllQuiet, RunsEvolve, ClaimsEvolve, RequestsEvolve, MirrorsEvolve, AttemptsEvolve, Unqueued;
    NothingIsQuiet(db);
    UnqueuedQuiet(db, repository);
    UnqueuedFrame(db, repository);
    QuietlyEvolves(db, Unqueued(db, repository), now, call);
  }

  lemma MarkingEvolves(db: DB, next: DB, now: int, call: Call, repositories: map<Id, Repository>)
    requires Evolves(db, next, now, call)
    ensures Evolves(db, next.(repositories := repositories), now, call)
  {
    hide SessionStep, AttemptStep, RunsEvolve, ClaimsEvolve, RequestsEvolve, MirrorsEvolve;
  }

  lemma SetRepositoryEnabledEvolves(db: DB, now: int, call: Call)
    requires call.Enabling?
    ensures Evolves(db, After(db, SetRepositoryEnabled(db, call.repository, call.enabled)), now, call)
  {
    hide Evolves, Unqueued, Attempted, QueuedIn;
    var repositories := After(db, SetRepositoryEnabled(db, call.repository, call.enabled)).repositories;
    NothingEvolves(db, now, call);
    MarkingEvolves(db, db, now, call, repositories);
    UnqueuedEvolves(db, now, call, call.repository);
    MarkingEvolves(db, Unqueued(db, call.repository), now, call, repositories);
  }

  lemma RegisterWorkerEvolves(db: DB, now: int, call: Call)
    requires Linked(db) && call.Registering?
    ensures Evolves(db, After(db, RegisterWorker(db, now, call.worker, call.report)), now, call)
  {
    hide Linked, Registered;
    var next := Registered(db, now, call.worker, call.report);
    RegisteredFrame(db, now, call.worker, call.report);
    NothingEvolves(db, now, call);
    forall a | a in db.attempts ensures AttemptStep(call, now, a, db.attempts[a], next.attempts[a]) {
      AcknowledgingStep(db, now, call, a);
    }
    hide SessionStep, AttemptStep;
    forall id | id in db.sessions ensures SessionStep(db, call, id, db.sessions[id], db.sessions[id]) { SessionStays(db, call, id, db.sessions[id]); }
  }

  lemma AcknowledgingStep(db: DB, now: int, call: Call, a: Id)
    requires Linked(db) && call.Registering? && a in db.attempts
    ensures AttemptStep(call, now, a, db.attempts[a], Registered(db, now, call.worker, call.report).attempts[a])
  {
    hide Linked, AccountedFor;
  }

  // ---------------------------------------------------------------- any call

  lemma StepEvolves(db: DB, now: int, call: Call)
    requires Inv(db) && Linked(db) && KeysUnique(db)
    ensures Evolves(db, Step(db, now, call), now, call)
  {
    hide Inv, Linked, KeysUnique, Evolves, Claim, StartAttempt, Heartbeat, StartStage, CompleteStage, AppendUpdate;
    hide CompleteAttempt, Sweep, CancelRun, CancelSession, RetrySession, AnswerWork, Admit, ReplaceWork, SetRepositoryEnabled, RegisterWorker;
    match call
    case Claiming(_, _, _, _, _) => ClaimEvolves(db, now, call);
    case Starting(_, _, _, _) => StartAttemptEvolves(db, now, call);
    case Beating(_, _) => HeartbeatEvolves(db, now, call);
    case StartingStage(_, _, _) => StartStageEvolves(db, now, call);
    case CompletingStage(_, _, _, _) => CompleteStageEvolves(db, now, call);
    case Reporting(_, _, _, _) => AppendUpdateEvolves(db, now, call);
    case Completing(_, _, _, _, _) => CompleteAttemptEvolves(db, now, call);
    case Sweeping(_) => SweepEvolves(db, now, call);
    case CancellingRun(run) => CancelRunEvolves(db, now, call);
    case CancellingSession(_, _) => CancelSessionEvolves(db, now, call);
    case Retrying(_, _, _, _) => RetrySessionEvolves(db, now, call);
    case Answering(_, _, _, _, _, _) => AnswerWorkEvolves(db, now, call);
    case Admitting(_, _, _, _) => AdmitEvolves(db, now, call);
    case Replacing(_, _, _, _, _, _, _, _, _) => ReplaceWorkEvolves(db, now, call);
    case Enabling(_, _) => SetRepositoryEnabledEvolves(db, now, call);
    case Registering(_, _) => RegisterWorkerEvolves(db, now, call);
  }

  lemma CancelRunEvolves(db: DB, now: int, call: Call)
    requires call.CancellingRun?
    ensures Evolves(db, After(db, CancelRun(db, now, call.run)), now, call)
  {
    hide Evolves, CancelAll;
    NothingEvolves(db, now, call);
    if call.run in db.runs { CancelAllEvolves(db, now, call, call.run, SessionsOf(db, call.run)); }
  }

  lemma CancelSessionEvolves(db: DB, now: int, call: Call)
    requires Linked(db) && call.CancellingSession?
    ensures Evolves(db, After(db, CancelSession(db, now, call.run, call.work)), now, call)
  {
    hide Evolves, CancelAll;
    NothingEvolves(db, now, call);
    if CancelSession(db, now, call.run, call.work).Done? { CancelAllEvolves(db, now, call, call.run, {call.work}); }
  }
}
