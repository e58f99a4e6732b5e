/** What holds along every run of the control plane. */
module History {
  import opened Common
  import opened Text
  import opened Tables
  import opened Transitions
  import opened Invariant
  import opened LeaseSteps
  import opened ClaimSteps
  import opened AdmissionSteps
  import opened Registration
  import opened Calls
  import opened Evolution

  // ---------------------------------------------------------------- runs

  ghost predicate Clocked(events: seq<Event>) {
    forall i, j :: 0 <= i < j < |events| ==> events[i].now <= events[j].now
  }

  /** The tables before the event at `i`. */
  ghost function At(start: DB, events: seq<Event>, i: nat): (db: DB)
    requires Inv(start) && i <= |events|
    ensures Inv(db)
  {
    Final(start, events[..i])
  }

  lemma NextAt(start: DB, events: seq<Event>, i: nat)
    requires Inv(start) && i < |events|
    ensures Linked(At(start, events, i)) && KeysUnique(At(start, events, i))
    ensures At(start, events, i + 1) == Step(At(start, events, i), events[i].now, events[i].call)
    ensures Evolves(At(start, events, i), At(start, events, i + 1), events[i].now, events[i].call)
  {
    var db := At(start, events, i);
    hide Inv, Step, Evolves, Linked, KeysUnique;
    assert events[..i + 1][..|events[..i + 1]| - 1] == events[..i];
    InvIsLinked(db);
    StepEvolves(db, events[i].now, events[i].call);
  }

  // ---------------------------------------------------------------- fencing

  /** An Attempt that is over, or whose lease has run out. */
  predicate Lapsed(db: DB, attempt: Id, now: int) {
    attempt in db.attempts && (!db.attempts[attempt].state.Active() || db.attempts[attempt].expiry <= now)
  }

  /** The calls a Worker makes with the lease of an Attempt. */
  predicate Names(call: Call, attempt: Id) {
    match call
    case Starting(a, _, _, _) => a == attempt
    case Beating(a, _) => a == attempt
    case StartingStage(a, _, _) => a == attempt
    case CompletingStage(a, _, _, _) => a == attempt
    case Reporting(a, _, _, _) => a == attempt
    case Completing(a, _, _, _, _) => a == attempt
    case _ => false
  }

  /** Whatever token it carries, a call on a lapsed lease changes nothing: it is refused or a pure replay. */
  lemma LapsedCallsChangeNothing(db: DB, now: int, call: Call, attempt: Id)
    requires Inv(db) && Linked(db) && KeysUnique(db) && Lapsed(db, attempt, now) && Names(call, attempt)
    ensures Step(db, now, call) == db
  {
    hide Inv, KeysUnique, Linked, Commit, JudgedStages, OutcomeOf;
  }

  lemma LapsedStays(db: DB, next: DB, now: int, later: int, call: Call, attempt: Id)
    requires AttemptsEvolve(db, next, later, call) && Lapsed(db, attempt, now) && now <= later
    ensures Lapsed(next, attempt, later)
    ensures next.attempts[attempt].state == db.attempts[attempt].state
      || (db.attempts[attempt].state.Active() && next.attempts[attempt].state.AttemptLost?)
  {
  }

  /** Once a lease has lapsed its Attempt can only be lost, and its calls never change anything again. */
  lemma {:induction false} LeaseFencing(start: DB, events: seq<Event>, i: nat, j: nat, attempt: Id)
    requires Inv(start) && Clocked(events) && i <= j < |events| && Lapsed(At(start, events, i), attempt, events[i].now)
    ensures Lapsed(At(start, events, j), attempt, events[j].now)
    ensures At(start, events, j).attempts[attempt].state == At(start, events, i).attempts[attempt].state
      || (At(start, events, i).attempts[attempt].state.Active() && At(start, events, j).attempts[attempt].state.AttemptLost?)
    ensures Names(events[j].call, attempt) ==> At(start, events, j + 1) == At(start, events, j)
    decreases j
  {
    hide Inv, Step, At, Linked, KeysUnique, AttemptsEvolve, SessionsEvolve, RunsEvolve, ClaimsEvolve, RequestsEvolve, Names;
    if i < j {
      LeaseFencing(start, events, i, j - 1, attempt);
      NextAt(start, events, j - 1);
      LapsedStays(At(start, events, j - 1), At(start, events, j), events[j - 1].now, events[j - 1].now, events[j - 1].call, attempt);
    }
    NextAt(start, events, j);
    if Names(events[j].call, attempt) { LapsedCallsChangeNothing(At(start, events, j), events[j].now, events[j].call, attempt); }
  }

  // ---------------------------------------------------------------- rows that only grow

  ghost predicate AttemptsRemembered(before: map<Id, Attempt>, after: map<Id, Attempt>) {
    forall a <- before :: a in after && SameLease(before[a], after[a])
      && (!before[a].state.Active() ==> after[a] == before[a].(acknowledged := after[a].acknowledged))
  }

  ghost predicate SessionsRemembered(before: map<Id, Session>, after: map<Id, Session>) {
    forall id <- before :: id in after && SameIdentity(before[id], after[id])
  }

  /** What every later state remembers of an earlier one. */
  ghost predicate Remembers(db: DB, later: DB) {
    && SessionsRemembered(db.sessions, later.sessions) && AttemptsRemembered(db.attempts, later.attempts)
    && RunsEvolve(db.runs, later.runs) && ClaimsEvolve(db.claims, later.claims)
    && RequestsEvolve(db.updateRequests, later.updateRequests)
  }

  lemma RememberingIsReflexive(db: DB)
    ensures Remembers(db, db)
  {
  }

  lemma SessionsRememberedOn(before: map<Id, Session>, mid: DB, next: DB, call: Call)
    requires SessionsRemembered(before, mid.sessions) && SessionsEvolve(mid, next, call)
    ensures SessionsRemembered(before, next.sessions)
  {
    hide SessionStep, SameIdentity;
    forall id | id in before ensures id in next.sessions && SameIdentity(before[id], next.sessions[id]) {
      StepKeepsIdentity(mid, call, id, mid.sessions[id], next.sessions[id]);
      IdentityChains(before[id], mid.sessions[id], next.sessions[id]);
    }
  }

  lemma StepKeepsIdentity(db: DB, call: Call, id: Id, s: Session, t: Session)
    requires SessionStep(db, call, id, s, t)
    ensures SameIdentity(s, t)
  {
    hide SameIdentity, ResumeStep;
  }

  lemma IdentityChains(s: Session, t: Session, u: Session)
    requires SameIdentity(s, t) && SameIdentity(t, u)
    ensures SameIdentity(s, u)
  {
  }

  lemma AttemptsRememberedOn(before: map<Id, Attempt>, mid: DB, next: DB, now: int, call: Call)
    requires AttemptsRemembered(before, mid.attempts) && AttemptsEvolve(mid, next, now, call)
    ensures AttemptsRemembered(before, next.attempts)
  {
    assert forall a <- before :: AttemptStep(call, now, a, mid.attempts[a], next.attempts[a]);
  }

  lemma EvolvingRemembers(db: DB, mid: DB, next: DB, now: int, call: Call)
    requires Remembers(db, mid) && Evolves(mid, next, now, call)
    ensures Remembers(db, next)
  {
    SessionsRememberedOn(db.sessions, mid, next, call);
    AttemptsRememberedOn(db.attempts, mid, next, now, call);
    RunsChain(db.runs, mid.runs, next.runs);
    hide SessionsRemembered, AttemptsRemembered, SessionsEvolve, AttemptsEvolve, RunsEvolve;
  }

  lemma {:induction false} HistoryIsKept(start: DB, events: seq<Event>, i: nat, j: nat)
    requires Inv(start) && i <= j <= |events|
    ensures Remembers(At(start, events, i), At(start, events, j))
    decreases j
  {
    hide Inv, Remembers, Evolves, Step, At;
    if i == j {
      RememberingIsReflexive(At(start, events, i));
    } else {
      HistoryIsKept(start, events, i, j - 1);
      NextAt(start, events, j - 1);
      EvolvingRemembers(At(start, events, i), At(start, events, j - 1), At(start, events, j), events[j - 1].now, events[j - 1].call);
    }
  }

  // ---------------------------------------------------------------- replays

  /** A claim request is bound to one Attempt for good.  Replayed with its token it answers with that Attempt
      exactly while the lease lives; replayed with another token it is refused; it never changes anything. */
  lemma ClaimIsBoundOnce(start: DB, events: seq<Event>, i: nat, j: nat, stored: ClaimRequest)
    requires Inv(start) && i <= j < |events| && events[j].call.Claiming? && stored.attempt.Some?
    requires (events[j].call.worker, events[j].call.request) in At(start, events, i).claims
    requires At(start, events, i).claims[(events[j].call.worker, events[j].call.request)] == stored
    ensures At(start, events, j + 1) == At(start, events, j) && stored.attempt.value in At(start, events, j).attempts
    ensures Linked(At(start, events, j)) && KeysUnique(At(start, events, j))
    ensures var db, now, call := At(start, events, j), events[j].now, events[j].call;
      Apply(db, now, call).Done? <==>
        && !Blank(call.request) && Bytes(call.request) <= 200 && call.worker in db.workers && db.workers[call.worker].currentProtocol
        && ValidToken(call.token) && Leased(db, stored.attempt.value, call.token, now) && call.token == stored.token
    ensures Apply(At(start, events, j), events[j].now, events[j].call).Done? ==>
      Apply(At(start, events, j), events[j].now, events[j].call).reply == Claimed(stored.attempt.value)
  {
    hide Inv, At, SessionsRemembered, AttemptsRemembered, RunsEvolve, RequestsEvolve, Evolves, Blank, TakeWork, KeysUnique;
    HistoryIsKept(start, events, i, j);
    NextAt(start, events, j);
  }

  /** Once a request key has admitted a Run, every later admission under it replays that Run or is refused. */
  lemma AdmissionIsBoundOnce(start: DB, events: seq<Event>, i: nat, j: nat, run: Id)
    requires Inv(start) && i <= j < |events| && run in At(start, events, i).runs
    requires match events[j].call
      case Admitting(_, r, _, _) => r.requestKey == At(start, events, i).runs[run].requestKey
      case Replacing(key, _, _, _, _, _, _, _, _) => key == At(start, events, i).runs[run].requestKey
      case _ => false
    ensures At(start, events, j + 1) == At(start, events, j)
    ensures Linked(At(start, events, j)) && KeysUnique(At(start, events, j))
    ensures var digest := if events[j].call.Admitting? then events[j].call.r.digest else events[j].call.digest;
      Apply(At(start, events, j), events[j].now, events[j].call) ==
        if digest == At(start, events, i).runs[run].digest then Done(At(start, events, j), Replayed(run)) else Refused(KeyConflict)
  {
    hide Inv, At, SessionsRemembered, AttemptsRemembered, ClaimsEvolve, RequestsEvolve, Evolves;
    HistoryIsKept(start, events, i, j);
    NextAt(start, events, j);
    var early, late := At(start, events, i), At(start, events, j);
    assert SameRun(early.runs[run], late.runs[run]);
    assert KeyTaken(late, early.runs[run].requestKey);
    assert RunOfKey(late, early.runs[run].requestKey) == run;
  }

  lemma StoredAnswerPersists(before: seq<WorkAnswer>, after: seq<WorkAnswer>, request: string)
    requires before <= after && StoredAnswer(before, request).Some?
    ensures StoredAnswer(after, request) == StoredAnswer(before, request)
  {
    if before[0].request != request {
      assert before[1..] <= after[1..];
      StoredAnswerPersists(before[1..], after[1..], request);
    }
  }

  /** An answer that was accepted is returned again, unchanged, whatever happened to the Work since. */
  lemma AnswerIsKept(start: DB, events: seq<Event>, i: nat, j: nat, work: Id, stored: WorkAnswer)
    requires Inv(start) && i <= j < |events| && work in At(start, events, i).sessions
    requires StoredAnswer(At(start, events, i).sessions[work].answers, stored.request) == Some(stored)
    requires events[j].call.Answering? && events[j].call.work == work && events[j].call.request == stored.request
    requires !Blank(events[j].call.message) && Bytes(events[j].call.message) <= MAX_ANSWER_BYTES
    ensures Linked(At(start, events, j)) && KeysUnique(At(start, events, j))
    ensures Apply(At(start, events, j), events[j].now, events[j].call) ==
      if events[j].call.message == stored.message then Done(At(start, events, j), Answered(stored)) else Refused(AnswerConflict)
  {
    hide Inv, At, Remembers, Evolves, Blank, KeysUnique;
    HistoryIsKept(start, events, i, j);
    NextAt(start, events, j);
    var early, late := At(start, events, i), At(start, events, j);
    SessionIsRemembered(early, late, work);
    StoredAnswerPersists(early.sessions[work].answers, late.sessions[work].answers, stored.request);
  }

  lemma SessionIsRemembered(db: DB, later: DB, id: Id)
    requires Remembers(db, later) && id in db.sessions
    ensures id in later.sessions && SameIdentity(db.sessions[id], later.sessions[id])
  {
    hide AttemptsRemembered, RunsEvolve, ClaimsEvolve, RequestsEvolve;
  }

  lemma RequestIsRemembered(db: DB, later: DB, k: (Id, string))
    requires Remembers(db, later) && k in db.updateRequests && k.0 in db.attempts
    ensures k in later.updateRequests && later.updateRequests[k] == db.updateRequests[k]
    ensures k.0 in later.attempts && SameLease(db.attempts[k.0], later.attempts[k.0])
  {
    hide SessionsRemembered, RunsEvolve, ClaimsEvolve;
  }

  /** A report that was accepted is returned again, unchanged, even after the lease and the Work have ended. */
  lemma ReportIsKept(start: DB, events: seq<Event>, i: nat, j: nat, update: WorkUpdate)
    requires Inv(start) && i <= j < |events| && events[j].call.Reporting? && UpdateInputError(events[j].call.input).None?
    requires var db, call := At(start, events, i), events[j].call;
      && (call.attempt, call.input.request) in db.updateRequests && call.attempt in db.attempts
      && ValidToken(call.token) && db.attempts[call.attempt].token == call.token
      && db.attempts[call.attempt].session in db.sessions
      && var q := db.updateRequests[(call.attempt, call.input.request)];
         && q == RequestOf(call.input, q.update) && q.update < |db.sessions[db.attempts[call.attempt].session].updates|
         && db.sessions[db.attempts[call.attempt].session].updates[q.update] == update
    ensures Linked(At(start, events, j)) && KeysUnique(At(start, events, j))
    ensures Apply(At(start, events, j), events[j].now, events[j].call) == Done(At(start, events, j), Reported(update))
  {
    hide Inv, At, Remembers, Evolves, UpdateInputError, ValidToken, KeysUnique;
    HistoryIsKept(start, events, i, j);
    NextAt(start, events, j);
    var early, late, call := At(start, events, i), At(start, events, j), events[j].call;
    RequestIsRemembered(early, late, (call.attempt, call.input.request));
    SessionIsRemembered(early, late, early.attempts[call.attempt].session);
  }

  // ---------------------------------------------------------------- replaced Work

  lemma ReplacedStays(db: DB, next: DB, now: int, call: Call, id: Id)
    requires Inv(db) && Evolves(db, next, now, call) && id in db.sessions && Replaced(db, id)
    ensures id in next.sessions && next.sessions[id] == db.sessions[id] && Replaced(next, id)
  {
    ReplacedIsTerminal(db, id);
    hide Inv, AttemptsEvolve, RunsEvolve, ClaimsEvolve, RequestsEvolve, ResumeStep;
    assert SessionStep(db, call, id, db.sessions[id], next.sessions[id]);
    var child :| child in db.sessions && db.sessions[child].predecessor == Some(id);
    assert SessionStep(db, call, child, db.sessions[child], next.sessions[child]);
  }

  lemma ReplacedIsTerminal(db: DB, id: Id)
    requires Inv(db) && id in db.sessions && Replaced(db, id)
    ensures db.sessions[id].state.Terminal()
  {
    if !db.sessions[id].state.Terminal() { LiveIsNotReplaced(db, id); }
  }

  /** Work that something has taken over from is over and never changes again. */
  lemma {:induction false} ReplacedWorkIsFrozen(start: DB, events: seq<Event>, i: nat, j: nat, id: Id)
    requires Inv(start) && i <= j <= |events| && id in At(start, events, i).sessions && Replaced(At(start, events, i), id)
    ensures At(start, events, i).sessions[id].state.Terminal()
    ensures id in At(start, events, j).sessions && Replaced(At(start, events, j), id)
    ensures At(start, events, j).sessions[id] == At(start, events, i).sessions[id]
    decreases j
  {
    hide Inv, At, Evolves, Replaced;
    ReplacedIsTerminal(At(start, events, i), id);
    if i < j {
      ReplacedWorkIsFrozen(start, events, i, j - 1, id);
      NextAt(start, events, j - 1);
      ReplacedStays(At(start, events, j - 1), At(start, events, j), events[j - 1].now, events[j - 1].call, id);
    }
  }

  // ---------------------------------------------------------------- cancellation

  predicate Retries(call: Call, id: Id) { call.Retrying? && call.work == id }

  lemma CancelStays(db: DB, next: DB, now: int, call: Call, id: Id)
    requires Evolves(db, next, now, call) && id in db.sessions && db.sessions[id].cancel && !Retries(call, id)
    ensures id in next.sessions && next.sessions[id].cancel
  {
    hide AttemptsEvolve, RunsEvolve, ClaimsEvolve, RequestsEvolve, ResumeStep;
    assert SessionStep(db, call, id, db.sessions[id], next.sessions[id]);
  }

  lemma CancelledStates(db: DB, id: Id)
    requires Inv(db) && id in db.sessions && db.sessions[id].cancel
    ensures db.sessions[id].state.Owned() || db.sessions[id].state.WorkFailed? || db.sessions[id].state.WorkCancelled?
  {
    WorkHolds(db, id);
  }

  /** Work cancelled while an Attempt holds it keeps running or ends failed or cancelled, until it is retried:
      whatever the Worker reports, it can end neither ready, succeeded, unchanged nor waiting for input. */
  lemma {:induction false} CancellationSticks(start: DB, events: seq<Event>, i: nat, j: nat, id: Id)
    requires Inv(start) && i <= j <= |events| && id in At(start, events, i).sessions && At(start, events, i).sessions[id].cancel
    requires forall k :: i <= k < j ==> !Retries(events[k].call, id)
    ensures id in At(start, events, j).sessions && At(start, events, j).sessions[id].cancel
    ensures var s := At(start, events, j).sessions[id]; s.state.Owned() || s.state.WorkFailed? || s.state.WorkCancelled?
    decreases j
  {
    hide Inv, At, Evolves;
    if i < j {
      CancellationSticks(start, events, i, j - 1, id);
      NextAt(start, events, j - 1);
      CancelStays(At(start, events, j - 1), At(start, events, j), events[j - 1].now, events[j - 1].call, id);
    }
    CancelledStates(At(start, events, j), id);
  }

  // ---------------------------------------------------------------- the commit to resume from

  /** The event starts the runtime of the Attempt that holds the lease, from exactly this commit. */
  ghost predicate Resumes(db: DB, call: Call, id: Id, commit: Sha) {
    call.Starting? && call.runtimeStarted && call.from == commit && ActiveFor(db.attempts, call.attempt, id)
  }

  /** The event ends the lease of an Attempt whose outcome asked a question at another commit. */
  ghost predicate Supersedes(db: DB, next: DB, id: Id) {
    && id in db.sessions && id in next.sessions && db.sessions[id].state.Owned() && !next.sessions[id].state.Owned()
    && exists a :: AskedAt(db.attempts, id, db.sessions[id], next.sessions[id].pendingResume, a)
  }

  lemma ResumeMoves(db: DB, next: DB, now: int, call: Call, id: Id)
    requires Evolves(db, next, now, call) && id in db.sessions
    ensures id in next.sessions
    ensures next.sessions[id].pendingResume != db.sessions[id].pendingResume ==>
      Resumes(db, call, id, db.sessions[id].pendingResume) || Supersedes(db, next, id)
  {
    hide AttemptsEvolve, RunsEvolve, ClaimsEvolve, RequestsEvolve, SameIdentity;
    assert SessionStep(db, call, id, db.sessions[id], next.sessions[id]);
  }

  /** The event at `k` used the commit or put a newer one in its place. */
  ghost predicate Explains(start: DB, events: seq<Event>, k: nat, id: Id, commit: Sha)
    requires Inv(start) && k < |events|
  {
    Resumes(At(start, events, k), events[k].call, id, commit) || Supersedes(At(start, events, k), At(start, events, k + 1), id)
  }

  lemma CommitMoves(start: DB, events: seq<Event>, k: nat, id: Id)
    requires Inv(start) && k < |events| && id in At(start, events, k).sessions
    ensures id in At(start, events, k + 1).sessions
    ensures At(start, events, k + 1).sessions[id].pendingResume != At(start, events, k).sessions[id].pendingResume ==>
      Explains(start, events, k, id, At(start, events, k).sessions[id].pendingResume)
  {
    hide Inv, At, Evolves, Resumes, Supersedes, Step, Linked, KeysUnique;
    NextAt(start, events, k);
    ResumeMoves(At(start, events, k), At(start, events, k + 1), events[k].now, events[k].call, id);
  }

  /** A commit to resume from is never lost: once it is gone, some event of the run either started the lease
      holder's runtime from exactly that commit or ended a lease whose outcome asked at another one. */
  lemma {:induction false} ResumeCommitIsNeverLost(start: DB, events: seq<Event>, i: nat, j: nat, id: Id)
    requires Inv(start) && i <= j <= |events| && id in At(start, events, i).sessions
    ensures id in At(start, events, j).sessions
    ensures At(start, events, j).sessions[id].pendingResume != At(start, events, i).sessions[id].pendingResume ==>
      exists k :: i <= k < j && Explains(start, events, k, id, At(start, events, i).sessions[id].pendingResume)
    decreases j
  {
    hide Inv, At, Explains;
    if i < j {
      ResumeCommitIsNeverLost(start, events, i, j - 1, id);
      CommitMoves(start, events, j - 1, id);
    }
  }

  /** No Attempt enters running from any other commit while one is waiting to be resumed from. */
  lemma RunsOnlyFromTheCommit(db: DB, now: int, call: Call, attempt: Id)
    requires Inv(db) && Linked(db) && KeysUnique(db)
    requires attempt in Step(db, now, call).attempts && Step(db, now, call).attempts[attempt].state.AttemptRunning?
    requires attempt in db.attempts ==> !db.attempts[attempt].state.AttemptRunning?
    ensures call.Starting? && call.attempt == attempt && attempt in db.attempts
    ensures db.attempts[attempt].session in db.sessions
    ensures var commit := db.sessions[db.attempts[attempt].session].pendingResume; commit != "" ==> call.from == commit
  {
    hide Inv, KeysUnique, Evolves;
    StepEvolves(db, now, call);
    OnlyStartsRun(db, Step(db, now, call), now, call, attempt);
    LeaseHasWork(db, attempt);
  }

  lemma OnlyStartsRun(db: DB, next: DB, now: int, call: Call, attempt: Id)
    requires Evolves(db, next, now, call) && attempt in next.attempts && next.attempts[attempt].state.AttemptRunning?
    requires attempt in db.attempts ==> !db.attempts[attempt].state.AttemptRunning?
    ensures call.Starting? && call.attempt == attempt && attempt in db.attempts
  {
    hide SessionsEvolve, RunsEvolve, ClaimsEvolve, RequestsEvolve;
  }
}
