/** A Worker's registration: what it reports about its repositories, worktrees and disposed Attempts. */
module Registration {
  import opened Common
  import opened Tables
  import opened Transitions
  import opened Invariant
  import opened LeaseSteps
  import opened ClaimSteps

  const MAX_CAPACITY: int := 100
  const MAX_CACHED: int := 100
  const MAX_REPOSITORIES: int := 1000

  /** A retained worktree; older clients leave either identifier out. */
  datatype Worktree = Worktree(attempt: Option<Id>, repository: Option<Id>)

  /** `statics` maps each configured repository to the number of worktrees it says it retains. */
  datatype Report = Report(
    capacity: int, active: int, healthy: bool, currentProtocol: bool,
    acceptsManaged: bool, cached: set<Id>, statics: map<Id, nat>,
    worktrees: seq<Worktree>, disposed: seq<Id>)

  /** The repository of the first complete summary of an Attempt: later summaries of it are ignored. */
  function AttributedTo(worktrees: seq<Worktree>, attempt: Id): Option<Id> {
    if worktrees == [] then None
    else if worktrees[0].attempt == Some(attempt) && worktrees[0].repository.Some? then worktrees[0].repository
    else AttributedTo(worktrees[1..], attempt)
  }

  function Named(worktrees: seq<Worktree>): set<Id> {
    set w | w in worktrees && w.attempt.Some? :: w.attempt.value
  }

  /** The retained Attempts that count as evidence for a repository. */
  function Attributed(worktrees: seq<Worktree>, repository: Id): set<Id> {
    set a | a in Named(worktrees) && AttributedTo(worktrees, a) == Some(repository)
  }

  lemma {:induction false} LaterSummariesLose(worktrees: seq<Worktree>, w: Worktree, attempt: Id)
    ensures AttributedTo(worktrees + [w], attempt) ==
      if AttributedTo(worktrees, attempt).Some? then AttributedTo(worktrees, attempt)
      else if w.attempt == Some(attempt) && w.repository.Some? then w.repository else None
  {
    if worktrees == [] {
      assert worktrees + [w] == [w];
    } else {
      assert (worktrees + [w])[1..] == worktrees[1..] + [w];
      LaterSummariesLose(worktrees[1..], w, attempt);
    }
  }

  /** One pass over the reported worktrees: incomplete and repeated summaries are no evidence. */
  method Attribute(worktrees: seq<Worktree>) returns (seen: map<Id, Id>)
    ensures forall a :: a in seen <==> AttributedTo(worktrees, a).Some?
    ensures forall a <- seen :: AttributedTo(worktrees, a) == Some(seen[a])
  {
    seen := map[];
    for i := 0 to |worktrees|
      invariant forall a :: a in seen <==> AttributedTo(worktrees[..i], a).Some?
      invariant forall a <- seen :: AttributedTo(worktrees[..i], a) == Some(seen[a])
    {
      var w := worktrees[i];
      assert worktrees[..i + 1] == worktrees[..i] + [w];
      forall a: Id ensures AttributedTo(worktrees[..i + 1], a) ==
        if AttributedTo(worktrees[..i], a).Some? then AttributedTo(worktrees[..i], a)
        else if w.attempt == Some(a) && w.repository.Some? then w.repository else None
      {
        LaterSummariesLose(worktrees[..i], w, a);
      }
      if w.attempt.Some? && w.repository.Some? && w.attempt.value !in seen {
        seen := seen[w.attempt.value := w.repository.value];
      }
    }
    assert worktrees[..|worktrees|] == worktrees;
  }

  lemma {:induction false} AttributedIsNamed(worktrees: seq<Worktree>, attempt: Id)
    requires AttributedTo(worktrees, attempt).Some?
    ensures attempt in Named(worktrees)
  {
    if worktrees[0].attempt == Some(attempt) && worktrees[0].repository.Some? {
      assert worktrees[0] in worktrees;
    } else {
      AttributedIsNamed(worktrees[1..], attempt);
    }
  }

  function RepositoryOf(db: DB, attempt: Id): Id
    requires Linked(db) && attempt in db.attempts
  {
    db.sessions[db.attempts[attempt].session].repository
  }

  predicate LiveOn(db: DB, worker: Id, repository: Id)
    requires Linked(db)
  {
    exists id <- db.executions ::
      db.executions[id].worker == worker && db.sessions[id].repository == repository
      && (db.executions[id].state.ExecQueued? || db.executions[id].state.Active())
  }

  function Max(a: nat, b: nat): nat { if a < b then b else a }

  function ReportedMirror(db: DB, worker: Id, input: Report, repository: Id): Mirror
    requires Linked(db) && (repository in input.statics || (worker, repository) in db.mirrors)
  {
    var retained := |Attributed(input.worktrees, repository)|;
    if repository in input.statics then Mirror(Max(input.statics[repository], retained), true, false)
    else
      var was := db.mirrors[(worker, repository)];
      if was.dynamic then
        Mirror(retained,
               input.acceptsManaged && (repository in input.cached || 0 < retained || LiveOn(db, worker, repository)), true)
      else was.(advertised := false)
  }

  function ReportedMirrors(db: DB, worker: Id, input: Report): map<(Id, Id), Mirror>
    requires Linked(db)
  {
    map k | k in db.mirrors.Keys + (set r | r in input.statics :: (worker, r)) ::
      if k.0 == worker then ReportedMirror(db, worker, input, k.1) else db.mirrors[k]
  }

  /** Whether the report accounts for an Attempt, so that it no longer needs a place of its own. */
  predicate AccountedFor(db: DB, worker: Id, input: Report, attempt: Id)
    requires Linked(db) && attempt in db.attempts
  {
    || attempt in input.disposed
    || (db.attempts[attempt].worker == worker && !db.attempts[attempt].state.Active()
        && attempt in Attributed(input.worktrees, RepositoryOf(db, attempt))
        && (worker, RepositoryOf(db, attempt)) in ReportedMirrors(db, worker, input)
        && ReportedMirrors(db, worker, input)[(worker, RepositoryOf(db, attempt))].advertised)
  }

  function Acknowledged(db: DB, worker: Id, input: Report): map<Id, Attempt>
    requires Linked(db)
  {
    map a | a in db.attempts ::
      db.attempts[a].(acknowledged := db.attempts[a].acknowledged || AccountedFor(db, worker, input, a))
  }

  /** Accounting by the pass over the worktrees. */
  lemma SeenIsEvidence(db: DB, worker: Id, input: Report, seen: map<Id, Id>, a: Id)
    requires Linked(db) && a in db.attempts && (a in seen <==> AttributedTo(input.worktrees, a).Some?)
    requires a in seen ==> AttributedTo(input.worktrees, a) == Some(seen[a])
    ensures AccountedFor(db, worker, input, a) <==>
      || a in input.disposed
      || (db.attempts[a].worker == worker && !db.attempts[a].state.Active()
          && a in seen && seen[a] == RepositoryOf(db, a)
          && (worker, seen[a]) in ReportedMirrors(db, worker, input)
          && ReportedMirrors(db, worker, input)[(worker, seen[a])].advertised)
  {
    if a in seen { AttributedIsNamed(input.worktrees, a); }
    hide Linked, ReportedMirrors;
  }

  /** A configured repository nobody knew is recorded, but not as a managed one. */
  function WithStatics(repositories: map<Id, Repository>, statics: set<Id>): map<Id, Repository> {
    (map r | r in statics :: Repository(false, false)) + repositories
  }

  function Registered(db: DB, now: int, worker: Id, input: Report): DB
    requires Linked(db)
  {
    db.(workers := db.workers[worker := Worker(input.capacity, input.healthy, now, input.currentProtocol)],
        repositories := WithStatics(db.repositories, input.statics.Keys),
        mirrors := ReportedMirrors(db, worker, input),
        attempts := Acknowledged(db, worker, input))
  }

  /** A disposed Attempt belongs to another Worker. */
  predicate Foreign(db: DB, worker: Id, disposed: seq<Id>) {
    exists a <- disposed :: a in db.attempts && db.attempts[a].worker != worker
  }

  /** RegisterWorker for a Worker that reports each retained and disposed Attempt by name. */
  function RegisterWorker(db: DB, now: int, worker: Id, input: Report): Outcome
    requires Linked(db)
  {
    if !(1 <= input.capacity <= MAX_CAPACITY) || !(0 <= input.active <= input.capacity) || MAX_CACHED < |input.cached| then
      Refused(Invalid)
    else if input.statics.Keys - db.repositories.Keys != {} && MAX_REPOSITORIES < |db.repositories.Keys + input.statics.Keys| then
      Refused(RepositoryUnavailable)
    else if Foreign(db, worker, input.disposed) then Refused(Invalid)
    else Done(Registered(db, now, worker, input), Nothing)
  }

  // ---------------------------------------------------------------- the invariant

  lemma AcknowledgedWorks(db: DB, next: DB)
    requires WorksOk(db) && next.sessions == db.sessions && next.executions == db.executions
    requires next.attempts.Keys == db.attempts.Keys
    requires forall a <- db.attempts :: next.attempts[a] == db.attempts[a].(acknowledged := next.attempts[a].acknowledged)
    ensures WorksOk(next)
  {
    forall id | id in next.sessions ensures WorkOk(next, id) {
      assert WorkOk(db, id);
      assert forall a :: ActiveFor(next.attempts, a, id) <==> ActiveFor(db.attempts, a, id);
      hide SessionOk, ExecutionOk;
    }
  }

  lemma RegisteredFrame(db: DB, now: int, worker: Id, input: Report)
    requires Linked(db)
    ensures var next := Registered(db, now, worker, input);
      && next.runs == db.runs && next.sessions == db.sessions && next.executions == db.executions
      && next.claims == db.claims && next.updateRequests == db.updateRequests && next.rows == db.rows
      && next.attempts.Keys == db.attempts.Keys
      && forall a <- db.attempts :: next.attempts[a] == db.attempts[a].(acknowledged := next.attempts[a].acknowledged)
  {
  }

  /** Acknowledging places leaves everything the protocol decides on. */
  lemma AcknowledgedRequests(db: DB, next: DB)
    requires AttemptsLinked(db) && RequestsLinked(db) && ClaimsOk(db) && RequestsOk(db)
    requires next.sessions == db.sessions && next.executions == db.executions && SameAttempts(db.attempts, next.attempts)
    requires next.attempts.Keys == db.attempts.Keys && next.claims == db.claims && next.updateRequests == db.updateRequests
    ensures AttemptsLinked(next) && RequestsLinked(next) && ClaimsOk(next) && RequestsOk(next)
  {
    RequestsFollow(db, next);
    ClaimsFollow(db, next);
    assert forall a <- db.attempts :: SameLease(db.attempts[a], next.attempts[a]);
  }

  lemma RegisterWorkerKeeps(db: DB, now: int, worker: Id, input: Report)
    requires Inv(db) && Linked(db)
    ensures Inv(After(db, RegisterWorker(db, now, worker, input)))
  {
    hide RunOk, HasWork, Registered, WorksOk, RunsOk, ClaimsOk, RequestsOk, RequestsLinked, AttemptsLinked;
    var next := Registered(db, now, worker, input);
    RegisteredFrame(db, now, worker, input);
    AcknowledgedWorks(db, next);
    SameRunsKept(db, next);
    AcknowledgedRequests(db, next);
  }

  // ---------------------------------------------------------------- what a registration accounts for

  /** The places an Attempt held before the report and that the report does not dispose of. */
  function StillOwed(db: DB, worker: Id, input: Report, repository: Id): set<Id> {
    set a | a in Held(db, worker, repository) && a !in input.disposed
  }

  /** A repository still advertised counts every worktree attributed to it. */
  lemma EvidenceIsRetained(db: DB, worker: Id, input: Report, repository: Id)
    requires Linked(db) && (worker, repository) in ReportedMirrors(db, worker, input)
    requires ReportedMirrors(db, worker, input)[(worker, repository)].advertised
    ensures |Attributed(input.worktrees, repository)| <= ReportedMirrors(db, worker, input)[(worker, repository)].retained
  {
  }

  /** A place is lost only to evidence that the repository counts. */
  lemma LostPlaceIsEvidence(db: DB, now: int, worker: Id, input: Report, repository: Id, a: Id)
    requires Linked(db) && a in StillOwed(db, worker, input, repository)
    requires a !in Held(Registered(db, now, worker, input), worker, repository)
    ensures a in Attributed(input.worktrees, repository)
    ensures |Attributed(input.worktrees, repository)| <= Retained(Registered(db, now, worker, input).mirrors, worker, repository)
  {
    hide ReportedMirrors, Attributed;
    assert AccountedFor(db, worker, input, a);
    EvidenceIsRetained(db, worker, input, repository);
  }

  /** No Attempt loses its place without being counted among the retained worktrees or disposed of. */
  lemma RegistrationCovers(db: DB, now: int, worker: Id, input: Report, repository: Id)
    requires Linked(db) && RegisterWorker(db, now, worker, input).Done?
    ensures |StillOwed(db, worker, input, repository)|
      <= RetentionUse(After(db, RegisterWorker(db, now, worker, input)), worker, repository)
  {
    hide Linked, Attributed, StillOwed, Held, Registered, Retained;
    var next := Registered(db, now, worker, input);
    var owed, kept := StillOwed(db, worker, input, repository), Held(next, worker, repository);
    var evidence := Attributed(input.worktrees, repository);
    forall a | a in owed - kept ensures a in evidence && |evidence| <= Retained(next.mirrors, worker, repository) {
      LostPlaceIsEvidence(db, now, worker, input, repository, a);
    }
    if owed <= kept { SubsetIsNoLarger(owed, kept); } else { SubsetIsNoLarger(owed, kept + evidence); }
  }

  lemma OthersUnacknowledged(db: DB, worker: Id, input: Report, a: Id)
    requires Linked(db) && a in db.attempts && db.attempts[a].worker != worker
    requires forall x <- input.disposed :: x in db.attempts ==> db.attempts[x].worker == worker
    ensures !AccountedFor(db, worker, input, a)
  {
    hide Linked, ReportedMirrors, Attributed;
  }

  /** Nobody else's accounts move. */
  lemma RegistrationIsLocal(db: DB, now: int, worker: Id, input: Report, other: Id, repository: Id)
    requires Linked(db) && other != worker
    ensures RetentionUse(After(db, RegisterWorker(db, now, worker, input)), other, repository) == RetentionUse(db, other, repository)
  {
    hide Linked, AccountedFor, ReportedMirror;
    var o := RegisterWorker(db, now, worker, input);
    if o.Done? {
      forall a | a in db.attempts && db.attempts[a].worker == other ensures !AccountedFor(db, worker, input, a) {
        OthersUnacknowledged(db, worker, input, a);
      }
      assert Held(o.db, other, repository) == Held(db, other, repository);
    }
  }
}
