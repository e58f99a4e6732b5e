/** Runs of the control plane: any calls in any order, each a transaction of its own. */
module Calls {
  import opened Common
  import opened Tables
  import opened Transitions
  import opened Invariant
  import opened LeaseSteps
  import opened ClaimSteps
  import opened WorkSteps
  import opened AdmissionSteps
  import opened Registration

  datatype Call =
    | Claiming(worker: Id, request: string, token: Token, attempt: Id, routing: Routing)
    | Starting(attempt: Id, token: Token, from: Sha, runtimeStarted: bool)
    | Beating(attempt: Id, token: Token)
    | StartingStage(attempt: Id, token: Token, position: int)
    | CompletingStage(attempt: Id, token: Token, position: int, ended: Stage)
    | Reporting(attempt: Id, token: Token, input: UpdateInput, fits: bool)
    | Completing(attempt: Id, token: Token, claimed: AttemptState, result: string, error: string)
    | Sweeping(lapsed: seq<Id>)
    | CancellingRun(run: Id)
    | CancellingSession(run: Id, work: Id)
    | Retrying(run: Id, work: Id, route: Option<Id>, acquired: set<(Id, Id)>)
    | Answering(work: Id, request: string, message: string, fits: bool, route: Option<Id>, acquired: set<(Id, Id)>)
    | Admitting(flavour: Flavour, r: NewRun, targets: seq<Target>, acquired: set<(Id, Id)>)
    | Replacing(requestKey: string, digest: string, work: Id, run: Id, newWork: Id, eligible: bool, fits: bool,
                route: Option<Id>, acquired: set<(Id, Id)>)
    | Enabling(repository: Id, enabled: bool)
    | Registering(worker: Id, report: Report)

  function Apply(db: DB, now: int, call: Call): Outcome
    requires Linked(db) && KeysUnique(db)
  {
    match call
    case Claiming(worker, request, token, attempt, routing) => Claim(db, now, worker, request, token, attempt, routing)
    case Starting(attempt, token, from, runtimeStarted) => StartAttempt(db, now, attempt, token, from, runtimeStarted)
    case Beating(attempt, token) => Heartbeat(db, now, attempt, token)
    case StartingStage(attempt, token, position) => StartStage(db, now, attempt, token, position)
    case CompletingStage(attempt, token, position, ended) => CompleteStage(db, now, attempt, token, position, ended)
    case Reporting(attempt, token, input, fits) => AppendUpdate(db, now, attempt, token, input, fits)
    case Completing(attempt, token, claimed, result, error) => CompleteAttempt(db, now, attempt, token, claimed, result, error)
    case Sweeping(lapsed) => Sweep(db, now, lapsed)
    case CancellingRun(run) => CancelRun(db, now, run)
    case CancellingSession(run, work) => CancelSession(db, now, run, work)
    case Retrying(run, work, route, acquired) => RetrySession(db, now, run, work, route, acquired)
    case Answering(work, request, message, fits, route, acquired) =>
      AnswerWork(db, now, work, request, message, fits, route, acquired)
    case Admitting(flavour, r, targets, acquired) => Admit(db, now, flavour, r, targets, acquired)
    case Replacing(requestKey, digest, work, run, newWork, eligible, fits, route, acquired) =>
      ReplaceWork(db, now, requestKey, digest, work, run, newWork, eligible, fits, route, acquired)
    case Enabling(repository, enabled) => SetRepositoryEnabled(db, repository, enabled)
    case Registering(worker, report) => RegisterWorker(db, now, worker, report)
  }

  function Step(db: DB, now: int, call: Call): DB
    requires Linked(db) && KeysUnique(db)
  {
    After(db, Apply(db, now, call))
  }

  lemma StepKeeps(db: DB, now: int, call: Call)
    requires Inv(db) && Linked(db) && KeysUnique(db)
    ensures Inv(Step(db, now, call))
  {
    hide Inv, Linked, KeysUnique, Claim, StartAttempt, Heartbeat, StartStage, CompleteStage, AppendUpdate, CompleteAttempt, Sweep;
    hide CancelRun, CancelSession, RetrySession, AnswerWork, Admit, ReplaceWork, SetRepositoryEnabled, RegisterWorker;
    match call
    case Claiming(worker, request, token, attempt, routing) => ClaimKeeps(db, now, worker, request, token, attempt, routing);
    case Starting(attempt, token, from, runtimeStarted) => StartAttemptKeeps(db, now, attempt, token, from, runtimeStarted);
    case Beating(attempt, token) => HeartbeatKeeps(db, now, attempt, token);
    case StartingStage(attempt, token, position) => StartStageKeeps(db, now, attempt, token, position);
    case CompletingStage(attempt, token, position, ended) => CompleteStageKeeps(db, now, attempt, token, position, ended);
    case Reporting(attempt, token, input, fits) => AppendUpdateKeeps(db, now, attempt, token, input, fits);
    case Completing(attempt, token, claimed, result, error) => CompleteAttemptKeeps(db, now, attempt, token, claimed, result, error);
    case Sweeping(lapsed) => SweepKeeps(db, now, lapsed);
    case CancellingRun(run) => CancelRunKeeps(db, now, run);
    case CancellingSession(run, work) => CancelSessionKeeps(db, now, run, work);
    case Retrying(run, work, route, acquired) => RetrySessionKeeps(db, now, run, work, route, acquired);
    case Answering(work, request, message, fits, route, acquired) =>
      AnswerWorkKeeps(db, now, work, request, message, fits, route, acquired);
    case Admitting(flavour, r, targets, acquired) => AdmitKeeps(db, now, flavour, r, targets, acquired);
    case Replacing(requestKey, digest, work, run, newWork, eligible, fits, route, acquired) =>
      ReplaceWorkKeeps(db, now, requestKey, digest, work, run, newWork, eligible, fits, route, acquired);
    case Enabling(repository, enabled) => SetRepositoryEnabledKeeps(db, repository, enabled);
    case Registering(worker, report) => RegisterWorkerKeeps(db, now, worker, report);
  }

  // ---------------------------------------------------------------- runs

  datatype Event = Event(now: int, call: Call)

  /** A new control plane knows some repositories and nothing else. */
  predicate Initial(db: DB) { db == EMPTY.(repositories := db.repositories) }

  lemma InitialIsSound(db: DB)
    requires Initial(db)
    ensures Inv(db)
  {
  }

  lemma InvIsLinked(db: DB)
    requires Inv(db)
    ensures Linked(db) && KeysUnique(db)
  {
  }

  /** The tables after some calls. */
  ghost function Final(db: DB, events: seq<Event>): (final: DB)
    requires Inv(db)
    ensures Inv(final)
  {
    if events == [] then db else
    var before := Final(db, events[..|events| - 1]);
    InvIsLinked(before);
    var last := events[|events| - 1];
    StepKeeps(before, last.now, last.call);
    Step(before, last.now, last.call)
  }

  ghost predicate Reachable(db: DB) {
    exists start: DB, events: seq<Event> :: Initial(start) && Inv(start) && Final(start, events) == db
  }

  lemma ReachableIsSound(db: DB)
    requires Reachable(db)
    ensures Inv(db)
  {
  }
}
