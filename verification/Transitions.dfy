/** What each transaction of the control plane does to the tables.

    A refused transaction is rolled back, so it has no tables of its own.  What the model does
    not contain reaches a transaction as an argument: the clock, new identifiers, the result of
    routing, the Worker's ready runtimes and whether the recovery prompt fits. */
module Transitions {
  import opened Common
  import opened Text
  import opened Tables
  import opened Scan

  datatype Refusal =
    | Invalid | TooLarge | NotFound | Unavailable
    | NotOwner | UpgradeRequired | ClaimConflict
    | ResumeCommitMismatch | InvalidTransition | PipelineIncomplete
    | AttemptNotRunning | CancellationRequested | StageNotPending | PredecessorIncomplete | StageNotRunning
    | UpdateConflict | UpdateNotFound | UpdateNotAllowed | UpdateNotActive | OutcomeReported | ProgressLimit
    | PromptTooLarge | AnswerConflict | AnswerNotAllowed | CheckpointMissing | QuestionMissing
    | CancelNotAllowed | RetryNotAllowed | WorkOwned | WorkReplaced | MatchingWorkActive
    | ConcurrencyFull | NoEligibleWorker | RepositoryUnavailable
    | KeyConflict | NoTargets | DuplicateTarget | DuplicateActive | RebuildRequired | NoPredecessor | NotTerminal

  datatype Reply =
    | Nothing | NoClaim | Claimed(attempt: Id) | Reported(update: WorkUpdate)
    | Answered(answer: WorkAnswer) | Admitted(run: Id) | Replayed(run: Id)

  datatype Outcome = Done(db: DB, reply: Reply) | Refused(why: Refusal)

  function After(db: DB, outcome: Outcome): DB {
    if outcome.Done? then outcome.db else db
  }

  // ---------------------------------------------------------------- writing one Session

  /** One Session's rows rewritten together: its own, its execution's, one Attempt's, its Run's end. */
  function Commit(db: DB, attempt: Option<(Id, Attempt)>, id: Id, s: Session, e: Option<Execution>,
                  terminalAt: Option<int>): DB
    requires s.run in db.runs
  {
    db.(attempts := if attempt.Some? then db.attempts[attempt.value.0 := attempt.value.1] else db.attempts,
        executions := if e.Some? then db.executions[id := e.value] else db.executions,
        sessions := db.sessions[id := s],
        runs := db.runs[s.run := db.runs[s.run].(terminalAt := terminalAt)])
  }

  predicate OtherLive(db: DB, run: Id, work: Id) {
    exists id <- db.sessions :: id != work && db.sessions[id].run == run && !db.sessions[id].state.Terminal()
  }

  /** updateRunLifecycle, once the Session has become `s`. */
  function Settled(db: DB, id: Id, s: Session, now: int): Option<int> {
    if !s.state.Terminal() || OtherLive(db, s.run, id) then None else Some(now)
  }

  function EndOf(db: DB, s: Session): Option<int>
    requires s.run in db.runs
  {
    db.runs[s.run].terminalAt
  }

  lemma CommitKeepsLinks(db: DB, attempt: Option<(Id, Attempt)>, id: Id, s: Session, e: Option<Execution>, t: Option<int>)
    requires Linked(db) && id in db.sessions && SameIdentity(db.sessions[id], s)
    requires attempt.Some? ==> attempt.value.1.session == id && (e.Some? || id in db.executions)
    requires attempt.Some? && attempt.value.0 in db.attempts ==> db.attempts[attempt.value.0].session == id
    ensures Linked(Commit(db, attempt, id, s, e, t))
  {
    var next := Commit(db, attempt, id, s, e, t);
    LinksFollow(db, next);
    assert AttemptsLinked(next);
    assert RequestsLinked(next);
  }

  // ---------------------------------------------------------------- leases

  predicate Leased(db: DB, attempt: Id, token: Token, now: int)
    requires attempt in db.attempts
  {
    var a := db.attempts[attempt];
    a.token == token && a.state.Active() && now < a.expiry
  }

  /** loadLease followed by verifyActiveLease. */
  function LeaseError(db: DB, attempt: Id, token: Token, now: int): (error: Option<Refusal>)
    ensures error.None? <==> attempt in db.attempts && ValidToken(token) && Leased(db, attempt, token, now)
  {
    if attempt !in db.attempts then Some(NotFound)
    else if !ValidToken(token) then Some(Invalid)
    else if !Leased(db, attempt, token, now) then Some(NotOwner)
    else None
  }

  function Started(s: Session, now: int): Session {
    s.(state := WorkRunning, owner := OwnerWorkerAttempt,
       startedAt := if s.startedAt.Some? then s.startedAt else Some(now))
  }

  function StartAttempt(db: DB, now: int, attempt: Id, token: Token, from: Sha, runtimeStarted: bool): Outcome
    requires Linked(db)
  {
    if from != "" && !ValidCommitSha(from) then Refused(Invalid) else
    var error := LeaseError(db, attempt, token, now);
    if error.Some? then Refused(error.value) else
    var a := db.attempts[attempt];
    var s := db.sessions[a.session];
    if s.pendingResume != "" && from != s.pendingResume then Refused(ResumeCommitMismatch)
    else if a.state.AttemptPreparing? then
      if runtimeStarted then Refused(InvalidTransition)
      else
        Done(Commit(db, Some((attempt, a.(state := AttemptRunning))), a.session,
                    Started(s, now),
                    Some(db.executions[a.session].(state := ExecRunning)), EndOf(db, s)),
             Nothing)
    else if runtimeStarted && s.pendingResume == from then
      Done(Commit(db, None, a.session, s.(pendingResume := ""), None, EndOf(db, s)), Nothing)
    else Done(db, Nothing)
  }

  function Heartbeat(db: DB, now: int, attempt: Id, token: Token): Outcome
    requires Linked(db)
  {
    var error := LeaseError(db, attempt, token, now);
    if error.Some? then Refused(error.value) else
    var a := db.attempts[attempt];
    var s := db.sessions[a.session];
    Done(Commit(db, Some((attempt, a.(expiry := now + LEASE_MILLIS))), a.session, s, None, EndOf(db, s)), Nothing)
  }

  // ---------------------------------------------------------------- stages

  predicate AllSucceeded(stages: seq<Stage>) {
    forall i :: 0 <= i < |stages| ==> stages[i].state.StageSucceeded?
  }

  function StartStage(db: DB, now: int, attempt: Id, token: Token, position: int): Outcome
    requires Linked(db)
  {
    var error := LeaseError(db, attempt, token, now);
    if error.Some? then Refused(error.value) else StageStarting(db, attempt, position)
  }

  function StageStarting(db: DB, attempt: Id, position: int): Outcome
    requires Linked(db) && attempt in db.attempts
  {
    var a := db.attempts[attempt];
    var e := db.executions[a.session];
    var s := db.sessions[a.session];
    if !a.state.AttemptRunning? || !e.state.ExecRunning? then Refused(AttemptNotRunning)
    else if e.cancel then Refused(CancellationRequested)
    else if !(0 <= position < |s.stages|) then Refused(NotFound)
    else if !s.stages[position].state.Open() then Refused(StageNotPending)
    else if !AllSucceeded(s.stages[..position]) then Refused(PredecessorIncomplete)
    else
      var stage := s.stages[position].(state := StageRunning);
      Done(Commit(db, None, a.session, s.(stages := s.stages[position := stage]), None, EndOf(db, s)), Nothing)
  }

  /** The stages after one of them ends: anything but success cancels the pending rest. */
  function EndStage(stages: seq<Stage>, position: nat, ended: Stage): seq<Stage>
    requires position < |stages|
  {
    seq(|stages|, i requires 0 <= i < |stages| =>
      if i == position then ended
      else if position < i && stages[i].state.StagePending? && !ended.state.StageSucceeded? then
        stages[i].(state := StageCancelled)
      else stages[i])
  }

  function CompleteStage(db: DB, now: int, attempt: Id, token: Token, position: int, ended: Stage): Outcome
    requires Linked(db)
  {
    if ended.state.Open() then Refused(Invalid)
    else if MAX_RESULT_BYTES < Bytes(ended.result) || MAX_ERROR_BYTES < Bytes(ended.error) then Refused(Invalid)
    else
    var error := LeaseError(db, attempt, token, now);
    if error.Some? then Refused(error.value) else StageEnding(db, attempt, position, ended)
  }

  function StageEnding(db: DB, attempt: Id, position: int, ended: Stage): Outcome
    requires Linked(db) && attempt in db.attempts
  {
    var a := db.attempts[attempt];
    var s := db.sessions[a.session];
    if !a.state.AttemptRunning? || !db.executions[a.session].state.ExecRunning? then Refused(AttemptNotRunning)
    else if !(0 <= position < |s.stages|) then Refused(NotFound)
    else if !s.stages[position].state.StageRunning? then
      if s.stages[position] == ended then Done(db, Nothing) else Refused(StageNotRunning)
    else
      Done(Commit(db, None, a.session, s.(stages := EndStage(s.stages, position, ended)), None, EndOf(db, s)), Nothing)
  }

  // ---------------------------------------------------------------- agent updates

  datatype UpdateInput = UpdateInput(
    request: string, status: UpdateStatus, message: string, pullRequest: PullRequest,
    checkpoint: Sha, published: bool, replayOnly: bool)

  function UpdateInputError(input: UpdateInput): (error: Option<Refusal>) {
    if Blank(input.message) then Some(Invalid)
    else if (if input.status.UpdateRunning? then MAX_PROGRESS_BYTES else MAX_OUTCOME_BYTES) < Bytes(input.message) then
      Some(TooLarge)
    else if 2048 < Bytes(input.pullRequest.url) || 255 < Bytes(input.pullRequest.branch)
         || 64 < Bytes(input.pullRequest.sha) || 64 < Bytes(input.checkpoint) then Some(Invalid)
    else if input.status.UpdateReady? && (input.pullRequest.url == "" || input.checkpoint != "" ||
              (!input.replayOnly && (input.pullRequest.branch == "" || !ValidCommitSha(input.pullRequest.sha)))) then
      Some(Invalid)
    else if !input.status.UpdateReady? && input.pullRequest != NO_PULL_REQUEST then Some(Invalid)
    else if input.status.UpdateNeedsInput? && !input.replayOnly && !ValidCommitSha(input.checkpoint) then Some(Invalid)
    else if !input.status.UpdateNeedsInput? && (input.checkpoint != "" || input.published) then Some(Invalid)
    else if input.replayOnly && (input.pullRequest.branch != "" || input.pullRequest.sha != "" ||
              input.checkpoint != "" || input.published) then Some(Invalid)
    else None
  }

  predicate SameUpdate(u: WorkUpdate, input: UpdateInput) {
    u.status == input.status && u.message == input.message && u.pullRequest == input.pullRequest &&
    u.checkpoint == input.checkpoint && u.published == input.published
  }

  function RequestOf(input: UpdateInput, update: nat): UpdateRequest {
    UpdateRequest(input.status, input.message, input.pullRequest.url, update)
  }

  /** The position of an update in a history that contains it. */
  function PositionOf(updates: seq<WorkUpdate>, update: WorkUpdate): (position: nat)
    requires update in updates
    ensures position < |updates| && updates[position] == update
  {
    if updates[0] == update then 0 else 1 + PositionOf(updates[1..], update)
  }

  /** A report that no earlier request of the Attempt made. */
  function FreshUpdate(db: DB, now: int, attempt: Id, token: Token, input: UpdateInput, fits: bool): Outcome
    requires Linked(db) && attempt in db.attempts
  {
    var a := db.attempts[attempt];
    var s := db.sessions[a.session];
    var e := db.executions[a.session];
    if !Leased(db, attempt, token, now) then Refused(NotOwner)
    else if !db.runs[s.run].contract.AgentUpdate? then Refused(UpdateNotAllowed)
    else if !a.state.AttemptRunning? || !e.state.ExecRunning? || e.cancel then Refused(UpdateNotActive)
    else if !s.state.WorkRunning? || !s.owner.OwnerWorkerAttempt? then Refused(UpdateNotActive)
    else
    var outcome := OutcomeOf(s.updates, attempt);
    if outcome.Some? then
      if input.status.UpdateRunning? || !SameUpdate(outcome.value, input) then Refused(OutcomeReported)
      else
        var position := PositionOf(s.updates, outcome.value);
        Done(db.(updateRequests := db.updateRequests[(attempt, input.request) := RequestOf(input, position)]),
             Reported(outcome.value))
    else if input.status.UpdateRunning? && MAX_PROGRESS <= ProgressCount(s.updates, attempt) then
      Refused(ProgressLimit)
    else if input.status.UpdateNeedsInput? && !fits then Refused(PromptTooLarge)
    else
      var update := WorkUpdate(attempt, input.request, input.status, input.message, input.pullRequest,
                               input.checkpoint, input.published, now);
      Done(Commit(db, None, a.session, s.(updates := s.updates + [update]), None, EndOf(db, s)).(
               updateRequests := db.updateRequests[(attempt, input.request) := RequestOf(input, |s.updates|)]),
           Reported(update))
  }

  /** AppendAgentUpdate.  `fits` says whether the recovery prompt with this question fits. */
  function AppendUpdate(db: DB, now: int, attempt: Id, token: Token, input: UpdateInput, fits: bool): Outcome
    requires Linked(db)
  {
    var malformed := UpdateInputError(input);
    if !ValidToken(token) then Refused(Invalid)
    else if malformed.Some? then Refused(malformed.value)
    else if attempt !in db.attempts then Refused(NotFound)
    else if db.attempts[attempt].token != token then Refused(NotOwner)
    else if (attempt, input.request) in db.updateRequests then
      var stored := db.updateRequests[(attempt, input.request)];
      if stored == RequestOf(input, stored.update) then
        Done(db, Reported(db.sessions[db.attempts[attempt].session].updates[stored.update]))
      else Refused(UpdateConflict)
    else if input.replayOnly then Refused(UpdateNotFound)
    else FreshUpdate(db, now, attempt, token, input, fits)
  }

  // ---------------------------------------------------------------- completion

  /** Open stages of an Attempt that did not succeed: the running one ends, the pending ones are cancelled. */
  function CloseStages(stages: seq<Stage>, running: StageState, error: string): seq<Stage> {
    seq(|stages|, i requires 0 <= i < |stages| =>
      match stages[i].state
      case StageRunning => stages[i].(state := running, error := error)
      case StagePending => stages[i].(state := StageCancelled)
      case _ => stages[i])
  }

  function CancelStages(stages: seq<Stage>): seq<Stage> {
    seq(|stages|, i requires 0 <= i < |stages| =>
      if stages[i].state.Open() then stages[i].(state := StageCancelled) else stages[i])
  }

  const MISSING_OUTCOME := "Agent exited without reporting an outcome."
  const LEASE_EXPIRED := "lease expired"

  /** How the Attempt and its Work end, whatever the Worker claimed. */
  datatype Verdict = Verdict(state: AttemptState, work: WorkState, result: string, error: string, missing: bool)

  function WorkOfStatus(status: UpdateStatus): WorkState
    requires !status.UpdateRunning?
  {
    match status
    case UpdateReady => WorkReady
    case UpdateNeedsInput => WorkNeedsInput
    case UpdateFailed => WorkFailed
    case UpdateNoChange => WorkNoChange
  }

  function Judge(cancel: bool, contract: Contract, outcome: Option<WorkUpdate>,
                 claimed: AttemptState, result: string, error: string): (v: Verdict)
    requires claimed.AttemptSucceeded? || claimed.AttemptFailed? || claimed.AttemptCancelled?
    requires outcome.Some? ==> !outcome.value.status.UpdateRunning?
    ensures v.state.AttemptSucceeded? || v.state.AttemptFailed? || v.state.AttemptCancelled?
    ensures cancel ==> v.state.AttemptCancelled? && v.work.WorkCancelled?
    ensures v.work.WorkNeedsInput? <==>
      !cancel && contract.AgentUpdate? && claimed.AttemptSucceeded?
      && outcome.Some? && outcome.value.status.UpdateNeedsInput?
    ensures v.work.WorkReady? ==> outcome.Some? && outcome.value.status.UpdateReady?
    ensures !v.state.AttemptSucceeded? ==> v.work.WorkFailed? || v.work.WorkCancelled?
  {
    if cancel then Verdict(AttemptCancelled, WorkCancelled, "", "", false)
    else if contract.AgentUpdate? && claimed.AttemptSucceeded? then
      if outcome.None? then Verdict(AttemptFailed, WorkFailed, "", MISSING_OUTCOME, true)
      else Verdict(AttemptSucceeded, WorkOfStatus(outcome.value.status), "", "", false)
    else
      var work := match claimed
        case AttemptSucceeded => WorkSucceeded
        case AttemptFailed => WorkFailed
        case _ => WorkCancelled;
      Verdict(claimed, work, result, error, false)
  }

  /** The stages of the pipeline once the verdict is in. */
  function JudgedStages(stages: seq<Stage>, v: Verdict): seq<Stage>
    requires |stages| > 0
  {
    var last := |stages| - 1;
    var marked :=
      if v.missing && stages[last].state.StageSucceeded? then
        stages[last := stages[last].(state := StageFailed, error := v.error)]
      else stages;
    if v.state.AttemptSucceeded? then
      if |marked| == 1 && marked[0].state.Open() then [Stage(StageSucceeded, v.result, "")] else marked
    else CloseStages(marked, if v.state.AttemptCancelled? then StageCancelled else StageFailed, v.error)
  }

  function Coalesce(value: string, fallback: string): string { if value == "" then fallback else value }

  /** The Session after its Attempt ends with this verdict. */
  function JudgedSession(s: Session, now: int, v: Verdict, outcome: Option<WorkUpdate>): Session
    requires |s.stages| > 0
  {
    var closed := s.(stages := JudgedStages(s.stages, v), owner := OwnerNone, state := v.work);
    if v.work.WorkNeedsInput? && outcome.Some? then
      closed.(terminalAt := None, question := outcome.value.message, answer := "",
              checkpoint := outcome.value.checkpoint, pendingResume := outcome.value.checkpoint,
              published := outcome.value.published)
    else
      var ended := closed.(terminalAt := Some(now));
      if outcome.None? then ended
      else if v.state.AttemptSucceeded? then
        ended.(pullRequest := PullRequest(
          Coalesce(outcome.value.pullRequest.url, s.pullRequest.url),
          Coalesce(outcome.value.pullRequest.branch, s.pullRequest.branch),
          Coalesce(outcome.value.pullRequest.sha, s.pullRequest.sha)))
      else WithEvidence(ended, outcome)
  }

  /** What survives of an outcome whose Attempt did not succeed. */
  function WithEvidence(s: Session, outcome: Option<WorkUpdate>): Session {
    if outcome.Some? && outcome.value.status.UpdateNeedsInput? then
      s.(checkpoint := outcome.value.checkpoint, pendingResume := outcome.value.checkpoint,
         published := outcome.value.published)
    else if outcome.Some? && outcome.value.status.UpdateReady? then s.(pullRequest := outcome.value.pullRequest)
    else s
  }

  function ExecutionOf(state: AttemptState): ExecutionState {
    match state
    case AttemptSucceeded => ExecSucceeded
    case AttemptCancelled => ExecCancelled
    case AttemptPreparing => ExecPreparing
    case AttemptRunning => ExecRunning
    case AttemptFailed => ExecFailed
    case AttemptLost => ExecFailed
  }

  function CompleteAttempt(db: DB, now: int, attempt: Id, token: Token,
                           claimed: AttemptState, result: string, error: string): Outcome
    requires Linked(db)
  {
    if !claimed.AttemptSucceeded? && !claimed.AttemptFailed? && !claimed.AttemptCancelled? then Refused(Invalid)
    else if MAX_RESULT_BYTES < Bytes(result) || MAX_ERROR_BYTES < Bytes(error) then Refused(TooLarge)
    else if !ValidToken(token) then Refused(Invalid)
    else if attempt !in db.attempts then Refused(NotFound)
    else
    var a := db.attempts[attempt];
    var s := db.sessions[a.session];
    if !a.state.Active() then
      if a.state.AttemptLost? || a.token != token then Refused(NotOwner) else Done(db, Nothing)
    else if !Leased(db, attempt, token, now) then Refused(NotOwner)
    else
    var e := db.executions[a.session];
    var contract := db.runs[s.run].contract;
    var outcome := if contract.AgentUpdate? then OutcomeOf(s.updates, attempt) else None;
    Ending(db, now, attempt, Judge(e.cancel, contract, outcome, claimed, result, error), outcome)
  }

  /** The end of an Attempt whose lease is live, once its verdict is known. */
  function Ending(db: DB, now: int, attempt: Id, v: Verdict, outcome: Option<WorkUpdate>): Outcome
    requires Linked(db) && attempt in db.attempts
  {
    var a := db.attempts[attempt];
    var s := db.sessions[a.session];
    var e := db.executions[a.session];
    if v.state.AttemptSucceeded? && !a.state.AttemptRunning? then Refused(InvalidTransition)
    else if s.stages == [] then Refused(Unavailable)
    else if v.state.AttemptSucceeded? && !AllSucceeded(JudgedStages(s.stages, v)) then Refused(PipelineIncomplete)
    else
      var ended := JudgedSession(s, now, v, outcome);
      Done(Commit(db, Some((attempt, a.(state := v.state, result := v.result, error := v.error))), a.session,
                  ended, Some(e.(state := ExecutionOf(v.state))), Settled(db, a.session, ended, now)), Nothing)
  }

  // ---------------------------------------------------------------- sweeping

  predicate Expired(db: DB, attempt: Id, now: int) {
    attempt in db.attempts && db.attempts[attempt].state.Active() && db.attempts[attempt].expiry <= now
  }

  function ExpiredSession(s: Session, now: int, outcome: Option<WorkUpdate>): Session {
    WithEvidence(s.(state := WorkFailed, owner := OwnerNone, terminalAt := Some(now),
                    stages := CloseStages(s.stages, StageFailed, LEASE_EXPIRED)), outcome)
  }

  /** One lapsed lease: its Attempt is lost and its Work fails. */
  function Expire(db: DB, now: int, attempt: Id): DB
    requires Linked(db)
  {
    if !Expired(db, attempt, now) then db else
    var a := db.attempts[attempt];
    var s := db.sessions[a.session];
    var ended := ExpiredSession(s, now, OutcomeOf(s.updates, attempt));
    Commit(db, Some((attempt, a.(state := AttemptLost, error := LEASE_EXPIRED))), a.session, ended,
           Some(db.executions[a.session].(state := ExecFailed)), Settled(db, a.session, ended, now))
  }

  lemma ExpireKeepsLinks(db: DB, now: int, attempt: Id)
    requires Linked(db)
    ensures Linked(Expire(db, now, attempt))
  {
    if Expired(db, attempt, now) {
      var a := db.attempts[attempt];
      var s := db.sessions[a.session];
      var ended := ExpiredSession(s, now, OutcomeOf(s.updates, attempt));
      CommitKeepsLinks(db, Some((attempt, a.(state := AttemptLost, error := LEASE_EXPIRED))), a.session, ended,
                       Some(db.executions[a.session].(state := ExecFailed)), Settled(db, a.session, ended, now));
    }
  }

  function ExpireAll(db: DB, now: int, lapsed: seq<Id>): (swept: DB)
    requires Linked(db)
    ensures Linked(swept)
  {
    if lapsed == [] then db else
    var before := ExpireAll(db, now, lapsed[..|lapsed| - 1]);
    ExpireKeepsLinks(before, now, lapsed[|lapsed| - 1]);
    Expire(before, now, lapsed[|lapsed| - 1])
  }

  /** Claims that found nothing are forgotten after five minutes; bound claims never are. */
  function ForgetEmptyClaims(db: DB, now: int): DB {
    db.(claims := map k | k in db.claims
      && !(db.claims[k].attempt.None? && db.claims[k].createdAt < now - EMPTY_CLAIM_MILLIS) :: db.claims[k])
  }

  /** `lapsed` lists the expired Attempts, in whatever order the query returns them. */
  predicate ListsLapsed(db: DB, now: int, lapsed: seq<Id>) {
    (forall a <- lapsed :: Expired(db, a, now)) && (forall a <- db.attempts :: Expired(db, a, now) ==> a in lapsed)
  }

  function Sweep(db: DB, now: int, lapsed: seq<Id>): Outcome
    requires Linked(db)
  {
    if ListsLapsed(db, now, lapsed) then Done(ExpireAll(ForgetEmptyClaims(db, now), now, lapsed), Nothing)
    else Refused(Unavailable)
  }

  // ---------------------------------------------------------------- claiming

  /** What routing answered while a claim looked for work.  `acquired` are the (Worker, repository)
      pairs routing recorded on the way. */
  datatype Routing = Routing(blocked: set<Id>, queued: set<Id>, capable: set<Id>, acquired: set<(Id, Id)>)

  function Acquire(db: DB, pairs: set<(Id, Id)>): DB {
    db.(mirrors := map k | k in db.mirrors.Keys + pairs ::
      if k !in pairs then db.mirrors[k]
      else if k in db.mirrors && db.mirrors[k].advertised then db.mirrors[k]
      else Mirror(Retained(db.mirrors, k.0, k.1), true, true))
  }

  predicate RepositoryOpen(db: DB, repository: Id) {
    repository in db.repositories &&
    (!db.repositories[repository].managed || db.repositories[repository].enabled)
  }

  /** queueExistingExecution: the Session's execution, queued for `worker`. */
  function Queued(db: DB, work: Id, worker: Id, now: int): Execution {
    if work in db.executions then db.executions[work].(worker := worker, state := ExecQueued, cancel := false)
    else Execution(worker, ExecQueued, false, now)
  }

  function SessionKey(db: DB, id: Id): Key
    requires Linked(db) && id in db.sessions
  {
    var s := db.sessions[id];
    Key(|Used(db, s.run)|, db.runs[s.run].admittedAt, s.admittedAt, id)
  }

  function BlockedKeys(db: DB): set<Key>
    requires Linked(db)
  {
    set id | id in db.sessions
      && db.sessions[id].state.WorkBlocked?
      && RepositoryOpen(db, db.sessions[id].repository)
      && SlotFree(db, db.sessions[id].run) :: SessionKey(db, id)
  }

  function Routed(rows: set<Key>, ids: set<Id>): set<Key> { set k | k in rows && k.id in ids }

  function Materialised(s: Session, worker: Id): Session {
    s.(state := WorkQueued, worker := Some(worker), owner := OwnerNone)
  }

  /** The first blocked Session the Worker can run becomes queued for it. */
  function Materialise(db: DB, now: int, worker: Id, routed: set<Id>): DB
    requires Linked(db)
  {
    var found := Routed(BlockedKeys(db), routed);
    if found == {} then db else
    var id := First(found).id;
    var s := db.sessions[id];
    Commit(db, None, id, Materialised(s, worker),
           Some(Queued(db, id, worker, now)), EndOf(db, s))
  }

  function QueuedElsewhere(db: DB, worker: Id): set<Key> {
    set id | id in db.sessions && db.sessions[id].state.WorkQueued?
      && id in db.executions && db.executions[id].state.ExecQueued? && db.executions[id].worker != worker
      :: Key(0, 0, db.sessions[id].admittedAt, id)
  }

  /** The first queued Session that only the claiming Worker can still run moves to it. */
  function Reroute(db: DB, worker: Id, routed: set<Id>): DB
    requires Linked(db)
  {
    var found := Routed(QueuedElsewhere(db, worker), routed);
    if found == {} then db else
    var id := First(found).id;
    var s := db.sessions[id];
    Commit(db, None, id, s.(worker := Some(worker)), Some(db.executions[id].(worker := worker)), EndOf(db, s))
  }

  function ExecutionKey(db: DB, id: Id): Key
    requires Linked(db) && id in db.executions
  {
    var s := db.sessions[id];
    Key(|Used(db, s.run)|, db.runs[s.run].admittedAt, db.executions[id].createdAt, id)
  }

  /** The queued executions the Worker may take now. */
  function ClaimableKeys(db: DB, worker: Id, capable: set<Id>): set<Key>
    requires Linked(db)
  {
    set id | id in db.executions
      && db.executions[id].worker == worker
      && db.executions[id].state.ExecQueued?
      && id in capable
      && |Owned(db, db.sessions[id].run)| < db.runs[db.sessions[id].run].limit
      && (worker, db.sessions[id].repository) in db.mirrors
      && db.mirrors[(worker, db.sessions[id].repository)].advertised
      && RepositoryOpen(db, db.sessions[id].repository)
      && RetentionUse(db, worker, db.sessions[id].repository) < MAX_RETAINED
      :: ExecutionKey(db, id)
  }

  function EmptyClaim(db: DB, now: int, worker: Id, request: string, token: Token): Outcome {
    Done(db.(claims := db.claims[(worker, request) := ClaimRequest(token, None, now)]), NoClaim)
  }

  function Taken(s: Session, worker: Id): Session {
    s.(state := WorkPreparing, worker := Some(worker), owner := OwnerWorkerAttempt)
  }

  function Assign(db: DB, now: int, worker: Id, request: string, token: Token, work: Id, attempt: Id): DB
    requires Linked(db) && work in db.executions
  {
    var s := db.sessions[work];
    Commit(db, Some((attempt, Attempt(work, worker, AttemptPreparing, token, now + LEASE_MILLIS, false, "", ""))), work,
           Taken(s, worker),
           Some(db.executions[work].(state := ExecPreparing, cancel := false)), EndOf(db, s)).(
      claims := db.claims[(worker, request) := ClaimRequest(token, Some(attempt), now)])
  }

  lemma MaterialiseKeepsLinks(db: DB, now: int, worker: Id, routed: set<Id>)
    requires Linked(db)
    ensures Linked(Materialise(db, now, worker, routed))
  {
    var found := Routed(BlockedKeys(db), routed);
    if found != {} {
      var id := First(found).id;
      var s := db.sessions[id];
      CommitKeepsLinks(db, None, id, Materialised(s, worker),
                       Some(Queued(db, id, worker, now)), EndOf(db, s));
    }
  }

  lemma RerouteKeepsLinks(db: DB, worker: Id, routed: set<Id>)
    requires Linked(db)
    ensures Linked(Reroute(db, worker, routed))
  {
    var found := Routed(QueuedElsewhere(db, worker), routed);
    if found != {} {
      var id := First(found).id;
      var s := db.sessions[id];
      CommitKeepsLinks(db, None, id, s.(worker := Some(worker)), Some(db.executions[id].(worker := worker)), EndOf(db, s));
    }
  }

  /** The tables when the claim comes to choose: one Session materialised, one rerouted. */
  function Prepared(db: DB, now: int, worker: Id, routing: Routing): (prepared: DB)
    requires Linked(db)
    ensures Linked(prepared)
  {
    MaterialiseKeepsLinks(db, now, worker, routing.blocked);
    var materialised := Materialise(db, now, worker, routing.blocked);
    RerouteKeepsLinks(materialised, worker, routing.queued);
    Acquire(Reroute(materialised, worker, routing.queued), routing.acquired)
  }

  /** The claim's choice among the Work made ready for it. */
  function ChooseWork(db: DB, now: int, worker: Id, request: string, token: Token, attempt: Id, capable: set<Id>): Outcome
    requires Linked(db)
  {
    var keys := ClaimableKeys(db, worker, capable);
    if keys == {} then EmptyClaim(db, now, worker, request, token)
    else if attempt in db.attempts then Refused(Unavailable)
    else Done(Assign(db, now, worker, request, token, First(keys).id, attempt), Claimed(attempt))
  }

  function TakeWork(db: DB, now: int, worker: Id, request: string, token: Token, attempt: Id, routing: Routing): Outcome
    requires Linked(db) && worker in db.workers
  {
    var w := db.workers[worker];
    if !w.healthy || ONLINE_MILLIS < now - w.lastHeartbeat || w.capacity <= |ActiveOf(db, worker)| then
      EmptyClaim(db, now, worker, request, token)
    else ChooseWork(Prepared(db, now, worker, routing), now, worker, request, token, attempt, routing.capable)
  }

  function Claim(db: DB, now: int, worker: Id, request: string, token: Token, attempt: Id, routing: Routing): Outcome
    requires Linked(db)
  {
    if Blank(request) || 200 < Bytes(request) || !ValidToken(token) then Refused(Invalid)
    else if worker !in db.workers then Refused(NotFound)
    else if !db.workers[worker].currentProtocol then Refused(UpgradeRequired)
    else if (worker, request) in db.claims then
      var stored := db.claims[(worker, request)];
      if stored.token != token then Refused(ClaimConflict)
      else if stored.attempt.None? then
        if now - stored.createdAt <= EMPTY_CLAIM_MILLIS then Done(db, NoClaim)
        else TakeWork(db.(claims := db.claims - {(worker, request)}), now, worker, request, token, attempt, routing)
      else if Leased(db, stored.attempt.value, token, now) then Done(db, Claimed(stored.attempt.value))
      else Refused(NotOwner)
    else TakeWork(db, now, worker, request, token, attempt, routing)
  }

  // ---------------------------------------------------------------- cancelling

  function CancelledSession(s: Session, now: int): Session {
    if s.state.WorkBlocked? || s.state.WorkQueued? || s.state.WorkNeedsInput? then
      s.(state := WorkCancelled, terminalAt := Some(now), owner := OwnerNone, stages := CancelStages(s.stages))
    else if s.state.Owned() then s.(cancel := true)
    else s
  }

  function CancelledExecution(e: Execution): Execution {
    if e.state.ExecQueued? then e.(state := ExecCancelled)
    else if e.state.Active() then e.(cancel := true)
    else e
  }

  /** Unowned Work ends at once, owned Work is asked to stop. */
  function CancelRows(db: DB, now: int, work: set<Id>): DB {
    db.(
      sessions := map id | id in db.sessions ::
        if id in work then CancelledSession(db.sessions[id], now) else db.sessions[id],
      executions := map id | id in db.executions ::
        if id in work then CancelledExecution(db.executions[id]) else db.executions[id])
  }

  /** Cancels some Sessions of one Run. */
  function CancelAll(db: DB, now: int, run: Id, work: set<Id>): DB
    requires run in db.runs
  {
    var cancelled := CancelRows(db, now, work);
    var end := if HasLiveWork(cancelled, run) then None else Some(now);
    cancelled.(runs := db.runs[run := db.runs[run].(terminalAt := end)])
  }

  function SessionsOf(db: DB, run: Id): set<Id> { set id | id in db.sessions && db.sessions[id].run == run }

  function CancelRun(db: DB, now: int, run: Id): Outcome {
    if run !in db.runs then Refused(NotFound)
    else Done(CancelAll(db, now, run, SessionsOf(db, run)), Nothing)
  }

  function CancelSession(db: DB, now: int, run: Id, work: Id): Outcome
    requires Linked(db)
  {
    if work !in db.sessions || db.sessions[work].run != run then Refused(NotFound)
    else if db.sessions[work].state.Terminal() then Refused(CancelNotAllowed)
    else Done(CancelAll(db, now, run, {work}), Nothing)
  }

  // ---------------------------------------------------------------- retrying, answering, replacing

  /** The oldest ancestor of a Session. */
  function Root(db: DB, id: Id): (root: Id)
    requires Linked(db) && id in db.sessions
    ensures root in db.sessions && db.sessions[root].predecessor.None?
    decreases db.sessions[id].row
  {
    if db.sessions[id].predecessor.None? then id
    else
      var p := db.sessions[id].predecessor.value;
      assert Succeeds(db.sessions, id, p);
      Root(db, p)
  }

  /** Live Work, other than `work`, of the same work item or of the same repository lineage. */
  predicate MatchingLive(db: DB, work: Id)
    requires Linked(db) && work in db.sessions
  {
    var s := db.sessions[work];
    exists id <- db.sessions ::
      && id != work && db.sessions[id].repository == s.repository
      && (if s.source.WorkItem? then db.sessions[id].source == s.source else Root(db, id) == Root(db, work))
      && !db.sessions[id].state.Terminal()
  }

  /** validateWorkRetryGuards. */
  function RetryGuard(db: DB, work: Id): Option<Refusal>
    requires Linked(db) && work in db.sessions
  {
    if Replaced(db, work) then Some(WorkReplaced)
    else if MatchingLive(db, work) then Some(MatchingWorkActive)
    else None
  }

  function ResetStages(stages: seq<Stage>): seq<Stage> { seq(|stages|, _ => Stage(StagePending, "", "")) }

  function RetrySession(db: DB, now: int, run: Id, work: Id, route: Option<Id>, acquired: set<(Id, Id)>): Outcome
    requires Linked(db)
  {
    if work !in db.sessions || db.sessions[work].run != run then Refused(NotFound) else
    var s := db.sessions[work];
    if !s.state.WorkFailed? && !s.state.WorkCancelled? then Refused(RetryNotAllowed)
    else if !s.owner.OwnerNone? then Refused(WorkOwned)
    else
    var guard := RetryGuard(db, work);
    if guard.Some? then Refused(guard.value)
    else if !SlotFree(db, run) then Refused(ConcurrencyFull)
    else if route.None? then Refused(NoEligibleWorker)
    else Done(Requeued(db, now, work, route, acquired), Nothing)
  }

  function Retried(s: Session, worker: Id): Session {
    s.(state := WorkQueued, worker := Some(worker), cancel := false, owner := OwnerNone,
       mayRepeat := s.startedAt.Some? || s.mayRepeat, startedAt := None, terminalAt := None,
       stages := ResetStages(s.stages))
  }

  /** Ended Work queued afresh: its pipeline starts over. */
  function Requeued(db: DB, now: int, work: Id, route: Option<Id>, acquired: set<(Id, Id)>): DB
    requires Linked(db) && work in db.sessions && route.Some?
  {
    var s := db.sessions[work];
    Commit(Acquire(db, acquired), None, work, Retried(s, route.value),
           Some(Queued(db, work, route.value, now)), None)
  }

  function StoredAnswer(answers: seq<WorkAnswer>, request: string): (stored: Option<WorkAnswer>)
    ensures stored.Some? ==> stored.value in answers && stored.value.request == request
    ensures stored.None? ==> forall a <- answers :: a.request != request
  {
    if answers == [] then None
    else if answers[0].request == request then Some(answers[0])
    else StoredAnswer(answers[1..], request)
  }

  /** `fits` says whether the recovery prompt with this answer fits; `route` is asked only for a free slot. */
  function AnswerWork(db: DB, now: int, work: Id, request: string, message: string, fits: bool,
                      route: Option<Id>, acquired: set<(Id, Id)>): Outcome
    requires Linked(db)
  {
    if Blank(message) then Refused(Invalid)
    else if MAX_ANSWER_BYTES < Bytes(message) then Refused(TooLarge)
    else if work !in db.sessions then Refused(NotFound)
    else
    var s := db.sessions[work];
    var stored := StoredAnswer(s.answers, request);
    if stored.Some? then
      if stored.value.message == message then Done(db, Answered(stored.value)) else Refused(AnswerConflict)
    else Resuming(db, now, work, request, message, fits, route, acquired)
  }

  /** An answer that no earlier request gave. */
  function Resuming(db: DB, now: int, work: Id, request: string, message: string, fits: bool,
                    route: Option<Id>, acquired: set<(Id, Id)>): Outcome
    requires Linked(db) && work in db.sessions
  {
    var s := db.sessions[work];
    if !s.state.WorkNeedsInput? || !s.owner.OwnerNone? then Refused(AnswerNotAllowed)
    else if !ValidCommitSha(s.pendingResume) then Refused(CheckpointMissing)
    else
    var question := LastQuestion(s.updates);
    if question.None? then Refused(QuestionMissing)
    else if !fits then Refused(PromptTooLarge)
    else if exists a <- s.answers :: a.question == question.value then Refused(Unavailable)
    else if s.stages == [] then Refused(Unavailable)
    else
      var answer := WorkAnswer(request, question.value, message, now);
      Done(Continued(db, now, work, answer, route, acquired), Answered(answer))
  }

  function Resumed(s: Session, worker: Option<Id>, answer: WorkAnswer): Session
    requires s.stages != []
  {
    s.(state := if worker.Some? then WorkQueued else WorkBlocked, worker := worker, cancel := false,
       terminalAt := None, owner := OwnerNone, answer := answer.message, answers := s.answers + [answer],
       stages := s.stages[|s.stages| - 1 := Stage(StagePending, "", "")])
  }

  /** Answered Work: its last stage runs again, now if a slot is free. */
  function Continued(db: DB, now: int, work: Id, answer: WorkAnswer, route: Option<Id>, acquired: set<(Id, Id)>): DB
    requires Linked(db) && work in db.sessions && db.sessions[work].stages != []
  {
    var s := db.sessions[work];
    var worker := if SlotFree(db, s.run) then route else None;
    var routed := if SlotFree(db, s.run) then Acquire(db, acquired) else db;
    Commit(routed, None, work, Resumed(s, worker, answer),
           if worker.Some? then Some(Queued(db, work, worker.value, now)) else None, None)
  }

  // ---------------------------------------------------------------- admission

  datatype NewRun = NewRun(id: Id, requestKey: string, digest: string, procedure: Id, limit: int,
                           contract: Contract, ready: bool)

  /** `fits` is resolveSessionStages: whether the target's rendered prompts fit, the reserve for recovery included;
      `route` is what routing would answer for the target, asked only while a slot is left. */
  datatype Target = Target(id: Id, repository: Id, source: Source, stages: nat, fits: bool, route: Option<Id>)

  datatype Flavour = TaskRun | BuildRun(rebuild: bool) | ProcedureRun(rebuild: bool)

  predicate KeyTaken(db: DB, key: string) { exists r <- db.runs :: db.runs[r].requestKey == key }

  function RunOfKey(db: DB, key: string): (run: Id)
    requires KeyTaken(db, key)
    requires forall x, y :: x in db.runs && y in db.runs && db.runs[x].requestKey == db.runs[y].requestKey ==> x == y
    ensures run in db.runs && db.runs[run].requestKey == key
  {
    var r :| r in db.runs && db.runs[r].requestKey == key;
    r
  }

  predicate KeysUnique(db: DB) {
    forall x, y :: x in db.runs && y in db.runs && db.runs[x].requestKey == db.runs[y].requestKey ==> x == y
  }

  function FreshSession(run: Id, t: Target, predecessor: Option<Id>, row: nat, now: int, worker: Option<Id>): Session {
    Session(run, t.repository, t.source, predecessor, row, now,
            if worker.Some? then WorkQueued else WorkBlocked, OwnerNone, false, worker,
            None, None, false, seq(t.stages, _ => Stage(StagePending, "", "")),
            "", "", "", "", false, NO_PULL_REQUEST, [], [])
  }

  function InsertTarget(db: DB, run: Id, t: Target, predecessor: Option<Id>, now: int, worker: Option<Id>): DB {
    var inserted := db.(
      sessions := db.sessions[t.id := FreshSession(run, t, predecessor, db.rows, now, worker)], rows := db.rows + 1);
    if worker.Some? then
      inserted.(executions := db.executions[t.id := Execution(worker.value, ExecQueued, false, now)])
    else inserted
  }

  /** The Work that a target of this kind would succeed, among Work that has ended or not. */
  predicate Matches(db: DB, flavour: Flavour, procedure: Id, t: Target, id: Id)
    requires Linked(db)
  {
    id in db.sessions && db.sessions[id].repository == t.repository &&
    match flavour
    case TaskRun => false
    case BuildRun(_) => db.sessions[id].source == t.source
    case ProcedureRun(_) =>
      db.sessions[id].source.WholeRepository? && db.runs[db.sessions[id].run].procedure == procedure
  }

  function TerminalTails(db: DB, flavour: Flavour, procedure: Id, t: Target): set<Id>
    requires Linked(db)
  {
    set id | id in db.sessions && Matches(db, flavour, procedure, t, id)
      && db.sessions[id].state.Terminal() && !Replaced(db, id)
  }

  predicate LiveMatch(db: DB, flavour: Flavour, procedure: Id, t: Target)
    requires Linked(db)
  {
    exists id <- db.sessions :: Matches(db, flavour, procedure, t, id) && !db.sessions[id].state.Terminal()
  }

  /** The newest of some Sessions: latest admission first, then the greatest identifier. */
  function Newest(db: DB, ids: set<Id>): (id: Id)
    requires ids != {} && forall x <- ids :: x in db.sessions
    ensures id in ids
    ensures forall x <- ids :: x != id ==>
      db.sessions[x].admittedAt < db.sessions[id].admittedAt || (db.sessions[x].admittedAt == db.sessions[id].admittedAt && x < id)
  {
    var keys := set x | x in ids :: Key(0, -db.sessions[x].admittedAt, -x, x);
    assert forall x <- ids :: Key(0, -db.sessions[x].admittedAt, -x, x) in keys;
    First(keys).id
  }

  datatype Choice = Choose(predecessor: Option<Id>) | Reject(why: Refusal)

  /** selectBuildPredecessors and selectProcedurePredecessors, for one target. */
  function Predecessor(db: DB, flavour: Flavour, procedure: Id, t: Target): Choice
    requires Linked(db)
  {
    if flavour.TaskRun? || flavour == ProcedureRun(false) then Choose(None)
    else if LiveMatch(db, flavour, procedure, t) then Reject(DuplicateActive)
    else
      var tails := TerminalTails(db, flavour, procedure, t);
      if tails == {} then if flavour.rebuild then Reject(NoPredecessor) else Choose(None)
      else if !flavour.rebuild then Reject(RebuildRequired)
      else Choose(Some(Newest(db, tails)))
  }

  /** Every target may be admitted, on its own or after a predecessor. */
  predicate Chosen(db: DB, flavour: Flavour, procedure: Id, targets: seq<Target>)
    requires Linked(db)
  {
    forall i :: 0 <= i < |targets| ==> Predecessor(db, flavour, procedure, targets[i]).Choose?
  }

  /** What the targets of an admission must satisfy before anything is inserted. */
  function TargetsError(db: DB, flavour: Flavour, r: NewRun, targets: seq<Target>): (error: Option<Refusal>)
    requires Linked(db)
    ensures error.None? ==> Chosen(db, flavour, r.procedure, targets)
  {
    if targets == [] then Some(NoTargets)
    else if exists t <- targets :: t.stages == 0 || t.source.WorkItem? != flavour.BuildRun? then Some(Invalid)
    else if exists t <- targets :: !RepositoryOpen(db, t.repository)
              || (!flavour.TaskRun? && !db.repositories[t.repository].managed) then Some(RepositoryUnavailable)
    else if exists i, j :: 0 <= i < j < |targets| &&
              targets[i].repository == targets[j].repository && targets[i].source == targets[j].source then
      Some(DuplicateTarget)
    else if exists t <- targets :: Predecessor(db, flavour, r.procedure, t).Reject? then
      FirstRejection(db, flavour, r.procedure, targets)
    else if exists t <- targets :: !t.fits then Some(PromptTooLarge)
    else if r.id in db.runs || (exists t <- targets :: t.id in db.sessions)
         || (exists i, j :: 0 <= i < j < |targets| && targets[i].id == targets[j].id) then Some(Unavailable)
    else None
  }

  function FirstRejection(db: DB, flavour: Flavour, procedure: Id, targets: seq<Target>): (error: Option<Refusal>)
    requires Linked(db)
    requires exists t <- targets :: Predecessor(db, flavour, procedure, t).Reject?
    ensures error.Some?
  {
    match Predecessor(db, flavour, procedure, targets[0])
    case Reject(why) => Some(why)
    case Choose(_) => FirstRejection(db, flavour, procedure, targets[1..])
  }

  /** The tables once the first `n` targets are in, and how many of them took a slot. */
  function AdmitTargets(db: DB, origin: DB, flavour: Flavour, r: NewRun, targets: seq<Target>, now: int, n: nat): (DB, nat)
    requires Linked(origin) && n <= |targets|
    requires Chosen(origin, flavour, r.procedure, targets)
  {
    if n == 0 then (db, 0)
    else
      var (before, used) := AdmitTargets(db, origin, flavour, r, targets, now, n - 1);
      var t := targets[n - 1];
      var worker := if r.ready && used < r.limit then t.route else None;
      (InsertTarget(before, r.id, t, Predecessor(origin, flavour, r.procedure, t).predecessor, now, worker),
       if worker.Some? then used + 1 else used)
  }

  function WithRun(db: DB, r: NewRun, now: int): DB {
    db.(runs := db.runs[r.id := Run(r.requestKey, r.digest, r.procedure, r.limit, r.contract, now, None)])
  }

  /** admitTask, admitBuild and AdmitProcedureRun.  `digest` fingerprints the inputs of the request. */
  function Admit(db: DB, now: int, flavour: Flavour, r: NewRun, targets: seq<Target>, acquired: set<(Id, Id)>): Outcome
    requires Linked(db) && KeysUnique(db)
  {
    if KeyTaken(db, r.requestKey) then
      var run := RunOfKey(db, r.requestKey);
      if db.runs[run].digest == r.digest then Done(db, Replayed(run)) else Refused(KeyConflict)
    else if r.limit < 1 then Refused(Invalid)
    else
      var error := TargetsError(db, flavour, r, targets);
      if error.Some? then Refused(error.value)
      else
        Done(AdmitTargets(Acquire(WithRun(db, r, now), acquired), db, flavour, r, targets, now, |targets|).0,
             Admitted(r.id))
  }

  /** ReplaceWork.  `eligible` is validateReplacementEligibility, `fits` resolveSessionStages. */
  function ReplaceWork(db: DB, now: int, requestKey: string, digest: string, work: Id, run: Id, newWork: Id,
                       eligible: bool, fits: bool, route: Option<Id>, acquired: set<(Id, Id)>): Outcome
    requires Linked(db) && KeysUnique(db)
  {
    if KeyTaken(db, requestKey) then
      var stored := RunOfKey(db, requestKey);
      if db.runs[stored].digest == digest then Done(db, Replayed(stored)) else Refused(KeyConflict)
    else if work !in db.sessions then Refused(NotFound)
    else
      var s := db.sessions[work];
      var guard := RetryGuard(db, work);
      if !s.state.Terminal() then Refused(NotTerminal)
      else if guard.Some? then Refused(guard.value)
      else if !eligible then Refused(RepositoryUnavailable)
      else if !fits then Refused(PromptTooLarge)
      else if run in db.runs || newWork in db.sessions then Refused(Unavailable)
      else
        var origin := db.runs[s.run];
        var r := NewRun(run, requestKey, digest, origin.procedure, origin.limit, origin.contract, true);
        Done(InsertTarget(Acquire(WithRun(db, r, now), acquired), run,
                          Target(newWork, s.repository, s.source, |s.stages|, fits, route), Some(work), now, route),
             Admitted(run))
  }

  // ---------------------------------------------------------------- repositories

  function QueuedIn(db: DB, repository: Id): set<Id> {
    set id | id in db.sessions && db.sessions[id].repository == repository && db.sessions[id].state.WorkQueued?
  }

  /** The queued Work of a repository is taken off its Workers and waits again. */
  function Unqueued(db: DB, repository: Id): DB {
    var hit := QueuedIn(db, repository);
    db.(executions := map id | id in db.executions && !(id in hit && db.executions[id].state.ExecQueued?) :: db.executions[id],
        sessions := map id | id in db.sessions ::
          if id in hit then db.sessions[id].(state := WorkBlocked, worker := None, owner := OwnerNone) else db.sessions[id])
  }

  predicate Attempted(db: DB, work: set<Id>) {
    exists a <- db.attempts :: db.attempts[a].session in work
  }

  /** SetManagedRepositoryEnabled.  Deleting an execution that has Attempts breaks a foreign key. */
  function SetRepositoryEnabled(db: DB, repository: Id, enabled: bool): Outcome {
    if repository !in db.repositories then Refused(NotFound)
    else
      var marked := db.repositories[repository := Repository(true, enabled)];
      if enabled || !db.repositories[repository].enabled then Done(db.(repositories := marked), Nothing)
      else if Attempted(db, QueuedIn(db, repository)) then Refused(Unavailable)
      else Done(Unqueued(db, repository).(repositories := marked), Nothing)
  }
}
