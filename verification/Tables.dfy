/** The rows of the control-plane database and the questions the transactions ask of them.

    Identifiers are opaque and ordered, so they are natural numbers.  A lease token stands for
    its own digest.  `executions` is keyed by Session because the schema makes
    `executions.session_id` unique, so a Session's identifier also stands for its execution's. */
module Tables {
  import opened Common
  import opened Text

  type Id = nat
  type Token = string
  type Sha = string

  const LEASE_MILLIS: int := 30_000
  const EMPTY_CLAIM_MILLIS: int := 300_000
  const ONLINE_MILLIS: int := 30_000
  const MAX_RETAINED: int := 10
  const MAX_PROGRESS: int := 199
  const MAX_OUTCOME_BYTES: int := 8192
  const MAX_PROGRESS_BYTES: int := 2048
  const MAX_ANSWER_BYTES: int := 8192
  const MAX_RESULT_BYTES: int := 262144
  const MAX_ERROR_BYTES: int := 65536

  datatype WorkState =
    | WorkBlocked | WorkQueued | WorkPreparing | WorkRunning | WorkNeedsInput
    | WorkReady | WorkSucceeded | WorkFailed | WorkNoChange | WorkCancelled
  {
    predicate Terminal() {
      WorkReady? || WorkSucceeded? || WorkFailed? || WorkNoChange? || WorkCancelled?
    }

    /** The states that hold one of the Run's concurrency slots. */
    predicate Slot() { WorkQueued? || WorkPreparing? || WorkRunning? }

    predicate Owned() { WorkPreparing? || WorkRunning? }
  }

  datatype ExecutionState =
    | ExecQueued | ExecPreparing | ExecRunning | ExecSucceeded | ExecFailed | ExecCancelled
  {
    predicate Active() { ExecPreparing? || ExecRunning? }
  }

  datatype AttemptState =
    | AttemptPreparing | AttemptRunning
    | AttemptSucceeded | AttemptFailed | AttemptCancelled | AttemptLost
  {
    predicate Active() { AttemptPreparing? || AttemptRunning? }
  }

  datatype StageState = StagePending | StageRunning | StageSucceeded | StageFailed | StageCancelled
  {
    predicate Open() { StagePending? || StageRunning? }
  }

  datatype Stage = Stage(state: StageState, result: string, error: string)

  datatype Owner = OwnerNone | OwnerWorkerAttempt
  datatype Contract = ProcessExit | AgentUpdate
  datatype UpdateStatus = UpdateRunning | UpdateReady | UpdateNeedsInput | UpdateFailed | UpdateNoChange

  datatype PullRequest = PullRequest(url: string, branch: string, sha: Sha)

  const NO_PULL_REQUEST := PullRequest("", "", "")

  datatype WorkUpdate = WorkUpdate(
    attempt: Id, request: string, status: UpdateStatus, message: string,
    pullRequest: PullRequest, checkpoint: Sha, published: bool, acceptedAt: int)

  /** `question` is the position of the answered update in the Work's history. */
  datatype WorkAnswer = WorkAnswer(request: string, question: nat, message: string, acceptedAt: int)

  /** What a Session was admitted for: a work item of a repository, or the repository itself. */
  datatype Source = WorkItem(kind: string, key: string) | WholeRepository

  /** `updates[i]` is the update with sequence number `i + 1`; `row` is the insertion order. */
  datatype Session = Session(
    run: Id, repository: Id, source: Source, predecessor: Option<Id>, row: nat, admittedAt: int,
    state: WorkState, owner: Owner, cancel: bool, worker: Option<Id>,
    startedAt: Option<int>, terminalAt: Option<int>, mayRepeat: bool, stages: seq<Stage>,
    question: string, answer: string, checkpoint: Sha, pendingResume: Sha, published: bool,
    pullRequest: PullRequest, updates: seq<WorkUpdate>, answers: seq<WorkAnswer>)

  datatype Run = Run(
    requestKey: string, digest: string, procedure: Id, limit: int, contract: Contract,
    admittedAt: int, terminalAt: Option<int>)

  datatype Execution = Execution(worker: Id, state: ExecutionState, cancel: bool, createdAt: int)

  /** `session` names the Session whose unique execution the Attempt belongs to. */
  datatype Attempt = Attempt(
    session: Id, worker: Id, state: AttemptState, token: Token, expiry: int,
    acknowledged: bool, result: string, error: string)

  datatype ClaimRequest = ClaimRequest(token: Token, attempt: Option<Id>, createdAt: int)

  /** The agent-visible fields an update request is fingerprinted by, and the update it returned. */
  datatype UpdateRequest = UpdateRequest(status: UpdateStatus, message: string, url: string, update: nat)

  datatype Worker = Worker(capacity: int, healthy: bool, lastHeartbeat: int, currentProtocol: bool)
  datatype Repository = Repository(managed: bool, enabled: bool)

  /** One row of worker_repositories. */
  datatype Mirror = Mirror(retained: nat, advertised: bool, dynamic: bool)

  datatype DB = DB(
    runs: map<Id, Run>,
    sessions: map<Id, Session>,
    executions: map<Id, Execution>,
    attempts: map<Id, Attempt>,
    claims: map<(Id, string), ClaimRequest>,
    updateRequests: map<(Id, string), UpdateRequest>,
    workers: map<Id, Worker>,
    repositories: map<Id, Repository>,
    mirrors: map<(Id, Id), Mirror>,
    rows: nat)

  const EMPTY := DB(map[], map[], map[], map[], map[], map[], map[], map[], map[], 0)

  /** `id` was admitted to take over from `p`. */
  predicate Succeeds(sessions: map<Id, Session>, id: Id, p: Id) {
    id in sessions && sessions[id].predecessor == Some(p)
  }

  /** The columns of a Session that no transaction changes; a history only grows. */
  predicate SameIdentity(s: Session, t: Session) {
    && s.run == t.run && s.repository == t.repository && s.source == t.source
    && s.predecessor == t.predecessor && s.row == t.row && s.admittedAt == t.admittedAt
    && |s.stages| == |t.stages| && s.updates <= t.updates && s.answers <= t.answers
  }

  ghost predicate SameSessions(before: map<Id, Session>, after: map<Id, Session>) {
    before.Keys == after.Keys && forall id <- before :: SameIdentity(before[id], after[id])
  }

  lemma LinksFollow(db: DB, next: DB)
    requires SessionsLinked(db) && SameSessions(db.sessions, next.sessions)
    requires db.runs.Keys <= next.runs.Keys && db.rows <= next.rows
    ensures SessionsLinked(next)
  {
    forall id, p | Succeeds(next.sessions, id, p)
      ensures p in next.sessions && next.sessions[p].row < next.sessions[id].row
    {
      assert Succeeds(db.sessions, id, p);
    }
  }

  /** Every Session belongs to a Run and comes after its predecessor. */
  ghost predicate SessionsLinked(db: DB) {
    && (forall id <- db.sessions :: db.sessions[id].run in db.runs && db.sessions[id].row < db.rows)
    && (forall id, p {:trigger Succeeds(db.sessions, id, p)} :: Succeeds(db.sessions, id, p) ==>
          p in db.sessions && db.sessions[p].row < db.sessions[id].row)
  }

  ghost predicate AttemptsLinked(db: DB) {
    && (forall id <- db.executions :: id in db.sessions)
    && (forall a <- db.attempts :: db.attempts[a].session in db.executions)
  }

  ghost predicate RequestsLinked(db: DB) {
    && (forall k <- db.claims :: db.claims[k].attempt.Some? ==> db.claims[k].attempt.value in db.attempts)
    && (forall k <- db.updateRequests ::
          && k.0 in db.attempts
          && db.attempts[k.0].session in db.sessions
          && db.updateRequests[k].update < |db.sessions[db.attempts[k.0].session].updates|)
  }

  /** The foreign keys the schema enforces. */
  ghost predicate Linked(db: DB) {
    SessionsLinked(db) && AttemptsLinked(db) && RequestsLinked(db)
  }

  function HexDigit(c: char): bool { '0' <= c <= '9' || 'a' <= c <= 'f' }

  predicate ValidCommitSha(sha: Sha) {
    (|sha| == 40 || |sha| == 64) && forall i :: 0 <= i < |sha| ==> HexDigit(sha[i])
  }

  predicate ValidToken(token: Token) { 32 <= Bytes(token) <= 1024 }

  /** Unicode white space. */
  predicate IsSpace(c: char) {
    var code := c as int;
    9 <= code <= 13 || code == 0x20 || code == 0x85 || code == 0xa0 || code == 0x1680 ||
    0x2000 <= code <= 0x200a || code in {0x2028, 0x2029, 0x202f, 0x205f, 0x3000}
  }

  predicate Blank(text: string) { forall i :: 0 <= i < |text| ==> IsSpace(text[i]) }

  function TrimSpace(text: string): (trimmed: string)
    ensures trimmed == "" <==> Blank(text)
    ensures trimmed != "" ==> !IsSpace(trimmed[0]) && !IsSpace(trimmed[|trimmed| - 1])
  {
    if text == "" then ""
    else if IsSpace(text[0]) then TrimSpace(text[1..])
    else if IsSpace(text[|text| - 1]) then TrimSpace(text[..|text| - 1])
    else text
  }

  /** The update with which an Attempt ended its reporting, if it has one. */
  function OutcomeOf(updates: seq<WorkUpdate>, attempt: Id): (outcome: Option<WorkUpdate>)
    ensures outcome.Some? ==>
      outcome.value in updates && outcome.value.attempt == attempt && !outcome.value.status.UpdateRunning?
    ensures outcome.None? ==> forall u <- updates :: u.attempt == attempt ==> u.status.UpdateRunning?
  {
    if updates == [] then None
    else if updates[0].attempt == attempt && !updates[0].status.UpdateRunning? then Some(updates[0])
    else OutcomeOf(updates[1..], attempt)
  }

  /** The position of the newest question asked for a Work. */
  function LastQuestion(updates: seq<WorkUpdate>): (position: Option<nat>)
    ensures position.Some? ==>
      && position.value < |updates|
      && updates[position.value].status.UpdateNeedsInput?
      && forall i :: position.value < i < |updates| ==> !updates[i].status.UpdateNeedsInput?
    ensures position.None? ==> forall u <- updates :: !u.status.UpdateNeedsInput?
  {
    if updates == [] then None
    else if updates[|updates| - 1].status.UpdateNeedsInput? then Some(|updates| - 1)
    else LastQuestion(updates[..|updates| - 1])
  }

  function ProgressCount(updates: seq<WorkUpdate>, attempt: Id): nat {
    if updates == [] then 0
    else (if updates[0].attempt == attempt && updates[0].status.UpdateRunning? then 1 else 0)
         + ProgressCount(updates[1..], attempt)
  }

  /** The Sessions of a Run that hold a concurrency slot. */
  function Slots(db: DB, run: Id): set<Id> {
    set id | id in db.sessions && db.sessions[id].run == run && db.sessions[id].state.Slot()
  }

  /** The Sessions of a Run that an Attempt is preparing or running. */
  function Owned(db: DB, run: Id): set<Id> {
    set id | id in db.sessions && db.sessions[id].run == run && db.sessions[id].state.Owned()
  }

  predicate SlotFree(db: DB, run: Id)
    requires run in db.runs
  {
    |Slots(db, run)| < db.runs[run].limit
  }

  predicate HasLiveWork(db: DB, run: Id) {
    exists id <- db.sessions :: db.sessions[id].run == run && !db.sessions[id].state.Terminal()
  }

  predicate HasWork(db: DB, run: Id) {
    exists id <- db.sessions :: db.sessions[id].run == run
  }

  predicate Replaced(db: DB, work: Id) {
    exists id <- db.sessions :: db.sessions[id].predecessor == Some(work)
  }

  /** The Attempts that hold a retention place of `worker` for `repository`. */
  function Held(db: DB, worker: Id, repository: Id): set<Id> {
    set a | a in db.attempts
      && db.attempts[a].worker == worker
      && db.attempts[a].session in db.sessions
      && db.sessions[db.attempts[a].session].repository == repository
      && (db.attempts[a].state.Active() || !db.attempts[a].acknowledged)
  }

  function Retained(mirrors: map<(Id, Id), Mirror>, worker: Id, repository: Id): nat {
    if (worker, repository) in mirrors then mirrors[(worker, repository)].retained else 0
  }

  /** Retained worktrees plus active and unacknowledged terminal Attempts. */
  function RetentionUse(db: DB, worker: Id, repository: Id): nat {
    Retained(db.mirrors, worker, repository) + |Held(db, worker, repository)|
  }

  function ActiveOf(db: DB, worker: Id): set<Id> {
    set a | a in db.attempts && db.attempts[a].worker == worker && db.attempts[a].state.Active()
  }

  /** The number of Attempts a Run has used, which orders claims fairly between Runs. */
  function Used(db: DB, run: Id): set<Id> {
    set a | a in db.attempts
      && db.attempts[a].session in db.sessions && db.sessions[db.attempts[a].session].run == run
  }
}
