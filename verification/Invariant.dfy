/** What is true of the tables between transactions, and why rewriting one Session keeps it. */
module Invariant {
  import opened Common
  import opened Tables
  import opened Transitions

  // ---------------------------------------------------------------- stages

  /** Which stage states may come after a stage in state `x`. */
  predicate Follows(x: StageState, y: StageState) {
    match x
    case StageSucceeded => true
    case StagePending => y.StagePending?
    case StageRunning => y.StagePending?
    case StageFailed => y.StageCancelled?
    case StageCancelled => y.StageCancelled?
  }

  predicate Ordered(stages: seq<Stage>) {
    forall i, j :: 0 <= i < j < |stages| ==> Follows(stages[i].state, stages[j].state)
  }

  /** Nothing runs and the last stage is still to do. */
  predicate Waiting(stages: seq<Stage>) {
    && |stages| > 0 && stages[|stages| - 1].state.StagePending?
    && forall i :: 0 <= i < |stages| ==> stages[i].state.StageSucceeded? || stages[i].state.StagePending?
  }

  predicate Closed(stages: seq<Stage>) { forall i :: 0 <= i < |stages| ==> !stages[i].state.Open() }

  predicate StagesFit(state: WorkState, stages: seq<Stage>) {
    && |stages| > 0 && Ordered(stages)
    && match state
       case WorkRunning => true
       case WorkFailed => Closed(stages)
       case WorkCancelled => Closed(stages)
       case _ => if state.WorkBlocked? || state.WorkQueued? || state.WorkPreparing? then Waiting(stages)
                 else AllSucceeded(stages)
  }

  /** The shapes a pipeline can have: k succeeded stages, then one of four tails. */
  predicate Shaped(stages: seq<Stage>, k: nat) {
    && k <= |stages|
    && (forall i :: 0 <= i < k ==> stages[i].state.StageSucceeded?)
    && (k < |stages| ==>
          match stages[k].state
          case StageSucceeded => false
          case StagePending => forall i :: k < i < |stages| ==> stages[i].state.StagePending?
          case StageRunning => forall i :: k < i < |stages| ==> stages[i].state.StagePending?
          case StageFailed => forall i :: k < i < |stages| ==> stages[i].state.StageCancelled?
          case StageCancelled => forall i :: k < i < |stages| ==> stages[i].state.StageCancelled?)
  }

  /** The number of leading stages that succeeded. */
  function Leading(stages: seq<Stage>): (k: nat)
    ensures k <= |stages|
    ensures forall i :: 0 <= i < k ==> stages[i].state.StageSucceeded?
    ensures k < |stages| ==> !stages[k].state.StageSucceeded?
  {
    if stages == [] || !stages[0].state.StageSucceeded? then 0 else 1 + Leading(stages[1..])
  }

  lemma OrderedIsShaped(stages: seq<Stage>)
    ensures Ordered(stages) <==> Shaped(stages, Leading(stages))
  {
    var k := Leading(stages);
    if Shaped(stages, k) {
      forall i, j | 0 <= i < j < |stages| ensures Follows(stages[i].state, stages[j].state) {
        assert i < k || i == k || k < i;
      }
    }
  }

  // ---------------------------------------------------------------- one Session

  /** An Attempt reports progress, then at most one outcome; answers pair off with questions. */
  predicate HistoryOk(updates: seq<WorkUpdate>, answers: seq<WorkAnswer>) {
    && (forall u <- updates :: u.status.UpdateNeedsInput? ==> ValidCommitSha(u.checkpoint) && u.message != "")
    && (forall u <- updates :: u.status.UpdateReady? ==> u.pullRequest.url != "")
    && (forall i, j :: 0 <= i < j < |updates| && updates[i].attempt == updates[j].attempt ==>
          updates[i].status.UpdateRunning?)
    && (forall i :: 0 <= i < |answers| ==>
          answers[i].question < |updates| && updates[answers[i].question].status.UpdateNeedsInput?)
    && (forall i, j :: 0 <= i < j < |answers| ==>
          answers[i].question != answers[j].question && answers[i].request != answers[j].request)
  }

  predicate Asked(updates: seq<WorkUpdate>, checkpoint: Sha) {
    exists u <- updates :: u.status.UpdateNeedsInput? && u.checkpoint == checkpoint
  }

  predicate SessionOk(s: Session) {
    && StagesFit(s.state, s.stages)
    && HistoryOk(s.updates, s.answers)
    && (s.owner.OwnerWorkerAttempt? <==> s.state.Owned())
    && (s.terminalAt.Some? <==> s.state.Terminal())
    && (s.cancel ==> s.state.Owned() || s.state.WorkFailed? || s.state.WorkCancelled?)
    && (s.pendingResume != "" ==> Asked(s.updates, s.pendingResume))
    && (s.state.WorkNeedsInput? ==>
          && s.pendingResume != "" && s.checkpoint == s.pendingResume && s.question != ""
          && LastQuestion(s.updates).Some?
          && forall a <- s.answers :: a.question != LastQuestion(s.updates).value)
    && (s.state.WorkReady? ==> s.pullRequest.url != "")
  }

  predicate ExecutionOk(s: Session, e: Execution) {
    && (s.state.WorkQueued? <==> e.state.ExecQueued?)
    && (s.state.WorkPreparing? <==> e.state.ExecPreparing?)
    && (s.state.WorkRunning? <==> e.state.ExecRunning?)
    && e.cancel == s.cancel
    && (s.state.Slot() ==> s.worker == Some(e.worker))
  }

  /** An active Attempt mirrors its execution, and nothing was reported since by another Attempt. */
  predicate LeaseOk(s: Session, e: Execution, id: Id, a: Attempt) {
    && e.state == ExecutionOf(a.state) && e.worker == a.worker
    && (forall i, j :: 0 <= i < j < |s.updates| && s.updates[i].attempt == id ==> s.updates[j].attempt == id)
    && (forall x <- s.answers :: x.question < |s.updates| ==> s.updates[x.question].attempt != id)
  }

  predicate ActiveFor(attempts: map<Id, Attempt>, a: Id, id: Id) {
    a in attempts && attempts[a].session == id && attempts[a].state.Active()
  }

  ghost predicate AttemptsOk(attempts: map<Id, Attempt>, executions: map<Id, Execution>, id: Id, s: Session) {
    && (forall a {:trigger ActiveFor(attempts, a, id)} :: ActiveFor(attempts, a, id) ==>
          id in executions && LeaseOk(s, executions[id], a, attempts[a]))
    && (forall a, b {:trigger ActiveFor(attempts, a, id), ActiveFor(attempts, b, id)} ::
          ActiveFor(attempts, a, id) && ActiveFor(attempts, b, id) ==> a == b)
    && (id in executions && executions[id].state.Active() ==> exists a :: ActiveFor(attempts, a, id))
    && (forall i :: 0 <= i < |s.updates| ==>
          s.updates[i].attempt in attempts && attempts[s.updates[i].attempt].session == id)
  }

  ghost predicate WorkOk(db: DB, id: Id) {
    && id in db.sessions
    && SessionOk(db.sessions[id])
    && (if id in db.executions then ExecutionOk(db.sessions[id], db.executions[id])
        else !db.sessions[id].state.Slot() && !db.sessions[id].cancel)
    && AttemptsOk(db.attempts, db.executions, id, db.sessions[id])
  }

  // ---------------------------------------------------------------- the whole database

  ghost predicate WorksOk(db: DB) { forall id <- db.sessions :: WorkOk(db, id) }

  predicate RunOk(db: DB, r: Id)
    requires r in db.runs
  {
    && 1 <= db.runs[r].limit && |Slots(db, r)| <= db.runs[r].limit
    && (db.runs[r].terminalAt.Some? <==> HasWork(db, r) && !HasLiveWork(db, r))
  }

  ghost predicate RunsOk(db: DB) { forall r <- db.runs :: RunOk(db, r) }

  /** Each Work has at most one successor, of the same source, and is terminal once it has one. */
  ghost predicate LineageOk(db: DB) {
    && (forall id, p {:trigger Succeeds(db.sessions, id, p)} :: Succeeds(db.sessions, id, p) && p in db.sessions ==>
          && db.sessions[p].repository == db.sessions[id].repository
          && db.sessions[p].source == db.sessions[id].source
          && db.sessions[p].state.Terminal())
    && (forall x, y, p {:trigger Succeeds(db.sessions, x, p), Succeeds(db.sessions, y, p)} ::
          Succeeds(db.sessions, x, p) && Succeeds(db.sessions, y, p) ==> x == y)
    && (forall x, y :: x in db.sessions && y in db.sessions && SameItemRoots(db.sessions[x], db.sessions[y]) ==> x == y)
  }

  /** Two first builds of the same work item. */
  predicate SameItemRoots(s: Session, t: Session) {
    s.predecessor.None? && t.predecessor.None? && s.source.WorkItem? && s.source == t.source && s.repository == t.repository
  }

  ghost predicate ClaimsOk(db: DB) {
    forall k <- db.claims :: db.claims[k].attempt.Some? && db.claims[k].attempt.value in db.attempts ==>
      db.attempts[db.claims[k].attempt.value].worker == k.0
      && db.attempts[db.claims[k].attempt.value].token == db.claims[k].token
  }

  /** A stored update request still describes the update it returned. */
  predicate RequestOk(attempt: Id, q: UpdateRequest, updates: seq<WorkUpdate>) {
    q.update < |updates| && updates[q.update].attempt == attempt && updates[q.update].status == q.status
    && updates[q.update].message == q.message && updates[q.update].pullRequest.url == q.url
  }

  ghost predicate RequestsOk(db: DB) {
    forall k <- db.updateRequests :: k.0 in db.attempts && db.attempts[k.0].session in db.sessions ==>
      RequestOk(k.0, db.updateRequests[k], db.sessions[db.attempts[k.0].session].updates)
  }

  /** Everything that also holds while an admission is inserting its Sessions. */
  ghost predicate Core(db: DB) {
    && Linked(db) && WorksOk(db) && RunsOk(db) && LineageOk(db)
    && ClaimsOk(db) && RequestsOk(db) && KeysUnique(db)
  }

  ghost predicate Inv(db: DB) {
    Core(db) && forall r <- db.runs :: HasWork(db, r)
  }

  // ---------------------------------------------------------------- rewriting one Session

  lemma LiveIsNotReplaced(db: DB, id: Id)
    requires Linked(db) && LineageOk(db) && id in db.sessions && !db.sessions[id].state.Terminal()
    ensures !Replaced(db, id)
  {
    if Replaced(db, id) {
      var child :| child in db.sessions && db.sessions[child].predecessor == Some(id);
      assert Succeeds(db.sessions, child, id);
    }
  }

  /** A Run whose Sessions are untouched counts the same. */
  lemma RunUntouched(db: DB, next: DB, r: Id)
    requires forall o :: o in next.sessions && next.sessions[o].run == r ==> o in db.sessions && db.sessions[o] == next.sessions[o]
    requires forall o :: o in db.sessions && db.sessions[o].run == r ==> o in next.sessions && db.sessions[o] == next.sessions[o]
    ensures Slots(next, r) == Slots(db, r)
    ensures HasWork(next, r) == HasWork(db, r)
    ensures HasLiveWork(next, r) == HasLiveWork(db, r)
  {
    if HasWork(db, r) { var o :| o in db.sessions && db.sessions[o].run == r; assert next.sessions[o].run == r; }
    if HasLiveWork(db, r) {
      var o :| o in db.sessions && db.sessions[o].run == r && !db.sessions[o].state.Terminal();
      assert next.sessions[o].run == r;
    }
  }

  /** The counts of the Run one of whose Sessions becomes `s`. */
  lemma RunRewritten(db: DB, next: DB, id: Id, s: Session)
    requires id in db.sessions && db.sessions[id].run == s.run && next.sessions == db.sessions[id := s]
    ensures HasWork(next, s.run)
    ensures HasLiveWork(next, s.run) <==> !s.state.Terminal() || OtherLive(db, s.run, id)
    ensures |Slots(next, s.run)| <= |Slots(db, s.run)| + if s.state.Slot() && !db.sessions[id].state.Slot() then 1 else 0
  {
    assert next.sessions[id].run == s.run;
    if OtherLive(db, s.run, id) {
      var o :| o in db.sessions && o != id && db.sessions[o].run == s.run && !db.sessions[o].state.Terminal();
      assert next.sessions[o] == db.sessions[o];
    }
    var grown := Slots(db, s.run) + if s.state.Slot() && !db.sessions[id].state.Slot() then {id} else {};
    assert Slots(next, s.run) <= grown;
    SubsetIsNoLarger(Slots(next, s.run), grown);
  }

  lemma CommitKeepsRuns(db: DB, attempt: Option<(Id, Attempt)>, id: Id, s: Session, e: Option<Execution>, t: Option<int>)
    requires Linked(db) && RunsOk(db) && id in db.sessions && SameIdentity(db.sessions[id], s)
    requires s.state.Slot() ==> db.sessions[id].state.Slot() || SlotFree(db, s.run)
    requires t.Some? <==> s.state.Terminal() && !OtherLive(db, s.run, id)
    ensures RunsOk(Commit(db, attempt, id, s, e, t))
  {
    var next := Commit(db, attempt, id, s, e, t);
    forall r | r in next.runs ensures RunOk(next, r) {
      assert RunOk(db, r);
      if r == s.run { RunRewritten(db, next, id, s); } else { RunUntouched(db, next, r); }
    }
  }

  lemma LineageFollows(db: DB, next: DB)
    requires LineageOk(db) && SameSessions(db.sessions, next.sessions)
    requires forall id <- db.sessions ::
      db.sessions[id].state.Terminal() && !next.sessions[id].state.Terminal() ==> !Replaced(db, id)
    ensures LineageOk(next)
  {
    forall id, p | Succeeds(next.sessions, id, p) ensures Succeeds(db.sessions, id, p) {}
    forall id, p | Succeeds(next.sessions, id, p) && p in next.sessions
      ensures next.sessions[p].repository == next.sessions[id].repository
           && next.sessions[p].source == next.sessions[id].source && next.sessions[p].state.Terminal()
    {
      assert Succeeds(db.sessions, id, p);
      assert db.sessions[id].predecessor == Some(p);
    }
    forall x, y | x in next.sessions && y in next.sessions && SameItemRoots(next.sessions[x], next.sessions[y])
      ensures x == y
    {
      assert SameItemRoots(db.sessions[x], db.sessions[y]);
    }
  }

  lemma OtherWorkKept(db: DB, next: DB, id: Id, o: Id)
    requires WorkOk(db, o) && o != id && o in next.sessions && next.sessions[o] == db.sessions[o]
    requires o in next.executions <==> o in db.executions
    requires o in db.executions ==> next.executions[o] == db.executions[o]
    requires db.attempts.Keys <= next.attempts.Keys
    requires forall a <- next.attempts :: if a in db.attempts
      then next.attempts[a] == db.attempts[a] || (next.attempts[a].session == id && db.attempts[a].session == id)
      else next.attempts[a].session == id
    ensures WorkOk(next, o)
  {
    assert forall a :: ActiveFor(next.attempts, a, o) <==> ActiveFor(db.attempts, a, o);
    if o in next.executions && next.executions[o].state.Active() {
      var a :| ActiveFor(db.attempts, a, o);
      assert ActiveFor(next.attempts, a, o);
    }
  }

  // ---------------------------------------------------------------- frames

  predicate SameLease(a: Attempt, b: Attempt) {
    a.session == b.session && a.worker == b.worker && a.token == b.token
  }

  ghost predicate SameAttempts(before: map<Id, Attempt>, after: map<Id, Attempt>) {
    before.Keys <= after.Keys && forall a <- before :: SameLease(before[a], after[a])
  }

  predicate SameRun(r: Run, q: Run) { r.(terminalAt := q.terminalAt) == q }

  ghost predicate SameRuns(before: map<Id, Run>, after: map<Id, Run>) {
    before.Keys == after.Keys && forall r <- before :: SameRun(before[r], after[r])
  }

  /** `next` has the rows of `db` with their identities, and perhaps newer Attempts. */
  ghost predicate Carries(db: DB, next: DB) {
    && SameSessions(db.sessions, next.sessions) && SameAttempts(db.attempts, next.attempts)
    && SameRuns(db.runs, next.runs)
    && next.claims == db.claims && next.updateRequests == db.updateRequests && next.rows == db.rows
  }

  lemma ClaimsFollow(db: DB, next: DB)
    requires RequestsLinked(db) && ClaimsOk(db) && next.claims == db.claims && SameAttempts(db.attempts, next.attempts)
    ensures ClaimsOk(next)
  {
    forall k | k in next.claims && next.claims[k].attempt.Some? && next.claims[k].attempt.value in next.attempts
      ensures next.attempts[next.claims[k].attempt.value].worker == k.0
      ensures next.attempts[next.claims[k].attempt.value].token == next.claims[k].token
    {
      assert SameLease(db.attempts[db.claims[k].attempt.value], next.attempts[db.claims[k].attempt.value]);
    }
  }

  lemma KeysFollow(db: DB, next: DB)
    requires KeysUnique(db) && SameRuns(db.runs, next.runs)
    ensures KeysUnique(next)
  {
    forall x, y | x in next.runs && y in next.runs && next.runs[x].requestKey == next.runs[y].requestKey ensures x == y {
      assert SameRun(db.runs[x], next.runs[x]) && SameRun(db.runs[y], next.runs[y]);
    }
  }

  lemma RequestsFollow(db: DB, next: DB)
    requires RequestsLinked(db) && RequestsOk(db) && next.updateRequests == db.updateRequests
    requires SameSessions(db.sessions, next.sessions) && SameAttempts(db.attempts, next.attempts)
    ensures RequestsOk(next)
  {
    forall k | k in next.updateRequests
      ensures RequestOk(k.0, next.updateRequests[k], next.sessions[next.attempts[k.0].session].updates)
    {
      assert k in db.updateRequests;
      var id := db.attempts[k.0].session;
      assert RequestOk(k.0, db.updateRequests[k], db.sessions[id].updates);
      assert SameIdentity(db.sessions[id], next.sessions[id]) && SameLease(db.attempts[k.0], next.attempts[k.0]);
    }
  }

  /** No Work is opened again after something has taken over from it. */
  ghost predicate ReopensTails(db: DB, next: DB) {
    forall id <- db.sessions ::
      id in next.sessions && db.sessions[id].state.Terminal() && !next.sessions[id].state.Terminal() ==> !Replaced(db, id)
  }

  lemma CarriesKeeps(db: DB, next: DB)
    requires Core(db) && Carries(db, next) && ReopensTails(db, next)
    ensures LineageOk(next) && ClaimsOk(next) && RequestsOk(next) && KeysUnique(next) && SessionsLinked(next)
    ensures (forall r <- db.runs :: HasWork(db, r)) ==> forall r <- next.runs :: HasWork(next, r)
  {
    LineageFollows(db, next);
    ClaimsFollow(db, next);
    RequestsFollow(db, next);
    KeysFollow(db, next);
    LinksFollow(db, next);
    if forall r <- db.runs :: HasWork(db, r) {
      forall r | r in next.runs ensures HasWork(next, r) {
        assert HasWork(db, r);
        var id :| id in db.sessions && db.sessions[id].run == r;
        assert SameIdentity(db.sessions[id], next.sessions[id]);
      }
    }
  }

  // ---------------------------------------------------------------- rewriting one Session

  /** What a transaction that rewrites one Session has to respect. */
  ghost predicate CommitFits(db: DB, attempt: Option<(Id, Attempt)>, id: Id, s: Session, e: Option<Execution>, t: Option<int>) {
    && id in db.sessions && SameIdentity(db.sessions[id], s) && s.run in db.runs
    && (attempt.Some? ==> attempt.value.1.session == id && (e.Some? || id in db.executions))
    && (attempt.Some? && attempt.value.0 in db.attempts ==> SameLease(db.attempts[attempt.value.0], attempt.value.1))
    && (s.state.Slot() ==> db.sessions[id].state.Slot() || SlotFree(db, s.run))
    && (t.Some? <==> s.state.Terminal() && !OtherLive(db, s.run, id))
    && (db.sessions[id].state.Terminal() && !s.state.Terminal() ==> !Replaced(db, id))
  }

  lemma CommitCarries(db: DB, attempt: Option<(Id, Attempt)>, id: Id, s: Session, e: Option<Execution>, t: Option<int>)
    requires CommitFits(db, attempt, id, s, e, t)
    ensures Carries(db, Commit(db, attempt, id, s, e, t)) && ReopensTails(db, Commit(db, attempt, id, s, e, t))
  {
  }

  lemma CommitKeepsWorks(db: DB, attempt: Option<(Id, Attempt)>, id: Id, s: Session, e: Option<Execution>, t: Option<int>)
    requires WorksOk(db) && CommitFits(db, attempt, id, s, e, t)
    requires WorkOk(Commit(db, attempt, id, s, e, t), id)
    ensures WorksOk(Commit(db, attempt, id, s, e, t))
  {
    hide WorkOk, SlotFree, OtherLive, Replaced;
    var next := Commit(db, attempt, id, s, e, t);
    forall o | o in next.sessions ensures WorkOk(next, o) {
      if o != id { OtherWorkKept(db, next, id, o); }
    }
  }

  /** Rewriting one Session keeps the whole database in order when the rewritten rows are. */
  lemma CommitKeeps(db: DB, attempt: Option<(Id, Attempt)>, id: Id, s: Session, e: Option<Execution>, t: Option<int>)
    requires Core(db) && CommitFits(db, attempt, id, s, e, t)
    requires WorkOk(Commit(db, attempt, id, s, e, t), id)
    ensures Core(Commit(db, attempt, id, s, e, t))
    ensures Inv(db) ==> Inv(Commit(db, attempt, id, s, e, t))
  {
    CommitKeepsLinks(db, attempt, id, s, e, t);
    CommitKeepsRuns(db, attempt, id, s, e, t);
    CommitKeepsWorks(db, attempt, id, s, e, t);
    CommitCarries(db, attempt, id, s, e, t);
    CarriesKeeps(db, Commit(db, attempt, id, s, e, t));
  }
}
