/** What an accepted admission, replacement, repository switch or registration leaves in the rows. */
module AdmissionEffects {
  import opened Common
  import opened Tables
  import opened Scan
  import opened Transitions
  import opened Invariant
  import opened LeaseSteps
  import opened AdmissionSteps
  import opened WorkSteps
  import opened Registration
  import E = Effects
  import F = Fairness

  // ---------------------------------------------------------------- predecessors

  /** Work that an admission of this kind would continue. */
  predicate SameLine(db: DB, flavour: Flavour, procedure: Id, t: Target, id: Id)
    requires Linked(db)
  {
    && id in db.sessions && db.sessions[id].repository == t.repository
    && (flavour.BuildRun? ==> db.sessions[id].source == t.source)
    && (flavour.ProcedureRun? ==> db.sessions[id].source == WholeRepository && db.runs[db.sessions[id].run].procedure == procedure)
    && !flavour.TaskRun?
  }

  predicate Over(state: WorkState) { state in {WorkReady, WorkSucceeded, WorkFailed, WorkNoChange, WorkCancelled} }

  /** Ended Work of the line that nothing has replaced. */
  predicate Tail(db: DB, flavour: Flavour, procedure: Id, t: Target, id: Id)
    requires Linked(db)
  {
    SameLine(db, flavour, procedure, t, id) && Over(db.sessions[id].state) && forall x <- db.sessions :: db.sessions[x].predecessor != Some(id)
  }

  /** A Task Run and a first Procedure Run continue nothing.  Otherwise no Work of the line may be live; a first Build
      finds no ended Work to continue, and a rebuild continues the newest. */
  predicate Continues(db: DB, flavour: Flavour, procedure: Id, t: Target, p: Option<Id>)
    requires Linked(db)
  {
    if flavour.TaskRun? || flavour == ProcedureRun(false) then p == None
    else
      && (forall x <- db.sessions :: SameLine(db, flavour, procedure, t, x) ==> Over(db.sessions[x].state))
      && if flavour.rebuild then
           && p.Some? && Tail(db, flavour, procedure, t, p.value)
           && forall y <- db.sessions :: y != p.value && Tail(db, flavour, procedure, t, y) ==>
                db.sessions[y].admittedAt < db.sessions[p.value].admittedAt
                || (db.sessions[y].admittedAt == db.sessions[p.value].admittedAt && y < p.value)
         else p == None && forall y <- db.sessions :: !Tail(db, flavour, procedure, t, y)
  }

  lemma TailsAgree(db: DB, flavour: Flavour, procedure: Id, t: Target)
    requires Linked(db)
    ensures forall x :: x in TerminalTails(db, flavour, procedure, t) <==> Tail(db, flavour, procedure, t, x)
    ensures LiveMatch(db, flavour, procedure, t) <==> exists x <- db.sessions :: SameLine(db, flavour, procedure, t, x) && !Over(db.sessions[x].state)
  {
    hide Linked;
  }

  lemma PredecessorContinues(db: DB, flavour: Flavour, procedure: Id, t: Target)
    requires Linked(db) && Predecessor(db, flavour, procedure, t).Choose?
    ensures Continues(db, flavour, procedure, t, Predecessor(db, flavour, procedure, t).predecessor)
  {
    hide Linked, SameLine, Tail, TerminalTails, LiveMatch, Newest, Over;
    TailsAgree(db, flavour, procedure, t);
    var tails := TerminalTails(db, flavour, procedure, t);
    if tails != {} {
      assert forall x <- tails :: x in db.sessions by { TailsExist(db, flavour, procedure, t); }
    }
    if tails == {} { assert forall y <- db.sessions :: !Tail(db, flavour, procedure, t, y); }
  }

  lemma TailsExist(db: DB, flavour: Flavour, procedure: Id, t: Target)
    requires Linked(db)
    ensures forall x <- TerminalTails(db, flavour, procedure, t) :: x in db.sessions
  {
  }

  // ---------------------------------------------------------------- new rows

  /** A row as it is inserted: nothing has happened to the Work yet. */
  predicate Inserted(s: Session, run: Id, t: Target, predecessor: Option<Id>, now: int, worker: Option<Id>) {
    && s.run == run && s.repository == t.repository && s.source == t.source && s.predecessor == predecessor && s.admittedAt == now
    && s.state == (if worker.Some? then WorkQueued else WorkBlocked) && s.worker == worker && s.owner == OwnerNone && !s.cancel
    && s.startedAt == None && s.terminalAt == None && !s.mayRepeat
    && |s.stages| == t.stages && (forall i :: 0 <= i < |s.stages| ==> s.stages[i] == Stage(StagePending, "", ""))
    && s.question == "" && s.answer == "" && s.checkpoint == "" && s.pendingResume == "" && !s.published
    && s.pullRequest == PullRequest("", "", "") && s.updates == [] && s.answers == []
  }

  lemma FreshIsInserted(run: Id, t: Target, predecessor: Option<Id>, row: nat, now: int, worker: Option<Id>)
    ensures Inserted(FreshSession(run, t, predecessor, row, now, worker), run, t, predecessor, now, worker)
  {
  }

  /** How many of the first `n` targets were queued. */
  function QueuedAmong(sessions: map<Id, Session>, targets: seq<Target>, n: nat): nat
    requires n <= |targets|
  {
    if n == 0 then 0
    else QueuedAmong(sessions, targets, n - 1)
         + if targets[n - 1].id in sessions && sessions[targets[n - 1].id].state == WorkQueued then 1 else 0
  }

  /** The Worker a target is queued on: its route, while a slot is left. */
  function WorkerFor(sessions: map<Id, Session>, r: NewRun, targets: seq<Target>, i: nat): Option<Id>
    requires i < |targets|
  {
    if r.ready && QueuedAmong(sessions, targets, i) < r.limit then targets[i].route else None
  }

  /** A target's row and, if it is queued, its execution. */
  predicate RowHolds(db: DB, next: DB, flavour: Flavour, r: NewRun, targets: seq<Target>, i: nat, now: int)
    requires Linked(db) && i < |targets|
  {
    var id, worker := targets[i].id, WorkerFor(next.sessions, r, targets, i);
    && id in next.sessions && Continues(db, flavour, r.procedure, targets[i], next.sessions[id].predecessor)
    && Inserted(next.sessions[id], r.id, targets[i], next.sessions[id].predecessor, now, worker)
    && (worker.Some? <==> id in next.executions)
    && (worker.Some? ==> next.executions[id] == Execution(worker.value, ExecQueued, false, now))
  }

  /** All old rows are as they were, and there are no others but the targets'. */
  ghost predicate OnlyTargets(db: DB, next: DB, targets: seq<Target>, n: nat)
    requires n <= |targets|
  {
    && (forall id <- db.sessions :: id in next.sessions && next.sessions[id] == db.sessions[id])
    && (forall id <- db.executions :: id in next.executions && next.executions[id] == db.executions[id])
    && (forall id <- next.sessions :: id in db.sessions || IsTarget(targets, n, id))
    && (forall id <- next.executions :: id in db.executions || IsTarget(targets, n, id))
  }

  predicate Distinct(db: DB, targets: seq<Target>) {
    && (forall i :: 0 <= i < |targets| ==> targets[i].id !in db.sessions && targets[i].id !in db.executions)
    && (forall i, j :: 0 <= i < j < |targets| ==> targets[i].id != targets[j].id)
  }

  lemma {:induction false} QueuedStays(sessions: map<Id, Session>, id: Id, s: Session, targets: seq<Target>, n: nat)
    requires n <= |targets| && forall i :: 0 <= i < n ==> targets[i].id != id
    ensures QueuedAmong(sessions[id := s], targets, n) == QueuedAmong(sessions, targets, n)
  {
    if n > 0 { QueuedStays(sessions, id, s, targets, n - 1); }
  }

  lemma RowStays(db: DB, next: DB, flavour: Flavour, r: NewRun, targets: seq<Target>, i: nat, n: nat, now: int, p: Option<Id>, worker: Option<Id>)
    requires Linked(db) && i < n < |targets| && Distinct(db, targets) && RowHolds(db, next, flavour, r, targets, i, now)
    ensures RowHolds(db, InsertTarget(next, r.id, targets[n], p, now, worker), flavour, r, targets, i, now)
  {
    hide Linked, Continues, Inserted, FreshSession;
    assert targets[i].id != targets[n].id;
    QueuedStays(next.sessions, targets[n].id, FreshSession(r.id, targets[n], p, next.rows, now, worker), targets, i);
  }

  lemma NewRow(db: DB, next: DB, flavour: Flavour, r: NewRun, targets: seq<Target>, n: nat, used: nat, now: int, p: Option<Id>)
    requires Linked(db) && n < |targets| && Distinct(db, targets) && OnlyTargets(db, next, targets, n)
    requires used == QueuedAmong(next.sessions, targets, n) && Continues(db, flavour, r.procedure, targets[n], p)
    ensures var worker := if r.ready && used < r.limit then targets[n].route else None;
      var more := InsertTarget(next, r.id, targets[n], p, now, worker);
      && RowHolds(db, more, flavour, r, targets, n, now)
      && QueuedAmong(more.sessions, targets, n + 1) == used + if worker.Some? then 1 else 0
  {
    hide Linked, Continues, Inserted, FreshSession, QueuedAmong, OnlyTargets, Distinct, RowHolds;
    NewIsNew(db, next, targets, n);
    var worker := if r.ready && used < r.limit then targets[n].route else None;
    var s := FreshSession(r.id, targets[n], p, next.rows, now, worker);
    FreshIsInserted(r.id, targets[n], p, next.rows, now, worker);
    FreshState(r.id, targets[n], p, next.rows, now, worker);
    QueuedStays(next.sessions, targets[n].id, s, targets, n);
    QueuedNext(next.sessions[targets[n].id := s], targets, n);
    var more := InsertTarget(next, r.id, targets[n], p, now, worker);
    InsertedRow(next, r.id, targets[n], p, now, worker);
    hide InsertTarget;
    assert WorkerFor(more.sessions, r, targets, n) == worker;
    RowIs(db, more, flavour, r, targets, n, now);
  }

  lemma InsertedRow(db: DB, run: Id, t: Target, p: Option<Id>, now: int, worker: Option<Id>)
    requires t.id !in db.executions
    ensures var more := InsertTarget(db, run, t, p, now, worker);
      && more.sessions == db.sessions[t.id := FreshSession(run, t, p, db.rows, now, worker)]
      && (worker.Some? <==> t.id in more.executions)
      && (worker.Some? ==> more.executions[t.id] == Execution(worker.value, ExecQueued, false, now))
  {
    hide FreshSession;
  }

  lemma RowIs(db: DB, next: DB, flavour: Flavour, r: NewRun, targets: seq<Target>, i: nat, now: int)
    requires Linked(db) && i < |targets| && targets[i].id in next.sessions
    requires Continues(db, flavour, r.procedure, targets[i], next.sessions[targets[i].id].predecessor)
    requires var id, worker := targets[i].id, WorkerFor(next.sessions, r, targets, i);
      && Inserted(next.sessions[id], r.id, targets[i], next.sessions[id].predecessor, now, worker)
      && (worker.Some? <==> id in next.executions) && (worker.Some? ==> next.executions[id] == Execution(worker.value, ExecQueued, false, now))
    ensures RowHolds(db, next, flavour, r, targets, i, now)
  {
    hide Linked, Continues, Inserted, WorkerFor;
  }

  lemma NewIsNew(db: DB, next: DB, targets: seq<Target>, n: nat)
    requires n < |targets| && Distinct(db, targets) && OnlyTargets(db, next, targets, n)
    ensures targets[n].id !in next.executions && forall i :: 0 <= i < n ==> targets[i].id != targets[n].id
  {
  }

  lemma QueuedNext(sessions: map<Id, Session>, targets: seq<Target>, n: nat)
    requires n < |targets| && targets[n].id in sessions
    ensures QueuedAmong(sessions, targets, n + 1) == QueuedAmong(sessions, targets, n) + if sessions[targets[n].id].state == WorkQueued then 1 else 0
  {
  }

  lemma FreshState(run: Id, t: Target, predecessor: Option<Id>, row: nat, now: int, worker: Option<Id>)
    ensures FreshSession(run, t, predecessor, row, now, worker).predecessor == predecessor
    ensures FreshSession(run, t, predecessor, row, now, worker).state == if worker.Some? then WorkQueued else WorkBlocked
  {
  }

  lemma OneMoreTarget(db: DB, next: DB, run: Id, targets: seq<Target>, n: nat, now: int, p: Option<Id>, worker: Option<Id>)
    requires n < |targets| && Distinct(db, targets) && OnlyTargets(db, next, targets, n)
    ensures OnlyTargets(db, InsertTarget(next, run, targets[n], p, now, worker), targets, n + 1)
  {
    hide FreshSession, Distinct;
    assert targets[n].id !in db.sessions && targets[n].id !in db.executions by { DistinctAt(db, targets, n); }
    var more := InsertTarget(next, run, targets[n], p, now, worker);
    hide IsTarget;
    assert IsTarget(targets, n + 1, targets[n].id) by { LastIsTarget(targets, n); }
    forall id | id in more.sessions ensures id in db.sessions || IsTarget(targets, n + 1, id) { MoreTargets(targets, n, id); }
    forall id | id in more.executions ensures id in db.executions || IsTarget(targets, n + 1, id) { MoreTargets(targets, n, id); }
  }

  lemma LastIsTarget(targets: seq<Target>, n: nat)
    requires n < |targets|
    ensures IsTarget(targets, n + 1, targets[n].id)
  {
  }

  predicate IsTarget(targets: seq<Target>, n: nat, id: Id)
    requires n <= |targets|
  {
    exists i :: 0 <= i < n && targets[i].id == id
  }

  lemma MoreTargets(targets: seq<Target>, n: nat, id: Id)
    requires n < |targets|
    ensures IsTarget(targets, n, id) ==> IsTarget(targets, n + 1, id)
  {
  }

  lemma DistinctAt(db: DB, targets: seq<Target>, n: nat)
    requires Distinct(db, targets) && n < |targets|
    ensures targets[n].id !in db.sessions && targets[n].id !in db.executions
  {
  }

  lemma {:induction false} TargetsHold(db: DB, start: DB, flavour: Flavour, r: NewRun, targets: seq<Target>, n: nat, now: int)
    requires Linked(db) && n <= |targets| && Distinct(db, targets) && Chosen(db, flavour, r.procedure, targets)
    requires start.sessions == db.sessions && start.executions == db.executions
    ensures var (next, used) := AdmitTargets(start, db, flavour, r, targets, now, n);
      && OnlyTargets(db, next, targets, n) && used == QueuedAmong(next.sessions, targets, n)
      && (forall i :: 0 <= i < n ==> RowHolds(db, next, flavour, r, targets, i, now))
      && next == start.(sessions := next.sessions, executions := next.executions, rows := next.rows)
  {
    hide Linked, Predecessor, Continues, RowHolds, Distinct, InsertTarget, Chosen;
    if n == 0 {
      assert OnlyTargets(db, start, targets, 0);
      hide OnlyTargets;
    } else {
      hide OnlyTargets, QueuedAmong;
      TargetsHold(db, start, flavour, r, targets, n - 1, now);
      var (next, used) := AdmitTargets(start, db, flavour, r, targets, now, n - 1);
      var t := targets[n - 1];
      assert Predecessor(db, flavour, r.procedure, t).Choose? by { ChosenAt(db, flavour, r.procedure, targets, n - 1); }
      var p := Predecessor(db, flavour, r.procedure, t).predecessor;
      var worker := if r.ready && used < r.limit then t.route else None;
      PredecessorContinues(db, flavour, r.procedure, t);
      NewRow(db, next, flavour, r, targets, n - 1, used, now, p);
      OneMoreTarget(db, next, r.id, targets, n - 1, now, p, worker);
      forall i | 0 <= i < n - 1 ensures RowHolds(db, InsertTarget(next, r.id, t, p, now, worker), flavour, r, targets, i, now) {
        RowStays(db, next, flavour, r, targets, i, n - 1, now, p, worker);
      }
      InsertAside(next, r.id, t, p, now, worker);
    }
  }

  lemma ChosenAt(db: DB, flavour: Flavour, procedure: Id, targets: seq<Target>, i: nat)
    requires Linked(db) && Chosen(db, flavour, procedure, targets) && i < |targets|
    ensures Predecessor(db, flavour, procedure, targets[i]).Choose?
  {
  }

  lemma InsertAside(db: DB, run: Id, t: Target, p: Option<Id>, now: int, worker: Option<Id>)
    ensures var next := InsertTarget(db, run, t, p, now, worker);
      next == db.(sessions := next.sessions, executions := next.executions, rows := next.rows)
  {
  }

  // ---------------------------------------------------------------- admitting

  /** What an accepted admission asked for. */
  predicate Admissible(db: DB, flavour: Flavour, r: NewRun, targets: seq<Target>) {
    && 1 <= r.limit && targets != [] && r.id !in db.runs
    && (forall t <- targets ::
          && t.id !in db.sessions && 0 < t.stages && t.fits && (t.source.WorkItem? <==> flavour.BuildRun?)
          && F.Open(db, t.repository) && (!flavour.TaskRun? ==> db.repositories[t.repository].managed))
    && (forall i, j :: 0 <= i < j < |targets| ==>
          targets[i].id != targets[j].id && !(targets[i].repository == targets[j].repository && targets[i].source == targets[j].source))
  }

  /** The Run and one row per target, queued in order while slots are left. */
  ghost predicate AdmitsRun(db: DB, next: DB, now: int, flavour: Flavour, r: NewRun, targets: seq<Target>)
    requires Linked(db)
  {
    && Admissible(db, flavour, r, targets)
    && next.runs == db.runs[r.id := Run(r.requestKey, r.digest, r.procedure, r.limit, r.contract, now, None)]
    && OnlyTargets(db, next, targets, |targets|)
    && (forall i :: 0 <= i < |targets| ==> RowHolds(db, next, flavour, r, targets, i, now))
    && next.attempts == db.attempts && next.claims == db.claims && next.updateRequests == db.updateRequests
    && next.workers == db.workers && next.repositories == db.repositories
  }

  lemma TargetsAreAdmissible(db: DB, flavour: Flavour, r: NewRun, targets: seq<Target>)
    requires Linked(db) && TargetsError(db, flavour, r, targets).None? && 1 <= r.limit
    ensures Admissible(db, flavour, r, targets) && Distinct(db, targets)
  {
    hide Predecessor;
    forall t | t in targets ensures F.Open(db, t.repository) && t.fits && 0 < t.stages && (t.source.WorkItem? <==> flavour.BuildRun?) && t.id !in db.sessions {
      F.CountsAgree(db, 0, 0, t.repository);
    }
  }

  predicate Known(db: DB, requestKey: string) { exists x <- db.runs :: db.runs[x].requestKey == requestKey }

  /** The answer is the Run of this key, admitted with the same inputs. */
  predicate Replays(db: DB, requestKey: string, digest: string, reply: Reply) {
    exists x <- db.runs :: db.runs[x].requestKey == requestKey && db.runs[x].digest == digest && reply == Replayed(x)
  }

  ghost predicate AdmitsOrReplays(db: DB, next: DB, now: int, flavour: Flavour, r: NewRun, targets: seq<Target>, reply: Reply)
    requires Linked(db)
  {
    if Known(db, r.requestKey) then next == db && Replays(db, r.requestKey, r.digest, reply)
    else AdmitsRun(db, next, now, flavour, r, targets) && reply == Admitted(r.id)
  }

  /** A new key admits a Run of exactly the given targets; a known one replays its Run if the inputs are the same. */
  lemma AdmitsTheRun(db: DB, now: int, flavour: Flavour, r: NewRun, targets: seq<Target>, acquired: set<(Id, Id)>)
    requires Linked(db) && KeysUnique(db)
    ensures var o := Admit(db, now, flavour, r, targets, acquired);
      o.Done? ==> AdmitsOrReplays(db, o.db, now, flavour, r, targets, o.reply)
  {
    hide Linked, TargetsError, AdmitTargets, Predecessor, Admissible, OnlyTargets, RowHolds, Distinct, Chosen;
    var o := Admit(db, now, flavour, r, targets, acquired);
    if o.Done? && !KeyTaken(db, r.requestKey) {
      TargetsAreAdmissible(db, flavour, r, targets);
      E.AcquireRows(WithRun(db, r, now), acquired);
      hide Acquire;
      TargetsHold(db, Acquire(WithRun(db, r, now), acquired), flavour, r, targets, |targets|, now);
    }
  }

  // ---------------------------------------------------------------- replacing

  /** New Work takes over from ended, unreplaced Work: of the same repository, source and number of stages, in a Run of
      its own with the settings of the old Run, queued if a route was found. */
  predicate ReplacesWork(db: DB, next: DB, now: int, requestKey: string, digest: string, work: Id, run: Id, newWork: Id, route: Option<Id>) {
    && work in db.sessions && db.sessions[work].run in db.runs
    && var s, origin := db.sessions[work], db.runs[db.sessions[work].run];
    && Over(s.state) && (forall x <- db.sessions :: db.sessions[x].predecessor != Some(work))
    && run !in db.runs && newWork !in db.sessions
    && next.runs == db.runs[run := Run(requestKey, digest, origin.procedure, origin.limit, origin.contract, now, None)]
    && newWork in next.sessions && next.sessions == db.sessions[newWork := next.sessions[newWork]]
    && Inserted(next.sessions[newWork], run, Target(newWork, s.repository, s.source, |s.stages|, true, route), Some(work), now, route)
    && next.executions == (if route.Some? then db.executions[newWork := Execution(route.value, ExecQueued, false, now)] else db.executions)
    && next.attempts == db.attempts && next.claims == db.claims && next.updateRequests == db.updateRequests
    && next.workers == db.workers && next.repositories == db.repositories
  }

  predicate ReplacesOrReplays(db: DB, next: DB, now: int, requestKey: string, digest: string, work: Id, run: Id, newWork: Id,
                              route: Option<Id>, reply: Reply) {
    if Known(db, requestKey) then next == db && Replays(db, requestKey, digest, reply)
    else ReplacesWork(db, next, now, requestKey, digest, work, run, newWork, route) && reply == Admitted(run)
  }

  lemma ReplacesTheWork(db: DB, now: int, requestKey: string, digest: string, work: Id, run: Id, newWork: Id,
                        eligible: bool, fits: bool, route: Option<Id>, acquired: set<(Id, Id)>)
    requires Linked(db) && KeysUnique(db)
    ensures var o := ReplaceWork(db, now, requestKey, digest, work, run, newWork, eligible, fits, route, acquired);
      o.Done? ==>
        && ReplacesOrReplays(db, o.db, now, requestKey, digest, work, run, newWork, route, o.reply)
        && (Known(db, requestKey) || (eligible && fits))
  {
    hide Linked, MatchingLive, Inserted, FreshSession, Acquire;
    var o := ReplaceWork(db, now, requestKey, digest, work, run, newWork, eligible, fits, route, acquired);
    if o.Done? && !KeyTaken(db, requestKey) {
      WorkHasRun(db, work);
      var s, origin := db.sessions[work], db.runs[db.sessions[work].run];
      var r := NewRun(run, requestKey, digest, origin.procedure, origin.limit, origin.contract, true);
      E.AcquireRows(WithRun(db, r, now), acquired);
      FreshIsInserted(run, Target(newWork, s.repository, s.source, |s.stages|, true, route), Some(work), db.rows, now, route);
    }
  }

  // ---------------------------------------------------------------- switching a repository

  /** Disabling an enabled repository takes its queued Work off the Workers, and changes no other Work. */
  predicate Switches(db: DB, next: DB, repository: Id, enabled: bool) {
    && repository in db.repositories
    && next.repositories == db.repositories[repository := Repository(true, enabled)]
    && if !enabled && db.repositories[repository].enabled
       then TakesOff(db, next.(repositories := db.repositories), repository)
       else next == db.(repositories := next.repositories)
  }

  lemma SwitchesTheRepository(db: DB, repository: Id, enabled: bool)
    ensures var o := SetRepositoryEnabled(db, repository, enabled);
      o.Done? ==> Switches(db, o.db, repository, enabled)
  {
    hide Attempted, QueuedIn, Unqueued, TakesOff;
    TakesQueuedOff(db, repository);
    UnqueuedFrame(db, repository);
    if repository in db.repositories {
      var marked := db.repositories[repository := Repository(true, enabled)];
      var off := Unqueued(db, repository);
      assert off.(repositories := marked).(repositories := db.repositories) == off;
    }
  }

  /** The queued Work of a repository goes back to waiting, and its executions go. */
  predicate TakesOff(db: DB, next: DB, repository: Id) {
    && next.sessions.Keys == db.sessions.Keys
    && (forall id <- db.sessions ::
          if db.sessions[id].repository == repository && db.sessions[id].state == WorkQueued
          then next.sessions[id] == db.sessions[id].(state := WorkBlocked, worker := None, owner := OwnerNone)
          else next.sessions[id] == db.sessions[id])
    && (forall id <- next.executions :: id in db.executions && next.executions[id] == db.executions[id])
    && (forall id <- db.executions ::
          id in next.executions <==>
          !(id in db.sessions && db.sessions[id].repository == repository && db.sessions[id].state == WorkQueued
            && db.executions[id].state == ExecQueued))
    && next == db.(sessions := next.sessions, executions := next.executions)
  }

  lemma TakesQueuedOff(db: DB, repository: Id)
    ensures TakesOff(db, Unqueued(db, repository), repository)
  {
  }

  // ---------------------------------------------------------------- registering

  /** The Attempts named by worktrees whose first complete summary is of this repository. */
  predicate NamedFor(worktrees: seq<Worktree>, a: Id, repository: Id) {
    exists i :: 0 <= i < |worktrees| && worktrees[i] == Worktree(Some(a), Some(repository))
      && forall j :: 0 <= j < i ==> !(worktrees[j].attempt == Some(a) && worktrees[j].repository.Some?)
  }

  lemma {:induction false} FirstSummary(worktrees: seq<Worktree>, a: Id, repository: Id)
    ensures AttributedTo(worktrees, a) == Some(repository) <==> NamedFor(worktrees, a, repository)
  {
    if worktrees != [] {
      FirstSummary(worktrees[1..], a, repository);
      var w := worktrees[0];
      if w.attempt == Some(a) && w.repository.Some? {
        if w.repository == Some(repository) { assert worktrees[0] == Worktree(Some(a), Some(repository)); }
      } else {
        if NamedFor(worktrees[1..], a, repository) {
          var i :| 0 <= i < |worktrees[1..]| && worktrees[1..][i] == Worktree(Some(a), Some(repository))
            && forall j :: 0 <= j < i ==> !(worktrees[1..][j].attempt == Some(a) && worktrees[1..][j].repository.Some?);
          assert worktrees[i + 1] == Worktree(Some(a), Some(repository));
          forall j | 0 <= j < i + 1 ensures !(worktrees[j].attempt == Some(a) && worktrees[j].repository.Some?) {
            if j > 0 { assert worktrees[j] == worktrees[1..][j - 1]; }
          }
        }
        if NamedFor(worktrees, a, repository) {
          var i :| 0 <= i < |worktrees| && worktrees[i] == Worktree(Some(a), Some(repository))
            && forall j :: 0 <= j < i ==> !(worktrees[j].attempt == Some(a) && worktrees[j].repository.Some?);
          assert i > 0 && worktrees[1..][i - 1] == worktrees[i];
          forall j | 0 <= j < i - 1 ensures !(worktrees[1..][j].attempt == Some(a) && worktrees[1..][j].repository.Some?) {
            assert worktrees[1..][j] == worktrees[j + 1];
          }
        }
      }
    }
  }

  /** Some live execution of the repository is assigned to the Worker. */
  predicate Assigned(db: DB, worker: Id, repository: Id) {
    exists id <- db.executions :: id in db.sessions && db.executions[id].worker == worker && db.sessions[id].repository == repository
      && db.executions[id].state in {ExecQueued, ExecPreparing, ExecRunning}
  }

  /** What becomes of one of the Worker's own rows.  A configured repository is advertised and retains what was said or
      what is evident, whichever is more; a row that routing made stays advertised while the Worker accepts managed
      repositories and still has to do with it; any other row is no longer advertised. */
  predicate Reports(db: DB, worker: Id, input: Report, repository: Id, was: Option<Mirror>, m: Mirror, evident: nat) {
    if repository in input.statics then
      && m.advertised && !m.dynamic && (m.retained == input.statics[repository] || m.retained == evident)
      && input.statics[repository] <= m.retained && evident <= m.retained
    else
      && was.Some? && m.dynamic == was.value.dynamic
      && (was.value.dynamic ==> m.retained == evident)
      && (!was.value.dynamic ==> m.retained == was.value.retained)
      && (m.advertised <==> was.value.dynamic && input.acceptsManaged && (repository in input.cached || 0 < evident || Assigned(db, worker, repository)))
  }

  lemma ReportsTheRow(db: DB, worker: Id, input: Report, repository: Id)
    requires Linked(db) && (repository in input.statics || (worker, repository) in db.mirrors)
    ensures var evident := set a | a in Named(input.worktrees) && NamedFor(input.worktrees, a, repository);
      Reports(db, worker, input, repository, if (worker, repository) in db.mirrors then Some(db.mirrors[(worker, repository)]) else None,
              ReportedMirror(db, worker, input, repository), |evident|)
  {
    forall a ensures AttributedTo(input.worktrees, a) == Some(repository) <==> NamedFor(input.worktrees, a, repository) {
      FirstSummary(input.worktrees, a, repository);
    }
    assert Attributed(input.worktrees, repository) == set a | a in Named(input.worktrees) && NamedFor(input.worktrees, a, repository);
    hide NamedFor, AttributedTo, Named, Attributed;
    assert LiveOn(db, worker, repository) <==> Assigned(db, worker, repository);
  }

  /** A registration writes the Worker's row, the statics it names, its own mirror rows and acknowledgements. */
  ghost predicate RegistersOnly(db: DB, next: DB, now: int, worker: Id, input: Report)
    requires Linked(db)
  {
    && next.workers == db.workers[worker := Worker(input.capacity, input.healthy, now, input.currentProtocol)]
    && next.repositories.Keys == db.repositories.Keys + input.statics.Keys
    && (forall r <- next.repositories :: next.repositories[r] == if r in db.repositories then db.repositories[r] else Repository(false, false))
    && (forall k <- db.mirrors :: k in next.mirrors && (k.0 != worker ==> next.mirrors[k] == db.mirrors[k]))
    && (forall k <- next.mirrors :: k in db.mirrors || (k.0 == worker && k.1 in input.statics))
    && (forall r <- input.statics :: (worker, r) in next.mirrors)
    && (forall k <- next.mirrors :: k.0 == worker ==>
          Reports(db, worker, input, k.1, if k in db.mirrors then Some(db.mirrors[k]) else None, next.mirrors[k],
                  |set a | a in Named(input.worktrees) && NamedFor(input.worktrees, a, k.1)|))
    && next.attempts.Keys == db.attempts.Keys
    && (forall a <- db.attempts ::
          next.attempts[a] == db.attempts[a].(acknowledged := db.attempts[a].acknowledged || Acknowledges(db, next, worker, input, a)))
    && next == db.(workers := next.workers, repositories := next.repositories, mirrors := next.mirrors, attempts := next.attempts)
  }

  /** The Worker has disposed of the Attempt's worktree, or reports it for a repository it now advertises. */
  predicate Acknowledges(db: DB, next: DB, worker: Id, input: Report, a: Id)
    requires Linked(db) && a in db.attempts
  {
    var repository := db.sessions[db.attempts[a].session].repository;
    || a in input.disposed
    || (db.attempts[a].worker == worker && db.attempts[a].state in {AttemptSucceeded, AttemptFailed, AttemptCancelled, AttemptLost}
        && NamedFor(input.worktrees, a, repository) && (worker, repository) in next.mirrors && next.mirrors[(worker, repository)].advertised)
  }

  lemma AcknowledgesIs(db: DB, next: DB, worker: Id, input: Report, a: Id)
    requires Linked(db) && a in db.attempts && next.mirrors == ReportedMirrors(db, worker, input)
    ensures AccountedFor(db, worker, input, a) <==> Acknowledges(db, next, worker, input, a)
  {
    hide Linked, ReportedMirrors, NamedFor, AttributedTo;
    var repository := RepositoryOf(db, a);
    FirstSummary(input.worktrees, a, repository);
    if AttributedTo(input.worktrees, a).Some? { AttributedIsNamed(input.worktrees, a); }
  }

  lemma OwnRows(db: DB, worker: Id, input: Report)
    requires Linked(db)
    ensures var mirrors := ReportedMirrors(db, worker, input);
      && (forall k <- db.mirrors :: k in mirrors && (k.0 != worker ==> mirrors[k] == db.mirrors[k]))
      && (forall k <- mirrors :: k in db.mirrors || (k.0 == worker && k.1 in input.statics))
      && (forall r <- input.statics :: (worker, r) in mirrors)
      && (forall k <- mirrors :: k.0 == worker ==>
            Reports(db, worker, input, k.1, if k in db.mirrors then Some(db.mirrors[k]) else None, mirrors[k],
                    |set a | a in Named(input.worktrees) && NamedFor(input.worktrees, a, k.1)|))
  {
    hide Linked, ReportedMirror, Reports, NamedFor, Named;
    var mirrors := ReportedMirrors(db, worker, input);
    forall k | k in mirrors && k.0 == worker
      ensures Reports(db, worker, input, k.1, if k in db.mirrors then Some(db.mirrors[k]) else None, mirrors[k],
                      |set a | a in Named(input.worktrees) && NamedFor(input.worktrees, a, k.1)|)
    {
      assert k == (worker, k.1);
      ReportsTheRow(db, worker, input, k.1);
    }
  }

  lemma RegisteredTables(db: DB, now: int, worker: Id, input: Report)
    requires Linked(db)
    ensures var next := Registered(db, now, worker, input);
      && next.workers == db.workers[worker := Worker(input.capacity, input.healthy, now, input.currentProtocol)]
      && next.repositories.Keys == db.repositories.Keys + input.statics.Keys
      && (forall r <- next.repositories :: next.repositories[r] == if r in db.repositories then db.repositories[r] else Repository(false, false))
      && next.mirrors == ReportedMirrors(db, worker, input)
      && next == db.(workers := next.workers, repositories := next.repositories, mirrors := next.mirrors, attempts := next.attempts)
  {
    hide Linked, ReportedMirrors, AccountedFor;
  }

  lemma AcknowledgedRows(db: DB, now: int, worker: Id, input: Report)
    requires Linked(db)
    ensures var next := Registered(db, now, worker, input);
      && next.attempts.Keys == db.attempts.Keys
      && forall a <- db.attempts ::
           next.attempts[a] == db.attempts[a].(acknowledged := db.attempts[a].acknowledged || Acknowledges(db, next, worker, input, a))
  {
    hide Linked, ReportedMirrors, AccountedFor, Acknowledges, WithStatics;
    var next := Registered(db, now, worker, input);
    forall a | a in db.attempts ensures AccountedFor(db, worker, input, a) <==> Acknowledges(db, next, worker, input, a) {
      AcknowledgesIs(db, next, worker, input, a);
    }
  }

  lemma RegistersTheWorker(db: DB, now: int, worker: Id, input: Report)
    requires Linked(db)
    ensures var o := RegisterWorker(db, now, worker, input);
      o.Done? ==> RegistersOnly(db, o.db, now, worker, input)
  {
    hide Linked, ReportedMirrors, Reports, NamedFor, Named, Acknowledges, Foreign, Registered;
    OwnRows(db, worker, input);
    RegisteredTables(db, now, worker, input);
    AcknowledgedRows(db, now, worker, input);
  }
}
