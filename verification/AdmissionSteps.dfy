/** Admitting a Run and replacing Work keep the invariant. */
module AdmissionSteps {
  import opened Common
  import opened Tables
  import opened Scan
  import opened Transitions
  import opened Invariant
  import opened LeaseSteps
  import opened ClaimSteps

  // ---------------------------------------------------------------- one new Session

  predicate ItemRoot(s: Session, t: Target) {
    s.predecessor.None? && s.source == t.source && s.repository == t.repository
  }

  /** Where a new Session may be put into a lineage. */
  ghost predicate PlaceFits(sessions: map<Id, Session>, t: Target, predecessor: Option<Id>) {
    && t.id !in sessions && 0 < t.stages
    && (predecessor.Some? ==>
          && predecessor.value in sessions
          && sessions[predecessor.value].state.Terminal()
          && sessions[predecessor.value].repository == t.repository
          && sessions[predecessor.value].source == t.source
          && forall id :: !Succeeds(sessions, id, predecessor.value))
    && (predecessor.None? && t.source.WorkItem? ==> forall id <- sessions :: !ItemRoot(sessions[id], t))
  }

  ghost predicate InsertFits(db: DB, run: Id, t: Target, predecessor: Option<Id>, worker: Option<Id>) {
    && PlaceFits(db.sessions, t, predecessor) && run in db.runs && db.runs[run].terminalAt.None?
    && (worker.Some? ==> SlotFree(db, run))
  }

  lemma InsertLinks(db: DB, run: Id, t: Target, predecessor: Option<Id>, now: int, worker: Option<Id>)
    requires Linked(db) && run in db.runs && PlaceFits(db.sessions, t, predecessor)
    ensures Linked(InsertTarget(db, run, t, predecessor, now, worker))
  {
    var next := InsertTarget(db, run, t, predecessor, now, worker);
    forall id, p | Succeeds(next.sessions, id, p) ensures p in next.sessions && next.sessions[p].row < next.sessions[id].row {
      if id != t.id { assert Succeeds(db.sessions, id, p); }
    }
    assert AttemptsLinked(next);
    assert RequestsLinked(next);
  }

  lemma FreshWorkOk(db: DB, run: Id, t: Target, predecessor: Option<Id>, now: int, worker: Option<Id>)
    requires Linked(db) && t.id !in db.sessions && 0 < t.stages
    ensures WorkOk(InsertTarget(db, run, t, predecessor, now, worker), t.id)
  {
    hide SessionsLinked, RequestsLinked;
    var next := InsertTarget(db, run, t, predecessor, now, worker);
    assert forall a :: !ActiveFor(next.attempts, a, t.id);
  }

  lemma InsertWorks(db: DB, run: Id, t: Target, predecessor: Option<Id>, now: int, worker: Option<Id>)
    requires Linked(db) && WorksOk(db) && t.id !in db.sessions && 0 < t.stages
    ensures WorksOk(InsertTarget(db, run, t, predecessor, now, worker))
  {
    hide WorkOk, Linked;
    var next := InsertTarget(db, run, t, predecessor, now, worker);
    forall id | id in next.sessions ensures WorkOk(next, id) {
      if id == t.id { FreshWorkOk(db, run, t, predecessor, now, worker); } else { OldWorkOk(db, next, id); }
    }
  }

  lemma OldWorkOk(db: DB, next: DB, id: Id)
    requires WorkOk(db, id) && next.attempts == db.attempts && id in next.sessions && next.sessions[id] == db.sessions[id]
    requires id in next.executions <==> id in db.executions
    requires id in db.executions ==> next.executions[id] == db.executions[id]
    ensures WorkOk(next, id)
  {
    hide SessionOk, ExecutionOk;
  }

  lemma InsertRuns(db: DB, run: Id, t: Target, predecessor: Option<Id>, now: int, worker: Option<Id>)
    requires RunsOk(db) && InsertFits(db, run, t, predecessor, worker)
    ensures RunsOk(InsertTarget(db, run, t, predecessor, now, worker))
    ensures forall r <- db.runs :: HasWork(db, r) || r == run ==> HasWork(InsertTarget(db, run, t, predecessor, now, worker), r)
    ensures |Slots(InsertTarget(db, run, t, predecessor, now, worker), run)| == |Slots(db, run)| + if worker.Some? then 1 else 0
  {
    var next := InsertTarget(db, run, t, predecessor, now, worker);
    assert next.sessions[t.id].run == run && !next.sessions[t.id].state.Terminal();
    forall r | r in next.runs ensures RunOk(next, r) && (HasWork(db, r) || r == run ==> HasWork(next, r)) {
      assert RunOk(db, r);
      if r == run { InsertSlots(db, run, t, predecessor, now, worker); } else { RunUntouched(db, next, r); }
    }
    InsertSlots(db, run, t, predecessor, now, worker);
  }

  lemma InsertSlots(db: DB, run: Id, t: Target, predecessor: Option<Id>, now: int, worker: Option<Id>)
    requires t.id !in db.sessions
    ensures |Slots(InsertTarget(db, run, t, predecessor, now, worker), run)| == |Slots(db, run)| + if worker.Some? then 1 else 0
  {
    var next := InsertTarget(db, run, t, predecessor, now, worker);
    assert Slots(next, run) == Slots(db, run) + if worker.Some? then {t.id} else {};
  }

  lemma InsertLineage(db: DB, run: Id, t: Target, predecessor: Option<Id>, now: int, worker: Option<Id>)
    requires Linked(db) && LineageOk(db) && PlaceFits(db.sessions, t, predecessor)
    ensures LineageOk(InsertTarget(db, run, t, predecessor, now, worker))
  {
    var next := InsertTarget(db, run, t, predecessor, now, worker);
    assert forall id, p :: Succeeds(next.sessions, id, p) && id != t.id ==> Succeeds(db.sessions, id, p);
    forall x, y | x in next.sessions && y in next.sessions && SameItemRoots(next.sessions[x], next.sessions[y]) ensures x == y {
      if x != t.id && y != t.id { assert SameItemRoots(db.sessions[x], db.sessions[y]); }
      else if x != y { assert ItemRoot(next.sessions[if x == t.id then y else x], t); }
    }
  }

  lemma InsertKeeps(db: DB, run: Id, t: Target, predecessor: Option<Id>, now: int, worker: Option<Id>)
    requires Core(db) && InsertFits(db, run, t, predecessor, worker)
    ensures Core(InsertTarget(db, run, t, predecessor, now, worker))
  {
    hide WorksOk, RunsOk, LineageOk, KeysUnique, HasWork, SlotFree;
    InsertLinks(db, run, t, predecessor, now, worker);
    InsertWorks(db, run, t, predecessor, now, worker);
    InsertRuns(db, run, t, predecessor, now, worker);
    InsertLineage(db, run, t, predecessor, now, worker);
    hide InsertTarget, InsertFits, Linked, ClaimsOk, RequestsOk;
    InsertRequests(db, run, t, predecessor, now, worker);
  }

  lemma InsertRequests(db: DB, run: Id, t: Target, predecessor: Option<Id>, now: int, worker: Option<Id>)
    requires Linked(db) && ClaimsOk(db) && RequestsOk(db) && KeysUnique(db) && t.id !in db.sessions
    ensures ClaimsOk(InsertTarget(db, run, t, predecessor, now, worker))
    ensures RequestsOk(InsertTarget(db, run, t, predecessor, now, worker))
    ensures KeysUnique(InsertTarget(db, run, t, predecessor, now, worker))
  {
    hide ClaimsOk, RequestsOk, KeysUnique, RequestsLinked, SessionsLinked, AttemptsLinked, FreshSession;
    RequestsKept(db, InsertTarget(db, run, t, predecessor, now, worker));
  }

  lemma RequestsKept(db: DB, next: DB)
    requires RequestsLinked(db) && ClaimsOk(db) && RequestsOk(db) && KeysUnique(db)
    requires next.attempts == db.attempts && next.claims == db.claims && next.updateRequests == db.updateRequests
    requires next.runs == db.runs && db.sessions.Keys <= next.sessions.Keys
    requires forall id <- db.sessions :: next.sessions[id] == db.sessions[id]
    ensures ClaimsOk(next) && RequestsOk(next) && KeysUnique(next)
  {
  }

  // ---------------------------------------------------------------- lineages

  /** Every Work has a newest descendant: one of the same source that nothing has replaced. */
  lemma {:induction false} TailExists(db: DB, id: Id) returns (tail: Id)
    requires Linked(db) && LineageOk(db) && id in db.sessions
    ensures tail in db.sessions && !Replaced(db, tail)
    ensures db.sessions[tail].repository == db.sessions[id].repository && db.sessions[tail].source == db.sessions[id].source
    decreases db.rows - db.sessions[id].row
  {
    if Replaced(db, id) {
      var child :| child in db.sessions && db.sessions[child].predecessor == Some(id);
      assert Succeeds(db.sessions, child, id);
      tail := TailExists(db, child);
    } else {
      tail := id;
    }
  }

  /** A first build of the item leaves something for the selection to find. */
  lemma ItemRootIsFound(db: DB, flavour: Flavour, procedure: Id, t: Target, id: Id)
    requires Linked(db) && LineageOk(db) && flavour.BuildRun? && id in db.sessions && ItemRoot(db.sessions[id], t)
    ensures LiveMatch(db, flavour, procedure, t) || TerminalTails(db, flavour, procedure, t) != {}
  {
    var tail := TailExists(db, id);
    assert Matches(db, flavour, procedure, t, tail);
    if db.sessions[tail].state.Terminal() { assert tail in TerminalTails(db, flavour, procedure, t); }
  }

  lemma NothingSucceeds(db: DB, work: Id)
    requires !Replaced(db, work)
    ensures forall id :: !Succeeds(db.sessions, id, work)
  {
  }

  /** What selecting a predecessor for a target establishes. */
  lemma ChosenPlaceFits(db: DB, flavour: Flavour, procedure: Id, t: Target)
    requires Linked(db) && LineageOk(db) && t.id !in db.sessions && 0 < t.stages
    requires t.source.WorkItem? == flavour.BuildRun? && Predecessor(db, flavour, procedure, t).Choose?
    ensures PlaceFits(db.sessions, t, Predecessor(db, flavour, procedure, t).predecessor)
  {
    var p := Predecessor(db, flavour, procedure, t).predecessor;
    if p.Some? {
      assert p.value in TerminalTails(db, flavour, procedure, t);
      NothingSucceeds(db, p.value);
    } else if t.source.WorkItem? {
      forall id | id in db.sessions && ItemRoot(db.sessions[id], t) ensures LiveMatch(db, flavour, procedure, t) || TerminalTails(db, flavour, procedure, t) != {} {
        ItemRootIsFound(db, flavour, procedure, t, id);
      }
    }
  }

  // ---------------------------------------------------------------- the targets of one admission

  predicate NewFrom(origin: DB, s: Session, flavour: Flavour, r: NewRun, t: Target)
    requires Linked(origin)
  {
    s.run == r.id && s.repository == t.repository && s.source == t.source
    && Predecessor(origin, flavour, r.procedure, t) == Choose(s.predecessor)
  }

  /** The tables after some targets are in: the old Sessions, and one new Session per target. */
  ghost predicate Admitting(origin: DB, db: DB, flavour: Flavour, r: NewRun, targets: seq<Target>, n: nat) {
    && Linked(origin) && n <= |targets| && r.id in db.runs && db.runs[r.id].terminalAt.None?
    && (forall id <- origin.sessions :: id in db.sessions && db.sessions[id] == origin.sessions[id])
    && (forall i :: 0 <= i < n ==> targets[i].id in db.sessions && NewFrom(origin, db.sessions[targets[i].id], flavour, r, targets[i]))
    && (forall id <- db.sessions :: id in origin.sessions || exists i :: 0 <= i < n && targets[i].id == id)
  }

  ghost predicate TargetsOk(origin: DB, flavour: Flavour, r: NewRun, targets: seq<Target>)
    requires Linked(origin)
  {
    && r.id !in origin.runs
    && (forall t <- targets :: 0 < t.stages && t.source.WorkItem? == flavour.BuildRun? && t.id !in origin.sessions)
    && Chosen(origin, flavour, r.procedure, targets)
    && (forall i, j :: 0 <= i < j < |targets| ==>
          targets[i].id != targets[j].id && (targets[i].repository != targets[j].repository || targets[i].source != targets[j].source))
  }

  /** The predecessor chosen against the tables before the admission still fits after earlier targets. */
  lemma NextPlaceFits(origin: DB, db: DB, flavour: Flavour, r: NewRun, targets: seq<Target>, n: nat)
    requires Linked(origin) && LineageOk(origin) && n < |targets| && TargetsOk(origin, flavour, r, targets)
    requires Admitting(origin, db, flavour, r, targets, n)
    ensures PlaceFits(db.sessions, targets[n], Predecessor(origin, flavour, r.procedure, targets[n]).predecessor)
  {
    var t := targets[n];
    var p := Predecessor(origin, flavour, r.procedure, t).predecessor;
    ChosenPlaceFits(origin, flavour, r.procedure, t);
    if p.Some? {
      forall id ensures !Succeeds(db.sessions, id, p.value) {
        if id in origin.sessions {
          assert !Succeeds(origin.sessions, id, p.value);
        } else if id in db.sessions {
          var i :| 0 <= i < n && targets[i].id == id;
          ChosenPlaceFits(origin, flavour, r.procedure, targets[i]);
        }
      }
    }
  }

  lemma FreshIsNew(origin: DB, flavour: Flavour, r: NewRun, t: Target, row: nat, now: int, worker: Option<Id>)
    requires Linked(origin) && Predecessor(origin, flavour, r.procedure, t).Choose?
    ensures NewFrom(origin, FreshSession(r.id, t, Predecessor(origin, flavour, r.procedure, t).predecessor, row, now, worker), flavour, r, t)
  {
    hide Predecessor, Linked;
  }

  lemma AdmittingNext(origin: DB, db: DB, flavour: Flavour, r: NewRun, targets: seq<Target>, n: nat, now: int, worker: Option<Id>)
    requires Linked(origin) && n < |targets| && TargetsOk(origin, flavour, r, targets)
    requires Admitting(origin, db, flavour, r, targets, n)
    ensures Admitting(origin, InsertTarget(db, r.id, targets[n], Predecessor(origin, flavour, r.procedure, targets[n]).predecessor, now, worker),
                      flavour, r, targets, n + 1)
  {
    hide Predecessor, Linked, NewFrom, FreshSession;
    var p := Predecessor(origin, flavour, r.procedure, targets[n]).predecessor;
    var next := InsertTarget(db, r.id, targets[n], p, now, worker);
    FreshIsNew(origin, flavour, r, targets[n], db.rows, now, worker);
    assert next.sessions.Keys == db.sessions.Keys + {targets[n].id};
    forall id | id in next.sessions ensures id in origin.sessions || exists i :: 0 <= i < n + 1 && targets[i].id == id {
      if id != targets[n].id && id !in origin.sessions { var i :| 0 <= i < n && targets[i].id == id; }
    }
    forall i | 0 <= i < n + 1
      ensures targets[i].id in next.sessions && NewFrom(origin, next.sessions[targets[i].id], flavour, r, targets[i])
    {
      if i < n { assert targets[i].id != targets[n].id; }
    }
  }

  /** The Run of the admission holds as many slots as the loop has counted, and never more than its limit. */
  ghost predicate AdmissionOk(origin: DB, db: DB, flavour: Flavour, r: NewRun, targets: seq<Target>, n: nat, used: nat) {
    && Core(db) && Admitting(origin, db, flavour, r, targets, n)
    && used == |Slots(db, r.id)| <= r.limit == db.runs[r.id].limit
    && (0 < n ==> HasWork(db, r.id))
    && forall o <- db.runs :: o == r.id || HasWork(db, o)
  }

  lemma AdmissionNext(origin: DB, db: DB, flavour: Flavour, r: NewRun, targets: seq<Target>, n: nat, used: nat, now: int,
                      p: Option<Id>, worker: Option<Id>)
    requires Linked(origin) && LineageOk(origin) && n < |targets| && TargetsOk(origin, flavour, r, targets)
    requires AdmissionOk(origin, db, flavour, r, targets, n, used)
    requires Predecessor(origin, flavour, r.procedure, targets[n]) == Choose(p) && (worker.Some? ==> used < r.limit)
    ensures AdmissionOk(origin, InsertTarget(db, r.id, targets[n], p, now, worker), flavour, r, targets, n + 1,
                        if worker.Some? then used + 1 else used)
  {
    hide Core, Admitting, Linked, LineageOk, PlaceFits, Predecessor, HasWork, TargetsOk, InsertTarget, Slots;
    InsertedRuns(db, r.id, targets[n], p, now, worker);
    NextPlaceFits(origin, db, flavour, r, targets, n);
    AdmittingRun(origin, db, flavour, r, targets, n);
    InsertKeeps(db, r.id, targets[n], p, now, worker);
    InsertRunsOfCore(db, r.id, targets[n], p, now, worker);
    AdmittingNext(origin, db, flavour, r, targets, n, now, worker);
  }

  lemma InsertedRuns(db: DB, run: Id, t: Target, predecessor: Option<Id>, now: int, worker: Option<Id>)
    ensures InsertTarget(db, run, t, predecessor, now, worker).runs == db.runs
  {
  }

  lemma AdmittingRun(origin: DB, db: DB, flavour: Flavour, r: NewRun, targets: seq<Target>, n: nat)
    requires Linked(origin) && n <= |targets| && Admitting(origin, db, flavour, r, targets, n)
    ensures r.id in db.runs && db.runs[r.id].terminalAt.None?
  {
  }

  lemma InsertRunsOfCore(db: DB, run: Id, t: Target, predecessor: Option<Id>, now: int, worker: Option<Id>)
    requires Core(db) && InsertFits(db, run, t, predecessor, worker)
    ensures forall r <- db.runs :: HasWork(db, r) || r == run ==> HasWork(InsertTarget(db, run, t, predecessor, now, worker), r)
    ensures |Slots(InsertTarget(db, run, t, predecessor, now, worker), run)| == |Slots(db, run)| + if worker.Some? then 1 else 0
  {
    hide RunOk, LineageOk, Linked, WorksOk, InsertTarget, Slots;
    InsertRuns(db, run, t, predecessor, now, worker);
  }

  lemma {:induction false} AdmitTargetsKeep(db: DB, origin: DB, flavour: Flavour, r: NewRun, targets: seq<Target>, now: int, n: nat)
    requires Linked(origin) && LineageOk(origin) && n <= |targets| && TargetsOk(origin, flavour, r, targets)
    requires Chosen(origin, flavour, r.procedure, targets) && AdmissionOk(origin, db, flavour, r, targets, 0, 0)
    ensures var (next, used) := AdmitTargets(db, origin, flavour, r, targets, now, n);
      AdmissionOk(origin, next, flavour, r, targets, n, used)
  {
    hide AdmissionOk, TargetsOk, Linked, LineageOk, Predecessor, InsertTarget;
    if n != 0 {
      AdmitTargetsKeep(db, origin, flavour, r, targets, now, n - 1);
      var (before, used) := AdmitTargets(db, origin, flavour, r, targets, now, n - 1);
      var t := targets[n - 1];
      AdmissionNext(origin, before, flavour, r, targets, n - 1, used, now, Predecessor(origin, flavour, r.procedure, t).predecessor,
                    if r.ready && used < r.limit then t.route else None);
    }
  }

  // ---------------------------------------------------------------- the admission

  lemma WithRunKeeps(db: DB, r: NewRun, now: int)
    requires Inv(db) && r.id !in db.runs && !KeyTaken(db, r.requestKey) && 1 <= r.limit
    ensures Core(WithRun(db, r, now))
    ensures Slots(WithRun(db, r, now), r.id) == {}
    ensures forall o <- db.runs :: HasWork(WithRun(db, r, now), o)
  {
    hide RunsOk, HasWork, WorksOk, LineageOk, Slots, Linked, ClaimsOk, RequestsOk, KeysUnique, KeyTaken;
    NewRunRuns(db, r, now);
    SameWorkKept(db, WithRun(db, r, now));
    NewRunLinks(db, r, now);
    NewRunKey(db, r, now);
  }

  lemma NewRunKey(db: DB, r: NewRun, now: int)
    requires KeysUnique(db) && !KeyTaken(db, r.requestKey)
    ensures KeysUnique(WithRun(db, r, now))
  {
  }

  lemma NewRunLinks(db: DB, r: NewRun, now: int)
    requires Linked(db) && LineageOk(db) && ClaimsOk(db) && RequestsOk(db)
    ensures Linked(WithRun(db, r, now)) && LineageOk(WithRun(db, r, now)) && ClaimsOk(WithRun(db, r, now)) && RequestsOk(WithRun(db, r, now))
  {
  }

  lemma NewRunRuns(db: DB, r: NewRun, now: int)
    requires Linked(db) && RunsOk(db) && r.id !in db.runs && 1 <= r.limit
    ensures RunsOk(WithRun(db, r, now)) && Slots(WithRun(db, r, now), r.id) == {}
    ensures forall o <- db.runs :: HasWork(db, o) ==> HasWork(WithRun(db, r, now), o)
  {
    var next := WithRun(db, r, now);
    assert Slots(next, r.id) == {};
    forall o | o in next.runs ensures RunOk(next, o) && HasWork(next, o) == HasWork(db, o) {
      if o != r.id { assert RunOk(db, o); }
      RunUntouched(db, next, o);
    }
  }

  lemma AdmissionStarts(db: DB, start: DB, flavour: Flavour, r: NewRun, targets: seq<Target>, now: int, acquired: set<(Id, Id)>)
    requires Inv(db) && Linked(db) && r.id !in db.runs && !KeyTaken(db, r.requestKey) && 1 <= r.limit
    requires start == Acquire(WithRun(db, r, now), acquired)
    ensures AdmissionOk(db, start, flavour, r, targets, 0, 0)
  {
    hide Inv, Core, KeyTaken, Linked, HasWork;
    WithRunKeeps(db, r, now);
    AsideCore(WithRun(db, r, now), start);
    assert Slots(start, r.id) == {};
    forall o | o in db.runs ensures HasWork(start, o) {
      assert HasWork(WithRun(db, r, now), o);
      RunUntouched(WithRun(db, r, now), start, o);
    }
  }

  lemma TargetsErrorMeans(db: DB, flavour: Flavour, r: NewRun, targets: seq<Target>)
    requires Linked(db) && TargetsError(db, flavour, r, targets).None?
    ensures TargetsOk(db, flavour, r, targets) && targets != []
    ensures forall t <- targets :: RepositoryOpen(db, t.repository)
  {
  }

  lemma AdmitKeeps(db: DB, now: int, flavour: Flavour, r: NewRun, targets: seq<Target>, acquired: set<(Id, Id)>)
    requires Inv(db) && Linked(db) && KeysUnique(db)
    ensures Inv(After(db, Admit(db, now, flavour, r, targets, acquired)))
  {
    var o := Admit(db, now, flavour, r, targets, acquired);
    if o.Done? && o.db != db {
      TargetsErrorMeans(db, flavour, r, targets);
      assert LineageOk(db);
      hide Core, Linked, LineageOk, TargetsOk, Predecessor, AdmitTargets, HasWork, KeyTaken;
      var start := Acquire(WithRun(db, r, now), acquired);
      AdmissionStarts(db, start, flavour, r, targets, now, acquired);
      AdmitTargetsKeep(start, db, flavour, r, targets, now, |targets|);
    }
  }

  // ---------------------------------------------------------------- replacing Work

  lemma ReplacementFits(db: DB, start: DB, work: Id, r: NewRun, newWork: Id, route: Option<Id>, now: int, acquired: set<(Id, Id)>)
    requires Inv(db) && work in db.sessions && newWork !in db.sessions && r.id !in db.runs
    requires db.sessions[work].state.Terminal() && !Replaced(db, work)
    requires 1 <= r.limit && start == Acquire(WithRun(db, r, now), acquired)
    ensures InsertFits(start, r.id, Target(newWork, db.sessions[work].repository, db.sessions[work].source,
                                           |db.sessions[work].stages|, true, route), Some(work), route)
  {
    assert WorkOk(db, work);
    assert Slots(start, r.id) == {};
    NothingSucceeds(db, work);
  }

  lemma ReplacementKeeps(db: DB, start: DB, r: NewRun, t: Target, work: Id, route: Option<Id>, now: int)
    requires AdmissionOk(db, start, TaskRun, r, [], 0, 0) && InsertFits(start, r.id, t, Some(work), route)
    ensures Inv(InsertTarget(start, r.id, t, Some(work), now, route))
  {
    hide Admitting, Core, InsertFits, InsertTarget, HasWork;
    InsertedRuns(start, r.id, t, Some(work), now, route);
    InsertKeeps(start, r.id, t, Some(work), now, route);
    InsertRunsOfCore(start, r.id, t, Some(work), now, route);
  }

  lemma LimitIsPositive(db: DB, run: Id)
    requires Inv(db) && run in db.runs
    ensures 1 <= db.runs[run].limit
  {
    assert RunOk(db, run);
  }

  lemma ReplaceWorkKeeps(db: DB, now: int, requestKey: string, digest: string, work: Id, run: Id, newWork: Id,
                         eligible: bool, fits: bool, route: Option<Id>, acquired: set<(Id, Id)>)
    requires Inv(db) && Linked(db) && KeysUnique(db)
    ensures Inv(After(db, ReplaceWork(db, now, requestKey, digest, work, run, newWork, eligible, fits, route, acquired)))
  {
    hide Inv, KeysUnique, KeyTaken, InsertTarget, InsertFits, AdmissionOk, MatchingLive;
    var o := ReplaceWork(db, now, requestKey, digest, work, run, newWork, eligible, fits, route, acquired);
    if o.Done? && o.db != db {
      var s := db.sessions[work];
      var origin := db.runs[s.run];
      hide Linked, Replaced;
      LimitIsPositive(db, s.run);
      var r := NewRun(run, requestKey, digest, origin.procedure, origin.limit, origin.contract, true);
      var start := Acquire(WithRun(db, r, now), acquired);
      AdmissionStarts(db, start, TaskRun, r, [], now, acquired);
      ReplacementFits(db, start, work, r, newWork, route, now, acquired);
      ReplacementKeeps(db, start, r, Target(newWork, s.repository, s.source, |s.stages|, fits, route), work, route, now);
    }
  }
}
