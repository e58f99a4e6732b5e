/** Which Work a claim takes, queues and moves, said in the columns of the tables. */
module Fairness {
  import opened Common
  import opened Tables
  import opened Scan
  import opened Transitions
  import opened Invariant
  import opened LeaseSteps
  import opened ClaimSteps

  // ---------------------------------------------------------------- what is counted

  /** The Attempts that the Sessions of a Run have used so far. */
  function Spent(db: DB, run: Id): set<Id> {
    set a | a in db.attempts && db.attempts[a].session in db.sessions && db.sessions[db.attempts[a].session].run == run
  }

  /** The Sessions of a Run that are being prepared or run. */
  function Busy(db: DB, run: Id): set<Id> {
    set x | x in db.sessions && db.sessions[x].run == run && (db.sessions[x].state == WorkPreparing || db.sessions[x].state == WorkRunning)
  }

  /** The Sessions of a Run that take a slot. */
  function Taking(db: DB, run: Id): set<Id> {
    set x | x in db.sessions && db.sessions[x].run == run &&
      (db.sessions[x].state == WorkQueued || db.sessions[x].state == WorkPreparing || db.sessions[x].state == WorkRunning)
  }

  /** The Attempts of the Worker that keep a worktree of the repository. */
  function Keeping(db: DB, worker: Id, repository: Id): set<Id> {
    set a | a in db.attempts && db.attempts[a].worker == worker && db.attempts[a].session in db.sessions
      && db.sessions[db.attempts[a].session].repository == repository
      && (db.attempts[a].state == AttemptPreparing || db.attempts[a].state == AttemptRunning || !db.attempts[a].acknowledged)
  }

  /** The repository is not managed centrally, or it is enabled. */
  predicate Open(db: DB, repository: Id) {
    repository in db.repositories && (db.repositories[repository].managed ==> db.repositories[repository].enabled)
  }

  lemma CountsAgree(db: DB, run: Id, worker: Id, repository: Id)
    ensures Spent(db, run) == Used(db, run) && Busy(db, run) == Owned(db, run) && Taking(db, run) == Slots(db, run)
    ensures Keeping(db, worker, repository) == Held(db, worker, repository)
    ensures Open(db, repository) <==> RepositoryOpen(db, repository)
  {
  }

  // ---------------------------------------------------------------- taking

  /** The Worker may take this execution now. */
  predicate MayTake(db: DB, worker: Id, capable: set<Id>, id: Id)
    requires Linked(db)
  {
    && id in db.executions && db.executions[id].worker == worker && db.executions[id].state == ExecQueued && id in capable
    && var run, repository := db.sessions[id].run, db.sessions[id].repository;
    && |Busy(db, run)| < db.runs[run].limit
    && Open(db, repository) && (worker, repository) in db.mirrors && db.mirrors[(worker, repository)].advertised
    && db.mirrors[(worker, repository)].retained + |Keeping(db, worker, repository)| < 10
  }

  /** The order of the choice: fewer Attempts used by the Run, then the Run admitted earlier, then the row created
      earlier, then the smaller identifier. */
  predicate Precedes(used: nat, usedOther: nat, admitted: int, admittedOther: int, created: int, createdOther: int, x: Id, y: Id) {
    && used <= usedOther
    && (used == usedOther ==> admitted <= admittedOther)
    && (used == usedOther && admitted == admittedOther ==> created <= createdOther)
    && (used == usedOther && admitted == admittedOther && created == createdOther ==> x < y)
  }

  predicate TakenBefore(db: DB, x: Id, y: Id)
    requires Linked(db) && x in db.executions && y in db.executions
  {
    var rx, ry := db.sessions[x].run, db.sessions[y].run;
    Precedes(|Spent(db, rx)|, |Spent(db, ry)|, db.runs[rx].admittedAt, db.runs[ry].admittedAt,
             db.executions[x].createdAt, db.executions[y].createdAt, x, y)
  }

  lemma MayTakeIsClaimable(db: DB, worker: Id, capable: set<Id>, id: Id)
    requires Linked(db) && id in db.executions
    ensures MayTake(db, worker, capable, id) <==> ExecutionKey(db, id) in ClaimableKeys(db, worker, capable)
  {
    CountsAgree(db, db.sessions[id].run, worker, db.sessions[id].repository);
    hide Spent, Busy, Taking, Keeping, Open, Used, Owned, Slots, Held, RepositoryOpen;
    forall x | x in db.executions && ExecutionKey(db, x) == ExecutionKey(db, id) ensures x == id {}
  }

  lemma KeyOrders(db: DB, x: Id, y: Id)
    requires Linked(db) && x in db.executions && y in db.executions && Before(ExecutionKey(db, x), ExecutionKey(db, y))
    ensures TakenBefore(db, x, y)
  {
    CountsAgree(db, db.sessions[x].run, 0, 0);
    CountsAgree(db, db.sessions[y].run, 0, 0);
    hide Spent, Used, Busy, Taking, Keeping, Open, Owned, Slots, Held, RepositoryOpen;
  }

  /** The choice takes what may be taken and comes before everything else that may be taken. */
  ghost predicate TakesFairly(db: DB, worker: Id, capable: set<Id>, x: Id)
    requires Linked(db)
  {
    MayTake(db, worker, capable, x) && forall y <- db.executions :: y != x && MayTake(db, worker, capable, y) ==> TakenBefore(db, x, y)
  }

  lemma FirstIsFair(db: DB, worker: Id, capable: set<Id>)
    requires Linked(db) && ClaimableKeys(db, worker, capable) != {}
    ensures TakesFairly(db, worker, capable, First(ClaimableKeys(db, worker, capable)).id)
  {
    var keys := ClaimableKeys(db, worker, capable);
    var k := First(keys);
    hide MayTake, ClaimableKeys, TakenBefore, ExecutionKey, Linked;
    ClaimableKeyIs(db, worker, capable, k);
    MayTakeIsClaimable(db, worker, capable, k.id);
    forall y | y in db.executions && y != k.id && MayTake(db, worker, capable, y) ensures TakenBefore(db, k.id, y) {
      MayTakeIsClaimable(db, worker, capable, y);
      KeyHasId(db, y);
      KeyOrders(db, k.id, y);
    }
  }

  lemma KeyHasId(db: DB, id: Id)
    requires Linked(db) && id in db.executions
    ensures ExecutionKey(db, id).id == id
  {
  }

  /** A new grant: among the tables prepared for the choice the Work taken may be taken and precedes all other Work
      that may be taken; a claim that finds nothing had nothing it might take. */
  lemma ChoiceIsFair(db: DB, now: int, worker: Id, request: string, token: Token, attempt: Id, capable: set<Id>)
    requires Linked(db)
    ensures var o := ChooseWork(db, now, worker, request, token, attempt, capable);
      o.Done? ==>
        if o.reply.Claimed? then
          && o.reply.attempt == attempt && attempt !in db.attempts
          && exists x :: TakesFairly(db, worker, capable, x) && TakesRows(db, o.db, now, worker, request, token, attempt, x)
        else
          && o.reply == NoClaim && Remembers(db, o.db, now, worker, request, token)
          && forall y <- db.executions :: !MayTake(db, worker, capable, y)
  {
    hide MayTake, ClaimableKeys, ExecutionKey, TakesFairly, Assign, TakesRows;
    var keys := ClaimableKeys(db, worker, capable);
    if keys != {} {
      FirstIsFair(db, worker, capable);
      ClaimableKeyIs(db, worker, capable, First(keys));
      AssignsRows(db, now, worker, request, token, First(keys).id, attempt);
    } else {
      forall y | y in db.executions ensures !MayTake(db, worker, capable, y) { MayTakeIsClaimable(db, worker, capable, y); }
    }
    hide Linked;
  }

  lemma AssignsRows(db: DB, now: int, worker: Id, request: string, token: Token, work: Id, attempt: Id)
    requires Linked(db) && work in db.executions
    ensures TakesRows(db, Assign(db, now, worker, request, token, work, attempt), now, worker, request, token, attempt, work)
  {
    var run := db.sessions[work].run;
    assert db.runs[run := db.runs[run].(terminalAt := EndOf(db, db.sessions[work]))] == db.runs;
  }

  // ---------------------------------------------------------------- queueing blocked Work

  /** The blocked Session can be queued: its repository is open, its Run has a free slot, and it routes here. */
  predicate MayQueue(db: DB, routed: set<Id>, id: Id)
    requires Linked(db)
  {
    && id in db.sessions && db.sessions[id].state == WorkBlocked && id in routed
    && Open(db, db.sessions[id].repository)
    && |Taking(db, db.sessions[id].run)| < db.runs[db.sessions[id].run].limit
  }

  predicate QueuedBefore(db: DB, x: Id, y: Id)
    requires Linked(db) && x in db.sessions && y in db.sessions
  {
    var rx, ry := db.sessions[x].run, db.sessions[y].run;
    Precedes(|Spent(db, rx)|, |Spent(db, ry)|, db.runs[rx].admittedAt, db.runs[ry].admittedAt,
             db.sessions[x].admittedAt, db.sessions[y].admittedAt, x, y)
  }

  lemma MayQueueIsRouted(db: DB, routed: set<Id>, id: Id)
    requires Linked(db) && id in db.sessions
    ensures MayQueue(db, routed, id) <==> SessionKey(db, id) in Routed(BlockedKeys(db), routed)
    ensures SessionKey(db, id).id == id
  {
    CountsAgree(db, db.sessions[id].run, 0, db.sessions[id].repository);
    hide Spent, Busy, Taking, Keeping, Open, Used, Owned, Slots, Held, RepositoryOpen;
    forall x | x in db.sessions && SessionKey(db, x) == SessionKey(db, id) ensures x == id {}
  }

  lemma SessionKeyOrders(db: DB, x: Id, y: Id)
    requires Linked(db) && x in db.sessions && y in db.sessions && Before(SessionKey(db, x), SessionKey(db, y))
    ensures QueuedBefore(db, x, y)
  {
    CountsAgree(db, db.sessions[x].run, 0, 0);
    CountsAgree(db, db.sessions[y].run, 0, 0);
    hide Spent, Used, Busy, Taking, Keeping, Open, Owned, Slots, Held, RepositoryOpen;
  }

  /** The Session is queued for the Worker, with its execution, and nothing else changes. */
  predicate QueuesOnly(db: DB, next: DB, x: Id, worker: Id, now: int)
    requires x in db.sessions
  {
    && next.sessions == db.sessions[x := db.sessions[x].(state := WorkQueued, worker := Some(worker), owner := OwnerNone)]
    && x in next.executions
    && next.executions == db.executions[x := next.executions[x]]
    && next.executions[x].worker == worker && next.executions[x].state == ExecQueued && !next.executions[x].cancel
    && next.executions[x].createdAt == (if x in db.executions then db.executions[x].createdAt else now)
    && next == db.(sessions := next.sessions, executions := next.executions)
  }

  /** The Session queued comes first among all that can be queued; without one nothing changes. */
  ghost predicate QueuesFirst(db: DB, next: DB, now: int, worker: Id, routed: set<Id>)
    requires Linked(db)
  {
    || (next == db && forall y <- db.sessions :: !MayQueue(db, routed, y))
    || (exists x <- db.sessions ::
          && MayQueue(db, routed, x) && QueuesOnly(db, next, x, worker, now)
          && forall y <- db.sessions :: y != x && MayQueue(db, routed, y) ==> QueuedBefore(db, x, y))
  }

  lemma QueuesFairly(db: DB, now: int, worker: Id, routed: set<Id>)
    requires Linked(db)
    ensures QueuesFirst(db, Materialise(db, now, worker, routed), now, worker, routed)
  {
    hide MayQueue, QueuedBefore, BlockedKeys, SessionKey;
    var found := Routed(BlockedKeys(db), routed);
    forall y | y in db.sessions ensures MayQueue(db, routed, y) <==> SessionKey(db, y) in found { MayQueueIsRouted(db, routed, y); }
    if found != {} {
      var k := First(found);
      BlockedKeyIs(db, k);
      forall y | y in db.sessions && y != k.id && MayQueue(db, routed, y) ensures QueuedBefore(db, k.id, y) {
        MayQueueIsRouted(db, routed, y);
        SessionKeyOrders(db, k.id, y);
      }
      MaterialisesOnly(db, now, worker, routed);
    }
  }

  lemma MaterialisesOnly(db: DB, now: int, worker: Id, routed: set<Id>)
    requires Linked(db) && Routed(BlockedKeys(db), routed) != {}
    ensures var x := First(Routed(BlockedKeys(db), routed)).id;
      x in db.sessions && QueuesOnly(db, Materialise(db, now, worker, routed), x, worker, now)
  {
    BlockedKeyIs(db, First(Routed(BlockedKeys(db), routed)));
    hide BlockedKeys;
  }

  // ---------------------------------------------------------------- moving queued Work

  /** The queued Session waits on another Worker and now routes only here. */
  predicate MayMove(db: DB, worker: Id, routed: set<Id>, id: Id) {
    && id in db.sessions && db.sessions[id].state == WorkQueued && id in routed
    && id in db.executions && db.executions[id].state == ExecQueued && db.executions[id].worker != worker
  }

  /** Nothing but the Worker of the Session and of its execution changes. */
  predicate MovesOnly(db: DB, next: DB, x: Id, worker: Id)
    requires x in db.sessions && x in db.executions
  {
    next == db.(sessions := db.sessions[x := db.sessions[x].(worker := Some(worker))],
                executions := db.executions[x := db.executions[x].(worker := worker)])
  }

  /** The Session moved was admitted first among all that can be moved; without one nothing changes. */
  ghost predicate MovesFirst(db: DB, next: DB, worker: Id, routed: set<Id>) {
    || (next == db && forall y <- db.sessions :: !MayMove(db, worker, routed, y))
    || (exists x <- db.sessions ::
          && MayMove(db, worker, routed, x) && MovesOnly(db, next, x, worker)
          && forall y <- db.sessions :: y != x && MayMove(db, worker, routed, y) ==>
               db.sessions[x].admittedAt < db.sessions[y].admittedAt || (db.sessions[x].admittedAt == db.sessions[y].admittedAt && x < y))
  }

  lemma MayMoveIsRouted(db: DB, worker: Id, routed: set<Id>, k: Key)
    ensures k in Routed(QueuedElsewhere(db, worker), routed) <==>
      MayMove(db, worker, routed, k.id) && k == Key(0, 0, db.sessions[k.id].admittedAt, k.id)
  {
  }

  lemma MovesOne(db: DB, worker: Id, routed: set<Id>)
    requires Linked(db)
    ensures var found := Routed(QueuedElsewhere(db, worker), routed);
      if found == {} then Reroute(db, worker, routed) == db
      else
        var x := First(found).id;
        x in db.sessions && x in db.executions && MovesOnly(db, Reroute(db, worker, routed), x, worker)
  {
    hide First, QueuedElsewhere, Routed, MayMove, Before, MovesOnly;
    var found := Routed(QueuedElsewhere(db, worker), routed);
    if found != {} {
      var x := First(found).id;
      MayMoveIsRouted(db, worker, routed, First(found));
      MayMoveExists(db, worker, routed, x);
      MovedRows(db, x, worker);
    }
  }

  lemma MayMoveExists(db: DB, worker: Id, routed: set<Id>, id: Id)
    requires Linked(db) && MayMove(db, worker, routed, id)
    ensures id in db.sessions && id in db.executions && db.sessions[id].run in db.runs
  {
  }

  lemma MovedRows(db: DB, x: Id, worker: Id)
    requires x in db.sessions && x in db.executions && db.sessions[x].run in db.runs
    ensures var s := db.sessions[x];
      MovesOnly(db, Commit(db, None, x, s.(worker := Some(worker)), Some(db.executions[x].(worker := worker)), EndOf(db, s)), x, worker)
  {
    var run := db.sessions[x].run;
    assert db.runs[run := db.runs[run].(terminalAt := EndOf(db, db.sessions[x]))] == db.runs;
  }

  lemma MovesFairly(db: DB, worker: Id, routed: set<Id>)
    requires Linked(db)
    ensures MovesFirst(db, Reroute(db, worker, routed), worker, routed)
  {
    hide First, QueuedElsewhere, Routed, MayMove, Linked, MovesOnly, Reroute;
    MovesOne(db, worker, routed);
    var found := Routed(QueuedElsewhere(db, worker), routed);
    forall y | y in db.sessions && MayMove(db, worker, routed, y) ensures Key(0, 0, db.sessions[y].admittedAt, y) in found {
      MayMoveIsRouted(db, worker, routed, Key(0, 0, db.sessions[y].admittedAt, y));
    }
    if found != {} {
      var k := First(found);
      MayMoveIsRouted(db, worker, routed, k);
      forall y | y in db.sessions && y != k.id && MayMove(db, worker, routed, y)
        ensures db.sessions[k.id].admittedAt < db.sessions[y].admittedAt || (db.sessions[k.id].admittedAt == db.sessions[y].admittedAt && k.id < y)
      {
        assert Key(0, 0, db.sessions[y].admittedAt, y) in found;
      }
    }
  }

  // ---------------------------------------------------------------- the whole claim

  /** Routing's answers are recorded for the Worker: advertised from now on, with what was known to be retained. */
  ghost predicate Acquires(db: DB, next: DB, pairs: set<(Id, Id)>) {
    && next == db.(mirrors := next.mirrors) && next.mirrors.Keys == db.mirrors.Keys + pairs
    && (forall k <- db.mirrors :: (k in pairs ==> next.mirrors[k].advertised) && next.mirrors[k].retained == db.mirrors[k].retained
                                  && (k !in pairs || db.mirrors[k].advertised ==> next.mirrors[k] == db.mirrors[k]))
    && (forall k <- pairs :: k !in db.mirrors ==> next.mirrors[k] == Mirror(0, true, true))
  }

  lemma AcquiringOnly(db: DB, pairs: set<(Id, Id)>)
    ensures Acquires(db, Acquire(db, pairs), pairs)
  {
  }

  /** The tables a claim starts from: an expired empty claim of the same request is forgotten first. */
  function Basis(db: DB, worker: Id, request: string): DB { db.(claims := db.claims - {(worker, request)}) }

  lemma BasisIsLinked(db: DB, worker: Id, request: string)
    requires Linked(db)
    ensures Linked(Basis(db, worker, request)) && ((worker, request) !in db.claims ==> Basis(db, worker, request) == db)
  {
  }

  /** A Worker is given Work only while it is healthy, was heard of in the last thirty seconds and has room. */
  predicate MayWork(db: DB, worker: Id, now: int) {
    && worker in db.workers && db.workers[worker].healthy && now - db.workers[worker].lastHeartbeat <= 30_000
    && |set a | a in db.attempts && db.attempts[a].worker == worker
                && (db.attempts[a].state == AttemptPreparing || db.attempts[a].state == AttemptRunning)| < db.workers[worker].capacity
  }

  /** One blocked Session has been queued, one queued Session moved, and what routing answered recorded. */
  ghost predicate PreparedBy(db: DB, prepared: DB, now: int, worker: Id, routing: Routing)
    requires Linked(db)
  {
    exists queued, moved ::
      QueuesFirst(db, queued, now, worker, routing.blocked) && MovesFirst(queued, moved, worker, routing.queued)
      && Acquires(moved, prepared, routing.acquired)
  }

  lemma PreparesFairly(db: DB, now: int, worker: Id, routing: Routing)
    requires Linked(db)
    ensures PreparedBy(db, Prepared(db, now, worker, routing), now, worker, routing)
  {
    hide Linked, QueuesFirst, MovesFirst, Acquires, Materialise, Reroute, Acquire;
    var queued := Materialise(db, now, worker, routing.blocked);
    MaterialiseKeepsLinks(db, now, worker, routing.blocked);
    QueuesFairly(db, now, worker, routing.blocked);
    MovesFairly(queued, worker, routing.queued);
    AcquiringOnly(Reroute(queued, worker, routing.queued), routing.acquired);
  }

  /** A new Attempt of the Work is leased to the Worker for thirty seconds, and the request is bound to it. */
  predicate TakesRows(db: DB, next: DB, now: int, worker: Id, request: string, token: Token, attempt: Id, x: Id) {
    && x in db.sessions && x in db.executions
    && next == db.(attempts := db.attempts[attempt := Attempt(x, worker, AttemptPreparing, token, now + 30_000, false, "", "")],
                   sessions := db.sessions[x := db.sessions[x].(state := WorkPreparing, worker := Some(worker), owner := OwnerWorkerAttempt)],
                   executions := db.executions[x := db.executions[x].(state := ExecPreparing, cancel := false)],
                   claims := db.claims[(worker, request) := ClaimRequest(token, Some(attempt), now)])
  }

  /** What is granted comes first in the tables prepared for the claim. */
  ghost predicate GrantsFairly(db: DB, next: DB, now: int, worker: Id, request: string, token: Token, attempt: Id, routing: Routing) {
    && Linked(db) && attempt !in db.attempts
    && exists prepared, x ::
         && Linked(prepared) && PreparedBy(db, prepared, now, worker, routing)
         && TakesFairly(prepared, worker, routing.capable, x) && TakesRows(prepared, next, now, worker, request, token, attempt, x)
  }

  /** There was nothing to grant, and the request is remembered as such. */
  ghost predicate FindsNothing(db: DB, next: DB, now: int, worker: Id, request: string, token: Token, routing: Routing) {
    && Linked(db)
    && exists prepared ::
         && Linked(prepared) && PreparedBy(db, prepared, now, worker, routing) && Remembers(prepared, next, now, worker, request, token)
         && forall y <- prepared.executions :: !MayTake(prepared, worker, routing.capable, y)
  }

  predicate Remembers(db: DB, next: DB, now: int, worker: Id, request: string, token: Token) {
    next == db.(claims := db.claims[(worker, request) := ClaimRequest(token, None, now)])
  }

  /** What a Worker is answered.  Of the Work ready for it a new claim takes what comes first; a claim that found nothing
      stays so for five minutes; a bound claim is answered with its Attempt. */
  ghost predicate ClaimsFairly(db: DB, next: DB, now: int, worker: Id, request: string, token: Token, attempt: Id, routing: Routing, reply: Reply) {
    && worker in db.workers && db.workers[worker].currentProtocol
    && if reply.Claimed? && reply.attempt in db.attempts then
         next == db && (worker, request) in db.claims
         && db.claims[(worker, request)].token == token && db.claims[(worker, request)].attempt == Some(reply.attempt)
       else if reply.Claimed? then
         && reply.attempt == attempt && MayWork(db, worker, now)
         && GrantsFairly(Basis(db, worker, request), next, now, worker, request, token, attempt, routing)
       else
         && reply == NoClaim
         && if (worker, request) in db.claims && now - db.claims[(worker, request)].createdAt <= 300_000 then
              next == db && db.claims[(worker, request)].token == token && db.claims[(worker, request)].attempt == None
            else if MayWork(db, worker, now) then
              FindsNothing(Basis(db, worker, request), next, now, worker, request, token, routing)
            else Remembers(Basis(db, worker, request), next, now, worker, request, token)
  }

  lemma ClaimIsFair(db: DB, now: int, worker: Id, request: string, token: Token, attempt: Id, routing: Routing)
    requires Linked(db)
    ensures var o := Claim(db, now, worker, request, token, attempt, routing);
      o.Done? ==> ClaimsFairly(db, o.db, now, worker, request, token, attempt, routing, o.reply)
  {
    hide Linked, Basis, TakeWork, Blank, ValidToken, Prepared, GrantsFairly, FindsNothing, Remembers, MayWork, Leased;
    BasisIsLinked(db, worker, request);
    EmptyStays(db, worker, request);
    var basis := Basis(db, worker, request);
    if (worker, request) in db.claims && db.claims[(worker, request)].attempt.Some? { BoundAttemptExists(db, worker, request); }
    if worker in db.workers {
      TakingIsFair(basis, now, worker, request, token, attempt, routing);
      SameWorkers(db, now, worker, request);
    }
  }

  lemma EmptyStays(db: DB, worker: Id, request: string)
    ensures Basis(db, worker, request) == db.(claims := db.claims - {(worker, request)})
    ensures Basis(db, worker, request).attempts == db.attempts && Basis(db, worker, request).workers == db.workers
  {
  }

  lemma SameWorkers(db: DB, now: int, worker: Id, request: string)
    ensures MayWork(Basis(db, worker, request), worker, now) <==> MayWork(db, worker, now)
  {
  }

  lemma BoundAttemptExists(db: DB, worker: Id, request: string)
    requires Linked(db) && (worker, request) in db.claims && db.claims[(worker, request)].attempt.Some?
    ensures db.claims[(worker, request)].attempt.value in db.attempts
  {
  }

  lemma TakingIsFair(db: DB, now: int, worker: Id, request: string, token: Token, attempt: Id, routing: Routing)
    requires Linked(db) && worker in db.workers
    ensures var o := TakeWork(db, now, worker, request, token, attempt, routing);
      o.Done? ==>
        if o.reply.Claimed? then
          o.reply.attempt == attempt && MayWork(db, worker, now)
          && GrantsFairly(db, o.db, now, worker, request, token, attempt, routing) && attempt !in db.attempts
        else
          && o.reply == NoClaim
          && if MayWork(db, worker, now) then FindsNothing(db, o.db, now, worker, request, token, routing)
             else Remembers(db, o.db, now, worker, request, token)
  {
    ActiveAgrees(db, worker);
    hide Linked, Prepared, ChooseWork, TakesFairly, ActiveOf, PreparedBy, MayTake, TakesRows;
    PreparesFairly(db, now, worker, routing);
    PreparedKeepsAttempts(db, Prepared(db, now, worker, routing), now, worker, routing);
    ChoiceIsFair(Prepared(db, now, worker, routing), now, worker, request, token, attempt, routing.capable);
  }

  lemma PreparedKeepsAttempts(db: DB, prepared: DB, now: int, worker: Id, routing: Routing)
    requires Linked(db) && PreparedBy(db, prepared, now, worker, routing)
    ensures prepared.attempts == db.attempts
  {
    hide Linked, QueuesFirst, MovesFirst, Acquires;
    var queued, moved :| QueuesFirst(db, queued, now, worker, routing.blocked) && MovesFirst(queued, moved, worker, routing.queued)
      && Acquires(moved, prepared, routing.acquired);
    QueueingKeepsAttempts(db, queued, now, worker, routing.blocked);
    MovingKeepsAttempts(queued, moved, worker, routing.queued);
    AcquiringKeepsAttempts(moved, prepared, routing.acquired);
  }

  lemma QueueingKeepsAttempts(db: DB, next: DB, now: int, worker: Id, routed: set<Id>)
    requires Linked(db) && QueuesFirst(db, next, now, worker, routed)
    ensures next.attempts == db.attempts
  {
    hide Linked, MayQueue, QueuedBefore;
  }

  lemma MovingKeepsAttempts(db: DB, next: DB, worker: Id, routed: set<Id>)
    requires MovesFirst(db, next, worker, routed)
    ensures next.attempts == db.attempts
  {
    hide MayMove;
  }

  lemma AcquiringKeepsAttempts(db: DB, next: DB, pairs: set<(Id, Id)>)
    requires Acquires(db, next, pairs)
    ensures next.attempts == db.attempts
  {
  }

  lemma ActiveAgrees(db: DB, worker: Id)
    ensures ActiveOf(db, worker) == set a | a in db.attempts && db.attempts[a].worker == worker
                && (db.attempts[a].state == AttemptPreparing || db.attempts[a].state == AttemptRunning)
  {
  }
}
