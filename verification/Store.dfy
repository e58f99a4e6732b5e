/** The control-plane store: one field per table, one method per transaction.

    A method does what its transaction does, row by row and in the same order, and is proved against the
    transition of the same name; what a refused transaction has written is rolled back. */
module Store {
  import opened Common
  import opened Text
  import opened Tables
  import opened Scan
  import opened Invariant
  import opened Registration
  import opened Calls
  import T = Transitions
  import opened LeaseSteps
  import opened ClaimSteps
  import opened WorkSteps
  import opened AdmissionSteps
  import opened Receipts
  import E = Effects
  import A = AdmissionEffects
  import F = Fairness

  const PAGE: nat := 50

  datatype Result = Accepted(reply: T.Reply) | Rejected(why: T.Refusal)

  function ResultOf(o: T.Outcome): Result {
    match o
    case Done(_, reply) => Accepted(reply)
    case Refused(why) => Rejected(why)
  }

  lemma FirstIsUnique(k: Key, rows: set<Key>)
    requires IsFirst(k, rows)
    ensures rows != {} && First(rows) == k
  {
  }

  // ---------------------------------------------------------------- queries and updates over a pipeline

  /** How many of some stages have not succeeded. */
  method CountIncomplete(stages: seq<Stage>) returns (count: nat)
    ensures count == 0 <==> T.AllSucceeded(stages)
  {
    count := 0;
    for i := 0 to |stages|
      invariant count == 0 <==> T.AllSucceeded(stages[..i])
    {
      assert stages[..i + 1] == stages[..i] + [stages[i]];
      if !stages[i].state.StageSucceeded? { count := count + 1; }
    }
    assert stages[..|stages|] == stages;
  }

  /** Records the end of a stage, then cancels the pending ones after it unless it succeeded. */
  method EndStage(stages: seq<Stage>, position: nat, ended: Stage) returns (after: seq<Stage>)
    requires position < |stages|
    ensures after == T.EndStage(stages, position, ended)
  {
    after := stages[position := ended];
    if !ended.state.StageSucceeded? {
      for i := position + 1 to |stages|
        invariant |after| == |stages|
        invariant forall j :: 0 <= j < |stages| ==>
          after[j] == if j == position then ended
                      else if position < j < i && stages[j].state.StagePending? then stages[j].(state := StageCancelled)
                      else stages[j]
      {
        if after[i].state.StagePending? { after := after[i := after[i].(state := StageCancelled)]; }
      }
    }
  }

  // ---------------------------------------------------------------- the store

  class Store {
    var runs: map<Id, Run>
    var sessions: map<Id, Session>
    var executions: map<Id, Execution>
    var attempts: map<Id, Attempt>
    var claims: map<(Id, string), ClaimRequest>
    var updateRequests: map<(Id, string), UpdateRequest>
    var workers: map<Id, Worker>
    var repositories: map<Id, Repository>
    var mirrors: map<(Id, Id), Mirror>
    var rows: nat

    function Tables(): DB
      reads this
    {
      DB(runs, sessions, executions, attempts, claims, updateRequests, workers, repositories, mirrors, rows)
    }

    ghost predicate Valid()
      reads this
    {
      Inv(Tables())
    }

    constructor (known: map<Id, Repository>)
      ensures Valid() && Initial(Tables()) && repositories == known
    {
      runs, sessions, executions, attempts := map[], map[], map[], map[];
      claims, updateRequests, workers, mirrors, rows := map[], map[], map[], map[], 0;
      repositories := known;
      new;
      InitialIsSound(Tables());
    }

    /** The UPDATE statements of a transaction on one Session, its execution and one Attempt. */
    method Write(attempt: Option<(Id, Attempt)>, id: Id, s: Session, e: Option<Execution>)
      requires s.run in runs
      modifies this`attempts, this`executions, this`sessions
      ensures Tables() == T.Commit(old(Tables()), attempt, id, s, e, T.EndOf(old(Tables()), s))
    {
      if attempt.Some? { attempts := attempts[attempt.value.0 := attempt.value.1]; }
      if e.Some? { executions := executions[id := e.value]; }
      sessions := sessions[id := s];
      RewritingSame(runs, s.run);
    }

    /** updateRunLifecycle: a Run ends when the last of its Work does, and is open again otherwise. */
    method UpdateRunLifecycle(run: Id, now: int)
      requires run in runs
      modifies this`runs
      ensures Tables() == old(Tables()).(
        runs := old(runs)[run := old(runs)[run].(terminalAt := if HasLiveWork(old(Tables()), run) then None else Some(now))])
    {
      var live := exists id <- sessions :: sessions[id].run == run && !sessions[id].state.Terminal();
      runs := runs[run := runs[run].(terminalAt := if live then None else Some(now))];
    }

    /** A Session rewritten together with the end of its Run. */
    method WriteAndSettle(attempt: Option<(Id, Attempt)>, id: Id, s: Session, e: Option<Execution>, now: int)
      requires id in sessions && sessions[id].run == s.run && s.run in runs
      modifies this`attempts, this`executions, this`sessions, this`runs
      ensures Tables() == T.Commit(old(Tables()), attempt, id, s, e, T.Settled(old(Tables()), id, s, now))
    {
      ghost var db := Tables();
      Write(attempt, id, s, e);
      RunRewritten(db, Tables(), id, s);
      UpdateRunLifecycle(s.run, now);
    }

    /** A Session that is live again, and so is its Run. */
    method Reopen(id: Id, s: Session, e: Option<Execution>, now: int)
      requires id in sessions && sessions[id].run == s.run && s.run in runs && !s.state.Terminal()
      modifies this`attempts, this`executions, this`sessions, this`runs
      ensures Tables() == T.Commit(old(Tables()), None, id, s, e, None)
    {
      hide T.Commit;
      WriteAndSettle(None, id, s, e, now);
    }

    // -------------------------------------------------------------- leases

    method StartAttempt(now: int, attempt: Id, token: Token, from: Sha, runtimeStarted: bool) returns (result: Result)
      requires Valid()
      modifies this
      ensures Valid()
      ensures var o := T.StartAttempt(old(Tables()), now, attempt, token, from, runtimeStarted);
        Tables() == T.After(old(Tables()), o) && result == ResultOf(o)
      ensures result.Accepted? ==> Holds(attempts, attempt, token, now) && attempts[attempt].state.AttemptRunning?
      ensures result.Accepted? ==> E.StartsWork(old(Tables()), Tables(), now, attempt, from, runtimeStarted)
    {
      hide Inv, Linked, T.Commit, Holds, T.Leased, E.StartsWork;
      ghost var db := Tables();
      InvIsLinked(db);
      E.StartsTheWork(db, now, attempt, token, from, runtimeStarted);
      StartReceipt(db, now, attempt, token, from, runtimeStarted);
      StartAttemptKeeps(db, now, attempt, token, from, runtimeStarted);
      if from != "" && !ValidCommitSha(from) { return Rejected(T.Invalid); }
      var error := T.LeaseError(Tables(), attempt, token, now);
      if error.Some? { return Rejected(error.value); }
      LeaseHasWork(db, attempt);
      var a := attempts[attempt];
      var s := sessions[a.session];
      if s.pendingResume != "" && from != s.pendingResume { return Rejected(T.ResumeCommitMismatch); }
      if a.state.AttemptPreparing? {
        if runtimeStarted { return Rejected(T.InvalidTransition); }
        Write(Some((attempt, a.(state := AttemptRunning))), a.session,
              T.Started(s, now),
              Some(executions[a.session].(state := ExecRunning)));
      } else if runtimeStarted && s.pendingResume == from {
        Write(None, a.session, s.(pendingResume := ""), None);
      }
      return Accepted(T.Nothing);
    }

    method Heartbeat(now: int, attempt: Id, token: Token) returns (result: Result)
      requires Valid()
      modifies this
      ensures Valid()
      ensures var o := T.Heartbeat(old(Tables()), now, attempt, token);
        Tables() == T.After(old(Tables()), o) && result == ResultOf(o)
      ensures result.Accepted? ==> Holds(attempts, attempt, token, now) && attempts[attempt].expiry == now + LEASE_MILLIS
      ensures result.Accepted? ==>
        attempt in old(attempts) && Tables() == old(Tables()).(attempts := old(attempts)[attempt := old(attempts)[attempt].(expiry := now + 30_000)])
    {
      hide Inv, Linked, T.Commit, Holds, T.Leased;
      ghost var db := Tables();
      InvIsLinked(db);
      E.BeatsOnly(db, now, attempt, token);
      BeatReceipt(db, now, attempt, token);
      HeartbeatKeeps(db, now, attempt, token);
      var error := T.LeaseError(Tables(), attempt, token, now);
      if error.Some? { return Rejected(error.value); }
      LeaseHasWork(db, attempt);
      var a := attempts[attempt];
      Write(Some((attempt, a.(expiry := now + LEASE_MILLIS))), a.session, sessions[a.session], None);
      return Accepted(T.Nothing);
    }

    // -------------------------------------------------------------- stages

    method StartStage(now: int, attempt: Id, token: Token, position: int) returns (result: Result)
      requires Valid()
      modifies this
      ensures Valid()
      ensures var o := T.StartStage(old(Tables()), now, attempt, token, position);
        Tables() == T.After(old(Tables()), o) && result == ResultOf(o)
      ensures result.Accepted? ==> E.BeginsStage(old(Tables()), Tables(), attempt, position)
    {
      hide Inv, Linked, T.StageStarting, E.BeginsStage;
      ghost var db := Tables();
      InvIsLinked(db);
      E.StartsOneStage(db, now, attempt, token, position);
      StartStageKeeps(db, now, attempt, token, position);
      var error := T.LeaseError(Tables(), attempt, token, now);
      if error.Some? { return Rejected(error.value); }
      result := BeginStage(attempt, position);
    }

    method BeginStage(attempt: Id, position: int) returns (result: Result)
      requires Linked(Tables()) && attempt in attempts
      modifies this`attempts, this`executions, this`sessions
      ensures var o := T.StageStarting(old(Tables()), attempt, position);
        Tables() == T.After(old(Tables()), o) && result == ResultOf(o)
    {
      LeaseHasWork(Tables(), attempt);
      hide Linked, T.Commit, T.AllSucceeded;
      var id := attempts[attempt].session;
      var s, e := sessions[id], executions[id];
      if !attempts[attempt].state.AttemptRunning? || !e.state.ExecRunning? { return Rejected(T.AttemptNotRunning); }
      if e.cancel { return Rejected(T.CancellationRequested); }
      if !(0 <= position < |s.stages|) { return Rejected(T.NotFound); }
      if !s.stages[position].state.Open() { return Rejected(T.StageNotPending); }
      var incomplete := CountIncomplete(s.stages[..position]);
      if incomplete != 0 { return Rejected(T.PredecessorIncomplete); }
      Write(None, id, s.(stages := s.stages[position := s.stages[position].(state := StageRunning)]), None);
      return Accepted(T.Nothing);
    }

    method CompleteStage(now: int, attempt: Id, token: Token, position: int, ended: Stage) returns (result: Result)
      requires Valid()
      modifies this
      ensures Valid()
      ensures var o := T.CompleteStage(old(Tables()), now, attempt, token, position, ended);
        Tables() == T.After(old(Tables()), o) && result == ResultOf(o)
      ensures result.Accepted? ==> E.FinishesStage(old(Tables()), Tables(), attempt, position, ended)
    {
      hide Inv, Linked, T.StageEnding, E.FinishesStage;
      ghost var db := Tables();
      InvIsLinked(db);
      E.EndsOneStage(db, now, attempt, token, position, ended);
      CompleteStageKeeps(db, now, attempt, token, position, ended);
      if ended.state.Open() || MAX_RESULT_BYTES < Bytes(ended.result) || MAX_ERROR_BYTES < Bytes(ended.error) { return Rejected(T.Invalid); }
      var error := T.LeaseError(Tables(), attempt, token, now);
      if error.Some? { return Rejected(error.value); }
      result := FinishStage(attempt, position, ended);
    }

    method FinishStage(attempt: Id, position: int, ended: Stage) returns (result: Result)
      requires Linked(Tables()) && attempt in attempts && !ended.state.Open()
      modifies this`attempts, this`executions, this`sessions
      ensures var o := T.StageEnding(old(Tables()), attempt, position, ended);
        Tables() == T.After(old(Tables()), o) && result == ResultOf(o)
    {
      LeaseHasWork(Tables(), attempt);
      hide Linked, T.Commit, T.EndStage;
      var id := attempts[attempt].session;
      var s := sessions[id];
      if !attempts[attempt].state.AttemptRunning? || !executions[id].state.ExecRunning? { return Rejected(T.AttemptNotRunning); }
      if !(0 <= position < |s.stages|) { return Rejected(T.NotFound); }
      if !s.stages[position].state.StageRunning? {
        return if s.stages[position] == ended then Accepted(T.Nothing) else Rejected(T.StageNotRunning);
      }
      var stages := EndStage(s.stages, position, ended);
      Write(None, id, s.(stages := stages), None);
      return Accepted(T.Nothing);
    }

    // -------------------------------------------------------------- agent updates

    method AppendAgentUpdate(now: int, attempt: Id, token: Token, input: T.UpdateInput, fits: bool) returns (result: Result)
      requires Valid()
      modifies this
      ensures Valid()
      ensures var o := T.AppendUpdate(old(Tables()), now, attempt, token, input, fits);
        Tables() == T.After(old(Tables()), o) && result == ResultOf(o)
      ensures result.Accepted? ==> result.reply.Reported? && OnFile(Tables(), attempt, input.request, result.reply.update)
      ensures result.Accepted? ==> E.FilesReport(old(Tables()), Tables(), now, attempt, input)
    {
      hide Inv, Linked, T.FreshUpdate, T.UpdateInputError, OnFile, E.FilesReport;
      ghost var db := Tables();
      InvIsLinked(db);
      E.AppendsTheReport(db, now, attempt, token, input, fits);
      UpdateReceipt(db, now, attempt, token, input, fits);
      AppendUpdateKeeps(db, now, attempt, token, input, fits);
      if !ValidToken(token) { return Rejected(T.Invalid); }
      var malformed := T.UpdateInputError(input);
      if malformed.Some? { return Rejected(malformed.value); }
      if attempt !in attempts { return Rejected(T.NotFound); }
      if attempts[attempt].token != token { return Rejected(T.NotOwner); }
      if (attempt, input.request) in updateRequests {
        var stored := updateRequests[(attempt, input.request)];
        if stored != T.RequestOf(input, stored.update) { return Rejected(T.UpdateConflict); }
        StoredUpdateExists(db, (attempt, input.request));
        return Accepted(T.Reported(sessions[attempts[attempt].session].updates[stored.update]));
      }
      if input.replayOnly { return Rejected(T.UpdateNotFound); }
      result := AppendFresh(now, attempt, token, input, fits);
    }

    /** One more update of a Session, and the request that reported it. */
    method Insert(id: Id, s: Session, update: WorkUpdate, remembered: UpdateRequest)
      requires s.run in runs
      modifies this`attempts, this`executions, this`sessions, this`updateRequests
      ensures Tables() == T.Commit(old(Tables()), None, id, s.(updates := s.updates + [update]), None, T.EndOf(old(Tables()), s)).(
        updateRequests := old(updateRequests)[(update.attempt, update.request) := remembered])
    {
      Write(None, id, s.(updates := s.updates + [update]), None);
      updateRequests := updateRequests[(update.attempt, update.request) := remembered];
    }

    method AppendFresh(now: int, attempt: Id, token: Token, input: T.UpdateInput, fits: bool) returns (result: Result)
      requires Linked(Tables()) && attempt in attempts
      modifies this`attempts, this`executions, this`sessions, this`updateRequests
      ensures var o := T.FreshUpdate(old(Tables()), now, attempt, token, input, fits);
        Tables() == T.After(old(Tables()), o) && result == ResultOf(o)
    {
      ghost var db := Tables();
      LeaseHasWork(db, attempt);
      hide Linked, T.Commit, T.Leased, T.PositionOf, ProgressCount, OutcomeOf;
      var a := attempts[attempt];
      var s, e := sessions[a.session], executions[a.session];
      if !T.Leased(Tables(), attempt, token, now) { return Rejected(T.NotOwner); }
      if !runs[s.run].contract.AgentUpdate? { return Rejected(T.UpdateNotAllowed); }
      if !a.state.AttemptRunning? || !e.state.ExecRunning? || e.cancel
        || !s.state.WorkRunning? || !s.owner.OwnerWorkerAttempt? { return Rejected(T.UpdateNotActive); }
      var outcome := OutcomeOf(s.updates, attempt);
      if outcome.Some? {
        if input.status.UpdateRunning? || !T.SameUpdate(outcome.value, input) { return Rejected(T.OutcomeReported); }
        updateRequests := updateRequests[(attempt, input.request) := T.RequestOf(input, T.PositionOf(s.updates, outcome.value))];
        return Accepted(T.Reported(outcome.value));
      }
      if input.status.UpdateRunning? && MAX_PROGRESS <= ProgressCount(s.updates, attempt) { return Rejected(T.ProgressLimit); }
      if input.status.UpdateNeedsInput? && !fits { return Rejected(T.PromptTooLarge); }
      var update := WorkUpdate(attempt, input.request, input.status, input.message, input.pullRequest,
                               input.checkpoint, input.published, now);
      Insert(a.session, s, update, T.RequestOf(input, |s.updates|));
      return Accepted(T.Reported(update));
    }

    // -------------------------------------------------------------- ends

    method CompleteAttempt(now: int, attempt: Id, token: Token, claimed: AttemptState, text: string, error: string)
      returns (result: Result)
      requires Valid()
      modifies this
      ensures Valid()
      ensures var o := T.CompleteAttempt(old(Tables()), now, attempt, token, claimed, text, error);
        Tables() == T.After(old(Tables()), o) && result == ResultOf(o)
      ensures result.Accepted? ==> attempt in attempts && !attempts[attempt].state.Active() && !attempts[attempt].state.AttemptLost?
      ensures result.Accepted? ==> E.EndsOrRepeats(old(Tables()), Tables(), now, attempt, claimed, text, error)
    {
      hide Inv, Linked, OutcomeOf, T.Leased, T.Judge, T.Ending, E.EndsOrRepeats;
      ghost var db := Tables();
      InvIsLinked(db);
      E.EndsTheAttempt(db, now, attempt, token, claimed, text, error);
      CompleteReceipt(db, now, attempt, token, claimed, text, error);
      CompleteAttemptKeeps(db, now, attempt, token, claimed, text, error);
      if !claimed.AttemptSucceeded? && !claimed.AttemptFailed? && !claimed.AttemptCancelled? { return Rejected(T.Invalid); }
      if MAX_RESULT_BYTES < Bytes(text) || MAX_ERROR_BYTES < Bytes(error) { return Rejected(T.TooLarge); }
      if !ValidToken(token) { return Rejected(T.Invalid); }
      if attempt !in attempts { return Rejected(T.NotFound); }
      var a := attempts[attempt];
      if !a.state.Active() {
        return if a.state.AttemptLost? || a.token != token then Rejected(T.NotOwner) else Accepted(T.Nothing);
      }
      if !T.Leased(Tables(), attempt, token, now) { return Rejected(T.NotOwner); }
      LeaseHasWork(db, attempt);
      var s, e := sessions[a.session], executions[a.session];
      var contract := runs[s.run].contract;
      var outcome := if contract.AgentUpdate? then OutcomeOf(s.updates, attempt) else None;
      OutcomeIsNoProgress(s.updates, attempt);
      result := End(now, attempt, T.Judge(e.cancel, contract, outcome, claimed, text, error), outcome);
    }

    method End(now: int, attempt: Id, v: T.Verdict, outcome: Option<WorkUpdate>) returns (result: Result)
      requires Linked(Tables()) && attempt in attempts
      modifies this`attempts, this`executions, this`sessions, this`runs
      ensures var o := T.Ending(old(Tables()), now, attempt, v, outcome);
        Tables() == T.After(old(Tables()), o) && result == ResultOf(o)
    {
      LeaseHasWork(Tables(), attempt);
      hide Linked, T.Commit, T.Settled, T.JudgedSession, T.JudgedStages, T.AllSucceeded;
      var a := attempts[attempt];
      var s, e := sessions[a.session], executions[a.session];
      if v.state.AttemptSucceeded? && !a.state.AttemptRunning? { return Rejected(T.InvalidTransition); }
      if s.stages == [] { return Rejected(T.Unavailable); }
      if v.state.AttemptSucceeded? && !T.AllSucceeded(T.JudgedStages(s.stages, v)) { return Rejected(T.PipelineIncomplete); }
      JudgedRun(s, now, v, outcome);
      WriteAndSettle(Some((attempt, a.(state := v.state, result := v.result, error := v.error))), a.session,
                     T.JudgedSession(s, now, v, outcome), Some(e.(state := T.ExecutionOf(v.state))), now);
      return Accepted(T.Nothing);
    }

    /** One lapsed lease of a sweep. */
    method Expire(now: int, attempt: Id)
      requires Valid() && T.Expired(Tables(), attempt, now)
      modifies this
      ensures Valid() && Tables() == T.Expire(old(Tables()), now, attempt)
      ensures E.LosesAttempt(old(Tables()), Tables(), now, attempt)
    {
      ghost var db := Tables();
      InvIsLinked(db);
      E.LosesTheAttempt(db, now, attempt);
      ExpireKeeps(db, now, attempt);
      LeaseHasWork(db, attempt);
      hide Inv, Linked, T.Commit, T.Settled, T.ExpiredSession, OutcomeOf, E.LosesAttempt;
      var a := attempts[attempt];
      var s := sessions[a.session];
      ExpiredRun(s, now, attempt);
      WriteAndSettle(Some((attempt, a.(state := AttemptLost, error := T.LEASE_EXPIRED))), a.session,
                     T.ExpiredSession(s, now, OutcomeOf(s.updates, attempt)),
                     Some(executions[a.session].(state := ExecFailed)), now);
    }

    method ForgetEmptyClaims(now: int)
      modifies this`claims
      ensures Tables() == T.ForgetEmptyClaims(old(Tables()), now)
    {
      claims := map k | k in claims
        && !(claims[k].attempt.None? && claims[k].createdAt < now - EMPTY_CLAIM_MILLIS) :: claims[k];
    }

    method ExpireEach(now: int, lapsed: seq<Id>)
      requires Valid() && Linked(Tables())
      modifies this
      ensures Valid() && Tables() == T.ExpireAll(old(Tables()), now, lapsed)
    {
      ghost var start := Tables();
      hide Inv, Linked, T.Expire;
      for i := 0 to |lapsed|
        invariant Valid() && Tables() == T.ExpireAll(start, now, lapsed[..i])
      {
        assert lapsed[..i + 1][..i] == lapsed[..i];
        if T.Expired(Tables(), lapsed[i], now) { Expire(now, lapsed[i]); } else { NotExpired(Tables(), now, lapsed[i]); }
      }
      assert lapsed[..|lapsed|] == lapsed;
    }

    /** Forgets stale empty claims, then ends every lapsed lease in the order the query listed them. */
    method SweepExpired(now: int, lapsed: seq<Id>) returns (result: Result)
      requires Valid()
      modifies this
      ensures Valid()
      ensures var o := T.Sweep(old(Tables()), now, lapsed);
        Tables() == T.After(old(Tables()), o) && result == ResultOf(o)
      ensures result.Accepted? ==> E.SweepsAll(old(Tables()), Tables(), now)
    {
      hide Inv, Linked, T.ExpireAll, T.ListsLapsed, E.SweepsAll;
      ghost var db := Tables();
      InvIsLinked(db);
      E.SweepsEverything(db, now, lapsed);
      FewerClaimsKeep(db, T.ForgetEmptyClaims(db, now));
      hide T.ForgetEmptyClaims;
      if !T.ListsLapsed(Tables(), now, lapsed) { return Rejected(T.Unavailable); }
      ForgetEmptyClaims(now);
      ExpireEach(now, lapsed);
      return Accepted(T.Nothing);
    }

    // -------------------------------------------------------------- claiming

    /** Rollback. */
    method Restore(db: DB)
      modifies this
      ensures Tables() == db
    {
      runs, sessions, executions, attempts := db.runs, db.sessions, db.executions, db.attempts;
      claims, updateRequests, workers := db.claims, db.updateRequests, db.workers;
      repositories, mirrors, rows := db.repositories, db.mirrors, db.rows;
    }

    /** materializeBlockedSessionForWorker: scans the blocked Work page by page and queues the first that routes. */
    method Materialise(now: int, worker: Id, routed: set<Id>)
      requires Linked(Tables())
      modifies this`attempts, this`executions, this`sessions
      ensures Tables() == T.Materialise(old(Tables()), now, worker, routed)
      ensures F.QueuesFirst(old(Tables()), Tables(), now, worker, routed)
    {
      ghost var db := Tables();
      F.QueuesFairly(db, now, worker, routed);
      hide Linked, T.BlockedKeys, T.Commit, T.SessionKey, SlotFree, F.QueuesFirst;
      var found := FirstRouted(T.BlockedKeys(Tables()), routed, PAGE);
      if found.Some? {
        var id := found.value.id;
        FirstIsUnique(found.value, T.Routed(T.BlockedKeys(db), routed));
        BlockedKeyIs(db, found.value);
        WorkHasRun(db, id);
        Write(None, id, T.Materialised(sessions[id], worker),
              Some(T.Queued(Tables(), id, worker, now)));
      }
    }

    /** rerouteQueuedSessionForWorker: the same scan over Work queued for other Workers. */
    method Reroute(worker: Id, routed: set<Id>)
      requires Linked(Tables())
      modifies this`attempts, this`executions, this`sessions
      ensures Tables() == T.Reroute(old(Tables()), worker, routed)
      ensures F.MovesFirst(old(Tables()), Tables(), worker, routed)
    {
      ghost var db := Tables();
      F.MovesFairly(db, worker, routed);
      hide Linked, T.QueuedElsewhere, T.Commit, F.MovesFirst;
      var found := FirstRouted(T.QueuedElsewhere(Tables(), worker), routed, PAGE);
      if found.Some? {
        var id := found.value.id;
        FirstIsUnique(found.value, T.Routed(T.QueuedElsewhere(db, worker), routed));
        QueuedKeyIs(db, worker, found.value);
        WorkHasRun(db, id);
        Write(None, id, sessions[id].(worker := Some(worker)), Some(executions[id].(worker := worker)));
      }
    }

    method Acquire(pairs: set<(Id, Id)>)
      modifies this`mirrors
      ensures Tables() == T.Acquire(old(Tables()), pairs)
    {
      mirrors := map k | k in mirrors.Keys + pairs ::
        if k !in pairs then mirrors[k]
        else if k in mirrors && mirrors[k].advertised then mirrors[k]
        else Mirror(Retained(mirrors, k.0, k.1), true, true);
    }

    method Assign(now: int, worker: Id, request: string, token: Token, work: Id, attempt: Id)
      requires Linked(Tables()) && work in executions
      modifies this`attempts, this`executions, this`sessions, this`claims
      ensures Tables() == T.Assign(old(Tables()), now, worker, request, token, work, attempt)
    {
      ExecutionHasWork(Tables(), work);
      hide Linked, T.Commit;
      Write(Some((attempt, Attempt(work, worker, AttemptPreparing, token, now + LEASE_MILLIS, false, "", ""))), work,
            T.Taken(sessions[work], worker),
            Some(executions[work].(state := ExecPreparing, cancel := false)));
      claims := claims[(worker, request) := ClaimRequest(token, Some(attempt), now)];
    }

    method Prepare(now: int, worker: Id, routing: T.Routing)
      requires Linked(Tables())
      modifies this`attempts, this`executions, this`sessions, this`mirrors
      ensures Tables() == T.Prepared(old(Tables()), now, worker, routing)
    {
      hide Linked, T.Materialise, T.Reroute, T.Acquire;
      T.MaterialiseKeepsLinks(Tables(), now, worker, routing.blocked);
      Materialise(now, worker, routing.blocked);
      T.RerouteKeepsLinks(Tables(), worker, routing.queued);
      Reroute(worker, routing.queued);
      Acquire(routing.acquired);
    }

    method Choose(now: int, worker: Id, request: string, token: Token, attempt: Id, capable: set<Id>) returns (result: Result)
      requires Linked(Tables())
      modifies this`attempts, this`executions, this`sessions, this`claims
      ensures var o := T.ChooseWork(old(Tables()), now, worker, request, token, attempt, capable);
        Tables() == T.After(old(Tables()), o) && result == ResultOf(o)
    {
      hide Linked, T.ClaimableKeys, T.Assign;
      var keys := T.ClaimableKeys(Tables(), worker, capable);
      if keys == {} {
        claims := claims[(worker, request) := ClaimRequest(token, None, now)];
        return Accepted(T.NoClaim);
      }
      if attempt in attempts { return Rejected(T.Unavailable); }
      ClaimableKeyIs(Tables(), worker, capable, First(keys));
      Assign(now, worker, request, token, First(keys).id, attempt);
      return Accepted(T.Claimed(attempt));
    }

    /** Leaves a refusal to the caller to roll back. */
    method TakeWork(now: int, worker: Id, request: string, token: Token, attempt: Id, routing: T.Routing) returns (result: Result)
      requires Linked(Tables()) && worker in workers
      modifies this
      ensures var o := T.TakeWork(old(Tables()), now, worker, request, token, attempt, routing);
        result == ResultOf(o) && (o.Done? ==> Tables() == o.db)
    {
      hide Linked, T.Prepared, T.ChooseWork, ActiveOf;
      var w := workers[worker];
      if !w.healthy || ONLINE_MILLIS < now - w.lastHeartbeat || w.capacity <= |ActiveOf(Tables(), worker)| {
        claims := claims[(worker, request) := ClaimRequest(token, None, now)];
        return Accepted(T.NoClaim);
      }
      Prepare(now, worker, routing);
      result := Choose(now, worker, request, token, attempt, routing.capable);
    }

    method Claim(now: int, worker: Id, requestId: string, token: Token, attempt: Id, routing: T.Routing) returns (result: Result)
      requires Valid()
      modifies this
      ensures Valid()
      ensures var o := T.Claim(old(Tables()), now, worker, TrimSpace(requestId), token, attempt, routing);
        Tables() == T.After(old(Tables()), o) && result == ResultOf(o)
      ensures result.Accepted? && result.reply.Claimed? ==> Holds(attempts, result.reply.attempt, token, now)
      ensures result.Accepted? ==>
        F.ClaimsFairly(old(Tables()), Tables(), now, worker, TrimSpace(requestId), token, attempt, routing, result.reply)
    {
      hide Inv, Holds, F.ClaimsFairly;
      var request := TrimSpace(requestId);
      assert Blank(request) <==> request == "";
      var before := Tables();
      InvIsLinked(before);
      F.ClaimIsFair(before, now, worker, request, token, attempt, routing);
      ClaimReceipt(before, now, worker, request, token, attempt, routing);
      ClaimKeeps(before, now, worker, request, token, attempt, routing);
      hide T.TakeWork, T.Leased, Blank, TrimSpace;
      if request == "" || 200 < Bytes(request) || !ValidToken(token) { return Rejected(T.Invalid); }
      if worker !in workers { return Rejected(T.NotFound); }
      if !workers[worker].currentProtocol { return Rejected(T.UpgradeRequired); }
      if (worker, request) in claims {
        var stored := claims[(worker, request)];
        if stored.token != token { return Rejected(T.ClaimConflict); }
        if stored.attempt.Some? {
          return if T.Leased(Tables(), stored.attempt.value, token, now) then Accepted(T.Claimed(stored.attempt.value))
                 else Rejected(T.NotOwner);
        }
        if now - stored.createdAt <= EMPTY_CLAIM_MILLIS { return Accepted(T.NoClaim); }
        claims := claims - {(worker, request)};
        FewerClaimsKeep(before, Tables());
      }
      hide Linked;
      result := TakeWork(now, worker, request, token, attempt, routing);
      if result.Rejected? { Restore(before); }
    }

    // -------------------------------------------------------------- cancelling, retrying, answering

    method CancelRows(now: int, work: set<Id>)
      modifies this`sessions, this`executions
      ensures Tables() == T.CancelRows(old(Tables()), now, work)
    {
      sessions := map id | id in sessions :: if id in work then T.CancelledSession(sessions[id], now) else sessions[id];
      executions := map id | id in executions :: if id in work then T.CancelledExecution(executions[id]) else executions[id];
    }

    method CancelAll(now: int, run: Id, work: set<Id>)
      requires run in runs
      modifies this`sessions, this`executions, this`runs
      ensures Tables() == T.CancelAll(old(Tables()), now, run, work)
    {
      assert T.CancelRows(Tables(), now, work).runs == runs;
      hide T.CancelRows, HasLiveWork;
      CancelRows(now, work);
      UpdateRunLifecycle(run, now);
    }

    method CancelRun(now: int, run: Id) returns (result: Result)
      requires Valid()
      modifies this
      ensures Valid()
      ensures var o := T.CancelRun(old(Tables()), now, run);
        Tables() == T.After(old(Tables()), o) && result == ResultOf(o)
      ensures result.Accepted? ==>
        E.CancelsExactly(old(Tables()), Tables(), now, run, set id | id in old(sessions) && old(sessions)[id].run == run)
    {
      hide Inv, T.CancelAll, E.CancelsExactly;
      CancelRunKeeps(Tables(), now, run);
      E.CancelsTheRun(Tables(), now, run);
      if run !in runs { return Rejected(T.NotFound); }
      CancelAll(now, run, T.SessionsOf(Tables(), run));
      return Accepted(T.Nothing);
    }

    method CancelSession(now: int, run: Id, work: Id) returns (result: Result)
      requires Valid()
      modifies this
      ensures Valid()
      ensures var o := T.CancelSession(old(Tables()), now, run, work);
        Tables() == T.After(old(Tables()), o) && result == ResultOf(o)
      ensures result.Accepted? ==> work in sessions && (sessions[work].state.WorkCancelled? || sessions[work].cancel)
      ensures result.Accepted? ==> E.CancelsExactly(old(Tables()), Tables(), now, run, {work})
    {
      hide Inv, T.CancelAll, E.CancelsExactly;
      ghost var db := Tables();
      InvIsLinked(db);
      E.CancelsTheSession(db, now, run, work);
      CancelReceipt(db, now, run, work);
      CancelSessionKeeps(db, now, run, work);
      if work !in sessions || sessions[work].run != run { return Rejected(T.NotFound); }
      if sessions[work].state.Terminal() { return Rejected(T.CancelNotAllowed); }
      WorkHasRun(db, work);
      hide Linked;
      CancelAll(now, run, {work});
      return Accepted(T.Nothing);
    }

    method RetrySession(now: int, run: Id, work: Id, route: Option<Id>, acquired: set<(Id, Id)>) returns (result: Result)
      requires Valid()
      modifies this
      ensures Valid()
      ensures var o := T.RetrySession(old(Tables()), now, run, work, route, acquired);
        Tables() == T.After(old(Tables()), o) && result == ResultOf(o)
      ensures result.Accepted? ==> work in sessions && sessions[work].state.WorkQueued? && !sessions[work].cancel
      ensures result.Accepted? ==> route.Some? && E.Requeues(old(Tables()), Tables(), now, run, work, route.value)
    {
      hide Inv, Linked, T.RetryGuard, SlotFree, T.Requeued, E.Requeues;
      ghost var db := Tables();
      InvIsLinked(db);
      E.RetriesTheWork(db, now, run, work, route, acquired);
      RetryReceipt(db, now, run, work, route, acquired);
      RetrySessionKeeps(db, now, run, work, route, acquired);
      if work !in sessions || sessions[work].run != run { return Rejected(T.NotFound); }
      var s := sessions[work];
      WorkHasRun(db, work);
      if !s.state.WorkFailed? && !s.state.WorkCancelled? { return Rejected(T.RetryNotAllowed); }
      if !s.owner.OwnerNone? { return Rejected(T.WorkOwned); }
      var guard := T.RetryGuard(Tables(), work);
      if guard.Some? { return Rejected(guard.value); }
      if !SlotFree(Tables(), run) { return Rejected(T.ConcurrencyFull); }
      if route.None? { return Rejected(T.NoEligibleWorker); }
      Requeue(now, work, route, acquired);
      return Accepted(T.Nothing);
    }

    method Requeue(now: int, work: Id, route: Option<Id>, acquired: set<(Id, Id)>)
      requires Linked(Tables()) && work in sessions && route.Some?
      modifies this`attempts, this`executions, this`sessions, this`runs, this`mirrors
      ensures Tables() == T.Requeued(old(Tables()), now, work, route, acquired)
    {
      WorkHasRun(Tables(), work);
      AcquiredKeepsRows(Tables(), acquired);
      hide Linked, T.Commit, T.Acquire;
      var s := sessions[work];
      Acquire(acquired);
      Reopen(work, T.Retried(s, route.value), Some(T.Queued(Tables(), work, route.value, now)), now);
    }

    method AnswerWork(now: int, work: Id, request: string, message: string, fits: bool,
                      route: Option<Id>, acquired: set<(Id, Id)>) returns (result: Result)
      requires Valid()
      modifies this
      ensures Valid()
      ensures var o := T.AnswerWork(old(Tables()), now, work, request, message, fits, route, acquired);
        Tables() == T.After(old(Tables()), o) && result == ResultOf(o)
      ensures result.Accepted? ==> work in sessions && exists a <- sessions[work].answers :: a.request == request && a.message == message
      ensures result.Accepted? ==> E.ResumesOrRepeats(old(Tables()), Tables(), now, work, request, message, route)
    {
      hide Inv, Linked, Blank, T.Resuming, E.ResumesOrRepeats;
      ghost var db := Tables();
      InvIsLinked(db);
      E.AnswerResumesTheWork(db, now, work, request, message, fits, route, acquired);
      AnswerReceipt(db, now, work, request, message, fits, route, acquired);
      AnswerWorkKeeps(db, now, work, request, message, fits, route, acquired);
      if Blank(message) { return Rejected(T.Invalid); }
      if MAX_ANSWER_BYTES < Bytes(message) { return Rejected(T.TooLarge); }
      if work !in sessions { return Rejected(T.NotFound); }
      var stored := T.StoredAnswer(sessions[work].answers, request);
      if stored.Some? {
        return if stored.value.message == message then Accepted(T.Answered(stored.value)) else Rejected(T.AnswerConflict);
      }
      result := Resume(now, work, request, message, fits, route, acquired);
    }

    method Resume(now: int, work: Id, request: string, message: string, fits: bool,
                  route: Option<Id>, acquired: set<(Id, Id)>) returns (result: Result)
      requires Linked(Tables()) && work in sessions
      modifies this`attempts, this`executions, this`sessions, this`runs, this`mirrors
      ensures var o := T.Resuming(old(Tables()), now, work, request, message, fits, route, acquired);
        Tables() == T.After(old(Tables()), o) && result == ResultOf(o)
    {
      ghost var db := Tables();
      WorkHasRun(db, work);
      hide Linked, ValidCommitSha, T.Continued;
      var s := sessions[work];
      if !s.state.WorkNeedsInput? || !s.owner.OwnerNone? { return Rejected(T.AnswerNotAllowed); }
      if !ValidCommitSha(s.pendingResume) { return Rejected(T.CheckpointMissing); }
      var question := LastQuestion(s.updates);
      if question.None? { return Rejected(T.QuestionMissing); }
      if !fits { return Rejected(T.PromptTooLarge); }
      if exists a <- s.answers :: a.question == question.value { return Rejected(T.Unavailable); }
      if s.stages == [] { return Rejected(T.Unavailable); }
      var answer := WorkAnswer(request, question.value, message, now);
      Continue(now, work, answer, route, acquired);
      return Accepted(T.Answered(answer));
    }

    method Continue(now: int, work: Id, answer: WorkAnswer, route: Option<Id>, acquired: set<(Id, Id)>)
      requires Linked(Tables()) && work in sessions && sessions[work].stages != []
      modifies this`attempts, this`executions, this`sessions, this`runs, this`mirrors
      ensures Tables() == T.Continued(old(Tables()), now, work, answer, route, acquired)
    {
      ghost var db := Tables();
      WorkHasRun(db, work);
      hide Linked, T.Commit, SlotFree, T.Acquire, T.Resumed, T.Queued;
      var s := sessions[work];
      var worker: Option<Id> := None;
      if SlotFree(Tables(), s.run) {
        AcquiredKeepsRows(db, acquired);
        Acquire(acquired);
        worker := route;
      }
      ResumedIsOpen(s, worker, answer);
      Reopen(work, T.Resumed(s, worker, answer),
             if worker.Some? then Some(T.Queued(Tables(), work, worker.value, now)) else None, now);
    }

    // -------------------------------------------------------------- admission

    method InsertRun(r: T.NewRun, now: int)
      modifies this`runs
      ensures Tables() == T.WithRun(old(Tables()), r, now)
    {
      runs := runs[r.id := Run(r.requestKey, r.digest, r.procedure, r.limit, r.contract, now, None)];
    }

    method InsertTarget(run: Id, t: T.Target, predecessor: Option<Id>, now: int, worker: Option<Id>)
      modifies this`sessions, this`executions, this`rows
      ensures Tables() == T.InsertTarget(old(Tables()), run, t, predecessor, now, worker)
    {
      sessions := sessions[t.id := T.FreshSession(run, t, predecessor, rows, now, worker)];
      rows := rows + 1;
      if worker.Some? { executions := executions[t.id := Execution(worker.value, ExecQueued, false, now)]; }
    }

    static lemma NextTarget(start: DB, origin: DB, flavour: T.Flavour, r: T.NewRun, targets: seq<T.Target>, now: int, i: nat)
      requires Linked(origin) && T.Chosen(origin, flavour, r.procedure, targets) && i < |targets|
      ensures var (before, used) := T.AdmitTargets(start, origin, flavour, r, targets, now, i);
        var worker := if r.ready && used < r.limit then targets[i].route else None;
        T.AdmitTargets(start, origin, flavour, r, targets, now, i + 1)
          == (T.InsertTarget(before, r.id, targets[i], T.Predecessor(origin, flavour, r.procedure, targets[i]).predecessor, now, worker),
              if worker.Some? then used + 1 else used)
    {
      hide Linked, T.InsertTarget, T.Predecessor;
    }

    /** Inserts the targets in order, queueing them while the Run has slots left. */
    method InsertTargets(origin: DB, flavour: T.Flavour, r: T.NewRun, targets: seq<T.Target>, now: int)
      requires Linked(origin) && T.Chosen(origin, flavour, r.procedure, targets)
      modifies this`sessions, this`executions, this`rows
      ensures Tables() == T.AdmitTargets(old(Tables()), origin, flavour, r, targets, now, |targets|).0
    {
      ghost var start := Tables();
      var materialised: nat := 0;
      assert T.AdmitTargets(start, origin, flavour, r, targets, now, 0) == (start, 0);
      hide Linked, T.InsertTarget, T.Predecessor, T.AdmitTargets;
      for i := 0 to |targets|
        invariant Tables() == T.AdmitTargets(start, origin, flavour, r, targets, now, i).0
        invariant materialised == T.AdmitTargets(start, origin, flavour, r, targets, now, i).1
      {
        NextTarget(start, origin, flavour, r, targets, now, i);
        var worker := if r.ready && materialised < r.limit then targets[i].route else None;
        InsertTarget(r.id, targets[i], T.Predecessor(origin, flavour, r.procedure, targets[i]).predecessor, now, worker);
        if worker.Some? { materialised := materialised + 1; }
      }
    }

    method Admit(now: int, flavour: T.Flavour, r: T.NewRun, targets: seq<T.Target>, acquired: set<(Id, Id)>) returns (result: Result)
      requires Valid()
      modifies this
      ensures Valid()
      ensures Linked(old(Tables())) && T.KeysUnique(old(Tables()))
      ensures var o := T.Admit(old(Tables()), now, flavour, r, targets, acquired);
        Tables() == T.After(old(Tables()), o) && result == ResultOf(o)
      ensures result.Accepted? ==> A.AdmitsOrReplays(old(Tables()), Tables(), now, flavour, r, targets, result.reply)
    {
      hide Inv, Linked, T.KeysUnique, T.KeyTaken, T.TargetsError, T.AdmitTargets, T.WithRun, T.Acquire, T.Predecessor, A.AdmitsOrReplays;
      var db := Tables();
      InvIsLinked(db);
      A.AdmitsTheRun(db, now, flavour, r, targets, acquired);
      AdmitKeeps(db, now, flavour, r, targets, acquired);
      if T.KeyTaken(db, r.requestKey) {
        var run := T.RunOfKey(db, r.requestKey);
        return if runs[run].digest == r.digest then Accepted(T.Replayed(run)) else Rejected(T.KeyConflict);
      }
      if r.limit < 1 { return Rejected(T.Invalid); }
      var error := T.TargetsError(db, flavour, r, targets);
      if error.Some? { return Rejected(error.value); }
      InsertRun(r, now);
      Acquire(acquired);
      InsertTargets(db, flavour, r, targets, now);
      return Accepted(T.Admitted(r.id));
    }

    method ReplaceWork(now: int, requestKey: string, digest: string, work: Id, run: Id, newWork: Id,
                       eligible: bool, fits: bool, route: Option<Id>, acquired: set<(Id, Id)>) returns (result: Result)
      requires Valid()
      modifies this
      ensures Valid()
      ensures Linked(old(Tables())) && T.KeysUnique(old(Tables()))
      ensures var o := T.ReplaceWork(old(Tables()), now, requestKey, digest, work, run, newWork, eligible, fits, route, acquired);
        Tables() == T.After(old(Tables()), o) && result == ResultOf(o)
      ensures result.Accepted? ==>
        A.ReplacesOrReplays(old(Tables()), Tables(), now, requestKey, digest, work, run, newWork, route, result.reply)
    {
      hide Inv, Linked, T.KeysUnique, T.KeyTaken, T.RetryGuard, T.WithRun, T.Acquire, T.InsertTarget, A.ReplacesOrReplays;
      var db := Tables();
      InvIsLinked(db);
      A.ReplacesTheWork(db, now, requestKey, digest, work, run, newWork, eligible, fits, route, acquired);
      ReplaceWorkKeeps(db, now, requestKey, digest, work, run, newWork, eligible, fits, route, acquired);
      if T.KeyTaken(db, requestKey) {
        var stored := T.RunOfKey(db, requestKey);
        return if runs[stored].digest == digest then Accepted(T.Replayed(stored)) else Rejected(T.KeyConflict);
      }
      if work !in sessions { return Rejected(T.NotFound); }
      WorkHasRun(db, work);
      var s := sessions[work];
      if !s.state.Terminal() { return Rejected(T.NotTerminal); }
      var guard := T.RetryGuard(db, work);
      if guard.Some? { return Rejected(guard.value); }
      if !eligible { return Rejected(T.RepositoryUnavailable); }
      if !fits { return Rejected(T.PromptTooLarge); }
      if run in runs || newWork in sessions { return Rejected(T.Unavailable); }
      var origin := runs[s.run];
      InsertRun(T.NewRun(run, requestKey, digest, origin.procedure, origin.limit, origin.contract, true), now);
      Acquire(acquired);
      InsertTarget(run, T.Target(newWork, s.repository, s.source, |s.stages|, fits, route), Some(work), now, route);
      return Accepted(T.Admitted(run));
    }

    // -------------------------------------------------------------- repositories

    /** Deletes the queued executions of some Work. */
    method DropQueued(work: set<Id>)
      modifies this`executions
      ensures executions == map id | id in old(executions) && !(id in work && old(executions)[id].state.ExecQueued?) :: old(executions)[id]
    {
      executions := map id | id in executions && !(id in work && executions[id].state.ExecQueued?) :: executions[id];
    }

    /** Puts some Work back to waiting. */
    method Block(work: set<Id>)
      modifies this`sessions
      ensures sessions == map id | id in old(sessions) ::
        if id in work then old(sessions)[id].(state := WorkBlocked, worker := None, owner := OwnerNone) else old(sessions)[id]
    {
      sessions := map id | id in sessions ::
        if id in work then sessions[id].(state := WorkBlocked, worker := None, owner := OwnerNone) else sessions[id];
    }

    /** Takes the queued Work of a disabled repository off its Workers. */
    method Unqueue(repository: Id)
      modifies this`sessions, this`executions
      ensures Tables() == T.Unqueued(old(Tables()), repository)
    {
      UnqueuedTables(Tables(), repository);
      hide T.QueuedIn, T.Unqueued;
      var hit := T.QueuedIn(Tables(), repository);
      DropQueued(hit);
      Block(hit);
    }

    method Mark(repository: Id, enabled: bool)
      modifies this`repositories
      ensures Tables() == old(Tables()).(repositories := old(repositories)[repository := Repository(true, enabled)])
    {
      repositories := repositories[repository := Repository(true, enabled)];
    }

    method SetRepositoryEnabled(now: int, repository: Id, enabled: bool) returns (result: Result)
      requires Valid()
      modifies this
      ensures Valid()
      ensures var o := T.SetRepositoryEnabled(old(Tables()), repository, enabled);
        Tables() == T.After(old(Tables()), o) && result == ResultOf(o)
      ensures result.Accepted? ==> A.Switches(old(Tables()), Tables(), repository, enabled)
    {
      hide Inv, T.QueuedIn, T.Attempted, T.Unqueued, A.Switches;
      ghost var db := Tables();
      A.SwitchesTheRepository(db, repository, enabled);
      SetRepositoryEnabledKeeps(db, repository, enabled);
      UnqueuedFrame(db, repository);
      if repository !in repositories { return Rejected(T.NotFound); }
      var was := repositories[repository].enabled;
      if !enabled && was {
        if T.Attempted(Tables(), T.QueuedIn(Tables(), repository)) { return Rejected(T.Unavailable); }
        Unqueue(repository);
      }
      Mark(repository, enabled);
      return Accepted(T.Nothing);
    }

    // -------------------------------------------------------------- registration

    /** Marks the disposed Attempts, whatever their state; identifiers nobody knows are skipped. */
    method AcknowledgeDisposed(disposed: seq<Id>)
      modifies this`attempts
      ensures attempts.Keys == old(attempts).Keys
      ensures forall a <- attempts ::
        attempts[a] == old(attempts)[a].(acknowledged := old(attempts)[a].acknowledged || a in disposed)
    {
      for i := 0 to |disposed|
        invariant attempts.Keys == old(attempts).Keys
        invariant forall a <- attempts ::
          attempts[a] == old(attempts)[a].(acknowledged := old(attempts)[a].acknowledged || a in disposed[..i])
      {
        assert disposed[..i + 1] == disposed[..i] + [disposed[i]];
        if disposed[i] in attempts { attempts := attempts[disposed[i] := attempts[disposed[i]].(acknowledged := true)]; }
      }
      assert disposed[..|disposed|] == disposed;
    }

    /** Marks the ended Attempts whose worktrees an advertised repository is now known to retain. */
    method AcknowledgeRetained(db: DB, worker: Id, seen: map<Id, Id>)
      requires Linked(db) && attempts.Keys == db.attempts.Keys
      modifies this`attempts
      ensures attempts.Keys == db.attempts.Keys
      ensures forall a <- attempts :: attempts[a] == old(attempts)[a].(acknowledged := old(attempts)[a].acknowledged ||
        (db.attempts[a].worker == worker && !db.attempts[a].state.Active() && a in seen && seen[a] == RepositoryOf(db, a)
         && (worker, seen[a]) in mirrors && mirrors[(worker, seen[a])].advertised))
    {
      hide Linked;
      attempts := map a | a in attempts :: attempts[a].(acknowledged := attempts[a].acknowledged ||
        (db.attempts[a].worker == worker && !db.attempts[a].state.Active() && a in seen && seen[a] == RepositoryOf(db, a)
         && (worker, seen[a]) in mirrors && mirrors[(worker, seen[a])].advertised));
    }

    method Acknowledge(db: DB, worker: Id, input: Report)
      requires Linked(db) && attempts == db.attempts && mirrors == ReportedMirrors(db, worker, input)
      modifies this`attempts
      ensures attempts == Acknowledged(db, worker, input)
    {
      var seen := Attribute(input.worktrees);
      hide Linked, ReportedMirrors, AccountedFor, RepositoryOf;
      AcknowledgeDisposed(input.disposed);
      AcknowledgeRetained(db, worker, seen);
      forall a | a in attempts ensures attempts[a] == Acknowledged(db, worker, input)[a] {
        SeenIsEvidence(db, worker, input, seen, a);
      }
    }

    method RegisterWorker(now: int, worker: Id, input: Report) returns (result: Result)
      requires Valid()
      modifies this
      ensures Valid()
      ensures var o := Registration.RegisterWorker(old(Tables()), now, worker, input);
        Tables() == T.After(old(Tables()), o) && result == ResultOf(o)
      ensures Linked(old(Tables())) && (result.Accepted? ==> A.RegistersOnly(old(Tables()), Tables(), now, worker, input))
    {
      hide Inv, Linked, Registered, A.RegistersOnly;
      ghost var db := Tables();
      InvIsLinked(db);
      A.RegistersTheWorker(db, now, worker, input);
      RegisterWorkerKeeps(db, now, worker, input);
      if !(1 <= input.capacity <= MAX_CAPACITY) || !(0 <= input.active <= input.capacity) || MAX_CACHED < |input.cached| {
        return Rejected(T.Invalid);
      }
      if input.statics.Keys - repositories.Keys != {} && MAX_REPOSITORIES < |repositories.Keys + input.statics.Keys| {
        return Rejected(T.RepositoryUnavailable);
      }
      if Foreign(Tables(), worker, input.disposed) { return Rejected(T.Invalid); }
      Record(now, worker, input);
      return Accepted(T.Nothing);
    }

    method Record(now: int, worker: Id, input: Report)
      requires Linked(Tables())
      modifies this`workers, this`repositories, this`mirrors, this`attempts
      ensures Tables() == Registered(old(Tables()), now, worker, input)
    {
      var db := Tables();
      hide Linked, ReportedMirrors, Acknowledged, WithStatics;
      workers := workers[worker := Worker(input.capacity, input.healthy, now, input.currentProtocol)];
      repositories := WithStatics(repositories, input.statics.Keys);
      mirrors := ReportedMirrors(db, worker, input);
      Acknowledge(db, worker, input);
    }
  }

  lemma UnqueuedTables(db: DB, repository: Id)
    ensures var hit, next := T.QueuedIn(db, repository), T.Unqueued(db, repository);
      && next == db.(executions := next.executions, sessions := next.sessions)
      && next.executions == (map id | id in db.executions && !(id in hit && db.executions[id].state.ExecQueued?) :: db.executions[id])
      && next.sessions == map id | id in db.sessions ::
           if id in hit then db.sessions[id].(state := WorkBlocked, worker := None, owner := OwnerNone) else db.sessions[id]
  {
  }

  lemma ResumedIsOpen(s: Session, worker: Option<Id>, answer: WorkAnswer)
    requires s.stages != []
    ensures T.Resumed(s, worker, answer).run == s.run && !T.Resumed(s, worker, answer).state.Terminal()
  {
  }

  lemma AcquiredKeepsRows(db: DB, pairs: set<(Id, Id)>)
    ensures T.Acquire(db, pairs) == db.(mirrors := T.Acquire(db, pairs).mirrors)
  {
  }

  lemma ExecutionHasWork(db: DB, id: Id)
    requires Linked(db) && id in db.executions
    ensures id in db.sessions && db.sessions[id].run in db.runs
  {
  }

  lemma NotExpired(db: DB, now: int, attempt: Id)
    requires Linked(db) && !T.Expired(db, attempt, now)
    ensures T.Expire(db, now, attempt) == db
  {
  }

  lemma OutcomeIsNoProgress(updates: seq<WorkUpdate>, attempt: Id)
    ensures OutcomeOf(updates, attempt).Some? ==> !OutcomeOf(updates, attempt).value.status.UpdateRunning?
  {
  }

  lemma StoredUpdateExists(db: DB, k: (Id, string))
    requires Linked(db) && k in db.updateRequests
    ensures k.0 in db.attempts && db.attempts[k.0].session in db.sessions
    ensures db.updateRequests[k].update < |db.sessions[db.attempts[k.0].session].updates|
  {
  }
}
