/** When each transaction is accepted, as conditions on its arguments and on columns of the tables. */
module Acceptance {
  import opened Common
  import opened Text
  import opened Tables
  import opened Transitions
  import opened Invariant
  import opened LeaseSteps
  import opened AdmissionSteps
  import opened Registration
  import opened Calls
  import Guarantees
  import Lineage
  import A = AdmissionEffects
  import E = Effects
  import F = Fairness

  // ---------------------------------------------------------------- leases and stages

  predicate LeaseLives(db: DB, attempt: Id, token: Token, now: int) {
    && 32 <= Bytes(token) <= 1024 && attempt in db.attempts && db.attempts[attempt].token == token
    && (db.attempts[attempt].state == AttemptPreparing || db.attempts[attempt].state == AttemptRunning)
    && now < db.attempts[attempt].expiry
  }

  lemma LeaseAgrees(db: DB, attempt: Id, token: Token, now: int)
    ensures LeaseError(db, attempt, token, now).None? <==> LeaseLives(db, attempt, token, now)
    ensures attempt in db.attempts && ValidToken(token) ==> (Leased(db, attempt, token, now) <==> LeaseLives(db, attempt, token, now))
  {
    hide Bytes;
  }

  /** The runtime starts from the commit that is pending, if one is, and reports its start only once prepared. */
  predicate MayStart(db: DB, now: int, attempt: Id, token: Token, from: Sha, runtimeStarted: bool) {
    && (from == "" || ValidCommitSha(from)) && LeaseLives(db, attempt, token, now)
    && (db.attempts[attempt].state == AttemptPreparing ==> !runtimeStarted)
    && db.attempts[attempt].session in db.sessions
    && (db.sessions[db.attempts[attempt].session].pendingResume == "" || db.sessions[db.attempts[attempt].session].pendingResume == from)
  }

  lemma StartIsAccepted(db: DB, now: int, attempt: Id, token: Token, from: Sha, runtimeStarted: bool)
    requires Linked(db)
    ensures StartAttempt(db, now, attempt, token, from, runtimeStarted).Done? <==> MayStart(db, now, attempt, token, from, runtimeStarted)
  {
    hide Linked, ValidCommitSha, Commit, LeaseLives, LeaseError;
    LeaseAgrees(db, attempt, token, now);
    if LeaseLives(db, attempt, token, now) { LeaseOwner(db, attempt, token, now); }
  }

  lemma LeaseOwner(db: DB, attempt: Id, token: Token, now: int)
    requires Linked(db) && LeaseLives(db, attempt, token, now)
    ensures attempt in db.attempts && E.HasRows(db, db.attempts[attempt].session)
  {
    hide Linked, Bytes;
    LeaseHasWork(db, attempt);
  }

  /** The Attempt and its execution run. */
  predicate Runs(db: DB, attempt: Id) {
    && attempt in db.attempts && db.attempts[attempt].state == AttemptRunning
    && E.HasRows(db, db.attempts[attempt].session) && db.executions[db.attempts[attempt].session].state == ExecRunning
  }

  predicate MayBegin(db: DB, now: int, attempt: Id, token: Token, position: int) {
    && LeaseLives(db, attempt, token, now) && Runs(db, attempt) && !db.executions[db.attempts[attempt].session].cancel
    && var stages := db.sessions[db.attempts[attempt].session].stages;
    && 0 <= position < |stages| && (stages[position].state == StagePending || stages[position].state == StageRunning)
    && forall i :: 0 <= i < position ==> stages[i].state == StageSucceeded
  }

  lemma BeginIsAccepted(db: DB, now: int, attempt: Id, token: Token, position: int)
    requires Linked(db)
    ensures StartStage(db, now, attempt, token, position).Done? <==> MayBegin(db, now, attempt, token, position)
  {
    hide Linked, Commit, LeaseLives, LeaseError;
    LeaseAgrees(db, attempt, token, now);
    if LeaseLives(db, attempt, token, now) {
      LeaseOwner(db, attempt, token, now);
      var stages := db.sessions[db.attempts[attempt].session].stages;
      if 0 <= position < |stages| { PrefixSucceeds(stages, position); }
      hide AllSucceeded;
    }
  }

  lemma PrefixSucceeds(stages: seq<Stage>, n: nat)
    requires n <= |stages|
    ensures AllSucceeded(stages[..n]) <==> forall i :: 0 <= i < n ==> stages[i].state == StageSucceeded
  {
    assert forall i :: 0 <= i < n ==> stages[..n][i] == stages[i];
  }

  /** The stage runs, or has ended in just this way. */
  predicate MayFinish(db: DB, now: int, attempt: Id, token: Token, position: int, ended: Stage) {
    && (ended.state == StageSucceeded || ended.state == StageFailed || ended.state == StageCancelled)
    && Bytes(ended.result) <= 262144 && Bytes(ended.error) <= 65536
    && LeaseLives(db, attempt, token, now) && Runs(db, attempt)
    && var stages := db.sessions[db.attempts[attempt].session].stages;
    && 0 <= position < |stages| && (stages[position].state == StageRunning || stages[position] == ended)
  }

  lemma FinishIsAccepted(db: DB, now: int, attempt: Id, token: Token, position: int, ended: Stage)
    requires Linked(db)
    ensures CompleteStage(db, now, attempt, token, position, ended).Done? <==> MayFinish(db, now, attempt, token, position, ended)
  {
    hide Linked, Commit, LeaseLives, LeaseError, Bytes, EndStage;
    LeaseAgrees(db, attempt, token, now);
    if LeaseLives(db, attempt, token, now) { LeaseOwner(db, attempt, token, now); }
  }

  // ---------------------------------------------------------------- reports

  predicate WellFormedReport(input: UpdateInput) {
    && !Blank(input.message) && Bytes(input.message) <= (if input.status == UpdateRunning then 2048 else 8192)
    && Bytes(input.pullRequest.url) <= 2048 && Bytes(input.pullRequest.branch) <= 255 && Bytes(input.pullRequest.sha) <= 64
    && Bytes(input.checkpoint) <= 64
    && (input.status == UpdateReady ==>
          && input.pullRequest.url != "" && input.checkpoint == ""
          && (input.replayOnly || (input.pullRequest.branch != "" && ValidCommitSha(input.pullRequest.sha))))
    && (input.status != UpdateReady ==> input.pullRequest.url == "" && input.pullRequest.branch == "" && input.pullRequest.sha == "")
    && (input.status == UpdateNeedsInput ==> input.replayOnly || ValidCommitSha(input.checkpoint))
    && (input.status != UpdateNeedsInput ==> input.checkpoint == "" && !input.published)
    && (input.replayOnly ==> input.pullRequest.branch == "" && input.pullRequest.sha == "" && input.checkpoint == "" && !input.published)
  }

  lemma WellFormedAgrees(input: UpdateInput)
    ensures UpdateInputError(input).None? <==> WellFormedReport(input)
  {
    hide Bytes, Blank, ValidCommitSha;
  }

  /** The progress updates of an Attempt. */
  function Progress(updates: seq<WorkUpdate>, attempt: Id): set<nat> {
    set i: nat | i < |updates| && updates[i].attempt == attempt && updates[i].status == UpdateRunning
  }

  lemma {:induction false} OneMoreUpdate(updates: seq<WorkUpdate>, u: WorkUpdate, attempt: Id)
    ensures ProgressCount(updates + [u], attempt)
      == ProgressCount(updates, attempt) + if u.attempt == attempt && u.status == UpdateRunning then 1 else 0
  {
    if updates != [] {
      assert (updates + [u])[1..] == updates[1..] + [u];
      OneMoreUpdate(updates[1..], u, attempt);
    }
  }

  lemma {:induction false} ProgressIsCounted(updates: seq<WorkUpdate>, attempt: Id)
    ensures |Progress(updates, attempt)| == ProgressCount(updates, attempt)
  {
    if updates != [] {
      var n := |updates| - 1;
      var before, u := updates[..n], updates[n];
      assert updates == before + [u];
      ProgressIsCounted(before, attempt);
      OneMoreUpdate(before, u, attempt);
      hide ProgressCount;
      assert Progress(updates, attempt)
        == Progress(before, attempt) + if u.attempt == attempt && u.status == UpdateRunning then {n} else {};
    }
  }

  /** A report that no earlier request made: the agent is at work, and its reporting is not over yet or this repeats
      how it ended; of progress there is room for no more than 199 updates. */
  predicate MayAdd(db: DB, now: int, attempt: Id, token: Token, input: UpdateInput, fits: bool) {
    && !input.replayOnly && LeaseLives(db, attempt, token, now) && Runs(db, attempt)
    && var s, e := db.sessions[db.attempts[attempt].session], db.executions[db.attempts[attempt].session];
    && db.runs[s.run].contract == AgentUpdate && !e.cancel && s.state == WorkRunning && s.owner == OwnerWorkerAttempt
    && if E.NothingFinal(s.updates, attempt) then
         && (input.status == UpdateRunning ==> |Progress(s.updates, attempt)| < 199)
         && (input.status == UpdateNeedsInput ==> fits)
       else
         && input.status != UpdateRunning
         && var outcome := OutcomeOf(s.updates, attempt);
         && outcome.Some? && outcome.value.status == input.status && outcome.value.message == input.message
         && outcome.value.pullRequest == input.pullRequest && outcome.value.checkpoint == input.checkpoint
         && outcome.value.published == input.published
  }

  predicate MayReport(db: DB, now: int, attempt: Id, token: Token, input: UpdateInput, fits: bool) {
    && WellFormedReport(input) && 32 <= Bytes(token) <= 1024 && attempt in db.attempts && db.attempts[attempt].token == token
    && if (attempt, input.request) in db.updateRequests then
         var stored := db.updateRequests[(attempt, input.request)];
         stored.status == input.status && stored.message == input.message && stored.url == input.pullRequest.url
       else MayAdd(db, now, attempt, token, input, fits)
  }

  lemma ReportIsAccepted(db: DB, now: int, attempt: Id, token: Token, input: UpdateInput, fits: bool)
    requires Linked(db)
    ensures AppendUpdate(db, now, attempt, token, input, fits).Done? <==> MayReport(db, now, attempt, token, input, fits)
  {
    hide Linked, WellFormedReport, UpdateInputError, FreshUpdate, MayAdd, Bytes;
    WellFormedAgrees(input);
    if attempt in db.attempts && ValidToken(token) { FreshIsAccepted(db, now, attempt, token, input, fits); }
  }

  lemma FreshIsAccepted(db: DB, now: int, attempt: Id, token: Token, input: UpdateInput, fits: bool)
    requires Linked(db) && attempt in db.attempts && ValidToken(token)
    ensures !input.replayOnly && FreshUpdate(db, now, attempt, token, input, fits).Done? <==> MayAdd(db, now, attempt, token, input, fits)
  {
    hide Linked, Commit, LeaseLives, Leased, OutcomeOf, E.NothingFinal, ProgressCount, Progress, ValidToken;
    LeaseAgrees(db, attempt, token, now);
    if LeaseLives(db, attempt, token, now) {
      LeaseOwner(db, attempt, token, now);
      var updates := db.sessions[db.attempts[attempt].session].updates;
      E.FinalIsOutcome(updates, attempt);
      ProgressIsCounted(updates, attempt);
    }
  }

  // ---------------------------------------------------------------- completion

  /** Success needs a prepared Attempt and a finished pipeline; the stage of a pipeline of one ends with it. */
  predicate MayComplete(db: DB, now: int, attempt: Id, token: Token, claimed: AttemptState, result: string, error: string) {
    && (claimed == AttemptSucceeded || claimed == AttemptFailed || claimed == AttemptCancelled)
    && Bytes(result) <= 262144 && Bytes(error) <= 65536
    && 32 <= Bytes(token) <= 1024 && attempt in db.attempts && db.attempts[attempt].token == token
    && if db.attempts[attempt].state == AttemptPreparing || db.attempts[attempt].state == AttemptRunning then
         && now < db.attempts[attempt].expiry && E.HasRows(db, db.attempts[attempt].session)
         && var s, e := db.sessions[db.attempts[attempt].session], db.executions[db.attempts[attempt].session];
         && s.stages != []
         && (claimed == AttemptSucceeded && !e.cancel && !(db.runs[s.run].contract == AgentUpdate && E.NothingFinal(s.updates, attempt)) ==>
               && db.attempts[attempt].state == AttemptRunning
               && ((forall i :: 0 <= i < |s.stages| ==> s.stages[i].state == StageSucceeded)
                   || (|s.stages| == 1 && (s.stages[0].state == StagePending || s.stages[0].state == StageRunning))))
       else db.attempts[attempt].state != AttemptLost
  }

  lemma CompletionIsAccepted(db: DB, now: int, attempt: Id, token: Token, claimed: AttemptState, result: string, error: string)
    requires Linked(db)
    ensures CompleteAttempt(db, now, attempt, token, claimed, result, error).Done? <==>
      MayComplete(db, now, attempt, token, claimed, result, error)
  {
    hide Linked, OutcomeOf, Ending, Bytes, Judge, E.NothingFinal, AllSucceeded;
    if attempt in db.attempts && db.attempts[attempt].state.Active()
       && (claimed.AttemptSucceeded? || claimed.AttemptFailed? || claimed.AttemptCancelled?) {
      LeaseHasWork(db, attempt);
      var a := db.attempts[attempt];
      var s, e := db.sessions[a.session], db.executions[a.session];
      var contract := db.runs[s.run].contract;
      var outcome := if contract.AgentUpdate? then OutcomeOf(s.updates, attempt) else None;
      E.FinalIsOutcome(s.updates, attempt);
      E.JudgeEnds(e.cancel, contract, outcome, claimed, result, error);
      EndIsAccepted(db, now, attempt, Judge(e.cancel, contract, outcome, claimed, result, error), outcome);
    }
  }

  lemma EndIsAccepted(db: DB, now: int, attempt: Id, v: Verdict, outcome: Option<WorkUpdate>)
    requires Linked(db) && attempt in db.attempts && (v.state.AttemptSucceeded? ==> !v.missing)
    ensures E.HasRows(db, db.attempts[attempt].session)
    ensures var stages := db.sessions[db.attempts[attempt].session].stages;
      Ending(db, now, attempt, v, outcome).Done? <==>
        && stages != []
        && (v.state.AttemptSucceeded? ==>
              && db.attempts[attempt].state == AttemptRunning
              && ((forall i :: 0 <= i < |stages| ==> stages[i].state == StageSucceeded)
                  || (|stages| == 1 && (stages[0].state == StagePending || stages[0].state == StageRunning))))
  {
    LeaseHasWork(db, attempt);
    hide Linked, JudgedSession, Commit, Settled, CloseStages;
  }

  // ---------------------------------------------------------------- retrying and answering

  /** In tables that some run reaches: the guards against a second live Work of the lineage never decide. */
  predicate MayRetry(db: DB, run: Id, work: Id, route: Option<Id>) {
    && work in db.sessions && db.sessions[work].run == run && run in db.runs
    && (db.sessions[work].state == WorkFailed || db.sessions[work].state == WorkCancelled)
    && (forall x <- db.sessions :: db.sessions[x].predecessor != Some(work))
    && |F.Taking(db, run)| < db.runs[run].limit && route.Some?
  }

  lemma RetryIsAccepted(db: DB, now: int, run: Id, work: Id, route: Option<Id>, acquired: set<(Id, Id)>)
    requires Reachable(db) && Linked(db)
    ensures RetrySession(db, now, run, work, route, acquired).Done? <==> MayRetry(db, run, work, route)
  {
    hide Reachable, Linked, Inv, RetryGuard, Slots, F.Taking;
    if work in db.sessions && (db.sessions[work].state.WorkFailed? || db.sessions[work].state.WorkCancelled?) {
      WorkHasRun(db, work);
      F.CountsAgree(db, db.sessions[work].run, 0, 0);
      Lineage.RetryGuardIsReplacement(db, work);
      ReachableIsSound(db);
      EndedIsUnowned(db, work);
    }
  }

  lemma EndedIsUnowned(db: DB, work: Id)
    requires Inv(db) && work in db.sessions && db.sessions[work].state.Terminal()
    ensures db.sessions[work].owner.OwnerNone?
  {
    assert WorkOk(db, work);
  }

  /** In tables that some run reaches: waiting Work can always be answered, if the prompt fits. */
  predicate MayAnswer(db: DB, work: Id, request: string, message: string, fits: bool) {
    && !Blank(message) && Bytes(message) <= 8192 && work in db.sessions
    && if exists a <- db.sessions[work].answers :: a.request == request then
         exists a <- db.sessions[work].answers :: a.request == request && a.message == message
       else db.sessions[work].state == WorkNeedsInput && fits
  }

  lemma OneAnswerEach(db: DB, work: Id)
    requires Inv(db) && work in db.sessions
    ensures var answers := db.sessions[work].answers;
      forall i, j :: 0 <= i < j < |answers| ==> answers[i].request != answers[j].request
  {
    assert WorkOk(db, work);
  }

  lemma AnswerIsAccepted(db: DB, now: int, work: Id, request: string, message: string, fits: bool, route: Option<Id>, acquired: set<(Id, Id)>)
    requires Reachable(db) && Linked(db)
    ensures AnswerWork(db, now, work, request, message, fits, route, acquired).Done? <==> MayAnswer(db, work, request, message, fits)
  {
    hide Reachable, Linked, Inv, Blank, Bytes, Continued, LastQuestion;
    ReachableIsSound(db);
    if work in db.sessions { OneAnswerEach(db, work); }
    if work in db.sessions && db.sessions[work].state.WorkNeedsInput? { Guarantees.WaitingWorkIsAnswerable(db, work); }
  }

  /** Why a retry is refused: the Work is of another Run or unknown, it neither failed nor was cancelled, it was
      replaced, its Run is full, or no Worker was found, in this order. */
  lemma RetryRefusals(db: DB, now: int, run: Id, work: Id, route: Option<Id>, acquired: set<(Id, Id)>)
    requires Reachable(db) && Linked(db)
    ensures var o := RetrySession(db, now, run, work, route, acquired);
      var known := work in db.sessions && db.sessions[work].run == run;
      var over := known && (db.sessions[work].state == WorkFailed || db.sessions[work].state == WorkCancelled);
      var replaced := exists x <- db.sessions :: db.sessions[x].predecessor == Some(work);
      var full := run in db.runs && db.runs[run].limit <= |F.Taking(db, run)|;
      && (o == Refused(NotFound) <==> !known)
      && (o == Refused(RetryNotAllowed) <==> known && !over)
      && (o == Refused(WorkReplaced) <==> over && replaced)
      && (o == Refused(ConcurrencyFull) <==> over && !replaced && full)
      && (o == Refused(NoEligibleWorker) <==> over && !replaced && !full && route == None)
  {
    hide Reachable, Linked, Inv, RetryGuard, Slots, F.Taking;
    if work in db.sessions { WorkHasRun(db, work); }
    if work in db.sessions && (db.sessions[work].state.WorkFailed? || db.sessions[work].state.WorkCancelled?) {
      F.CountsAgree(db, db.sessions[work].run, 0, 0);
      Lineage.RetryGuardIsReplacement(db, work);
      ReachableIsSound(db);
      EndedIsUnowned(db, work);
    }
  }

  /** Why an answer in order is refused: unknown Work, a request that gave another answer, Work that is not waiting,
      or a prompt that does not fit, in this order. */
  lemma AnswerRefusals(db: DB, now: int, work: Id, request: string, message: string, fits: bool, route: Option<Id>, acquired: set<(Id, Id)>)
    requires Reachable(db) && Linked(db) && !Blank(message) && Bytes(message) <= 8192
    ensures var o := AnswerWork(db, now, work, request, message, fits, route, acquired);
      var known := work in db.sessions;
      var repeated := known && exists a <- db.sessions[work].answers :: a.request == request;
      var waiting := known && db.sessions[work].state == WorkNeedsInput;
      && (o == Refused(NotFound) <==> !known)
      && (o == Refused(AnswerConflict) <==> repeated && forall a <- db.sessions[work].answers :: a.request == request ==> a.message != message)
      && (o == Refused(AnswerNotAllowed) <==> known && !repeated && !waiting)
      && (o == Refused(PromptTooLarge) <==> !repeated && waiting && !fits)
  {
    hide Reachable, Linked, Inv, Blank, Bytes, Continued, LastQuestion;
    ReachableIsSound(db);
    if work in db.sessions { OneAnswerEach(db, work); }
    if work in db.sessions && db.sessions[work].state.WorkNeedsInput? { Guarantees.WaitingWorkIsAnswerable(db, work); }
  }

  // ---------------------------------------------------------------- admission

  lemma ContinuesSomething(db: DB, flavour: Flavour, procedure: Id, t: Target, p: Option<Id>)
    requires Linked(db) && A.Continues(db, flavour, procedure, t, p)
    ensures Predecessor(db, flavour, procedure, t) == Choose(p)
  {
    hide Linked, A.SameLine, A.Tail, TerminalTails, LiveMatch, Newest, A.Over;
    A.TailsAgree(db, flavour, procedure, t);
    var tails := TerminalTails(db, flavour, procedure, t);
    if tails != {} {
      A.TailsExist(db, flavour, procedure, t);
    }
  }

  /** Admissible targets, each of which continues something or nothing as its kind of Run wants it. */
  ghost predicate MayAdmit(db: DB, flavour: Flavour, r: NewRun, targets: seq<Target>)
    requires Linked(db)
  {
    if A.Known(db, r.requestKey) then exists x <- db.runs :: db.runs[x].requestKey == r.requestKey && db.runs[x].digest == r.digest
    else A.Admissible(db, flavour, r, targets) && forall t <- targets :: exists p :: A.Continues(db, flavour, r.procedure, t, p)
  }

  lemma AdmissionIsAccepted(db: DB, now: int, flavour: Flavour, r: NewRun, targets: seq<Target>, acquired: set<(Id, Id)>)
    requires Linked(db) && KeysUnique(db)
    ensures Admit(db, now, flavour, r, targets, acquired).Done? <==> MayAdmit(db, flavour, r, targets)
  {
    hide Linked, TargetsError, Predecessor, A.Admissible, A.Continues, AdmitTargets;
    TargetsAreAccepted(db, flavour, r, targets);
  }

  lemma TargetsAreAccepted(db: DB, flavour: Flavour, r: NewRun, targets: seq<Target>)
    requires Linked(db)
    ensures 1 <= r.limit && TargetsError(db, flavour, r, targets).None? <==>
      A.Admissible(db, flavour, r, targets) && forall t <- targets :: exists p :: A.Continues(db, flavour, r.procedure, t, p)
  {
    hide Linked, Predecessor, A.Continues, F.Open, RepositoryOpen, FirstRejection;
    forall t | t in targets ensures F.Open(db, t.repository) <==> RepositoryOpen(db, t.repository) { F.CountsAgree(db, 0, 0, t.repository); }
    forall t | t in targets
      ensures Predecessor(db, flavour, r.procedure, t).Choose? <==> exists p :: A.Continues(db, flavour, r.procedure, t, p)
    {
      if Predecessor(db, flavour, r.procedure, t).Choose? { A.PredecessorContinues(db, flavour, r.procedure, t); }
      if p :| A.Continues(db, flavour, r.procedure, t, p) { ContinuesSomething(db, flavour, r.procedure, t, p); }
    }
  }

  /** Why a target that is in order is refused: live Work of its line, ended Work that a first Build would pass by, or
      none that a rebuild could continue. */
  lemma PredecessorRefusals(db: DB, flavour: Flavour, procedure: Id, t: Target)
    requires Linked(db)
    ensures var o := Predecessor(db, flavour, procedure, t);
      var linked := !flavour.TaskRun? && flavour != ProcedureRun(false);
      var live := exists x <- db.sessions :: A.SameLine(db, flavour, procedure, t, x) && !A.Over(db.sessions[x].state);
      var ended := exists x <- db.sessions :: A.Tail(db, flavour, procedure, t, x);
      && (o == Reject(DuplicateActive) <==> linked && live)
      && (o == Reject(RebuildRequired) <==> linked && !live && ended && !flavour.rebuild)
      && (o == Reject(NoPredecessor) <==> linked && !live && !ended && flavour.rebuild)
  {
    hide Linked, A.SameLine, A.Tail, TerminalTails, LiveMatch, Newest, A.Over;
    A.TailsAgree(db, flavour, procedure, t);
    var tails := TerminalTails(db, flavour, procedure, t);
    A.TailsExist(db, flavour, procedure, t);
    if tails != {} {
      var x :| x in tails;
      assert A.Tail(db, flavour, procedure, t, x);
    }
  }

  /** A key is in conflict exactly when it is known with other inputs only. */
  lemma KeyRefusals(db: DB, now: int, flavour: Flavour, r: NewRun, targets: seq<Target>, acquired: set<(Id, Id)>)
    requires Linked(db) && KeysUnique(db)
    ensures Admit(db, now, flavour, r, targets, acquired) == Refused(KeyConflict) <==>
      A.Known(db, r.requestKey) && forall x <- db.runs :: db.runs[x].requestKey == r.requestKey ==> db.runs[x].digest != r.digest
  {
    hide Linked, Predecessor, AdmitTargets;
    if !KeyTaken(db, r.requestKey) && 1 <= r.limit {
      TargetsNameNoKey(db, flavour, r, targets);
      hide TargetsError;
    }
  }

  lemma TargetsNameNoKey(db: DB, flavour: Flavour, r: NewRun, targets: seq<Target>)
    requires Linked(db)
    ensures TargetsError(db, flavour, r, targets) != Some(KeyConflict)
  {
    hide Linked, RepositoryOpen, TerminalTails, LiveMatch;
    if exists t <- targets :: Predecessor(db, flavour, r.procedure, t).Reject? { RejectionNamesNoKey(db, flavour, r.procedure, targets); }
    hide FirstRejection, Predecessor;
  }

  lemma {:induction false} RejectionNamesNoKey(db: DB, flavour: Flavour, procedure: Id, targets: seq<Target>)
    requires Linked(db) && exists t <- targets :: Predecessor(db, flavour, procedure, t).Reject?
    ensures FirstRejection(db, flavour, procedure, targets) != Some(KeyConflict)
  {
    hide Linked, TerminalTails, LiveMatch;
    if Predecessor(db, flavour, procedure, targets[0]).Choose? { RejectionNamesNoKey(db, flavour, procedure, targets[1..]); }
  }

  // ---------------------------------------------------------------- claims

  predicate MayClaim(db: DB, now: int, worker: Id, request: string, token: Token) {
    && !Blank(request) && Bytes(request) <= 200 && 32 <= Bytes(token) <= 1024
    && worker in db.workers && db.workers[worker].currentProtocol
    && ((worker, request) in db.claims ==>
          var stored := db.claims[(worker, request)];
          stored.token == token && (stored.attempt.Some? ==> LeaseLives(db, stored.attempt.value, token, now)))
  }

  lemma ClaimIsAccepted(db: DB, now: int, worker: Id, request: string, token: Token, attempt: Id, routing: Routing)
    requires Linked(db) && attempt !in db.attempts
    ensures Claim(db, now, worker, request, token, attempt, routing).Done? <==> MayClaim(db, now, worker, request, token)
  {
    hide Linked, Blank, Bytes, TakeWork, Leased, LeaseLives;
    if (worker, request) in db.claims {
      if db.claims[(worker, request)].attempt.Some? {
        F.BoundAttemptExists(db, worker, request);
        if ValidToken(token) { LeaseAgrees(db, db.claims[(worker, request)].attempt.value, token, now); }
      }
      F.BasisIsLinked(db, worker, request);
    }
    if worker in db.workers {
      TakingIsAccepted(db, now, worker, request, token, attempt, routing);
      if (worker, request) in db.claims {
        TakingIsAccepted(db.(claims := db.claims - {(worker, request)}), now, worker, request, token, attempt, routing);
      }
    }
  }

  lemma TakingIsAccepted(db: DB, now: int, worker: Id, request: string, token: Token, attempt: Id, routing: Routing)
    requires Linked(db) && worker in db.workers && attempt !in db.attempts
    ensures TakeWork(db, now, worker, request, token, attempt, routing).Done?
  {
    hide Linked, Prepared, ClaimableKeys, Assign, ActiveOf, F.PreparedBy;
    F.PreparesFairly(db, now, worker, routing);
    F.PreparedKeepsAttempts(db, Prepared(db, now, worker, routing), now, worker, routing);
  }

  /** Why a claim in order is refused: an unknown or outdated Worker, a request made with another token, or an Attempt
      whose lease no longer lives, in this order. */
  lemma ClaimRefusals(db: DB, now: int, worker: Id, request: string, token: Token, attempt: Id, routing: Routing)
    requires Linked(db) && attempt !in db.attempts && !Blank(request) && Bytes(request) <= 200 && 32 <= Bytes(token) <= 1024
    ensures var o := Claim(db, now, worker, request, token, attempt, routing);
      var current := worker in db.workers && db.workers[worker].currentProtocol;
      var stored := (worker, request) in db.claims;
      && (o == Refused(NotFound) <==> worker !in db.workers)
      && (o == Refused(UpgradeRequired) <==> worker in db.workers && !current)
      && (o == Refused(ClaimConflict) <==> current && stored && db.claims[(worker, request)].token != token)
      && (o == Refused(NotOwner) <==>
            && current && stored && db.claims[(worker, request)].token == token && db.claims[(worker, request)].attempt.Some?
            && !LeaseLives(db, db.claims[(worker, request)].attempt.value, token, now))
  {
    hide Linked, Blank, Bytes, TakeWork, Leased, LeaseLives;
    if (worker, request) in db.claims {
      if db.claims[(worker, request)].attempt.Some? {
        F.BoundAttemptExists(db, worker, request);
        LeaseAgrees(db, db.claims[(worker, request)].attempt.value, token, now);
      }
      F.BasisIsLinked(db, worker, request);
    }
    if worker in db.workers {
      TakingIsAccepted(db, now, worker, request, token, attempt, routing);
      if (worker, request) in db.claims {
        TakingIsAccepted(db.(claims := db.claims - {(worker, request)}), now, worker, request, token, attempt, routing);
      }
    }
  }
}
