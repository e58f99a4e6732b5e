/** What each accepted transaction does to the rows, column by column. */
module Effects {
  import opened Common
  import opened Text
  import opened Tables
  import opened Transitions
  import opened Invariant
  import opened LeaseSteps
  import opened ClaimSteps
  import opened WorkSteps
  import opened AdmissionSteps
  import opened Registration
  import F = Fairness

  /** Only one Work's rows, its Run's end, and the Attempts change. */
  ghost predicate OnlyWork(db: DB, next: DB, id: Id) {
    && next.sessions.Keys == db.sessions.Keys && (forall x <- db.sessions :: x != id ==> next.sessions[x] == db.sessions[x])
    && (forall x :: x != id ==> (x in next.executions <==> x in db.executions))
    && (forall x <- db.executions :: x != id ==> x in next.executions && next.executions[x] == db.executions[x])
    && next.runs.Keys == db.runs.Keys
    && (forall r <- db.runs :: next.runs[r] == db.runs[r].(terminalAt := next.runs[r].terminalAt)
                               && (id !in db.sessions || db.sessions[id].run != r ==> next.runs[r] == db.runs[r]))
    && next.workers == db.workers && next.repositories == db.repositories && next.rows == db.rows && next.claims == db.claims
  }

  /** Only one Attempt's row changes. */
  predicate OnlyAttempt(db: DB, next: DB, attempt: Id) {
    next.attempts.Keys == db.attempts.Keys && forall a <- db.attempts :: a != attempt ==> next.attempts[a] == db.attempts[a]
  }

  /** Rewriting one Work's rows changes no others. */
  lemma CommitRows(db: DB, attempt: Option<(Id, Attempt)>, id: Id, s: Session, e: Option<Execution>, t: Option<int>)
    requires id in db.sessions && s.run == db.sessions[id].run && s.run in db.runs
    ensures var next := Commit(db, attempt, id, s, e, t);
      && next.sessions == db.sessions[id := s] && next.runs[s.run].terminalAt == t
      && next.executions == (if e.Some? then db.executions[id := e.value] else db.executions)
      && next.attempts == (if attempt.Some? then db.attempts[attempt.value.0 := attempt.value.1] else db.attempts)
      && next.mirrors == db.mirrors && next.updateRequests == db.updateRequests && s.run in next.runs && OnlyWork(db, next, id)
  {
  }

  // ---------------------------------------------------------------- starting

  /** The first start makes everything run; a later one may only clear the commit the runtime started from. */
  ghost predicate StartsWork(db: DB, next: DB, now: int, attempt: Id, from: Sha, runtimeStarted: bool) {
    && attempt in db.attempts && db.attempts[attempt].session in db.sessions && db.attempts[attempt].session in db.executions
    && OnlyWork(db, next, db.attempts[attempt].session)
    && var a := db.attempts[attempt];
    var id := a.session;
    var s, e := db.sessions[id], db.executions[id];
    if a.state == AttemptPreparing then
      && !runtimeStarted && (s.pendingResume == "" || s.pendingResume == from)
      && next.attempts == db.attempts[attempt := a.(state := AttemptRunning)]
      && next.executions == db.executions[id := e.(state := ExecRunning)]
      && id in next.sessions
      && next.sessions == db.sessions[id := next.sessions[id]]
      && next.sessions[id] == s.(state := WorkRunning, owner := OwnerWorkerAttempt, startedAt := next.sessions[id].startedAt)
      && next.sessions[id].startedAt == Some(if s.startedAt.Some? then s.startedAt.value else now)
    else
      && next.attempts == db.attempts && next.executions == db.executions
      && next.sessions == db.sessions[id := if runtimeStarted && s.pendingResume == from then s.(pendingResume := "") else s]
  }

  lemma StartsTheWork(db: DB, now: int, attempt: Id, token: Token, from: Sha, runtimeStarted: bool)
    requires Linked(db)
    ensures var o := StartAttempt(db, now, attempt, token, from, runtimeStarted);
      o.Done? ==> StartsWork(db, o.db, now, attempt, from, runtimeStarted)
  {
    hide Linked, ValidToken, ValidCommitSha, Commit, OnlyWork;
    if LeaseError(db, attempt, token, now).None? {
      LeaseHasWork(db, attempt);
      var a := db.attempts[attempt];
      var s, e := db.sessions[a.session], db.executions[a.session];
      NothingElse(db, a.session);
      CommitRows(db, Some((attempt, a.(state := AttemptRunning))), a.session, Started(s, now), Some(e.(state := ExecRunning)), EndOf(db, s));
      CommitRows(db, None, a.session, s.(pendingResume := ""), None, EndOf(db, s));
    }
  }

  /** A heartbeat extends the lease by thirty seconds and changes nothing else. */
  lemma BeatsOnly(db: DB, now: int, attempt: Id, token: Token)
    requires Linked(db)
    ensures var o := Heartbeat(db, now, attempt, token);
      o.Done? ==> attempt in db.attempts && o.db == db.(attempts := db.attempts[attempt := db.attempts[attempt].(expiry := now + 30_000)])
  {
    hide Linked, ValidToken;
    if Heartbeat(db, now, attempt, token).Done? {
      LeaseHasWork(db, attempt);
      var s := db.sessions[db.attempts[attempt].session];
      assert db.runs[s.run := db.runs[s.run].(terminalAt := EndOf(db, s))] == db.runs;
      assert db.sessions[db.attempts[attempt].session := s] == db.sessions;
    }
  }

  // ---------------------------------------------------------------- stages

  /** One stage starts, and it is the first that has not succeeded. */
  predicate StartsStage(s: Session, t: Session, position: int) {
    && t == s.(stages := t.stages) && 0 <= position < |s.stages| == |t.stages|
    && t.stages[position] == s.stages[position].(state := StageRunning)
    && (s.stages[position].state == StagePending || s.stages[position].state == StageRunning)
    && (forall i :: 0 <= i < position ==> s.stages[i].state == StageSucceeded)
    && (forall i :: 0 <= i < |s.stages| && i != position ==> t.stages[i] == s.stages[i])
  }

  /** Of the tables, one stage of the Attempt's Work starts. */
  ghost predicate BeginsStage(db: DB, next: DB, attempt: Id, position: int) {
    && attempt in db.attempts
    && var id := db.attempts[attempt].session;
    && id in db.sessions && id in next.sessions && StartsStage(db.sessions[id], next.sessions[id], position)
    && OnlyWork(db, next, id) && next.executions == db.executions && next.attempts == db.attempts
  }

  lemma StartsOneStage(db: DB, now: int, attempt: Id, token: Token, position: int)
    requires Linked(db)
    ensures var o := StartStage(db, now, attempt, token, position);
      o.Done? ==> BeginsStage(db, o.db, attempt, position)
  {
    hide Linked, ValidToken, Commit, OnlyWork;
    if StartStage(db, now, attempt, token, position).Done? {
      LeaseHasWork(db, attempt);
      var id := db.attempts[attempt].session;
      var s := db.sessions[id];
      CommitRows(db, None, id, s.(stages := s.stages[position := s.stages[position].(state := StageRunning)]), None, EndOf(db, s));
      assert forall i :: 0 <= i < position ==> s.stages[..position][i] == s.stages[i];
    }
  }

  /** One running stage ends as reported; unless it succeeded every stage after it that was pending is cancelled.  A
      stage that has ended already is left alone if the report repeats it. */
  predicate EndsStage(s: Session, t: Session, position: int, ended: Stage) {
    && 0 <= position < |s.stages|
    && if s.stages[position].state != StageRunning then t == s && s.stages[position] == ended
       else
         && t == s.(stages := t.stages) && |t.stages| == |s.stages| && t.stages[position] == ended
         && (forall i :: 0 <= i < position ==> t.stages[i] == s.stages[i])
         && (forall i :: position < i < |s.stages| ==>
               t.stages[i] == if s.stages[i].state == StagePending && ended.state != StageSucceeded
                              then s.stages[i].(state := StageCancelled) else s.stages[i])
  }

  /** Of the tables, one stage of the Attempt's Work ends. */
  ghost predicate FinishesStage(db: DB, next: DB, attempt: Id, position: int, ended: Stage) {
    && ended.state in {StageSucceeded, StageFailed, StageCancelled} && attempt in db.attempts
    && var id := db.attempts[attempt].session;
    && id in db.sessions && id in next.sessions && EndsStage(db.sessions[id], next.sessions[id], position, ended)
    && OnlyWork(db, next, id) && next.executions == db.executions && next.attempts == db.attempts
  }

  lemma EndsOneStage(db: DB, now: int, attempt: Id, token: Token, position: int, ended: Stage)
    requires Linked(db)
    ensures var o := CompleteStage(db, now, attempt, token, position, ended);
      o.Done? ==> FinishesStage(db, o.db, attempt, position, ended)
  {
    hide Linked, ValidToken, Bytes, Commit, OnlyWork, EndsStage;
    if CompleteStage(db, now, attempt, token, position, ended).Done? {
      LeaseHasWork(db, attempt);
      var id := db.attempts[attempt].session;
      var s := db.sessions[id];
      NothingElse(db, id);
      EndStageEnds(s, position, ended);
      CommitRows(db, None, id, s.(stages := EndStage(s.stages, position, ended)), None, EndOf(db, s));
      hide EndStage;
    }
  }

  lemma EndStageEnds(s: Session, position: nat, ended: Stage)
    requires position < |s.stages|
    ensures s.stages[position].state == StageRunning ==> EndsStage(s, s.(stages := EndStage(s.stages, position, ended)), position, ended)
    ensures s.stages[position].state != StageRunning && s.stages[position] == ended ==> EndsStage(s, s, position, ended)
  {
  }

  // ---------------------------------------------------------------- reporting

  /** A new report is appended as it was sent; a repeated one adds nothing. */
  predicate AppendsReport(db: DB, next: DB, now: int, attempt: Id, input: UpdateInput)
    requires attempt in db.attempts && db.attempts[attempt].session in db.sessions
  {
    var id := db.attempts[attempt].session;
    var s := db.sessions[id];
    && id in next.sessions
    && next.sessions == db.sessions[id := s.(updates := next.sessions[id].updates)]
    && (next.sessions[id].updates == s.updates
        || next.sessions[id].updates == s.updates + [WorkUpdate(attempt, input.request, input.status, input.message,
             input.pullRequest, input.checkpoint, input.published, now)])
    && next.attempts == db.attempts && next.executions == db.executions
  }

  /** Of the tables, the Attempt's Work has the report; a first report that no earlier one made final is a new one. */
  ghost predicate FilesReport(db: DB, next: DB, now: int, attempt: Id, input: UpdateInput) {
    && attempt in db.attempts
    && var id := db.attempts[attempt].session;
    && id in db.sessions && AppendsReport(db, next, now, attempt, input) && OnlyWork(db, next, id)
    && ((attempt, input.request) !in db.updateRequests && NothingFinal(db.sessions[id].updates, attempt) ==>
          |next.sessions[id].updates| == |db.sessions[id].updates| + 1)
  }

  /** All that the Attempt has reported is progress. */
  predicate NothingFinal(updates: seq<WorkUpdate>, attempt: Id) {
    forall u <- updates :: u.attempt == attempt ==> u.status == UpdateRunning
  }

  lemma AppendsTheReport(db: DB, now: int, attempt: Id, token: Token, input: UpdateInput, fits: bool)
    requires Linked(db)
    ensures var o := AppendUpdate(db, now, attempt, token, input, fits);
      o.Done? ==> FilesReport(db, o.db, now, attempt, input)
  {
    hide ValidToken, UpdateInputError, FreshUpdate, OnlyWork, AppendsReport, OutcomeOf, SessionsLinked, AttemptsLinked;
    if AppendUpdate(db, now, attempt, token, input, fits).Done? {
      LeaseHasWork(db, attempt);
      var id := db.attempts[attempt].session;
      NothingElse(db, id);
      FinalIsOutcome(db.sessions[id].updates, attempt);
      hide NothingFinal;
      NothingAppended(db, now, attempt, input);
      FreshAppends(db, now, attempt, token, input, fits);
    }
  }

  lemma FinalIsOutcome(updates: seq<WorkUpdate>, attempt: Id)
    ensures NothingFinal(updates, attempt) <==> OutcomeOf(updates, attempt).None?
  {
  }

  lemma NothingAppended(db: DB, now: int, attempt: Id, input: UpdateInput)
    requires attempt in db.attempts && db.attempts[attempt].session in db.sessions
    ensures AppendsReport(db, db, now, attempt, input)
  {
  }

  lemma FreshAppends(db: DB, now: int, attempt: Id, token: Token, input: UpdateInput, fits: bool)
    requires Linked(db) && attempt in db.attempts && db.attempts[attempt].session in db.sessions
    ensures var o := FreshUpdate(db, now, attempt, token, input, fits);
      o.Done? ==>
        && AppendsReport(db, o.db, now, attempt, input) && OnlyWork(db, o.db, db.attempts[attempt].session)
        && (OutcomeOf(db.sessions[db.attempts[attempt].session].updates, attempt).None? ==>
              |o.db.sessions[db.attempts[attempt].session].updates| == |db.sessions[db.attempts[attempt].session].updates| + 1)
  {
    hide Linked, Leased, OutcomeOf, ProgressCount, Commit, OnlyWork, AppendsReport;
    LeaseHasWork(db, attempt);
    var id := db.attempts[attempt].session;
    var s := db.sessions[id];
    var u := WorkUpdate(attempt, input.request, input.status, input.message, input.pullRequest, input.checkpoint, input.published, now);
    var o := FreshUpdate(db, now, attempt, token, input, fits);
    if o.Done? && OutcomeOf(s.updates, attempt).None? {
      var next := Commit(db, None, id, s.(updates := s.updates + [u]), None, EndOf(db, s));
      CommitRows(db, None, id, s.(updates := s.updates + [u]), None, EndOf(db, s));
      RequestsAside(db, next, id);
      ReportAppends(db, o.db, now, attempt, input);
    } else if o.Done? {
      NothingElse(db, id);
      ReportAppends(db, o.db, now, attempt, input);
    }
  }

  lemma ReportAppends(db: DB, next: DB, now: int, attempt: Id, input: UpdateInput)
    requires attempt in db.attempts && db.attempts[attempt].session in db.sessions && next.attempts == db.attempts && next.executions == db.executions
    requires var id := db.attempts[attempt].session;
      var s := db.sessions[id];
      || next.sessions == db.sessions
      || next.sessions == db.sessions[id := s.(updates := s.updates + [WorkUpdate(attempt, input.request, input.status, input.message,
           input.pullRequest, input.checkpoint, input.published, now)])]
    ensures AppendsReport(db, next, now, attempt, input)
  {
  }

  lemma NothingElse(db: DB, id: Id)
    ensures OnlyWork(db, db, id)
    ensures id in db.sessions ==> db.sessions[id := db.sessions[id]] == db.sessions
    ensures forall requests :: OnlyWork(db, db.(updateRequests := requests), id)
  {
  }

  lemma RequestsAside(db: DB, next: DB, id: Id)
    requires OnlyWork(db, next, id)
    ensures forall requests :: OnlyWork(db, next.(updateRequests := requests), id)
  {
  }

  // ---------------------------------------------------------------- completing

  /** How an Attempt and its Work end.  Cancellation comes first; an agent that was to report and claims success ends
      the Work with the status it reported, or fails it if it reported nothing; otherwise the claim stands. */
  predicate EndStates(cancel: bool, reports: bool, outcome: Option<WorkUpdate>, claimed: AttemptState, b: AttemptState, w: WorkState) {
    if cancel then b == AttemptCancelled && w == WorkCancelled
    else if reports && claimed == AttemptSucceeded then
      if outcome.None? then b == AttemptFailed && w == WorkFailed
      else
        && b == AttemptSucceeded
        && (w == WorkReady <==> outcome.value.status == UpdateReady)
        && (w == WorkNeedsInput <==> outcome.value.status == UpdateNeedsInput)
        && (w == WorkFailed <==> outcome.value.status == UpdateFailed)
        && (w == WorkNoChange <==> outcome.value.status == UpdateNoChange)
    else
      && b == claimed
      && (claimed == AttemptSucceeded ==> w == WorkSucceeded) && (claimed == AttemptFailed ==> w == WorkFailed)
      && (claimed == AttemptCancelled ==> w == WorkCancelled)
  }

  lemma JudgeEnds(cancel: bool, contract: Contract, outcome: Option<WorkUpdate>, claimed: AttemptState, result: string, error: string)
    requires claimed.AttemptSucceeded? || claimed.AttemptFailed? || claimed.AttemptCancelled?
    requires outcome.Some? ==> !outcome.value.status.UpdateRunning?
    ensures var v := Judge(cancel, contract, outcome, claimed, result, error);
      && EndStates(cancel, contract.AgentUpdate?, outcome, claimed, v.state, v.work)
      && (cancel || (contract.AgentUpdate? && claimed == AttemptSucceeded) ==> v.result == "" && (v.error != "" <==> v.missing))
      && (v.missing <==> !cancel && contract.AgentUpdate? && claimed == AttemptSucceeded && outcome.None?)
      && (!cancel && !(contract.AgentUpdate? && claimed == AttemptSucceeded) ==> v.result == result && v.error == error)
  {
  }

  /** The part of a pull request that was reported replaces what was on record. */
  predicate Recorded(before: PullRequest, reported: PullRequest, after: PullRequest) {
    && after.url == (if reported.url != "" then reported.url else before.url)
    && after.branch == (if reported.branch != "" then reported.branch else before.branch)
    && after.sha == (if reported.sha != "" then reported.sha else before.sha)
  }

  /** The columns of a Session that an Attempt's end writes, besides its stages. */
  predicate EndsColumns(s: Session, t: Session, now: int, succeeded: bool, outcome: Option<WorkUpdate>) {
    var asked := outcome.Some? && outcome.value.status == UpdateNeedsInput;
    && t.owner == OwnerNone
    && t == s.(state := t.state, owner := t.owner, stages := t.stages, terminalAt := t.terminalAt, question := t.question, answer := t.answer,
               checkpoint := t.checkpoint, pendingResume := t.pendingResume, published := t.published, pullRequest := t.pullRequest)
    && (t.state == WorkNeedsInput ==>
          outcome.Some? && t.terminalAt == None && t.question == outcome.value.message && t.answer == "" && t.pullRequest == s.pullRequest)
    && (t.state != WorkNeedsInput ==> t.terminalAt == Some(now) && t.question == s.question && t.answer == s.answer)
    && (if asked then t.checkpoint == outcome.value.checkpoint && t.pendingResume == outcome.value.checkpoint && t.published == outcome.value.published
        else t.checkpoint == s.checkpoint && t.pendingResume == s.pendingResume && t.published == s.published)
    && (t.state != WorkNeedsInput && outcome.Some? && succeeded ==> Recorded(s.pullRequest, outcome.value.pullRequest, t.pullRequest))
    && (outcome.Some? && !succeeded ==>
          t.pullRequest == if outcome.value.status == UpdateReady then outcome.value.pullRequest else s.pullRequest)
    && (outcome.None? ==> t.pullRequest == s.pullRequest)
  }

  /** The stages once the Attempt has ended: all succeeded, or none open any more. */
  predicate EndsStages(s: seq<Stage>, t: seq<Stage>, b: AttemptState, missing: bool, result: string, error: string) {
    && |t| == |s|
    && if b == AttemptSucceeded then
         && (forall i :: 0 <= i < |t| ==> t[i].state == StageSucceeded)
         && (t == s || (|s| == 1 && (s[0].state == StagePending || s[0].state == StageRunning) && t[0].result == result && t[0].error == ""))
       else
         forall i :: 0 <= i < |t| ==>
           match s[i].state
           case StageRunning => t[i] == s[i].(state := if b == AttemptCancelled then StageCancelled else StageFailed, error := error)
           case StagePending => t[i] == s[i].(state := StageCancelled)
           case StageSucceeded =>
             if missing && i == |s| - 1 then t[i] == s[i].(state := StageFailed, error := error) else t[i] == s[i]
           case _ => t[i] == s[i]
  }

  lemma JudgedColumns(s: Session, now: int, v: Verdict, outcome: Option<WorkUpdate>)
    requires |s.stages| > 0 && (v.work.WorkNeedsInput? ==> outcome.Some? && outcome.value.status.UpdateNeedsInput? && v.state.AttemptSucceeded?)
    requires v.state.AttemptSucceeded? && outcome.Some? && outcome.value.status.UpdateNeedsInput? ==> v.work.WorkNeedsInput?
    ensures EndsColumns(s, JudgedSession(s, now, v, outcome), now, v.state.AttemptSucceeded?, outcome)
    ensures JudgedSession(s, now, v, outcome).state == v.work && JudgedSession(s, now, v, outcome).stages == JudgedStages(s.stages, v)
  {
    hide JudgedStages;
  }

  lemma JudgedStagesEnd(stages: seq<Stage>, v: Verdict)
    requires |stages| > 0 && (v.state.AttemptSucceeded? ==> !v.missing && AllSucceeded(JudgedStages(stages, v)))
    requires v.state.AttemptSucceeded? || v.state.AttemptFailed? || v.state.AttemptCancelled?
    ensures EndsStages(stages, JudgedStages(stages, v), v.state, v.missing, v.result, v.error)
  {
  }

  /** The Session with its Run and its execution. */
  predicate HasRows(db: DB, id: Id) { id in db.sessions && db.sessions[id].run in db.runs && id in db.executions }

  /** A live Attempt ends: its own row, its Work's and its execution's, and its Run's end. */
  ghost predicate EndsAttempt(db: DB, next: DB, now: int, attempt: Id, claimed: AttemptState, result: string, error: string) {
    && attempt in db.attempts && HasRows(db, db.attempts[attempt].session) && OnlyWork(db, next, db.attempts[attempt].session)
    && var a := db.attempts[attempt];
    var id := a.session;
    var s, e := db.sessions[id], db.executions[id];
    var reports := db.runs[s.run].contract == AgentUpdate;
    var outcome := if reports then OutcomeOf(s.updates, attempt) else None;
    var missing := !e.cancel && reports && claimed == AttemptSucceeded && outcome == None;
    && id in next.sessions && id in next.executions && attempt in next.attempts
    && var t, f, b := next.sessions[id], next.executions[id], next.attempts[attempt];
    && EndStates(e.cancel, reports, outcome, claimed, b.state, t.state)
    && EndsColumns(s, t, now, b.state == AttemptSucceeded, outcome)
    && b == a.(state := b.state, result := b.result, error := b.error)
    && EndsStages(s.stages, t.stages, b.state, missing, b.result, b.error)
    && (!e.cancel && !(reports && claimed == AttemptSucceeded) ==> b.result == result && b.error == error)
    && (missing ==> b.error != "")
    && f == e.(state := f.state)
    && (b.state == AttemptSucceeded ==> f.state == ExecSucceeded) && (b.state == AttemptFailed ==> f.state == ExecFailed)
    && (b.state == AttemptCancelled ==> f.state == ExecCancelled)
  }

  lemma EndingRows(db: DB, now: int, attempt: Id, v: Verdict, outcome: Option<WorkUpdate>)
    requires Linked(db) && attempt in db.attempts
    ensures var o, id := Ending(db, now, attempt, v, outcome), db.attempts[attempt].session;
      id in db.sessions && id in db.executions && db.sessions[id].run in db.runs &&
      (o.Done? ==>
        && |db.sessions[id].stages| > 0 && (v.state.AttemptSucceeded? ==> AllSucceeded(JudgedStages(db.sessions[id].stages, v)))
        && o.db.sessions == db.sessions[id := JudgedSession(db.sessions[id], now, v, outcome)]
        && o.db.executions == db.executions[id := db.executions[id].(state := ExecutionOf(v.state))]
        && o.db.attempts == db.attempts[attempt := db.attempts[attempt].(state := v.state, result := v.result, error := v.error)]
        && OnlyWork(db, o.db, id))
  {
    hide Linked, JudgedStages, AllSucceeded, OtherLive, Commit, OnlyWork, ExecutionOf, JudgedSession;
    LeaseHasWork(db, attempt);
    var a := db.attempts[attempt];
    var s := db.sessions[a.session];
    if s.stages != [] {
      var ended := JudgedSession(s, now, v, outcome);
      SameRun(s, now, v, outcome);
      CommitRows(db, Some((attempt, a.(state := v.state, result := v.result, error := v.error))), a.session, ended,
                 Some(db.executions[a.session].(state := ExecutionOf(v.state))), Settled(db, a.session, ended, now));
    }
  }

  lemma SameRun(s: Session, now: int, v: Verdict, outcome: Option<WorkUpdate>)
    requires s.stages != []
    ensures JudgedSession(s, now, v, outcome).run == s.run
  {
    hide JudgedStages;
  }

  /** A report about an Attempt that has ended already, unless it was lost, changes nothing. */
  ghost predicate EndsOrRepeats(db: DB, next: DB, now: int, attempt: Id, claimed: AttemptState, result: string, error: string) {
    && attempt in db.attempts && db.attempts[attempt].state != AttemptLost
    && if db.attempts[attempt].state in {AttemptPreparing, AttemptRunning} then EndsAttempt(db, next, now, attempt, claimed, result, error)
       else next == db
  }

  lemma EndsTheAttempt(db: DB, now: int, attempt: Id, token: Token, claimed: AttemptState, result: string, error: string)
    requires Linked(db)
    ensures var o := CompleteAttempt(db, now, attempt, token, claimed, result, error);
      o.Done? ==> EndsOrRepeats(db, o.db, now, attempt, claimed, result, error)
  {
    hide Linked, ValidToken, OutcomeOf, Ending, Bytes, Judge, OnlyWork, EndStates, EndsColumns, EndsStages, JudgedSession, JudgedStages;
    if CompleteAttempt(db, now, attempt, token, claimed, result, error).Done? && db.attempts[attempt].state.Active() {
      LeaseHasWork(db, attempt);
      var a := db.attempts[attempt];
      var s, e := db.sessions[a.session], db.executions[a.session];
      var contract := db.runs[s.run].contract;
      var outcome := if contract.AgentUpdate? then OutcomeOf(s.updates, attempt) else None;
      var v := Judge(e.cancel, contract, outcome, claimed, result, error);
      JudgeEnds(e.cancel, contract, outcome, claimed, result, error);
      JudgeAsks(e.cancel, contract, outcome, claimed, result, error);
      EndingRows(db, now, attempt, v, outcome);
      JudgedColumns(s, now, v, outcome);
      JudgedStagesEnd(s.stages, v);
    }
  }

  lemma JudgeAsks(cancel: bool, contract: Contract, outcome: Option<WorkUpdate>, claimed: AttemptState, result: string, error: string)
    requires claimed.AttemptSucceeded? || claimed.AttemptFailed? || claimed.AttemptCancelled?
    requires outcome.Some? ==> !outcome.value.status.UpdateRunning? && contract.AgentUpdate?
    ensures var v := Judge(cancel, contract, outcome, claimed, result, error);
      && (v.work.WorkNeedsInput? ==> outcome.Some? && outcome.value.status.UpdateNeedsInput? && v.state.AttemptSucceeded?)
      && (v.state.AttemptSucceeded? ==> !v.missing)
      && (v.state.AttemptSucceeded? && outcome.Some? && outcome.value.status.UpdateNeedsInput? ==> v.work.WorkNeedsInput?)
  {
  }

  // ---------------------------------------------------------------- sweeping

  /** A lapsed lease: the Attempt is lost and the Work fails, with what was reported kept. */
  ghost predicate LosesAttempt(db: DB, next: DB, now: int, attempt: Id) {
    && attempt in db.attempts && HasRows(db, db.attempts[attempt].session) && OnlyWork(db, next, db.attempts[attempt].session)
    && var a := db.attempts[attempt];
    var id := a.session;
    var s, e := db.sessions[id], db.executions[id];
    && next.attempts == db.attempts[attempt := a.(state := AttemptLost, error := "lease expired")]
    && next.executions == db.executions[id := e.(state := ExecFailed)]
    && id in next.sessions && next.sessions == db.sessions[id := next.sessions[id]]
    && var t := next.sessions[id];
    && t.state == WorkFailed && EndsColumns(s, t, now, false, OutcomeOf(s.updates, attempt))
    && EndsStages(s.stages, t.stages, AttemptLost, false, "", "lease expired")
  }

  lemma LosesTheAttempt(db: DB, now: int, attempt: Id)
    requires Linked(db)
    ensures if attempt in db.attempts && db.attempts[attempt].state.Active() && db.attempts[attempt].expiry <= now
            then LosesAttempt(db, Expire(db, now, attempt), now, attempt)
            else Expire(db, now, attempt) == db
  {
    hide Linked, OutcomeOf, Commit, OnlyWork, OtherLive, EndsColumns, EndsStages, CloseStages;
    if attempt in db.attempts && db.attempts[attempt].state.Active() && db.attempts[attempt].expiry <= now {
      LeaseHasWork(db, attempt);
      var a := db.attempts[attempt];
      var s, e := db.sessions[a.session], db.executions[a.session];
      var ended := ExpiredSession(s, now, OutcomeOf(s.updates, attempt));
      ExpiredColumns(s, now, OutcomeOf(s.updates, attempt));
      hide ExpiredSession;
      CommitRows(db, Some((attempt, a.(state := AttemptLost, error := LEASE_EXPIRED))), a.session, ended,
                 Some(e.(state := ExecFailed)), Settled(db, a.session, ended, now));
    }
  }

  lemma ExpiredColumns(s: Session, now: int, outcome: Option<WorkUpdate>)
    ensures var t := ExpiredSession(s, now, outcome);
      && t.state == WorkFailed && t.run == s.run && EndsColumns(s, t, now, false, outcome)
      && EndsStages(s.stages, t.stages, AttemptLost, false, "", "lease expired")
  {
  }

  /** The lease of the Attempt has run out. */
  predicate Lapsed(db: DB, a: Id, now: int) {
    a in db.attempts && (db.attempts[a].state == AttemptPreparing || db.attempts[a].state == AttemptRunning) && db.attempts[a].expiry <= now
  }

  /** Of these Attempts each whose lease has run out is lost, and each other Attempt is as it was. */
  predicate LosesThese(db: DB, next: DB, now: int, these: set<Id>) {
    && next.attempts.Keys == db.attempts.Keys
    && forall a <- db.attempts :: next.attempts[a] ==
         if a in these && Lapsed(db, a, now) then db.attempts[a].(state := AttemptLost, error := "lease expired") else db.attempts[a]
  }

  predicate LostOne(db: DB, now: int, these: set<Id>, id: Id) { exists a <- these :: Lapsed(db, a, now) && db.attempts[a].session == id }

  /** The Work of a lost Attempt has failed, and other Work is as it was. */
  ghost predicate FailsTheirWork(db: DB, next: DB, now: int, these: set<Id>) {
    && next.sessions.Keys == db.sessions.Keys
    && forall id <- db.sessions ::
         if LostOne(db, now, these, id) then next.sessions[id].state == WorkFailed else next.sessions[id] == db.sessions[id]
  }

  lemma LostRows(db: DB, now: int, attempt: Id)
    requires Linked(db)
    ensures var next := Expire(db, now, attempt);
      if Lapsed(db, attempt, now) then
        && next.attempts == db.attempts[attempt := db.attempts[attempt].(state := AttemptLost, error := "lease expired")]
        && next.sessions.Keys == db.sessions.Keys
        && forall x <- db.sessions ::
             if x == db.attempts[attempt].session then next.sessions[x].state == WorkFailed else next.sessions[x] == db.sessions[x]
      else next == db
  {
    hide Linked, Expire, EndsColumns, EndsStages;
    LosesTheAttempt(db, now, attempt);
  }

  /** One more Attempt is lost, unless its lease lives or it was lost already. */
  lemma LosesOneMore(db: DB, before: DB, now: int, these: set<Id>, attempt: Id)
    requires Linked(before) && LosesThese(db, before, now, these)
    ensures LosesThese(db, Expire(before, now, attempt), now, these + {attempt})
  {
    hide Linked, Expire;
    LostRows(before, now, attempt);
  }

  lemma FailsOneMore(db: DB, before: DB, now: int, these: set<Id>, attempt: Id)
    requires Linked(before) && LosesThese(db, before, now, these) && FailsTheirWork(db, before, now, these)
    ensures FailsTheirWork(db, Expire(before, now, attempt), now, these + {attempt})
  {
    hide Linked, Expire, LostOne, LosesThese, Lapsed;
    LostRows(before, now, attempt);
    StillLapsed(db, before, now, these, attempt);
    forall id | id in db.sessions
      ensures LostOne(db, now, these + {attempt}, id) <==>
        LostOne(db, now, these, id) || (Lapsed(db, attempt, now) && db.attempts[attempt].session == id)
    {
      OneMoreLost(db, now, these, attempt, id);
    }
    if Lapsed(db, attempt, now) && !Lapsed(before, attempt, now) {
      assert LostOne(db, now, these, db.attempts[attempt].session) by { IsLost(db, now, these, attempt); }
    }
  }

  lemma OneMoreLost(db: DB, now: int, these: set<Id>, attempt: Id, id: Id)
    ensures LostOne(db, now, these + {attempt}, id) <==>
      LostOne(db, now, these, id) || (Lapsed(db, attempt, now) && db.attempts[attempt].session == id)
  {
    hide Lapsed;
  }

  lemma IsLost(db: DB, now: int, these: set<Id>, attempt: Id)
    requires attempt in these && Lapsed(db, attempt, now)
    ensures LostOne(db, now, these, db.attempts[attempt].session)
  {
    hide Lapsed;
  }

  lemma StillLapsed(db: DB, before: DB, now: int, these: set<Id>, attempt: Id)
    requires LosesThese(db, before, now, these)
    ensures Lapsed(before, attempt, now) <==> Lapsed(db, attempt, now) && attempt !in these
    ensures attempt in db.attempts ==> attempt in before.attempts && before.attempts[attempt].session == db.attempts[attempt].session
    ensures Lapsed(db, attempt, now) ==> attempt in db.attempts
  {
  }

  function Elements(s: seq<Id>): set<Id> { set a | a in s }

  lemma {:induction false} LosesAll(db: DB, now: int, lapsed: seq<Id>)
    requires Linked(db)
    ensures LosesThese(db, ExpireAll(db, now, lapsed), now, Elements(lapsed))
    ensures FailsTheirWork(db, ExpireAll(db, now, lapsed), now, Elements(lapsed))
    decreases |lapsed|
  {
    hide Linked, ExpireAll, Expire, Lapsed, LostOne, LosesThese, FailsTheirWork;
    if lapsed == [] {
      LosesNone(db, now);
    } else {
      var n := |lapsed| - 1;
      var these := Elements(lapsed[..n]);
      LosesAll(db, now, lapsed[..n]);
      ExpireAllNext(db, now, lapsed);
      assert lapsed == lapsed[..n] + [lapsed[n]];
      assert Elements(lapsed) == these + {lapsed[n]};
      LosesOneMore(db, ExpireAll(db, now, lapsed[..n]), now, these, lapsed[n]);
      FailsOneMore(db, ExpireAll(db, now, lapsed[..n]), now, these, lapsed[n]);
    }
  }

  lemma LosesNone(db: DB, now: int)
    requires Linked(db)
    ensures LosesThese(db, ExpireAll(db, now, []), now, Elements([])) && FailsTheirWork(db, ExpireAll(db, now, []), now, Elements([]))
  {
    hide Lapsed;
  }

  lemma ExpireAllNext(db: DB, now: int, lapsed: seq<Id>)
    requires Linked(db) && lapsed != []
    ensures ExpireAll(db, now, lapsed) == Expire(ExpireAll(db, now, lapsed[..|lapsed| - 1]), now, lapsed[|lapsed| - 1])
  {
  }

  /** A sweep ends every lapsed lease and no other, and forgets the claims that have found nothing for five minutes. */
  ghost predicate SweepsAll(db: DB, next: DB, now: int) {
    && LosesThese(db, next, now, db.attempts.Keys) && FailsTheirWork(db, next, now, db.attempts.Keys)
    && next.claims == map k | k in db.claims && !(db.claims[k].attempt == None && db.claims[k].createdAt < now - 300_000) :: db.claims[k]
  }

  lemma SweepsEverything(db: DB, now: int, lapsed: seq<Id>)
    requires Linked(db)
    ensures var o := Sweep(db, now, lapsed);
      && (o.Done? <==> forall a :: Lapsed(db, a, now) <==> a in lapsed)
      && (o.Done? ==> SweepsAll(db, o.db, now))
  {
    hide Linked, ExpireAll;
    assert forall a :: Lapsed(db, a, now) <==> Expired(db, a, now);
    if ListsLapsed(db, now, lapsed) {
      var start := ForgetEmptyClaims(db, now);
      FewerClaimsLink(db, start);
      LosesAll(start, now, lapsed);
      ClaimsStay(start, now, lapsed);
      hide ListsLapsed, ForgetEmptyClaims;
      forall a ensures Lapsed(start, a, now) <==> Lapsed(db, a, now) {}
    }
  }

  lemma FewerClaimsLink(db: DB, start: DB)
    requires Linked(db) && (forall k <- start.claims :: k in db.claims && start.claims[k] == db.claims[k]) && start == db.(claims := start.claims)
    ensures Linked(start)
  {
  }

  lemma {:induction false} ClaimsStay(db: DB, now: int, lapsed: seq<Id>)
    requires Linked(db)
    ensures ExpireAll(db, now, lapsed).claims == db.claims
    decreases |lapsed|
  {
    if lapsed != [] {
      var n := |lapsed| - 1;
      ClaimsStay(db, now, lapsed[..n]);
      ExpireAllNext(db, now, lapsed);
      hide Linked, ExpireAll, Expire;
      LosesTheAttempt(ExpireAll(db, now, lapsed[..n]), now, lapsed[n]);
    }
  }

  // ---------------------------------------------------------------- cancelling

  /** A cancelled Session: over at once unless an Attempt holds it, which is then asked to stop. */
  predicate CancelsWork(s: Session, t: Session, now: int) {
    match s.state
    case WorkBlocked => EndsCancelled(s, t, now)
    case WorkQueued => EndsCancelled(s, t, now)
    case WorkNeedsInput => EndsCancelled(s, t, now)
    case WorkPreparing => t == s.(cancel := true)
    case WorkRunning => t == s.(cancel := true)
    case _ => t == s
  }

  predicate EndsCancelled(s: Session, t: Session, now: int) {
    && t == s.(state := WorkCancelled, terminalAt := Some(now), owner := OwnerNone, stages := t.stages) && |t.stages| == |s.stages|
    && forall i :: 0 <= i < |s.stages| ==>
         t.stages[i] == if s.stages[i].state == StagePending || s.stages[i].state == StageRunning
                        then s.stages[i].(state := StageCancelled) else s.stages[i]
  }

  predicate CancelsExecution(e: Execution, f: Execution) {
    match e.state
    case ExecQueued => f == e.(state := ExecCancelled)
    case ExecPreparing => f == e.(cancel := true)
    case ExecRunning => f == e.(cancel := true)
    case _ => f == e
  }

  /** Exactly these Sessions and their executions are cancelled; nothing else changes but the Run's end. */
  predicate CancelsExactly(db: DB, next: DB, now: int, run: Id, work: set<Id>) {
    && next.sessions.Keys == db.sessions.Keys && next.executions.Keys == db.executions.Keys
    && (forall id <- db.sessions :: if id in work then CancelsWork(db.sessions[id], next.sessions[id], now) else next.sessions[id] == db.sessions[id])
    && (forall id <- db.executions :: if id in work then CancelsExecution(db.executions[id], next.executions[id]) else next.executions[id] == db.executions[id])
    && run in db.runs && run in next.runs && next.runs == db.runs[run := db.runs[run].(terminalAt := next.runs[run].terminalAt)]
    && next == db.(sessions := next.sessions, executions := next.executions, runs := next.runs)
  }

  lemma CancelsRows(db: DB, now: int, run: Id, work: set<Id>)
    requires run in db.runs
    ensures CancelsExactly(db, CancelAll(db, now, run, work), now, run, work)
  {
    hide HasLiveWork, CancelsWork, CancelsExecution, CancelledSession, CancelledExecution;
    forall id | id in db.sessions ensures CancelsWork(db.sessions[id], CancelledSession(db.sessions[id], now), now) { CancelsOne(db.sessions[id], now); }
    forall id | id in db.executions ensures CancelsExecution(db.executions[id], CancelledExecution(db.executions[id])) {
      CancelsOneExecution(db.executions[id]);
    }
  }

  lemma CancelsOne(s: Session, now: int)
    ensures CancelsWork(s, CancelledSession(s, now), now)
  {
  }

  lemma CancelsOneExecution(e: Execution)
    ensures CancelsExecution(e, CancelledExecution(e))
  {
  }

  /** Cancelling a Run cancels every one of its Sessions, and no other. */
  lemma CancelsTheRun(db: DB, now: int, run: Id)
    ensures var o := CancelRun(db, now, run);
      && (o.Done? <==> run in db.runs)
      && (o.Done? ==> CancelsExactly(db, o.db, now, run, set id | id in db.sessions && db.sessions[id].run == run))
  {
    hide CancelAll, CancelsExactly;
    if run in db.runs {
      assert SessionsOf(db, run) == set id | id in db.sessions && db.sessions[id].run == run;
      CancelsRows(db, now, run, SessionsOf(db, run));
    }
  }

  lemma CancelsTheSession(db: DB, now: int, run: Id, work: Id)
    requires Linked(db)
    ensures var o := CancelSession(db, now, run, work);
      && (o.Done? <==>
            && work in db.sessions && db.sessions[work].run == run
            && db.sessions[work].state in {WorkBlocked, WorkQueued, WorkPreparing, WorkRunning, WorkNeedsInput})
      && (o.Done? ==> CancelsExactly(db, o.db, now, run, {work}))
  {
    hide CancelAll, CancelsExactly;
    if work in db.sessions && db.sessions[work].run == run { CancelsRows(db, now, run, {work}); }
  }

  /** After a Run is cancelled none of its Work is left to start or to go on unasked. */
  lemma NothingIsLeftRunning(db: DB, now: int, run: Id, id: Id)
    requires Inv(db) && run in db.runs && id in db.sessions && db.sessions[id].run == run
    ensures var next := After(db, CancelRun(db, now, run));
      && id in next.sessions
      && (next.sessions[id].state in {WorkReady, WorkSucceeded, WorkFailed, WorkNoChange, WorkCancelled}
          || (next.sessions[id].state in {WorkPreparing, WorkRunning} && next.sessions[id].cancel
              && id in next.executions && next.executions[id].cancel))
  {
    hide Inv, CancelRun, SessionOk, AttemptsOk;
    WorkHolds(db, id);
    CancelsTheRun(db, now, run);
  }

  // ---------------------------------------------------------------- retrying

  /** Ended Work is queued afresh on a Worker, its pipeline and its clock reset, its history and evidence kept. */
  ghost predicate Requeues(db: DB, next: DB, now: int, run: Id, work: Id, worker: Id) {
    && work in db.sessions && run in db.runs && OnlyWork(db, next, work)
    && var s := db.sessions[work];
    && s.run == run && s.state in {WorkFailed, WorkCancelled} && s.owner == OwnerNone
    && (forall x <- db.sessions :: db.sessions[x].predecessor != Some(work))
    && |F.Taking(db, run)| < db.runs[run].limit
    && work in next.sessions && next.sessions == db.sessions[work := next.sessions[work]]
    && var t := next.sessions[work];
    && t == s.(state := WorkQueued, worker := Some(worker), cancel := false, owner := OwnerNone, startedAt := None, terminalAt := None,
               mayRepeat := t.mayRepeat, stages := t.stages)
    && (t.mayRepeat <==> s.startedAt.Some? || s.mayRepeat)
    && |t.stages| == |s.stages| && (forall i :: 0 <= i < |t.stages| ==> t.stages[i] == Stage(StagePending, "", ""))
    && QueuesExecution(db, next, work, worker, now) && next.attempts == db.attempts
    && s.run in next.runs && next.runs[s.run].terminalAt == None
  }

  /** The Work's execution, its first or its old one, waits for the Worker. */
  predicate QueuesExecution(db: DB, next: DB, work: Id, worker: Id, now: int) {
    && work in next.executions && next.executions == db.executions[work := next.executions[work]]
    && next.executions[work] == Execution(worker, ExecQueued, false, if work in db.executions then db.executions[work].createdAt else now)
  }

  lemma QueuedIs(db: DB, work: Id, worker: Id, now: int)
    ensures Queued(db, work, worker, now)
      == Execution(worker, ExecQueued, false, if work in db.executions then db.executions[work].createdAt else now)
  {
  }

  lemma AcquiredWork(db: DB, pairs: set<(Id, Id)>, next: DB, id: Id)
    requires OnlyWork(Acquire(db, pairs), next, id)
    ensures OnlyWork(db, next, id)
  {
  }

  lemma RetriesTheWork(db: DB, now: int, run: Id, work: Id, route: Option<Id>, acquired: set<(Id, Id)>)
    requires Linked(db)
    ensures var o := RetrySession(db, now, run, work, route, acquired);
      o.Done? ==> route.Some? && Requeues(db, o.db, now, run, work, route.value)
  {
    hide Linked, MatchingLive, Commit, OnlyWork, Acquire, Queued, Slots, F.Taking;
    if RetrySession(db, now, run, work, route, acquired).Done? {
      var s := db.sessions[work];
      assert s.run in db.runs by { WorkHasRun(db, work); }
      F.CountsAgree(db, run, 0, 0);
      QueuedIs(db, work, route.value, now);
      AcquireRows(db, acquired);
      CommitRows(Acquire(db, acquired), None, work, Retried(s, route.value), Some(Queued(db, work, route.value, now)), None);
      AcquiredWork(db, acquired, Requeued(db, now, work, route, acquired), work);
    }
  }

  lemma AcquireRows(db: DB, pairs: set<(Id, Id)>)
    ensures Acquire(db, pairs) == db.(mirrors := Acquire(db, pairs).mirrors)
  {
  }

  // ---------------------------------------------------------------- answering

  /** Waiting Work resumes: its last stage alone runs again, on the routed Worker if a slot is free and one was
      found, and otherwise when one is. */
  ghost predicate Resumes(db: DB, next: DB, now: int, work: Id, request: string, message: string, route: Option<Id>) {
    && work in db.sessions && db.sessions[work].run in db.runs && OnlyWork(db, next, work)
    && var s := db.sessions[work];
    var last := |s.stages| - 1;
    var queued := |F.Taking(db, s.run)| < db.runs[s.run].limit && route.Some?;
    && s.state == WorkNeedsInput && 0 <= last
    && work in next.sessions && next.sessions == db.sessions[work := next.sessions[work]]
    && var t := next.sessions[work];
    && t == s.(state := t.state, worker := t.worker, cancel := false, owner := OwnerNone, terminalAt := None,
               answer := message, answers := t.answers, stages := t.stages)
    && t.state == (if queued then WorkQueued else WorkBlocked) && t.worker == (if queued then route else None)
    && (if queued then QueuesExecution(db, next, work, route.value, now) else next.executions == db.executions)
    && |t.stages| == |s.stages| && (forall i :: 0 <= i < last ==> t.stages[i] == s.stages[i])
    && t.stages[last] == Stage(StagePending, "", "")
    && |t.answers| == |s.answers| + 1 && t.answers[..|s.answers|] == s.answers
    && var a := t.answers[|s.answers|];
    && a.request == request && a.message == message && a.acceptedAt == now
    && a.question < |s.updates| && s.updates[a.question].status == UpdateNeedsInput
    && (forall i :: a.question < i < |s.updates| ==> s.updates[i].status != UpdateNeedsInput)
    && next.attempts == db.attempts && s.run in next.runs && next.runs[s.run].terminalAt == None
  }

  lemma ResumedResumes(s: Session, worker: Option<Id>, answer: WorkAnswer)
    requires s.stages != []
    ensures var t, last := Resumed(s, worker, answer), |s.stages| - 1;
      && t == s.(state := t.state, worker := worker, cancel := false, owner := OwnerNone, terminalAt := None,
                 answer := answer.message, answers := t.answers, stages := t.stages)
      && t.state == (if worker.Some? then WorkQueued else WorkBlocked)
      && |t.stages| == |s.stages| && (forall i :: 0 <= i < last ==> t.stages[i] == s.stages[i])
      && t.stages[last] == Stage(StagePending, "", "")
      && |t.answers| == |s.answers| + 1 && t.answers[..|s.answers|] == s.answers && t.answers[|s.answers|] == answer
  {
  }

  lemma ContinuedRows(db: DB, now: int, work: Id, answer: WorkAnswer, route: Option<Id>, acquired: set<(Id, Id)>)
    requires work in db.sessions && db.sessions[work].run in db.runs && db.sessions[work].stages != [] && Linked(db)
    ensures var next, s := Continued(db, now, work, answer, route, acquired), db.sessions[work];
      var worker := if |F.Taking(db, s.run)| < db.runs[s.run].limit then route else None;
      && next.sessions == db.sessions[work := Resumed(s, worker, answer)] && next.attempts == db.attempts
      && (if worker.Some? then QueuesExecution(db, next, work, worker.value, now) else next.executions == db.executions)
      && s.run in next.runs && next.runs[s.run].terminalAt == None && OnlyWork(db, next, work)
  {
    hide Linked, Commit, OnlyWork, Acquire, Slots, F.Taking, Resumed, Queued, QueuesExecution;
    var s := db.sessions[work];
    F.CountsAgree(db, s.run, 0, 0);
    ResumedResumes(s, route, answer);
    ResumedResumes(s, None, answer);
    if SlotFree(db, s.run) {
      AcquireRows(db, acquired);
      var mirrors := Acquire(db, acquired).mirrors;
      RoutedRows(db, mirrors, now, work, Resumed(s, route, answer), route);
      assert Continued(db, now, work, answer, route, acquired)
        == Commit(db.(mirrors := mirrors), None, work, Resumed(s, route, answer),
                  if route.Some? then Some(Queued(db, work, route.value, now)) else None, None);
      hide Continued;
    } else {
      RoutedRows(db, db.mirrors, now, work, Resumed(s, None, answer), None);
      assert Continued(db, now, work, answer, route, acquired)
        == Commit(db.(mirrors := db.mirrors), None, work, Resumed(s, None, answer), None, None);
      hide Continued;
    }
  }

  lemma RoutedRows(db: DB, mirrors: map<(Id, Id), Mirror>, now: int, work: Id, t: Session, worker: Option<Id>)
    requires work in db.sessions && t.run == db.sessions[work].run && t.run in db.runs
    ensures var next := Commit(db.(mirrors := mirrors), None, work, t, if worker.Some? then Some(Queued(db, work, worker.value, now)) else None, None);
      && next.sessions == db.sessions[work := t] && next.attempts == db.attempts
      && (if worker.Some? then QueuesExecution(db, next, work, worker.value, now) else next.executions == db.executions)
      && t.run in next.runs && next.runs[t.run].terminalAt == None && OnlyWork(db, next, work)
  {
    hide Commit, OnlyWork, Queued;
    if worker.Some? { QueuedIs(db, work, worker.value, now); }
    CommitRows(db.(mirrors := mirrors), None, work, t, if worker.Some? then Some(Queued(db, work, worker.value, now)) else None, None);
    MirrorsAside(db, mirrors,
      Commit(db.(mirrors := mirrors), None, work, t, if worker.Some? then Some(Queued(db, work, worker.value, now)) else None, None), work);
  }

  lemma MirrorsAside(db: DB, mirrors: map<(Id, Id), Mirror>, next: DB, id: Id)
    requires OnlyWork(db.(mirrors := mirrors), next, id)
    ensures OnlyWork(db, next, id)
  {
  }

  lemma ContinuedResumes(db: DB, now: int, work: Id, answer: WorkAnswer, route: Option<Id>, acquired: set<(Id, Id)>)
    requires Linked(db) && work in db.sessions && db.sessions[work].run in db.runs && db.sessions[work].state == WorkNeedsInput
    requires db.sessions[work].stages != [] && LastQuestion(db.sessions[work].updates) == Some(answer.question) && answer.acceptedAt == now
    ensures Resumes(db, Continued(db, now, work, answer, route, acquired), now, work, answer.request, answer.message, route)
  {
    hide Linked, OnlyWork, F.Taking, Resumed, LastQuestion, Continued, QueuesExecution;
    var s := db.sessions[work];
    ContinuedRows(db, now, work, answer, route, acquired);
    ResumedResumes(s, if |F.Taking(db, s.run)| < db.runs[s.run].limit then route else None, answer);
  }

  /** An accepted answer either repeats one on file and changes nothing, or resumes the Work. */
  ghost predicate ResumesOrRepeats(db: DB, next: DB, now: int, work: Id, request: string, message: string, route: Option<Id>) {
    && work in db.sessions
    && if exists a <- db.sessions[work].answers :: a.request == request
       then next == db && exists a <- db.sessions[work].answers :: a.request == request && a.message == message
       else Resumes(db, next, now, work, request, message, route)
  }

  lemma AnswerResumesTheWork(db: DB, now: int, work: Id, request: string, message: string, fits: bool, route: Option<Id>, acquired: set<(Id, Id)>)
    requires Linked(db)
    ensures var o := AnswerWork(db, now, work, request, message, fits, route, acquired);
      o.Done? ==> ResumesOrRepeats(db, o.db, now, work, request, message, route)
  {
    hide Linked, Blank, ValidCommitSha, Continued, Resumes, OnlyWork, LastQuestion;
    if work in db.sessions {
      WorkHasRun(db, work);
      var question := LastQuestion(db.sessions[work].updates);
      if db.sessions[work].state == WorkNeedsInput && question.Some? && db.sessions[work].stages != [] {
        ContinuedResumes(db, now, work, WorkAnswer(request, question.value, message, now), route, acquired);
      }
    }
  }
}
