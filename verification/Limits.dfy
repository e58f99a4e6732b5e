/** The byte limits that everything stored about a Work respects, in every reachable state; no message is blank. */
module Limits {
  import opened Common
  import opened Text
  import opened Tables
  import opened Scan
  import opened Transitions
  import opened Invariant
  import opened LeaseSteps
  import opened ClaimSteps
  import opened WorkSteps
  import opened AdmissionSteps
  import opened Registration
  import opened Calls
  import opened Evolution

  // ---------------------------------------------------------------- what is within its limits

  predicate PullRequestWithin(p: PullRequest) {
    && Bytes(p.url) <= 2048 && Bytes(p.branch) <= 255 && Bytes(p.sha) <= 64
    && (p.url == "" ==> p == NO_PULL_REQUEST)
  }

  predicate UpdateWithin(u: WorkUpdate) {
    Bytes(u.message) <= MAX_OUTCOME_BYTES && !Blank(u.message) && Bytes(u.checkpoint) <= 64 && PullRequestWithin(u.pullRequest)
  }

  predicate HistoryWithin(updates: seq<WorkUpdate>, answers: seq<WorkAnswer>) {
    && (forall i :: 0 <= i < |updates| ==> UpdateWithin(updates[i]))
    && (forall i :: 0 <= i < |answers| ==> Bytes(answers[i].message) <= MAX_ANSWER_BYTES)
  }

  predicate ColumnsWithin(question: string, answer: string, checkpoint: Sha, pendingResume: Sha) {
    && Bytes(question) <= MAX_OUTCOME_BYTES && (question == "" || !Blank(question)) && Bytes(answer) <= MAX_ANSWER_BYTES
    && Bytes(checkpoint) <= 64 && Bytes(pendingResume) <= 64
  }

  /** Work that has reported anything has been started, or was before a retry that says so; live Work with a
      pull request is such a retry. */
  predicate Begun(s: Session) {
    && (s.state.WorkRunning? ==> s.startedAt.Some?)
    && (s.updates != [] || s.pullRequest.url != "" ==> s.startedAt.Some? || s.mayRepeat)
    && (s.pullRequest.url != "" && !s.state.Terminal() ==> s.mayRepeat)
  }

  predicate Within(s: Session) {
    && ColumnsWithin(s.question, s.answer, s.checkpoint, s.pendingResume) && PullRequestWithin(s.pullRequest)
    && HistoryWithin(s.updates, s.answers) && Begun(s)
  }

  ghost predicate AllWithin(sessions: map<Id, Session>) { forall id <- sessions :: Within(sessions[id]) }

  // ---------------------------------------------------------------- one Session

  /** Whatever passes the checks of an update is within the limits. */
  lemma CheckedIsWithin(attempt: Id, input: UpdateInput, now: int)
    requires UpdateInputError(input).None?
    ensures UpdateWithin(WorkUpdate(attempt, input.request, input.status, input.message, input.pullRequest,
                                    input.checkpoint, input.published, now))
  {
    hide Bytes, Blank, ValidCommitSha;
    NoPullRequestIsWithin();
  }

  lemma NoPullRequestIsWithin()
    ensures PullRequestWithin(NO_PULL_REQUEST)
  {
  }

  lemma AppendedWithin(s: Session, u: WorkUpdate)
    requires Within(s) && UpdateWithin(u) && s.state.WorkRunning?
    ensures Within(s.(updates := s.updates + [u]))
  {
    hide UpdateWithin, PullRequestWithin, ColumnsWithin, Bytes;
  }

  lemma StageWithin(s: Session, stages: seq<Stage>)
    requires Within(s)
    ensures Within(s.(stages := stages))
  {
    hide UpdateWithin, PullRequestWithin, ColumnsWithin, HistoryWithin;
  }

  lemma StartedWithin(s: Session, now: int)
    requires Within(s) && !s.state.Terminal()
    ensures Within(Started(s, now)) && Within(s.(pendingResume := "")) && Started(s, now).run == s.run
  {
    assert Bytes("") == 0;
    hide UpdateWithin, PullRequestWithin, HistoryWithin, Bytes;
  }

  /** Moving live Work between the states before it runs. */
  lemma WaitingWithin(s: Session, t: Session)
    requires Within(s) && !s.state.Terminal() && !t.state.WorkRunning?
    requires t == s.(state := t.state, worker := t.worker, owner := t.owner)
    ensures Within(t)
  {
    hide UpdateWithin, PullRequestWithin, ColumnsWithin, HistoryWithin;
  }

  lemma CancelledWithin(s: Session, now: int)
    requires Within(s)
    ensures Within(CancelledSession(s, now))
  {
    hide UpdateWithin, PullRequestWithin, ColumnsWithin, HistoryWithin;
  }

  lemma RetriedWithin(s: Session, worker: Id)
    requires Within(s)
    ensures Within(Retried(s, worker))
  {
    hide UpdateWithin, PullRequestWithin, ColumnsWithin, HistoryWithin;
  }

  lemma ResumedWithin(s: Session, worker: Option<Id>, answer: WorkAnswer)
    requires Within(s) && s.state.WorkNeedsInput? && s.stages != [] && Bytes(answer.message) <= MAX_ANSWER_BYTES
    ensures Within(Resumed(s, worker, answer))
  {
    hide UpdateWithin, PullRequestWithin, Bytes;
  }

  lemma OutcomeWithin(updates: seq<WorkUpdate>, answers: seq<WorkAnswer>, attempt: Id)
    requires HistoryWithin(updates, answers) && OutcomeOf(updates, attempt).Some?
    ensures UpdateWithin(OutcomeOf(updates, attempt).value) && updates != []
  {
    hide UpdateWithin, OutcomeOf, Bytes;
    var i :| 0 <= i < |updates| && updates[i] == OutcomeOf(updates, attempt).value;
  }

  lemma EvidenceWithin(s: Session, outcome: Option<WorkUpdate>)
    requires Within(s) && s.state.Terminal()
    requires outcome.Some? ==> UpdateWithin(outcome.value) && s.updates != []
    ensures Within(WithEvidence(s, outcome))
  {
    hide PullRequestWithin, HistoryWithin, Bytes;
  }

  lemma EndedWithin(s: Session, state: WorkState, stages: seq<Stage>, now: int)
    requires Within(s) && state.Terminal()
    ensures Within(s.(state := state, owner := OwnerNone, terminalAt := Some(now), stages := stages))
  {
    hide UpdateWithin, PullRequestWithin, ColumnsWithin, HistoryWithin;
  }

  lemma ExpiredWithin(s: Session, now: int, attempt: Id)
    requires Within(s)
    ensures Within(ExpiredSession(s, now, OutcomeOf(s.updates, attempt)))
  {
    hide WithEvidence, UpdateWithin, PullRequestWithin, ColumnsWithin, HistoryWithin, Begun, OutcomeOf;
    if OutcomeOf(s.updates, attempt).Some? { OutcomeWithin(s.updates, s.answers, attempt); }
    var stages := CloseStages(s.stages, StageFailed, LEASE_EXPIRED);
    EndedWithin(s, WorkFailed, stages, now);
    EvidenceWithin(s.(state := WorkFailed, owner := OwnerNone, terminalAt := Some(now), stages := stages),
                   OutcomeOf(s.updates, attempt));
  }

  lemma CoalescedWithin(p: PullRequest, q: PullRequest)
    requires PullRequestWithin(p) && PullRequestWithin(q)
    ensures PullRequestWithin(PullRequest(Coalesce(p.url, q.url), Coalesce(p.branch, q.branch), Coalesce(p.sha, q.sha)))
  {
    hide Bytes;
  }

  lemma JudgedWithin(s: Session, now: int, v: Verdict, outcome: Option<WorkUpdate>)
    requires Within(s) && !s.state.Terminal() && s.stages != [] && (v.work.WorkNeedsInput? || v.work.Terminal())
    requires v.work.WorkNeedsInput? ==> outcome.Some?
    requires outcome.Some? ==> UpdateWithin(outcome.value) && s.updates != []
    ensures Within(JudgedSession(s, now, v, outcome))
  {
    assert Bytes("") == 0;
    hide HistoryWithin, JudgedStages, WithEvidence, Coalesce, PullRequestWithin, Bytes;
    if v.work.Terminal() {
      var ended := s.(stages := JudgedStages(s.stages, v), owner := OwnerNone, state := v.work, terminalAt := Some(now));
      EndedWithin(s, v.work, JudgedStages(s.stages, v), now);
      assert ended == s.(state := v.work, owner := OwnerNone, terminalAt := Some(now), stages := JudgedStages(s.stages, v));
      EvidenceWithin(ended, outcome);
      if outcome.Some? { CoalescedWithin(outcome.value.pullRequest, s.pullRequest); }
    }
  }

  lemma FreshWithin(run: Id, t: Target, predecessor: Option<Id>, row: nat, now: int, worker: Option<Id>)
    ensures Within(FreshSession(run, t, predecessor, row, now, worker))
  {
    assert Bytes("") == 0;
  }

  // ---------------------------------------------------------------- the tables

  lemma CommitWithin(db: DB, attempt: Option<(Id, Attempt)>, id: Id, s: Session, e: Option<Execution>, t: Option<int>)
    requires AllWithin(db.sessions) && s.run in db.runs && Within(s)
    ensures AllWithin(Commit(db, attempt, id, s, e, t).sessions)
  {
    hide Within;
  }

  lemma LeaseCallsWithin(db: DB, now: int, call: Call)
    requires Inv(db) && Linked(db) && AllWithin(db.sessions) && (call.Starting? || call.Beating?)
    ensures AllWithin(After(db, if call.Starting? then StartAttempt(db, now, call.attempt, call.token, call.from, call.runtimeStarted)
                                else Heartbeat(db, now, call.attempt, call.token)).sessions)
  {
    hide Inv, Within, Commit, SessionOk, ExecutionOk, AttemptsOk, LeaseOk, Started, ValidCommitSha;
    if LeaseError(db, call.attempt, call.token, now).None? {
      LeaseHolds(db, call.attempt);
      var a := db.attempts[call.attempt];
      var s, e := db.sessions[a.session], db.executions[a.session];
      StartedWithin(s, now);
      CommitWithin(db, Some((call.attempt, a.(state := AttemptRunning))), a.session, Started(s, now),
                   Some(e.(state := ExecRunning)), EndOf(db, s));
      CommitWithin(db, None, a.session, s.(pendingResume := ""), None, EndOf(db, s));
      CommitWithin(db, Some((call.attempt, a.(expiry := now + LEASE_MILLIS))), a.session, s, None, EndOf(db, s));
    }
  }

  lemma StageCallsWithin(db: DB, now: int, call: Call)
    requires Linked(db) && AllWithin(db.sessions) && (call.StartingStage? || call.CompletingStage?)
    ensures AllWithin(After(db, if call.StartingStage? then StartStage(db, now, call.attempt, call.token, call.position)
                                else CompleteStage(db, now, call.attempt, call.token, call.position, call.ended)).sessions)
  {
    hide Within, Commit, AllSucceeded, EndStage;
    if LeaseError(db, call.attempt, call.token, now).None? {
      LeaseHasWork(db, call.attempt);
      var id := db.attempts[call.attempt].session;
      var s := db.sessions[id];
      if 0 <= call.position < |s.stages| {
        var stages := if call.StartingStage? then s.stages[call.position := s.stages[call.position].(state := StageRunning)]
                      else EndStage(s.stages, call.position, call.ended);
        StageWithin(s, stages);
        CommitWithin(db, None, id, s.(stages := stages), None, EndOf(db, s));
      }
    }
  }

  lemma AppendUpdateWithin(db: DB, now: int, call: Call)
    requires Linked(db) && AllWithin(db.sessions) && call.Reporting?
    ensures AllWithin(After(db, AppendUpdate(db, now, call.attempt, call.token, call.input, call.fits)).sessions)
  {
    hide Within, UpdateInputError, Commit, ProgressCount, Leased, UpdateWithin;
    var o := AppendUpdate(db, now, call.attempt, call.token, call.input, call.fits);
    if o.Done? && o.db.sessions != db.sessions {
      LeaseHasWork(db, call.attempt);
      var id := db.attempts[call.attempt].session;
      var s := db.sessions[id];
      var u := WorkUpdate(call.attempt, call.input.request, call.input.status, call.input.message, call.input.pullRequest,
                          call.input.checkpoint, call.input.published, now);
      CheckedIsWithin(call.attempt, call.input, now);
      AppendedWithin(s, u);
      CommitWithin(db, None, id, s.(updates := s.updates + [u]), None, EndOf(db, s));
    }
  }

  lemma CompleteAttemptWithin(db: DB, now: int, call: Call)
    requires Inv(db) && Linked(db) && AllWithin(db.sessions) && call.Completing?
    ensures AllWithin(After(db, CompleteAttempt(db, now, call.attempt, call.token, call.claimed, call.result, call.error)).sessions)
  {
    hide Inv, Commit, OtherLive, JudgedStages, SessionOk, ExecutionOk, AttemptsOk, LeaseOk, JudgedSession, Begun;
    hide ColumnsWithin, PullRequestWithin, HistoryWithin, UpdateWithin, OutcomeOf;
    var o := CompleteAttempt(db, now, call.attempt, call.token, call.claimed, call.result, call.error);
    if o.Done? && o.db != db {
      LeaseHolds(db, call.attempt);
      var a := db.attempts[call.attempt];
      var s, e := db.sessions[a.session], db.executions[a.session];
      var contract := db.runs[s.run].contract;
      var outcome := if contract.AgentUpdate? then OutcomeOf(s.updates, call.attempt) else None;
      if outcome.Some? { OutcomeWithin(s.updates, s.answers, call.attempt); }
      var v := Judge(e.cancel, contract, outcome, call.claimed, call.result, call.error);
      hide Within;
      var ended := JudgedSession(s, now, v, outcome);
      JudgedWithin(s, now, v, outcome);
      assert ended.run in db.runs by { JudgedRun(s, now, v, outcome); }
      CommitWithin(db, Some((call.attempt, a.(state := v.state, result := v.result, error := v.error))),
                   a.session, ended, Some(e.(state := ExecutionOf(v.state))), Settled(db, a.session, ended, now));
    }
  }

  lemma ExpireWithin(db: DB, now: int, attempt: Id)
    requires Linked(db) && AllWithin(db.sessions)
    ensures AllWithin(Expire(db, now, attempt).sessions)
  {
    hide Within, Commit, OtherLive, ExpiredSession, OutcomeOf;
    if Expired(db, attempt, now) {
      LeaseHasWork(db, attempt);
      var a := db.attempts[attempt];
      var s := db.sessions[a.session];
      var ended := ExpiredSession(s, now, OutcomeOf(s.updates, attempt));
      ExpiredWithin(s, now, attempt);
      assert ended.run in db.runs by { ExpiredRun(s, now, attempt); }
      CommitWithin(db, Some((attempt, a.(state := AttemptLost, error := LEASE_EXPIRED))), a.session, ended,
                   Some(db.executions[a.session].(state := ExecFailed)), Settled(db, a.session, ended, now));
    }
  }

  lemma {:induction false} ExpireAllWithin(db: DB, now: int, lapsed: seq<Id>)
    requires Linked(db) && AllWithin(db.sessions)
    ensures AllWithin(ExpireAll(db, now, lapsed).sessions)
  {
    hide Expire, AllWithin, SessionsLinked, AttemptsLinked, RequestsLinked;
    if lapsed != [] {
      ExpireAllWithin(db, now, lapsed[..|lapsed| - 1]);
      ExpireWithin(ExpireAll(db, now, lapsed[..|lapsed| - 1]), now, lapsed[|lapsed| - 1]);
    }
  }

  lemma MaterialiseWithin(db: DB, now: int, worker: Id, routed: set<Id>)
    requires Linked(db) && AllWithin(db.sessions)
    ensures AllWithin(Materialise(db, now, worker, routed).sessions)
  {
    hide BlockedKeys, SlotFree, RepositoryOpen, Within, Commit;
    var found := Routed(BlockedKeys(db), routed);
    if found != {} {
      var id := First(found).id;
      BlockedKeyIs(db, First(found));
      WaitingWithin(db.sessions[id], Materialised(db.sessions[id], worker));
      CommitWithin(db, None, id, Materialised(db.sessions[id], worker), Some(Queued(db, id, worker, now)), EndOf(db, db.sessions[id]));
    }
  }

  lemma RerouteWithin(db: DB, worker: Id, routed: set<Id>)
    requires Linked(db) && AllWithin(db.sessions)
    ensures AllWithin(Reroute(db, worker, routed).sessions)
  {
    hide QueuedElsewhere, Within, Commit;
    var found := Routed(QueuedElsewhere(db, worker), routed);
    if found != {} {
      var id := First(found).id;
      QueuedKeyIs(db, worker, First(found));
      var s := db.sessions[id];
      WaitingWithin(s, s.(worker := Some(worker)));
      CommitWithin(db, None, id, s.(worker := Some(worker)), Some(db.executions[id].(worker := worker)), EndOf(db, s));
    }
  }

  lemma PreparedWithin(db: DB, now: int, worker: Id, routing: Routing)
    requires Linked(db) && AllWithin(db.sessions)
    ensures AllWithin(Prepared(db, now, worker, routing).sessions)
  {
    hide Linked, AllWithin, Materialise, Reroute;
    MaterialiseKeepsLinks(db, now, worker, routing.blocked);
    MaterialiseWithin(db, now, worker, routing.blocked);
    RerouteWithin(Materialise(db, now, worker, routing.blocked), worker, routing.queued);
  }

  lemma TakeWorkWithin(db: DB, now: int, call: Call)
    requires Inv(db) && Linked(db) && AllWithin(db.sessions) && call.Claiming? && call.worker in db.workers
    ensures AllWithin(After(db, TakeWork(db, now, call.worker, call.request, call.token, call.attempt, call.routing)).sessions)
  {
    hide Inv, Linked, ClaimableKeys, ActiveOf, Within, AllWithin, Prepared, Assign;
    PreparedWithin(db, now, call.worker, call.routing);
    var ready := Prepared(db, now, call.worker, call.routing);
    var keys := ClaimableKeys(ready, call.worker, call.routing.capable);
    if keys != {} {
      var k := First(keys);
      PreparedKeeps(db, now, call.worker, call.routing);
      ClaimableKeyIs(ready, call.worker, call.routing.capable, k);
      QueuedIsLive(ready, k.id);
      AssignWithin(ready, now, call.worker, call.request, call.token, k.id, call.attempt);
    }
  }

  lemma AssignWithin(db: DB, now: int, worker: Id, request: string, token: Token, work: Id, attempt: Id)
    requires Linked(db) && work in db.executions && !db.sessions[work].state.Terminal() && AllWithin(db.sessions)
    ensures AllWithin(Assign(db, now, worker, request, token, work, attempt).sessions)
  {
    hide Within;
    WaitingWithin(db.sessions[work], Taken(db.sessions[work], worker));
  }

  lemma ClaimWithin(db: DB, now: int, call: Call)
    requires Inv(db) && Linked(db) && AllWithin(db.sessions) && call.Claiming?
    ensures AllWithin(After(db, Claim(db, now, call.worker, call.request, call.token, call.attempt, call.routing)).sessions)
  {
    hide Inv, Linked, TakeWork, AllWithin;
    if call.worker in db.workers {
      var dropped := db.(claims := db.claims - {(call.worker, call.request)});
      FewerClaimsKeep(db, dropped);
      TakeWorkWithin(dropped, now, call);
      TakeWorkWithin(db, now, call);
    }
  }

  lemma CancelAllWithin(db: DB, now: int, run: Id, work: set<Id>)
    requires run in db.runs && AllWithin(db.sessions)
    ensures AllWithin(CancelAll(db, now, run, work).sessions)
  {
    hide Within, CancelledSession, CancelledExecution, HasLiveWork;
    forall id | id in db.sessions ensures Within(CancelledSession(db.sessions[id], now)) { CancelledWithin(db.sessions[id], now); }
  }

  lemma RetrySessionWithin(db: DB, now: int, call: Call)
    requires Linked(db) && AllWithin(db.sessions) && call.Retrying?
    ensures AllWithin(After(db, RetrySession(db, now, call.run, call.work, call.route, call.acquired)).sessions)
  {
    hide MatchingLive, Commit, Within;
    if RetrySession(db, now, call.run, call.work, call.route, call.acquired).Done? {
      var s := db.sessions[call.work];
      RetriedWithin(s, call.route.value);
      CommitWithin(Acquire(db, call.acquired), None, call.work, Retried(s, call.route.value),
                   Some(Queued(db, call.work, call.route.value, now)), None);
    }
  }

  lemma AnswerWorkWithin(db: DB, now: int, call: Call)
    requires Inv(db) && Linked(db) && AllWithin(db.sessions) && call.Answering?
    ensures AllWithin(After(db, AnswerOf(db, now, call)).sessions)
  {
    hide Inv, Commit, Within, AnswerOf, SlotFree;
    var o := AnswerOf(db, now, call);
    if o.Done? && o.db != db {
      AnswerResumes(db, now, call);
      AnswerIsShort(db, now, call);
      var s := db.sessions[call.work];
      WaitingWorkHasStages(db, call.work);
      var free := SlotFree(db, s.run);
      var answer := WorkAnswer(call.request, LastQuestion(s.updates).value, call.message, now);
      ResumedWithin(s, if free then call.route else None, answer);
      CommitWithin(if free then Acquire(db, call.acquired) else db, None, call.work, Resumed(s, if free then call.route else None, answer),
                   if free && call.route.Some? then Some(Queued(db, call.work, call.route.value, now)) else None, None);
    }
  }

  lemma AnswerIsShort(db: DB, now: int, call: Call)
    requires Linked(db) && call.Answering? && AnswerOf(db, now, call).Done?
    ensures Bytes(call.message) <= MAX_ANSWER_BYTES
  {
  }

  lemma WaitingWorkHasStages(db: DB, work: Id)
    requires Inv(db) && work in db.sessions
    ensures db.sessions[work].stages != []
  {
    assert WorkOk(db, work);
  }

  lemma InsertWithin(db: DB, run: Id, t: Target, predecessor: Option<Id>, now: int, worker: Option<Id>)
    requires AllWithin(db.sessions)
    ensures AllWithin(InsertTarget(db, run, t, predecessor, now, worker).sessions)
  {
    hide Within, FreshSession;
    FreshWithin(run, t, predecessor, db.rows, now, worker);
  }

  lemma {:induction false} AdmitTargetsWithin(db: DB, origin: DB, flavour: Flavour, r: NewRun, targets: seq<Target>, now: int, n: nat)
    requires Linked(origin) && n <= |targets| && Chosen(origin, flavour, r.procedure, targets) && AllWithin(db.sessions)
    ensures AllWithin(AdmitTargets(db, origin, flavour, r, targets, now, n).0.sessions)
  {
    hide Linked, Predecessor, AllWithin, InsertTarget;
    if n != 0 {
      AdmitTargetsWithin(db, origin, flavour, r, targets, now, n - 1);
      var (before, used) := AdmitTargets(db, origin, flavour, r, targets, now, n - 1);
      var t := targets[n - 1];
      InsertWithin(before, r.id, t, Predecessor(origin, flavour, r.procedure, t).predecessor, now,
                   if r.ready && used < r.limit then t.route else None);
    }
  }

  lemma AdmissionsWithin(db: DB, now: int, call: Call)
    requires Linked(db) && KeysUnique(db) && AllWithin(db.sessions) && call.Admitting?
    ensures AllWithin(After(db, Admit(db, now, call.flavour, call.r, call.targets, call.acquired)).sessions)
  {
    hide Linked, Predecessor, KeyTaken, KeysUnique, AllWithin, AdmitTargets;
    var o := Admit(db, now, call.flavour, call.r, call.targets, call.acquired);
    if o.Done? && o.db != db {
      AdmitTargetsWithin(Acquire(WithRun(db, call.r, now), call.acquired), db, call.flavour, call.r, call.targets, now, |call.targets|);
    }
  }

  lemma ReplaceWorkWithin(db: DB, now: int, call: Call)
    requires Linked(db) && KeysUnique(db) && AllWithin(db.sessions) && call.Replacing?
    ensures AllWithin(After(db, ReplaceWork(db, now, call.requestKey, call.digest, call.work, call.run, call.newWork,
                                            call.eligible, call.fits, call.route, call.acquired)).sessions)
  {
    hide KeyTaken, KeysUnique, MatchingLive, Replaced, InsertTarget, AllWithin;
    var o := ReplaceWork(db, now, call.requestKey, call.digest, call.work, call.run, call.newWork,
                         call.eligible, call.fits, call.route, call.acquired);
    if o.Done? && o.db != db {
      var s := db.sessions[call.work];
      var origin := db.runs[s.run];
      var r := NewRun(call.run, call.requestKey, call.digest, origin.procedure, origin.limit, origin.contract, true);
      InsertWithin(Acquire(WithRun(db, r, now), call.acquired), call.run,
                   Target(call.newWork, s.repository, s.source, |s.stages|, call.fits, call.route), Some(call.work), now, call.route);
    }
  }

  lemma UnqueuedWithin(db: DB, repository: Id)
    requires AllWithin(db.sessions)
    ensures AllWithin(Unqueued(db, repository).sessions)
  {
    hide Within;
    var next := Unqueued(db, repository);
    forall id | id in next.sessions ensures Within(next.sessions[id]) {
      if id in QueuedIn(db, repository) { WaitingWithin(db.sessions[id], next.sessions[id]); }
    }
  }

  lemma CancellingWithin(db: DB, now: int, run: Id, work: Id)
    requires Linked(db) && AllWithin(db.sessions)
    ensures AllWithin(After(db, CancelRun(db, now, run)).sessions) && AllWithin(After(db, CancelSession(db, now, run, work)).sessions)
  {
    hide Linked, AllWithin, CancelAll;
    if run in db.runs {
      CancelAllWithin(db, now, run, SessionsOf(db, run));
      CancelAllWithin(db, now, run, {work});
    } else if work in db.sessions {
      WorkHasRun(db, work);
    }
  }

  lemma EnablingWithin(db: DB, repository: Id, enabled: bool)
    requires AllWithin(db.sessions)
    ensures AllWithin(After(db, SetRepositoryEnabled(db, repository, enabled)).sessions)
  {
    hide AllWithin, Unqueued, Attempted, QueuedIn;
    UnqueuedWithin(db, repository);
  }

  lemma RegisteringWithin(db: DB, now: int, worker: Id, report: Report)
    requires Linked(db) && AllWithin(db.sessions)
    ensures AllWithin(After(db, RegisterWorker(db, now, worker, report)).sessions)
  {
    hide Linked, AllWithin, Registered, Foreign;
    RegisteredFrame(db, now, worker, report);
  }

  lemma OtherCallsWithin(db: DB, now: int, call: Call)
    requires Linked(db) && AllWithin(db.sessions)
    requires call.CancellingRun? || call.CancellingSession? || call.Enabling? || call.Registering?
    ensures KeysUnique(db) ==> AllWithin(Step(db, now, call).sessions)
  {
    hide Linked, AllWithin, KeysUnique, CancelRun, CancelSession, SetRepositoryEnabled, RegisterWorker;
    match call
    case CancellingRun(run) => CancellingWithin(db, now, run, 0);
    case CancellingSession(run, work) => CancellingWithin(db, now, run, work);
    case Enabling(repository, enabled) => EnablingWithin(db, repository, enabled);
    case Registering(worker, report) => RegisteringWithin(db, now, worker, report);
  }

  // ---------------------------------------------------------------- any call, any run

  /** No call stores anything beyond its limits. */
  lemma StepWithin(db: DB, now: int, call: Call)
    requires Inv(db) && Linked(db) && KeysUnique(db) && AllWithin(db.sessions)
    ensures AllWithin(Step(db, now, call).sessions)
  {
    hide Inv, Linked, KeysUnique, AllWithin, Claim, StartAttempt, Heartbeat, StartStage, CompleteStage, AppendUpdate;
    hide CompleteAttempt, ExpireAll, CancelRun, CancelSession, RetrySession, AnswerWork, Admit, ReplaceWork, SetRepositoryEnabled, RegisterWorker;
    match call
    case Claiming(_, _, _, _, _) => ClaimWithin(db, now, call);
    case Starting(_, _, _, _) => LeaseCallsWithin(db, now, call);
    case Beating(_, _) => LeaseCallsWithin(db, now, call);
    case StartingStage(_, _, _) => StageCallsWithin(db, now, call);
    case CompletingStage(_, _, _, _) => StageCallsWithin(db, now, call);
    case Reporting(_, _, _, _) => AppendUpdateWithin(db, now, call);
    case Completing(_, _, _, _, _) => CompleteAttemptWithin(db, now, call);
    case Sweeping(lapsed) =>
      FewerClaimsKeep(db, ForgetEmptyClaims(db, now));
      ExpireAllWithin(ForgetEmptyClaims(db, now), now, lapsed);
    case Retrying(_, _, _, _) => RetrySessionWithin(db, now, call);
    case Answering(_, _, _, _, _, _) => AnswerWorkWithin(db, now, call);
    case Admitting(_, _, _, _) => AdmissionsWithin(db, now, call);
    case Replacing(_, _, _, _, _, _, _, _, _) => ReplaceWorkWithin(db, now, call);
    case _ => OtherCallsWithin(db, now, call);
  }

  lemma {:induction false} FinalIsWithin(start: DB, events: seq<Event>)
    requires Initial(start) && Inv(start)
    ensures AllWithin(Final(start, events).sessions)
  {
    hide Inv, AllWithin, Step;
    if events == [] {
      NothingIsWithin();
    } else {
      FinalIsWithin(start, events[..|events| - 1]);
      var before := Final(start, events[..|events| - 1]);
      InvIsLinked(before);
      StepWithin(before, events[|events| - 1].now, events[|events| - 1].call);
    }
  }

  lemma NothingIsWithin()
    ensures AllWithin(map[])
  {
  }

  /** In every reachable state everything stored is within its limits, and live Work with a recorded pull request
      is marked as a retry that may repeat effects. */
  lemma ReachableIsWithin(db: DB, id: Id)
    requires Reachable(db) && id in db.sessions
    ensures Within(db.sessions[id])
  {
    var start: DB, events: seq<Event> :| Initial(start) && Inv(start) && Final(start, events) == db;
    hide Inv, Within, Final;
    FinalIsWithin(start, events);
  }
}
