/** The reserve checked at admission meets the state machine: live Work can always be asked and answered. */
module Recoverable {
  import opened Common
  import opened Text
  import opened Tables
  import opened Transitions
  import opened Invariant
  import opened Calls
  import opened LeaseSteps
  import opened Limits
  import opened Guarantees
  import opened Evolution
  import opened History
  import P = Prompt
  import C = Continuation
  import A = Assembly
  import R = Reserve

  /** What an admission fixes for good: the Task's name, the repository, the last stage's prompt, the branch. */
  datatype Brief = Brief(title: string, repository: string, prompt: string, branch: string)

  // ---------------------------------------------------------------- loading the state

  function StatusText(status: UpdateStatus): string {
    match status
    case UpdateRunning => "running"
    case UpdateReady => "ready"
    case UpdateNeedsInput => "needs-input"
    case UpdateFailed => "failed"
    case UpdateNoChange => "no-change"
  }

  function UpdateEntry(u: WorkUpdate, position: nat): P.Entry {
    P.Entry(position + 1, false, StatusText(u.status), "agent", u.message,
            u.pullRequest.url, u.pullRequest.branch, u.pullRequest.sha, u.checkpoint, u.acceptedAt, false)
  }

  function AnswerEntry(a: WorkAnswer): P.Entry {
    P.Entry(a.question + 1, true, "", "operator", a.message, "", "", "", "", a.acceptedAt, true)
  }

  function AnswersTo(answers: seq<WorkAnswer>, question: nat): seq<P.Entry> {
    if answers == [] then []
    else AnswersTo(answers[..|answers| - 1], question)
         + if answers[|answers| - 1].question == question then [AnswerEntry(answers[|answers| - 1])] else []
  }

  /** The records of the first `n` updates, each followed by its answer. */
  function Records(updates: seq<WorkUpdate>, answers: seq<WorkAnswer>, n: nat): seq<P.Entry>
    requires n <= |updates|
  {
    if n == 0 then [] else Records(updates, answers, n - 1) + [UpdateEntry(updates[n - 1], n - 1)] + AnswersTo(answers, n - 1)
  }

  function HistoryOf(s: Session): seq<P.Entry> { Records(s.updates, s.answers, |s.updates|) }

  /** loadContinuationState, with the question and the answer that are about to be stored. */
  function StateOf(b: Brief, s: Session, question: string, answer: string): C.State {
    C.State(b.title, b.repository, b.prompt, b.branch, question, answer, s.checkpoint, s.pendingResume,
            s.pullRequest.url, s.pullRequest.branch, s.pullRequest.sha, s.mayRepeat)
  }

  lemma {:induction false} AnswersAreOf(answers: seq<WorkAnswer>, question: nat)
    ensures forall e <- AnswersTo(answers, question) :: e.answer && e.sequence == question + 1
  {
    if answers != [] { AnswersAreOf(answers[..|answers| - 1], question); }
  }

  function SortKey(e: P.Entry): nat { 2 * e.sequence + if e.answer then 1 else 0 }

  /** The records stand in the order the query asks for. */
  lemma {:induction false} RecordsAreChronological(updates: seq<WorkUpdate>, answers: seq<WorkAnswer>, n: nat)
    requires n <= |updates|
    ensures forall i, j :: 0 <= i < j < |Records(updates, answers, n)| ==>
      SortKey(Records(updates, answers, n)[i]) <= SortKey(Records(updates, answers, n)[j])
    ensures forall e <- Records(updates, answers, n) :: SortKey(e) <= 2 * n + 1
  {
    if n > 0 {
      RecordsAreChronological(updates, answers, n - 1);
      AnswersAreOf(answers, n - 1);
      var before, replies := Records(updates, answers, n - 1), AnswersTo(answers, n - 1);
      assert forall e <- before :: SortKey(e) <= 2 * n - 1;
      assert forall e <- replies :: SortKey(e) == 2 * n + 1;
      assert SortKey(UpdateEntry(updates[n - 1], n - 1)) == 2 * n;
    }
  }

  lemma {:induction false} OneMoreAnswer(updates: seq<WorkUpdate>, answers: seq<WorkAnswer>, n: nat)
    requires n <= |updates| && answers != []
    ensures var last := |answers| - 1;
      |Records(updates, answers, n)| == |Records(updates, answers[..last], n)| + if answers[last].question < n then 1 else 0
  {
    if n > 0 { OneMoreAnswer(updates, answers, n - 1); }
  }

  /** Nothing stored is left out of the history and nothing is listed twice. */
  lemma {:induction false} HistoryIsComplete(updates: seq<WorkUpdate>, answers: seq<WorkAnswer>)
    requires forall i :: 0 <= i < |answers| ==> answers[i].question < |updates|
    ensures |Records(updates, answers, |updates|)| == |updates| + |answers|
  {
    if answers == [] {
      UpdatesAlone(updates, |updates|);
    } else {
      OneMoreAnswer(updates, answers, |updates|);
      HistoryIsComplete(updates, answers[..|answers| - 1]);
    }
  }

  lemma {:induction false} UpdatesAlone(updates: seq<WorkUpdate>, n: nat)
    requires n <= |updates|
    ensures |Records(updates, [], n)| == n
  {
    if n > 0 { UpdatesAlone(updates, n - 1); }
  }

  lemma HistorySize(s: Session)
    requires HistoryOk(s.updates, s.answers)
    ensures |HistoryOf(s)| == |s.updates| + |s.answers|
  {
    HistoryIsComplete(s.updates, s.answers);
  }

  // ---------------------------------------------------------------- the two checks

  /** AppendAgentUpdate's check of a question: the longest answer must still fit. */
  function QuestionFits(w: C.Wording, digest: string -> string, b: Brief, s: Session, input: UpdateInput, now: int): bool
    requires w.Valid()
  {
    var asked := P.Entry(|s.updates| + 1, false, "needs-input", "agent", input.message, "", "", "", input.checkpoint, now, false);
    A.Assembled(w, digest, StateOf(b, s, input.message, Repeat('a', R.MAX_ANSWER)), HistoryOf(s) + [asked]).Some?
  }

  /** AnswerWork's check of an answer to the newest question. */
  function AnswerFits(w: C.Wording, digest: string -> string, b: Brief, s: Session, message: string, now: int): bool
    requires w.Valid()
  {
    var question := LastQuestion(s.updates);
    var replied := AnswerEntry(WorkAnswer("", if question.Some? then question.value else 0, message, now));
    A.Assembled(w, digest, StateOf(b, s, s.question, message), HistoryOf(s) + [replied]).Some?
  }

  /** The admission's check. */
  predicate Reserved(w: C.Wording, digest: string -> string, b: Brief)
    requires w.Valid()
  {
    R.ReserveFits(w, digest, b.title, b.repository, b.prompt, b.branch)
  }

  /** A history of this many records stays within what the reserve provides for. */
  predicate CoveredAt(s: Session, records: nat) {
    records <= R.MAX_INTEGER && (s.pullRequest.url == "" || R.Coverable(Bytes(s.pullRequest.url), records))
  }

  /** One more record does. */
  predicate Covered(s: Session) { CoveredAt(s, |s.updates| + |s.answers| + 1) }

  lemma StateIsWithinLimits(b: Brief, s: Session, question: string, answer: string, records: nat)
    requires Within(s) && Bytes(question) <= R.MAX_QUESTION && (question == "" || !Blank(question))
    requires Bytes(answer) <= R.MAX_ANSWER && records <= R.MAX_INTEGER
    ensures R.WithinLimits(StateOf(b, s, question, answer), records)
  {
    hide HistoryWithin, Bytes;
  }

  lemma CoveredFits(w: C.Wording, digest: string -> string, b: Brief, s: Session, question: string, answer: string, more: seq<P.Entry>)
    requires w.Valid() && C.IsDigest(digest) && Reserved(w, digest, b)
    requires Within(s) && HistoryOk(s.updates, s.answers) && !s.state.Terminal()
    requires CoveredAt(s, |s.updates| + |s.answers| + |more|)
    requires Bytes(question) <= R.MAX_QUESTION && (question == "" || !Blank(question)) && Bytes(answer) <= R.MAX_ANSWER
    ensures A.Assembled(w, digest, StateOf(b, s, question, answer), HistoryOf(s) + more).Some?
  {
    hide Bytes, Blank, A.Assembled, R.WithinLimits, R.ReserveFits, R.Coverable, C.IsDigest, HistoryOk, ColumnsWithin, HistoryWithin, HistoryOf;
    HistorySize(s);
    var history := HistoryOf(s) + more;
    StateIsWithinLimits(b, s, question, answer, |history|);
    if s.pullRequest.url == "" {
      R.WithoutPullRequest(w, digest, StateOf(b, s, question, answer), history);
    } else {
      R.WithPullRequest(w, digest, StateOf(b, s, question, answer), history);
    }
  }

  // ---------------------------------------------------------------- every reachable state

  lemma ReachableWork(db: DB, id: Id)
    requires Reachable(db) && id in db.sessions
    ensures HistoryOk(db.sessions[id].updates, db.sessions[id].answers) && Within(db.sessions[id])
  {
    hide Reachable, Within;
    ReachableIsSound(db);
    ReachableIsWithin(db, id);
    assert WorkOk(db, id);
  }

  /** The prompt that goes out with a claim.  Work with nothing to recover gets its own prompt instead. */
  function ClaimPrompt(w: C.Wording, digest: string -> string, b: Brief, s: Session): Option<string>
    requires w.Valid()
  {
    if s.question == "" && s.answer == "" && s.checkpoint == "" && s.pendingResume == "" && s.pullRequest.url == ""
       && !s.mayRepeat && HistoryOf(s) == [] then Some(b.prompt)
    else A.Assembled(w, digest, StateOf(b, s, s.question, s.answer), HistoryOf(s))
  }

  /** A claim of covered Work, and every replay of it, has a prompt to send. */
  lemma ClaimsAlwaysFit(db: DB, id: Id, w: C.Wording, digest: string -> string, b: Brief)
    requires Reachable(db) && id in db.sessions && !db.sessions[id].state.Terminal()
    requires w.Valid() && C.IsDigest(digest) && Reserved(w, digest, b)
    requires CoveredAt(db.sessions[id], |db.sessions[id].updates| + |db.sessions[id].answers|)
    ensures A.Assembled(w, digest, StateOf(b, db.sessions[id], db.sessions[id].question, db.sessions[id].answer), HistoryOf(db.sessions[id])).Some?
    ensures ClaimPrompt(w, digest, b, db.sessions[id]).Some?
  {
    hide Reachable, Reserved, CoveredAt, C.IsDigest, HistoryOk, HistoryWithin, HistoryOf, A.Assembled, Blank, Bytes;
    var s := db.sessions[id];
    ReachableWork(db, id);
    CoveredFits(w, digest, b, s, s.question, s.answer, []);
    assert HistoryOf(s) + [] == HistoryOf(s);
  }

  /** If the reserve passed at admission, no report is ever refused because the recovery prompt would not fit: for
      Work without a recorded pull request whatever the history, else as long as the URL and the number of records
      satisfy the exact condition. */
  lemma ReportsAlwaysFit(db: DB, now: int, attempt: Id, token: Token, input: UpdateInput,
                         w: C.Wording, digest: string -> string, b: Brief)
    requires Reachable(db) && Linked(db) && attempt in db.attempts
    requires w.Valid() && C.IsDigest(digest) && Reserved(w, digest, b)
    requires Covered(db.sessions[db.attempts[attempt].session])
    ensures AppendUpdate(db, now, attempt, token, input,
                         QuestionFits(w, digest, b, db.sessions[db.attempts[attempt].session], input, now))
      != Refused(PromptTooLarge)
  {
    hide Reachable, Reserved, CoveredAt, C.IsDigest, Within, HistoryOk, A.Assembled, Blank, ValidCommitSha, ProgressCount, Commit, Leased;
    var s := db.sessions[db.attempts[attempt].session];
    ReachableWork(db, db.attempts[attempt].session);
    if s.state.WorkRunning? && UpdateInputError(input).None? {
      LongestAnswer();
      CoveredFits(w, digest, b, s, input.message, Repeat('a', R.MAX_ANSWER),
        [P.Entry(|s.updates| + 1, false, "needs-input", "agent", input.message, "", "", "", input.checkpoint, now, false)]);
    }
  }

  lemma LongestAnswer()
    ensures Bytes(Repeat('a', R.MAX_ANSWER)) == R.MAX_ANSWER
  {
    BytesOfRepeat('a', R.MAX_ANSWER);
  }

  /** Nor is an answer.  Altogether an answer is accepted exactly when its text is in order and it either repeats
      a stored one or its Work is waiting for input. */
  lemma AnswersAlwaysFit(db: DB, now: int, work: Id, request: string, message: string, route: Option<Id>, acquired: set<(Id, Id)>,
                         w: C.Wording, digest: string -> string, b: Brief)
    requires Reachable(db) && Linked(db) && work in db.sessions
    requires w.Valid() && C.IsDigest(digest) && Reserved(w, digest, b) && Covered(db.sessions[work])
    ensures var s := db.sessions[work];
      var stored := StoredAnswer(s.answers, request);
      var o := AnswerWork(db, now, work, request, message, AnswerFits(w, digest, b, s, message, now), route, acquired);
      && o != Refused(PromptTooLarge)
      && (o.Done? <==>
            && !Blank(message) && Bytes(message) <= MAX_ANSWER_BYTES
            && if stored.Some? then stored.value.message == message else s.state.WorkNeedsInput?)
  {
    hide Reachable, Reserved, CoveredAt, C.IsDigest, HistoryOk, HistoryWithin, A.Assembled, Blank, ValidCommitSha, Continued, Bytes;
    var s := db.sessions[work];
    ReachableWork(db, work);
    if s.state.WorkNeedsInput? && Bytes(message) <= MAX_ANSWER_BYTES {
      WaitingWorkCanResume(db, work);
      var question := LastQuestion(s.updates);
      CoveredFits(w, digest, b, s, s.question, message,
        [AnswerEntry(WorkAnswer("", if question.Some? then question.value else 0, message, now))]);
    }
  }

  lemma WaitingWorkCanResume(db: DB, work: Id)
    requires Reachable(db) && work in db.sessions && db.sessions[work].state.WorkNeedsInput?
    ensures var s := db.sessions[work];
      && ValidCommitSha(s.pendingResume) && s.stages != [] && s.owner.OwnerNone? && LastQuestion(s.updates).Some?
      && forall a <- s.answers :: a.question != LastQuestion(s.updates).value
  {
    hide Reachable, Inv;
    ReachableIsSound(db);
    WaitingWorkIsAnswerable(db, work);
  }

  // ---------------------------------------------------------------- every run

  /** The call's own answer about fitting prompts is what the assembly says of the Work's brief: for admissions and
      replacements of Work that reports, that the reserve passes. */
  ghost predicate Honest(db: DB, now: int, call: Call, w: C.Wording, digest: string -> string, briefs: Id -> Brief)
    requires w.Valid()
  {
    match call
    case Admitting(_, r, targets, _) =>
      r.contract.AgentUpdate? ==> forall t <- targets :: t.fits ==> Reserved(w, digest, briefs(t.id))
    case Replacing(_, _, work, _, newWork, _, fits, _, _) =>
      fits && work in db.sessions && Reports(db, db.sessions[work]) ==> Reserved(w, digest, briefs(newWork))
    case Reporting(attempt, _, input, fits) =>
      attempt in db.attempts && db.attempts[attempt].session in db.sessions ==>
        fits == QuestionFits(w, digest, briefs(db.attempts[attempt].session), db.sessions[db.attempts[attempt].session], input, now)
    case Answering(work, _, message, fits, _, _) =>
      work in db.sessions ==> fits == AnswerFits(w, digest, briefs(work), db.sessions[work], message, now)
    case _ => true
  }

  /** Work that reports was admitted with its reserve, and other Work never reports. */
  predicate Provided(db: DB, id: Id, w: C.Wording, digest: string -> string, b: Brief)
    requires w.Valid() && id in db.sessions
  {
    && (Reports(db, db.sessions[id]) ==> Reserved(w, digest, b))
    && (db.sessions[id].updates != [] ==> Reports(db, db.sessions[id]))
  }

  ghost predicate AllProvided(db: DB, w: C.Wording, digest: string -> string, briefs: Id -> Brief)
    requires w.Valid()
  {
    forall id <- db.sessions :: Provided(db, id, w, digest, briefs(id))
  }

  lemma OldWorkReports(db: DB, next: DB, now: int, call: Call, id: Id)
    requires Evolves(db, next, now, call) && id in db.sessions && db.sessions[id].run in db.runs
    ensures id in next.sessions && Reports(next, next.sessions[id]) == Reports(db, db.sessions[id])
    ensures next.sessions[id].updates != db.sessions[id].updates ==> Reports(db, db.sessions[id])
  {
    hide ResumeStep, AttemptsEvolve, ClaimsEvolve, RequestsEvolve, MirrorsEvolve;
    assert SessionStep(db, call, id, db.sessions[id], next.sessions[id]);
  }

  /** New Work was admitted or replaces other Work. */
  lemma {:induction false} NewTargets(db: DB, origin: DB, flavour: Flavour, r: NewRun, targets: seq<Target>, now: int, n: nat, id: Id)
    requires Linked(origin) && n <= |targets| && Chosen(origin, flavour, r.procedure, targets)
    requires id in AdmitTargets(db, origin, flavour, r, targets, now, n).0.sessions && id !in db.sessions
    ensures AdmitTargets(db, origin, flavour, r, targets, now, n).0.runs == db.runs
    ensures AdmitTargets(db, origin, flavour, r, targets, now, n).0.sessions[id].run == r.id
    ensures AdmitTargets(db, origin, flavour, r, targets, now, n).0.sessions[id].updates == []
    ensures exists i :: 0 <= i < n && targets[i].id == id
  {
    hide Linked, Predecessor;
    if n != 0 {
      var before := AdmitTargets(db, origin, flavour, r, targets, now, n - 1).0;
      SameRunsInserted(db, origin, flavour, r, targets, now, n - 1);
      if id in before.sessions && id != targets[n - 1].id { NewTargets(db, origin, flavour, r, targets, now, n - 1, id); }
    }
  }

  lemma {:induction false} SameRunsInserted(db: DB, origin: DB, flavour: Flavour, r: NewRun, targets: seq<Target>, now: int, n: nat)
    requires Linked(origin) && n <= |targets| && Chosen(origin, flavour, r.procedure, targets)
    ensures AdmitTargets(db, origin, flavour, r, targets, now, n).0.runs == db.runs
  {
    hide Linked, Predecessor;
    if n != 0 { SameRunsInserted(db, origin, flavour, r, targets, now, n - 1); }
  }

  lemma AdmittedIsReserved(db: DB, now: int, call: Call, id: Id, w: C.Wording, digest: string -> string, briefs: Id -> Brief)
    requires Linked(db) && KeysUnique(db) && w.Valid() && call.Admitting? && Honest(db, now, call, w, digest, briefs)
    requires id in Step(db, now, call).sessions && id !in db.sessions
    ensures Provided(Step(db, now, call), id, w, digest, briefs(id))
  {
    hide Linked, KeyTaken, KeysUnique, Predecessor, AdmitTargets, Reserved;
    var o := Admit(db, now, call.flavour, call.r, call.targets, call.acquired);
    if o.Done? && o.db != db {
      assert forall t <- call.targets :: t.fits;
      hide TargetsError;
      NewTargets(Acquire(WithRun(db, call.r, now), call.acquired), db, call.flavour, call.r, call.targets, now, |call.targets|, id);
      var i :| 0 <= i < |call.targets| && call.targets[i].id == id;
      assert call.targets[i] in call.targets;
    }
  }

  lemma ReplacementIsReserved(db: DB, now: int, call: Call, id: Id, w: C.Wording, digest: string -> string, briefs: Id -> Brief)
    requires Linked(db) && KeysUnique(db) && w.Valid() && call.Replacing? && Honest(db, now, call, w, digest, briefs)
    requires id in Step(db, now, call).sessions && id !in db.sessions
    ensures Provided(Step(db, now, call), id, w, digest, briefs(id))
  {
    hide Linked, KeyTaken, KeysUnique, RetryGuard, Reserved, InsertTarget;
    var o := ReplaceWork(db, now, call.requestKey, call.digest, call.work, call.run, call.newWork,
                         call.eligible, call.fits, call.route, call.acquired);
    if o.Done? && o.db != db {
      var s := db.sessions[call.work];
      assert s.run in db.runs by { WorkHasRun(db, call.work); }
      var origin := db.runs[s.run];
      var r := NewRun(call.run, call.requestKey, call.digest, origin.procedure, origin.limit, origin.contract, true);
      OneInserted(Acquire(WithRun(db, r, now), call.acquired), call.run,
                  Target(call.newWork, s.repository, s.source, |s.stages|, call.fits, call.route), Some(call.work), now, call.route);
    }
  }

  lemma OneInserted(db: DB, run: Id, t: Target, predecessor: Option<Id>, now: int, worker: Option<Id>)
    ensures var next := InsertTarget(db, run, t, predecessor, now, worker);
      && next.runs == db.runs && next.sessions.Keys == db.sessions.Keys + {t.id}
      && next.sessions[t.id].run == run && next.sessions[t.id].updates == []
  {
  }

  lemma StepReserved(db: DB, now: int, call: Call, w: C.Wording, digest: string -> string, briefs: Id -> Brief)
    requires Inv(db) && Linked(db) && KeysUnique(db) && w.Valid()
    requires AllProvided(db, w, digest, briefs) && Honest(db, now, call, w, digest, briefs)
    ensures AllProvided(Step(db, now, call), w, digest, briefs)
  {
    hide Inv, Linked, KeysUnique, Step, Evolves, Reserved, Honest, Reports;
    var next := Step(db, now, call);
    StepEvolves(db, now, call);
    NewWorkIsAdmitted(db, next, now, call);
    forall id | id in next.sessions ensures Provided(next, id, w, digest, briefs(id)) {
      if id in db.sessions {
        WorkHasRun(db, id);
        assert Provided(db, id, w, digest, briefs(id));
        OldWorkReports(db, next, now, call, id);
      } else if call.Admitting? {
        AdmittedIsReserved(db, now, call, id, w, digest, briefs);
      } else {
        ReplacementIsReserved(db, now, call, id, w, digest, briefs);
      }
    }
  }

  lemma NewWorkIsAdmitted(db: DB, next: DB, now: int, call: Call)
    requires Evolves(db, next, now, call)
    ensures call.Admitting? || call.Replacing? || next.sessions.Keys == db.sessions.Keys
  {
  }

  ghost predicate HonestRun(start: DB, events: seq<Event>, w: C.Wording, digest: string -> string, briefs: Id -> Brief)
    requires Inv(start) && w.Valid()
  {
    forall i :: 0 <= i < |events| ==> Honest(At(start, events, i), events[i].now, events[i].call, w, digest, briefs)
  }

  lemma {:induction false} HonestRunsReserve(start: DB, events: seq<Event>, i: nat, w: C.Wording, digest: string -> string, briefs: Id -> Brief)
    requires Initial(start) && Inv(start) && w.Valid() && i <= |events| && HonestRun(start, events, w, digest, briefs)
    ensures AllProvided(At(start, events, i), w, digest, briefs)
  {
    hide Inv, Linked, KeysUnique, Step, Evolves, Honest;
    if i == 0 {
      assert At(start, events, 0) == start;
    } else {
      hide At, AllProvided, Initial;
      HonestRunsReserve(start, events, i - 1, w, digest, briefs);
      NextAt(start, events, i - 1);
      StepReserved(At(start, events, i - 1), events[i - 1].now, events[i - 1].call, w, digest, briefs);
    }
  }

  lemma StatesAreReachable(start: DB, events: seq<Event>, i: nat)
    requires Initial(start) && Inv(start) && i <= |events|
    ensures Reachable(At(start, events, i))
  {
    hide Inv;
    assert Final(start, events[..i]) == At(start, events, i);
  }

  /** The Work a report or an answer is about. */
  function Subject(db: DB, call: Call): Option<Id> {
    match call
    case Reporting(attempt, _, _, _) =>
      if attempt in db.attempts && db.attempts[attempt].session in db.sessions then Some(db.attempts[attempt].session) else None
    case Answering(work, _, _, _, _, _) => if work in db.sessions then Some(work) else None
    case _ => None
  }

  /** In every run in which admissions check the reserve and later calls ask the assembly, no report and no answer
      about covered Work is ever refused because the recovery prompt does not fit. */
  lemma NoPromptIsEverTooLarge(start: DB, events: seq<Event>, i: nat, w: C.Wording, digest: string -> string, briefs: Id -> Brief)
    requires Initial(start) && Inv(start) && w.Valid() && C.IsDigest(digest) && HonestRun(start, events, w, digest, briefs)
    requires i < |events| && Subject(At(start, events, i), events[i].call).Some?
    requires Covered(At(start, events, i).sessions[Subject(At(start, events, i), events[i].call).value])
    ensures Linked(At(start, events, i)) && KeysUnique(At(start, events, i))
    ensures Apply(At(start, events, i), events[i].now, events[i].call) != Refused(PromptTooLarge)
  {
    hide Inv, Linked, KeysUnique, Covered, C.IsDigest, Reserved, AnswerWork, AppendUpdate, At, Initial, Reachable;
    NextAt(start, events, i);
    StatesAreReachable(start, events, i);
    HonestRunsReserve(start, events, i, w, digest, briefs);
    var db := At(start, events, i);
    SubjectFits(db, events[i].now, events[i].call, w, digest, briefs);
  }

  /** Nor is a claim of such Work left without the prompt it has to answer with. */
  lemma NoClaimLacksItsPrompt(start: DB, events: seq<Event>, i: nat, id: Id, w: C.Wording, digest: string -> string, briefs: Id -> Brief)
    requires Initial(start) && Inv(start) && w.Valid() && C.IsDigest(digest) && HonestRun(start, events, w, digest, briefs)
    requires i <= |events| && id in At(start, events, i).sessions
    requires var s := At(start, events, i).sessions[id];
      Reports(At(start, events, i), s) && !s.state.Terminal() && CoveredAt(s, |s.updates| + |s.answers|)
    ensures ClaimPrompt(w, digest, briefs(id), At(start, events, i).sessions[id]).Some?
  {
    hide Inv, CoveredAt, C.IsDigest, Reserved, ClaimPrompt, At, Initial, Reachable, Honest, HonestRun;
    StatesAreReachable(start, events, i);
    HonestRunsReserve(start, events, i, w, digest, briefs);
    assert Provided(At(start, events, i), id, w, digest, briefs(id));
    ClaimsAlwaysFit(At(start, events, i), id, w, digest, briefs(id));
  }

  lemma SubjectFits(db: DB, now: int, call: Call, w: C.Wording, digest: string -> string, briefs: Id -> Brief)
    requires Reachable(db) && Linked(db) && KeysUnique(db) && w.Valid() && C.IsDigest(digest)
    requires AllProvided(db, w, digest, briefs) && Honest(db, now, call, w, digest, briefs)
    requires Subject(db, call).Some? && Covered(db.sessions[Subject(db, call).value])
    ensures Apply(db, now, call) != Refused(PromptTooLarge)
  {
    hide Reachable, Linked, KeysUnique, Covered, C.IsDigest, Reserved, AnswerWork, AppendUpdate, QuestionFits, AnswerFits;
    var id := Subject(db, call).value;
    assert Provided(db, id, w, digest, briefs(id));
    if Reports(db, db.sessions[id]) {
      if call.Reporting? {
        ReportsAlwaysFit(db, now, call.attempt, call.token, call.input, w, digest, briefs(id));
      } else {
        AnswersAlwaysFit(db, now, call.work, call.request, call.message, call.route, call.acquired, w, digest, briefs(id));
      }
    } else {
      SilentWorkIsNotAsked(db, now, call);
    }
  }

  lemma SilentWorkIsNotAsked(db: DB, now: int, call: Call)
    requires Reachable(db) && Linked(db) && KeysUnique(db) && Subject(db, call).Some?
    requires var s := db.sessions[Subject(db, call).value]; !Reports(db, s) && s.updates == []
    ensures Apply(db, now, call) != Refused(PromptTooLarge)
  {
    hide Reachable, KeysUnique, Continued, Commit, Leased, Blank, ValidCommitSha, SessionsLinked, RequestsLinked;
    var id := Subject(db, call).value;
    assert db.sessions[id].run in db.runs by { WorkHasRun(db, id); }
    if db.sessions[id].state.WorkNeedsInput? { WaitingWorkCanResume(db, id); }
  }
}
