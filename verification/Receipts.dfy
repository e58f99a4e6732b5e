/** What an accepted call tells its caller. */
module Receipts {
  import opened Common
  import opened Text
  import opened Tables
  import opened Transitions
  import opened LeaseSteps

  /** The caller's lease on the Attempt is live. */
  predicate Holds(attempts: map<Id, Attempt>, attempt: Id, token: Token, now: int) {
    attempt in attempts && attempts[attempt].token == token && attempts[attempt].state.Active() && now < attempts[attempt].expiry
  }

  lemma StartReceipt(db: DB, now: int, attempt: Id, token: Token, from: Sha, runtimeStarted: bool)
    requires Linked(db)
    ensures var o := StartAttempt(db, now, attempt, token, from, runtimeStarted);
      o.Done? ==> Holds(o.db.attempts, attempt, token, now) && o.db.attempts[attempt].state.AttemptRunning?
  {
    hide Linked, ValidCommitSha, ValidToken;
    if attempt in db.attempts { LeaseHasWork(db, attempt); }
  }

  lemma BeatReceipt(db: DB, now: int, attempt: Id, token: Token)
    requires Linked(db)
    ensures var o := Heartbeat(db, now, attempt, token);
      o.Done? ==> Holds(o.db.attempts, attempt, token, now) && o.db.attempts[attempt].expiry == now + LEASE_MILLIS
                  && o.db.sessions == db.sessions
  {
    if attempt in db.attempts { LeaseHasWork(db, attempt); }
    hide Linked, ValidToken;
  }

  lemma TakeReceipt(db: DB, now: int, worker: Id, request: string, token: Token, attempt: Id, routing: Routing)
    requires Linked(db) && worker in db.workers
    ensures var o := TakeWork(db, now, worker, request, token, attempt, routing);
      o.Done? && o.reply.Claimed? ==>
        && o.reply.attempt == attempt && Holds(o.db.attempts, attempt, token, now)
        && (worker, request) in o.db.claims && o.db.claims[(worker, request)].attempt == Some(attempt)
  {
    hide Linked, Prepared, ClaimableKeys, ActiveOf;
  }

  lemma ClaimReceipt(db: DB, now: int, worker: Id, request: string, token: Token, attempt: Id, routing: Routing)
    requires Linked(db)
    ensures var o := Claim(db, now, worker, request, token, attempt, routing);
      o.Done? && o.reply.Claimed? ==>
        && Holds(o.db.attempts, o.reply.attempt, token, now)
        && (worker, request) in o.db.claims && o.db.claims[(worker, request)].attempt == Some(o.reply.attempt)
  {
    hide TakeWork, Blank, ValidToken;
    var dropped := db.(claims := db.claims - {(worker, request)});
    if worker in db.workers {
      TakeReceipt(db, now, worker, request, token, attempt, routing);
      assert RequestsLinked(dropped);
      TakeReceipt(dropped, now, worker, request, token, attempt, routing);
    }
  }

  lemma EndingReceipt(db: DB, now: int, attempt: Id, v: Verdict, outcome: Option<WorkUpdate>)
    requires Linked(db) && attempt in db.attempts && !v.state.Active()
    ensures var o := Ending(db, now, attempt, v, outcome);
      o.Done? ==> attempt in o.db.attempts && o.db.attempts[attempt].token == db.attempts[attempt].token && o.db.attempts[attempt].state == v.state
  {
    LeaseHasWork(db, attempt);
    hide Linked, JudgedSession, JudgedStages, OtherLive, Settled;
  }

  lemma CompleteReceipt(db: DB, now: int, attempt: Id, token: Token, claimed: AttemptState, result: string, error: string)
    requires Linked(db)
    ensures var o := CompleteAttempt(db, now, attempt, token, claimed, result, error);
      o.Done? ==>
        attempt in o.db.attempts && o.db.attempts[attempt].token == token
        && !o.db.attempts[attempt].state.Active() && !o.db.attempts[attempt].state.AttemptLost?
  {
    hide Linked, ValidToken, OutcomeOf, Ending, Bytes;
    if CompleteAttempt(db, now, attempt, token, claimed, result, error).Done? && db.attempts[attempt].state.Active() {
      LeaseHasWork(db, attempt);
      var a := db.attempts[attempt];
      var contract := db.runs[db.sessions[a.session].run].contract;
      var outcome := if contract.AgentUpdate? then OutcomeOf(db.sessions[a.session].updates, attempt) else None;
      EndingReceipt(db, now, attempt, Judge(db.executions[a.session].cancel, contract, outcome, claimed, result, error), outcome);
    }
  }

  lemma CancelReceipt(db: DB, now: int, run: Id, work: Id)
    requires Linked(db)
    ensures var o := CancelSession(db, now, run, work);
      o.Done? ==> work in o.db.sessions && (o.db.sessions[work].state.WorkCancelled? || o.db.sessions[work].cancel)
  {
    hide HasLiveWork, CancelStages;
  }

  lemma RetryReceipt(db: DB, now: int, run: Id, work: Id, route: Option<Id>, acquired: set<(Id, Id)>)
    requires Linked(db)
    ensures var o := RetrySession(db, now, run, work, route, acquired);
      o.Done? ==>
        && work in o.db.sessions && o.db.sessions[work].state.WorkQueued? && !o.db.sessions[work].cancel
        && forall i :: 0 <= i < |o.db.sessions[work].stages| ==> o.db.sessions[work].stages[i].state.StagePending?
  {
    hide Linked, RetryGuard, SlotFree, Acquire, Queued;
  }

  /** The answer is on file, now or since an earlier request. */
  lemma AnswerReceipt(db: DB, now: int, work: Id, request: string, message: string, fits: bool, route: Option<Id>, acquired: set<(Id, Id)>)
    requires Linked(db)
    ensures var o := AnswerWork(db, now, work, request, message, fits, route, acquired);
      o.Done? ==> work in o.db.sessions && exists a <- o.db.sessions[work].answers :: a.request == request && a.message == message
  {
    hide Linked, Blank, ValidCommitSha, SlotFree, Acquire, Queued, LastQuestion;
    var o := AnswerWork(db, now, work, request, message, fits, route, acquired);
    if o.Done? && o.db != db {
      var answers := o.db.sessions[work].answers;
      assert answers[|answers| - 1].request == request;
    }
  }

  /** The request of a report is on file, with the update it was answered with. */
  predicate OnFile(db: DB, attempt: Id, request: string, u: WorkUpdate) {
    && attempt in db.attempts && (attempt, request) in db.updateRequests && db.attempts[attempt].session in db.sessions
    && var position, updates := db.updateRequests[(attempt, request)].update, db.sessions[db.attempts[attempt].session].updates;
       position < |updates| && updates[position] == u
  }

  lemma FreshReceipt(db: DB, now: int, attempt: Id, token: Token, input: UpdateInput, fits: bool)
    requires Linked(db) && attempt in db.attempts
    ensures var o := FreshUpdate(db, now, attempt, token, input, fits);
      o.Done? ==> o.reply.Reported? && OnFile(o.db, attempt, input.request, o.reply.update)
  {
    LeaseHasWork(db, attempt);
    hide Linked, OutcomeOf, ProgressCount, Leased;
  }

  lemma UpdateReceipt(db: DB, now: int, attempt: Id, token: Token, input: UpdateInput, fits: bool)
    requires Linked(db)
    ensures var o := AppendUpdate(db, now, attempt, token, input, fits);
      o.Done? ==> o.reply.Reported? && OnFile(o.db, attempt, input.request, o.reply.update)
  {
    hide ValidToken, UpdateInputError, FreshUpdate, SessionsLinked, AttemptsLinked;
    if attempt in db.attempts { FreshReceipt(db, now, attempt, token, input, fits); }
  }
}
