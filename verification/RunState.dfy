/** The three ways the state of a Run is worked out from its Sessions. */
module RunState {
  import opened Common
  import opened Tables

  datatype State = RunQueued | RunRunning | RunBlocked | RunSucceeded | RunFailed | RunPartial | RunCancelled

  /** The groups of Sessions that the counters and the query count. */
  datatype Group = Waiting | Queued | Held | Asking | Ready | Succeeded | Failed | NoChange | Cancelled | Live | Done | Over

  predicate In(g: Group, s: WorkState) {
    match g
    case Waiting => s.WorkBlocked? || s.WorkNeedsInput?
    case Queued => s.WorkQueued?
    case Held => s.Owned()
    case Asking => s.WorkNeedsInput?
    case Ready => s.WorkReady?
    case Succeeded => s.WorkSucceeded?
    case Failed => s.WorkFailed?
    case NoChange => s.WorkNoChange?
    case Cancelled => s.WorkCancelled?
    case Live => !s.Terminal()
    case Done => s.WorkReady? || s.WorkSucceeded? || s.WorkNoChange?
    case Over => s.Terminal()
  }

  function Tally(states: seq<WorkState>, g: Group): (n: nat)
    ensures n <= |states|
  {
    if states == [] then 0 else Tally(states[..|states| - 1], g) + if In(g, states[|states| - 1]) then 1 else 0
  }

  /** The counters of one pass over the Sessions. */
  datatype Counts = Counts(
    blocked: nat, queued: nat, running: nat, needsInput: nat, ready: nat, succeeded: nat, failed: nat, noChange: nat, cancelled: nat)
  {
    function Active(): nat { blocked + queued + running }

    function Successful(): nat { succeeded + ready + noChange }

    function Total(): nat { Active() + Successful() + failed + cancelled }

    /** applyRunAggregate's classification. */
    function Classify(sessions: nat): State {
      if 0 < Active() then
        if 0 < running || 0 < Successful() + failed + cancelled then RunRunning
        else if blocked == Active() then RunBlocked
        else RunQueued
      else if Successful() == sessions then RunSucceeded
      else if Successful() == 0 && 0 < failed then RunFailed
      else if cancelled == sessions then RunCancelled
      else RunPartial
    }

    /** buildWaitResult: the exit code, once there is one. */
    function WaitResult(sessions: nat): Option<nat> {
      if 0 < needsInput then Some(2)
      else if 0 < sessions && Successful() == sessions then Some(0)
      else if 0 < sessions && Successful() + failed + cancelled == sessions then Some(1)
      else None
    }
  }

  /** The counters after one more Session. */
  function Added(c: Counts, s: WorkState): Counts {
    match s
    case WorkBlocked => c.(blocked := c.blocked + 1)
    case WorkQueued => c.(queued := c.queued + 1)
    case WorkPreparing => c.(running := c.running + 1)
    case WorkRunning => c.(running := c.running + 1)
    case WorkNeedsInput => c.(blocked := c.blocked + 1, needsInput := c.needsInput + 1)
    case WorkReady => c.(ready := c.ready + 1)
    case WorkSucceeded => c.(succeeded := c.succeeded + 1)
    case WorkFailed => c.(failed := c.failed + 1)
    case WorkNoChange => c.(noChange := c.noChange + 1)
    case WorkCancelled => c.(cancelled := c.cancelled + 1)
  }

  function CountsOf(states: seq<WorkState>): Counts {
    if states == [] then Counts(0, 0, 0, 0, 0, 0, 0, 0, 0)
    else Added(CountsOf(states[..|states| - 1]), states[|states| - 1])
  }

  /** What the counters say about a group. */
  function Pick(c: Counts, g: Group): nat {
    match g
    case Waiting => c.blocked
    case Queued => c.queued
    case Held => c.running
    case Asking => c.needsInput
    case Ready => c.ready
    case Succeeded => c.succeeded
    case Failed => c.failed
    case NoChange => c.noChange
    case Cancelled => c.cancelled
    case Live => c.Active()
    case Done => c.Successful()
    case Over => c.Successful() + c.failed + c.cancelled
  }

  lemma AddedPicks(c: Counts, s: WorkState, g: Group)
    ensures Pick(Added(c, s), g) == Pick(c, g) + if In(g, s) then 1 else 0
    ensures Added(c, s).Total() == c.Total() + 1
    ensures c.needsInput <= c.blocked ==> Added(c, s).needsInput <= Added(c, s).blocked
  {
  }

  lemma NothingPicks(g: Group)
    ensures Pick(CountsOf([]), g) == 0 == Tally([], g)
    ensures CountsOf([]).Total() == 0 && CountsOf([]).needsInput <= CountsOf([]).blocked
  {
  }

  lemma OneMoreState(states: seq<WorkState>, g: Group)
    requires states != []
    ensures var before, last := states[..|states| - 1], states[|states| - 1];
      CountsOf(states) == Added(CountsOf(before), last) && Tally(states, g) == Tally(before, g) + if In(g, last) then 1 else 0
  {
    hide Added, In;
  }

  /** Every counter counts its group. */
  lemma {:induction false} CountersCount(states: seq<WorkState>, g: Group)
    ensures Pick(CountsOf(states), g) == Tally(states, g)
    ensures CountsOf(states).Total() == |states| && CountsOf(states).needsInput <= CountsOf(states).blocked
  {
    hide Pick, Added, In, CountsOf, Tally, Counts.Total;
    if states == [] {
      NothingPicks(g);
    } else {
      var before, last := states[..|states| - 1], states[|states| - 1];
      CountersCount(before, g);
      OneMoreState(states, g);
      AddedPicks(CountsOf(before), last, g);
    }
  }

  /** One pass over the Sessions; every Session is counted in exactly one of the disjoint groups. */
  method Aggregate(states: seq<WorkState>) returns (c: Counts)
    ensures forall g :: Pick(c, g) == Tally(states, g)
    ensures c.Total() == |states| && c == CountsOf(states)
  {
    c := Counts(0, 0, 0, 0, 0, 0, 0, 0, 0);
    for i := 0 to |states|
      invariant c == CountsOf(states[..i])
    {
      assert states[..i + 1][..i] == states[..i];
      hide Added;
      c := Added(c, states[i]);
    }
    assert states[..|states|] == states;
    CountersCount(states, Live);
    forall g ensures Pick(c, g) == Tally(states, g) { CountersCount(states, g); }
  }

  /** The classifier written in SQL for a Task's newest Run. */
  function Queried(states: seq<WorkState>): State {
    if Tally(states, Live) == 0 then
      if Tally(states, Done) == |states| then RunSucceeded
      else if Tally(states, Cancelled) == |states| then RunCancelled
      else if Tally(states, Done) == 0 && 0 < Tally(states, Failed) then RunFailed
      else RunPartial
    else if 0 < Tally(states, Held) || 0 < Tally(states, Over) then RunRunning
    else if Tally(states, Waiting) == Tally(states, Live) then RunBlocked
    else RunQueued
  }

  /** The query's groups are sums of the counters, and the counters split the Sessions. */
  lemma GroupsAddUp(states: seq<WorkState>)
    ensures var c := CountsOf(states);
      && Tally(states, Waiting) == c.blocked && Tally(states, Held) == c.running && Tally(states, Asking) == c.needsInput
      && Tally(states, Failed) == c.failed && Tally(states, Cancelled) == c.cancelled
      && Tally(states, Live) == c.Active() && Tally(states, Done) == c.Successful()
      && Tally(states, Over) == c.Successful() + c.failed + c.cancelled
      && c.Total() == |states| && c.needsInput <= c.blocked
  {
    hide Tally, CountsOf;
    forall g ensures Pick(CountsOf(states), g) == Tally(states, g) { CountersCount(states, g); }
    CountersCount(states, Live);
  }

  lemma {:induction false} TallyZero(states: seq<WorkState>, g: Group)
    ensures Tally(states, g) == 0 <==> forall i :: 0 <= i < |states| ==> !In(g, states[i])
  {
    if states != [] {
      TallyZero(states[..|states| - 1], g);
      assert forall i :: 0 <= i < |states| - 1 ==> states[..|states| - 1][i] == states[i];
    }
  }

  /** On every Run with Sessions the service, the query and the waiting command agree: the command exits 2 exactly
      while something needs input, else 0 exactly when the Run succeeded and 1 when it failed, was cancelled or ended
      mixed, and else it waits. */
  lemma ClassifiersAgree(states: seq<WorkState>)
    requires states != []
    ensures var c, n, state := CountsOf(states), |states|, Queried(states);
      && state == c.Classify(n)
      && (c.WaitResult(n) == Some(2) <==> exists i :: 0 <= i < n && states[i].WorkNeedsInput?)
      && (c.WaitResult(n) == Some(0) <==> state.RunSucceeded?)
      && (c.WaitResult(n) == Some(1) <==> state.RunFailed? || state.RunPartial? || state.RunCancelled?)
      && (c.WaitResult(n).None? <==> (state.RunQueued? || state.RunRunning? || state.RunBlocked?) && c.needsInput == 0)
  {
    GroupsAddUp(states);
    TallyZero(states, Asking);
    hide Tally, CountsOf;
  }

  /** A Run is over in this sense exactly when all its Sessions are terminal, which is when its end is recorded. */
  lemma OverMeansTerminal(states: seq<WorkState>)
    requires states != []
    ensures CountsOf(states).Classify(|states|) in {RunSucceeded, RunFailed, RunPartial, RunCancelled}
      <==> forall i :: 0 <= i < |states| ==> states[i].Terminal()
  {
    GroupsAddUp(states);
    TallyZero(states, Live);
    hide Tally, CountsOf;
  }

  /** What each classification means for the Sessions: all done well, all cancelled, all over with some failed and none
      done well, all over otherwise; or something is live, and then something runs or has ended, or everything waits
      for a slot or an answer, or something is queued. */
  lemma StateMeans(states: seq<WorkState>)
    requires states != []
    ensures var state := CountsOf(states).Classify(|states|);
      var over := forall s <- states :: s in {WorkReady, WorkSucceeded, WorkNoChange, WorkFailed, WorkCancelled};
      var good := forall s <- states :: s in {WorkReady, WorkSucceeded, WorkNoChange};
      var none := forall s <- states :: s !in {WorkReady, WorkSucceeded, WorkNoChange};
      && (state == RunSucceeded <==> good)
      && (state == RunCancelled <==> forall s <- states :: s == WorkCancelled)
      && (state == RunFailed <==> over && none && WorkFailed in states)
      && (state == RunPartial <==> over && !good && !none)
      && (state == RunRunning <==> !over && exists s <- states :: s !in {WorkBlocked, WorkNeedsInput, WorkQueued})
      && (state == RunBlocked <==> forall s <- states :: s in {WorkBlocked, WorkNeedsInput})
      && (state == RunQueued <==> WorkQueued in states && forall s <- states :: s in {WorkBlocked, WorkNeedsInput, WorkQueued})
  {
    GroupsAddUp(states);
    SessionsOf(states);
    hide Tally, CountsOf, In;
    assert states[0] in states;
  }

  /** The group counts that the classification looks at, in words. */
  lemma SessionsOf(states: seq<WorkState>)
    ensures Tally(states, Live) == 0 <==> forall s <- states :: s in {WorkReady, WorkSucceeded, WorkNoChange, WorkFailed, WorkCancelled}
    ensures Tally(states, Done) == |states| <==> forall s <- states :: s in {WorkReady, WorkSucceeded, WorkNoChange}
    ensures Tally(states, Done) == 0 <==> forall s <- states :: s !in {WorkReady, WorkSucceeded, WorkNoChange}
    ensures Tally(states, Cancelled) == |states| <==> forall s <- states :: s == WorkCancelled
    ensures Tally(states, Failed) == 0 <==> WorkFailed !in states
    ensures Tally(states, Held) + Tally(states, Over) == 0 <==> forall s <- states :: s in {WorkBlocked, WorkNeedsInput, WorkQueued}
    ensures Tally(states, Waiting) == |states| <==> forall s <- states :: s in {WorkBlocked, WorkNeedsInput}
    ensures Tally(states, Waiting) + Tally(states, Queued) == |states| <==> forall s <- states :: s in {WorkBlocked, WorkNeedsInput, WorkQueued}
    ensures Tally(states, Queued) == 0 <==> WorkQueued !in states
  {
    NoneIn(states, Live); NoneIn(states, Done); NoneIn(states, Failed); NoneIn(states, Held); NoneIn(states, Over); NoneIn(states, Queued);
    AllIn(states, Done); AllIn(states, Cancelled); AllIn(states, Waiting);
    WaitingOrQueued(states);
    hide Tally;
  }

  lemma NoneIn(states: seq<WorkState>, g: Group)
    ensures Tally(states, g) == 0 <==> forall s <- states :: !In(g, s)
  {
    TallyZero(states, g);
  }

  lemma AllIn(states: seq<WorkState>, g: Group)
    ensures Tally(states, g) == |states| <==> forall s <- states :: In(g, s)
  {
    TallyAll(states, g);
  }

  lemma {:induction false} WaitingOrQueued(states: seq<WorkState>)
    ensures Tally(states, Waiting) + Tally(states, Queued) <= |states|
    ensures Tally(states, Waiting) + Tally(states, Queued) == |states| <==> forall s <- states :: In(Waiting, s) || In(Queued, s)
  {
    if states != [] {
      var rest, last := states[..|states| - 1], states[|states| - 1];
      WaitingOrQueued(rest);
      assert forall s :: s in states <==> s in rest || s == last;
    }
  }

  lemma {:induction false} TallyAll(states: seq<WorkState>, g: Group)
    ensures Tally(states, g) == |states| <==> forall i :: 0 <= i < |states| ==> In(g, states[i])
  {
    if states != [] {
      TallyAll(states[..|states| - 1], g);
      assert forall i :: 0 <= i < |states| - 1 ==> states[..|states| - 1][i] == states[i];
    }
  }
}
