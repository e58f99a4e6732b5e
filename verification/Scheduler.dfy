/** A Task's scheduled occurrences: claimed, admitted, finished, discarded, across crashes and edits. */
module Scheduler {
  import opened Common
  import Cron

  const RETRY_MILLIS: int := 60_000
  const MAX_RETRY_STEPS: nat := 15

  datatype Health = Healthy | Blocked | Error | Disabled

  /** A claimed occurrence and the Task generation frozen with it. */
  datatype Occurrence = Occurrence(due: int, generation: nat)

  /** The schedule columns of a Task row.  `workflow` says that the Task names a repository workflow, `frozen` that
      nothing is left to freeze in the snapshot of the pending occurrence, `coded` that a health code is recorded. */
  datatype Task = Task(
    archived: bool, enabled: bool, generation: nat, workflow: bool, pending: Option<Occurrence>, frozen: bool,
    retryAt: Option<int>, retryCount: nat, nextDue: Option<int>, lastDiscarded: Option<int>, health: Health, coded: bool)

  datatype Verdict = Admitted | Failed(permanent: bool)

  /** What the scheduler process holds in memory between its transactions. */
  datatype Flight = Flight(occurrence: Occurrence, frozen: bool, verdict: Option<Verdict>)

  /** `runs` lists the scheduled Runs in the order they were stored; a Run's request key is its occurrence. */
  datatype World = World(task: Task, runs: seq<Occurrence>, flight: Option<Flight>)

  /** `next` is what the cron search answers at `now`; `loads` whether the repository workflows could be loaded;
      `accepts` whether everything else an admission checks passes; `permanent` what kind of error it is if not. */
  datatype Step =
    | ClaimDue(now: int)
    | FreezeDue(now: int, loads: bool, permanent: bool)
    | AdmitDue(now: int, accepts: bool, permanent: bool)
    | FinishDue(now: int, next: Option<int>)
    | Crash(now: int)
    | DiscardDue(now: int, due: int, next: Option<int>)
    | SetArchived(now: int, archived: bool)
    | Edit(now: int, enabled: bool, workflow: bool, next: Option<int>)
    | RepositoryDisabled(now: int)
    | RepositoryEnabled(now: int)
  {
    predicate Valid() { (FinishDue? || DiscardDue? || Edit?) && next.Some? ==> now < next.value }
  }

  // ---------------------------------------------------------------- steps

  predicate Claimable(t: Task, now: int) {
    && !t.archived && t.enabled
    && if t.pending.Some? then t.retryAt.Some? && t.retryAt.value <= now else t.nextDue.Some? && t.nextDue.value <= now
  }

  /** claimDueTask: a pending occurrence is taken up again, else the due one is frozen. */
  function Claimed(t: Task, now: int): Task {
    if t.pending.Some? || t.nextDue.None? then t
    else t.(pending := Some(Occurrence(t.nextDue.value, t.generation)), frozen := !t.workflow, retryAt := Some(now), retryCount := 0)
  }

  predicate IsPending(t: Task, due: int) { t.pending.Some? && t.pending.value.due == due }

  /** admitTask for a frozen occurrence: a stored Run answers first, whatever became of the Task. */
  function Judgement(w: World, accepts: bool, permanent: bool): Verdict
    requires w.flight.Some?
  {
    if w.flight.value.occurrence in w.runs then Admitted
    else if w.task.archived then Failed(true)
    else if !w.task.enabled then Failed(false)
    else if !IsPending(w.task, w.flight.value.occurrence.due) then Failed(false)
    else if accepts then Admitted else Failed(permanent)
  }

  /** finishTaskOccurrence */
  function Finished(t: Task, now: int, due: int, verdict: Verdict, next: Option<int>): Task {
    if !IsPending(t, due) then t
    else if !verdict.Admitted? && (!t.enabled || t.archived) then t
    else match verdict
      case Admitted =>
        if next.None? then t
        else t.(pending := None, frozen := false, retryAt := None, retryCount := 0, nextDue := next, health := Healthy, coded := false)
      case Failed(true) => t.(retryAt := None, health := Blocked, coded := true)
      case Failed(false) =>
        var count := t.retryCount + 1;
        t.(retryAt := Some(now + RETRY_MILLIS * if count < MAX_RETRY_STEPS then count else MAX_RETRY_STEPS),
           retryCount := count, health := Error, coded := true)
  }

  predicate Discardable(t: Task, due: int, next: Option<int>) {
    && IsPending(t, due) && (t.health.Blocked? || t.health.Disabled?)
    && (t.enabled ==> next.Some?)
  }

  function Discarded(t: Task, due: int, next: Option<int>): Task {
    t.(pending := None, frozen := false, retryAt := None, retryCount := 0, nextDue := if t.enabled then next else None,
       lastDiscarded := Some(due), health := if t.enabled then Healthy else Disabled, coded := false)
  }

  /** Discarding an occurrence once more is accepted and changes nothing. */
  predicate AlreadyDiscarded(t: Task, due: int) { t.pending.None? && t.lastDiscarded == Some(due) }

  function Edited(t: Task, enabled: bool, workflow: bool, next: Option<int>): Task {
    var preserved := t.pending.Some? && t.retryAt.None? && (t.health.Blocked? || t.coded);
    t.(generation := t.generation + 1, enabled := enabled, workflow := workflow,
       nextDue := if t.pending.Some? then t.nextDue else if enabled then next else None,
       health := if enabled then if preserved then Blocked else Healthy else Disabled,
       coded := preserved && t.coded)
  }

  function Apply(w: World, step: Step): World {
    match step
    case ClaimDue(now) =>
      if w.flight.Some? || !Claimable(w.task, now) then w
      else
        var t := Claimed(w.task, now);
        w.(task := t, flight := if t.pending.Some? then Some(Flight(t.pending.value, t.frozen, None)) else None)
    case FreezeDue(_, loads, permanent) =>
      if w.flight.None? || w.flight.value.verdict.Some? || w.flight.value.frozen then w
      else
        var f := w.flight.value;
        if !loads then w.(flight := Some(f.(verdict := Some(Failed(permanent)))))
        else if !IsPending(w.task, f.occurrence.due) then w.(flight := Some(f.(verdict := Some(Failed(false)))))
        else w.(task := w.task.(frozen := true), flight := Some(f.(frozen := true)))
    case AdmitDue(_, accepts, permanent) =>
      if w.flight.None? || w.flight.value.verdict.Some? || !w.flight.value.frozen then w
      else
        var v := Judgement(w, accepts, permanent);
        var o := w.flight.value.occurrence;
        w.(runs := if v.Admitted? && o !in w.runs then w.runs + [o] else w.runs, flight := Some(Flight(o, true, Some(v))))
    case FinishDue(now, next) =>
      if w.flight.None? || w.flight.value.verdict.None? then w
      else w.(task := Finished(w.task, now, w.flight.value.occurrence.due, w.flight.value.verdict.value, next), flight := None)
    case Crash(_) => w.(flight := None)
    case DiscardDue(_, due, next) =>
      if Discardable(w.task, due, next) then w.(task := Discarded(w.task, due, next)) else w
    case SetArchived(_, archived) =>
      w.(task := w.task.(archived := archived, generation := w.task.generation + 1,
                         enabled := w.task.enabled && !archived, nextDue := if archived then None else w.task.nextDue,
                         health := if archived then Disabled else w.task.health))
    case Edit(_, enabled, workflow, next) =>
      if enabled && (w.task.archived || next.None?) then w else w.(task := Edited(w.task, enabled, workflow, next))
    case RepositoryDisabled(_) =>
      if w.task.enabled then w.(task := w.task.(health := Blocked, coded := true)) else w
    case RepositoryEnabled(_) =>
      if w.task.enabled && w.task.pending.None? then w.(task := w.task.(health := Healthy, coded := false)) else w
  }

  // ---------------------------------------------------------------- the invariant

  predicate Increasing(runs: seq<Occurrence>) {
    forall i, j :: 0 <= i < j < |runs| ==> runs[i].due < runs[j].due
  }

  /** Everything admitted is in the past and before whatever comes next, and was frozen before it was admitted. */
  ghost predicate Valid(w: World, now: int) {
    && Increasing(w.runs)
    && (forall r <- w.runs :: r.due <= now)
    && (w.task.pending.Some? ==>
          w.task.pending.value.due <= now && forall r <- w.runs :: r.due < w.task.pending.value.due || r == w.task.pending.value)
    && (w.task.pending.None? && w.task.nextDue.Some? ==> forall r <- w.runs :: r.due < w.task.nextDue.value)
    && (w.flight.Some? ==> w.task.pending.None? || w.task.pending.value == w.flight.value.occurrence)
    && (w.flight.Some? && w.flight.value.verdict == Some(Admitted) ==> w.flight.value.occurrence in w.runs)
    && (w.flight.Some? && w.flight.value.occurrence in w.runs ==> w.flight.value.frozen)
    && (w.flight.Some? && w.flight.value.frozen && w.task.pending.Some? ==> w.task.frozen)
    && (w.task.pending.Some? && w.task.pending.value in w.runs ==> w.task.frozen)
  }

  lemma TimePasses(w: World, now: int, later: int)
    requires Valid(w, now) && now <= later
    ensures Valid(w, later)
  {
  }

  lemma ClaimKeeps(w: World, now: int)
    requires Valid(w, now)
    ensures Valid(Apply(w, ClaimDue(now)), now)
  {
  }

  lemma AdmitKeeps(w: World, step: Step)
    requires Valid(w, step.now) && step.AdmitDue?
    ensures Valid(Apply(w, step), step.now) && w.runs <= Apply(w, step).runs
  {
    var next := Apply(w, step);
    if next.runs != w.runs {
      assert next.flight.value.occurrence == w.task.pending.value;
      assert forall r <- next.runs :: r in w.runs || r == w.task.pending.value;
    }
  }

  lemma FinishKeeps(w: World, step: Step)
    requires Valid(w, step.now) && step.Valid() && step.FinishDue?
    ensures Valid(Apply(w, step), step.now)
  {
  }

  lemma EditKeeps(w: World, step: Step)
    requires Valid(w, step.now) && step.Valid() && (step.DiscardDue? || step.SetArchived? || step.Edit?)
    ensures Valid(Apply(w, step), step.now)
  {
  }

  lemma StepKeeps(w: World, now: int, step: Step)
    requires Valid(w, now) && step.Valid() && now <= step.now
    ensures Valid(Apply(w, step), step.now)
    ensures w.runs <= Apply(w, step).runs
  {
    TimePasses(w, now, step.now);
    match step
    case ClaimDue(_) => ClaimKeeps(w, step.now);
    case AdmitDue(_, _, _) => AdmitKeeps(w, step);
    case FinishDue(_, _) => FinishKeeps(w, step);
    case DiscardDue(_, _, _) => EditKeeps(w, step);
    case SetArchived(_, _) => EditKeeps(w, step);
    case Edit(_, _, _, _) => EditKeeps(w, step);
    case _ =>
  }

  // ---------------------------------------------------------------- runs

  /** A new Task: nothing claimed, nothing admitted. */
  predicate Initial(w: World) { w.runs == [] && w.task.pending.None? && w.flight.None? }

  predicate Clocked(steps: seq<Step>, start: int) {
    && (forall i :: 0 <= i < |steps| ==> steps[i].Valid() && start <= steps[i].now)
    && (forall i, j :: 0 <= i < j < |steps| ==> steps[i].now <= steps[j].now)
  }

  /** The step asks the cron search for the next due time, at its own clock reading. */
  ghost predicate AsksCron(step: Step, s: Cron.Schedule, zone: int -> Cron.Local, limit: nat)
    requires s.Valid() && forall m :: zone(m).Valid()
  {
    step.FinishDue? || step.DiscardDue? || step.Edit? ==>
      exists minute: Option<int> ::
        Cron.Answers(s, zone, step.now, limit, minute)
        && step.next == if minute.Some? then Some(minute.value * Cron.MINUTE) else None
  }

  /** Steps in the order of the clock whose due times come from the cron search, whatever schedule and time zone
      each of them finds in the row, make a run of the kind considered here. */
  lemma CronRunsAreClocked(steps: seq<Step>, start: int, schedules: nat -> Cron.Schedule, zones: nat -> int -> Cron.Local, limit: nat)
    requires forall i :: 0 <= i < |steps| ==> start <= steps[i].now
    requires forall i, j :: 0 <= i < j < |steps| ==> steps[i].now <= steps[j].now
    requires forall i: nat :: schedules(i).Valid() && forall m :: zones(i)(m).Valid()
    requires forall i :: 0 <= i < |steps| ==> AsksCron(steps[i], schedules(i), zones(i), limit)
    ensures Clocked(steps, start)
  {
    forall i | 0 <= i < |steps| ensures steps[i].Valid() { CronStepIsValid(steps[i], schedules(i), zones(i), limit); }
  }

  lemma CronStepIsValid(step: Step, s: Cron.Schedule, zone: int -> Cron.Local, limit: nat)
    requires s.Valid() && (forall m :: zone(m).Valid()) && AsksCron(step, s, zone, limit)
    ensures step.Valid()
  {
  }

  function Run(w: World, steps: seq<Step>): World {
    if steps == [] then w else Apply(Run(w, steps[..|steps| - 1]), steps[|steps| - 1])
  }

  lemma {:induction false} RunIsValid(w: World, start: int, steps: seq<Step>)
    requires Initial(w) && Clocked(steps, start)
    ensures Valid(Run(w, steps), if steps == [] then start else steps[|steps| - 1].now)
  {
    if steps != [] {
      var n := |steps| - 1;
      RunIsValid(w, start, steps[..n]);
      StepKeeps(Run(w, steps[..n]), if n == 0 then start else steps[n - 1].now, steps[n]);
    }
  }

  /** However claims, admissions, crashes, edits, archivings and discards interleave, the scheduled Runs of a Task
      have strictly increasing due times: no occurrence is ever admitted twice. */
  lemma OccurrencesAreExactlyOnce(w: World, start: int, steps: seq<Step>)
    requires Initial(w) && Clocked(steps, start)
    ensures Increasing(Run(w, steps).runs)
    ensures var runs := Run(w, steps).runs;
      forall i, j :: 0 <= i < |runs| && 0 <= j < |runs| && runs[i].due == runs[j].due ==> i == j
  {
    RunIsValid(w, start, steps);
  }

  // ---------------------------------------------------------------- along a run

  /** The world before the step at `i`. */
  function At(w: World, steps: seq<Step>, i: nat): World
    requires i <= |steps|
  {
    Run(w, steps[..i])
  }

  lemma AtNext(w: World, start: int, steps: seq<Step>, i: nat)
    requires Initial(w) && Clocked(steps, start) && i < |steps|
    ensures At(w, steps, i + 1) == Apply(At(w, steps, i), steps[i])
    ensures Valid(At(w, steps, i), steps[i].now) && steps[i].Valid()
  {
    assert steps[..i + 1][..i] == steps[..i];
    RunIsValid(w, start, steps[..i]);
    TimePasses(At(w, steps, i), if i == 0 then start else steps[i - 1].now, steps[i].now);
  }

  lemma {:induction false} RunsOnlyGrow(w: World, start: int, steps: seq<Step>, i: nat, j: nat)
    requires Initial(w) && Clocked(steps, start) && i <= j <= |steps|
    ensures At(w, steps, i).runs <= At(w, steps, j).runs
    decreases j
  {
    if i < j {
      hide Apply, Valid, Clocked;
      RunsOnlyGrow(w, start, steps, i, j - 1);
      AtNext(w, start, steps, j - 1);
      StepKeeps(At(w, steps, j - 1), steps[j - 1].now, steps[j - 1]);
    }
  }

  // ---------------------------------------------------------------- crashes

  /** How one step treats an occurrence whose Run is stored: a claim takes it up as it was frozen, nothing is frozen
      anew, an admission answers with that very Run and stores no other, and the finish moves the schedule on. */
  predicate Replays(w: World, step: Step, next: World, o: Occurrence) {
    && (step.ClaimDue? && w.flight.None? && w.task.pending == Some(o) && Claimable(w.task, step.now) ==>
          next == w.(flight := Some(Flight(o, true, None))))
    && (w.flight.Some? && w.flight.value.occurrence == o ==>
          && (step.FreezeDue? ==> next == w)
          && (step.AdmitDue? ==> next == w.(flight := Some(Flight(o, true, if w.flight.value.verdict.Some? then w.flight.value.verdict else Some(Admitted)))))
          && (step.FinishDue? && step.next.Some? && w.flight.value.verdict == Some(Admitted) && w.task.pending == Some(o) ==>
                next.task.pending.None? && next.task.nextDue == step.next && next.runs == w.runs))
  }

  /** Once the Run of an occurrence is stored, every later step of every run treats it so, whatever crashes, edits
      and retries have happened in between. */
  lemma CrashReplays(w: World, start: int, steps: seq<Step>, i: nat, j: nat, o: Occurrence)
    requires Initial(w) && Clocked(steps, start) && i <= j < |steps| && o in At(w, steps, i).runs
    ensures o in At(w, steps, j).runs && Replays(At(w, steps, j), steps[j], At(w, steps, j + 1), o)
  {
    hide Clocked, At;
    RunsOnlyGrow(w, start, steps, i, j);
    AtNext(w, start, steps, j);
  }

  // ---------------------------------------------------------------- discarding

  /** An admission of the pending occurrence answers with a Run, new or stored. */
  predicate Admits(w: World, step: Step, o: Occurrence) {
    step.AdmitDue? && w.task.pending == Some(o) && w.flight == Some(Flight(o, true, None))
    && Judgement(w, step.accepts, step.permanent).Admitted?
  }

  /** The occurrence is finished after its admission, or discarded. */
  predicate Closes(w: World, step: Step, o: Occurrence) {
    || (step.FinishDue? && step.next.Some? && w.flight.Some?
        && w.flight.value.occurrence == o && w.flight.value.verdict == Some(Admitted))
    || (step.DiscardDue? && step.due == o.due && Discardable(w.task, step.due, step.next))
  }

  /** The occurrence was admitted and neither finished nor discarded since. */
  ghost predicate Outstanding(w: World, steps: seq<Step>, n: nat, o: Occurrence)
    requires n <= |steps|
  {
    exists k {:trigger Admits(At(w, steps, k), steps[k], o)} ::
      0 <= k < n && Admits(At(w, steps, k), steps[k], o)
      && forall j :: k < j < n ==> !Closes(At(w, steps, j), steps[j], o)
  }

  lemma PendingUntilClosed(w: World, step: Step, o: Occurrence)
    requires Valid(w, step.now) && step.Valid() && w.task.pending == Some(o) && !Closes(w, step, o)
    ensures Apply(w, step).task.pending == Some(o)
  {
  }

  /** A pending occurrence is never lost: between two points of a run it goes away only by a step that finishes it
      after its admission or discards it by name. */
  lemma {:induction false} PendingIsNotLost(w: World, start: int, steps: seq<Step>, i: nat, j: nat, o: Occurrence)
    requires Initial(w) && Clocked(steps, start) && i <= j <= |steps|
    requires At(w, steps, i).task.pending == Some(o) && At(w, steps, j).task.pending != Some(o)
    ensures exists k :: i <= k < j && Closes(At(w, steps, k), steps[k], o)
    decreases j
  {
    hide At, Apply, Valid, Clocked, Closes;
    AtNext(w, start, steps, j - 1);
    if At(w, steps, j - 1).task.pending != Some(o) {
      PendingIsNotLost(w, start, steps, i, j - 1, o);
    } else if !Closes(At(w, steps, j - 1), steps[j - 1], o) {
      PendingUntilClosed(At(w, steps, j - 1), steps[j - 1], o);
    }
  }

  predicate PendingStored(w: World, o: Occurrence) { w.task.pending == Some(o) && o in w.runs }

  lemma PendingStoredNext(w: World, step: Step, o: Occurrence)
    requires Valid(w, step.now) && step.Valid()
    ensures PendingStored(Apply(w, step), o) <==> Admits(w, step, o) || (PendingStored(w, o) && !Closes(w, step, o))
  {
  }

  lemma OutstandingNext(w: World, steps: seq<Step>, n: nat, o: Occurrence)
    requires n < |steps|
    ensures Outstanding(w, steps, n + 1, o)
      <==> Admits(At(w, steps, n), steps[n], o) || (Outstanding(w, steps, n, o) && !Closes(At(w, steps, n), steps[n], o))
  {
    hide At, Closes, Admits;
    if Outstanding(w, steps, n + 1, o) && !Admits(At(w, steps, n), steps[n], o) {
      var k :| 0 <= k < n + 1 && Admits(At(w, steps, k), steps[k], o)
        && forall j :: k < j < n + 1 ==> !Closes(At(w, steps, j), steps[j], o);
      assert k < n;
    }
    if Outstanding(w, steps, n, o) && !Closes(At(w, steps, n), steps[n], o) {
      var k :| 0 <= k < n && Admits(At(w, steps, k), steps[k], o)
        && forall j :: k < j < n ==> !Closes(At(w, steps, j), steps[j], o);
      assert forall j :: k < j < n + 1 ==> !Closes(At(w, steps, j), steps[j], o);
    }
  }

  /** In every run, the pending occurrence has a Run exactly when it was admitted and neither finished nor discarded
      since: edits, archivings and crashes in between make no difference. */
  lemma {:induction false} PendingHasRunIff(w: World, start: int, steps: seq<Step>, n: nat, o: Occurrence)
    requires Initial(w) && Clocked(steps, start) && n <= |steps|
    ensures PendingStored(At(w, steps, n), o) <==> Outstanding(w, steps, n, o)
  {
    if n > 0 {
      PendingHasRunIff(w, start, steps, n - 1, o);
      AtNext(w, start, steps, n - 1);
      PendingStoredNext(At(w, steps, n - 1), steps[n - 1], o);
      OutstandingNext(w, steps, n - 1, o);
    }
  }

  /** Hence a discard drops an occurrence that never ran exactly when it was not admitted before. */
  lemma DiscardDropsUnadmitted(w: World, start: int, steps: seq<Step>, n: nat, o: Occurrence)
    requires Initial(w) && Clocked(steps, start) && n < |steps| && steps[n].DiscardDue?
    requires At(w, steps, n).task.pending == Some(o) && Discardable(At(w, steps, n).task, steps[n].due, steps[n].next)
    ensures At(w, steps, n + 1).task.pending.None? && At(w, steps, n + 1).task.lastDiscarded == Some(o.due)
    ensures o !in At(w, steps, n + 1).runs <==> !Outstanding(w, steps, n, o)
  {
    hide Outstanding;
    PendingHasRunIff(w, start, steps, n, o);
    AtNext(w, start, steps, n);
  }

  /** Discarding does not look at the Runs: an occurrence whose Run was stored before a crash can still be
      discarded once the Task is archived. */
  lemma AdmittedCanBeDiscarded(due: int, next: int)
    requires due < next
    ensures var begin := World(Task(false, true, 1, false, None, false, None, 0, Some(due), None, Healthy, false), [], None);
      var steps := [ClaimDue(due), AdmitDue(due, true, false), Crash(due), SetArchived(due, true), DiscardDue(due, due, Some(next))];
      && Initial(begin) && Clocked(steps, due)
      && Occurrence(due, 1) in Run(begin, steps).runs && Run(begin, steps).task.lastDiscarded == Some(due)
  {
    var begin := World(Task(false, true, 1, false, None, false, None, 0, Some(due), None, Healthy, false), [], None);
    hide Run;
    RunOfFive(begin, ClaimDue(due), AdmitDue(due, true, false), Crash(due), SetArchived(due, true), DiscardDue(due, due, Some(next)));
  }

  lemma RunOfFive(w: World, a: Step, b: Step, c: Step, d: Step, e: Step)
    ensures Run(w, [a, b, c, d, e]) == Apply(Apply(Apply(Apply(Apply(w, a), b), c), d), e)
  {
    hide Apply;
    assert Run(w, []) == w && [] + [a] == [a] && [a] + [b] == [a, b] && [a, b] + [c] == [a, b, c];
    assert [a, b, c] + [d] == [a, b, c, d] && [a, b, c, d] + [e] == [a, b, c, d, e];
    RunNext(w, [], a);
    RunNext(w, [a], b);
    RunNext(w, [a, b], c);
    RunNext(w, [a, b, c], d);
    RunNext(w, [a, b, c, d], e);
  }

  lemma RunNext(w: World, steps: seq<Step>, step: Step)
    ensures Run(w, steps + [step]) == Apply(Run(w, steps), step)
  {
    assert (steps + [step])[..|steps|] == steps;
  }

  // ---------------------------------------------------------------- the row itself

  /** A Task row as the scheduler's transactions update it. */
  class TaskRow {
    var archived: bool
    var enabled: bool
    var generation: nat
    var workflow: bool
    var pending: Option<Occurrence>
    var frozen: bool
    var retryAt: Option<int>
    var retryCount: nat
    var nextDue: Option<int>
    var lastDiscarded: Option<int>
    var health: Health
    var coded: bool

    function Value(): Task
      reads this
    {
      Task(archived, enabled, generation, workflow, pending, frozen, retryAt, retryCount, nextDue, lastDiscarded, health, coded)
    }

    constructor (scheduled: bool, named: bool, next: Option<int>)
      ensures Value() == Task(false, scheduled, 1, named, None, false, None, 0, if scheduled then next else None, None,
                              if scheduled then Healthy else Disabled, false)
    {
      archived, enabled, generation, workflow, pending, frozen := false, scheduled, 1, named, None, false;
      retryAt, retryCount := None, 0;
      nextDue := if scheduled then next else None;
      lastDiscarded, health, coded := None, if scheduled then Healthy else Disabled, false;
    }

    method ClaimDue(now: int) returns (claimed: Option<Occurrence>)
      modifies this`pending, this`frozen, this`retryAt, this`retryCount
      ensures claimed.Some? <==> Claimable(old(Value()), now)
      ensures claimed.Some? ==> claimed == pending && Value() == Claimed(old(Value()), now)
      ensures claimed.None? ==> Value() == old(Value())
      ensures claimed.Some? <==>
        && !archived && enabled
        && if old(pending).Some? then old(retryAt).Some? && old(retryAt).value <= now else nextDue.Some? && nextDue.value <= now
      ensures claimed.Some? && old(pending).Some? ==> pending == old(pending) && frozen == old(frozen) && retryCount == old(retryCount)
      ensures claimed.Some? && old(pending).None? ==>
        nextDue.Some? && pending == Some(Occurrence(nextDue.value, generation)) && frozen == !workflow && retryAt == Some(now) && retryCount == 0
    {
      if archived || !enabled { return None; }
      if pending.Some? {
        return if retryAt.Some? && retryAt.value <= now then pending else None;
      }
      if nextDue.None? || now < nextDue.value { return None; }
      pending := Some(Occurrence(nextDue.value, generation));
      frozen := !workflow;
      retryAt, retryCount := Some(now), 0;
      return pending;
    }

    /** freezePendingTaskWorkflows, once the workflows are loaded: the snapshot is written back unless the
        occurrence has changed. */
    method Freeze(due: int) returns (ok: bool)
      modifies this`frozen
      ensures ok <==> IsPending(old(Value()), due)
      ensures Value() == if ok then old(Value()).(frozen := true) else old(Value())
    {
      if pending.None? || pending.value.due != due { return false; }
      frozen := true;
      return true;
    }

    method FinishOccurrence(now: int, due: int, verdict: Verdict, next: Option<int>)
      modifies this`pending, this`frozen, this`retryAt, this`retryCount, this`nextDue, this`health, this`coded
      ensures Value() == Finished(old(Value()), now, due, verdict, next)
      // Admitted: the schedule moves on from now.
      ensures old(pending).Some? && old(pending).value.due == due && verdict.Admitted? && next.Some? ==>
        pending == None && retryAt == None && retryCount == 0 && nextDue == next && health == Healthy && !coded
      // Refused for good: nothing is retried until someone intervenes.
      ensures old(pending).Some? && old(pending).value.due == due && verdict == Failed(true) && enabled && !archived ==>
        pending == old(pending) && retryAt == None && nextDue == old(nextDue) && health == Blocked && coded
      // Refused for now: retried after one minute more each time, up to fifteen.
      ensures old(pending).Some? && old(pending).value.due == due && verdict == Failed(false) && enabled && !archived ==>
        pending == old(pending) && retryCount == old(retryCount) + 1 && nextDue == old(nextDue) && health == Error && coded
        && retryAt == Some(now + if retryCount <= 15 then 60_000 * retryCount else 900_000)
      ensures old(pending).None? || old(pending).value.due != due ==> Value() == old(Value())
      ensures verdict.Admitted? && next.None? ==> Value() == old(Value())
      ensures !verdict.Admitted? && (!enabled || archived) ==> Value() == old(Value())
    {
      if pending.None? || pending.value.due != due { return; }
      if !verdict.Admitted? && (!enabled || archived) { return; }
      if verdict.Admitted? {
        if next.None? { return; }
        pending, frozen, retryAt, retryCount, nextDue := None, false, None, 0, next;
        health, coded := Healthy, false;
      } else if verdict.permanent {
        retryAt, health, coded := None, Blocked, true;
      } else {
        retryCount := retryCount + 1;
        var delay := RETRY_MILLIS * retryCount;
        if RETRY_MILLIS * MAX_RETRY_STEPS < delay { delay := RETRY_MILLIS * MAX_RETRY_STEPS; }
        retryAt, health, coded := Some(now + delay), Error, true;
      }
    }

    method Discard(due: int, next: Option<int>) returns (ok: bool)
      modifies this`pending, this`frozen, this`retryAt, this`retryCount, this`nextDue, this`lastDiscarded, this`health, this`coded
      ensures ok <==> Discardable(old(Value()), due, next) || AlreadyDiscarded(old(Value()), due)
      ensures Value() == if Discardable(old(Value()), due, next) then Discarded(old(Value()), due, next) else old(Value())
      ensures old(pending).Some? ==>
        (ok <==> old(pending).value.due == due && old(health) in {Blocked, Disabled} && (enabled ==> next.Some?))
      ensures old(pending).None? ==> (ok <==> old(lastDiscarded) == Some(due))
      ensures ok && old(pending).Some? ==>
        && pending == None && retryAt == None && retryCount == 0 && lastDiscarded == Some(due) && !coded
        && nextDue == (if enabled then next else None) && health == (if enabled then Healthy else Disabled)
    {
      if pending.None? { return lastDiscarded == Some(due); }
      if pending.value.due != due || (!health.Blocked? && !health.Disabled?) { return false; }
      if enabled && next.None? { return false; }
      lastDiscarded := Some(due);
      pending, frozen, retryAt, retryCount := None, false, None, 0;
      nextDue := if enabled then next else None;
      health, coded := if enabled then Healthy else Disabled, false;
      return true;
    }

    method Edit(scheduled: bool, named: bool, next: Option<int>) returns (ok: bool)
      modifies this`generation, this`enabled, this`workflow, this`nextDue, this`health, this`coded
      ensures ok <==> !(scheduled && (old(archived) || next.None?))
      ensures Value() == if ok then Edited(old(Value()), scheduled, named, next) else old(Value())
      ensures ok ==> generation == old(generation) + 1 && enabled == scheduled && workflow == named
      ensures ok ==> nextDue == if pending.Some? then old(nextDue) else if scheduled then next else None
      // A pending occurrence that was blocked for good stays so; nothing else of the health survives an edit.
      ensures ok ==> health == if !scheduled then Disabled
        else if pending.Some? && retryAt.None? && (old(health) == Blocked || old(coded)) then Blocked else Healthy
    {
      if scheduled && (archived || next.None?) { return false; }
      var preserved := pending.Some? && retryAt.None? && (health.Blocked? || coded);
      generation := generation + 1;
      enabled, workflow := scheduled, named;
      if pending.None? { nextDue := if scheduled then next else None; }
      health := if !scheduled then Disabled else if preserved then Blocked else Healthy;
      coded := preserved && coded;
      return true;
    }
  }
}
