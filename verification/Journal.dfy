/** The command line's admission journal: one request key per Build until its answer is known, across crashes.

    A scope is the digest of an endpoint and a request; it stands for both. */
module Journal {
  import opened Common

  const MAX_PENDING: nat := 100

  type Scope = nat
  type Key = nat

  datatype Entry = Entry(scope: Scope, key: Key)

  // ---------------------------------------------------------------- the journal file

  function Find(entries: seq<Entry>, scope: Scope): (found: Option<Key>)
    ensures found.Some? ==> Entry(scope, found.value) in entries
    ensures found.None? ==> forall e <- entries :: e.scope != scope
  {
    if entries == [] then None
    else if entries[0].scope == scope then Some(entries[0].key)
    else Find(entries[1..], scope)
  }

  function Without(entries: seq<Entry>, gone: Entry): (rest: seq<Entry>)
    ensures forall e :: e in rest <==> e in entries && e != gone
    ensures |rest| <= |entries|
  {
    if entries == [] then []
    else (if entries[0] == gone then [] else [entries[0]]) + Without(entries[1..], gone)
  }

  /** The entries under the journal lock. */
  class PendingAdmissions {
    var entries: seq<Entry>

    constructor ()
      ensures entries == []
    {
      entries := [];
    }

    /** loadOrCreatePendingAdmission: the key already journalled for the scope, else `random`, recorded first. */
    method LoadOrCreate(scope: Scope, random: Key) returns (key: Option<Key>)
      modifies this
      ensures key == if Find(old(entries), scope).Some? then Find(old(entries), scope)
                     else if |old(entries)| < MAX_PENDING then Some(random) else None
      ensures entries == if Find(old(entries), scope).None? && key.Some? then old(entries) + [Entry(scope, random)] else old(entries)
    {
      for i := 0 to |entries|
        invariant entries == old(entries) && Find(entries, scope) == Find(entries[i..], scope)
      {
        if entries[i].scope == scope { return Some(entries[i].key); }
      }
      if MAX_PENDING <= |entries| { return None; }
      entries := entries + [Entry(scope, random)];
      return Some(random);
    }

    /** removePendingAdmission */
    method Remove(scope: Scope, key: Key) returns (removed: bool)
      modifies this
      ensures removed <==> Entry(scope, key) in old(entries)
      ensures entries == if removed then Without(old(entries), Entry(scope, key)) else old(entries)
    {
      var filtered: seq<Entry> := [];
      removed := false;
      for i := 0 to |entries|
        invariant entries == old(entries)
        invariant filtered + Without(entries[i..], Entry(scope, key)) == Without(entries, Entry(scope, key))
        invariant removed <==> Entry(scope, key) in entries[..i]
      {
        ghost var before := filtered;
        if entries[i] == Entry(scope, key) {
          removed := true;
        } else {
          filtered := filtered + [entries[i]];
          assert filtered + Without(entries[i + 1..], Entry(scope, key)) == before + ([entries[i]] + Without(entries[i + 1..], Entry(scope, key)));
        }
        assert entries[i..][1..] == entries[i + 1..];
      }
      if !removed { return false; }
      entries := filtered;
    }
  }

  // ---------------------------------------------------------------- invocations and the server

  datatype Answer = Admitted(run: nat) | RejectedBeforeCommit

  /** A row of the server's table of Runs. */
  datatype StoredRun = StoredRun(run: nat, key: Key, scope: Scope)

  /** The server's lookup of a request key. */
  function FindRun(runs: seq<StoredRun>, key: Key): (found: Option<StoredRun>)
    ensures found.Some? ==> found.value in runs && found.value.key == key
    ensures found.None? ==> forall r <- runs :: r.key != key
  {
    if runs == [] then None else if runs[0].key == key then Some(runs[0]) else FindRun(runs[1..], key)
  }

  /** What the server holds after a post is served, and what it answers: a stored Run is replayed, whatever the
      server would make of the request by now. */
  function Served(runs: seq<StoredRun>, key: Key, scope: Scope, accepts: bool, drawn: nat): (seq<StoredRun>, Answer) {
    var found := FindRun(runs, key);
    if found.Some? then (runs, Admitted(found.value.run))
    else if accepts && forall r <- runs :: r.run != drawn then (runs + [StoredRun(drawn, key, scope)], Admitted(drawn))
    else (runs, RejectedBeforeCommit)
  }

  /** Where an invocation that holds its scope's lock stands. */
  datatype Phase =
    | Locked
    | Ready(key: Key)
    | Waiting(key: Key)
    | Answered(key: Key, answer: Answer)
    | Printed(key: Key, answer: Answer)

  datatype Invocation = Invocation(scope: Scope, phase: Phase)

  /** `live` holds the running invocations; `sent` the posts the server may still serve, now or later;
      `runs` the server's Runs in the order they were stored; `issued` every key ever drawn, with its scope. */
  datatype World = World(
    journal: seq<Entry>, live: map<nat, Invocation>, sent: set<Key>, runs: seq<StoredRun>, issued: map<Key, Scope>)

  const EMPTY := World([], map[], {}, [], map[])

  datatype Step =
    | Begin(who: nat, scope: Scope)
    | Prepare(who: nat, random: Key)
    | Send(who: nat)
    | Serve(key: Key, accepts: bool, drawn: nat, reply: Option<nat>)
    | Lose(who: nat)
    | Flush(who: nat)
    | Complete(who: nat)
    | Crash(who: nat)

  predicate ScopeBusy(w: World, scope: Scope) { exists i <- w.live :: w.live[i].scope == scope }

  function Leave(w: World, who: nat): World { w.(live := w.live - {who}) }

  function Move(w: World, who: nat, phase: Phase): World
    requires who in w.live
  {
    w.(live := w.live[who := w.live[who].(phase := phase)])
  }

  function Apply(w: World, step: Step): World {
    match step
    case Begin(who, scope) =>
      if who in w.live || ScopeBusy(w, scope) then w else w.(live := w.live[who := Invocation(scope, Locked)])
    case Prepare(who, random) =>
      if who !in w.live || !w.live[who].phase.Locked? then w
      else
        var scope := w.live[who].scope;
        var found := Find(w.journal, scope);
        if found.Some? then Move(w, who, Ready(found.value))
        else if MAX_PENDING <= |w.journal| || random in w.issued then Leave(w, who)
        else Move(w, who, Ready(random)).(journal := w.journal + [Entry(scope, random)], issued := w.issued[random := scope])
    case Send(who) =>
      if who !in w.live || !w.live[who].phase.Ready? then w
      else Move(w, who, Waiting(w.live[who].phase.key)).(sent := w.sent + {w.live[who].phase.key})
    case Serve(key, accepts, drawn, reply) =>
      if key !in w.sent || key !in w.issued then w
      else
        var (runs, answer) := Served(w.runs, key, w.issued[key], accepts, drawn);
        var served := w.(runs := runs);
        if reply.Some? && reply.value in w.live && w.live[reply.value].phase == Waiting(key) then
          Move(served, reply.value, Answered(key, answer))
        else served
    case Lose(who) => if who in w.live && w.live[who].phase.Waiting? then Leave(w, who) else w
    case Flush(who) =>
      if who in w.live && w.live[who].phase.Answered? then
        Move(w, who, Printed(w.live[who].phase.key, w.live[who].phase.answer))
      else w
    case Complete(who) =>
      if who in w.live && w.live[who].phase.Printed? then
        Leave(w.(journal := Without(w.journal, Entry(w.live[who].scope, w.live[who].phase.key))), who)
      else w
    case Crash(who) => Leave(w, who)
  }

  // ---------------------------------------------------------------- the invariant

  predicate HasKey(p: Phase) { !p.Locked? }

  predicate OneEntryPerScope(journal: seq<Entry>) {
    forall e, f :: e in journal && f in journal && e.scope == f.scope ==> e == f
  }

  predicate Recorded(w: World, i: nat)
    requires i in w.live
  {
    HasKey(w.live[i].phase) ==> Entry(w.live[i].scope, w.live[i].phase.key) in w.journal
  }

  predicate Known(w: World, i: nat)
    requires i in w.live
  {
    (w.live[i].phase.Answered? || w.live[i].phase.Printed?) && w.live[i].phase.answer.Admitted? ==>
      StoredRun(w.live[i].phase.answer.run, w.live[i].phase.key, w.live[i].scope) in w.runs
  }

  /** No two Runs carry the same request key or the same identifier. */
  predicate OneRunPerKey(runs: seq<StoredRun>) {
    forall i, j :: 0 <= i < |runs| && 0 <= j < |runs| && (runs[i].key == runs[j].key || runs[i].run == runs[j].run) ==> i == j
  }

  ghost predicate Valid(w: World) {
    && OneEntryPerScope(w.journal)
    && (forall e <- w.journal :: e.key in w.issued && w.issued[e.key] == e.scope)
    && (forall i, j :: i in w.live && j in w.live && w.live[i].scope == w.live[j].scope ==> i == j)
    && (forall i <- w.live :: Recorded(w, i) && Known(w, i))
    && OneRunPerKey(w.runs)
    && (forall r <- w.runs :: r.key in w.issued && w.issued[r.key] == r.scope)
    && w.sent <= w.issued.Keys
  }

  lemma StepKeeps(w: World, step: Step)
    requires Valid(w)
    ensures Valid(Apply(w, step))
  {
    hide Valid, Apply;
    match step
    case Prepare(who, random) => PrepareKeeps(w, who, random);
    case Complete(who) => CompleteKeeps(w, who);
    case Serve(_, _, _, _) => ServeKeeps(w, step);
    case Begin(who, scope) => BeginKeeps(w, who, scope);
    case _ => PhaseKeeps(w, step);
  }

  lemma ServedKeeps(runs: seq<StoredRun>, key: Key, scope: Scope, accepts: bool, drawn: nat)
    requires OneRunPerKey(runs) && forall r <- runs :: r.key == key ==> r.scope == scope
    ensures var (next, answer) := Served(runs, key, scope, accepts, drawn);
      && OneRunPerKey(next) && runs <= next
      && (forall r <- next :: r in runs || (r.key == key && r.scope == scope))
      && (answer.Admitted? ==> StoredRun(answer.run, key, scope) in next)
  {
    var (next, answer) := Served(runs, key, scope, accepts, drawn);
    if next != runs { assert next[|runs|] == StoredRun(drawn, key, scope); }
  }

  lemma ServeKeeps(w: World, step: Step)
    requires Valid(w) && step.Serve?
    ensures Valid(Apply(w, step))
  {
    if step.key in w.sent && step.key in w.issued {
      ServedKeeps(w.runs, step.key, w.issued[step.key], step.accepts, step.drawn);
      hide Served, OneRunPerKey;
    }
  }

  lemma BeginKeeps(w: World, who: nat, scope: Scope)
    requires Valid(w)
    ensures Valid(Apply(w, Begin(who, scope)))
  {
  }

  lemma PhaseKeeps(w: World, step: Step)
    requires Valid(w) && (step.Send? || step.Lose? || step.Flush? || step.Crash?)
    ensures Valid(Apply(w, step))
  {
  }

  lemma PrepareKeeps(w: World, who: nat, random: Key)
    requires Valid(w)
    ensures Valid(Apply(w, Prepare(who, random)))
  {
    var next := Apply(w, Prepare(who, random));
    if next.journal != w.journal {
      assert forall e :: e in next.journal <==> e in w.journal || e == Entry(w.live[who].scope, random);
    }
  }

  lemma CompleteKeeps(w: World, who: nat)
    requires Valid(w)
    ensures Valid(Apply(w, Complete(who)))
  {
  }

  function Run(w: World, steps: seq<Step>): World {
    if steps == [] then w else Apply(Run(w, steps[..|steps| - 1]), steps[|steps| - 1])
  }

  lemma {:induction false} RunIsValid(steps: seq<Step>)
    ensures Valid(Run(EMPTY, steps))
  {
    if steps != [] {
      RunIsValid(steps[..|steps| - 1]);
      StepKeeps(Run(EMPTY, steps[..|steps| - 1]), steps[|steps| - 1]);
    }
  }

  /** The world before the step at `i`. */
  function At(steps: seq<Step>, i: nat): World
    requires i <= |steps|
  {
    Run(EMPTY, steps[..i])
  }

  lemma AtNext(steps: seq<Step>, j: nat)
    requires 0 < j <= |steps|
    ensures At(steps, j) == Apply(At(steps, j - 1), steps[j - 1])
    ensures Valid(At(steps, j - 1)) && Valid(At(steps, j))
  {
    assert steps[..j][..j - 1] == steps[..j - 1];
    RunIsValid(steps[..j - 1]);
    RunIsValid(steps[..j]);
  }

  // ---------------------------------------------------------------- what a run keeps

  /** The step ends the uncertainty about the scope. */
  predicate Completes(w: World, step: Step, scope: Scope) {
    step.Complete? && step.who in w.live && w.live[step.who].phase.Printed? && w.live[step.who].scope == scope
  }

  /** An entry outlives every step but the completion of its own scope: crashes, lost answers and other
      invocations leave it, whatever they do to the journal. */
  lemma EntryStays(w: World, step: Step, e: Entry)
    requires Valid(w) && e in w.journal && !Completes(w, step, e.scope)
    ensures e in Apply(w, step).journal
  {
  }

  /** The scope does not complete between two points of a run. */
  predicate Uncompleted(steps: seq<Step>, i: nat, j: nat, scope: Scope)
    requires i <= j <= |steps|
  {
    forall k :: i <= k < j ==> !Completes(At(steps, k), steps[k], scope)
  }

  lemma UncompletedBefore(steps: seq<Step>, i: nat, j: nat, scope: Scope)
    requires i < j <= |steps| && Uncompleted(steps, i, j, scope)
    ensures Uncompleted(steps, i, j - 1, scope) && !Completes(At(steps, j - 1), steps[j - 1], scope)
  {
    hide At, Completes;
  }

  lemma {:induction false} EntryStaysAlong(steps: seq<Step>, i: nat, j: nat, e: Entry)
    requires i <= j <= |steps| && e in At(steps, i).journal && Uncompleted(steps, i, j, e.scope)
    ensures e in At(steps, j).journal
    decreases j
  {
    if i < j {
      hide Apply, Valid, Completes, Uncompleted, At;
      AtNext(steps, j);
      UncompletedBefore(steps, i, j, e.scope);
      EntryStaysAlong(steps, i, j - 1, e);
      EntryStays(At(steps, j - 1), steps[j - 1], e);
    }
  }

  /** Until a scope completes, every invocation for it posts the key the first one drew. */
  lemma RetriesPostTheSameKey(steps: seq<Step>, i: nat, j: nat, e: Entry, who: nat)
    requires i <= j <= |steps| && e in At(steps, i).journal && Uncompleted(steps, i, j, e.scope)
    requires var w := At(steps, j); who in w.live && w.live[who].scope == e.scope && HasKey(w.live[who].phase)
    ensures At(steps, j).live[who].phase.key == e.key
  {
    EntryStaysAlong(steps, i, j, e);
    RunIsValid(steps[..j]);
    assert Recorded(At(steps, j), who);
  }

  /** An entry cleared after the server said the Build was admitted has its Run stored, for its own scope. */
  lemma ClearedMeansStored(steps: seq<Step>, who: nat)
    requires var w := Run(EMPTY, steps);
      who in w.live && w.live[who].phase.Printed? && w.live[who].phase.answer.Admitted?
    ensures var w, next := Run(EMPTY, steps), Apply(Run(EMPTY, steps), Complete(who));
      var key := w.live[who].phase.key;
      && StoredRun(w.live[who].phase.answer.run, key, w.live[who].scope) in next.runs
      && Entry(w.live[who].scope, key) in w.journal && Entry(w.live[who].scope, key) !in next.journal
  {
    RunIsValid(steps);
    var w := Run(EMPTY, steps);
    assert Recorded(w, who) && Known(w, who);
  }

  lemma {:induction false} RunsOnlyGrow(steps: seq<Step>, i: nat, j: nat)
    requires i <= j <= |steps|
    ensures At(steps, i).runs <= At(steps, j).runs
    decreases j
  {
    if i < j {
      hide Apply, At, Valid;
      RunsOnlyGrow(steps, i, j - 1);
      AtNext(steps, j);
      RunsStay(At(steps, j - 1), steps[j - 1]);
    }
  }

  lemma RunsStay(w: World, step: Step)
    ensures w.runs <= Apply(w, step).runs
  {
  }

  /** In every run the server holds at most one Run per key, and once it holds one, every later post of the key is
      answered with that very Run and stores nothing, even if the server would reject the request by now. */
  lemma RunsAreStoredOnce(steps: seq<Step>, i: nat, j: nat, stored: StoredRun)
    requires i <= j < |steps| && stored in At(steps, i).runs
    ensures forall r <- At(steps, j).runs :: r.key == stored.key ==> r == stored
    ensures steps[j].Serve? && steps[j].key == stored.key ==>
      var w, next, reply := At(steps, j), At(steps, j + 1), steps[j].reply;
      && next.runs == w.runs
      && (stored.key in w.sent && reply.Some? && reply.value in w.live && w.live[reply.value].phase == Waiting(stored.key) ==>
            reply.value in next.live && next.live[reply.value].phase == Answered(stored.key, Admitted(stored.run)))
  {
    RunsOnlyGrow(steps, i, j);
    AtNext(steps, j + 1);
    var w := At(steps, j);
    assert stored in w.runs && Valid(w);
    hide At;
    OnlyRunOfKey(w.runs, stored);
  }

  lemma OnlyRunOfKey(runs: seq<StoredRun>, stored: StoredRun)
    requires OneRunPerKey(runs) && stored in runs
    ensures forall r <- runs :: r.key == stored.key ==> r == stored
    ensures FindRun(runs, stored.key) == Some(stored)
  {
    hide FindRun;
  }

  /** As long as a scope has not completed since its entry was drawn, at most one key of the scope drawn since
      then can have a Run: a crashed or timed-out Build is never started twice by trying again. */
  lemma {:induction false} NoKeyIsDrawnTwice(steps: seq<Step>, i: nat, j: nat, e: Entry, key: Key)
    requires i <= j <= |steps| && e in At(steps, i).journal && Uncompleted(steps, i, j, e.scope)
    requires key in At(steps, j).issued && At(steps, j).issued[key] == e.scope
    ensures key in At(steps, i).issued
    decreases j
  {
    hide Apply, Valid, Completes, Uncompleted, At;
    if i < j {
      UncompletedBefore(steps, i, j, e.scope);
      AtNext(steps, j);
      EntryStaysAlong(steps, i, j - 1, e);
      NoNewKey(At(steps, j - 1), steps[j - 1], e, key);
      NoKeyIsDrawnTwice(steps, i, j - 1, e, key);
    }
  }

  lemma NoNewKey(w: World, step: Step, e: Entry, key: Key)
    requires Valid(w) && e in w.journal && key in Apply(w, step).issued && Apply(w, step).issued[key] == e.scope
    ensures key in w.issued && w.issued[key] == e.scope
  {
  }
}
