/** Work that takes over from other Work forms chains, so choosing a predecessor leaves no choice. */
module Lineage {
  import opened Common
  import opened Tables
  import opened Transitions
  import opened Invariant
  import opened Calls

  /** How many times the Work behind a Session was taken over. */
  function Depth(db: DB, id: Id): nat
    requires SessionsLinked(db) && id in db.sessions
    decreases db.sessions[id].row
  {
    if db.sessions[id].predecessor.None? then 0
    else
      assert Succeeds(db.sessions, id, db.sessions[id].predecessor.value);
      1 + Depth(db, db.sessions[id].predecessor.value)
  }

  /** Following predecessors from `id` leads to `ancestor`. */
  predicate Descends(db: DB, id: Id, ancestor: Id)
    requires SessionsLinked(db) && id in db.sessions
    decreases db.sessions[id].row
  {
    id == ancestor ||
    (db.sessions[id].predecessor.Some? &&
      (assert Succeeds(db.sessions, id, db.sessions[id].predecessor.value);
       Descends(db, db.sessions[id].predecessor.value, ancestor)))
  }

  lemma ParentHolds(db: DB, id: Id)
    requires Linked(db) && LineageOk(db) && id in db.sessions && db.sessions[id].predecessor.Some?
    ensures var p := db.sessions[id].predecessor.value;
      && p in db.sessions && Succeeds(db.sessions, id, p) && db.sessions[p].row < db.sessions[id].row
      && db.sessions[p].repository == db.sessions[id].repository && db.sessions[p].source == db.sessions[id].source
      && db.sessions[p].state.Terminal() && Root(db, p) == Root(db, id) && Depth(db, id) == 1 + Depth(db, p) && Replaced(db, p)
  {
    assert Succeeds(db.sessions, id, db.sessions[id].predecessor.value);
  }

  /** Two Sessions of one lineage at the same depth are the same Session. */
  lemma {:induction false} SameDepthIsSame(db: DB, x: Id, y: Id)
    requires Linked(db) && LineageOk(db) && x in db.sessions && y in db.sessions
    requires Root(db, x) == Root(db, y) && Depth(db, x) == Depth(db, y)
    ensures x == y
    decreases Depth(db, x)
  {
    if Depth(db, x) > 0 {
      ParentHolds(db, x);
      ParentHolds(db, y);
      SameDepthIsSame(db, db.sessions[x].predecessor.value, db.sessions[y].predecessor.value);
    }
  }

  /** A lineage is a chain: of two of its Sessions the deeper one took over, step by step, from the other. */
  lemma {:induction false} LineagesAreChains(db: DB, x: Id, y: Id)
    requires Linked(db) && LineageOk(db) && x in db.sessions && y in db.sessions
    requires Root(db, x) == Root(db, y) && Depth(db, x) <= Depth(db, y)
    ensures Descends(db, y, x) && (x != y ==> Replaced(db, x))
    decreases Depth(db, y)
  {
    if Depth(db, x) == Depth(db, y) {
      SameDepthIsSame(db, x, y);
    } else {
      ParentHolds(db, y);
      LineagesAreChains(db, x, db.sessions[y].predecessor.value);
    }
  }

  lemma {:induction false} RootKeepsSource(db: DB, id: Id)
    requires Linked(db) && LineageOk(db) && id in db.sessions
    ensures db.sessions[Root(db, id)].source == db.sessions[id].source
    ensures db.sessions[Root(db, id)].repository == db.sessions[id].repository
    decreases db.sessions[id].row
  {
    if db.sessions[id].predecessor.Some? {
      ParentHolds(db, id);
      RootKeepsSource(db, db.sessions[id].predecessor.value);
    }
  }

  /** All builds of one work item are one lineage. */
  lemma ItemsHaveOneRoot(db: DB, x: Id, y: Id)
    requires Linked(db) && LineageOk(db) && x in db.sessions && y in db.sessions
    requires db.sessions[x].source.WorkItem? && db.sessions[x].source == db.sessions[y].source
    requires db.sessions[x].repository == db.sessions[y].repository
    ensures Root(db, x) == Root(db, y)
  {
    RootKeepsSource(db, x);
    RootKeepsSource(db, y);
    assert SameItemRoots(db.sessions[Root(db, x)], db.sessions[Root(db, y)]);
  }

  /** Same work item, or same chain of takeovers of a repository. */
  predicate SameLineage(db: DB, x: Id, y: Id)
    requires Linked(db) && x in db.sessions && y in db.sessions
  {
    && db.sessions[x].repository == db.sessions[y].repository
    && if db.sessions[x].source.WorkItem? then db.sessions[y].source == db.sessions[x].source else Root(db, x) == Root(db, y)
  }

  /** In every reachable state a lineage is a chain, only its last Work can be live, and only that one is not replaced. */
  lemma OneTailPerLineage(db: DB, x: Id, y: Id)
    requires Reachable(db) && Linked(db) && x in db.sessions && y in db.sessions && SameLineage(db, x, y)
    ensures Descends(db, y, x) || Descends(db, x, y)
    ensures x != y ==> Replaced(db, x) || Replaced(db, y)
    ensures !db.sessions[x].state.Terminal() ==> !Replaced(db, x) && Descends(db, x, y)
    ensures !db.sessions[y].state.Terminal() ==> !Replaced(db, y) && Descends(db, y, x)
  {
    hide Reachable, Descends, Depth;
    ReachableIsSound(db);
    if db.sessions[x].source.WorkItem? { ItemsHaveOneRoot(db, x, y); }
    if Depth(db, x) <= Depth(db, y) { LineagesAreChains(db, x, y); } else { LineagesAreChains(db, y, x); }
    if !db.sessions[x].state.Terminal() { LiveIsNotReplaced(db, x); }
    if !db.sessions[y].state.Terminal() { LiveIsNotReplaced(db, y); }
    hide Inv, Linked, Replaced;
    if x == y { LineagesAreChains(db, x, y); }
  }

  /** For a work item the query for a predecessor has at most one row to return, and none while a build is live. */
  lemma BuildPredecessorIsUnique(db: DB, rebuild: bool, procedure: Id, t: Target)
    requires Reachable(db) && Linked(db) && t.source.WorkItem?
    ensures forall x, y ::
      x in TerminalTails(db, BuildRun(rebuild), procedure, t) && y in TerminalTails(db, BuildRun(rebuild), procedure, t) ==> x == y
    ensures LiveMatch(db, BuildRun(rebuild), procedure, t) ==> TerminalTails(db, BuildRun(rebuild), procedure, t) == {}
  {
    var tails := TerminalTails(db, BuildRun(rebuild), procedure, t);
    hide Reachable, Linked, Descends;
    forall x, y | x in tails && y in tails ensures x == y { OneTailPerLineage(db, x, y); }
    if LiveMatch(db, BuildRun(rebuild), procedure, t) {
      var live :| live in db.sessions && Matches(db, BuildRun(rebuild), procedure, t, live) && !db.sessions[live].state.Terminal();
      forall x | x in db.sessions && Matches(db, BuildRun(rebuild), procedure, t, x) && x != live ensures Replaced(db, x) {
        OneTailPerLineage(db, live, x);
      }
    }
  }

  /** The guard against a second live Work of a lineage adds nothing to the guard against replaced Work. */
  lemma RetryGuardIsReplacement(db: DB, work: Id)
    requires Reachable(db) && Linked(db) && work in db.sessions && db.sessions[work].state.Terminal()
    ensures RetryGuard(db, work) == if Replaced(db, work) then Some(WorkReplaced) else None
  {
    hide Reachable, Linked, Descends, Replaced;
    if MatchingLive(db, work) {
      var id :| id in db.sessions && id != work && !db.sessions[id].state.Terminal()
        && db.sessions[id].repository == db.sessions[work].repository
        && (if db.sessions[work].source.WorkItem? then db.sessions[id].source == db.sessions[work].source
            else Root(db, id) == Root(db, work));
      OneTailPerLineage(db, work, id);
    }
  }
}
