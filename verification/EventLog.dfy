/** An Attempt's event log: appended in batches that may be resent, read in pages. */
module EventLog {
  import opened Common
  import Tables
  import Text

  const MAX_LOG_BYTES: nat := 10485760
  const MAX_BATCH: nat := 100
  const MAX_EVENT_BYTES: nat := 65536
  const MAX_PAGE: nat := 500

  /** The payload is a string of bytes. */
  datatype Event = Event(sequence: int, kind: string, payload: seq<bv8>)

  datatype Refusal = Malformed | Conflict | OutOfOrder | OverBudget

  predicate Increasing(log: seq<Event>) {
    forall i, j :: 0 <= i < j < |log| ==> log[i].sequence < log[j].sequence
  }

  function Size(log: seq<Event>): nat {
    if log == [] then 0 else Size(log[..|log| - 1]) + |log[|log| - 1].payload|
  }

  /** What a log always is. */
  predicate Sound(log: seq<Event>) {
    Increasing(log) && (forall e <- log :: 0 <= e.sequence) && Size(log) <= MAX_LOG_BYTES
  }

  /** The batch limits that the service checks before it looks at the log. */
  predicate WellFormed(batch: seq<Event>) {
    && 0 < |batch| <= MAX_BATCH && Increasing(batch)
    && forall e <- batch :: 0 <= e.sequence && !Tables.Blank(e.kind) && Text.Bytes(e.kind) <= 100 && |e.payload| <= MAX_EVENT_BYTES
  }

  predicate Stored(log: seq<Event>, sequence: int) { exists e <- log :: e.sequence == sequence }

  function Last(log: seq<Event>): int { if log == [] then -1 else log[|log| - 1].sequence }

  datatype Outcome = Accepted(log: seq<Event>) | Refused(why: Refusal)

  /** The log with the events of a batch that it does not hold yet. */
  function Merge(log: seq<Event>, batch: seq<Event>): Outcome
    decreases |batch|
  {
    if batch == [] then Accepted(log)
    else if Stored(log, batch[0].sequence) then
      if batch[0] in log then Merge(log, batch[1..]) else Refused(Conflict)
    else if batch[0].sequence <= Last(log) then Refused(OutOfOrder)
    else Merge(log + [batch[0]], batch[1..])
  }

  function Append(log: seq<Event>, batch: seq<Event>): Outcome {
    if !WellFormed(batch) then Refused(Malformed)
    else
      var merged := Merge(log, batch);
      if merged.Accepted? && MAX_LOG_BYTES < Size(merged.log) then Refused(OverBudget) else merged
  }

  // ---------------------------------------------------------------- merging

  lemma LastIsGreatest(log: seq<Event>)
    requires Increasing(log)
    ensures forall e <- log :: e.sequence <= Last(log)
  {
  }

  /** A merge only adds, in order, and afterwards the log holds the whole batch. */
  lemma {:induction false} MergeAdds(log: seq<Event>, batch: seq<Event>)
    requires Increasing(log) && Merge(log, batch).Accepted?
    ensures log <= Merge(log, batch).log && Increasing(Merge(log, batch).log)
    ensures forall e <- batch :: e in Merge(log, batch).log
    ensures forall e <- Merge(log, batch).log :: e in log || e in batch
    decreases |batch|
  {
    if batch != [] {
      LastIsGreatest(log);
      var next := if Stored(log, batch[0].sequence) then log else log + [batch[0]];
      MergeAdds(next, batch[1..]);
      assert batch[0] in next;
    }
  }

  /** Events already in the log add nothing. */
  lemma {:induction false} MergeOfHeld(log: seq<Event>, batch: seq<Event>)
    requires forall e <- batch :: e in log
    ensures Merge(log, batch) == Accepted(log)
  {
    if batch != [] { MergeOfHeld(log, batch[1..]); }
  }

  lemma MergeOfNothing(log: seq<Event>)
    ensures Merge(log, []) == Accepted(log)
  {
  }

  lemma MergeOfNext(log: seq<Event>, batch: seq<Event>)
    requires batch != []
    ensures Merge(log, batch) ==
      if Stored(log, batch[0].sequence) then if batch[0] in log then Merge(log, batch[1..]) else Refused(Conflict)
      else if batch[0].sequence <= Last(log) then Refused(OutOfOrder)
      else Merge(log + [batch[0]], batch[1..])
  {
  }

  lemma SizeOfOneMore(log: seq<Event>, e: Event)
    ensures Size(log + [e]) == Size(log) + |e.payload|
  {
    assert (log + [e])[..|log|] == log;
  }

  /** Splitting a batch makes no difference to what is merged. */
  lemma {:induction false} MergeSplits(log: seq<Event>, a: seq<Event>, b: seq<Event>)
    ensures Merge(log, a + b) == if Merge(log, a).Accepted? then Merge(Merge(log, a).log, b) else Merge(log, a)
    decreases |a|
  {
    if a == [] {
      assert a + b == b;
    } else {
      assert (a + b)[1..] == a[1..] + b;
      MergeSplits(log, a[1..], b);
      MergeSplits(log + [a[0]], a[1..], b);
    }
  }

  // ---------------------------------------------------------------- appending

  /** The event is stored already, just so, or comes after everything stored. */
  predicate Appendable(log: seq<Event>, e: Event) { e in log || forall f <- log :: f.sequence < e.sequence }

  predicate AllAppendable(log: seq<Event>, batch: seq<Event>) { forall e <- batch :: Appendable(log, e) }

  lemma AppendableByOne(log: seq<Event>, batch: seq<Event>)
    requires batch != []
    ensures AllAppendable(log, batch) <==> Appendable(log, batch[0]) && AllAppendable(log, batch[1..])
  {
    hide Appendable;
    assert forall e :: e in batch <==> e == batch[0] || e in batch[1..];
  }

  /** The batch without what the log holds. */
  function News(log: seq<Event>, batch: seq<Event>): seq<Event> {
    if batch == [] then [] else (if batch[0] in log then [] else [batch[0]]) + News(log, batch[1..])
  }

  lemma {:induction false} SizeOfConcat(a: seq<Event>, b: seq<Event>)
    ensures Size(a + b) == Size(a) + Size(b)
  {
    if b == [] {
      assert a + b == a;
    } else {
      SizeOfConcat(a, b[..|b| - 1]);
      assert (a + b)[..|a + b| - 1] == a + b[..|b| - 1];
    }
  }

  lemma StoredMeans(log: seq<Event>, e: Event)
    requires Increasing(log)
    ensures Appendable(log, e) <==> if Stored(log, e.sequence) then e in log else Last(log) < e.sequence || log == []
  {
    LastIsGreatest(log);
    if log != [] { assert log[|log| - 1] in log; }
  }

  lemma NewsOfNext(log: seq<Event>, batch: seq<Event>)
    requires batch != []
    ensures News(log, batch) == (if batch[0] in log then [] else [batch[0]]) + News(log, batch[1..])
  {
  }

  /** A batch in order merges exactly when each of its events can be appended, and adds exactly its news. */
  lemma {:induction false} MergesWhenAppendable(log: seq<Event>, batch: seq<Event>)
    requires Increasing(log) && Increasing(batch) && forall e <- batch :: 0 <= e.sequence
    ensures Merge(log, batch).Accepted? <==> AllAppendable(log, batch)
    ensures Merge(log, batch).Accepted? ==> Merge(log, batch).log == log + News(log, batch)
    decreases |batch|
  {
    hide Appendable, AllAppendable, Stored, Merge, Increasing, News;
    if batch == [] {
      NothingMerges(log);
    } else {
      var e, rest := batch[0], batch[1..];
      MergeStep(log, batch);
      RestFollows(batch);
      AppendableByOne(log, batch);
      NewsOfNext(log, batch);
      if e in log {
        HeldIsAppendable(log, e);
        MergesWhenAppendable(log, rest);
      } else if Appendable(log, e) {
        AppendedIsIncreasing(log, e);
        AppendableAfter(log, e, rest);
        MergesWhenAppendable(log + [e], rest);
        NewsAfter(log, e, rest);
        assert log + [e] + News(log, rest) == log + ([e] + News(log, rest));
      }
    }
  }

  lemma NothingMerges(log: seq<Event>)
    ensures Merge(log, []) == Accepted(log) && AllAppendable(log, []) && log + News(log, []) == log
  {
  }

  lemma HeldIsAppendable(log: seq<Event>, e: Event)
    requires e in log
    ensures Appendable(log, e)
  {
  }

  lemma AppendedIsIncreasing(log: seq<Event>, e: Event)
    requires Increasing(log) && Appendable(log, e) && e !in log
    ensures Increasing(log + [e])
  {
  }

  lemma MergeStep(log: seq<Event>, batch: seq<Event>)
    requires Increasing(log) && batch != [] && 0 <= batch[0].sequence
    ensures if !Appendable(log, batch[0]) then !Merge(log, batch).Accepted?
            else if batch[0] in log then Merge(log, batch) == Merge(log, batch[1..])
            else Merge(log, batch) == Merge(log + [batch[0]], batch[1..])
  {
    StoredMeans(log, batch[0]);
    if batch[0] in log { IsStored(log, batch[0]); }
    hide Appendable, Stored, Increasing;
  }

  lemma IsStored(log: seq<Event>, e: Event)
    requires e in log
    ensures Stored(log, e.sequence)
  {
  }

  lemma RestFollows(batch: seq<Event>)
    requires Increasing(batch) && batch != []
    ensures Increasing(batch[1..]) && forall f <- batch[1..] :: batch[0].sequence < f.sequence && f in batch
  {
  }

  lemma AppendableAfter(log: seq<Event>, e: Event, rest: seq<Event>)
    requires forall f <- rest :: e.sequence < f.sequence
    ensures AllAppendable(log + [e], rest) <==> AllAppendable(log, rest)
  {
    forall f | f in rest ensures Appendable(log + [e], f) <==> Appendable(log, f) {}
    hide Appendable;
  }

  lemma {:induction false} NewsAfter(log: seq<Event>, e: Event, rest: seq<Event>)
    requires forall f <- rest :: e.sequence < f.sequence
    ensures News(log + [e], rest) == News(log, rest)
  {
    if rest != [] {
      assert rest[0] in rest;
      NewsAfter(log, e, rest[1..]);
    }
  }

  /** A batch is accepted exactly when it is well formed, each event is stored already or new at the end, and the log
      stays within its bytes; then exactly the new events are appended. */
  lemma AcceptedExactly(log: seq<Event>, batch: seq<Event>)
    requires Sound(log)
    ensures Append(log, batch).Accepted? <==>
      && WellFormed(batch) && AllAppendable(log, batch) && Size(log) + Size(News(log, batch)) <= MAX_LOG_BYTES
    ensures Append(log, batch).Accepted? ==> Append(log, batch).log == log + News(log, batch)
  {
    if WellFormed(batch) {
      MergesWhenAppendable(log, batch);
      SizeOfConcat(log, News(log, batch));
    }
    hide Text.Bytes, Merge, Size, News;
  }

  /** An accepted batch leaves a sound log that starts with the old one: nothing stored changes. */
  lemma AppendKeeps(log: seq<Event>, batch: seq<Event>)
    requires Sound(log) && Append(log, batch).Accepted?
    ensures var next := Append(log, batch).log;
      && Sound(next) && log <= next && (forall e <- batch :: e in next)
      && (forall e <- next :: e in log || e in batch)
  {
    MergeAdds(log, batch);
  }

  /** Resending an accepted batch, at once or after other batches, is accepted and changes nothing. */
  lemma ResendingChangesNothing(log: seq<Event>, batch: seq<Event>, later: seq<Event>)
    requires Sound(log) && Append(log, batch).Accepted? && Append(log, batch).log <= later && Sound(later)
    ensures Append(later, batch) == Accepted(later)
  {
    AppendKeeps(log, batch);
    MergeOfHeld(later, batch);
  }

  lemma {:induction false} SizeOfPrefix(log: seq<Event>, all: seq<Event>)
    requires log <= all
    ensures Size(log) <= Size(all)
    decreases |all|
  {
    if log != all {
      assert log <= all[..|all| - 1];
      SizeOfPrefix(log, all[..|all| - 1]);
    }
  }

  lemma PartsAreWellFormed(a: seq<Event>, b: seq<Event>)
    requires a != [] && b != [] && WellFormed(a + b)
    ensures WellFormed(a) && WellFormed(b)
  {
    assert forall i :: 0 <= i < |a| ==> (a + b)[i] == a[i];
    assert forall i :: 0 <= i < |b| ==> (a + b)[|a| + i] == b[i];
  }

  /** A batch that is accepted whole is accepted in any two parts, with the same log in the end. */
  lemma SplittingIsInvisible(log: seq<Event>, a: seq<Event>, b: seq<Event>)
    requires Sound(log) && a != [] && b != [] && Append(log, a + b).Accepted?
    ensures Append(log, a).Accepted? && Append(Append(log, a).log, b) == Append(log, a + b)
  {
    PartsAreWellFormed(a, b);
    hide WellFormed, Merge, Size;
    MergeSplits(log, a, b);
    MergeAdds(log, a);
    MergeAdds(Merge(log, a).log, b);
    SizeOfPrefix(Merge(log, a).log, Merge(log, a + b).log);
  }

  /** The log after a list of batches, refused ones left out. */
  function AppendAll(log: seq<Event>, batches: seq<seq<Event>>): seq<Event>
    decreases |batches|
  {
    if batches == [] then log
    else
      var o := Append(log, batches[0]);
      AppendAll(if o.Accepted? then o.log else log, batches[1..])
  }

  /** However batches are split, refused or resent, the log stays sound and only grows. */
  lemma {:induction false} LogOnlyGrows(log: seq<Event>, batches: seq<seq<Event>>)
    requires Sound(log)
    ensures Sound(AppendAll(log, batches)) && log <= AppendAll(log, batches)
    decreases |batches|
  {
    if batches != [] {
      var o := Append(log, batches[0]);
      if o.Accepted? { AppendKeeps(log, batches[0]); }
      LogOnlyGrows(if o.Accepted? then o.log else log, batches[1..]);
    }
  }

  /** A sequence number keeps its first content for good. */
  lemma FirstContentStays(log: seq<Event>, batches: seq<seq<Event>>, e: Event, f: Event)
    requires Sound(log) && e in log && f in AppendAll(log, batches) && e.sequence == f.sequence
    ensures e == f
  {
    LogOnlyGrows(log, batches);
    var all := AppendAll(log, batches);
    var i :| 0 <= i < |log| && log[i] == e;
    var j :| 0 <= j < |all| && all[j] == f;
    assert all[i] == e;
    assert i == j;
  }

  // ---------------------------------------------------------------- paging

  /** The events a page query with this cursor sees. */
  function After(log: seq<Event>, after: int): (rest: seq<Event>)
    ensures |rest| <= |log|
  {
    if log == [] then [] else if after < log[0].sequence then log else After(log[1..], after)
  }

  datatype Page = Page(events: seq<Event>, nextAfter: int, hasMore: bool)

  function PageOf(log: seq<Event>, after: int, limit: nat): Page
    requires 0 < limit
  {
    var rest := After(log, after);
    var events := if limit < |rest| then rest[..limit] else rest;
    Page(events, if events == [] then after else events[|events| - 1].sequence, limit < |rest|)
  }

  lemma {:induction false} AfterIsSuffix(log: seq<Event>, k: nat)
    requires Increasing(log) && 0 < k <= |log|
    ensures After(log, log[k - 1].sequence) == log[k..]
    decreases k
  {
    if k == 1 {
      if |log| > 1 { assert log[1..][0] == log[1]; }
    } else {
      AfterIsSuffix(log[1..], k - 1);
      assert log[1..][k - 1..] == log[k..];
    }
  }

  /** What a cursor leaves is the end of the log from some event on. */
  lemma {:induction false} AfterIsTail(log: seq<Event>, after: int) returns (k: nat)
    requires Increasing(log)
    ensures k <= |log| && After(log, after) == log[k..]
  {
    if log == [] || after < log[0].sequence {
      k := 0;
    } else {
      var n := AfterIsTail(log[1..], after);
      assert log[1..][n..] == log[n + 1..];
      k := n + 1;
    }
  }

  /** The cursor of a page leaves exactly what comes after the page. */
  lemma NextPageFollows(log: seq<Event>, after: int, limit: nat)
    requires Increasing(log) && 0 < limit
    ensures var page := PageOf(log, after, limit);
      && After(log, after) == page.events + After(log, page.nextAfter)
      && (page.hasMore ==> |page.events| == limit) && (!page.hasMore ==> After(log, page.nextAfter) == [])
  {
    var k := AfterIsTail(log, after);
    var page := PageOf(log, after, limit);
    var rest := After(log, after);
    hide After;
    if page.events != [] {
      var n := k + |page.events|;
      assert page.events[|page.events| - 1] == log[n - 1];
      AfterIsSuffix(log, n);
      assert rest == page.events + log[n..];
    }
  }

  /** What a reader collects by asking again with the cursor of the page before, until there is no more. */
  function Collect(log: seq<Event>, after: int, limit: nat): seq<Event>
    requires Increasing(log) && 0 < limit
    decreases |After(log, after)|
  {
    NextPageFollows(log, after, limit);
    var page := PageOf(log, after, limit);
    if page.hasMore then page.events + Collect(log, page.nextAfter, limit) else page.events
  }

  lemma {:induction false} CollectsTheRest(log: seq<Event>, after: int, limit: nat)
    requires Increasing(log) && 0 < limit
    ensures Collect(log, after, limit) == After(log, after)
    decreases |After(log, after)|
  {
    hide PageOf, Increasing, After;
    NextPageFollows(log, after, limit);
    if PageOf(log, after, limit).hasMore { CollectsTheRest(log, PageOf(log, after, limit).nextAfter, limit); }
  }

  /** From -1 the pages give every event once and in order, whatever the page size. */
  lemma PagesGiveTheLog(log: seq<Event>, limit: nat)
    requires Sound(log) && 0 < limit
    ensures Collect(log, -1, limit) == log
  {
    CollectsTheRest(log, -1, limit);
    hide Collect;
    if log != [] { assert log[0] in log; }
  }

  // ---------------------------------------------------------------- the table

  class AttemptEvents {
    var log: seq<Event>

    ghost predicate Valid()
      reads this
    {
      Sound(log)
    }

    constructor ()
      ensures Valid() && log == []
    {
      log := [];
    }

    /** AppendEvents: checks every event against the table, then inserts the new ones. */
    method AppendEvents(batch: seq<Event>) returns (refusal: Option<Refusal>)
      requires Valid()
      modifies this
      ensures Valid()
      ensures refusal == match Append(old(log), batch) case Accepted(_) => None case Refused(why) => Some(why)
      ensures log == match Append(old(log), batch) case Accepted(next) => next case Refused(_) => old(log)
    {
      if !WellFormed(batch) { return Some(Malformed); }
      var storedBytes := Size(log);
      var maxSequence := Last(log);
      var pending: seq<Event> := [];
      assert log + pending == log && batch[0..] == batch && Earlier(pending, batch, 0);
      assert Increasing(batch);
      hide WellFormed, Text.Bytes, Merge, Size, Stored, Last, Increasing, Earlier, Sound, Appendable, AllAppendable;
      for i := 0 to |batch|
        invariant log == old(log) && storedBytes == Size(log + pending) && maxSequence == Last(log + pending)
        invariant Merge(log, batch) == Merge(log + pending, batch[i..])
        invariant Earlier(pending, batch, i)
      {
        var event := batch[i];
        NextEvent(log, pending, batch, i);
        if Stored(log, event.sequence) {
          if event !in log { return Some(Conflict); }
        } else if event.sequence <= maxSequence {
          return Some(OutOfOrder);
        } else {
          OneMore(log, pending, batch, i);
          storedBytes := storedBytes + |event.payload|;
          pending := pending + [event];
          maxSequence := event.sequence;
        }
      }
      MergeOfNothing(log + pending);
      assert batch[|batch|..] == [];
      if MAX_LOG_BYTES < storedBytes { return Some(OverBudget); }
      AppendKeeps(log, batch);
      log := log + pending;
      return None;
    }

    /** Events: one row more than asked for tells whether there is another page. */
    method Events(after: int, limit: nat) returns (page: Page)
      requires Valid() && -1 <= after && 1 <= limit <= MAX_PAGE
      ensures page == PageOf(log, after, limit)
    {
      var rows := After(log, after);
      if limit + 1 < |rows| { rows := rows[..limit + 1]; }
      page := Page(rows, after, false);
      if limit < |rows| { page := Page(rows[..limit], after, true); }
      if page.events != [] { page := page.(nextAfter := page.events[|page.events| - 1].sequence); }
    }
  }

  /** What is pending comes before the event at this index. */
  predicate Earlier(pending: seq<Event>, batch: seq<Event>, i: nat)
    requires i <= |batch|
  {
    i < |batch| ==> forall e <- pending :: e.sequence < batch[i].sequence
  }

  lemma PendingIsEarlier(log: seq<Event>, pending: seq<Event>, event: Event)
    requires forall e <- pending :: e.sequence < event.sequence
    ensures Stored(log + pending, event.sequence) == Stored(log, event.sequence)
    ensures event in log + pending <==> event in log
  {
    if Stored(log, event.sequence) {
      var e :| e in log && e.sequence == event.sequence;
      assert e in log + pending;
    }
  }

  /** The loop's comparisons with the table alone decide what the next event does to the merge. */
  lemma NextEvent(log: seq<Event>, pending: seq<Event>, batch: seq<Event>, i: nat)
    requires i < |batch| && Increasing(batch) && Earlier(pending, batch, i)
    ensures Earlier(pending, batch, i + 1) && Earlier(pending + [batch[i]], batch, i + 1)
    ensures Merge(log + pending, batch[i..]) ==
      if Stored(log, batch[i].sequence) then if batch[i] in log then Merge(log + pending, batch[i + 1..]) else Refused(Conflict)
      else if batch[i].sequence <= Last(log + pending) then Refused(OutOfOrder)
      else Merge(log + pending + [batch[i]], batch[i + 1..])
  {
    assert batch[i..][0] == batch[i] && batch[i..][1..] == batch[i + 1..];
    MergeOfNext(log + pending, batch[i..]);
    PendingIsEarlier(log, pending, batch[i]);
    hide Merge, Last, Stored;
  }

  lemma OneMore(log: seq<Event>, pending: seq<Event>, batch: seq<Event>, i: nat)
    requires i < |batch|
    ensures log + (pending + [batch[i]]) == log + pending + [batch[i]]
    ensures Size(log + pending + [batch[i]]) == Size(log + pending) + |batch[i].payload|
    ensures Last(log + pending + [batch[i]]) == batch[i].sequence
  {
    SizeOfOneMore(log + pending, batch[i]);
  }
}
