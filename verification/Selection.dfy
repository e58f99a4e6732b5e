/** Which history records a recovery prompt keeps, and when it can be assembled at all. */
module Selection {
  import opened Common
  import opened Text
  import opened Prompt
  import opened Continuation

  // ---------------------------------------------------------------- priority

  /** Answers come first, then outcomes and other updates, then progress. */
  function Rank(e: Entry): (rank: nat)
    ensures rank < 3
  {
    if e.answer then 0 else if e.status != "running" then 1 else 2
  }

  /** `i` is kept before `j`: a better rank, or the same rank and newer. */
  predicate Ahead(history: seq<Entry>, i: nat, j: nat) {
    && i < |history| && j < |history|
    && (Rank(history[i]) < Rank(history[j]) || (Rank(history[i]) == Rank(history[j]) && j < i))
  }

  predicate InOrder(history: seq<Entry>, order: seq<nat>) {
    forall i, j :: 0 <= i < j < |order| ==> Ahead(history, order[i], order[j])
  }

  /** The records of one rank among the first `n`, newest first. */
  function NewestFirst(history: seq<Entry>, rank: nat, n: nat): (order: seq<nat>)
    requires n <= |history|
    ensures forall i :: 0 <= i < |order| ==> order[i] < n && Rank(history[order[i]]) == rank
    ensures InOrder(history, order)
    ensures forall i :: 0 <= i < n && Rank(history[i]) == rank ==> i in order
  {
    if n == 0 then []
    else
      var rest := NewestFirst(history, rank, n - 1);
      if Rank(history[n - 1]) == rank then [n - 1] + rest else rest
  }

  function Priority(history: seq<Entry>): seq<nat> {
    NewestFirst(history, 0, |history|) + NewestFirst(history, 1, |history|) + NewestFirst(history, 2, |history|)
  }

  /** A record of progress, which neither ends an Attempt nor answers anything. */
  predicate Progress(e: Entry) { !e.answer && e.status == "running" }

  /** The order by kind and age: answers first, progress last, and of one kind the newest first. */
  predicate KindsInOrder(history: seq<Entry>, order: seq<nat>)
    requires forall i :: 0 <= i < |order| ==> order[i] < |history|
  {
    forall i, j :: 0 <= i < j < |order| ==>
      var a, b := history[order[i]], history[order[j]];
      && (b.answer ==> a.answer) && (Progress(a) ==> Progress(b))
      && (a.answer == b.answer && Progress(a) == Progress(b) ==> order[j] < order[i])
  }

  lemma AheadByKind(history: seq<Entry>, i: nat, j: nat)
    requires Ahead(history, i, j)
    ensures var a, b := history[i], history[j];
      && (b.answer ==> a.answer) && (Progress(a) ==> Progress(b)) && (a.answer == b.answer && Progress(a) == Progress(b) ==> j < i)
  {
  }

  lemma OrderJoins(history: seq<Entry>, a: seq<nat>, b: seq<nat>)
    requires InOrder(history, a) && InOrder(history, b)
    requires forall i, j :: 0 <= i < |a| && 0 <= j < |b| ==> Ahead(history, a[i], b[j])
    ensures InOrder(history, a + b)
  {
  }

  /** The order lists every record once: answers, then other updates, then progress, newest first. */
  lemma PriorityOrders(history: seq<Entry>)
    ensures InOrder(history, Priority(history))
    ensures forall i :: 0 <= i < |history| ==> i in Priority(history)
    ensures forall i :: 0 <= i < |Priority(history)| ==> Priority(history)[i] < |history|
    ensures forall i, j :: 0 <= i < j < |Priority(history)| ==> Priority(history)[i] != Priority(history)[j]
    ensures KindsInOrder(history, Priority(history))
  {
    var a, b, c := NewestFirst(history, 0, |history|), NewestFirst(history, 1, |history|), NewestFirst(history, 2, |history|);
    OrderJoins(history, a, b);
    OrderJoins(history, a + b, c);
    forall i | 0 <= i < |history| ensures i in a + b + c {
      assert i in if Rank(history[i]) == 0 then a else if Rank(history[i]) == 1 then b else c;
    }
    var order := a + b + c;
    forall i, j | 0 <= i < j < |order| ensures order[i] != order[j] { assert Ahead(history, order[i], order[j]); }
    OrderIsByKind(history, order);
  }

  lemma OrderIsByKind(history: seq<Entry>, order: seq<nat>)
    requires InOrder(history, order) && forall i :: 0 <= i < |order| ==> order[i] < |history|
    ensures KindsInOrder(history, order)
  {
    hide Rank, Progress;
    forall i, j | 0 <= i < j < |order| ensures Ahead(history, order[i], order[j]) { }
    hide Ahead;
    forall i, j | 0 <= i < j < |order|
      ensures var a, b := history[order[i]], history[order[j]];
        && (b.answer ==> a.answer) && (Progress(a) ==> Progress(b))
        && (a.answer == b.answer && Progress(a) == Progress(b) ==> order[j] < order[i])
    {
      AheadByKind(history, order[i], order[j]);
    }
  }

  // ---------------------------------------------------------------- shortening one record

  function ShortenedLine(e: Entry, k: nat): string
    requires k <= |e.message|
  {
    Json(e.(message := e.message[..k]), true)
  }

  /** The longest prefix of the message, up to `k` characters, whose record fits. */
  function LongestPrefix(e: Entry, budget: int, k: nat): (longest: Option<nat>)
    requires k <= |e.message|
    ensures longest.Some? ==> longest.value <= k && Cost(ShortenedLine(e, longest.value)) <= budget
  {
    if Cost(ShortenedLine(e, k)) <= budget then Some(k) else if k == 0 then None else LongestPrefix(e, budget, k - 1)
  }

  lemma {:induction false} LongestPrefixIsLongest(e: Entry, budget: int, k: nat, j: nat)
    requires j <= k <= |e.message| && Cost(ShortenedLine(e, j)) <= budget
    ensures LongestPrefix(e, budget, k).Some? && j <= LongestPrefix(e, budget, k).value
  {
    hide ShortenedLine;
    if Cost(ShortenedLine(e, k)) > budget { LongestPrefixIsLongest(e, budget, k - 1, j); }
  }

  /** truncateContinuationHistory: the record with the longest prefix of its message that fits the budget. */
  function Shorten(e: Entry, budget: int): Option<string> {
    var k := LongestPrefix(e, budget, |e.message|);
    if k.Some? then Some(ShortenedLine(e, k.value)) else None
  }

  lemma CostsGrow(e: Entry, j: nat, k: nat)
    requires j <= k <= |e.message|
    ensures Cost(ShortenedLine(e, j)) <= Cost(ShortenedLine(e, k))
  {
    LongerMessage(e, j, k);
  }

  /** Binary search over the character boundaries finds what trying every boundary finds. */
  method TruncateContinuationHistory(e: Entry, budget: int) returns (line: Option<string>)
    ensures line == Shorten(e, budget)
  {
    hide ShortenedLine, Shorten, Cost;
    line := None;
    ghost var best := -1;
    var low, high := 0, |e.message|;
    while low <= high
      invariant 0 <= low <= |e.message| + 1 && -1 <= high <= |e.message| && best == low - 1 <= high
      invariant if best < 0 then line.None?
                else line == Some(ShortenedLine(e, best)) && Cost(ShortenedLine(e, best)) <= budget
      invariant high < |e.message| ==> Cost(ShortenedLine(e, high + 1)) > budget
    {
      var middle := low + (high - low) / 2;
      var body := ShortenedLine(e, middle);
      if Cost(body) <= budget {
        line, best := Some(body), middle;
        low := middle + 1;
      } else {
        high := middle - 1;
      }
    }
    BoundaryIsLongest(e, budget, best);
  }

  /** A boundary that fits while the next one does not is the longest. */
  lemma BoundaryIsLongest(e: Entry, budget: int, best: int)
    requires -1 <= best <= |e.message|
    requires 0 <= best ==> Cost(ShortenedLine(e, best)) <= budget
    requires best < |e.message| ==> Cost(ShortenedLine(e, best + 1)) > budget
    ensures Shorten(e, budget) == if best < 0 then None else Some(ShortenedLine(e, best))
  {
    hide ShortenedLine;
    var longest := LongestPrefix(e, budget, |e.message|);
    if longest.Some? && best < longest.value { CostsGrow(e, best + 1, longest.value); }
    if 0 <= best { LongestPrefixIsLongest(e, budget, |e.message|, best); }
  }

  /** After shortening a record that does not fit whole, less than any other record needs is left. */
  lemma ShorteningLeavesLittle(e: Entry, budget: int)
    requires Cost(Json(e, false)) > budget && Shorten(e, budget).Some?
    ensures 77 <= Cost(Shorten(e, budget).value) <= budget < Cost(Shorten(e, budget).value) + 6
  {
    var k := LongestPrefix(e, budget, |e.message|).value;
    ShortenedIsLong(e, k);
    WholeIsLonger(e);
    hide ShortenedLine, Json;
    if k < |e.message| {
      OneMoreIsLittle(e, k);
      if Cost(ShortenedLine(e, k + 1)) <= budget { LongestPrefixIsLongest(e, budget, |e.message|, k + 1); }
    }
  }

  lemma ShortenedIsLong(e: Entry, k: nat)
    requires k <= |e.message|
    ensures 77 <= Cost(ShortenedLine(e, k))
  {
    RecordsAreLong(e.(message := e.message[..k]), true);
  }

  lemma WholeIsLonger(e: Entry)
    ensures Cost(Json(e, false)) < Cost(ShortenedLine(e, |e.message|))
  {
    MarkIsLonger(e);
    assert e.message[..|e.message|] == e.message;
  }

  lemma OneMoreIsLittle(e: Entry, k: nat)
    requires k < |e.message|
    ensures Cost(ShortenedLine(e, k + 1)) <= Cost(ShortenedLine(e, k)) + 6
  {
    OneMoreCharacter(e, k);
  }
}
