/** assembleContinuationPrompt: fill the budget in priority order, shorten one record, correct the total. */
module Assembly {
  import opened Common
  import opened Text
  import opened Prompt
  import opened Continuation
  import opened Selection

  // ---------------------------------------------------------------- what is selected

  function Serialized(history: seq<Entry>): (serialized: seq<string>)
    ensures |serialized| == |history|
  {
    seq(|history|, i requires 0 <= i < |history| => Json(history[i], false))
  }

  predicate Indices(order: seq<nat>, n: nat) {
    && (forall i :: 0 <= i < |order| ==> order[i] < n)
    && (forall i, j :: 0 <= i < j < |order| ==> order[i] != order[j])
  }

  /** How far the order can be followed from `i` before a record no longer fits whole. */
  function Whole(serialized: seq<string>, order: seq<nat>, budget: int, i: nat): (c: nat)
    requires Indices(order, |serialized|) && i <= |order|
    ensures i <= c <= |order|
    decreases |order| - i
  {
    if i == |order| || Cost(serialized[order[i]]) > budget then i
    else Whole(serialized, order, budget - Cost(serialized[order[i]]), i + 1)
  }

  /** What the first `c` records of the order cost. */
  function Spent(serialized: seq<string>, order: seq<nat>, c: nat): nat
    requires Indices(order, |serialized|) && c <= |order|
  {
    if c == 0 then 0 else Spent(serialized, order, c - 1) + Cost(serialized[order[c - 1]])
  }

  /** The first `c` records of the order, whole. */
  function Full(serialized: seq<string>, order: seq<nat>, c: nat): map<nat, Line>
    requires Indices(order, |serialized|) && c <= |order|
  {
    if c == 0 then map[] else Full(serialized, order, c - 1)[order[c - 1] := Line(serialized[order[c - 1]], true)]
  }

  /** How many records of the order are kept, and the lines they get. */
  datatype Choice = Choice(count: nat, lines: map<nat, Line>)

  function Selected(history: seq<Entry>, serialized: seq<string>, order: seq<nat>, budget: int): (choice: Choice)
    requires |serialized| == |history| && Indices(order, |history|)
    ensures choice.count <= |order|
  {
    var c := Whole(serialized, order, budget, 0);
    if c == |order| then Choice(c, Full(serialized, order, c))
    else
      var line := Shorten(history[order[c]], budget - Spent(serialized, order, c));
      if line.None? then Choice(c, Full(serialized, order, c))
      else Choice(c + 1, Full(serialized, order, c)[order[c] := Line(line.value, false)])
  }

  lemma {:induction false} FullKeys(serialized: seq<string>, order: seq<nat>, c: nat)
    requires Indices(order, |serialized|) && c <= |order|
    ensures forall j :: j in Full(serialized, order, c) <==> j in order[..c]
    ensures forall j <- Full(serialized, order, c) :: j < |serialized| && Full(serialized, order, c)[j] == Line(serialized[j], true)
  {
    if c > 0 {
      FullKeys(serialized, order, c - 1);
      assert order[..c] == order[..c - 1] + [order[c - 1]];
    }
  }

  /** The records kept whole are the longest run of the order that the budget covers. */
  lemma {:induction false} WholeIsLongest(serialized: seq<string>, order: seq<nat>, budget: int, i: nat)
    requires Indices(order, |serialized|) && i <= |order| && Spent(serialized, order, i) <= budget
    ensures var c := Whole(serialized, order, budget - Spent(serialized, order, i), i);
      && Spent(serialized, order, c) <= budget
      && (c < |order| ==> budget < Spent(serialized, order, c + 1))
    decreases |order| - i
  {
    if i < |order| && Spent(serialized, order, i + 1) <= budget { WholeIsLongest(serialized, order, budget, i + 1); }
  }

  // ---------------------------------------------------------------- weighing a selection

  lemma {:induction false} SpendingMore(selected: map<nat, Line>, i: nat, line: Line, n: nat)
    requires i !in selected
    ensures Spending(selected[i := line], n) == Spending(selected, n) + if i < n then Cost(line.text) else 0
    ensures Inserted(selected[i := line], n) == Inserted(selected, n) + if i < n then 1 else 0
  {
    hide Cost;
    if n > 0 { SpendingMore(selected, i, line, n - 1); }
  }

  lemma {:induction false} SpendingNothing(n: nat)
    ensures Spending(map[], n) == 0 && Inserted(map[], n) == 0
  {
    if n > 0 { SpendingNothing(n - 1); }
  }

  lemma {:induction false} NothingOmitsAll(serialized: seq<string>, n: nat)
    requires n <= |serialized|
    ensures |Omitted(serialized, map[], n)| == n
  {
    if n > 0 { NothingOmitsAll(serialized, n - 1); }
  }

  lemma {:induction false} FullWeighs(serialized: seq<string>, order: seq<nat>, c: nat)
    requires Indices(order, |serialized|) && c <= |order|
    ensures Spending(Full(serialized, order, c), |serialized|) == Spent(serialized, order, c)
    ensures Inserted(Full(serialized, order, c), |serialized|) == c
  {
    if c == 0 {
      SpendingNothing(|serialized|);
    } else {
      FullWeighs(serialized, order, c - 1);
      FullKeys(serialized, order, c - 1);
      SpendingMore(Full(serialized, order, c - 1), order[c - 1], Line(serialized[order[c - 1]], true), |serialized|);
    }
  }

  /** Each record costs at least 77 bytes, so the selection's cost bounds its size. */
  lemma {:induction false} SpentIsMuch(serialized: seq<string>, order: seq<nat>, c: nat)
    requires Indices(order, |serialized|) && c <= |order|
    requires forall i :: 0 <= i < |serialized| ==> 77 <= Cost(serialized[i])
    ensures 77 * c <= Spent(serialized, order, c)
  {
    hide Cost;
    if c > 0 { SpentIsMuch(serialized, order, c - 1); }
  }

  lemma SerializedIsLong(history: seq<Entry>)
    ensures forall i :: 0 <= i < |history| ==> 77 <= Cost(Serialized(history)[i])
  {
    hide Json;
    forall i | 0 <= i < |history| ensures 77 <= Cost(Serialized(history)[i]) { RecordsAreLong(history[i], false); }
  }

  /** The selection covers its cost and holds one line per record. */
  lemma SelectedWeighs(history: seq<Entry>, order: seq<nat>, budget: int)
    requires Indices(order, |history|) && 0 <= budget
    ensures var kept := Selected(history, Serialized(history), order, budget);
      && Inserted(kept.lines, |history|) == kept.count && 77 * kept.count <= Spending(kept.lines, |history|) <= budget
  {
    hide Json, Cost, Spending, Inserted, Full, Whole, Shorten, Spent, Serialized;
    var serialized := Serialized(history);
    SpentOfNone(serialized, order);
    WholeIsLongest(serialized, order, budget, 0);
    var c := Whole(serialized, order, budget, 0);
    FullWeighs(serialized, order, c);
    FullKeys(serialized, order, c);
    SerializedIsLong(history);
    SpentIsMuch(serialized, order, c);
    if c < |order| {
      var rest := budget - Spent(serialized, order, c);
      NextDoesNotFit(history, order, budget, c);
      var line := Shorten(history[order[c]], rest);
      if line.Some? {
        ShorteningLeavesLittle(history[order[c]], rest);
        SpendingMore(Full(serialized, order, c), order[c], Line(line.value, false), |serialized|);
      }
    }
  }

  lemma NextDoesNotFit(history: seq<Entry>, order: seq<nat>, budget: int, c: nat)
    requires Indices(order, |history|) && c < |order| && budget < Spent(Serialized(history), order, c + 1)
    ensures Cost(Json(history[order[c]], false)) > budget - Spent(Serialized(history), order, c)
  {
    hide Json;
  }

  lemma SpentOfNone(serialized: seq<string>, order: seq<nat>)
    requires Indices(order, |serialized|)
    ensures Spent(serialized, order, 0) == 0
  {
  }

  // ---------------------------------------------------------------- the assembled prompt

  function Base(w: Wording, digest: string -> string, s: State, history: seq<Entry>): string
    requires w.Valid()
  {
    Render(w, digest, Mandatory(w, s), Serialized(history), map[])
  }

  /** The budget that the prompt without history leaves. */
  function Budget(w: Wording, digest: string -> string, s: State, history: seq<Entry>): int
    requires w.Valid()
  {
    MAX_PROMPT - Bytes(Framed(w, s, Base(w, digest, s, history)))
  }

  function Choose(w: Wording, digest: string -> string, s: State, history: seq<Entry>): (choice: Choice)
    requires w.Valid()
    ensures choice.count <= |Priority(history)|
  {
    PriorityOrders(history);
    Selected(history, Serialized(history), Priority(history), Budget(w, digest, s, history))
  }

  function Drop(choice: Choice, order: seq<nat>): Choice
    requires 0 < choice.count <= |order|
  {
    Choice(choice.count - 1, choice.lines - {order[choice.count - 1]})
  }

  function Written(w: Wording, digest: string -> string, s: State, history: seq<Entry>, choice: Choice): string
    requires w.Valid()
  {
    Render(w, digest, Mandatory(w, s), Serialized(history), choice.lines)
  }

  /** What the prompt ends up keeping: the choice, or the choice without its last record. */
  function Kept(w: Wording, digest: string -> string, s: State, history: seq<Entry>): Choice
    requires w.Valid()
  {
    var choice := Choose(w, digest, s, history);
    if PromptFits(w, s, Written(w, digest, s, history, choice)) || choice.count == 0 then choice
    else Drop(choice, Priority(history))
  }

  function Assembled(w: Wording, digest: string -> string, s: State, history: seq<Entry>): Option<string>
    requires w.Valid()
  {
    if Budget(w, digest, s, history) < 0 then None
    else Some(Written(w, digest, s, history, Kept(w, digest, s, history)))
  }

  // ---------------------------------------------------------------- one correction is enough

  /** What a choice made within a budget holds. */
  ghost predicate ChoiceOk(history: seq<Entry>, order: seq<nat>, budget: int, choice: Choice) {
    && choice.count <= |order|
    && (forall j :: j in choice.lines <==> j in order[..choice.count])
    && Inserted(choice.lines, |history|) == choice.count
    && 77 * choice.count <= Spending(choice.lines, |history|) <= budget
    && (forall j <- choice.lines :: 77 <= Cost(choice.lines[j].text))
  }

  lemma SelectedIsOk(history: seq<Entry>, order: seq<nat>, budget: int)
    requires Indices(order, |history|) && 0 <= budget
    ensures ChoiceOk(history, order, budget, Selected(history, Serialized(history), order, budget))
  {
    hide Json, Cost, Spending, Inserted, Full, Whole, Shorten, Spent, Serialized;
    SelectedWeighs(history, order, budget);
    var serialized := Serialized(history);
    var c := Whole(serialized, order, budget, 0);
    FullKeys(serialized, order, c);
    SerializedIsLong(history);
    SpentOfNone(serialized, order);
    WholeIsLongest(serialized, order, budget, 0);
    if c < |order| {
      NextDoesNotFit(history, order, budget, c);
      var rest := budget - Spent(serialized, order, c);
      if Shorten(history[order[c]], rest).Some? {
        ShorteningLeavesLittle(history[order[c]], rest);
        assert order[..c + 1] == order[..c] + [order[c]];
      }
    }
  }

  lemma DropWeighs(history: seq<Entry>, order: seq<nat>, budget: int, choice: Choice)
    requires Indices(order, |history|) && ChoiceOk(history, order, budget, choice) && 0 < choice.count
    ensures var dropped := Drop(choice, order);
      && Inserted(dropped.lines, |history|) == choice.count - 1
      && Spending(dropped.lines, |history|) + 77 <= Spending(choice.lines, |history|)
  {
    hide Cost, Spending, Inserted;
    var last := order[choice.count - 1];
    assert order[..choice.count][choice.count - 1] == last;
    var rest := choice.lines - {last};
    assert rest[last := choice.lines[last]] == choice.lines;
    SpendingMore(rest, last, choice.lines[last], |history|);
  }

  lemma SmallDecimals(k: nat)
    requires k < 1000
    ensures |Decimal(k)| <= 3 && |Decimal(0)| == 1
  {
    assert Power10(3) == 1000;
    DecimalFits(k, 3);
  }

  /** The counts in front of a choice are at most two bytes longer than in front of no history. */
  lemma CountsGrowLittle(n: nat, k: nat, omitted: nat)
    requires k < 1000 && omitted <= n
    ensures Counts(n, k, omitted) <= Counts(n, 0, n) + 2
  {
    SmallDecimals(k);
    DecimalGrows(omitted, n);
    hide Decimal;
  }

  lemma WeightOf(w: Wording, digest: string -> string, s: State, history: seq<Entry>, choice: Choice)
    requires w.Valid() && IsDigest(digest)
    ensures var n := |history|;
      Bytes(Framed(w, s, Written(w, digest, s, history, choice))) == Fixed(w, s)
        + Counts(n, Inserted(choice.lines, n), |Omitted(Serialized(history), choice.lines, n)|) + Spending(choice.lines, n)
  {
    hide Bytes, Framed, Mandatory, Serialized, Render, Counts, Fixed, Spending, Inserted, Omitted, IsDigest;
    RenderedSize(w, digest, s, Serialized(history), choice.lines);
    WrittenIs(w, digest, s, history, choice);
  }

  lemma WrittenIs(w: Wording, digest: string -> string, s: State, history: seq<Entry>, choice: Choice)
    requires w.Valid()
    ensures Written(w, digest, s, history, choice) == Render(w, digest, Mandatory(w, s), Serialized(history), choice.lines)
  {
    hide Render, Mandatory, Serialized;
  }

  lemma WeightOfBase(w: Wording, digest: string -> string, s: State, history: seq<Entry>)
    requires w.Valid() && IsDigest(digest)
    ensures Bytes(Framed(w, s, Base(w, digest, s, history))) == Fixed(w, s) + Counts(|history|, 0, |history|)
  {
    hide Bytes, Framed, Mandatory, Serialized, Render, Counts, Fixed, IsDigest;
    RenderedSize(w, digest, s, Serialized(history), map[]);
    SpendingNothing(|history|);
    NothingOmitsAll(Serialized(history), |history|);
  }

  /** A choice that stays `slack` under the budget fits, if the slack covers the longer counts. */
  lemma ChoiceFits(w: Wording, digest: string -> string, s: State, history: seq<Entry>, choice: Choice, budget: int, slack: nat)
    requires w.Valid() && IsDigest(digest) && budget == Budget(w, digest, s, history)
    requires 77 * choice.count <= budget && Inserted(choice.lines, |history|) <= choice.count
    requires Spending(choice.lines, |history|) + slack <= budget
    ensures Bytes(Framed(w, s, Written(w, digest, s, history, choice))) + slack <= MAX_PROMPT + 2
  {
    hide Bytes, Framed, Serialized, Counts, Fixed, Spending, Inserted, Omitted, IsDigest, Written, Base;
    WeightOf(w, digest, s, history, choice);
    WeightOfBase(w, digest, s, history);
    CountsGrowLittle(|history|, Inserted(choice.lines, |history|), |Omitted(Serialized(history), choice.lines, |history|)|);
  }

  /** Whenever the prompt without history fits, the prompt kept fits: the correction is needed at most once. */
  lemma AssembledFits(w: Wording, digest: string -> string, s: State, history: seq<Entry>)
    requires w.Valid() && IsDigest(digest)
    ensures Assembled(w, digest, s, history).Some? <==> PromptFits(w, s, Base(w, digest, s, history))
    ensures Assembled(w, digest, s, history).Some? ==> PromptFits(w, s, Assembled(w, digest, s, history).value)
  {
    hide Bytes, Framed, Spending, Inserted, IsDigest, Written, Base, Selected, Indices, Cost;
    var budget := Budget(w, digest, s, history);
    if 0 <= budget {
      PriorityOrders(history);
      IndicesOfPriority(history);
      var order := Priority(history);
      var choice := Choose(w, digest, s, history);
      SelectedIsOk(history, order, budget);
      if choice.count == 0 {
        NothingChosen(w, digest, s, history, order, budget, choice);
      } else {
        DropWeighs(history, order, budget, choice);
        ChoiceFits(w, digest, s, history, Drop(choice, order), budget, 77);
      }
    }
  }

  lemma IndicesOfPriority(history: seq<Entry>)
    ensures Indices(Priority(history), |history|)
  {
    PriorityOrders(history);
  }

  lemma NothingChosen(w: Wording, digest: string -> string, s: State, history: seq<Entry>, order: seq<nat>, budget: int, choice: Choice)
    requires w.Valid() && ChoiceOk(history, order, budget, choice) && choice.count == 0
    ensures Written(w, digest, s, history, choice) == Base(w, digest, s, history)
  {
    hide Render, Serialized, Mandatory;
    assert choice.lines == map[];
  }

  // ---------------------------------------------------------------- what is kept

  /** A record is kept whole, or, if it is the last one kept, with the longest prefix of its message that fits. */
  ghost predicate KeptAs(history: seq<Entry>, order: seq<nat>, budget: int, choice: Choice, i: nat)
    requires Indices(order, |history|) && i < choice.count <= |order| && order[i] in choice.lines
  {
    var line := choice.lines[order[i]];
    if line.complete then line.text == Json(history[order[i]], false)
    else
      var rest := budget - Spent(Serialized(history), order, i);
      && i == choice.count - 1
      && Cost(Json(history[order[i]], false)) > rest
      && LongestPrefix(history[order[i]], rest, |history[order[i]].message|).Some?
      && line.text == ShortenedLine(history[order[i]], LongestPrefix(history[order[i]], rest, |history[order[i]].message|).value)
  }

  lemma FullShape(history: seq<Entry>, order: seq<nat>, c: nat, i: nat)
    requires Indices(order, |history|) && i < c <= |order|
    ensures order[i] in Full(Serialized(history), order, c)
    ensures Full(Serialized(history), order, c)[order[i]] == Line(Json(history[order[i]], false), true)
  {
    hide Json, Full;
    FullKeys(Serialized(history), order, c);
    assert order[..c][i] == order[i];
  }

  lemma SelectedShape(history: seq<Entry>, order: seq<nat>, budget: int, i: nat)
    requires Indices(order, |history|) && 0 <= budget
    requires i < Selected(history, Serialized(history), order, budget).count
    ensures order[i] in Selected(history, Serialized(history), order, budget).lines
    ensures KeptAs(history, order, budget, Selected(history, Serialized(history), order, budget), i)
  {
    hide Json, Cost, ShortenedLine, Full, Whole, Spent, Serialized, LongestPrefix;
    var serialized := Serialized(history);
    var c := Whole(serialized, order, budget, 0);
    SpentOfNone(serialized, order);
    WholeIsLongest(serialized, order, budget, 0);
    if i < c { FullShape(history, order, c, i); } else { NextDoesNotFit(history, order, budget, c); }
  }

  /** The records kept are a prefix of the priority order; all are whole but perhaps the last, which is then as long
      as fits; and at most one record fewer is kept than the longest run that the budget covers whole. */
  lemma KeepsPriorityPrefix(w: Wording, digest: string -> string, s: State, history: seq<Entry>)
    requires w.Valid() && 0 <= Budget(w, digest, s, history)
    ensures Indices(Priority(history), |history|)
    ensures var kept, order, budget := Kept(w, digest, s, history), Priority(history), Budget(w, digest, s, history);
      && kept.count <= |order| && (forall j :: j in kept.lines <==> j in order[..kept.count])
      && (forall i :: 0 <= i < kept.count ==>
            order[i] in kept.lines && KeptAs(history, order, budget, kept, i))
      && Whole(Serialized(history), order, budget, 0) <= kept.count + 1
  {
    hide Json, Bytes, Framed, Base, Written, Cost, ShortenedLine, Spent, Serialized, LongestPrefix, KeptAs, Indices, Selected, Whole;
    IndicesOfPriority(history);
    var order, budget := Priority(history), Budget(w, digest, s, history);
    var choice := Choose(w, digest, s, history);
    SelectedIsOk(history, order, budget);
    KeepsTheRun(history, order, budget);
    var kept := Kept(w, digest, s, history);
    forall i | 0 <= i < kept.count
      ensures order[i] in kept.lines && KeptAs(history, order, budget, kept, i)
    {
      SelectedShape(history, order, budget, i);
      if kept != choice { DropShape(history, order, budget, choice, i); }
    }
    if kept != choice { DropPrefix(history, order, budget, choice); }
  }

  lemma KeepsTheRun(history: seq<Entry>, order: seq<nat>, budget: int)
    requires Indices(order, |history|)
    ensures Whole(Serialized(history), order, budget, 0) <= Selected(history, Serialized(history), order, budget).count
  {
    hide Json, Whole, Full, Shorten, Serialized, Spent;
  }

  lemma DropPrefix(history: seq<Entry>, order: seq<nat>, budget: int, choice: Choice)
    requires Indices(order, |history|) && ChoiceOk(history, order, budget, choice) && 0 < choice.count
    ensures forall j :: j in Drop(choice, order).lines <==> j in order[..choice.count - 1]
  {
    var k := choice.count - 1;
    assert order[..choice.count] == order[..k] + [order[k]];
    assert forall j <- order[..k] :: j != order[k];
    hide Spending, Inserted, Cost;
  }

  lemma DropShape(history: seq<Entry>, order: seq<nat>, budget: int, choice: Choice, i: nat)
    requires Indices(order, |history|) && 0 < choice.count <= |order| && i < choice.count - 1
    requires order[i] in choice.lines && KeptAs(history, order, budget, choice, i)
    ensures order[i] in Drop(choice, order).lines && KeptAs(history, order, budget, Drop(choice, order), i)
  {
    hide Json, Cost, ShortenedLine, Spent, Serialized, LongestPrefix;
  }

  /** A history line that holds its record whole. */
  predicate KeptWhole(history: seq<Entry>, lines: map<nat, Line>, i: nat) {
    i < |history| && i in lines && lines[i] == Line(Json(history[i], false), true)
  }

  /** Nothing is kept before what matters more: with a progress update, every answer and every other update is kept
      whole, and with any update every answer is. */
  predicate KeepsWhatMatters(history: seq<Entry>, lines: map<nat, Line>) {
    forall p, q :: 0 <= p < |history| && 0 <= q < |history| && p in lines ==>
      && (Progress(history[p]) && !Progress(history[q]) ==> KeptWhole(history, lines, q))
      && (!history[p].answer && history[q].answer ==> KeptWhole(history, lines, q))
  }

  lemma KeepsKinds(w: Wording, digest: string -> string, s: State, history: seq<Entry>)
    requires w.Valid() && 0 <= Budget(w, digest, s, history)
    ensures KeepsWhatMatters(history, Kept(w, digest, s, history).lines)
  {
    hide Json, Budget, Kept, KindsInOrder, Priority, Progress;
    KeepsPriorityPrefix(w, digest, s, history);
    PriorityOrders(history);
    var kept, order := Kept(w, digest, s, history), Priority(history);
    forall p, q | 0 <= p < |history| && 0 <= q < |history| && p in kept.lines
      ensures Progress(history[p]) && !Progress(history[q]) ==> KeptWhole(history, kept.lines, q)
      ensures !history[p].answer && history[q].answer ==> KeptWhole(history, kept.lines, q)
    {
      var i :| 0 <= i < kept.count && order[i] == p;
      assert q as nat in order;
      var j :| 0 <= j < |order| && order[j] == q;
      if i != j { ByKind(history, order, i, j); }
      if j < i { EarlierIsWhole(history, order, Budget(w, digest, s, history), kept, j); }
    }
  }

  lemma ByKind(history: seq<Entry>, order: seq<nat>, i: nat, j: nat)
    requires forall i :: 0 <= i < |order| ==> order[i] < |history|
    requires KindsInOrder(history, order) && i < |order| && j < |order| && i != j
    ensures i < j ==> (history[order[j]].answer ==> history[order[i]].answer) && (Progress(history[order[i]]) ==> Progress(history[order[j]]))
    ensures j < i ==> (history[order[i]].answer ==> history[order[j]].answer) && (Progress(history[order[j]]) ==> Progress(history[order[i]]))
  {
  }

  lemma EarlierIsWhole(history: seq<Entry>, order: seq<nat>, budget: int, kept: Choice, j: nat)
    requires Indices(order, |history|) && j + 1 < kept.count <= |order| && order[j] in kept.lines && KeptAs(history, order, budget, kept, j)
    ensures KeptWhole(history, kept.lines, order[j])
  {
    hide Json, Cost, LongestPrefix, ShortenedLine, Spent;
  }

  lemma {:induction false} SpentGrows(serialized: seq<string>, order: seq<nat>, a: nat, b: nat)
    requires Indices(order, |serialized|) && a <= b <= |order|
    ensures Spent(serialized, order, a) <= Spent(serialized, order, b)
    decreases b
  {
    if a < b { SpentGrows(serialized, order, a, b - 1); }
  }

  /** A record is left out or shortened only where the prompt without history and the records up to it in the order
      come to more than the limit allows, two bytes for longer counts aside. */
  ghost predicate LeavesOutForRoom(w: Wording, digest: string -> string, s: State, history: seq<Entry>, lines: map<nat, Line>)
    requires w.Valid() && Indices(Priority(history), |history|)
  {
    forall i: nat | i < |Priority(history)| :: !KeptWhole(history, lines, Priority(history)[i]) ==>
      73_726 < Bytes(Framed(w, s, Base(w, digest, s, history))) + Spent(Serialized(history), Priority(history), i + 1)
  }

  lemma LeavesOutLittle(w: Wording, digest: string -> string, s: State, history: seq<Entry>)
    requires w.Valid() && IsDigest(digest) && 0 <= Budget(w, digest, s, history)
    ensures Indices(Priority(history), |history|) && LeavesOutForRoom(w, digest, s, history, Kept(w, digest, s, history).lines)
  {
    hide Json, Bytes, Framed, Base, Written, Cost, Spent, Serialized, Priority, Indices, Selected, Whole, KeptWhole, IsDigest;
    IndicesOfPriority(history);
    var order, budget := Priority(history), Budget(w, digest, s, history);
    var c := Whole(Serialized(history), order, budget, 0);
    SpentOfNone(Serialized(history), order);
    WholeIsLongest(Serialized(history), order, budget, 0);
    var kept := Kept(w, digest, s, history);
    forall i: nat | i < |order| && !KeptWhole(history, kept.lines, order[i])
      ensures budget - 2 < Spent(Serialized(history), order, i + 1)
    {
      if i < c { WholeUnlessDropped(w, digest, s, history, i); } else { SpentGrows(Serialized(history), order, c + 1, i + 1); }
    }
  }

  /** One of the records that the budget covers is missing only if the correction took it back, and then all that was
      chosen came to more than the limit. */
  lemma WholeUnlessDropped(w: Wording, digest: string -> string, s: State, history: seq<Entry>, i: nat)
    requires w.Valid() && IsDigest(digest) && 0 <= Budget(w, digest, s, history) && Indices(Priority(history), |history|)
    requires i < Whole(Serialized(history), Priority(history), Budget(w, digest, s, history), 0)
    requires !KeptWhole(history, Kept(w, digest, s, history).lines, Priority(history)[i])
    ensures Budget(w, digest, s, history) - 2 < Spent(Serialized(history), Priority(history), i + 1)
  {
    hide Json, Bytes, Framed, Base, Written, Cost, Spent, Serialized, Priority, Indices, Whole, IsDigest, Spending, Inserted, Full, Shorten;
    var order, budget, serialized := Priority(history), Budget(w, digest, s, history), Serialized(history);
    var choice, c := Choose(w, digest, s, history), Whole(serialized, order, budget, 0);
    SelectedIsOk(history, order, budget);
    FullShape(history, order, c, i);
    LinesOfChoice(history, order, budget, i);
    DistinctOrder(order, |history|);
    assert i + 1 == c == choice.count;
    FullWeighs(serialized, order, c);
    if Spending(choice.lines, |history|) + 2 <= budget {
      ChoiceFits(w, digest, s, history, choice, budget, 2);
    }
  }

  lemma LinesOfChoice(history: seq<Entry>, order: seq<nat>, budget: int, i: nat)
    requires Indices(order, |history|) && i < Whole(Serialized(history), order, budget, 0)
    ensures KeptWhole(history, Selected(history, Serialized(history), order, budget).lines, order[i])
  {
    hide Json, Spent, Whole, Serialized, Shorten, Full;
    FullShape(history, order, Whole(Serialized(history), order, budget, 0), i);
    DistinctOrder(order, |history|);
  }

  lemma DistinctOrder(order: seq<nat>, n: nat)
    requires Indices(order, n)
    ensures forall i, j :: 0 <= i < j < |order| ==> order[i] != order[j]
    ensures forall i :: 0 <= i < |order| ==> order[i] < n
  {
  }

  /** A history that fits is kept, every record of it whole. */
  lemma KeepsAllThatFits(w: Wording, digest: string -> string, s: State, history: seq<Entry>)
    requires w.Valid() && IsDigest(digest) && Indices(Priority(history), |history|)
    requires Bytes(Framed(w, s, Base(w, digest, s, history))) + Spent(Serialized(history), Priority(history), |Priority(history)|) <= 73_726
    ensures 0 <= Budget(w, digest, s, history)
    ensures forall q: nat | q < |history| :: KeptWhole(history, Kept(w, digest, s, history).lines, q)
  {
    hide Bytes, Framed, Base, Spent, Serialized, Kept, KeptWhole, Indices, Priority, IsDigest;
    LeavesOutLittle(w, digest, s, history);
    PriorityOrders(history);
    var order := Priority(history);
    forall q: nat | q < |history| ensures KeptWhole(history, Kept(w, digest, s, history).lines, q) {
      assert q in order;
      var i :| 0 <= i < |order| && order[i] == q;
      SpentGrows(Serialized(history), order, i + 1, |order|);
    }
  }
}
