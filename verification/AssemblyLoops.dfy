/** The loops of assembleContinuationPrompt, proved against what the prompt should hold. */
module AssemblyLoops {
  import opened Common
  import opened Text
  import opened Prompt
  import opened Continuation
  import opened Selection
  import opened Assembly

  method Serialize(history: seq<Entry>) returns (serialized: seq<string>)
    ensures serialized == Serialized(history)
  {
    hide Json;
    serialized := [];
    for i := 0 to |history|
      invariant |serialized| == i
      invariant forall j :: 0 <= j < i ==> serialized[j] == Json(history[j], false)
    {
      serialized := serialized + [Json(history[i], false)];
    }
  }

  /** One pass from the newest record to the oldest. */
  method AppendRank(history: seq<Entry>, rank: nat, before: seq<nat>) returns (order: seq<nat>)
    ensures order == before + NewestFirst(history, rank, |history|)
  {
    hide NewestFirst, Rank;
    order := before;
    for i := |history| downto 0
      invariant order + NewestFirst(history, rank, i) == before + NewestFirst(history, rank, |history|)
    {
      ghost var earlier := order;
      NextOfRank(history, rank, i);
      if Rank(history[i]) == rank {
        order := order + [i];
        assert order + NewestFirst(history, rank, i) == earlier + ([i] + NewestFirst(history, rank, i));
      }
    }
    assert NewestFirst(history, rank, 0) == [] by { NoneOfRank(history, rank); }
  }

  lemma NoneOfRank(history: seq<Entry>, rank: nat)
    ensures NewestFirst(history, rank, 0) == []
  {
  }

  lemma NextOfRank(history: seq<Entry>, rank: nat, i: nat)
    requires i < |history|
    ensures NewestFirst(history, rank, i + 1)
      == if Rank(history[i]) == rank then [i] + NewestFirst(history, rank, i) else NewestFirst(history, rank, i)
  {
    hide Rank;
  }

  /** Answers, then updates that are not mere progress, then progress. */
  method Prioritize(history: seq<Entry>) returns (order: seq<nat>)
    ensures order == Priority(history)
    ensures (forall i :: 0 <= i < |order| ==> order[i] < |history|) && KindsInOrder(history, order)
  {
    hide KindsInOrder, NewestFirst;
    PriorityOrders(history);
    order := AppendRank(history, 0, []);
    order := AppendRank(history, 1, order);
    order := AppendRank(history, 2, order);
  }

  /** Fills the budget in order: whole records while they fit, then one shortened record. */
  method Fill(history: seq<Entry>, serialized: seq<string>, order: seq<nat>, budget: nat)
    returns (selected: map<nat, Line>, selectedOrder: seq<nat>)
    requires serialized == Serialized(history) && Indices(order, |history|)
    ensures selected == Selected(history, serialized, order, budget).lines
    ensures selectedOrder == order[..Selected(history, serialized, order, budget).count]
  {
    hide Json, Cost, Shorten, Selected, Serialized;
    selected, selectedOrder := map[], [];
    var remaining: int := budget;
    var truncatedOne := false;
    FillStarts(serialized, order);
    for i := 0 to |order|
      invariant if truncatedOne then
          selected == Selected(history, serialized, order, budget).lines
          && selectedOrder == order[..Selected(history, serialized, order, budget).count] && remaining < 6
        else
          selected == Full(serialized, order, i) && selectedOrder == order[..i]
          && remaining == budget - Spent(serialized, order, i)
          && Whole(serialized, order, budget, 0) == Whole(serialized, order, remaining, i)
    {
      var candidate := order[i];
      var cost := Cost(serialized[candidate]);
      RecordIsLong(history, candidate);
      if cost <= remaining {
        selected := selected[candidate := Line(serialized[candidate], true)];
        selectedOrder := selectedOrder + [candidate];
        remaining := remaining - cost;
        continue;
      }
      if truncatedOne { break; }
      var line := TruncateContinuationHistory(history[candidate], remaining);
      truncatedOne := true;
      SelectedHere(history, serialized, order, budget, i);
      if line.None? { break; }
      LittleIsLeft(history, candidate, remaining);
      selected := selected[candidate := Line(line.value, false)];
      selectedOrder := selectedOrder + [candidate];
      remaining := remaining - Cost(line.value);
    }
    if !truncatedOne { SelectedAll(history, serialized, order, budget); }
  }

  lemma FillStarts(serialized: seq<string>, order: seq<nat>)
    requires Indices(order, |serialized|)
    ensures Full(serialized, order, 0) == map[] && Spent(serialized, order, 0) == 0
  {
  }

  lemma RecordIsLong(history: seq<Entry>, i: nat)
    requires i < |history|
    ensures 77 <= Cost(Serialized(history)[i])
  {
    SerializedIsLong(history);
  }

  lemma LittleIsLeft(history: seq<Entry>, i: nat, remaining: int)
    requires i < |history| && Cost(Serialized(history)[i]) > remaining && Shorten(history[i], remaining).Some?
    ensures remaining - Cost(Shorten(history[i], remaining).value) < 6
  {
    hide Json, Shorten, Cost;
    ShorteningLeavesLittle(history[i], remaining);
  }

  lemma SelectedHere(history: seq<Entry>, serialized: seq<string>, order: seq<nat>, budget: int, i: nat)
    requires |serialized| == |history| && Indices(order, |history|) && i < |order|
    requires Whole(serialized, order, budget, 0) == i
    ensures var line := Shorten(history[order[i]], budget - Spent(serialized, order, i));
      Selected(history, serialized, order, budget) ==
        if line.None? then Choice(i, Full(serialized, order, i))
        else Choice(i + 1, Full(serialized, order, i)[order[i] := Line(line.value, false)])
  {
    hide Json, Cost, Shorten, Whole, Full, Spent;
  }

  lemma SelectedAll(history: seq<Entry>, serialized: seq<string>, order: seq<nat>, budget: int)
    requires |serialized| == |history| && Indices(order, |history|)
    requires Whole(serialized, order, budget, 0) == |order|
    ensures Selected(history, serialized, order, budget) == Choice(|order|, Full(serialized, order, |order|))
  {
    hide Json, Cost, Shorten, Whole, Full, Spent;
  }

  /** Takes records back, the last first, until the prompt fits. */
  method Trim(w: Wording, digest: string -> string, s: State, history: seq<Entry>, serialized: seq<string>,
              lines: map<nat, Line>, order: seq<nat>) returns (prompt: string)
    requires w.Valid() && IsDigest(digest) && 0 <= Budget(w, digest, s, history) && serialized == Serialized(history)
    requires lines == Choose(w, digest, s, history).lines
    requires order == Priority(history)[..Choose(w, digest, s, history).count]
    ensures Some(prompt) == Assembled(w, digest, s, history) && PromptFits(w, s, prompt)
  {
    hide Json, Framed, Render, Reads, Mandatory, Choose, Budget, Serialized, Priority, IsDigest;
    ghost var choice := Choose(w, digest, s, history);
    AssembledFits(w, digest, s, history);
    var selected, selectedOrder := lines, order;
    prompt := ContinuationWithHistory(w, digest, Mandatory(w, s), serialized, selected);
    while !PromptFits(w, s, prompt) && |selectedOrder| != 0
      invariant (selected == lines && selectedOrder == order && prompt == Written(w, digest, s, history, choice))
             || (PromptFits(w, s, prompt) && Some(prompt) == Assembled(w, digest, s, history))
      decreases |selectedOrder|
    {
      var last := selectedOrder[|selectedOrder| - 1];
      selectedOrder := selectedOrder[..|selectedOrder| - 1];
      selected := selected - {last};
      prompt := ContinuationWithHistory(w, digest, Mandatory(w, s), serialized, selected);
    }
  }

  method AssembleContinuationPrompt(w: Wording, digest: string -> string, s: State, history: seq<Entry>)
    returns (prompt: Option<string>)
    requires w.Valid() && IsDigest(digest)
    ensures prompt == Assembled(w, digest, s, history)
    ensures prompt.Some? <==> PromptFits(w, s, Base(w, digest, s, history))
    ensures prompt.Some? ==> PromptFits(w, s, prompt.value)
    ensures prompt.Some? ==>
      Indices(Priority(history), |history|) &&
      exists lines ::
        && KeepsWhatMatters(history, lines) && LeavesOutForRoom(w, digest, s, history, lines)
        && prompt.value == Render(w, digest, Mandatory(w, s), Serialized(history), lines)
  {
    hide Json, Framed, Render, Reads, Mandatory, Serialized, Priority, Selected, IsDigest, KeepsWhatMatters, LeavesOutForRoom;
    AssembledFits(w, digest, s, history);
    IndicesOfPriority(history);
    var serialized := Serialize(history);
    var order := Prioritize(history);
    var base := ContinuationWithHistory(w, digest, Mandatory(w, s), serialized, map[]);
    var baseBytes := Bytes(Framed(w, s, base));
    if baseBytes > MAX_PROMPT { return None; }
    var selected, selectedOrder := Fill(history, serialized, order, MAX_PROMPT - baseBytes);
    var text := Trim(w, digest, s, history, serialized, selected, selectedOrder);
    KeepsKinds(w, digest, s, history);
    LeavesOutLittle(w, digest, s, history);
    return Some(text);
  }
}
