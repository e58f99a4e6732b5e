/** The recovery prompt: a mandatory part and as much of the Work's history as the byte budget allows. */
module Continuation {
  import opened Common
  import opened Text
  import opened Prompt

  const MAX_PROMPT: nat := 73728
  const MAX_BRANCH: nat := 1024

  /** The fixed sentences around the values. */
  datatype Wording = Wording(frame: seq<string>, recovery: seq<string>, header: string, marker: seq<string>)
  {
    predicate Valid() { |frame| == 7 && |recovery| == 10 && |marker| == 4 }
  }

  datatype State = State(
    title: string, repository: string, resolvedPrompt: string, publishBranch: string,
    question: string, answer: string, checkpoint: string, pendingResume: string,
    url: string, headBranch: string, headSha: string, retryMayRepeat: bool)

  /** One inserted history line; an incomplete one holds a shortened message. */
  datatype Line = Line(text: string, complete: bool)

  /** A SHA-256 digest in hexadecimal. */
  ghost predicate IsDigest(digest: string -> string) { forall text :: Bytes(digest(text)) == 64 }

  // ---------------------------------------------------------------- the whole prompt

  function FrameValues(s: State, prompt: string): (values: seq<string>)
    ensures |values| == 7
  {
    [s.title, s.repository, Repeat('x', MAX_BRANCH), Repeat('x', MAX_BRANCH), prompt, s.publishBranch, ""]
  }

  /** FormatAgentUpdatePrompt with the longest branch names. */
  function Framed(w: Wording, s: State, prompt: string): string
    requires w.Valid()
  {
    Interleave(w.frame, FrameValues(s, prompt))
  }

  predicate PromptFits(w: Wording, s: State, prompt: string)
    requires w.Valid()
  {
    Bytes(Framed(w, s, prompt)) <= MAX_PROMPT
  }

  function RecoveryValues(s: State): (values: seq<string>)
    ensures |values| == 10
  {
    [s.resolvedPrompt, s.publishBranch, OrNone(s.pendingResume), OrNone(s.checkpoint), OrNone(s.url),
     OrNone(s.headBranch), OrNone(s.headSha), Truth(s.retryMayRepeat), Escape(OrNone(s.question)), OrNone(s.answer)]
  }

  function Mandatory(w: Wording, s: State): string
    requires w.Valid()
  {
    Interleave(w.recovery, RecoveryValues(s))
  }

  // ---------------------------------------------------------------- the history

  function Inserted(selected: map<nat, Line>, n: nat): (count: nat)
    ensures count <= n
  {
    if n == 0 then 0 else Inserted(selected, n - 1) + if n - 1 in selected then 1 else 0
  }

  /** The records that are not inserted in full. */
  function Omitted(serialized: seq<string>, selected: map<nat, Line>, n: nat): (omitted: seq<string>)
    requires n <= |serialized|
    ensures |omitted| <= n
  {
    if n == 0 then []
    else Omitted(serialized, selected, n - 1)
         + if n - 1 in selected && selected[n - 1].complete then [] else [serialized[n - 1]]
  }

  function Lines(selected: map<nat, Line>, n: nat): string {
    if n == 0 then ""
    else Lines(selected, n - 1) + if n - 1 in selected then "\n" + selected[n - 1].text else ""
  }

  function Join(lines: seq<string>): string {
    if lines == [] then "" else if |lines| == 1 then lines[0] else lines[0] + "\n" + Join(lines[1..])
  }

  function MarkerValues(digest: string -> string, serialized: seq<string>, selected: map<nat, Line>): (values: seq<string>)
    ensures |values| == 4
  {
    var omitted := Omitted(serialized, selected, |serialized|);
    [Decimal(|serialized|), Decimal(Inserted(selected, |serialized|)), Decimal(|omitted|),
     if omitted == [] then "none" else digest(Join(omitted))]
  }

  /** continuationWithHistory: the inserted lines stand in chronological order. */
  function Render(w: Wording, digest: string -> string, mandatory: string, serialized: seq<string>, selected: map<nat, Line>): string
    requires w.Valid()
  {
    mandatory + w.header + Interleave(w.marker, MarkerValues(digest, serialized, selected)) + Lines(selected, |serialized|)
  }

  function LinesOf(selected: map<nat, Line>, inserted: seq<nat>): string
    requires forall i <- inserted :: i in selected
  {
    if inserted == [] then ""
    else LinesOf(selected, inserted[..|inserted| - 1]) + ("\n" + selected[inserted[|inserted| - 1]].text)
  }

  /** Some indices of the records, in order. */
  predicate Rising(ix: seq<nat>, n: nat) {
    (forall k :: 0 <= k < |ix| ==> ix[k] < n) && (forall j, k :: 0 <= j < k < |ix| ==> ix[j] < ix[k])
  }

  function Pick(serialized: seq<string>, ix: seq<nat>): seq<string>
    requires Rising(ix, |serialized|)
  {
    seq(|ix|, k requires 0 <= k < |ix| => serialized[ix[k]])
  }

  /** What a reader finds: how many records there are, how many are inserted and how many are not inserted in full,
      the digest of those, and then the inserted lines in order. */
  ghost predicate Reads(prompt: string, w: Wording, digest: string -> string, mandatory: string, serialized: seq<string>, selected: map<nat, Line>)
    requires w.Valid()
  {
    exists inserted, omitted ::
      && Rising(inserted, |serialized|) && Rising(omitted, |serialized|)
      && (forall i: nat | i < |serialized| :: i in inserted <==> i in selected)
      && (forall i: nat | i < |serialized| :: i in omitted <==> !(i in selected && selected[i].complete))
      && prompt == mandatory + w.header + (
           w.marker[0] + Decimal(|serialized|) + (w.marker[1] + Decimal(|inserted|) + (w.marker[2] + Decimal(|omitted|) + (
           w.marker[3] + if omitted == [] then "none" else digest(Join(Pick(serialized, omitted)))))))
         + LinesOf(selected, inserted)
  }

  lemma {:induction false} InsertedAre(selected: map<nat, Line>, n: nat) returns (ix: seq<nat>)
    ensures Rising(ix, n) && (forall i: nat | i < n :: i in ix <==> i in selected)
    ensures |ix| == Inserted(selected, n) && Lines(selected, n) == LinesOf(selected, ix)
  {
    hide LinesOf, Lines, Inserted;
    ix := [];
    if n == 0 {
      NoRecord([], selected);
    } else {
      var before := InsertedAre(selected, n - 1);
      OneMoreRecord(selected, n - 1);
      if n - 1 in selected {
        AnotherLine(selected, before, n - 1);
        RisesFurther(before, n - 1);
        ix := before + [n - 1];
      } else {
        ix := before;
      }
    }
  }

  lemma RisesFurther(ix: seq<nat>, n: nat)
    requires Rising(ix, n)
    ensures Rising(ix + [n], n + 1)
  {
  }

  lemma OneMoreRecord(selected: map<nat, Line>, i: nat)
    ensures Inserted(selected, i + 1) == Inserted(selected, i) + if i in selected then 1 else 0
    ensures Lines(selected, i + 1) == Lines(selected, i) + if i in selected then "\n" + selected[i].text else ""
  {
  }

  lemma {:induction false} OmittedAre(serialized: seq<string>, selected: map<nat, Line>, n: nat) returns (ix: seq<nat>)
    requires n <= |serialized|
    ensures Rising(ix, n) && (forall i: nat | i < n :: i in ix <==> !(i in selected && selected[i].complete))
    ensures Omitted(serialized, selected, n) == Pick(serialized, ix)
  {
    ix := [];
    if n > 0 {
      var before := OmittedAre(serialized, selected, n - 1);
      if n - 1 in selected && selected[n - 1].complete {
        ix := before;
      } else {
        ix := before + [n - 1];
        PickOneMore(serialized, before, n - 1);
        hide Pick, Omitted;
      }
    }
  }

  lemma PickOneMore(serialized: seq<string>, ix: seq<nat>, n: nat)
    requires Rising(ix, n) && n < |serialized|
    ensures Rising(ix + [n], n + 1) && Pick(serialized, ix + [n]) == Pick(serialized, ix) + [serialized[n]]
  {
  }

  lemma FourLabels(labels: seq<string>, values: seq<string>)
    requires |labels| == 4 == |values|
    ensures Interleave(labels, values)
      == labels[0] + values[0] + (labels[1] + values[1] + (labels[2] + values[2] + (labels[3] + values[3])))
  {
    OneLabel(labels, values);
    OneLabel(labels[1..], values[1..]);
    OneLabel(labels[2..], values[2..]);
    OneLabel(labels[3..], values[3..]);
    hide Interleave;
    assert labels[4..] == [] && values[4..] == [];
    NoLabel();
  }

  lemma OneLabel(labels: seq<string>, values: seq<string>)
    requires |labels| == |values| > 0
    ensures Interleave(labels, values) == labels[0] + values[0] + Interleave(labels[1..], values[1..])
  {
  }

  lemma NoLabel()
    ensures Interleave([], []) == ""
  {
  }

  /** The trusted part of the prompt gives each value after its label, with a placeholder for what there is not. */
  lemma RecoveryReads(w: Wording, s: State)
    requires w.Valid()
    ensures var r := w.recovery;
      Mandatory(w, s) ==
        r[0] + s.resolvedPrompt + (r[1] + s.publishBranch + (r[2] + Named(s.pendingResume) + (r[3] + Named(s.checkpoint) + (
        r[4] + Named(s.url) + (r[5] + Named(s.headBranch) + (r[6] + Named(s.headSha) + (
        r[7] + (if s.retryMayRepeat then "true" else "false") + (r[8] + Escape(Named(s.question)) + (r[9] + Named(s.answer))))))))))
  {
    var values := RecoveryValues(s);
    hide Interleave, Escape;
    OneLabel(w.recovery, values);
    OneLabel(w.recovery[1..], values[1..]);
    OneLabel(w.recovery[2..], values[2..]);
    OneLabel(w.recovery[3..], values[3..]);
    OneLabel(w.recovery[4..], values[4..]);
    OneLabel(w.recovery[5..], values[5..]);
    assert w.recovery[6..][0] == w.recovery[6] && w.recovery[6..][1] == w.recovery[7]
      && w.recovery[6..][2] == w.recovery[8] && w.recovery[6..][3] == w.recovery[9];
    assert values[6..] == [values[6], values[7], values[8], values[9]];
    FourLabels(w.recovery[6..], values[6..]);
  }

  function Named(value: string): string { if |value| == 0 then "(none)" else value }

  lemma RenderReads(w: Wording, digest: string -> string, mandatory: string, serialized: seq<string>, selected: map<nat, Line>)
    requires w.Valid()
    ensures Reads(Render(w, digest, mandatory, serialized, selected), w, digest, mandatory, serialized, selected)
  {
    hide Decimal, Interleave, Join, Lines, LinesOf, Inserted, Omitted;
    var inserted := InsertedAre(selected, |serialized|);
    var omitted := OmittedAre(serialized, selected, |serialized|);
    var values := MarkerValues(digest, serialized, selected);
    FourLabels(w.marker, values);
    assert values[0] == Decimal(|serialized|) && values[1] == Decimal(|inserted|) && values[2] == Decimal(|omitted|);
    assert values[3] == if omitted == [] then "none" else digest(Join(Pick(serialized, omitted)));
  }

  lemma NoRecord(serialized: seq<string>, selected: map<nat, Line>)
    ensures Omitted(serialized, selected, 0) == [] && Inserted(selected, 0) == 0 && Lines(selected, 0) == "" == LinesOf(selected, [])
  {
  }

  lemma NextRecord(serialized: seq<string>, selected: map<nat, Line>, i: nat)
    requires i < |serialized|
    ensures Omitted(serialized, selected, i + 1)
      == Omitted(serialized, selected, i) + if i in selected && selected[i].complete then [] else [serialized[i]]
  {
  }

  lemma AnotherLine(selected: map<nat, Line>, inserted: seq<nat>, i: nat)
    requires (forall j <- inserted :: j in selected) && i in selected
    ensures LinesOf(selected, inserted + [i]) == LinesOf(selected, inserted) + ("\n" + selected[i].text)
  {
    assert (inserted + [i])[..|inserted|] == inserted;
  }

  /** The same text, built in one pass over the records. */
  method ContinuationWithHistory(w: Wording, digest: string -> string, mandatory: string, serialized: seq<string>,
                                 selected: map<nat, Line>) returns (prompt: string)
    requires w.Valid()
    ensures prompt == Render(w, digest, mandatory, serialized, selected)
    ensures Reads(prompt, w, digest, mandatory, serialized, selected)
  {
    hide Reads, Decimal, Interleave, Join, Rising, Pick, Omitted, Inserted, Lines, LinesOf;
    RenderReads(w, digest, mandatory, serialized, selected);
    NoRecord(serialized, selected);
    var omitted: seq<string> := [];
    var inserted: seq<nat> := [];
    for index := 0 to |serialized|
      invariant omitted == Omitted(serialized, selected, index)
      invariant |inserted| == Inserted(selected, index)
      invariant forall i <- inserted :: i in selected
      invariant LinesOf(selected, inserted) == Lines(selected, index)
    {
      NextRecord(serialized, selected, index);
      OneMoreRecord(selected, index);
      if index in selected {
        AnotherLine(selected, inserted, index);
        inserted := inserted + [index];
        if !selected[index].complete { omitted := omitted + [serialized[index]]; }
      } else {
        omitted := omitted + [serialized[index]];
      }
    }
    var digestText := "none";
    if |omitted| != 0 { digestText := digest(Join(omitted)); }
    prompt := mandatory + w.header + Interleave(w.marker,
      [Decimal(|serialized|), Decimal(|inserted|), Decimal(|omitted|), digestText]);
    ghost var head := prompt;
    for i := 0 to |inserted|
      invariant prompt == head + LinesOf(selected, inserted[..i])
    {
      assert inserted[..i + 1] == inserted[..i] + [inserted[i]];
      AnotherLine(selected, inserted[..i], inserted[i]);
      prompt := prompt + "\n" + selected[inserted[i]].text;
    }
    assert inserted[..|inserted|] == inserted;
  }

  // ---------------------------------------------------------------- what the prompt weighs

  function Cost(text: string): (cost: nat)
    ensures cost == 1 + Bytes(text)
  {
    1 + Bytes(text)
  }

  /** What the inserted lines weigh. */
  function Spending(selected: map<nat, Line>, n: nat): nat {
    if n == 0 then 0 else Spending(selected, n - 1) + if n - 1 in selected then Cost(selected[n - 1].text) else 0
  }

  lemma {:induction false} BytesOfLines(selected: map<nat, Line>, n: nat)
    ensures Bytes(Lines(selected, n)) == Spending(selected, n)
  {
    if n > 0 {
      BytesOfLines(selected, n - 1);
      if n - 1 in selected {
        BytesOfConcat(Lines(selected, n - 1), "\n" + selected[n - 1].text);
        BytesOfConcat("\n", selected[n - 1].text);
        AsciiBytes("\n");
      } else {
        assert Lines(selected, n) == Lines(selected, n - 1);
      }
    }
  }

  /** The bytes of a prompt that no choice of history changes. */
  function Fixed(w: Wording, s: State): nat
    requires w.Valid()
  {
    Total(w.frame) + Bytes(s.title) + Bytes(s.repository) + 2 * MAX_BRANCH + Bytes(s.publishBranch)
    + Bytes(Mandatory(w, s)) + Bytes(w.header) + Total(w.marker)
  }

  function DigestBytes(omitted: nat): nat { if omitted == 0 then 4 else 64 }

  /** The bytes of the counts in front of the history. */
  function Counts(records: nat, inserted: nat, omitted: nat): nat {
    |Decimal(records)| + |Decimal(inserted)| + |Decimal(omitted)| + DigestBytes(omitted)
  }

  lemma FramedSize(w: Wording, s: State, prompt: string)
    requires w.Valid()
    ensures Bytes(Framed(w, s, prompt)) ==
      Total(w.frame) + Bytes(s.title) + Bytes(s.repository) + 2 * MAX_BRANCH + Bytes(s.publishBranch) + Bytes(prompt)
  {
    var values := FrameValues(s, prompt);
    BytesOfInterleave(w.frame, values);
    BytesOfRepeat('x', MAX_BRANCH);
    var x := Repeat('x', MAX_BRANCH);
    hide Bytes, Repeat;
    TotalOfSeven(s.title, s.repository, x, x, prompt, s.publishBranch, "");
    assert Bytes("") == 0 by { AsciiBytes(""); }
  }

  lemma TotalOfCons(a: string, rest: seq<string>)
    ensures Total([a] + rest) == Bytes(a) + Total(rest)
  {
    assert ([a] + rest)[1..] == rest;
  }

  lemma TotalOfThree(a: string, b: string, c: string)
    ensures Total([a, b, c]) == Bytes(a) + Bytes(b) + Bytes(c)
  {
    hide Total;
    TotalOfCons(c, []);
    TotalOfCons(b, [c]);
    TotalOfCons(a, [b, c]);
    assert [c] == [c] + [] && [b, c] == [b] + [c] && [a, b, c] == [a] + [b, c];
    assert Total([]) == 0 by { TotalOfNothing(); }
  }

  lemma TotalOfNothing()
    ensures Total([]) == 0
  {
  }

  lemma TotalOfFour(a: string, b: string, c: string, d: string)
    ensures Total([a, b, c, d]) == Bytes(a) + Bytes(b) + Bytes(c) + Bytes(d)
  {
    hide Total;
    TotalOfThree(b, c, d);
    TotalOfCons(a, [b, c, d]);
    assert [a, b, c, d] == [a] + [b, c, d];
  }

  lemma TotalOfSeven(a: string, b: string, c: string, d: string, e: string, f: string, g: string)
    ensures Total([a, b, c, d, e, f, g]) == Bytes(a) + Bytes(b) + Bytes(c) + Bytes(d) + Bytes(e) + Bytes(f) + Bytes(g)
  {
    hide Total;
    TotalOfFour(d, e, f, g);
    TotalOfCons(c, [d, e, f, g]);
    TotalOfCons(b, [c, d, e, f, g]);
    TotalOfCons(a, [b, c, d, e, f, g]);
    assert [c, d, e, f, g] == [c] + [d, e, f, g] && [b, c, d, e, f, g] == [b] + [c, d, e, f, g];
    assert [a, b, c, d, e, f, g] == [a] + [b, c, d, e, f, g];
  }

  lemma MarkerSize(w: Wording, digest: string -> string, serialized: seq<string>, selected: map<nat, Line>)
    requires w.Valid() && IsDigest(digest)
    ensures var n := |serialized|;
      Bytes(Interleave(w.marker, MarkerValues(digest, serialized, selected))) ==
        Total(w.marker) + Counts(n, Inserted(selected, n), |Omitted(serialized, selected, n)|)
  {
    var values := MarkerValues(digest, serialized, selected);
    BytesOfInterleave(w.marker, values);
    hide Bytes, Omitted, Inserted, Interleave, Join, Decimal;
    TotalOfFour(values[0], values[1], values[2], values[3]);
    AsciiBytes(values[0]);
    AsciiBytes(values[1]);
    AsciiBytes(values[2]);
    AsciiBytes("none");
  }

  /** The weight of a prompt: its fixed part, its counts and its lines. */
  lemma RenderedSize(w: Wording, digest: string -> string, s: State, serialized: seq<string>, selected: map<nat, Line>)
    requires w.Valid() && IsDigest(digest)
    ensures var n := |serialized|;
      Bytes(Framed(w, s, Render(w, digest, Mandatory(w, s), serialized, selected))) ==
        Fixed(w, s) + Counts(n, Inserted(selected, n), |Omitted(serialized, selected, n)|) + Spending(selected, n)
  {
    var n := |serialized|;
    var mandatory := Mandatory(w, s);
    var marker := Interleave(w.marker, MarkerValues(digest, serialized, selected));
    FramedSize(w, s, Render(w, digest, mandatory, serialized, selected));
    MarkerSize(w, digest, serialized, selected);
    hide Bytes, Mandatory, Framed, Omitted, Inserted, Lines, Interleave, Counts, Spending, MarkerValues, IsDigest;
    BytesOfConcat(mandatory + w.header + marker, Lines(selected, n));
    BytesOfConcat(mandatory + w.header, marker);
    BytesOfConcat(mandatory, w.header);
    BytesOfLines(selected, n);
  }
}
