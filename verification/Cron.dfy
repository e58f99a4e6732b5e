/** Cron fields and the search for the next matching minute.

    Time zones are a parameter: a function from minutes since the epoch to the local calendar. */
module Cron {
  import opened Common

  // ---------------------------------------------------------------- fields

  datatype Base = Star | Range(first: int, last: int) | Single(value: int)

  /** One item of a comma-separated field, numbers and names already read. */
  datatype Item = Item(base: Base, step: Option<int>)

  datatype Field = Field(allowed: seq<bool>, wildcard: bool)

  datatype Span = Span(start: nat, end: nat, step: nat)

  /** The values an item runs over, if it is well formed. */
  function SpanOf(item: Item, minimum: nat, maximum: nat): (span: Option<Span>)
    requires minimum <= maximum
    ensures span.Some? ==> minimum <= span.value.start <= span.value.end <= maximum && 0 < span.value.step
  {
    if item.step.Some? && item.step.value < 1 then None
    else
      var step := if item.step.Some? then item.step.value else 1;
      match item.base
      case Star => Some(Span(minimum, maximum, step))
      case Range(first, last) =>
        if minimum <= first <= last <= maximum then Some(Span(first, last, step)) else None
      case Single(value) =>
        if minimum <= value <= maximum then Some(Span(value, if item.step.Some? then maximum else value, step)) else None
  }

  predicate Covers(span: Span, value: int)
    requires 0 < span.step
  {
    span.start <= value <= span.end && (value - span.start) % span.step == 0
  }

  /** Some item of the list selects the value; Sunday may be written 7. */
  predicate Listed(items: seq<Item>, minimum: nat, maximum: nat, sundaySeven: bool, value: nat)
    requires minimum <= maximum
  {
    exists i :: 0 <= i < |items| && ItemLists(items[i], minimum, maximum, sundaySeven, value)
  }

  predicate ItemLists(item: Item, minimum: nat, maximum: nat, sundaySeven: bool, value: nat)
    requires minimum <= maximum
  {
    var span := SpanOf(item, minimum, maximum);
    span.Some? && SpanLists(span.value, sundaySeven, value)
  }

  predicate SpanLists(span: Span, sundaySeven: bool, value: nat)
    requires 0 < span.step
  {
    if sundaySeven && value == 0 then Covers(span, 0) || Covers(span, 7) else !(sundaySeven && value == 7) && Covers(span, value)
  }

  /** An item lists the values of its range that lie a multiple of its step above the first: the whole field for a star,
      from the value upwards for a value with a step, the value alone otherwise. */
  lemma SpanMeans(item: Item, minimum: nat, maximum: nat, value: int)
    requires minimum <= maximum
    ensures var step := if item.step.Some? then item.step.value else 1;
      var first := match item.base case Star => minimum as int case Range(a, _) => a case Single(a) => a;
      var last := match item.base
        case Star => maximum as int case Range(_, b) => b case Single(a) => if item.step.Some? then maximum else a;
      SpanOf(item, minimum, maximum).Some? && Covers(SpanOf(item, minimum, maximum).value, value) <==>
        && 1 <= step && minimum <= first <= last <= maximum
        && first <= value <= last && exists k: nat :: value == first + k * step
  {
    var span := SpanOf(item, minimum, maximum);
    if span.Some? {
      var start, step := span.value.start, span.value.step;
      if start <= value && (value - start) % step == 0 {
        Divided(value - start, step);
        assert value == start + ((value - start) / step) as nat * step;
      }
      if k: nat :| value == start + k * step { Remainder(value - start, k, 0, step); }
    }
  }

  lemma Divided(x: int, step: nat)
    requires 0 < step && 0 <= x && x % step == 0
    ensures 0 <= x / step && x == x / step * step
  {
  }

  predicate WellFormed(items: seq<Item>, minimum: nat, maximum: nat)
    requires minimum <= maximum
  {
    items != [] && forall i :: 0 <= i < |items| ==> SpanOf(items[i], minimum, maximum).Some?
  }

  /** Marks the values of one span, stepping through them. */
  method Mark(allowed: array<bool>, span: Span, sundaySeven: bool)
    requires 0 < span.step && span.start <= span.end < allowed.Length
    modifies allowed
    ensures forall v :: 0 <= v < allowed.Length ==>
      (allowed[v] <==> (old(allowed[v]) || SpanLists(span, sundaySeven, v)))
  {
    var candidate := span.start;
    while candidate <= span.end
      invariant span.start <= candidate && (candidate - span.start) % span.step == 0
      invariant forall v :: 0 <= v < allowed.Length ==>
        (allowed[v] <==> (old(allowed[v]) ||
          (if sundaySeven && v == 0 then Marked(span, candidate, 0) || Marked(span, candidate, 7)
           else !(sundaySeven && v == 7) && Marked(span, candidate, v))))
      decreases span.end + span.step - candidate
    {
      if sundaySeven && candidate == 7 { allowed[0] := true; } else { allowed[candidate] := true; }
      StepsSkipNothing(span, candidate);
      candidate := candidate + span.step;
    }
  }

  /** Covered and already passed. */
  predicate Marked(span: Span, candidate: int, value: int)
    requires 0 < span.step
  {
    Covers(span, value) && value < candidate
  }

  lemma StepsSkipNothing(span: Span, candidate: int)
    requires 0 < span.step && span.start <= candidate && (candidate - span.start) % span.step == 0
    ensures forall v :: candidate < v < candidate + span.step ==> !Covers(span, v)
    ensures (candidate + span.step - span.start) % span.step == 0
  {
    var q := (candidate - span.start) / span.step;
    forall v | candidate < v < candidate + span.step ensures !Covers(span, v) {
      Remainder(v - span.start, q, v - candidate, span.step);
    }
    assert (q + 1) * span.step == q * span.step + span.step;
    Remainder(candidate + span.step - span.start, q + 1, 0, span.step);
  }

  lemma Remainder(n: int, q: int, r: nat, d: nat)
    requires r < d && n == q * d + r
    ensures n % d == r
  {
    var k := n / d - q;
    Distribute(n / d, q, d);
    AtLeastOne(k, d);
    AtLeastOne(-k, d);
  }

  lemma Distribute(a: int, b: int, d: int)
    ensures (a - b) * d == a * d - b * d
    ensures (b - a) * d == b * d - a * d
  {
  }

  lemma AtLeastOne(k: int, d: nat)
    ensures 1 <= k ==> d <= k * d
  {
  }

  /** parseCronField: fails exactly on a malformed item, and otherwise allows exactly the listed values. */
  method ParseField(items: seq<Item>, minimum: nat, maximum: nat, sundaySeven: bool) returns (field: Option<Field>)
    requires minimum <= maximum && (sundaySeven ==> minimum == 0 && 7 <= maximum)
    ensures field.Some? <==> WellFormed(items, minimum, maximum)
    ensures field.Some? ==> |field.value.allowed| == maximum + 1
    ensures field.Some? ==> forall v :: 0 <= v <= maximum ==>
      (field.value.allowed[v] <==> Listed(items, minimum, maximum, sundaySeven, v))
    ensures field.Some? ==> exists v :: minimum <= v <= maximum && field.value.allowed[v]
  {
    if |items| == 0 { return None; }
    var allowed := new bool[maximum + 1](_ => false);
    for i := 0 to |items|
      invariant forall j :: 0 <= j < i ==> SpanOf(items[j], minimum, maximum).Some?
      invariant forall v :: 0 <= v <= maximum ==> (allowed[v] <==> Listed(items[..i], minimum, maximum, sundaySeven, v))
    {
      var span := SpanOf(items[i], minimum, maximum);
      if span.None? { return None; }
      Mark(allowed, span.value, sundaySeven);
      forall v | 0 <= v <= maximum
        ensures Listed(items[..i + 1], minimum, maximum, sundaySeven, v)
          <==> Listed(items[..i], minimum, maximum, sundaySeven, v) || ItemLists(items[i], minimum, maximum, sundaySeven, v)
      {
        OneMoreItem(items, i, minimum, maximum, sundaySeven, v);
      }
    }
    assert items[..|items|] == items;
    FirstIsListed(items, minimum, maximum, sundaySeven);
    var wildcard := items[0].base.Star?;
    return Some(Field(allowed[..], wildcard));
  }

  lemma OneMoreItem(items: seq<Item>, i: nat, minimum: nat, maximum: nat, sundaySeven: bool, value: nat)
    requires minimum <= maximum && i < |items|
    ensures Listed(items[..i + 1], minimum, maximum, sundaySeven, value)
      <==> Listed(items[..i], minimum, maximum, sundaySeven, value) || ItemLists(items[i], minimum, maximum, sundaySeven, value)
  {
    if Listed(items[..i + 1], minimum, maximum, sundaySeven, value) {
      var j :| 0 <= j < i + 1 && ItemLists(items[..i + 1][j], minimum, maximum, sundaySeven, value);
      if j < i { assert items[..i][j] == items[..i + 1][j]; }
    }
    if Listed(items[..i], minimum, maximum, sundaySeven, value) {
      var j :| 0 <= j < i && ItemLists(items[..i][j], minimum, maximum, sundaySeven, value);
      assert items[..i + 1][j] == items[..i][j];
    }
    assert items[..i + 1][i] == items[i];
  }

  lemma FirstIsListed(items: seq<Item>, minimum: nat, maximum: nat, sundaySeven: bool)
    requires minimum <= maximum && WellFormed(items, minimum, maximum) && (sundaySeven ==> minimum == 0 && 7 <= maximum)
    ensures exists v :: minimum <= v <= maximum && Listed(items, minimum, maximum, sundaySeven, v)
  {
    var span := SpanOf(items[0], minimum, maximum).value;
    assert Covers(span, span.start) by { Remainder(0, 0, 0, span.step); }
    var v := if sundaySeven && span.start == 7 then 0 else span.start;
    assert ItemLists(items[0], minimum, maximum, sundaySeven, v);
    assert Listed(items, minimum, maximum, sundaySeven, v);
  }

  // ---------------------------------------------------------------- matching

  datatype Local = Local(minute: nat, hour: nat, day: nat, month: nat, weekday: nat)
  {
    predicate Valid() { minute < 60 && hour < 24 && day < 32 && month < 13 && weekday < 7 }
  }

  datatype Schedule = Schedule(minute: Field, hour: Field, day: Field, month: Field, weekday: Field)
  {
    predicate Valid() {
      |minute.allowed| == 60 && |hour.allowed| == 24 && |day.allowed| == 32 && |month.allowed| == 13 && |weekday.allowed| == 8
    }

    /** A day matches by month day or by weekday, unless one of the two is a wildcard. */
    predicate Matches(local: Local)
      requires Valid() && local.Valid()
    {
      && minute.allowed[local.minute] && hour.allowed[local.hour] && month.allowed[local.month]
      && (if day.wildcard && weekday.wildcard then true
          else if day.wildcard then weekday.allowed[local.weekday]
          else if weekday.wildcard then day.allowed[local.day]
          else day.allowed[local.day] || weekday.allowed[local.weekday])
    }
  }

  /** Once the time and the month match, a day matches when a restricted month day or a restricted weekday lists it,
      or when neither is restricted. */
  lemma DayRule(s: Schedule, local: Local)
    requires s.Valid() && local.Valid()
    ensures s.Matches(local) <==>
      && s.minute.allowed[local.minute] && s.hour.allowed[local.hour] && s.month.allowed[local.month]
      && (|| (!s.day.wildcard && s.day.allowed[local.day])
          || (!s.weekday.wildcard && s.weekday.allowed[local.weekday])
          || (s.day.wildcard && s.weekday.wildcard))
  {
  }

  const MINUTE: int := 60_000

  /** The first whole minute after an instant, in minutes. */
  function MinuteAfter(after: int): int { after / MINUTE + 1 }

  /** The least matching minute strictly after the instant, or none within the search limit. */
  ghost predicate Answers(s: Schedule, zone: int -> Local, after: int, limit: nat, next: Option<int>)
    requires s.Valid() && forall m :: zone(m).Valid()
  {
    && (next.Some? ==> after < next.value * MINUTE && next.value <= MinuteAfter(after) + limit && s.Matches(zone(next.value)))
    && (next.Some? ==> forall m :: after < m * MINUTE && m < next.value ==> !s.Matches(zone(m)))
    && (next.None? ==> forall m :: after < m * MINUTE && m <= MinuteAfter(after) + limit ==> !s.Matches(zone(m)))
  }

  /** Next: the search minute by minute. */
  method Next(s: Schedule, zone: int -> Local, after: int, limit: nat) returns (next: Option<int>)
    requires s.Valid() && forall m :: zone(m).Valid()
    ensures Answers(s, zone, after, limit, next)
  {
    var candidate := MinuteAfter(after);
    var last := candidate + limit;
    while candidate <= last
      invariant MinuteAfter(after) <= candidate <= last + 1
      invariant forall m :: MinuteAfter(after) <= m < candidate ==> !s.Matches(zone(m))
    {
      if s.Matches(zone(candidate)) { return Some(candidate); }
      candidate := candidate + 1;
    }
    return None;
  }
}
