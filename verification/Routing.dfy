/** Choosing the least loaded of the Workers that could take some Work. */
module Routing {
  import opened Common

  datatype Candidate = Candidate(worker: nat, load: nat, capacity: nat)

  /** betterRoute: a smaller share of the capacity in use, then the smaller identifier, without dividing. */
  predicate Better(a: Candidate, b: Candidate) {
    a.load * b.capacity < b.load * a.capacity || (a.load * b.capacity == b.load * a.capacity && a.worker < b.worker)
  }

  lemma ScaleUp(x: int, y: int, k: nat)
    requires x <= y
    ensures x * k <= y * k
    ensures x < y && 0 < k ==> x * k < y * k
  {
  }

  lemma ScaleDown(x: int, y: int, k: nat)
    requires 0 < k
    ensures x * k <= y * k ==> x <= y
    ensures x * k < y * k ==> x < y
  {
    if y < x { ScaleUp(y, x, k); }
  }

  /** Cross-multiplied shares compare like the shares themselves. */
  lemma SharesChain(a: Candidate, b: Candidate, c: Candidate)
    requires 0 < a.capacity && 0 < b.capacity && 0 < c.capacity
    requires a.load * b.capacity <= b.load * a.capacity && b.load * c.capacity <= c.load * b.capacity
    ensures a.load * c.capacity <= c.load * a.capacity
    ensures a.load * b.capacity < b.load * a.capacity || b.load * c.capacity < c.load * b.capacity ==>
      a.load * c.capacity < c.load * a.capacity
  {
    ScaleUp(a.load * b.capacity, b.load * a.capacity, c.capacity);
    ScaleUp(b.load * c.capacity, c.load * b.capacity, a.capacity);
    Rearrange(a.load, b.capacity, c.capacity);
    Rearrange(b.load, a.capacity, c.capacity);
    Rearrange(c.load, b.capacity, a.capacity);
    ScaleDown(a.load * c.capacity, c.load * a.capacity, b.capacity);
  }

  lemma Rearrange(x: int, y: int, z: int)
    ensures x * y * z == x * z * y
  {
  }

  /** With positive capacities the comparison is a strict total order on Workers. */
  lemma BetterIsAStrictTotalOrder(a: Candidate, b: Candidate, c: Candidate)
    requires 0 < a.capacity && 0 < b.capacity && 0 < c.capacity
    ensures !Better(a, a)
    ensures Better(a, b) ==> !Better(b, a)
    ensures Better(a, b) && Better(b, c) ==> Better(a, c)
    ensures a.worker != b.worker ==> Better(a, b) || Better(b, a)
  {
    if Better(a, b) && Better(b, c) { SharesChain(a, b, c); }
  }

  /** The part of its capacity that a Worker has in use. */
  function Share(c: Candidate): real
    requires 0 < c.capacity
  {
    c.load as real / c.capacity as real
  }

  lemma DivideBoth(x: real, y: real, a: real, b: real)
    requires 0.0 < a && 0.0 < b
    ensures x * b < y * a <==> x / a < y / b
    ensures x * b == y * a <==> x / a == y / b
  {
    var p, q := x / a, y / b;
    assert x == p * a && y == q * b;
    var k := a * b;
    assert 0.0 < k;
    assert x * b == p * k && y * a == q * k;
    if p < q { assert 0.0 < (q - p) * k; }
    if q < p { assert 0.0 < (p - q) * k; }
  }

  /** The comparison without division compares the shares themselves. */
  lemma BetterIsLessLoaded(a: Candidate, b: Candidate)
    requires 0 < a.capacity && 0 < b.capacity
    ensures Better(a, b) <==> Share(a) < Share(b) || (Share(a) == Share(b) && a.worker < b.worker)
  {
    DivideBoth(a.load as real, b.load as real, a.capacity as real, b.capacity as real);
    AsReals(a.load, b.capacity);
    AsReals(b.load, a.capacity);
  }

  lemma AsReals(x: int, y: int)
    ensures (x * y) as real == x as real * y as real
  {
  }

  ghost predicate Sound(rows: seq<Candidate>) {
    && (forall i :: 0 <= i < |rows| ==> 0 < rows[i].capacity)
    && (forall i, j :: 0 <= i < j < |rows| ==> rows[i].worker != rows[j].worker)
  }

  /** No other row is as good. */
  predicate Least(best: Candidate, rows: seq<Candidate>) {
    best in rows && forall r <- rows :: r == best || Better(best, r)
  }

  /** selectRunRoute keeps a running best. */
  method SelectRoute(rows: seq<Candidate>) returns (best: Option<Candidate>)
    requires Sound(rows)
    ensures best.None? <==> rows == []
    ensures best.Some? ==> Least(best.value, rows)
    ensures best.Some? ==> 0 < best.value.capacity && forall r <- rows ::
      Share(best.value) <= Share(r) && (Share(best.value) == Share(r) ==> best.value.worker <= r.worker)
  {
    best := None;
    for i := 0 to |rows|
      invariant best.None? <==> i == 0
      invariant best.Some? ==> Least(best.value, rows[..i])
    {
      assert rows[..i + 1] == rows[..i] + [rows[i]];
      if best.None? || Better(rows[i], best.value) {
        if best.Some? {
          forall r | r in rows[..i] && r != best.value ensures Better(rows[i], r) {
            BetterIsAStrictTotalOrder(rows[i], best.value, r);
          }
        }
        best := Some(rows[i]);
      } else {
        BetterIsAStrictTotalOrder(best.value, rows[i], rows[i]);
      }
    }
    assert rows[..|rows|] == rows;
    if best.Some? {
      forall r | r in rows
        ensures Share(best.value) <= Share(r) && (Share(best.value) == Share(r) ==> best.value.worker <= r.worker)
      {
        BetterIsLessLoaded(best.value, r);
      }
    }
  }

  /** The choice does not depend on the order in which the rows are read. */
  lemma ChoiceIgnoresRowOrder(rows: seq<Candidate>, other: seq<Candidate>, a: Candidate, b: Candidate)
    requires Sound(rows) && (forall r :: r in rows <==> r in other) && Least(a, rows) && Least(b, other)
    ensures a == b
  {
    BetterIsAStrictTotalOrder(a, b, a);
  }
}
