/** The ordered, paged scans with which a claiming Worker looks for work to take over. */
module Scan {
  import opened Common
  import opened Tables

  /** What the scans order by: attempts used, Run admission, Session admission, identifier. */
  datatype Key = Key(used: int, run: int, own: int, id: Id)

  predicate Before(a: Key, b: Key) {
    a.used < b.used || (a.used == b.used && (a.run < b.run || (a.run == b.run &&
      (a.own < b.own || (a.own == b.own && a.id < b.id)))))
  }

  predicate IsFirst(k: Key, rows: set<Key>) {
    k in rows && forall x <- rows :: x == k || Before(k, x)
  }

  lemma {:induction false} FirstExists(rows: set<Key>)
    requires rows != {}
    ensures exists k <- rows :: IsFirst(k, rows)
  {
    var x :| x in rows;
    var rest := rows - {x};
    assert forall k <- rows :: k == x || k in rest;
    if rest == {} {
      assert IsFirst(x, rows);
    } else {
      FirstExists(rest);
      var y :| y in rest && IsFirst(y, rest);
      assert IsFirst(if Before(x, y) then x else y, rows);
    }
  }

  function First(rows: set<Key>): (k: Key)
    requires rows != {}
    ensures IsFirst(k, rows)
  {
    FirstExists(rows);
    var k :| k in rows && IsFirst(k, rows);
    k
  }

  /** The rows a query with this cursor still sees. */
  function Remaining(rows: set<Key>, cursor: Option<Key>): set<Key> {
    set k | k in rows && (cursor.None? || Before(cursor.value, k))
  }

  /** One query: at most `size` remaining rows, in ascending order. */
  function Page(rows: set<Key>, cursor: Option<Key>, size: nat): (page: seq<Key>)
    ensures |page| <= size
    ensures forall i :: 0 <= i < |page| ==> page[i] in Remaining(rows, cursor)
    ensures forall i, j :: 0 <= i < j < |page| ==> Before(page[i], page[j])
    ensures forall k <- Remaining(rows, cursor) ::
      k in page || (|page| == size && forall x <- page :: Before(x, k))
    decreases size
  {
    var left := Remaining(rows, cursor);
    if size == 0 || left == {} then []
    else
      var k := First(left);
      [k] + Page(rows, Some(k), size - 1)
  }

  /** Walks the pages until a row routes.  The page size does not show in what is found. */
  method FirstRouted(rows: set<Key>, routed: set<Id>, size: nat) returns (found: Option<Key>)
    requires 0 < size
    ensures found.None? <==> forall k <- rows :: k.id !in routed
    ensures found.Some? ==> IsFirst(found.value, set k | k in rows && k.id in routed)
  {
    var cursor: Option<Key> := None;
    while true
      invariant cursor.Some? ==> cursor.value in rows
      invariant forall k <- rows :: k.id in routed ==> k in Remaining(rows, cursor)
      decreases |Remaining(rows, cursor)|
    {
      var page := Page(rows, cursor, size);
      for i := 0 to |page|
        invariant forall j :: 0 <= j < i ==> page[j].id !in routed
      {
        if page[i].id in routed {
          return Some(page[i]);
        }
      }
      if |page| < size {
        return None;
      }
      var last := page[|page| - 1];
      ghost var before := Remaining(rows, cursor);
      assert Remaining(rows, Some(last)) <= before - {last};
      SubsetIsNoLarger(Remaining(rows, Some(last)), before - {last});
      cursor := Some(last);
    }
  }
}
