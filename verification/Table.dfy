/** Rows of one database table, addressed by index: rows are inserted at the
    end, updated in place and never deleted, so an index is a row id and a
    later index is a newer row. */
module Table {
  import opened Wrappers

  /** The newest row matching p: `ORDER BY created_at DESC LIMIT 1`. */
  function FindLast<T>(rows: seq<T>, p: T -> bool): (r: Option<nat>)
    ensures r.Some? ==> r.value < |rows| && p(rows[r.value]) && forall j :: r.value < j < |rows| ==> !p(rows[j])
    ensures r.None? ==> forall j :: 0 <= j < |rows| ==> !p(rows[j])
  {
    if rows == [] then None
    else if p(rows[|rows| - 1]) then Some(|rows| - 1)
    else FindLast(rows[..|rows| - 1], p)
  }

  /** `SELECT count(*) WHERE p`. */
  function Count<T>(rows: seq<T>, p: T -> bool): nat {
    if rows == [] then 0 else Count(rows[..|rows| - 1], p) + if p(rows[|rows| - 1]) then 1 else 0
  }

  /** `UPDATE ... SET f WHERE p` over the whole table. */
  function UpdateWhere<T>(rows: seq<T>, p: T -> bool, f: T -> T): (r: seq<T>)
    ensures |r| == |rows|
    ensures forall i :: 0 <= i < |rows| ==> r[i] == if p(rows[i]) then f(rows[i]) else rows[i]
  {
    seq(|rows|, i requires 0 <= i < |rows| => if p(rows[i]) then f(rows[i]) else rows[i])
  }

  /** The ids of the rows matching p. */
  function Matching<T>(rows: seq<T>, p: T -> bool): set<nat> {
    set i: nat | i < |rows| && p(rows[i])
  }

  lemma {:induction false} CountIsCardinality<T>(rows: seq<T>, p: T -> bool)
    ensures Count(rows, p) == |Matching(rows, p)|
  {
    if rows != [] {
      var n := |rows| - 1;
      CountIsCardinality(rows[..n], p);
      var last: set<nat> := if p(rows[n]) then {n} else {};
      assert Matching(rows, p) == Matching(rows[..n], p) + last;
      assert Matching(rows[..n], p) !! last;
    }
  }

  lemma {:induction false} CountedIsFound<T>(rows: seq<T>, p: T -> bool)
    ensures Count(rows, p) > 0 <==> FindLast(rows, p).Some?
  {
    if rows != [] { CountedIsFound(rows[..|rows| - 1], p); }
  }

  lemma CountAppend<T>(rows: seq<T>, x: T, p: T -> bool)
    ensures Count(rows + [x], p) == Count(rows, p) + if p(x) then 1 else 0
  {
    assert (rows + [x])[..|rows|] == rows;
  }

  lemma {:induction false} CountUpdate<T>(rows: seq<T>, i: nat, x: T, p: T -> bool)
    requires i < |rows|
    ensures Count(rows[i := x], p) + (if p(rows[i]) then 1 else 0) == Count(rows, p) + if p(x) then 1 else 0
  {
    var n := |rows| - 1;
    if i == n {
      assert rows[i := x][..n] == rows[..n];
    } else {
      assert rows[i := x][..n] == rows[..n][i := x];
      CountUpdate(rows[..n], i, x, p);
    }
  }

  /** Rows that stop matching, and rows that never match, cannot raise a count. */
  lemma {:induction false} CountMonotone<T>(before: seq<T>, after: seq<T>, p: T -> bool)
    requires |before| == |after|
    requires forall i :: 0 <= i < |before| && p(after[i]) ==> p(before[i])
    ensures Count(after, p) <= Count(before, p)
  {
    if before != [] {
      CountMonotone(before[..|before| - 1], after[..|after| - 1], p);
    }
  }
}
