/**
  Lookups by a unique column, and aggregates over table rows (`_sum` with a `where` filter) and over finite sets.
  A filter and the summed column together are one weight function.
 */
module Sums {
  import opened Outcomes

  /** `findUnique`: the row whose column holds this value. */
  function FindBy<T, K(==)>(rows: seq<T>, column: T -> K, value: K): (found: Option<nat>)
    ensures found.Some? ==> found.value < |rows| && column(rows[found.value]) == value
    ensures found.None? ==> forall i :: 0 <= i < |rows| ==> column(rows[i]) != value
  {
    if rows == [] then None
    else if column(rows[|rows| - 1]) == value then Some(|rows| - 1)
    else FindBy(rows[..|rows| - 1], column, value)
  }

  function Members<T(==)>(rows: seq<T>): set<T>
  {
    set row | row in rows
  }

  /** A weight restricted to the rows of one group. */
  function InGroup<T>(group: T -> nat, g: nat, weight: T -> int): T -> int
  {
    (row: T) => if group(row) == g then weight(row) else 0
  }

  function Sum<T>(rows: seq<T>, weight: T -> int): int
  {
    if rows == [] then 0 else Sum(rows[..|rows| - 1], weight) + weight(rows[|rows| - 1])
  }

  lemma SumAppend<T>(rows: seq<T>, row: T, weight: T -> int)
    ensures Sum(rows + [row], weight) == Sum(rows, weight) + weight(row)
  {
    assert (rows + [row])[..|rows|] == rows;
  }

  lemma {:induction false} SumConcat<T>(first: seq<T>, second: seq<T>, weight: T -> int)
    ensures Sum(first + second, weight) == Sum(first, weight) + Sum(second, weight)
  {
    if second == [] {
      assert first + second == first;
    } else {
      var n := |second| - 1;
      SumConcat(first, second[..n], weight);
      assert (first + second)[..|first + second| - 1] == first + second[..n];
    }
  }

  lemma {:induction false} SumUpdate<T>(rows: seq<T>, i: nat, row: T, weight: T -> int)
    requires i < |rows|
    ensures Sum(rows[i := row], weight) == Sum(rows, weight) - weight(rows[i]) + weight(row)
  {
    var n := |rows| - 1;
    if i == n {
      assert rows[i := row][..n] == rows[..n];
    } else {
      SumUpdate(rows[..n], i, row, weight);
      assert rows[i := row][..n] == rows[..n][i := row];
    }
  }

  /** Weights that agree on every row give the same aggregate. */
  lemma {:induction false} SumSame<T>(rows: seq<T>, first: T -> int, second: T -> int)
    requires forall i :: 0 <= i < |rows| ==> first(rows[i]) == second(rows[i])
    ensures Sum(rows, first) == Sum(rows, second)
  {
    if rows != [] {
      SumSame(rows[..|rows| - 1], first, second);
    }
  }

  /** The aggregate of a weight that is the sum of two others. */
  lemma {:induction false} SumSplit<T>(rows: seq<T>, whole: T -> int, left: T -> int, right: T -> int)
    requires forall i :: 0 <= i < |rows| ==> whole(rows[i]) == left(rows[i]) + right(rows[i])
    ensures Sum(rows, whole) == Sum(rows, left) + Sum(rows, right)
  {
    if rows != [] {
      SumSplit(rows[..|rows| - 1], whole, left, right);
    }
  }

  lemma {:induction false} SumZero<T>(rows: seq<T>, weight: T -> int)
    requires forall i :: 0 <= i < |rows| ==> weight(rows[i]) == 0
    ensures Sum(rows, weight) == 0
  {
    if rows != [] {
      SumZero(rows[..|rows| - 1], weight);
    }
  }

  lemma {:induction false} SumNonNegative<T>(rows: seq<T>, weight: T -> int)
    requires forall i :: 0 <= i < |rows| ==> 0 <= weight(rows[i])
    ensures 0 <= Sum(rows, weight)
  {
    if rows != [] {
      SumNonNegative(rows[..|rows| - 1], weight);
    }
  }

  /** No row outweighs the aggregate when nothing is negative. */
  lemma {:induction false} SumCovers<T>(rows: seq<T>, i: nat, weight: T -> int)
    requires i < |rows|
    requires forall j :: 0 <= j < |rows| ==> 0 <= weight(rows[j])
    ensures weight(rows[i]) <= Sum(rows, weight)
  {
    var n := |rows| - 1;
    SumNonNegative(rows[..n], weight);
    if i < n {
      SumCovers(rows[..n], i, weight);
    }
  }

  /** Exactly one row contributes. */
  lemma {:induction false} SumSingle<T>(rows: seq<T>, i: nat, weight: T -> int)
    requires i < |rows|
    requires forall j :: 0 <= j < |rows| && j != i ==> weight(rows[j]) == 0
    ensures Sum(rows, weight) == weight(rows[i])
  {
    var n := |rows| - 1;
    if i == n {
      SumZero(rows[..n], weight);
    } else {
      SumSingle(rows[..n], i, weight);
    }
  }

  // Sums over the members of a set, whatever order they are visited in.

  ghost function SetSum<T(!new)>(s: set<T>, weight: T -> int): int
  {
    if s == {} then 0
    else
      var x :| x in s;
      weight(x) + SetSum(s - {x}, weight)
  }

  /** Any member may be taken out first. */
  lemma {:induction false} SetSumRemove<T(!new)>(s: set<T>, x: T, weight: T -> int)
    requires x in s
    ensures SetSum(s, weight) == weight(x) + SetSum(s - {x}, weight)
    decreases |s|
  {
    var y :| y in s && SetSum(s, weight) == weight(y) + SetSum(s - {y}, weight);
    if y != x {
      SetSumRemove(s - {y}, x, weight);
      SetSumRemove(s - {x}, y, weight);
      assert s - {y} - {x} == s - {x} - {y};
    }
  }

  lemma SetSumAdd<T(!new)>(s: set<T>, x: T, weight: T -> int)
    requires x !in s
    ensures SetSum(s + {x}, weight) == weight(x) + SetSum(s, weight)
  {
    SetSumRemove(s + {x}, x, weight);
    assert s + {x} - {x} == s;
  }

  lemma {:induction false} SetSumSame<T(!new)>(s: set<T>, first: T -> int, second: T -> int)
    requires forall x :: x in s ==> first(x) == second(x)
    ensures SetSum(s, first) == SetSum(s, second)
    decreases |s|
  {
    if s != {} {
      var x :| x in s;
      SetSumRemove(s, x, first);
      SetSumRemove(s, x, second);
      SetSumSame(s - {x}, first, second);
    }
  }

  lemma {:induction false} SetSumNonNegative<T(!new)>(s: set<T>, weight: T -> int)
    requires forall x :: x in s ==> 0 <= weight(x)
    ensures 0 <= SetSum(s, weight)
    decreases |s|
  {
    if s != {} {
      var x :| x in s;
      SetSumRemove(s, x, weight);
      SetSumNonNegative(s - {x}, weight);
    }
  }

  /** Without weight there is no sum. */
  lemma {:induction false} SetSumZero<T(!new)>(s: set<T>, weight: T -> int)
    requires forall x :: x in s ==> weight(x) == 0
    ensures SetSum(s, weight) == 0
    decreases |s|
  {
    if s != {} {
      var x :| x in s;
      SetSumRemove(s, x, weight);
      SetSumZero(s - {x}, weight);
    }
  }

  lemma {:induction false} SetSumMonotone<T(!new)>(s: set<T>, lower: T -> int, upper: T -> int)
    requires forall x :: x in s ==> lower(x) <= upper(x)
    ensures SetSum(s, lower) <= SetSum(s, upper)
    decreases |s|
  {
    if s != {} {
      var x :| x in s;
      SetSumRemove(s, x, lower);
      SetSumRemove(s, x, upper);
      SetSumMonotone(s - {x}, lower, upper);
    }
  }

  /** Members without weight make no difference. */
  lemma {:induction false} SetSumOfPart<T(!new)>(all: set<T>, part: set<T>, weight: T -> int)
    requires part <= all && forall x :: x in all - part ==> weight(x) == 0
    ensures SetSum(all, weight) == SetSum(part, weight)
    decreases |all - part|
  {
    if all - part == {} {
      assert all == part;
    } else {
      var x :| x in all - part;
      SetSumRemove(all, x, weight);
      assert all - part == (all - {x} - part) + {x};
      SetSumOfPart(all - {x}, part, weight);
    }
  }
}
