/** Sums and selections over the rows of an append-mostly SQL table, kept as a sequence. */
module Rows {

  /** Total weight of the rows. */
  function Sum<T(!new)>(rows: seq<T>, weight: T -> int): int {
    if |rows| == 0 then 0 else Sum(rows[..|rows| - 1], weight) + weight(rows[|rows| - 1])
  }

  /** The rows that satisfy a WHERE clause, in insertion order. */
  function Where<T(!new)>(rows: seq<T>, keep: T -> bool): (kept: seq<T>)
    ensures forall r :: r in kept <==> r in rows && keep(r)
    ensures |kept| <= |rows|
  {
    if |rows| == 0 then []
    else
      var last := rows[|rows| - 1];
      assert rows == rows[..|rows| - 1] + [last];
      var before := Where(rows[..|rows| - 1], keep);
      if keep(last) then before + [last] else before
  }

  lemma SumAppend<T(!new)>(rows: seq<T>, row: T, weight: T -> int)
    ensures Sum(rows + [row], weight) == Sum(rows, weight) + weight(row)
  {
    assert (rows + [row])[..|rows|] == rows;
  }

  lemma {:induction false} SumConcat<T(!new)>(rows: seq<T>, more: seq<T>, weight: T -> int)
    ensures Sum(rows + more, weight) == Sum(rows, weight) + Sum(more, weight)
  {
    if more == [] {
      assert rows + more == rows;
    } else {
      var last := |more| - 1;
      SumConcat(rows, more[..last], weight);
      assert rows + more == (rows + more[..last]) + [more[last]];
      SumAppend(rows + more[..last], more[last], weight);
    }
  }

  /** Replacing one row moves the sum by the difference of the two weights. */
  lemma {:induction false} SumUpdate<T(!new)>(rows: seq<T>, i: nat, row: T, weight: T -> int)
    requires i < |rows|
    ensures Sum(rows[i := row], weight) == Sum(rows, weight) - weight(rows[i]) + weight(row)
  {
    var last := |rows| - 1;
    var after := rows[i := row];
    if i == last {
      assert after[..last] == rows[..last];
    } else {
      assert after[..last] == rows[..last][i := row];
      SumUpdate(rows[..last], i, row, weight);
    }
  }

  lemma {:induction false} SumZero<T(!new)>(rows: seq<T>, weight: T -> int)
    requires forall r :: r in rows ==> weight(r) == 0
    ensures Sum(rows, weight) == 0
  {
    if rows != [] {
      SumZero(rows[..|rows| - 1], weight);
    }
  }

  lemma {:induction false} SumMonotone<T(!new)>(rows: seq<T>, low: T -> int, high: T -> int)
    requires forall r :: r in rows ==> low(r) <= high(r)
    ensures Sum(rows, low) <= Sum(rows, high)
  {
    if rows != [] {
      SumMonotone(rows[..|rows| - 1], low, high);
    }
  }

  lemma WhereAppend<T(!new)>(rows: seq<T>, row: T, keep: T -> bool)
    ensures Where(rows + [row], keep) == if keep(row) then Where(rows, keep) + [row] else Where(rows, keep)
  {
    assert (rows + [row])[..|rows|] == rows;
  }

  /** Replacing a row the clause does not select by another such row changes no selection. */
  lemma {:induction false} WhereUpdateOutside<T(!new)>(rows: seq<T>, i: nat, row: T, keep: T -> bool)
    requires i < |rows| && !keep(rows[i]) && !keep(row)
    ensures Where(rows[i := row], keep) == Where(rows, keep)
  {
    var last := |rows| - 1;
    var after := rows[i := row];
    if i == last {
      assert after[..last] == rows[..last];
    } else {
      assert after[..last] == rows[..last][i := row];
      WhereUpdateOutside(rows[..last], i, row, keep);
    }
  }
}
