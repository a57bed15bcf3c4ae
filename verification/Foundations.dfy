/** Failure-carrying datatypes used by every service model. */
module Wrappers {
  datatype Option<+T> = None | Some(value: T)

  datatype Result<+T, +E> = Success(value: T) | Failure(error: E) {
    predicate IsFailure() { Failure? }

    function PropagateFailure<U>(): Result<U, E>
      requires Failure?
    {
      Failure(error)
    }

    function Extract(): T
      requires Success?
    {
      value
    }
  }

  /** The exception a call raises, if any. */
  function ErrorOf<T, E>(result: Result<T, E>): Option<E>
  {
    match result
    case Success(_) => None
    case Failure(error) => Some(error)
  }
}

/** Sums of an integer-valued function over a table (a sequence of rows). */
module Sums {
  function Abs(amount: int): nat { if amount < 0 then -amount else amount }

  /** 1 for what is counted, 0 for what is not. */
  function Indicator(counted: bool): int { if counted then 1 else 0 }

  function Zero<T>(): T -> int { (row: T) => 0 }

  function Sum<T>(rows: seq<T>, f: T -> int): int
  {
    if rows == [] then 0 else Sum(rows[..|rows| - 1], f) + f(rows[|rows| - 1])
  }

  lemma SumAppend<T>(rows: seq<T>, row: T, f: T -> int)
    ensures Sum(rows + [row], f) == Sum(rows, f) + f(row)
  {
    assert (rows + [row])[..|rows|] == rows;
  }

  lemma SumOfOne<T>(row: T, f: T -> int)
    ensures Sum([row], f) == f(row)
  {
    SumAppend([], row, f);
    assert [] + [row] == [row];
  }

  lemma {:induction false} SumConcat<T>(left: seq<T>, right: seq<T>, f: T -> int)
    ensures Sum(left + right, f) == Sum(left, f) + Sum(right, f)
  {
    if right == [] {
      assert left + right == left;
    } else {
      var init, last := right[..|right| - 1], right[|right| - 1];
      SumConcat(left, init, f);
      assert left + right == (left + init) + [last];
      SumAppend(left + init, last, f);
    }
  }

  lemma {:induction false} SumUpdate<T>(rows: seq<T>, i: nat, row: T, f: T -> int)
    requires i < |rows|
    ensures Sum(rows[i := row], f) == Sum(rows, f) - f(rows[i]) + f(row)
  {
    var init, last := rows[..|rows| - 1], rows[|rows| - 1];
    if i == |rows| - 1 {
      assert rows[i := row] == init + [row];
      SumAppend(init, row, f);
    } else {
      SumUpdate(init, i, row, f);
      assert rows[i := row] == init[i := row] + [last];
      SumAppend(init[i := row], last, f);
    }
  }

  lemma {:induction false} SumOfZeros<T>(rows: seq<T>)
    ensures Sum(rows, Zero<T>()) == 0
  {
    if rows != [] { SumOfZeros(rows[..|rows| - 1]); }
  }

  /** Rows with pointwise equal contributions, in the same positions, have equal sums. */
  lemma {:induction false} SumEqual<S, T>(rows: seq<S>, others: seq<T>, f: S -> int, g: T -> int)
    requires |rows| == |others|
    requires forall i :: 0 <= i < |rows| ==> f(rows[i]) == g(others[i])
    ensures Sum(rows, f) == Sum(others, g)
  {
    if rows != [] {
      SumEqual(rows[..|rows| - 1], others[..|others| - 1], f, g);
    }
  }

  /** Rows whose contributions differ by at most `bound` have sums that differ by at most n times that. */
  lemma {:induction false} SumsStayClose<S, T>(rows: seq<S>, others: seq<T>, f: S -> int, g: T -> int, bound: int)
    requires |rows| == |others|
    requires forall i :: 0 <= i < |rows| ==> -bound <= f(rows[i]) - g(others[i]) <= bound
    ensures -(|rows| * bound) <= Sum(rows, f) - Sum(others, g) <= |rows| * bound
  {
    if rows != [] {
      var n := |rows| - 1;
      SumsStayClose(rows[..n], others[..n], f, g, bound);
      assert |rows| * bound == n * bound + bound;
    }
  }

  lemma {:induction false} SumNonNegative<T>(rows: seq<T>, f: T -> int)
    requires forall i :: 0 <= i < |rows| ==> f(rows[i]) >= 0
    ensures Sum(rows, f) >= 0
    ensures forall i :: 0 <= i < |rows| ==> f(rows[i]) <= Sum(rows, f)
  {
    if rows != [] {
      SumNonNegative(rows[..|rows| - 1], f);
    }
  }
}

/** Queries: the rows of a table that satisfy a condition. */
module Queries {
  /** The rows of a query, in table order. */
  function Select<T>(rows: seq<T>, wanted: T -> bool): seq<T>
  {
    if rows == [] then []
    else
      var earlier, last := Select(rows[..|rows| - 1], wanted), rows[|rows| - 1];
      if wanted(last) then earlier + [last] else earlier
  }

  lemma {:induction false} SelectMembers<T>(rows: seq<T>, wanted: T -> bool, row: T)
    ensures row in Select(rows, wanted) <==> row in rows && wanted(row)
  {
    if rows != [] {
      SelectMembers(rows[..|rows| - 1], wanted, row);
      assert rows == rows[..|rows| - 1] + [rows[|rows| - 1]];
    }
  }

  lemma SelectAppend<T>(rows: seq<T>, row: T, wanted: T -> bool)
    ensures Select(rows + [row], wanted) == Select(rows, wanted) + (if wanted(row) then [row] else [])
  {
    assert (rows + [row])[..|rows|] == rows;
  }
}
