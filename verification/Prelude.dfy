/** Result types and finite sums shared by every other module. */
module Prelude {

  datatype Option<+T> = None | Some(value: T)

  /** Why an operation was refused. A refusal rolls back everything the operation wrote. */
  datatype Error =
    | NotFound
    | Forbidden
    | Conflict
    | Unprocessable
    | UniqueViolation
    | PayoutHeld
    | BadGateway

  datatype Result<+T> = Ok(value: T) | Err(error: Error) {
    predicate IsFailure() { Err? }

    function PropagateFailure<U>(): Result<U>
      requires Err?
    {
      Err(error)
    }

    function Extract(): T
      requires Ok?
    {
      value
    }
  }

  /** The last row of a table that matches: a lookup, unique where the table has a unique index. */
  function FindLast<T>(rows: seq<T>, matches: T -> bool): (found: Option<nat>)
    ensures found.Some? ==> found.value < |rows| && matches(rows[found.value])
    ensures found.None? ==> forall i :: 0 <= i < |rows| ==> !matches(rows[i])
  {
    if rows == [] then None
    else if matches(rows[|rows| - 1]) then Some(|rows| - 1)
    else FindLast(rows[..|rows| - 1], matches)
  }

  /** The sum of f over a table's rows. */
  function Sum<T>(rows: seq<T>, f: T -> int): int {
    if rows == [] then 0 else Sum(rows[..|rows| - 1], f) + f(rows[|rows| - 1])
  }

  lemma {:induction false} SumAppend<T>(rows: seq<T>, row: T, f: T -> int)
    ensures Sum(rows + [row], f) == Sum(rows, f) + f(row)
  {
    assert (rows + [row])[..|rows|] == rows;
  }

  lemma SumPair<T>(x: T, y: T, f: T -> int)
    ensures Sum([x, y], f) == f(x) + f(y)
  {
    SumAppend([], x, f);
    SumAppend([x], y, f);
    assert [] + [x] == [x] && [x] + [y] == [x, y];
  }

  lemma {:induction false} SumConcat<T>(left: seq<T>, right: seq<T>, f: T -> int)
    ensures Sum(left + right, f) == Sum(left, f) + Sum(right, f)
    decreases |right|
  {
    if right == [] {
      assert left + right == left;
    } else {
      var last := |right| - 1;
      assert left + right == (left + right[..last]) + [right[last]];
      SumAppend(left + right[..last], right[last], f);
      SumConcat(left, right[..last], f);
    }
  }

  lemma {:induction false} SumUpdate<T>(rows: seq<T>, i: nat, row: T, f: T -> int)
    requires i < |rows|
    ensures Sum(rows[i := row], f) == Sum(rows, f) - f(rows[i]) + f(row)
    decreases |rows|
  {
    var last := |rows| - 1;
    if i == last {
      assert rows[i := row][..last] == rows[..last];
    } else {
      assert rows[i := row][..last] == rows[..last][i := row];
      SumUpdate(rows[..last], i, row, f);
    }
  }

  lemma {:induction false} SumSame<T>(rows: seq<T>, f: T -> int, g: T -> int)
    requires forall row :: row in rows ==> f(row) == g(row)
    ensures Sum(rows, f) == Sum(rows, g)
    decreases |rows|
  {
    if rows != [] {
      SumSame(rows[..|rows| - 1], f, g);
    }
  }

  lemma {:induction false} SumNonNegative<T>(rows: seq<T>, f: T -> int)
    requires forall row :: row in rows ==> f(row) >= 0
    ensures Sum(rows, f) >= 0
    decreases |rows|
  {
    if rows != [] {
      SumNonNegative(rows[..|rows| - 1], f);
    }
  }

  /** A sum of non-negative terms is zero only if every term is. */
  lemma {:induction false} SumZeroOnly<T>(rows: seq<T>, f: T -> int, i: nat)
    requires (forall row :: row in rows ==> f(row) >= 0) && i < |rows| && f(rows[i]) > 0
    ensures Sum(rows, f) > 0
    decreases |rows|
  {
    var last := |rows| - 1;
    if i == last {
      SumNonNegative(rows[..last], f);
    } else {
      SumZeroOnly(rows[..last], f, i);
    }
  }

  lemma {:induction false} SumZero<T>(rows: seq<T>, f: T -> int)
    requires forall row :: row in rows ==> f(row) == 0
    ensures Sum(rows, f) == 0
    decreases |rows|
  {
    if rows != [] {
      SumZero(rows[..|rows| - 1], f);
    }
  }

  /** A sum of differences is the difference of the sums. */
  lemma {:induction false} SumDifference<T>(rows: seq<T>, f: T -> int, g: T -> int, h: T -> int)
    requires forall row :: row in rows ==> f(row) == g(row) - h(row)
    ensures Sum(rows, f) == Sum(rows, g) - Sum(rows, h)
    decreases |rows|
  {
    if rows != [] {
      SumDifference(rows[..|rows| - 1], f, g, h);
    }
  }

  lemma {:induction false} SumPlus<T>(rows: seq<T>, f: T -> int, g: T -> int, h: T -> int)
    requires forall row :: row in rows ==> f(row) == g(row) + h(row)
    ensures Sum(rows, f) == Sum(rows, g) + Sum(rows, h)
    decreases |rows|
  {
    if rows != [] {
      SumPlus(rows[..|rows| - 1], f, g, h);
    }
  }

  function Drop<T>(rows: seq<T>, i: nat): seq<T>
    requires i < |rows|
  {
    rows[..i] + rows[i + 1..]
  }

  lemma {:induction false} SumDrop<T>(rows: seq<T>, i: nat, f: T -> int)
    requires i < |rows|
    ensures Sum(rows, f) == Sum(Drop(rows, i), f) + f(rows[i])
    decreases |rows|
  {
    var last := |rows| - 1;
    if i == last {
      assert Drop(rows, i) == rows[..last];
    } else {
      SumDrop(rows[..last], i, f);
      assert Drop(rows, i) == Drop(rows[..last], i) + [rows[last]];
      SumAppend(Drop(rows[..last], i), rows[last], f);
    }
  }

  // ----- Runs -------------------------------------------------------------

  /** Some step of a run does what `happens` says, given the steps before it. */
  ghost predicate Ever<T>(steps: seq<T>, happens: (seq<T>, T) -> bool) {
    exists k :: 0 <= k < |steps| && happens(steps[..k], steps[k])
  }

  lemma EverSplit<T>(steps: seq<T>, happens: (seq<T>, T) -> bool)
    requires steps != []
    ensures var last := |steps| - 1;
            Ever(steps, happens) <==> Ever(steps[..last], happens) || happens(steps[..last], steps[last])
  {
    var last := |steps| - 1;
    forall k | 0 <= k < last ensures steps[..last][..k] == steps[..k] {
    }
    if Ever(steps[..last], happens) {
      var k :| 0 <= k < last && happens(steps[..last][..k], steps[..last][k]);
      assert happens(steps[..k], steps[k]);
    }
    if Ever(steps, happens) {
      var k :| 0 <= k < |steps| && happens(steps[..k], steps[k]);
      assert k < last ==> happens(steps[..last][..k], steps[..last][k]);
    }
  }

  lemma EverPrefix<T>(steps: seq<T>, k: nat, happens: (seq<T>, T) -> bool)
    requires k <= |steps|
    ensures Ever(steps[..k], happens) ==> Ever(steps, happens)
  {
    forall j | 0 <= j < k && happens(steps[..k][..j], steps[..k][j]) ensures happens(steps[..j], steps[j]) {
      assert steps[..k][..j] == steps[..j];
    }
  }
}
