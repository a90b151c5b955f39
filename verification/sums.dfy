/** Option, truncating division and weighted sums over table rows. */
module Sums {

  datatype Option<+T> = None | Some(value: T)

  /** Integer division as SQL and Go do it: towards zero. */
  function TruncDiv(a: int, b: int): int
    requires b > 0
  {
    if a >= 0 then a / b else -((-a) / b)
  }

  /** What a whole number of satoshis says about the millisatoshis behind it. */
  lemma SatsBracketMsats(a: int)
    ensures 1000 * TruncDiv(a, 1000) - 999 <= a <= 1000 * TruncDiv(a, 1000) + 999
    ensures a >= 0 ==> 1000 * TruncDiv(a, 1000) <= a
    ensures a <= 0 ==> a <= 1000 * TruncDiv(a, 1000)
    ensures TruncDiv(a, 1000) > 0 ==> 1000 * TruncDiv(a, 1000) <= a
    ensures a % 1000 == 0 ==> 1000 * TruncDiv(a, 1000) == a
  {
  }

  /** The sum of a weight over the rows of a table; the weight sees the row's position, which is its id. */
  function Sum<T>(rows: seq<T>, w: (nat, T) -> int): int {
    if |rows| == 0 then 0
    else Sum(rows[..|rows| - 1], w) + w(|rows| - 1, rows[|rows| - 1])
  }

  lemma SumAppend<T>(rows: seq<T>, r: T, w: (nat, T) -> int)
    ensures Sum(rows + [r], w) == Sum(rows, w) + w(|rows|, r)
  {
    assert (rows + [r])[..|rows|] == rows;
  }

  /** Pointwise heavier rows have a heavier sum. */
  lemma {:induction false} SumLe<T, U>(rows: seq<T>, w: (nat, T) -> int, rows': seq<U>, w': (nat, U) -> int)
    requires |rows| == |rows'|
    requires forall k: nat | k < |rows| :: w(k, rows[k]) <= w'(k, rows'[k])
    ensures Sum(rows, w) <= Sum(rows', w')
  {
    if |rows| > 0 {
      var n := |rows| - 1;
      SumLe(rows[..n], w, rows'[..n], w');
      assert w(n, rows[n]) <= w'(n, rows'[n]);
    }
  }

  lemma SumEq<T, U>(rows: seq<T>, w: (nat, T) -> int, rows': seq<U>, w': (nat, U) -> int)
    requires |rows| == |rows'|
    requires forall k: nat | k < |rows| :: w(k, rows[k]) == w'(k, rows'[k])
    ensures Sum(rows, w) == Sum(rows', w')
  {
    SumLe(rows, w, rows', w');
    SumLe(rows', w', rows, w);
  }

  /** Changing one row changes the sum by the change in that row's weight. */
  lemma {:induction false} SumUpdate<T>(rows: seq<T>, i: nat, r: T, w: (nat, T) -> int)
    requires i < |rows|
    ensures Sum(rows[i := r], w) == Sum(rows, w) - w(i, rows[i]) + w(i, r)
  {
    var n := |rows| - 1;
    if i == n {
      assert rows[i := r][..n] == rows[..n];
    } else {
      SumUpdate(rows[..n], i, r, w);
      assert rows[i := r][..n] == rows[..n][i := r];
    }
  }

  /** Taking out a row that weighs nothing leaves the sum, for weights that ignore the position. */
  lemma {:induction false} SumWithout<T>(rows: seq<T>, i: nat, w: (nat, T) -> int)
    requires i < |rows|
    requires forall j: nat, k: nat, r :: w(j, r) == w(k, r)
    ensures Sum(rows[..i] + rows[i + 1..], w) == Sum(rows, w) - w(i, rows[i])
  {
    var n := |rows| - 1;
    if i == n {
      assert rows[..i] + rows[i + 1..] == rows[..n];
    } else {
      SumWithout(rows[..n], i, w);
      assert rows[..i] + rows[i + 1..] == (rows[..n][..i] + rows[..n][i + 1..]) + [rows[n]];
      SumAppend(rows[..n][..i] + rows[..n][i + 1..], rows[n], w);
      assert w(n - 1, rows[n]) == w(n, rows[n]);
    }
  }

  lemma {:induction false} SumNonNegative<T>(rows: seq<T>, w: (nat, T) -> int)
    requires forall k: nat | k < |rows| :: w(k, rows[k]) >= 0
    ensures Sum(rows, w) >= 0
  {
    if |rows| > 0 {
      SumNonNegative(rows[..|rows| - 1], w);
      assert w(|rows| - 1, rows[|rows| - 1]) >= 0;
    }
  }

  lemma {:induction false} SumZero<T>(rows: seq<T>, w: (nat, T) -> int)
    requires forall k: nat | k < |rows| :: w(k, rows[k]) == 0
    ensures Sum(rows, w) == 0
  {
    if |rows| > 0 {
      SumZero(rows[..|rows| - 1], w);
      assert w(|rows| - 1, rows[|rows| - 1]) == 0;
    }
  }

  /** A sum of whole satoshis is whole satoshis. */
  lemma {:induction false} SumWhole<T>(rows: seq<T>, w: (nat, T) -> int)
    requires forall k: nat | k < |rows| :: w(k, rows[k]) % 1000 == 0
    ensures Sum(rows, w) % 1000 == 0
  {
    if |rows| > 0 {
      SumWhole(rows[..|rows| - 1], w);
      assert w(|rows| - 1, rows[|rows| - 1]) % 1000 == 0;
    }
  }
}
