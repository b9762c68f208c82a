/**
 * The input table of the optimiser, one record per row, and the column
 * arithmetic that the program applies to it: an element-wise product of two
 * columns followed by `.sum()`. Money is an exact `real`; unit counts are
 * integers.
 */
module Table {

  type SkuId = string

  /** One input row: a SKU, its baseline units, profit per unit, cost per unit
      (`lp`) and the bounds on the units the optimiser may allocate. */
  datatype Row = Row(
    skuId: SkuId,
    noOfUnits: int,
    profitPerQuantity: real,
    lp: real,
    minUnits: int,
    maxUnits: int)

  /** A row after the result columns `Optimal_Units` and
      `Optimal_Profit_Per_SKU` have been added to it. */
  datatype ResultRow = ResultRow(row: Row, optimalUnits: int, optimalProfitPerSku: real)

  /** The sum of a column, adding the last element last. */
  function Sum(xs: seq<real>): real
  {
    if xs == [] then 0.0 else Sum(xs[..|xs| - 1]) + xs[|xs| - 1]
  }

  /** Element-wise product of a unit column and a money column. */
  function Times(units: seq<int>, weights: seq<real>): seq<real>
    requires |units| == |weights|
  {
    seq(|units|, i requires 0 <= i < |units| => units[i] as real * weights[i])
  }

  /** Element-wise difference of two unit columns. */
  function Minus(a: seq<int>, b: seq<int>): seq<int>
    requires |a| == |b|
  {
    seq(|a|, i requires 0 <= i < |a| => a[i] - b[i])
  }

  // Columns of the input table.

  function SkuIds(rows: seq<Row>): seq<SkuId>
  {
    seq(|rows|, i requires 0 <= i < |rows| => rows[i].skuId)
  }

  function NoOfUnits(rows: seq<Row>): seq<int>
  {
    seq(|rows|, i requires 0 <= i < |rows| => rows[i].noOfUnits)
  }

  function MinUnits(rows: seq<Row>): seq<int>
  {
    seq(|rows|, i requires 0 <= i < |rows| => rows[i].minUnits)
  }

  function Lp(rows: seq<Row>): seq<real>
  {
    seq(|rows|, i requires 0 <= i < |rows| => rows[i].lp)
  }

  function ProfitPerQuantity(rows: seq<Row>): seq<real>
  {
    seq(|rows|, i requires 0 <= i < |rows| => rows[i].profitPerQuantity)
  }

  // Columns of the result table.

  function Rows(table: seq<ResultRow>): seq<Row>
  {
    seq(|table|, i requires 0 <= i < |table| => table[i].row)
  }

  function OptimalUnits(table: seq<ResultRow>): seq<int>
  {
    seq(|table|, i requires 0 <= i < |table| => table[i].optimalUnits)
  }

  function OptimalProfitPerSku(table: seq<ResultRow>): seq<real>
  {
    seq(|table|, i requires 0 <= i < |table| => table[i].optimalProfitPerSku)
  }

  /** Taking a prefix commutes with the element-wise product. */
  lemma TimesPrefix(units: seq<int>, weights: seq<real>, n: nat)
    requires |units| == |weights| && n <= |units|
    ensures Times(units, weights)[..n] == Times(units[..n], weights[..n])
  {
    var l, r := Times(units, weights)[..n], Times(units[..n], weights[..n]);
    assert |l| == |r|;
    forall i | 0 <= i < n ensures l[i] == r[i] {
    }
  }

  /** A column of non-negative values has a non-negative sum. */
  lemma {:induction false} SumNonNegative(xs: seq<real>)
    requires forall i :: 0 <= i < |xs| ==> 0.0 <= xs[i]
    ensures 0.0 <= Sum(xs)
  {
    if xs != [] {
      SumNonNegative(xs[..|xs| - 1]);
    }
  }

  /** Summing is monotone in every element. */
  lemma {:induction false} SumMonotone(xs: seq<real>, ys: seq<real>)
    requires |xs| == |ys|
    requires forall i :: 0 <= i < |xs| ==> xs[i] <= ys[i]
    ensures Sum(xs) <= Sum(ys)
  {
    if xs != [] {
      SumMonotone(xs[..|xs| - 1], ys[..|ys| - 1]);
    }
  }

  /** The difference of two sums is the sum of the element-wise differences. */
  lemma {:induction false} SumDifference(xs: seq<real>, ys: seq<real>)
    requires |xs| == |ys|
    ensures Sum(xs) - Sum(ys) == Sum(seq(|xs|, i requires 0 <= i < |xs| => xs[i] - ys[i]))
  {
    var d := seq(|xs|, i requires 0 <= i < |xs| => xs[i] - ys[i]);
    if xs != [] {
      var n := |xs| - 1;
      SumDifference(xs[..n], ys[..n]);
      assert d[..n] == seq(n, i requires 0 <= i < n => xs[..n][i] - ys[..n][i]);
    }
  }

  /** Two spends with the same cost column differ by the spend of the
      difference of their unit columns. */
  lemma TimesDifference(a: seq<int>, b: seq<int>, w: seq<real>)
    requires |a| == |b| == |w|
    ensures Sum(Times(a, w)) - Sum(Times(b, w)) == Sum(Times(Minus(a, b), w))
  {
    var xs, ys := Times(a, w), Times(b, w);
    SumDifference(xs, ys);
    var d := seq(|xs|, i requires 0 <= i < |xs| => xs[i] - ys[i]);
    forall i | 0 <= i < |a|
      ensures d[i] == Times(Minus(a, b), w)[i]
    {
      assert (a[i] - b[i]) as real * w[i] == a[i] as real * w[i] - b[i] as real * w[i];
    }
    assert d == Times(Minus(a, b), w);
  }

  /** A column of zeros sums to zero. */
  lemma {:induction false} SumZero(xs: seq<real>)
    requires forall i :: 0 <= i < |xs| ==> xs[i] == 0.0
    ensures Sum(xs) == 0.0
  {
    if xs != [] {
      SumZero(xs[..|xs| - 1]);
    }
  }
}
