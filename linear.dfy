/**
 * The optimiser's bookkeeping around the solver: it builds the integer
 * programme from the table, rejects a budget that cannot pay for the minimum
 * units, hands the programme to the solver, and reconciles the solved units
 * with the table (per-SKU units and profit, total profit, spend and profit
 * against the baseline). The solver is a parameter of `Optimize`: any
 * function from problems to assignments.
 */
module Linear {
  import opened Table
  import opened LpModel

  /** The slack variable may absorb this fraction of the budget either way. */
  const ToleranceFraction: real := 0.001

  datatype Error = InsufficientBudget

  datatype Result<T> = Ok(value: T) | Err(error: Error)

  function Abs(x: real): real
  {
    if x < 0.0 then -x else x
  }

  // ---------------------------------------------------------------------
  // Spend

  /** `calculate_total_spent`: the spend of the baseline units, which is also
      the budget of the run. */
  function TotalSpent(rows: seq<Row>): real
  {
    Sum(Times(NoOfUnits(rows), Lp(rows)))
  }

  /** `calculate_new_spent`: the spend of the solved units. */
  function NewSpent(table: seq<ResultRow>): real
  {
    Sum(Times(OptimalUnits(table), Lp(Rows(table))))
  }

  /** The cost of buying every SKU's minimum units. */
  function MinUnitsCost(rows: seq<Row>): real
  {
    Sum(Times(MinUnits(rows), Lp(rows)))
  }

  /** The budget is non-negative when baseline units and unit costs are. */
  lemma BudgetNonNegative(rows: seq<Row>)
    requires forall i :: 0 <= i < |rows| ==> 0 <= rows[i].noOfUnits && 0.0 <= rows[i].lp
    ensures 0.0 <= TotalSpent(rows)
  {
    var xs := Times(NoOfUnits(rows), Lp(rows));
    forall i | 0 <= i < |xs| ensures 0.0 <= xs[i] {
      assert xs[i] == rows[i].noOfUnits as real * rows[i].lp;
    }
    SumNonNegative(xs);
  }

  // ---------------------------------------------------------------------
  // Decision variables

  /** A dictionary keyed by `sku_id` filled row by row, so that a later row
      with the same `sku_id` replaces the entry of an earlier one. */
  function ByLastRow<V>(rows: seq<Row>, f: Row -> V): map<SkuId, V>
  {
    if rows == [] then map[]
    else
      var r := rows[|rows| - 1];
      ByLastRow(rows[..|rows| - 1], f)[r.skuId := f(r)]
  }

  function RowBounds(r: Row): Bounds
  {
    Bounds(r.minUnits, r.maxUnits)
  }

  /** `unit_vars`: one integer variable per `sku_id`, bounded by its row's
      `min_units` and `max_units`. */
  function UnitVars(rows: seq<Row>): map<SkuId, Bounds>
  {
    ByLastRow(rows, RowBounds)
  }

  predicate DistinctSkus(rows: seq<Row>)
  {
    forall i, j :: 0 <= i < j < |rows| ==> rows[i].skuId != rows[j].skuId
  }

  /** The dictionary has exactly one entry per distinct `sku_id`. */
  lemma {:induction false} ByLastRowKeys<V>(rows: seq<Row>, f: Row -> V)
    ensures ByLastRow(rows, f).Keys == set i | 0 <= i < |rows| :: rows[i].skuId
  {
    if rows != [] {
      var n := |rows| - 1;
      ByLastRowKeys(rows[..n], f);
      var prefix := set i | 0 <= i < n :: rows[..n][i].skuId;
      var all := set i | 0 <= i < |rows| :: rows[i].skuId;
      assert all == prefix + {rows[n].skuId} by {
        forall s | s in all ensures s in prefix + {rows[n].skuId} {
          var i :| 0 <= i < |rows| && rows[i].skuId == s;
          if i < n {
            assert rows[..n][i].skuId == s;
          }
        }
        forall s | s in prefix ensures s in all {
          var i :| 0 <= i < n && rows[..n][i].skuId == s;
          assert rows[i].skuId == s;
        }
      }
    }
  }

  /** The entry of a `sku_id` comes from the last row that carries it. */
  lemma {:induction false} ByLastRowLastWins<V>(rows: seq<Row>, f: Row -> V, i: int)
    requires 0 <= i < |rows|
    requires forall j :: i < j < |rows| ==> rows[j].skuId != rows[i].skuId
    ensures rows[i].skuId in ByLastRow(rows, f)
    ensures ByLastRow(rows, f)[rows[i].skuId] == f(rows[i])
  {
    var n := |rows| - 1;
    if i < n {
      ByLastRowLastWins(rows[..n], f, i);
    }
  }

  /** With distinct `sku_id`s there are as many variables as rows. */
  lemma {:induction false} DistinctSkusOneVariablePerRow(rows: seq<Row>)
    requires DistinctSkus(rows)
    ensures |UnitVars(rows)| == |rows|
  {
    if rows != [] {
      var n := |rows| - 1;
      var prev := UnitVars(rows[..n]);
      DistinctSkusOneVariablePerRow(rows[..n]);
      ByLastRowKeys(rows[..n], RowBounds);
      assert rows[n].skuId !in prev;
      assert UnitVars(rows).Keys == prev.Keys + {rows[n].skuId};
    }
  }

  // ---------------------------------------------------------------------
  // The problem

  /** The maximised objective: profit per unit times units, over the rows. */
  function ObjectiveTerms(rows: seq<Row>): seq<Term>
  {
    UnitTerms(ProfitPerQuantity(rows), SkuIds(rows))
  }

  /** `Σ lp * units + slack == budget`. */
  function BudgetConstraint(rows: seq<Row>): Constraint
  {
    Constraint(UnitTerms(Lp(rows), SkuIds(rows)) + [Term(1.0, Slack)], Eq, TotalSpent(rows))
  }

  function AtLeastMin(r: Row): Constraint
  {
    Constraint([Term(1.0, Units(r.skuId))], Ge, r.minUnits as real)
  }

  function AtMostMax(r: Row): Constraint
  {
    Constraint([Term(1.0, Units(r.skuId))], Le, r.maxUnits as real)
  }

  /** The two bound constraints appended for each row, in row order. */
  function BoundConstraints(rows: seq<Row>): seq<Constraint>
  {
    if rows == [] then []
    else
      var r := rows[|rows| - 1];
      BoundConstraints(rows[..|rows| - 1]) + [AtLeastMin(r), AtMostMax(r)]
  }

  /** The problem the program hands to the solver. */
  function ProblemOf(rows: seq<Row>): Problem
  {
    var budget := TotalSpent(rows);
    Problem(
      UnitVars(rows),
      -(ToleranceFraction * budget),
      ToleranceFraction * budget,
      ObjectiveTerms(rows),
      [BudgetConstraint(rows)] + BoundConstraints(rows))
  }

  /** Row `i` contributes constraints `2i` (at least its minimum) and `2i+1`
      (at most its maximum), and nothing else. */
  lemma {:induction false} BoundConstraintsShape(rows: seq<Row>)
    ensures |BoundConstraints(rows)| == 2 * |rows|
    ensures forall i :: 0 <= i < |rows| ==>
      BoundConstraints(rows)[2 * i] == AtLeastMin(rows[i]) &&
      BoundConstraints(rows)[2 * i + 1] == AtMostMax(rows[i])
  {
    if rows != [] {
      var n := |rows| - 1;
      BoundConstraintsShape(rows[..n]);
      forall i | 0 <= i < n
        ensures BoundConstraints(rows)[2 * i] == AtLeastMin(rows[i])
        ensures BoundConstraints(rows)[2 * i + 1] == AtMostMax(rows[i])
      {
        assert rows[..n][i] == rows[i];
      }
    }
  }

  /** Builds the problem: the unit variables row by row, the objective, the
      budget constraint with its slack, then two bound constraints per row. */
  method BuildProblem(rows: seq<Row>) returns (p: Problem)
    ensures p == ProblemOf(rows)
    ensures |p.constraints| == 1 + 2 * |rows|
    ensures p.slackLo == -p.slackHi && p.slackHi == ToleranceFraction * TotalSpent(rows)
    ensures p.unitVars.Keys == set i | 0 <= i < |rows| :: rows[i].skuId
  {
    var unitVars: map<SkuId, Bounds> := map[];
    var i := 0;
    while i < |rows|
      invariant 0 <= i <= |rows|
      invariant unitVars == UnitVars(rows[..i])
    {
      assert rows[..i + 1][..i] == rows[..i];
      unitVars := unitVars[rows[i].skuId := RowBounds(rows[i])];
      i := i + 1;
    }
    assert rows[..|rows|] == rows;
    var objective := ObjectiveTerms(rows);
    var budget := TotalSpent(rows);
    var toleranceLimit := ToleranceFraction * budget;
    var constraints := [Constraint(UnitTerms(Lp(rows), SkuIds(rows)) + [Term(1.0, Slack)], Eq, budget)];
    i := 0;
    while i < |rows|
      invariant 0 <= i <= |rows|
      invariant constraints == [BudgetConstraint(rows)] + BoundConstraints(rows[..i])
    {
      assert rows[..i + 1][..i] == rows[..i];
      constraints := constraints + [AtLeastMin(rows[i])];
      constraints := constraints + [AtMostMax(rows[i])];
      i := i + 1;
    }
    p := Problem(unitVars, -toleranceLimit, toleranceLimit, objective, constraints);
    BoundConstraintsShape(rows);
    ByLastRowKeys(rows, RowBounds);
  }

  /** An admissible assignment keeps every row's variable within that row's
      `min_units` and `max_units`, also when a `sku_id` repeats. */
  lemma SatisfiesKeepsRowBounds(rows: seq<Row>, a: Assignment)
    requires Satisfies(ProblemOf(rows), a)
    ensures forall i :: 0 <= i < |rows| ==>
      rows[i].minUnits <= a.units(rows[i].skuId) <= rows[i].maxUnits
  {
    var p := ProblemOf(rows);
    BoundConstraintsShape(rows);
    forall i | 0 <= i < |rows|
      ensures rows[i].minUnits <= a.units(rows[i].skuId) <= rows[i].maxUnits
    {
      assert p.constraints[1 + 2 * i] == AtLeastMin(rows[i]);
      assert p.constraints[2 + 2 * i] == AtMostMax(rows[i]);
      assert Holds(p.constraints[1 + 2 * i], a) && Holds(p.constraints[2 + 2 * i], a);
      EvalSingleUnit(rows[i].skuId, a);
    }
  }

  /** The spend of the assigned units. */
  function AssignedSpend(rows: seq<Row>, a: Assignment): real
  {
    Sum(Times(Assigned(SkuIds(rows), a), Lp(rows)))
  }

  /** The budget constraint evaluates to the assigned spend plus the slack. */
  lemma EvalBudgetConstraint(rows: seq<Row>, a: Assignment)
    ensures Eval(BudgetConstraint(rows).lhs, a) == AssignedSpend(rows, a) + a.slack
  {
    EvalAppend(UnitTerms(Lp(rows), SkuIds(rows)), Term(1.0, Slack), a);
    EvalUnitTerms(Lp(rows), SkuIds(rows), a);
  }

  /** An admissible assignment spends the budget up to the tolerance of
      0.1% of the budget, either way. */
  lemma SatisfiesWithinTolerance(rows: seq<Row>, a: Assignment)
    requires Satisfies(ProblemOf(rows), a)
    ensures Abs(AssignedSpend(rows, a) - TotalSpent(rows)) <= ToleranceFraction * TotalSpent(rows)
  {
    var p := ProblemOf(rows);
    assert Holds(p.constraints[0], a);
    EvalBudgetConstraint(rows, a);
  }

  /** Every variable at its row's baseline units, the slack at zero. */
  function BaselineAssignment(rows: seq<Row>): Assignment
  {
    var m := ByLastRow(rows, (r: Row) => r.noOfUnits);
    Assignment(s => if s in m then m[s] else 0, 0.0)
  }

  /** With distinct `sku_id`s the baseline units meet the budget equality with
      zero slack, and zero slack lies within its bounds when the budget is
      non-negative. */
  lemma BaselineMeetsBudget(rows: seq<Row>)
    requires DistinctSkus(rows)
    ensures Holds(BudgetConstraint(rows), BaselineAssignment(rows))
    ensures 0.0 <= TotalSpent(rows) ==>
      ProblemOf(rows).slackLo <= BaselineAssignment(rows).slack <= ProblemOf(rows).slackHi
  {
    var a := BaselineAssignment(rows);
    forall i | 0 <= i < |rows| ensures a.units(rows[i].skuId) == rows[i].noOfUnits {
      ByLastRowLastWins(rows, (r: Row) => r.noOfUnits, i);
    }
    assert Assigned(SkuIds(rows), a) == NoOfUnits(rows);
    EvalBudgetConstraint(rows, a);
  }

  // ---------------------------------------------------------------------
  // Pre-solve check

  /** The run is rejected when the minimum units cost more than the budget. */
  predicate BudgetInsufficient(rows: seq<Row>)
  {
    MinUnitsCost(rows) > TotalSpent(rows)
  }

  /** With non-negative costs, an admissible assignment exists only if the
      minimum units cost at most the budget plus the tolerance. */
  lemma FeasibleCoversMinUnitsCost(rows: seq<Row>, a: Assignment)
    requires forall i :: 0 <= i < |rows| ==> 0.0 <= rows[i].lp
    requires Satisfies(ProblemOf(rows), a)
    ensures MinUnitsCost(rows) <= TotalSpent(rows) + ToleranceFraction * TotalSpent(rows)
  {
    SatisfiesKeepsRowBounds(rows, a);
    SatisfiesWithinTolerance(rows, a);
    var lo, hi := Times(MinUnits(rows), Lp(rows)), Times(Assigned(SkuIds(rows), a), Lp(rows));
    forall i | 0 <= i < |rows| ensures lo[i] <= hi[i] {
      var d := (a.units(rows[i].skuId) - rows[i].minUnits) as real;
      assert 0.0 <= d * rows[i].lp;
      assert hi[i] - lo[i] == d * rows[i].lp;
    }
    SumMonotone(lo, hi);
  }

  /** With non-negative costs, a table whose baseline lies above every
      minimum always passes the check. */
  lemma BaselineAboveMinimumPassesCheck(rows: seq<Row>)
    requires forall i :: 0 <= i < |rows| ==> 0.0 <= rows[i].lp && rows[i].minUnits <= rows[i].noOfUnits
    ensures !BudgetInsufficient(rows)
  {
    var lo, hi := Times(MinUnits(rows), Lp(rows)), Times(NoOfUnits(rows), Lp(rows));
    forall i | 0 <= i < |rows| ensures lo[i] <= hi[i] {
      var d := (rows[i].noOfUnits - rows[i].minUnits) as real;
      assert 0.0 <= d * rows[i].lp;
      assert hi[i] - lo[i] == d * rows[i].lp;
    }
    SumMonotone(lo, hi);
  }

  /** The check is stricter than the problem: a single row with baseline
      1000, cost 1 and minimum and maximum 1001 is rejected, although 1001
      units with slack -1 satisfy every constraint. */
  lemma CheckRejectsAdmissibleRun()
    ensures var rows := [Row("sku", 1000, 0.0, 1.0, 1001, 1001)];
      BudgetInsufficient(rows) && Satisfies(ProblemOf(rows), Assignment(s => 1001, -1.0))
  {
    var r := Row("sku", 1000, 0.0, 1.0, 1001, 1001);
    var rows := [r];
    var a := Assignment(s => 1001, -1.0);
    assert TotalSpent(rows) == 1000.0 by {
      assert Times(NoOfUnits(rows), Lp(rows)) == [1000.0];
    }
    assert MinUnitsCost(rows) == 1001.0 by {
      assert Times(MinUnits(rows), Lp(rows)) == [1001.0];
    }
    var p := ProblemOf(rows);
    assert Holds(p.constraints[0], a) by {
      EvalBudgetConstraint(rows, a);
      assert Times(Assigned(SkuIds(rows), a), Lp(rows)) == [1001.0];
    }
    BoundConstraintsShape(rows);
    EvalSingleUnit("sku", a);
    assert p.constraints == [p.constraints[0], AtLeastMin(r), AtMostMax(r)];
    ByLastRowKeys(rows, RowBounds);
    ByLastRowLastWins(rows, RowBounds, 0);
    assert UnitVars(rows).Keys == {"sku"};
  }

  // ---------------------------------------------------------------------
  // Reconciliation

  /** `optimal_units`: the solved value of every variable in `unit_vars`. */
  function ExtractSolution(unitVars: map<SkuId, Bounds>, a: Assignment): map<SkuId, int>
  {
    map s | s in unitVars :: a.units(s)
  }

  /** `optimal_units.get(sku, 0)`. */
  function OptimalUnitsOf(optimalUnits: map<SkuId, int>, sku: SkuId): int
  {
    if sku in optimalUnits then optimalUnits[sku] else 0
  }

  /** The table with `Optimal_Units` and `Optimal_Profit_Per_SKU` added. */
  function ResultTable(rows: seq<Row>, optimalUnits: map<SkuId, int>): seq<ResultRow>
  {
    seq(|rows|, i requires 0 <= i < |rows| =>
      var u := OptimalUnitsOf(optimalUnits, rows[i].skuId);
      ResultRow(rows[i], u, rows[i].profitPerQuantity * u as real))
  }

  /** Adds the two result columns row by row; the input columns stay as
      they are. */
  method AddResultColumns(rows: seq<Row>, optimalUnits: map<SkuId, int>) returns (table: seq<ResultRow>)
    ensures table == ResultTable(rows, optimalUnits)
    ensures Rows(table) == rows
    ensures forall i :: 0 <= i < |rows| ==>
      table[i].optimalUnits == (if rows[i].skuId in optimalUnits then optimalUnits[rows[i].skuId] else 0) &&
      table[i].optimalProfitPerSku == rows[i].profitPerQuantity * table[i].optimalUnits as real
  {
    table := [];
    var i := 0;
    while i < |rows|
      invariant 0 <= i <= |rows|
      invariant |table| == i
      invariant forall k :: 0 <= k < i ==> table[k] == ResultTable(rows, optimalUnits)[k]
    {
      var u := OptimalUnitsOf(optimalUnits, rows[i].skuId);
      table := table + [ResultRow(rows[i], u, rows[i].profitPerQuantity * u as real)];
      i := i + 1;
    }
  }

  /** The solution has a value for every row's `sku_id`, so the default 0 of
      the lookup is never taken and each row reads its variable's value. */
  lemma ExtractSolutionCoversRows(rows: seq<Row>, a: Assignment)
    ensures forall i :: 0 <= i < |rows| ==>
      rows[i].skuId in ExtractSolution(UnitVars(rows), a) &&
      OptimalUnitsOf(ExtractSolution(UnitVars(rows), a), rows[i].skuId) == a.units(rows[i].skuId)
  {
    ByLastRowKeys(rows, RowBounds);
    forall i | 0 <= i < |rows| ensures rows[i].skuId in UnitVars(rows) {
    }
  }

  /** An admissible solution puts every row's `Optimal_Units` within the
      row's bounds. */
  lemma ReconciledWithinBounds(rows: seq<Row>, a: Assignment)
    requires Satisfies(ProblemOf(rows), a)
    ensures forall i :: 0 <= i < |rows| ==>
      rows[i].minUnits <= ResultTable(rows, ExtractSolution(UnitVars(rows), a))[i].optimalUnits <= rows[i].maxUnits
  {
    SatisfiesKeepsRowBounds(rows, a);
    ExtractSolutionCoversRows(rows, a);
  }

  /** The total profit: profit per unit times solved units, over the rows.
      Every row's `sku_id` must have a solved value. */
  function TotalProfit(rows: seq<Row>, optimalUnits: map<SkuId, int>): real
    requires forall i :: 0 <= i < |rows| ==> rows[i].skuId in optimalUnits
  {
    Sum(Times(seq(|rows|, i requires 0 <= i < |rows| => optimalUnits[rows[i].skuId]), ProfitPerQuantity(rows)))
  }

  /** The total profit is the solver's objective value at its solution. */
  lemma TotalProfitIsObjective(rows: seq<Row>, a: Assignment)
    ensures forall i :: 0 <= i < |rows| ==> rows[i].skuId in ExtractSolution(UnitVars(rows), a)
    ensures TotalProfit(rows, ExtractSolution(UnitVars(rows), a)) == Eval(ObjectiveTerms(rows), a)
  {
    var m := ExtractSolution(UnitVars(rows), a);
    ExtractSolutionCoversRows(rows, a);
    EvalUnitTerms(ProfitPerQuantity(rows), SkuIds(rows), a);
    assert seq(|rows|, i requires 0 <= i < |rows| => m[rows[i].skuId]) == Assigned(SkuIds(rows), a);
  }

  /** The total profit is the sum of the `Optimal_Profit_Per_SKU` column. */
  lemma TotalProfitIsColumnSum(rows: seq<Row>, optimalUnits: map<SkuId, int>)
    requires forall i :: 0 <= i < |rows| ==> rows[i].skuId in optimalUnits
    ensures TotalProfit(rows, optimalUnits) == Sum(OptimalProfitPerSku(ResultTable(rows, optimalUnits)))
  {
    var col := OptimalProfitPerSku(ResultTable(rows, optimalUnits));
    var units := seq(|rows|, i requires 0 <= i < |rows| => optimalUnits[rows[i].skuId]);
    forall i | 0 <= i < |rows| ensures col[i] == Times(units, ProfitPerQuantity(rows))[i] {
      assert col[i] == rows[i].profitPerQuantity * units[i] as real;
    }
    assert col == Times(units, ProfitPerQuantity(rows));
  }

  /** "budget left": new spend minus baseline spend, which is the spend of the
      change in units. */
  function BudgetLeft(table: seq<ResultRow>): (left: real)
    ensures left == Sum(Times(Minus(OptimalUnits(table), NoOfUnits(Rows(table))), Lp(Rows(table))))
  {
    TimesDifference(OptimalUnits(table), NoOfUnits(Rows(table)), Lp(Rows(table)));
    NewSpent(table) - TotalSpent(Rows(table))
  }

  /** The profit gained over the baseline, which is the profit of the change
      in units. */
  function ProfitGained(table: seq<ResultRow>): (gained: real)
    ensures gained == Sum(Times(Minus(OptimalUnits(table), NoOfUnits(Rows(table))), ProfitPerQuantity(Rows(table))))
  {
    var profit := ProfitPerQuantity(Rows(table));
    TimesDifference(OptimalUnits(table), NoOfUnits(Rows(table)), profit);
    Sum(Times(OptimalUnits(table), profit)) - Sum(Times(NoOfUnits(Rows(table)), profit))
  }

  /** When the solved units equal the baseline, nothing is spent or gained. */
  lemma DeltasZeroAtBaseline(table: seq<ResultRow>)
    requires forall i :: 0 <= i < |table| ==> table[i].optimalUnits == table[i].row.noOfUnits
    ensures BudgetLeft(table) == 0.0
    ensures ProfitGained(table) == 0.0
  {
    var rows := Rows(table);
    var delta := Minus(OptimalUnits(table), NoOfUnits(rows));
    assert forall i :: 0 <= i < |delta| ==> delta[i] == 0;
    SumZero(Times(delta, Lp(rows)));
    SumZero(Times(delta, ProfitPerQuantity(rows)));
  }

  /** For an admissible solution, the reconciled "budget left" stays within
      the tolerance of 0.1% of the budget either way. */
  lemma BudgetLeftWithinTolerance(rows: seq<Row>, a: Assignment)
    requires Satisfies(ProblemOf(rows), a)
    ensures Abs(BudgetLeft(ResultTable(rows, ExtractSolution(UnitVars(rows), a)))) <= ToleranceFraction * TotalSpent(rows)
  {
    var t := ResultTable(rows, ExtractSolution(UnitVars(rows), a));
    ExtractSolutionCoversRows(rows, a);
    assert Rows(t) == rows;
    assert OptimalUnits(t) == Assigned(SkuIds(rows), a);
    SatisfiesWithinTolerance(rows, a);
  }

  // ---------------------------------------------------------------------
  // The run

  /** What a run computes: the problem, the budget, the solved units, the
      table with its result columns, the total profit, the "budget left" and
      the profit gained. */
  datatype Report = Report(
    problem: Problem,
    budget: real,
    optimalUnits: map<SkuId, int>,
    table: seq<ResultRow>,
    optimalTotalProfit: real,
    budgetLeft: real,
    profitGained: real)

  /** One run of the optimiser with `solve` standing for the solver. The run
      fails exactly when the minimum units cost more than the budget, and then
      without consulting the solver; otherwise it reconciles the solver's
      assignment with the table. */
  method Optimize(rows: seq<Row>, solve: Problem -> Assignment) returns (r: Result<Report>)
    ensures r.Err? <==> BudgetInsufficient(rows)
    ensures r.Err? ==> r.error == InsufficientBudget
    ensures r.Ok? ==>
      var p := ProblemOf(rows);
      var m := ExtractSolution(p.unitVars, solve(p));
      && r.value.problem == p
      && r.value.budget == TotalSpent(rows)
      && r.value.optimalUnits == m
      && r.value.table == ResultTable(rows, m)
      && r.value.optimalTotalProfit == Eval(p.objective, solve(p))
      && r.value.optimalTotalProfit == Sum(OptimalProfitPerSku(r.value.table))
      && r.value.budgetLeft == Sum(Times(Minus(OptimalUnits(r.value.table), NoOfUnits(rows)), Lp(rows)))
      && r.value.profitGained == Sum(Times(Minus(OptimalUnits(r.value.table), NoOfUnits(rows)), ProfitPerQuantity(rows)))
    ensures r.Ok? && Satisfies(r.value.problem, solve(r.value.problem)) ==>
      && (forall i :: 0 <= i < |rows| ==> rows[i].minUnits <= r.value.table[i].optimalUnits <= rows[i].maxUnits)
      && Abs(r.value.budgetLeft) <= ToleranceFraction * r.value.budget
  {
    var problem := BuildProblem(rows);
    var budget := TotalSpent(rows);
    var minUnitsCost := MinUnitsCost(rows);
    if minUnitsCost > budget {
      return Err(InsufficientBudget);
    }
    var a := solve(problem);
    var optimalUnits := ExtractSolution(problem.unitVars, a);
    var table := AddResultColumns(rows, optimalUnits);
    TotalProfitIsObjective(rows, a);
    TotalProfitIsColumnSum(rows, optimalUnits);
    var optimalTotalProfit := TotalProfit(rows, optimalUnits);
    if Satisfies(problem, a) {
      ReconciledWithinBounds(rows, a);
      BudgetLeftWithinTolerance(rows, a);
    }
    r := Ok(Report(problem, budget, optimalUnits, table, optimalTotalProfit, BudgetLeft(table), ProfitGained(table)));
  }
}
