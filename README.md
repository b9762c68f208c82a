# Budget allocation optimiser: problem construction and reconciliation

This project models the bookkeeping the profit optimiser in `linear.py` performs around its
integer-programming solver. The model is written in Dafny.

The program works in four stages:

- It reads a table with one row per input record; a `sku_id` may repeat. Each row has a `sku_id`, baseline `no_of_units`,
  `profit_per_quantity`, unit cost `lp`, `min_units` and `max_units`.
- It builds an integer programme that maximises profit. The budget is the baseline spend.
  A slack variable is allowed to absorb up to 0.1% of the budget either way.
- It rejects the run before solving when the minimum units cost more than the budget.
- After the solve, it adds `Optimal_Units` and `Optimal_Profit_Per_SKU` to the table and
  prints the change in spend ("budget left") and the profit gained over the baseline. It also
  computes the total profit (`linear.py:57`) but never outputs it; the model returns it so that
  contracts can speak about it.

The model has three modules:

- `Table` (`table.dfy`) holds the rows, the result rows and the column arithmetic.
  A pandas `(df[a] * df[b]).sum()` becomes `Sum(Times(A(rows), B(rows)))`.
- `LpModel` (`lp_model.dfy`) writes the integer programme out as data: unit variables keyed
  by SKU with integer bounds, the slack bounds, the objective terms and the constraints in
  the order they are added. `Satisfies(problem, assignment)` says when an assignment is
  admissible.
- `Linear` (`linear.dfy`) holds the rest:
  - the two spend functions, `calculate_total_spent` and `calculate_new_spent`;
  - `BuildProblem`, a method that fills `unit_vars` and appends the constraints row by row.
    It is proved equal to the specification function `ProblemOf`;
  - the pre-solve budget check;
  - `AddResultColumns`, a method that fills the two result columns;
  - `Optimize`, the whole of `main`.

The solver is the parameter `solve: Problem -> Assignment` of `Optimize`. It may return any
assignment. Nothing here assumes the assignment is optimal, or even admissible: properties that
need admissibility take `Satisfies(...)` as a hypothesis. Money values are exact `real`s and
unit counts are `int`s.

Facts about `linear.py` that the model follows:

- The budget is not an input. It is the baseline spend `Σ no_of_units * lp`
  (`linear.py:26`).
- There is only the tolerance-equality budget mode (`Σ lp * units + slack == budget`). There is
  no inequality mode.
- The tolerance is `0.001 * budget`. The comment at `linear.py:25` says 10%.
- The statement under the "Objective Function" comment at `linear.py:33-34` is a constraint
  (it is an `==`), not a second objective. The objective stays the profit sum of
  `linear.py:23`.
- `sku_id`s are not required to be unique. A repeated `sku_id` keeps the last row's variable
  and bounds in `unit_vars`. Every row still adds its own two bound constraints on that shared
  variable, and its own terms to the objective and the budget expression.
- Bounds are read from the table as they are. This file has no bound-derivation step.
- "budget left" is the new spend minus the baseline spend (`linear.py:61`). It is positive when
  the solution spends more than the baseline.

## Model

| member | source | states |
|---|---|---|
| `Linear.BudgetNonNegative` | linear.py:66-67 | the budget `Σ no_of_units * lp` is non-negative when every baseline unit count and unit cost is |
| `Linear.ByLastRowKeys` | linear.py:18-21 | the `unit_vars` dictionary has exactly one key per distinct `sku_id` of the table, and no other key |
| `Linear.ByLastRowLastWins` | linear.py:18-21 | a `sku_id`'s entry comes from the last row carrying that `sku_id`, so a later row replaces an earlier one's variable and bounds |
| `Linear.DistinctSkusOneVariablePerRow` | linear.py:18-21 | with pairwise distinct `sku_id`s there are exactly as many decision variables as rows |
| `Linear.BoundConstraintsShape` | linear.py:37-39 | the loop appends exactly two constraints per row, in row order: `units >= min_units` at position `2i`, then `units <= max_units` at `2i+1` |
| `Linear.BuildProblem` | linear.py:18-39 | the problem built step by step equals `ProblemOf(rows)`: the variables of `unit_vars`, slack bounds `[-0.001*budget, 0.001*budget]`, the profit objective, the budget equality first and then `2 * |rows|` bound constraints, `1 + 2*|rows|` constraints in all, and one variable per distinct `sku_id` |
| `Linear.SatisfiesKeepsRowBounds` | linear.py:37-39 | an assignment admissible for the problem keeps each row's variable within that row's `min_units` and `max_units`, also for a `sku_id` that repeats |
| `Linear.EvalBudgetConstraint` | linear.py:34 | the budget constraint's left side is the spend of the assigned units plus the slack |
| `Linear.SatisfiesWithinTolerance` | linear.py:26-34 | an admissible assignment has `abs(Σ lp * units - budget) <= 0.001 * budget` |
| `Linear.BaselineMeetsBudget` | linear.py:26-34 | with distinct `sku_id`s the baseline units with zero slack meet the budget equality, and zero slack lies within the slack bounds whenever the budget is non-negative |
| `Linear.FeasibleCoversMinUnitsCost` | linear.py:41-43 | with non-negative costs, a table whose minimum units cost more than 1.001 × the budget has no admissible assignment |
| `Linear.CheckRejectsAdmissibleRun` | linear.py:41-43 | the converse fails: one row with baseline 1000, `lp` 1 and `min_units = max_units = 1001` is rejected by the check, yet 1001 units with slack −1 satisfy every constraint of the problem |
| `Linear.BaselineAboveMinimumPassesCheck` | linear.py:41-43 | with non-negative costs and every baseline at or above its minimum, the insufficient-budget error is never raised |
| `Linear.ExtractSolutionCoversRows` | linear.py:52-54 | `optimal_units` has a value for every row's `sku_id`, so the lookup's default 0 is never taken and each row reads its own variable's solved value |
| `Linear.AddResultColumns` | linear.py:54-55 | each row's `Optimal_Units` is the solved value when its `sku_id` is in `optimal_units` and 0 otherwise, each row's `Optimal_Profit_Per_SKU` is `profit_per_quantity * Optimal_Units`, and the input columns are unchanged |
| `Linear.ReconciledWithinBounds` | linear.py:52-55 | when the solver's assignment is admissible, every row's `Optimal_Units` lies between the row's `min_units` and `max_units` |
| `Linear.TotalProfitIsObjective` | linear.py:57 | the total profit computed at linear.py:57 (never output) equals the value of the maximised objective at the solver's assignment |
| `Linear.TotalProfitIsColumnSum` | linear.py:55-57 | the total profit equals the sum of the `Optimal_Profit_Per_SKU` column |
| `Linear.BudgetLeft` | linear.py:61-70 | "budget left", `calculate_new_spent` minus `calculate_total_spent`, equals `Σ lp * (Optimal_Units - no_of_units)` |
| `Linear.ProfitGained` | linear.py:62 | the profit gained over the baseline equals `Σ profit_per_quantity * (Optimal_Units - no_of_units)` |
| `Linear.BudgetLeftWithinTolerance` | linear.py:28-34 | for an admissible solver assignment, the reconciled "budget left" is at most 0.001 × the budget in absolute value |
| `Linear.DeltasZeroAtBaseline` | linear.py:61-62 | when every row's solved units equal its baseline units, both "budget left" and the profit gained are 0 |
| `Linear.Optimize` | linear.py:18-62 | the run fails with the insufficient-budget error exactly when `Σ min_units * lp > budget`; otherwise the returned `Report` holds the built problem, the budget, the solved units, the result table, a total profit equal to both the objective value and the column sum, the two deltas as sums of differences, and, for an admissible assignment, per-row units within bounds and a "budget left" within the 0.1% tolerance |

## Left out

- The CBC solve (`linear.py:49`) is an arbitrary function from problems to assignments. Its
  one-second time limit and whether its answer is optimal are not modelled.
- The solver status (`linear.py:63`, `pulp.LpStatus`) is a library lookup and is not modelled.
  A run whose status is infeasible or not solved is reconciled like any other, as the program
  does.
- A variable for which the solver reports no value (`var.value()` returning `None`) is not
  modelled. The solver's assignment gives every unit variable an integer.
- CSV reading and writing (`linear.py:13`, `linear.py:60`), the timestamped output file name
  (`linear.py:58-59`) and every `print` are I/O. They are not modelled.
- Floating-point rounding of the pandas columns is not modelled. Money is an exact `real`.
- `no_of_units`, `min_units` and `max_units` are taken to be whole numbers (`int`), though
  pandas may read them as floats. With a fractional `min_units` or `max_units`, the program's
  integer variable would range over `ceil(min_units)..floor(max_units)`, while the check at
  `linear.py:41-42` still prices the fractional `min_units`. The model cannot express either
  effect.
- The problem's name, PuLP's variable names (`units_<sku_id>`, `slack`) and PuLP's automatic
  constraint names are not modelled. The objective sense, maximise, is recorded only in
  comments.
- Python raises `KeyError` at `linear.py:57` when a row's `sku_id` has no solved value.
  `TotalProfit` instead requires that every row's `sku_id` has a value. `optimal_units` is
  built from `unit_vars`, so this always holds in the program (`ExtractSolutionCoversRows`).
- Properties about the optimum are not modelled, because the solver is an arbitrary function
  and optimality is not assumed. These include: a higher unit profit never lowering the
  optimal objective; reruns reproducing the same profit; the solver filling the most profitable
  SKU per unit of cost first; a SKU with zero cost and non-negative profit being driven to its
  maximum.
- Deriving bounds from scale factors, with its invalid-bounds error, and the rejection of
  malformed input rows do not happen in `linear.py`. They are not part of this model.
- Optimize: the order "build, check, then solve" is visible only in the method body: the error
  path returns before `solve` is consulted. Because `solve` is a pure function, no contract
  can state that ordering.
