/**
 * The integer programme the optimiser hands to the solver, written out as
 * data: integer unit variables keyed by SKU with their bounds, one continuous
 * slack variable, a linear objective to maximise, and a list of linear
 * constraints in the order they were added. `Satisfies` says when an
 * assignment of values to the variables is admissible.
 */
module LpModel {
  import opened Table

  /** A decision variable: the units of one SKU, or the budget slack. */
  datatype Var = Units(sku: SkuId) | Slack

  /** One `coefficient * variable` term of a linear expression. */
  datatype Term = Term(coef: real, v: Var)

  datatype Sense = Ge | Le | Eq

  /** A linear constraint `lhs sense rhs`. */
  datatype Constraint = Constraint(lhs: seq<Term>, sense: Sense, rhs: real)

  /** The bounds of an integer unit variable. */
  datatype Bounds = Bounds(lo: int, hi: int)

  /** A maximisation problem: the unit variables with their bounds, the slack
      variable's bounds, the objective and the constraints. */
  datatype Problem = Problem(
    unitVars: map<SkuId, Bounds>,
    slackLo: real,
    slackHi: real,
    objective: seq<Term>,
    constraints: seq<Constraint>)

  /** Values for every variable: an integer per unit variable, a real for
      the slack. */
  datatype Assignment = Assignment(units: SkuId -> int, slack: real)

  function ValueOf(a: Assignment, v: Var): real
  {
    match v
    case Units(s) => a.units(s) as real
    case Slack => a.slack
  }

  /** The value of a linear expression under an assignment. */
  function Eval(terms: seq<Term>, a: Assignment): real
  {
    if terms == [] then 0.0
    else
      var t := terms[|terms| - 1];
      Eval(terms[..|terms| - 1], a) + t.coef * ValueOf(a, t.v)
  }

  predicate Holds(c: Constraint, a: Assignment)
  {
    var lhs := Eval(c.lhs, a);
    match c.sense
    case Ge => lhs >= c.rhs
    case Le => lhs <= c.rhs
    case Eq => lhs == c.rhs
  }

  /** `a` respects every variable's bounds and every constraint of `p`. */
  predicate Satisfies(p: Problem, a: Assignment)
  {
    && (forall s :: s in p.unitVars ==> p.unitVars[s].lo <= a.units(s) <= p.unitVars[s].hi)
    && p.slackLo <= a.slack <= p.slackHi
    && (forall i :: 0 <= i < |p.constraints| ==> Holds(p.constraints[i], a))
  }

  /** `Σ coefs[i] * units_{skus[i]}`, the shape of the objective and of the
      budget expression. */
  function UnitTerms(coefs: seq<real>, skus: seq<SkuId>): seq<Term>
    requires |coefs| == |skus|
  {
    seq(|coefs|, i requires 0 <= i < |coefs| => Term(coefs[i], Units(skus[i])))
  }

  /** The column of values that `a` gives to the listed SKUs' variables. */
  function Assigned(skus: seq<SkuId>, a: Assignment): seq<int>
  {
    seq(|skus|, i requires 0 <= i < |skus| => a.units(skus[i]))
  }

  /** Appending a term adds its value. */
  lemma EvalAppend(ts: seq<Term>, t: Term, a: Assignment)
    ensures Eval(ts + [t], a) == Eval(ts, a) + t.coef * ValueOf(a, t.v)
  {
  }

  /** A sum of unit terms evaluates to the column product of the assigned
      units and the coefficients. */
  lemma {:induction false} EvalUnitTerms(coefs: seq<real>, skus: seq<SkuId>, a: Assignment)
    requires |coefs| == |skus|
    ensures Eval(UnitTerms(coefs, skus), a) == Sum(Times(Assigned(skus, a), coefs))
  {
    if coefs != [] {
      var n := |coefs| - 1;
      EvalUnitTerms(coefs[..n], skus[..n], a);
      assert UnitTerms(coefs, skus)[..n] == UnitTerms(coefs[..n], skus[..n]);
      assert Assigned(skus, a)[..n] == Assigned(skus[..n], a);
      TimesPrefix(Assigned(skus, a), coefs, n);
      assert coefs[n] * a.units(skus[n]) as real == a.units(skus[n]) as real * coefs[n];
    }
  }

  /** A single `1 * units_s` term evaluates to the value of `units_s`. */
  lemma EvalSingleUnit(s: SkuId, a: Assignment)
    ensures Eval([Term(1.0, Units(s))], a) == a.units(s) as real
  {
  }
}
