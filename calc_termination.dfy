/** When the loop of `create_records` (src/calc.rs) stops: range runs,
    budget runs, and the configurations `conditional_sanity_check` rejects
    or lets through. */
module CalcTermination {
  import opened Wrappers
  import opened Calc
  import opened CalcLemmas
  import Models

  /** The number of trials a range run from trial `index` makes when neither
      the target nor the budget fires: up to `count`, and at least one. */
  function RangeLength(count: nat, index: nat): (n: nat)
    ensures n >= 1
    ensures index + n >= count
  {
    if count > index + 1 then count - index else 1
  }

  /** Faults of a trial come from the source (a returned error or a panic),
      never from the bound of the model. */
  lemma AdvanceFaultIsSource(cfg: Settings, env: Externals, csvActive: bool, s: CalcState, rows: Rows, index: nat)
    ensures Advance(cfg, env, csvActive, s, rows, index).Err? ==>
      !Advance(cfg, env, csvActive, s, rows, index).error.BoundReached?
  {
    if csvActive && rows != [] && rows[0].Some? {
      var o := Override(s, rows[0].value, cfg.columnMap, env.parseFloat);
      assert o.Err? ==> o.error == Panicked("Failed to parse");
    }
  }

  /** The target or the budget test of a trial holds on the state after it
      and the cost charged up to and including it. */
  predicate ConditionMet(cfg: Settings, s: CalcState, totalCost: real)
  {
    || (cfg.targetProbability.Some? && s.successUntil > cfg.targetProbability.value)
    || (cfg.budget.Some? && totalCost > cfg.budget.value)
  }

  /** A range run has at most `RangeLength` records. It has fewer only when
      its last trial met the target or the budget test, so exactly that
      many when neither fires (in particular when neither is set). */
  lemma {:induction false} RangeRunLength(
    cfg: Settings, env: Externals, csvActive: bool,
    s: CalcState, rows: Rows, index: nat, totalCost: real, fuel: nat)
    ensures var r := Run(cfg, env, true, csvActive, s, rows, index, totalCost, fuel);
      r.Ok? ==> 1 <= |r.value.records| <= RangeLength(cfg.count, index)
    ensures var r := Run(cfg, env, true, csvActive, s, rows, index, totalCost, fuel);
      r.Ok? && |r.value.records| < RangeLength(cfg.count, index) ==>
        ConditionMet(cfg, r.value.last, r.value.records[|r.value.records| - 1].cost + r.value.last.cost)
    ensures var r := Run(cfg, env, true, csvActive, s, rows, index, totalCost, fuel);
      r.Ok? && cfg.targetProbability.None? && cfg.budget.None? ==> |r.value.records| == RangeLength(cfg.count, index)
    decreases fuel
  {
    RunNumbering(cfg, env, true, csvActive, s, rows, index, totalCost, fuel);
    RunEndsOnStop(cfg, env, true, csvActive, s, rows, index, totalCost, fuel);
    var a := Advance(cfg, env, csvActive, s, rows, index);
    if fuel > 0 && a.Ok? {
      var s1 := a.value;
      RunUnfold(cfg, env, true, csvActive, s, rows, index, totalCost, fuel, s1);
      if !Stops(cfg, true, s1, totalCost + s1.cost, index) {
        RangeRunLength(cfg, env, csvActive, s1, RowsAfterTrial(csvActive, rows), index + 1, totalCost + s1.cost, fuel - 1);
      }
    }
  }

  /** A range run given `RangeLength` trials never reaches the bound: it
      ends in records or in a fault of the source. */
  lemma {:induction false} RangeRunEnds(
    cfg: Settings, env: Externals, csvActive: bool,
    s: CalcState, rows: Rows, index: nat, totalCost: real, fuel: nat)
    requires fuel >= RangeLength(cfg.count, index)
    ensures Run(cfg, env, true, csvActive, s, rows, index, totalCost, fuel) != Err(BoundReached)
    decreases fuel
  {
    var a := Advance(cfg, env, csvActive, s, rows, index);
    AdvanceFaultIsSource(cfg, env, csvActive, s, rows, index);
    if a.Ok? {
      var s1 := a.value;
      RunUnfold(cfg, env, true, csvActive, s, rows, index, totalCost, fuel, s1);
      if !Stops(cfg, true, s1, totalCost + s1.cost, index) {
        RangeRunEnds(cfg, env, csvActive, s1, RowsAfterTrial(csvActive, rows), index + 1, totalCost + s1.cost, fuel - 1);
      }
    }
  }

  /** A range run without a CSV, a target or a budget makes exactly
      `RangeLength` trials of the recurrence. */
  lemma RangePlainRun(cfg: Settings, env: Externals, s: CalcState, rows: Rows, index: nat, totalCost: real, fuel: nat)
    requires env.probSanityCheck(s.constant).Pass?
    requires cfg.targetProbability.None? && cfg.budget.None?
    requires fuel >= RangeLength(cfg.count, index)
    ensures var n := RangeLength(cfg.count, index);
      Run(cfg, env, true, false, s, rows, index, totalCost, fuel)
        == Ok(Finished(PlainRecords(cfg, env, s, index, totalCost, n), Iterate(s, n)))
  {
    var n := RangeLength(cfg.count, index);
    forall j | 1 <= j < n
      ensures !StopsAfter(cfg, true, s, index, totalCost, j)
    {
    }
    PlainRun(cfg, env, true, s, rows, index, totalCost, fuel, n);
  }

  /** `print_range` without a CSV, a target or a budget: `max(count, 1)`
      records of the recurrence, numbered from 1 and costed from 0. The
      validator is not consulted in range mode. */
  lemma PrintRangePlain(cfg: Settings, env: Externals, s: CalcState, bound: nat)
    requires cfg.csvRef == Models.NoCsv && env.probSanityCheck(s.constant).Pass?
    requires cfg.targetProbability.None? && cfg.budget.None?
    requires bound >= RangeLength(cfg.count, 0)
    ensures var n := RangeLength(cfg.count, 0);
      CreateRecordsSpec(cfg, env, true, s, bound) == Ok(Finished(PlainRecords(cfg, env, s, 0, 0.0, n), Iterate(s, n)))
  {
    RangePlainRun(cfg, env, s, env.readCsv("", !cfg.csvNoHeader), 0, 0.0, bound);
  }

  // ---------------------------------------------------------------------
  // The validator of conditional runs

  /** Without a CSV, a conditional run with a budget but no cost never
      stops (unless a target fires): the configuration the second check of
      `conditional_sanity_check` rejects. */
  lemma ZeroCostBudgetNeverStops(cfg: Settings, env: Externals, s: CalcState, rows: Rows, index: nat, totalCost: real, fuel: nat)
    requires env.probSanityCheck(s.constant).Pass?
    requires s.cost == 0.0 && cfg.targetProbability.None?
    requires cfg.budget.Some? && totalCost <= cfg.budget.value
    ensures Run(cfg, env, false, false, s, rows, index, totalCost, fuel) == Err(BoundReached)
  {
    forall j | 1 <= j <= fuel
      ensures !StopsAfter(cfg, false, s, index, totalCost, j)
    {
      ChargedClosedForm(totalCost, s.cost, j);
    }
    PlainRunBound(cfg, env, false, s, rows, index, totalCost, fuel);
  }

  /** The validator asks whether a CSV is referenced, but the loop asks
      whether its text is empty: an empty inline CSV passes the no-CSV
      checks, so a budget with cost 0 and no target gets through and then
      runs without a CSV, never stopping. */
  lemma EmptyCsvPassesValidator(cfg: Settings, env: Externals, s: CalcState, fuel: nat)
    requires cfg.csvRef == Models.Raw("") && env.probSanityCheck(s.constant).Pass?
    requires s.cost == 0.0 && cfg.targetProbability.None?
    requires cfg.budget.Some? && cfg.budget.value >= 0.0
    ensures SanityCheck(cfg, s).Pass?
    ensures CreateRecordsSpec(cfg, env, false, s, fuel) == Err(BoundReached)
  {
    ZeroCostBudgetNeverStops(cfg, env, s, env.readCsv("", !cfg.csvNoHeader), 0, 0.0, fuel);
  }

  /** `n` trials with no chance of success leave `success_until` as it was. */
  lemma {:induction false} NoChanceKeepsSuccess(s: CalcState, n: nat)
    requires SuccessChance(s) == 0.0
    ensures Iterate(s, n).successUntil == s.successUntil
    decreases n
  {
    if n > 0 {
      NoChanceKeepsSuccess(s, n - 1);
    }
  }

  /** Without a CSV, a conditional run with a target but no probability
      (and, as without a CSV, no bonus) never stops unless a budget fires:
      the configuration the third check of `conditional_sanity_check`
      rejects. */
  lemma ZeroChanceTargetNeverStops(cfg: Settings, env: Externals, s: CalcState, rows: Rows, index: nat, totalCost: real, fuel: nat)
    requires env.probSanityCheck(s.constant).Pass?
    requires s.probability == 0.0 && s.constant == 0.0 && cfg.budget.None?
    requires cfg.targetProbability.Some? && s.successUntil <= cfg.targetProbability.value
    ensures Run(cfg, env, false, false, s, rows, index, totalCost, fuel) == Err(BoundReached)
  {
    forall j | 1 <= j <= fuel
      ensures !StopsAfter(cfg, false, s, index, totalCost, j)
    {
      NoChanceKeepsSuccess(s, j);
    }
    PlainRunBound(cfg, env, false, s, rows, index, totalCost, fuel);
  }

  /** The validator does not catch every endless run: since
      `success_until + fail_until` stays at its start value and the test
      against the target is strict, a target at or above that value (such
      as 1.0, which `set_target_probability` accepts) never fires without a
      budget, yet the validator lets it through whenever the probability is
      not 0. */
  lemma TargetAtMassNeverStops(cfg: Settings, env: Externals, s: CalcState, rows: Rows, index: nat, totalCost: real, fuel: nat)
    requires env.probSanityCheck(s.constant).Pass?
    requires SuccessChance(s) >= 0.0 && 0.0 <= s.failUntil <= 1.0 && cfg.budget.None?
    requires cfg.targetProbability.Some? && cfg.targetProbability.value >= s.successUntil + s.failUntil
    ensures Run(cfg, env, false, false, s, rows, index, totalCost, fuel) == Err(BoundReached)
    ensures s.probability != 0.0 ==> SanityCheck(cfg, s).Pass?
  {
    forall j | 1 <= j <= fuel
      ensures !StopsAfter(cfg, false, s, index, totalCost, j)
    {
      IterateDecays(s, j);
      IterateMonotone(s, j);
    }
    PlainRunBound(cfg, env, false, s, rows, index, totalCost, fuel);
  }

  /** The number of trials after which a positive cost per trial exceeds
      `budget`, starting from `totalCost`. */
  function TrialsOverBudget(budget: real, totalCost: real, cost: real): (k: nat)
    requires cost > 0.0
    ensures k >= 1
  {
    if totalCost > budget then 1 else ((budget - totalCost) / cost).Floor + 1
  }

  lemma OverBudget(budget: real, totalCost: real, cost: real)
    requires cost > 0.0
    ensures Charged(totalCost, cost, TrialsOverBudget(budget, totalCost, cost)) > budget
  {
    var k := TrialsOverBudget(budget, totalCost, cost);
    ChargedClosedForm(totalCost, cost, k);
    if totalCost <= budget {
      var q := (budget - totalCost) / cost;
      assert (k as real) > q;
      PositiveScale(k as real, q, cost);
      assert q * cost == budget - totalCost;
    }
  }

  lemma PositiveScale(a: real, b: real, c: real)
    requires a > b && c > 0.0
    ensures a * c > b * c
  {
  }

  /** Without a CSV, a conditional run with a budget and a positive cost
      ends in records within `TrialsOverBudget` trials, whatever the target:
      the validator's demand of a cost is enough. */
  lemma BudgetRunEnds(cfg: Settings, env: Externals, s: CalcState, rows: Rows, index: nat, totalCost: real, fuel: nat)
    requires env.probSanityCheck(s.constant).Pass?
    requires s.cost > 0.0 && cfg.budget.Some?
    requires fuel >= TrialsOverBudget(cfg.budget.value, totalCost, s.cost)
    ensures Run(cfg, env, false, false, s, rows, index, totalCost, fuel).Ok?
  {
    var k := TrialsOverBudget(cfg.budget.value, totalCost, s.cost);
    OverBudget(cfg.budget.value, totalCost, s.cost);
    assert StopsAfter(cfg, false, s, index, totalCost, k);
    PlainRunStops(cfg, env, false, s, rows, index, totalCost, fuel, k);
  }

  // ---------------------------------------------------------------------
  // Targets below the mass are reached

  lemma NonNegProduct(a: real, b: real)
    requires 0.0 <= a && 0.0 <= b
    ensures 0.0 <= a * b
  {
  }

  lemma {:induction false} PowNonNegative(x: real, n: nat)
    requires 0.0 <= x
    ensures 0.0 <= Pow(x, n)
    decreases n
  {
    if n > 0 {
      PowNonNegative(x, n - 1);
      NonNegProduct(x, Pow(x, n - 1));
    }
  }

  /** One more trial keeps `(1 - q)^n * (1 + n q)` at most 1: with
      `pn = (1 - q) p` and `k = m + q`, `pn (1 + k) = p (1 + m) - p q (m + q)`. */
  lemma BernoulliStep(pn: real, p: real, q: real, m: real, k: real)
    requires 0.0 <= p && 0.0 <= q && 0.0 <= m
    requires pn == (1.0 - q) * p && k == m + q
    requires p * (1.0 + m) <= 1.0
    ensures pn * (1.0 + k) <= 1.0
  {
    NonNegProduct(p, q * m + q * q);
    assert pn * (1.0 + k) == p * (1.0 + m) - p * (q * m + q * q);
  }

  lemma Distribute(n: nat, q: real)
    ensures ((n + 1) as real) * q == (n as real) * q + q
  {
  }

  /** Bernoulli's inequality in the form `(1 - q)^n * (1 + n q) <= 1`. */
  lemma {:induction false} Bernoulli(q: real, n: nat)
    requires 0.0 <= q <= 1.0
    ensures Pow(1.0 - q, n) * (1.0 + (n as real) * q) <= 1.0
    decreases n
  {
    if n > 0 {
      var p, m := Pow(1.0 - q, n - 1), ((n - 1) as real) * q;
      Bernoulli(q, n - 1);
      PowNonNegative(1.0 - q, n - 1);
      NonNegProduct((n - 1) as real, q);
      Distribute(n - 1, q);
      BernoulliStep(Pow(1.0 - q, n), p, q, m, (n as real) * q);
    }
  }

  /** The number of trials after which `(1 - q)^n` is below `gap`, by
      Bernoulli's inequality. */
  function TrialsToGap(gap: real, q: real): (n: nat)
    requires gap > 0.0 && q > 0.0
  {
    ((1.0 / gap) / q).Floor + 1
  }

  lemma AboveInverse(k: real, gap: real)
    requires gap > 0.0 && k > 1.0 / gap
    ensures (1.0 + k) * gap > 1.0
  {
    PositiveScale(k, 1.0 / gap, gap);
    assert (1.0 / gap) * gap == 1.0;
    assert (1.0 + k) * gap == gap + k * gap;
  }

  lemma BelowGap(f: real, p: real, k: real, gap: real)
    requires 0.0 <= f <= 1.0 && 0.0 <= p && 0.0 <= k && gap > 0.0
    requires p * (1.0 + k) <= 1.0 && (1.0 + k) * gap > 1.0
    ensures f * p < gap
  {
    assert p * (1.0 + k) < gap * (1.0 + k);
    assert p < gap;
    assert f * p <= p;
  }

  /** After `TrialsToGap` trials with chance `q`, a mass `f` in [0, 1] has
      been scaled below `gap`. */
  lemma ScaledBelowGap(f: real, q: real, gap: real)
    requires 0.0 <= f <= 1.0 && 0.0 < q <= 1.0 && gap > 0.0
    ensures f * Pow(1.0 - q, TrialsToGap(gap, q)) < gap
  {
    var n := TrialsToGap(gap, q);
    var r := (1.0 / gap) / q;
    assert (n as real) > r;
    PositiveScale(n as real, r, q);
    assert r * q == 1.0 / gap;
    AboveInverse((n as real) * q, gap);
    Bernoulli(q, n);
    PowNonNegative(1.0 - q, n);
    NonNegProduct(n as real, q);
    BelowGap(f, Pow(1.0 - q, n), (n as real) * q, gap);
  }

  /** Without a CSV, a conditional run with a target below
      `success_until + fail_until` and a positive chance per trial ends in
      records within `TrialsToGap` trials, whatever the budget. */
  lemma TargetRunEnds(cfg: Settings, env: Externals, s: CalcState, rows: Rows, index: nat, totalCost: real, fuel: nat)
    requires env.probSanityCheck(s.constant).Pass?
    requires SuccessChance(s) > 0.0 && 0.0 <= s.failUntil <= 1.0
    requires cfg.targetProbability.Some? && cfg.targetProbability.value < s.successUntil + s.failUntil
    requires fuel >= TrialsToGap(s.successUntil + s.failUntil - cfg.targetProbability.value, SuccessChance(s))
    ensures Run(cfg, env, false, false, s, rows, index, totalCost, fuel).Ok?
  {
    var gap := s.successUntil + s.failUntil - cfg.targetProbability.value;
    var n := TrialsToGap(gap, SuccessChance(s));
    ScaledBelowGap(s.failUntil, SuccessChance(s), gap);
    IterateClosedForm(s, n);
    assert StopsAfter(cfg, false, s, index, totalCost, n);
    PlainRunStops(cfg, env, false, s, rows, index, totalCost, fuel, n);
  }
}
