/** Properties of the loop of `create_records` (src/calc.rs), stated about
    `Calc.Run`, the function that `Calculator.CreateRecords` is proved to
    compute: the shape of every finished run, what a run without a CSV
    computes in closed form, when it stops, and why the configurations
    `conditional_sanity_check` rejects would never stop. */
module CalcLemmas {
  import opened Wrappers
  import opened Calc
  import Models

  type Rows = seq<Option<seq<string>>>

  // ---------------------------------------------------------------------
  // Every run

  /** One successful trial leaves `success_until + fail_until` unchanged: the
      CSV merge only touches the probability, the bonus and the cost. */
  lemma AdvanceKeepsMass(cfg: Settings, env: Externals, csvActive: bool, s: CalcState, rows: Rows, index: nat)
    ensures var a := Advance(cfg, env, csvActive, s, rows, index);
      a.Ok? ==> a.value.successUntil + a.value.failUntil == s.successUntil + s.failUntil
  {
    var pulled := if csvActive then Pull(s, rows, index, cfg.columnMap, cfg.behaviour, env.parseFloat) else Ok(s);
    if pulled.Ok? {
      assert pulled.value.successUntil == s.successUntil && pulled.value.failUntil == s.failUntil;
      StepConserves(pulled.value);
    }
  }

  /** A finished run has between 1 and `fuel` records, numbered
      consecutively from `index + 1`, and the first carries the cost charged
      before the run. */
  lemma {:induction false} RunNumbering(
    cfg: Settings, env: Externals, useRange: bool, csvActive: bool,
    s: CalcState, rows: Rows, index: nat, totalCost: real, fuel: nat)
    ensures var r := Run(cfg, env, useRange, csvActive, s, rows, index, totalCost, fuel);
      r.Ok? ==>
        && 1 <= |r.value.records| <= fuel
        && r.value.records[0].cost == totalCost
        && forall i :: 0 <= i < |r.value.records| ==> r.value.records[i].count == index + i + 1
    decreases fuel
  {
    var r := Run(cfg, env, useRange, csvActive, s, rows, index, totalCost, fuel);
    if fuel > 0 && r.Ok? {
      var s1 := Advance(cfg, env, csvActive, s, rows, index).value;
      RunUnfold(cfg, env, useRange, csvActive, s, rows, index, totalCost, fuel, s1);
      var record := TrialRecord(cfg, env, s1, index, totalCost);
      if !Stops(cfg, useRange, s1, totalCost + s1.cost, index) {
        var rest := RowsAfterTrial(csvActive, rows);
        var inner := Run(cfg, env, useRange, csvActive, s1, rest, index + 1, totalCost + s1.cost, fuel - 1);
        RunNumbering(cfg, env, useRange, csvActive, s1, rest, index + 1, totalCost + s1.cost, fuel - 1);
        assert r.value.records == [record] + inner.value.records;
        forall i | 0 <= i < |r.value.records|
          ensures r.value.records[i].count == index + i + 1
        {
          if i > 0 {
            assert r.value.records[i] == inner.value.records[i - 1];
          }
        }
      }
    }
  }

  /** The state a finished run leaves keeps `success_until + fail_until`. */
  lemma {:induction false} RunConserves(
    cfg: Settings, env: Externals, useRange: bool, csvActive: bool,
    s: CalcState, rows: Rows, index: nat, totalCost: real, fuel: nat)
    ensures var r := Run(cfg, env, useRange, csvActive, s, rows, index, totalCost, fuel);
      r.Ok? ==> r.value.last.successUntil + r.value.last.failUntil == s.successUntil + s.failUntil
    decreases fuel
  {
    var r := Run(cfg, env, useRange, csvActive, s, rows, index, totalCost, fuel);
    if fuel > 0 && r.Ok? {
      var s1 := Advance(cfg, env, csvActive, s, rows, index).value;
      AdvanceKeepsMass(cfg, env, csvActive, s, rows, index);
      RunUnfold(cfg, env, useRange, csvActive, s, rows, index, totalCost, fuel, s1);
      if !Stops(cfg, useRange, s1, totalCost + s1.cost, index) {
        RunConserves(cfg, env, useRange, csvActive, s1, RowsAfterTrial(csvActive, rows), index + 1, totalCost + s1.cost, fuel - 1);
      }
    }
  }

  /** A finished run's last trial met a stop condition: the target or
      budget test on the state it leaves, with that trial's cost added to
      the cost on its record, or the range count at its index. */
  predicate EndedOnStop(cfg: Settings, useRange: bool, f: Finished, index: nat)
  {
    && f.records != []
    && Stops(cfg, useRange, f.last, f.records[|f.records| - 1].cost + f.last.cost, index + |f.records| - 1)
  }

  /** Putting a record in front keeps the last trial, one index earlier. */
  lemma EndedOnStopPrepend(cfg: Settings, useRange: bool, record: Models.Record, inner: Finished, index: nat)
    requires EndedOnStop(cfg, useRange, inner, index + 1)
    ensures EndedOnStop(cfg, useRange, Finished([record] + inner.records, inner.last), index)
  {
    var rs := [record] + inner.records;
    assert rs[|rs| - 1] == inner.records[|inner.records| - 1];
  }

  /** A finished run, with or without a CSV, ended because its last trial
      met a stop condition. */
  lemma {:induction false} RunEndsOnStop(
    cfg: Settings, env: Externals, useRange: bool, csvActive: bool,
    s: CalcState, rows: Rows, index: nat, totalCost: real, fuel: nat)
    ensures var r := Run(cfg, env, useRange, csvActive, s, rows, index, totalCost, fuel);
      r.Ok? ==> EndedOnStop(cfg, useRange, r.value, index)
    decreases fuel
  {
    var r := Run(cfg, env, useRange, csvActive, s, rows, index, totalCost, fuel);
    if fuel > 0 && r.Ok? {
      var s1 := Advance(cfg, env, csvActive, s, rows, index).value;
      RunUnfold(cfg, env, useRange, csvActive, s, rows, index, totalCost, fuel, s1);
      var record := TrialRecord(cfg, env, s1, index, totalCost);
      if !Stops(cfg, useRange, s1, totalCost + s1.cost, index) {
        var rest := RowsAfterTrial(csvActive, rows);
        var inner := Run(cfg, env, useRange, csvActive, s1, rest, index + 1, totalCost + s1.cost, fuel - 1);
        RunEndsOnStop(cfg, env, useRange, csvActive, s1, rest, index + 1, totalCost + s1.cost, fuel - 1);
        EndedOnStopPrepend(cfg, useRange, record, inner.value, index);
      }
    }
  }

  /** The states after each of the first `n` trials of a run from trial
      `index`, or the fault of the first trial that fails. With a CSV each
      trial takes its own row, so the probability, bonus and cost may change
      from one state to the next. */
  function Trace(
    cfg: Settings, env: Externals, csvActive: bool,
    s: CalcState, rows: Rows, index: nat, n: nat): Result<seq<CalcState>, Fault>
    decreases n
  {
    if n == 0 then Ok([])
    else
      match Advance(cfg, env, csvActive, s, rows, index)
      case Err(e) => Err(e)
      case Ok(s1) =>
        match Trace(cfg, env, csvActive, s1, RowsAfterTrial(csvActive, rows), index + 1, n - 1)
        case Err(e) => Err(e)
        case Ok(t) => Ok([s1] + t)
  }

  /** One trial of a trace: when it succeeds, the trace is its state
      followed by the trace from the next trial on. */
  lemma TraceUnfold(
    cfg: Settings, env: Externals, csvActive: bool,
    s: CalcState, rows: Rows, index: nat, n: nat, s1: CalcState)
    requires n > 0 && Advance(cfg, env, csvActive, s, rows, index) == Ok(s1)
    ensures var inner := Trace(cfg, env, csvActive, s1, RowsAfterTrial(csvActive, rows), index + 1, n - 1);
      inner.Ok? ==> Trace(cfg, env, csvActive, s, rows, index, n) == Ok([s1] + inner.value)
  {
  }

  /** The cost charged before trial `i` of a trace: `totalCost` plus the
      costs of the states after trials `0 .. i - 1`. */
  function Charges(totalCost: real, t: seq<CalcState>, i: nat): real
    requires i <= |t|
    decreases i
  {
    if i == 0 then totalCost else Charges(totalCost + t[0].cost, t[1..], i - 1)
  }

  /** A finished run follows the trace `t`: one state per record, the last
      state is the one the run leaves, record `i` is that of trial
      `index + i` on state `t[i]` carrying the cost of the trials before it,
      and no trial before the last met a stop condition. */
  predicate Traced(
    cfg: Settings, env: Externals, useRange: bool,
    f: Finished, t: seq<CalcState>, index: nat, totalCost: real)
  {
    && t != [] && |t| == |f.records|
    && f.last == t[|t| - 1]
    && (forall i :: 0 <= i < |t| ==>
          f.records[i] == TrialRecord(cfg, env, t[i], index + i, Charges(totalCost, t, i)))
    && (forall i :: 0 <= i < |t| - 1 ==>
          !Stops(cfg, useRange, t[i], Charges(totalCost, t, i) + t[i].cost, index + i))
  }

  /** A run that stops at its first trial follows the one-state trace. */
  lemma TracedSingle(
    cfg: Settings, env: Externals, useRange: bool, s1: CalcState, index: nat, totalCost: real)
    ensures Traced(cfg, env, useRange,
      Finished([TrialRecord(cfg, env, s1, index, totalCost)], s1), [s1], index, totalCost)
  {
    assert Charges(totalCost, [s1], 0) == totalCost;
  }

  /** A trial that does not stop, in front of a traced run, extends the
      trace by its state. */
  lemma TracedPrepend(
    cfg: Settings, env: Externals, useRange: bool,
    s1: CalcState, inner: Finished, t': seq<CalcState>, index: nat, totalCost: real)
    requires Traced(cfg, env, useRange, inner, t', index + 1, totalCost + s1.cost)
    requires !Stops(cfg, useRange, s1, totalCost + s1.cost, index)
    ensures Traced(cfg, env, useRange,
      Finished([TrialRecord(cfg, env, s1, index, totalCost)] + inner.records, inner.last),
      [s1] + t', index, totalCost)
  {
    var t := [s1] + t';
    var rs := [TrialRecord(cfg, env, s1, index, totalCost)] + inner.records;
    assert t[1..] == t';
    forall i | 0 < i <= |t'|
      ensures Charges(totalCost, t, i) == Charges(totalCost + s1.cost, t', i - 1)
      ensures t[i] == t'[i - 1]
    {
    }
    forall i | 0 <= i < |t|
      ensures rs[i] == TrialRecord(cfg, env, t[i], index + i, Charges(totalCost, t, i))
    {
      if i > 0 {
        assert rs[i] == inner.records[i - 1];
      }
    }
  }

  /** Every finished run, with or without a CSV, follows its trace (see
      `Traced`): each record carries the cost of the trials before it, and
      the run stopped at the first trial that met a stop condition. */
  lemma {:induction false} RunTrace(
    cfg: Settings, env: Externals, useRange: bool, csvActive: bool,
    s: CalcState, rows: Rows, index: nat, totalCost: real, fuel: nat)
    ensures var r := Run(cfg, env, useRange, csvActive, s, rows, index, totalCost, fuel);
      r.Ok? ==>
        var t := Trace(cfg, env, csvActive, s, rows, index, |r.value.records|);
        t.Ok? && Traced(cfg, env, useRange, r.value, t.value, index, totalCost)
    decreases fuel
  {
    var r := Run(cfg, env, useRange, csvActive, s, rows, index, totalCost, fuel);
    if fuel > 0 && r.Ok? {
      var s1 := Advance(cfg, env, csvActive, s, rows, index).value;
      RunUnfold(cfg, env, useRange, csvActive, s, rows, index, totalCost, fuel, s1);
      var rest := RowsAfterTrial(csvActive, rows);
      var record := TrialRecord(cfg, env, s1, index, totalCost);
      if Stops(cfg, useRange, s1, totalCost + s1.cost, index) {
        assert r.value == Finished([record], s1);
        TracedSingle(cfg, env, useRange, s1, index, totalCost);
        TraceUnfold(cfg, env, csvActive, s, rows, index, 1, s1);
      } else {
        var inner := Run(cfg, env, useRange, csvActive, s1, rest, index + 1, totalCost + s1.cost, fuel - 1);
        RunTrace(cfg, env, useRange, csvActive, s1, rest, index + 1, totalCost + s1.cost, fuel - 1);
        var n := |inner.value.records|;
        var t' := Trace(cfg, env, csvActive, s1, rest, index + 1, n).value;
        assert r.value == Finished([record] + inner.value.records, inner.value.last);
        TracedPrepend(cfg, env, useRange, s1, inner.value, t', index, totalCost);
        TraceUnfold(cfg, env, csvActive, s, rows, index, n + 1, s1);
      }
    }
  }

  /** The bound on the number of trials is only an artefact of the model:
      a run that ends (in records or in an error of the source) within
      `fuel` trials ends the same way with any larger bound. */
  lemma {:induction false} FuelIrrelevant(
    cfg: Settings, env: Externals, useRange: bool, csvActive: bool,
    s: CalcState, rows: Rows, index: nat, totalCost: real, fuel: nat, more: nat)
    requires fuel <= more
    requires Run(cfg, env, useRange, csvActive, s, rows, index, totalCost, fuel) != Err(BoundReached)
    ensures Run(cfg, env, useRange, csvActive, s, rows, index, totalCost, more)
         == Run(cfg, env, useRange, csvActive, s, rows, index, totalCost, fuel)
    decreases fuel
  {
    var a := Advance(cfg, env, csvActive, s, rows, index);
    if a.Ok? {
      var s1 := a.value;
      RunUnfold(cfg, env, useRange, csvActive, s, rows, index, totalCost, fuel, s1);
      RunUnfold(cfg, env, useRange, csvActive, s, rows, index, totalCost, more, s1);
      if !Stops(cfg, useRange, s1, totalCost + s1.cost, index) {
        FuelIrrelevant(cfg, env, useRange, csvActive, s1, RowsAfterTrial(csvActive, rows), index + 1, totalCost + s1.cost, fuel - 1, more - 1);
      }
    }
  }

  /** Once the CSV rows are used up, `Repeat` goes on from the last state as
      if there were no CSV, and `Panic` fails at once naming the trial. */
  lemma {:induction false} ExhaustedRows(
    cfg: Settings, env: Externals, useRange: bool, s: CalcState, index: nat, totalCost: real, fuel: nat)
    ensures cfg.behaviour == Repeat ==>
      Run(cfg, env, useRange, true, s, [], index, totalCost, fuel) == Run(cfg, env, useRange, false, s, [], index, totalCost, fuel)
    ensures cfg.behaviour == Panic && fuel > 0 ==>
      Run(cfg, env, useRange, true, s, [], index, totalCost, fuel) == Err(Raised(Errors.CsvError(EmptyRowMessage(index))))
    decreases fuel
  {
    if cfg.behaviour == Repeat && fuel > 0 {
      var a := Advance(cfg, env, false, s, [], index);
      assert Advance(cfg, env, true, s, [], index) == a;
      if a.Ok? {
        var s1 := a.value;
        RunUnfold(cfg, env, useRange, true, s, [], index, totalCost, fuel, s1);
        RunUnfold(cfg, env, useRange, false, s, [], index, totalCost, fuel, s1);
        ExhaustedRows(cfg, env, useRange, s1, index + 1, totalCost + s1.cost, fuel - 1);
      }
    }
  }

  /** With a CSV, each trial takes exactly the next row: a row the reader
      could not split panics, a row with an unparsable column panics, and
      otherwise the trial runs on the merged state and the rest of the run
      sees the remaining rows. */
  lemma CsvTrialTakesRow(
    cfg: Settings, env: Externals, useRange: bool, s: CalcState, rows: Rows, index: nat, totalCost: real, fuel: nat)
    requires fuel > 0 && rows != []
    ensures rows[0].None? ==> Run(cfg, env, useRange, true, s, rows, index, totalCost, fuel) == Err(Panicked("Failed to parse row"))
    ensures rows[0].Some? && Override(s, rows[0].value, cfg.columnMap, env.parseFloat).Err? ==>
      Run(cfg, env, useRange, true, s, rows, index, totalCost, fuel) == Err(Panicked("Failed to parse"))
    ensures rows[0].Some? && Override(s, rows[0].value, cfg.columnMap, env.parseFloat).Ok? ==>
      var merged := Override(s, rows[0].value, cfg.columnMap, env.parseFloat).value;
      var s1 := Step(merged);
      env.probSanityCheck(merged.constant).Pass? ==>
        Run(cfg, env, useRange, true, s, rows, index, totalCost, fuel)
          == if Stops(cfg, useRange, s1, totalCost + s1.cost, index) then Ok(Finished([TrialRecord(cfg, env, s1, index, totalCost)], s1))
             else Prepend([TrialRecord(cfg, env, s1, index, totalCost)], Run(cfg, env, useRange, true, s1, rows[1..], index + 1, totalCost + s1.cost, fuel - 1))
  {
    if rows[0].Some? {
      var o := Override(s, rows[0].value, cfg.columnMap, env.parseFloat);
      if o.Ok? && env.probSanityCheck(o.value.constant).Pass? {
        RunUnfold(cfg, env, useRange, true, s, rows, index, totalCost, fuel, Step(o.value));
      }
    }
  }

  // ---------------------------------------------------------------------
  // Runs without a CSV: the recurrence alone

  /** `n` trials of the recurrence from `s`. */
  function Iterate(s: CalcState, n: nat): (t: CalcState)
    ensures t.probability == s.probability && t.constant == s.constant && t.cost == s.cost
    ensures SuccessChance(t) == SuccessChance(s)
    decreases n
  {
    if n == 0 then s else Step(Iterate(s, n - 1))
  }

  lemma {:induction false} IterateShift(s: CalcState, n: nat)
    ensures Iterate(Step(s), n) == Iterate(s, n + 1)
    decreases n
  {
    if n > 0 {
      IterateShift(s, n - 1);
    }
  }

  function Pow(x: real, n: nat): real
    decreases n
  {
    if n == 0 then 1.0 else x * Pow(x, n - 1)
  }

  /** The closed form of the recurrence: after `n` trials with chance `q`,
      `fail_until` has been scaled by `(1 - q)^n`, and what it lost went to
      `success_until`. */
  lemma IterateClosedForm(s: CalcState, n: nat)
    ensures Iterate(s, n).failUntil == s.failUntil * Pow(1.0 - SuccessChance(s), n)
    ensures Iterate(s, n).successUntil == s.successUntil + s.failUntil - s.failUntil * Pow(1.0 - SuccessChance(s), n)
  {
    IterateDecays(s, n);
    DecayIsPow(s.failUntil, 1.0 - SuccessChance(s), n);
  }

  /** `f` scaled `n` times by `x`. */
  function Decay(f: real, x: real, n: nat): real
    decreases n
  {
    if n == 0 then f else Decay(f, x, n - 1) * x
  }

  lemma {:induction false} DecayIsPow(f: real, x: real, n: nat)
    ensures Decay(f, x, n) == f * Pow(x, n)
    decreases n
  {
    if n > 0 {
      DecayIsPow(f, x, n - 1);
      ScaleChain(Decay(f, x, n), Decay(f, x, n - 1), f, Pow(x, n - 1), x, Pow(x, n));
    }
  }

  /** Each trial scales `fail_until` by the chance of failing and keeps
      `success_until + fail_until`. */
  lemma {:induction false} IterateDecays(s: CalcState, n: nat)
    ensures Iterate(s, n).failUntil == Decay(s.failUntil, 1.0 - SuccessChance(s), n)
    ensures Iterate(s, n).successUntil + Iterate(s, n).failUntil == s.successUntil + s.failUntil
    decreases n
  {
    if n > 0 {
      IterateDecays(s, n - 1);
      StepConserves(Iterate(s, n - 1));
    }
  }

  /** Scaling `f * p` by `x` is scaling `f` by `x * p`. */
  lemma ScaleChain(a: real, b: real, f: real, p: real, x: real, xp: real)
    requires a == b * x && b == f * p && xp == x * p
    ensures a == f * xp
  {
  }

  /** From `CalcState::new` with a probability `p` that `Calculator::new`
      accepts: `n` trials leave `fail_until = (1 - p)^n` and
      `success_until = 1 - (1 - p)^n`. */
  lemma FreshClosedForm(p: real, n: nat)
    requires p <= 1.0
    ensures Iterate(NewCalcState(p), n).failUntil == Pow(1.0 - p, n)
    ensures Iterate(NewCalcState(p), n).successUntil == 1.0 - Pow(1.0 - p, n)
  {
    IterateClosedForm(NewCalcState(p), n);
  }

  /** With a non-negative chance and `fail_until` in [0, 1], every trial
      raises (or keeps) `success_until`. */
  lemma {:induction false} IterateMonotone(s: CalcState, n: nat)
    requires SuccessChance(s) >= 0.0 && 0.0 <= s.failUntil <= 1.0
    ensures Iterate(s, n).successUntil <= Iterate(s, n + 1).successUntil
    ensures 0.0 <= Iterate(s, n).failUntil <= 1.0
    decreases n
  {
    if n > 0 {
      IterateMonotone(s, n - 1);
      StepMonotone(Iterate(s, n - 1));
    }
    StepMonotone(Iterate(s, n));
  }

  /** The records of `n` trials without a CSV from trial `index` on, with
      `totalCost` charged before them. */
  function PlainRecords(cfg: Settings, env: Externals, s: CalcState, index: nat, totalCost: real, n: nat): (rs: seq<Models.Record>)
    ensures |rs| == n
    decreases n
  {
    if n == 0 then []
    else [TrialRecord(cfg, env, Step(s), index, totalCost)] + PlainRecords(cfg, env, Step(s), index + 1, totalCost + s.cost, n - 1)
  }

  /** `totalCost` with `cost` charged `k` more times. */
  function Charged(totalCost: real, cost: real, k: nat): real
    decreases k
  {
    if k == 0 then totalCost else Charged(totalCost + cost, cost, k - 1)
  }

  /** Charging the same cost `k` times adds `k` times that cost. */
  lemma {:induction false} ChargedClosedForm(totalCost: real, cost: real, k: nat)
    ensures Charged(totalCost, cost, k) == totalCost + (k as real) * cost
    decreases k
  {
    if k > 0 {
      ChargedClosedForm(totalCost + cost, cost, k - 1);
    }
  }

  /** Record `i` of a run without a CSV is numbered `index + i + 1`, shows
      the success chance after `i + 1` trials and carries the cost of the
      `i` trials before it. */
  lemma {:induction false} PlainRecordsAt(cfg: Settings, env: Externals, s: CalcState, index: nat, totalCost: real, n: nat, i: nat)
    requires i < n
    ensures PlainRecords(cfg, env, s, index, totalCost, n)[i]
         == TrialRecord(cfg, env, Iterate(s, i + 1), index + i, Charged(totalCost, s.cost, i))
    decreases i
  {
    var rest := PlainRecords(cfg, env, Step(s), index + 1, totalCost + s.cost, n - 1);
    assert PlainRecords(cfg, env, s, index, totalCost, n) == [TrialRecord(cfg, env, Step(s), index, totalCost)] + rest;
    if i == 0 {
      assert Iterate(s, 1) == Step(Iterate(s, 0));
    } else {
      PlainRecordsAt(cfg, env, Step(s), index + 1, totalCost + s.cost, n - 1, i - 1);
      IterateShift(s, i);
    }
  }

  /** The numbering and the probabilities of the records of a run without
      a CSV. */
  lemma PlainRecordFields(cfg: Settings, env: Externals, s: CalcState, index: nat, totalCost: real, n: nat, i: nat)
    requires i < n
    ensures PlainRecords(cfg, env, s, index, totalCost, n)[i].count == index + i + 1
    ensures PlainRecords(cfg, env, s, index, totalCost, n)[i].probability
         == env.formatProb(Iterate(s, i + 1).successUntil, cfg.probType, cfg.probPrecision)
  {
    PlainRecordsAt(cfg, env, s, index, totalCost, n, i);
  }

  /** Without a CSV every trial is charged the same cost, so record `i`
      carries `totalCost + i * cost`. */
  lemma PlainRecordCost(cfg: Settings, env: Externals, s: CalcState, index: nat, totalCost: real, n: nat, i: nat)
    requires i < n
    ensures PlainRecords(cfg, env, s, index, totalCost, n)[i].cost == totalCost + (i as real) * s.cost
  {
    PlainRecordsAt(cfg, env, s, index, totalCost, n, i);
    ChargedClosedForm(totalCost, s.cost, i);
  }

  /** The stop conditions after trial `j` (counting from 1) of a run without
      a CSV. */
  predicate StopsAfter(cfg: Settings, useRange: bool, s: CalcState, index: nat, totalCost: real, j: nat)
    requires j >= 1
  {
    Stops(cfg, useRange, Iterate(s, j), Charged(totalCost, s.cost, j), index + j - 1)
  }

  lemma StopsAfterShift(cfg: Settings, useRange: bool, s: CalcState, index: nat, totalCost: real, j: nat)
    requires j >= 1
    ensures StopsAfter(cfg, useRange, Step(s), index + 1, totalCost + s.cost, j)
        <==> StopsAfter(cfg, useRange, s, index, totalCost, j + 1)
  {
    IterateShift(s, j);
  }

  /** The stop conditions after the first trial are those `create_records`
      checks once the cost of that trial is charged. */
  lemma StopsAfterFirst(cfg: Settings, useRange: bool, s: CalcState, index: nat, totalCost: real)
    ensures Iterate(s, 1) == Step(s)
    ensures StopsAfter(cfg, useRange, s, index, totalCost, 1) <==> Stops(cfg, useRange, Step(s), totalCost + s.cost, index)
  {
    assert Iterate(s, 1) == Step(Iterate(s, 0));
  }

  /** No stop within trials `1..m+1` from `s` is no stop within `1..m`
      from the state after the first trial. */
  lemma NoStopShifted(
    cfg: Settings, useRange: bool, s: CalcState, index: nat, totalCost: real, m: nat,
    s1: CalcState, index1: nat, totalCost1: real)
    requires s1 == Step(s) && index1 == index + 1 && totalCost1 == totalCost + s.cost
    requires forall j :: 1 <= j <= m + 1 ==> !StopsAfter(cfg, useRange, s, index, totalCost, j)
    ensures forall j :: 1 <= j <= m ==> !StopsAfter(cfg, useRange, s1, index1, totalCost1, j)
  {
    forall j | 1 <= j <= m
      ensures !StopsAfter(cfg, useRange, s1, index1, totalCost1, j)
    {
      StopsAfterShift(cfg, useRange, s, index, totalCost, j);
    }
  }

  /** A run without a CSV whose bonus passes the sanity check stops after
      the first trial `n` at which a stop condition holds: its records are
      the first `n` plain records and its state the `n`-th iterate. */
  lemma {:induction false} PlainRun(
    cfg: Settings, env: Externals, useRange: bool,
    s: CalcState, rows: Rows, index: nat, totalCost: real, fuel: nat, n: nat)
    requires env.probSanityCheck(s.constant).Pass?
    requires 1 <= n <= fuel
    requires StopsAfter(cfg, useRange, s, index, totalCost, n)
    requires forall j :: 1 <= j < n ==> !StopsAfter(cfg, useRange, s, index, totalCost, j)
    ensures Run(cfg, env, useRange, false, s, rows, index, totalCost, fuel)
         == Ok(Finished(PlainRecords(cfg, env, s, index, totalCost, n), Iterate(s, n)))
    decreases n
  {
    var s1 := Step(s);
    assert Advance(cfg, env, false, s, rows, index) == Ok(s1);
    RunUnfold(cfg, env, useRange, false, s, rows, index, totalCost, fuel, s1);
    StopsAfterFirst(cfg, useRange, s, index, totalCost);
    if n == 1 {
      assert PlainRecords(cfg, env, s, index, totalCost, 1) == [TrialRecord(cfg, env, s1, index, totalCost)];
    } else {
      NoStopShifted(cfg, useRange, s, index, totalCost, n - 2, s1, index + 1, totalCost + s.cost);
      StopsAfterShift(cfg, useRange, s, index, totalCost, n - 1);
      PlainRun(cfg, env, useRange, s1, rows, index + 1, totalCost + s.cost, fuel - 1, n - 1);
      IterateShift(s, n - 1);
    }
  }

  /** A run without a CSV in which no stop condition holds within `fuel`
      trials reaches the bound: the source would loop for ever. */
  lemma {:induction false} PlainRunBound(
    cfg: Settings, env: Externals, useRange: bool,
    s: CalcState, rows: Rows, index: nat, totalCost: real, fuel: nat)
    requires env.probSanityCheck(s.constant).Pass?
    requires forall j :: 1 <= j <= fuel ==> !StopsAfter(cfg, useRange, s, index, totalCost, j)
    ensures Run(cfg, env, useRange, false, s, rows, index, totalCost, fuel) == Err(BoundReached)
    decreases fuel
  {
    if fuel > 0 {
      var s1 := Step(s);
      assert Advance(cfg, env, false, s, rows, index) == Ok(s1);
      RunUnfold(cfg, env, useRange, false, s, rows, index, totalCost, fuel, s1);
      StopsAfterFirst(cfg, useRange, s, index, totalCost);
      NoStopShifted(cfg, useRange, s, index, totalCost, fuel - 1, s1, index + 1, totalCost + s.cost);
      PlainRunBound(cfg, env, useRange, s1, rows, index + 1, totalCost + s.cost, fuel - 1);
    }
  }

  /** A run without a CSV whose bonus fails the sanity check fails at its
      first trial with that error. */
  lemma PlainRunFault(
    cfg: Settings, env: Externals, useRange: bool,
    s: CalcState, rows: Rows, index: nat, totalCost: real, fuel: nat)
    requires env.probSanityCheck(s.constant).Fail? && fuel > 0
    ensures Run(cfg, env, useRange, false, s, rows, index, totalCost, fuel)
         == Err(Raised(env.probSanityCheck(s.constant).error))
  {
    assert Advance(cfg, env, false, s, rows, index) == Err(Raised(env.probSanityCheck(s.constant).error));
  }

  /** If some trial within `fuel` meets a stop condition, a run without a
      CSV ends with records. */
  lemma PlainRunStops(
    cfg: Settings, env: Externals, useRange: bool,
    s: CalcState, rows: Rows, index: nat, totalCost: real, fuel: nat, k: nat)
    requires env.probSanityCheck(s.constant).Pass?
    requires 1 <= k <= fuel && StopsAfter(cfg, useRange, s, index, totalCost, k)
    ensures Run(cfg, env, useRange, false, s, rows, index, totalCost, fuel).Ok?
  {
    var n := FirstStopExists(cfg, useRange, s, index, totalCost, k);
    PlainRun(cfg, env, useRange, s, rows, index, totalCost, fuel, n);
  }

  /** The first trial at which a stop condition holds, given one at `k`. */
  lemma {:induction false} FirstStopExists(cfg: Settings, useRange: bool, s: CalcState, index: nat, totalCost: real, k: nat)
    returns (n: nat)
    requires k >= 1 && StopsAfter(cfg, useRange, s, index, totalCost, k)
    ensures 1 <= n <= k && StopsAfter(cfg, useRange, s, index, totalCost, n)
    ensures forall j :: 1 <= j < n ==> !StopsAfter(cfg, useRange, s, index, totalCost, j)
    decreases k
  {
    if exists j :: 1 <= j < k && StopsAfter(cfg, useRange, s, index, totalCost, j) {
      var j :| 1 <= j < k && StopsAfter(cfg, useRange, s, index, totalCost, j);
      n := FirstStopExists(cfg, useRange, s, index, totalCost, j);
    } else {
      n := k;
    }
  }
}
