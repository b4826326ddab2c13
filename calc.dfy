/** The probability accumulation engine of src/calc.rs: the per-trial
    state and its recurrence, the CSV override merge, the validator of
    conditional runs, and the `Calculator` whose `create_records` drives
    them. `f32` arithmetic is modelled by `real`. */
module Calc {
  import opened Wrappers
  import opened Errors
  import opened Text
  import Models

  datatype CsvBehaviour = Repeat | Panic

  datatype TableFormat = Console | Csv | Gfm

  /** The probability display type of this file (distinct from the one in
      src/models.rs, which calls its second variant `Fraction`). */
  datatype ProbType = Percentage | Float

  /** `TableFormat::from_str`, case-insensitive. */
  function TableFormatFromStr(text: string): (r: Result<TableFormat, GcalcError>)
    ensures r == Ok(Console) <==> Lower(text) == "console"
    ensures r == Ok(Csv) <==> Lower(text) == "csv"
    ensures r == Ok(Gfm) <==> Lower(text) == "gfm" || Lower(text) == "github"
    ensures r.Err? ==> r.error == InvalidConversion(text + " is not a valid table format")
  {
    match Lower(text)
    case "console" => Ok(Console)
    case "csv" => Ok(Csv)
    case "gfm" => Ok(Gfm)
    case "github" => Ok(Gfm)
    case _ => Err(InvalidConversion(text + " is not a valid table format"))
  }

  /** `ProbType::from_str` of this file: only "percentage" and "float". */
  function ProbTypeFromStr(text: string): (r: Result<ProbType, GcalcError>)
    ensures r == Ok(Percentage) <==> Lower(text) == "percentage"
    ensures r == Ok(Float) <==> Lower(text) == "float"
    ensures r.Err? ==> r.error == InvalidConversion(text + " is not a valid table format")
  {
    match Lower(text)
    case "percentage" => Ok(Percentage)
    case "float" => Ok(Float)
    case _ => Err(InvalidConversion(text + " is not a valid table format"))
  }

  /** The column layout `Calculator::new` installs (src/consts.rs is not
      part of this model; its indexes are those of `ColumnMap::default`). */
  const CountIndex: nat := 0
  const BasicProbIndex: nat := 1
  const AddedProbIndex: nat := 2
  const CostIndex: nat := 3

  /** The mutable per-trial state. `constant` is the additive bonus. */
  datatype CalcState = CalcState(
    probability: real,
    constant: real,
    cost: real,
    successUntil: real,
    failUntil: real)

  /** `CalcState::new`: nothing has succeeded yet, so all probability mass
      is still in `failUntil`. */
  function NewCalcState(probability: real): (s: CalcState)
    ensures s.probability == probability && s.constant == 0.0 && s.cost == 0.0
    ensures s.successUntil == 0.0 && s.failUntil == 1.0
    ensures s.successUntil + s.failUntil == 1.0
  {
    CalcState(probability, 0.0, 0.0, 0.0, 1.0)
  }

  /** The success chance of one trial: probability plus bonus, capped at 1. */
  function SuccessChance(s: CalcState): (q: real)
    ensures q <= 1.0
    ensures q == s.probability + s.constant || q == 1.0
    ensures s.probability + s.constant <= 1.0 ==> q == s.probability + s.constant
  {
    if s.probability + s.constant < 1.0 then s.probability + s.constant else 1.0
  }

  /** The recurrence of `calculate_fail_success`: `success_until` gains the
      share of the unresolved mass that succeeds now, and `fail_until` keeps
      the rest. Only the two accumulators move. */
  function Step(s: CalcState): (t: CalcState)
    ensures t.probability == s.probability && t.constant == s.constant && t.cost == s.cost
  {
    var success := SuccessChance(s);
    var failProb := if 1.0 - success > 0.0 then 1.0 - success else 0.0;
    s.(successUntil := s.successUntil + s.failUntil * success,
       failUntil := s.failUntil * failProb)
  }

  /** Conservation: `success_until + fail_until` is unchanged by a trial,
      whatever the probability and bonus, because the chance is capped at 1;
      `fail_until` shrinks by exactly the chance of failing. */
  lemma StepConserves(s: CalcState)
    ensures Step(s).successUntil + Step(s).failUntil == s.successUntil + s.failUntil
    ensures Step(s).failUntil == s.failUntil * (1.0 - SuccessChance(s))
  {
    var q := SuccessChance(s);
    assert s.failUntil * q + s.failUntil * (1.0 - q) == s.failUntil;
  }

  /** With a non-negative chance and `fail_until` in [0, 1], a trial never
      lowers `success_until` and never raises `fail_until`, which stays in
      [0, 1]. */
  lemma StepMonotone(s: CalcState)
    requires SuccessChance(s) >= 0.0 && 0.0 <= s.failUntil <= 1.0
    ensures Step(s).successUntil >= s.successUntil
    ensures 0.0 <= Step(s).failUntil <= s.failUntil
  {
    var q := SuccessChance(s);
    ScaledBounds(s.failUntil, q);
    ScaledBounds(s.failUntil, 1.0 - q);
  }

  /** A share of a mass in [0, 1] is non-negative and at most the mass. */
  lemma ScaledBounds(mass: real, share: real)
    ensures 0.0 <= mass && 0.0 <= share ==> 0.0 <= mass * share
    ensures 0.0 <= mass && share <= 1.0 ==> mass * share <= mass
  {
    if 0.0 <= mass && share <= 1.0 {
      assert mass - mass * share == mass * (1.0 - share);
    }
  }

  /** A panic in the source (`expect`), a returned error, or the bound a
      run of this model is given on the number of trials. */
  datatype Fault = Raised(error: GcalcError) | Panicked(message: string) | BoundReached

  /** The collaborators the engine calls but that are not modelled:
      - `readFile`: `std::fs::read_to_string`, failing with the io error text;
      - `readCsv`: the `csv` reader over a text, given whether it has a header
        row; a row it cannot read is `None`;
      - `parseFloat`: `str::parse::<f32>`;
      - `probSanityCheck`: `utils::prob_sanity_check`;
      - `formatProb`: `utils::get_prob_as_formatted`;
      - `display`: the `Display` text of an `f32`. */
  datatype Externals = Externals(
    readFile: string -> Result<string, string>,
    readCsv: (string, bool) -> seq<Option<seq<string>>>,
    parseFloat: string -> Option<real>,
    probSanityCheck: real -> Outcome<GcalcError>,
    formatProb: (real, ProbType, Option<nat>) -> string,
    display: real -> string)

  /** Every field of a `Calculator` except its state. */
  datatype Settings = Settings(
    count: nat,
    format: TableFormat,
    csvRef: Models.CsvRef,
    csvNoHeader: bool,
    columnMap: Models.ColumnMap,
    probPrecision: Option<nat>,
    budget: Option<real>,
    targetProbability: Option<real>,
    probType: ProbType,
    behaviour: CsvBehaviour)

  /** The settings `Calculator::new` starts from. */
  function DefaultSnapshot(): (cfg: Settings)
    ensures cfg.columnMap == Models.DefaultColumnMap()
    ensures cfg.csvRef == Models.NoCsv && cfg.budget == None && cfg.targetProbability == None
  {
    Settings(0, Csv, Models.NoCsv, false,
      Models.NewColumnMap(CountIndex, BasicProbIndex, AddedProbIndex, CostIndex),
      None, None, None, Float, Repeat)
  }

  /** One column of a CSV row: absent when the row is too short, otherwise
      parsed, and a panic when it does not parse. */
  function ReadColumn(fields: seq<string>, column: nat, parse: string -> Option<real>): (r: Result<Option<real>, Fault>)
    ensures column >= |fields| ==> r == Ok(None)
    ensures column < |fields| && parse(fields[column]).Some? ==> r == Ok(parse(fields[column]))
    ensures column < |fields| && parse(fields[column]).None? ==> r == Err(Panicked("Failed to parse"))
  {
    if column < |fields| then
      match parse(fields[column])
      case Some(v) => Ok(Some(v))
      case None => Err(Panicked("Failed to parse"))
    else Ok(None)
  }

  /** A column is present in the row and its text does not parse. */
  predicate Unparsable(fields: seq<string>, column: nat, parse: string -> Option<real>)
  {
    column < |fields| && parse(fields[column]).None?
  }

  /** The new value of a field: the column's value when the row has that
      column, the old value otherwise. */
  function Overridden(previous: real, fields: seq<string>, column: nat, parse: string -> Option<real>): real
  {
    if column < |fields| && parse(fields[column]).Some? then parse(fields[column]).value else previous
  }

  /** The merge of one CSV row into the state, as `update_state_from_csv_file`
      does for an available row. */
  function Override(s: CalcState, fields: seq<string>, m: Models.ColumnMap, parse: string -> Option<real>): (r: Result<CalcState, Fault>)
    ensures r.Err? <==>
      Unparsable(fields, m.probability, parse) || Unparsable(fields, m.constant, parse) || Unparsable(fields, m.cost, parse)
    ensures r.Err? ==> r.error == Panicked("Failed to parse")
    ensures r.Ok? ==>
      && r.value.probability == Overridden(s.probability, fields, m.probability, parse)
      && r.value.constant == Overridden(s.constant, fields, m.constant, parse)
      && r.value.cost == Overridden(s.cost, fields, m.cost, parse)
      && r.value.successUntil == s.successUntil && r.value.failUntil == s.failUntil
    // a field whose column the row lacks keeps its value
    ensures r.Ok? && m.probability >= |fields| ==> r.value.probability == s.probability
    ensures r.Ok? && m.constant >= |fields| ==> r.value.constant == s.constant
    ensures r.Ok? && m.cost >= |fields| ==> r.value.cost == s.cost
  {
    var p :- ReadColumn(fields, m.probability, parse);
    var s1 := if p.Some? then s.(probability := p.value) else s;
    var c :- ReadColumn(fields, m.constant, parse);
    var s2 := if c.Some? then s1.(constant := c.value) else s1;
    var k :- ReadColumn(fields, m.cost, parse);
    Ok(if k.Some? then s2.(cost := k.value) else s2)
  }

  /** The message of the `Panic` behaviour when rows run out at a trial. */
  function EmptyRowMessage(index: nat): string
  {
    "Empty row in index: " + Decimal(index)
  }

  /** What `update_state_from_csv_file` does with the next row, if any. */
  function Pull(
    s: CalcState, rows: seq<Option<seq<string>>>, index: nat,
    m: Models.ColumnMap, behaviour: CsvBehaviour, parse: string -> Option<real>): (r: Result<CalcState, Fault>)
    ensures rows == [] && behaviour == Repeat ==> r == Ok(s)
    ensures rows == [] && behaviour == Panic ==> r == Err(Raised(CsvError(EmptyRowMessage(index))))
    ensures rows != [] && rows[0].None? ==> r == Err(Panicked("Failed to parse row"))
    ensures rows != [] && rows[0].Some? ==> r == Override(s, rows[0].value, m, parse)
  {
    if rows == [] then
      match behaviour
      case Repeat => Ok(s)
      case Panic => Err(Raised(CsvError(EmptyRowMessage(index))))
    else
      match rows[0]
      case None => Err(Panicked("Failed to parse row"))
      case Some(fields) => Override(s, fields, m, parse)
  }

  /** The rows left once a trial has taken its row (an exhausted reader stays
      exhausted). */
  function Consumed(rows: seq<Option<seq<string>>>): (rest: seq<Option<seq<string>>>)
    ensures rows != [] ==> rest == rows[1..]
    ensures rows == [] ==> rest == []
  {
    if rows == [] then [] else rows[1..]
  }

  /** One trial before its record: the CSV merge when a CSV is in use, then
      the sanity check of the bonus and the recurrence. */
  function Advance(
    cfg: Settings, env: Externals, csvActive: bool,
    s: CalcState, rows: seq<Option<seq<string>>>, index: nat): Result<CalcState, Fault>
  {
    var s1 :- if csvActive then Pull(s, rows, index, cfg.columnMap, cfg.behaviour, env.parseFloat) else Ok(s);
    match env.probSanityCheck(s1.constant)
    case Fail(e) => Err(Raised(e))
    case Pass => Ok(Step(s1))
  }

  /** The three stop conditions checked after trial `index` has been
      pushed: the target is exceeded, the budget is exceeded, or (in range
      mode) `count` trials have been made. */
  predicate Stops(cfg: Settings, useRange: bool, s: CalcState, totalCost: real, index: nat)
  {
    || (cfg.targetProbability.Some? && s.successUntil > cfg.targetProbability.value)
    || (cfg.budget.Some? && totalCost > cfg.budget.value)
    || (useRange && index + 1 >= cfg.count)
  }

  /** A run that reached a stop: the records pushed, and the state after
      its last trial. */
  datatype Finished = Finished(records: seq<Models.Record>, last: CalcState)

  /** The record pushed for trial `index` once the state is `s1`: numbered
      from 1, carrying the cost charged before this trial. */
  function TrialRecord(cfg: Settings, env: Externals, s1: CalcState, index: nat, totalCost: real): Models.Record
  {
    Models.NewRecord(index + 1, env.formatProb(s1.successUntil, cfg.probType, cfg.probPrecision), totalCost)
  }

  /** The loop of `create_records` from trial `index` on, with `totalCost`
      charged so far and at most `fuel` more trials. */
  function Run(
    cfg: Settings, env: Externals, useRange: bool, csvActive: bool,
    s: CalcState, rows: seq<Option<seq<string>>>, index: nat, totalCost: real, fuel: nat): Result<Finished, Fault>
    decreases fuel
  {
    if fuel == 0 then Err(BoundReached)
    else
      match Advance(cfg, env, csvActive, s, rows, index)
      case Err(e) => Err(e)
      case Ok(s1) =>
        var record := TrialRecord(cfg, env, s1, index, totalCost);
        if Stops(cfg, useRange, s1, totalCost + s1.cost, index) then Ok(Finished([record], s1))
        else Prepend([record], Run(cfg, env, useRange, csvActive, s1, RowsAfterTrial(csvActive, rows), index + 1, totalCost + s1.cost, fuel - 1))
  }

  /** The rows left after a trial: one is taken only when a CSV is in use. */
  function RowsAfterTrial(csvActive: bool, rows: seq<Option<seq<string>>>): seq<Option<seq<string>>>
  {
    if csvActive then Consumed(rows) else rows
  }

  /** `rs` in front of a run's records; a fault stays the fault. */
  function Prepend(rs: seq<Models.Record>, r: Result<Finished, Fault>): Result<Finished, Fault>
  {
    match r
    case Ok(f) => Ok(Finished(rs + f.records, f.last))
    case Err(e) => Err(e)
  }

  /** The bookkeeping of one loop iteration: when the run from here is
      `record` followed (unless it stops) by `next`, the prefix grows by
      `record`. */
  lemma ExtendPrefix(
    whole: Result<Finished, Fault>, records: seq<Models.Record>, record: Models.Record, s1: CalcState,
    here: Result<Finished, Fault>, next: Result<Finished, Fault>, stops: bool)
    requires whole == Prepend(records, here)
    requires here == if stops then Ok(Finished([record], s1)) else Prepend([record], next)
    ensures stops ==> whole == Ok(Finished(records + [record], s1))
    ensures !stops ==> whole == Prepend(records + [record], next)
  {
    if !stops && next.Ok? {
      assert records + ([record] + next.value.records) == (records + [record]) + next.value.records;
    }
  }

  /** One trial of a run: when the trial succeeds, the run is that trial's
      record followed, unless a stop condition holds, by the run from the
      next trial on. */
  lemma RunUnfold(
    cfg: Settings, env: Externals, useRange: bool, csvActive: bool,
    s: CalcState, rows: seq<Option<seq<string>>>, index: nat, totalCost: real, fuel: nat, s1: CalcState)
    requires fuel > 0 && Advance(cfg, env, csvActive, s, rows, index) == Ok(s1)
    ensures var record := TrialRecord(cfg, env, s1, index, totalCost);
      Run(cfg, env, useRange, csvActive, s, rows, index, totalCost, fuel)
        == if Stops(cfg, useRange, s1, totalCost + s1.cost, index) then Ok(Finished([record], s1))
           else Prepend([record], Run(cfg, env, useRange, csvActive, s1, RowsAfterTrial(csvActive, rows), index + 1, totalCost + s1.cost, fuel - 1))
  {
  }

  /** `conditional_sanity_check`: a conditional run needs a target or a
      budget, and without a CSV a budget needs a cost and a target needs a
      probability. */
  function SanityCheck(cfg: Settings, s: CalcState): (r: Outcome<GcalcError>)
    ensures r.Fail? <==>
      || (cfg.targetProbability.None? && cfg.budget.None?)
      || (cfg.csvRef == Models.NoCsv && cfg.budget.Some? && s.cost == 0.0)
      || (cfg.csvRef == Models.NoCsv && cfg.targetProbability.Some? && s.probability == 0.0)
    ensures r.Fail? ==> r.error.InvalidConditional?
  {
    if cfg.targetProbability.None? && cfg.budget.None? then
      Fail(InvalidConditional("Either target probability or budget should be present"))
    else if cfg.csvRef == Models.NoCsv && cfg.budget.Some? && s.cost == 0.0 then
      Fail(InvalidConditional("0 cost with budget will incur infinite loop"))
    else if cfg.csvRef == Models.NoCsv && cfg.targetProbability.Some? && s.probability == 0.0 then
      Fail(InvalidConditional("0 probability with target probability will incur infinite loop"))
    else Pass
  }

  /** The CSV text: read from the file, taken inline, or empty. */
  function CsvValue(csvRef: Models.CsvRef, env: Externals): (r: Result<string, Fault>)
    ensures csvRef.NoCsv? ==> r == Ok("")
    ensures csvRef.Raw? ==> r == Ok(csvRef.text)
    ensures csvRef.File? && env.readFile(csvRef.path).Err? ==> r == Err(Raised(StdIo(env.readFile(csvRef.path).error)))
    ensures csvRef.File? && env.readFile(csvRef.path).Ok? ==> r == Ok(env.readFile(csvRef.path).value)
  {
    match csvRef
    case File(path) =>
      (match env.readFile(path)
       case Ok(text) => Ok(text)
       case Err(e) => Err(Raised(StdIo(e))))
    case Raw(text) => Ok(text)
    case NoCsv => Ok("")
  }

  /** What `create_records` computes from the settings and the state it
      starts from, exploring at most `bound` trials. */
  function CreateRecordsSpec(cfg: Settings, env: Externals, useRange: bool, s: CalcState, bound: nat): Result<Finished, Fault>
  {
    if !useRange && SanityCheck(cfg, s).Fail? then Err(Raised(SanityCheck(cfg, s).error))
    else
      match CsvValue(cfg.csvRef, env)
      case Err(e) => Err(e)
      case Ok(csvValue) =>
        Run(cfg, env, useRange, csvValue != "", s, env.readCsv(csvValue, !cfg.csvNoHeader), 0, 0.0, bound)
  }

  /** The records of a run, or its fault. */
  function RecordsResult(r: Result<Finished, Fault>): Result<seq<Models.Record>, Fault>
  {
    match r
    case Ok(f) => Ok(f.records)
    case Err(e) => Err(e)
  }

  /** `print_qualfication`'s summary: the number of records and the cost on
      the last one (0 when there is none). */
  function QualificationOf(records: seq<Models.Record>): (q: (nat, real))
    ensures q.0 == |records|
    ensures records != [] ==> q.1 == records[|records| - 1].cost
    ensures records == [] ==> q.1 == 0.0
  {
    var last := if records == [] then Models.NewRecord(0, "", 0.0) else records[|records| - 1];
    (|records|, last.cost)
  }

  class Calculator {
    var state: CalcState
    var count: nat
    var format: TableFormat
    var csvRef: Models.CsvRef
    var csvNoHeader: bool
    var columnMap: Models.ColumnMap
    var probPrecision: Option<nat>
    var budget: Option<real>
    var targetProbability: Option<real>
    var probType: ProbType
    var behaviour: CsvBehaviour

    /** The calculator's fields other than its state, as a value. */
    function Snapshot(): Settings
      reads this
    {
      Settings(count, format, csvRef, csvNoHeader, columnMap, probPrecision, budget, targetProbability, probType, behaviour)
    }

    /** The struct literal of `Calculator::new`. */
    constructor (startProbability: real)
      ensures state == NewCalcState(startProbability)
      ensures Snapshot() == DefaultSnapshot()
    {
      state := NewCalcState(startProbability);
      count := 0;
      csvRef := Models.NoCsv;
      csvNoHeader := false;
      columnMap := Models.NewColumnMap(CountIndex, BasicProbIndex, AddedProbIndex, CostIndex);
      format := Csv;
      probPrecision := None;
      targetProbability := None;
      budget := None;
      probType := Float;
      behaviour := Repeat;
    }

    /** `Calculator::new`: refuses a start probability above 1 (a negative
        one is accepted). */
    static method New(startProbability: real, display: real -> string) returns (r: Result<Calculator, GcalcError>)
      ensures r.Ok? <==> startProbability <= 1.0
      ensures r.Err? ==> r.error == InvalidArgument("Given probability of " + display(startProbability) + " which should not be bigger than 1.0")
      ensures r.Ok? ==> fresh(r.value) && r.value.state == NewCalcState(startProbability)
      ensures r.Ok? ==> r.value.Snapshot() == DefaultSnapshot()
    {
      if startProbability > 1.0 {
        return Err(InvalidArgument("Given probability of " + display(startProbability) + " which should not be bigger than 1.0"));
      }
      var c := new Calculator(startProbability);
      r := Ok(c);
    }

    // Builder methods: each sets one field and hands the calculator back.

    method WithNoHeader(tv: bool) returns (self: Calculator)
      modifies this
      ensures self == this && state == old(state)
      ensures Snapshot() == old(Snapshot()).(csvNoHeader := tv)
    {
      csvNoHeader := tv;
      self := this;
    }

    method WithColumnMap(m: Models.ColumnMap) returns (self: Calculator)
      modifies this
      ensures self == this && state == old(state)
      ensures Snapshot() == old(Snapshot()).(columnMap := m)
    {
      columnMap := m;
      self := this;
    }

    /** `panic_on_invlaid_csv`: `true` selects `Panic`, `false` `Repeat`. */
    method WithPanicOnInvalidCsv(tv: bool) returns (self: Calculator)
      modifies this
      ensures self == this && state == old(state)
      ensures Snapshot() == old(Snapshot()).(behaviour := if tv then Panic else Repeat)
    {
      if tv { behaviour := Panic; } else { behaviour := Repeat; }
      self := this;
    }

    /** The builder form takes any target, unchecked. */
    method WithTargetProbability(target: real) returns (self: Calculator)
      modifies this
      ensures self == this && state == old(state)
      ensures Snapshot() == old(Snapshot()).(targetProbability := Some(target))
    {
      targetProbability := Some(target);
      self := this;
    }

    method WithBudget(b: real) returns (self: Calculator)
      modifies this
      ensures self == this && state == old(state)
      ensures Snapshot() == old(Snapshot()).(budget := Some(b))
    {
      budget := Some(b);
      self := this;
    }

    method WithTableFormat(f: TableFormat) returns (self: Calculator)
      modifies this
      ensures self == this && state == old(state)
      ensures Snapshot() == old(Snapshot()).(format := f)
    {
      format := f;
      self := this;
    }

    method WithProbType(p: ProbType) returns (self: Calculator)
      modifies this
      ensures self == this && state == old(state)
      ensures Snapshot() == old(Snapshot()).(probType := p)
    {
      probType := p;
      self := this;
    }

    method WithPrecision(precision: nat) returns (self: Calculator)
      modifies this
      ensures self == this && state == old(state)
      ensures Snapshot() == old(Snapshot()).(probPrecision := Some(precision))
    {
      probPrecision := Some(precision);
      self := this;
    }

    method WithCsvRef(reference: Models.CsvRef) returns (self: Calculator)
      modifies this
      ensures self == this && state == old(state)
      ensures Snapshot() == old(Snapshot()).(csvRef := reference)
    {
      csvRef := reference;
      self := this;
    }

    /** The cost lives in the state, not in the settings. */
    method WithCost(cost: real) returns (self: Calculator)
      modifies this
      ensures self == this && Snapshot() == old(Snapshot())
      ensures state == old(state).(cost := cost)
    {
      state := state.(cost := cost);
      self := this;
    }

    // Setters.

    method SetColumnMap(m: Models.ColumnMap)
      modifies this
      ensures state == old(state) && Snapshot() == old(Snapshot()).(columnMap := m)
    {
      columnMap := m;
    }

    method SetNoHeader(tv: bool)
      modifies this
      ensures state == old(state) && Snapshot() == old(Snapshot()).(csvNoHeader := tv)
    {
      csvNoHeader := tv;
    }

    method SetCost(cost: real)
      modifies this
      ensures Snapshot() == old(Snapshot()) && state == old(state).(cost := cost)
    {
      state := state.(cost := cost);
    }

    /** `set_target_probability`: unlike the builder, it refuses a target
        outside [0, 1] and then changes nothing. */
    method SetTargetProbability(target: real, display: real -> string) returns (r: Outcome<GcalcError>)
      modifies this
      ensures r.Pass? <==> 0.0 <= target <= 1.0
      ensures state == old(state)
      ensures r.Pass? ==> Snapshot() == old(Snapshot()).(targetProbability := Some(target))
      ensures r.Fail? ==> Snapshot() == old(Snapshot())
      ensures r.Fail? ==> r.error == InvalidArgument(
        "Given probability \"" + display(target) + "\" is should be bigger than 0.0 and smaller than 1.0")
    {
      if target > 1.0 || target < 0.0 {
        return Fail(InvalidArgument(
          "Given probability \"" + display(target) + "\" is should be bigger than 0.0 and smaller than 1.0"));
      }
      targetProbability := Some(target);
      r := Pass;
    }

    method SetBudget(b: real)
      modifies this
      ensures state == old(state) && Snapshot() == old(Snapshot()).(budget := Some(b))
    {
      budget := Some(b);
    }

    method SetTableFormat(f: TableFormat)
      modifies this
      ensures state == old(state) && Snapshot() == old(Snapshot()).(format := f)
    {
      format := f;
    }

    method SetProbType(p: ProbType)
      modifies this
      ensures state == old(state) && Snapshot() == old(Snapshot()).(probType := p)
    {
      probType := p;
    }

    method SetPrecision(precision: nat)
      modifies this
      ensures state == old(state) && Snapshot() == old(Snapshot()).(probPrecision := Some(precision))
    {
      probPrecision := Some(precision);
    }

    method SetCsvFile(reference: Models.CsvRef)
      modifies this
      ensures state == old(state) && Snapshot() == old(Snapshot()).(csvRef := reference)
    {
      csvRef := reference;
    }

    /** `calculate_fail_success`: checks the bonus, then advances the
        recurrence in place. */
    method CalculateFailSuccess(env: Externals) returns (r: Outcome<GcalcError>)
      modifies this
      ensures Snapshot() == old(Snapshot())
      ensures r == env.probSanityCheck(old(state).constant)
      ensures state == if r.Pass? then Step(old(state)) else old(state)
    {
      r := env.probSanityCheck(state.constant);
      if r.Fail? {
        return;
      }
      var success := state.probability + state.constant;
      if success > 1.0 {
        success := 1.0;
      }
      state := state.(successUntil := state.successUntil + state.failUntil * success);
      var failProb := 1.0 - success;
      if failProb < 0.0 {
        failProb := 0.0;
      }
      state := state.(failUntil := state.failUntil * failProb);
    }

    /** `update_state_from_csv_file`: takes the next row of the reader (the
        rows not yet taken are `rows`) and overwrites each field whose
        column the row has. */
    method UpdateStateFromCsvFile(rows: seq<Option<seq<string>>>, index: nat, parse: string -> Option<real>)
      returns (rest: seq<Option<seq<string>>>, r: Outcome<Fault>)
      modifies this
      ensures Snapshot() == old(Snapshot())
      ensures rest == Consumed(rows)
      ensures var p := Pull(old(state), rows, index, columnMap, behaviour, parse);
        && (p.Ok? <==> r.Pass?)
        && (p.Ok? ==> state == p.value)
        && (p.Err? ==> r.error == p.error)
      ensures rows == [] ==> state == old(state)
    {
      if rows == [] {
        rest := [];
        match behaviour {
          case Repeat =>
            r := Pass;
          case Panic =>
            r := Fail(Raised(CsvError(EmptyRowMessage(index))));
        }
        return;
      }
      rest := rows[1..];
      if rows[0].None? {
        return rest, Fail(Panicked("Failed to parse row"));
      }
      var row := rows[0].value;
      if |row| > columnMap.probability {
        var v := parse(row[columnMap.probability]);
        if v.None? {
          return rest, Fail(Panicked("Failed to parse"));
        }
        state := state.(probability := v.value);
      }
      if |row| > columnMap.constant {
        var v := parse(row[columnMap.constant]);
        if v.None? {
          return rest, Fail(Panicked("Failed to parse"));
        }
        state := state.(constant := v.value);
      }
      if |row| > columnMap.cost {
        var v := parse(row[columnMap.cost]);
        if v.None? {
          return rest, Fail(Panicked("Failed to parse"));
        }
        state := state.(cost := v.value);
      }
      r := Pass;
    }

    /** `create_records`: validates a conditional run, reads the CSV, then
        pushes one record per trial until a stop condition holds. A run that
        reaches no stop within `bound` trials ends in `BoundReached` (the
        source would go on looping). */
    method CreateRecords(useRange: bool, env: Externals, bound: nat) returns (r: Result<seq<Models.Record>, Fault>)
      modifies this
      ensures Snapshot() == old(Snapshot())
      ensures r == RecordsResult(CreateRecordsSpec(old(Snapshot()), env, useRange, old(state), bound))
      ensures r.Ok? ==> state == CreateRecordsSpec(old(Snapshot()), env, useRange, old(state), bound).value.last
    {
      if !useRange {
        var check := SanityCheck(Snapshot(), state);
        if check.Fail? {
          return Err(Raised(check.error));
        }
      }
      var csvValue: string;
      match csvRef {
        case File(path) =>
          var read := env.readFile(path);
          if read.Err? {
            return Err(Raised(StdIo(read.error)));
          }
          csvValue := read.value;
        case Raw(text) =>
          csvValue := text;
        case NoCsv =>
          csvValue := "";
      }
      r := RunTrials(useRange, env, csvValue != "", env.readCsv(csvValue, !csvNoHeader), bound);
    }

    /** The first two steps of an iteration of `create_records`: pull the
        next row when a CSV is in use, then advance the recurrence. */
    method AdvanceTrial(csvActive: bool, rows: seq<Option<seq<string>>>, index: nat, env: Externals)
      returns (rest: seq<Option<seq<string>>>, r: Outcome<Fault>)
      modifies this
      ensures Snapshot() == old(Snapshot())
      ensures rest == RowsAfterTrial(csvActive, rows)
      ensures var a := Advance(old(Snapshot()), env, csvActive, old(state), rows, index);
        && (a.Ok? <==> r.Pass?)
        && (a.Ok? ==> state == a.value)
        && (a.Err? ==> r.error == a.error)
      ensures var p := if csvActive then Pull(old(state), rows, index, columnMap, behaviour, env.parseFloat) else Ok(old(state));
        r.Fail? && (p.Ok? || rows == []) ==> state == (if p.Ok? then p.value else old(state))
    {
      rest := rows;
      if csvActive {
        var pulled;
        rest, pulled := UpdateStateFromCsvFile(rows, index, env.parseFloat);
        if pulled.Fail? {
          return rest, pulled;
        }
      }
      var stepped := CalculateFailSuccess(env);
      if stepped.Fail? {
        return rest, Fail(Raised(stepped.error));
      }
      r := Pass;
    }

    /** One iteration of the loop of `create_records`: pull and advance,
        push the record numbered `index + 1` with the cost charged before
        this trial, charge the trial's cost, then check the target, the
        budget and (after `index` moves on) the range count. `whole` is the
        run the loop is computing; it stays the records so far followed by
        the run from the new position. */
    method TrialStep(
      useRange: bool, env: Externals, csvActive: bool, rows: seq<Option<seq<string>>>,
      records: seq<Models.Record>, index: nat, totalCost: real,
      ghost cfg: Settings, ghost fuel: nat, ghost whole: Result<Finished, Fault>)
      returns (rest: seq<Option<seq<string>>>, records': seq<Models.Record>, index': nat, totalCost': real,
               stop: bool, r: Outcome<Fault>, ghost fuel': nat)
      requires fuel > 0 && Snapshot() == cfg
      requires whole == Prepend(records, Run(cfg, env, useRange, csvActive, state, rows, index, totalCost, fuel))
      modifies this
      ensures Snapshot() == cfg && index' + fuel' == index + fuel && fuel' <= fuel
      ensures r.Fail? ==> whole == Err(r.error)
      ensures r.Pass? && stop ==> whole == Ok(Finished(records', state))
      ensures r.Pass? && !stop ==>
        && index' == index + 1 && fuel' == fuel - 1
        && whole == Prepend(records', Run(cfg, env, useRange, csvActive, state, rest, index', totalCost', fuel'))
    {
      ghost var before := state;
      ghost var here := Run(cfg, env, useRange, csvActive, state, rows, index, totalCost, fuel);
      rest, r := AdvanceTrial(csvActive, rows, index, env);
      records', index', totalCost', stop, fuel' := records, index, totalCost, true, fuel;
      if r.Fail? {
        return;
      }
      var probStr := env.formatProb(state.successUntil, probType, probPrecision);
      var record := Models.NewRecord(index + 1, probStr, totalCost);
      RunUnfold(cfg, env, useRange, csvActive, before, rows, index, totalCost, fuel, state);
      records' := records + [record];
      totalCost' := totalCost + state.cost;
      ghost var stops := Stops(cfg, useRange, state, totalCost', index);
      ExtendPrefix(whole, records, record, state, here,
        Run(cfg, env, useRange, csvActive, state, rest, index + 1, totalCost', fuel - 1), stops);
      if targetProbability.Some? && state.successUntil > targetProbability.value {
        return;
      }
      if budget.Some? && totalCost' > budget.value {
        return;
      }
      index', fuel' := index + 1, fuel - 1;
      stop := useRange && index' >= count;
    }

    /** The loop of `create_records`, one `TrialStep` per trial. */
    method RunTrials(useRange: bool, env: Externals, csvActive: bool, rows: seq<Option<seq<string>>>, bound: nat)
      returns (r: Result<seq<Models.Record>, Fault>)
      modifies this
      ensures Snapshot() == old(Snapshot())
      ensures r == RecordsResult(Run(old(Snapshot()), env, useRange, csvActive, old(state), rows, 0, 0.0, bound))
      ensures r.Ok? ==> state == Run(old(Snapshot()), env, useRange, csvActive, old(state), rows, 0, 0.0, bound).value.last
    {
      var csvRecord := rows;
      ghost var cfg := Snapshot();
      ghost var whole := Run(cfg, env, useRange, csvActive, state, rows, 0, 0.0, bound);
      var records: seq<Models.Record> := [];
      var totalCost := 0.0;
      var index: nat := 0;
      ghost var fuel: nat := bound;
      if whole.Ok? {
        assert [] + whole.value.records == whole.value.records;
      }
      var stop := false;
      while !stop
        invariant Snapshot() == cfg && index + fuel == bound
        invariant !stop ==> whole == Prepend(records, Run(cfg, env, useRange, csvActive, state, csvRecord, index, totalCost, fuel))
        invariant stop ==> whole == Ok(Finished(records, state))
        decreases fuel, if stop then 0 else 1
      {
        if index == bound {
          return Err(BoundReached);
        }
        var done;
        csvRecord, records, index, totalCost, stop, done, fuel :=
          TrialStep(useRange, env, csvActive, csvRecord, records, index, totalCost, cfg, fuel, whole);
        if done.Fail? {
          return Err(done.error);
        }
      }
      r := Ok(records);
    }

    /** `print_range` without the printing: sets `count`, makes a range run
        and returns its records with the window `(start, count)` the printer
        is given. */
    method PrintRange(newCount: nat, startIndex: Option<nat>, env: Externals, bound: nat)
      returns (r: Result<(seq<Models.Record>, (nat, nat)), Fault>)
      modifies this
      ensures Snapshot() == old(Snapshot()).(count := newCount)
      ensures var spec := RecordsResult(CreateRecordsSpec(old(Snapshot()).(count := newCount), env, true, old(state), bound));
        && (spec.Err? ==> r == Err(spec.error))
        && (spec.Ok? ==> r == Ok((spec.value, (if startIndex.Some? then startIndex.value else 0, newCount))))
      ensures r.Ok? ==> state == CreateRecordsSpec(old(Snapshot()).(count := newCount), env, true, old(state), bound).value.last
    {
      count := newCount;
      var records := CreateRecords(true, env, bound);
      if records.Err? {
        return Err(records.error);
      }
      r := Ok((records.value, (if startIndex.Some? then startIndex.value else 0, count)));
    }

    /** `print_conditional` without the printing: a conditional run's
        records, shown without a window. */
    method PrintConditional(env: Externals, bound: nat) returns (r: Result<seq<Models.Record>, Fault>)
      modifies this
      ensures Snapshot() == old(Snapshot())
      ensures r == RecordsResult(CreateRecordsSpec(old(Snapshot()), env, false, old(state), bound))
      ensures r.Ok? ==> state == CreateRecordsSpec(old(Snapshot()), env, false, old(state), bound).value.last
    {
      r := CreateRecords(false, env, bound);
    }

    /** `print_qualfication` without the printing: the trial count and the
        cost of a conditional run. */
    method PrintQualification(env: Externals, bound: nat) returns (r: Result<(nat, real), Fault>)
      modifies this
      ensures Snapshot() == old(Snapshot())
      ensures var spec := RecordsResult(CreateRecordsSpec(old(Snapshot()), env, false, old(state), bound));
        && (spec.Err? ==> r == Err(spec.error))
        && (spec.Ok? ==> r == Ok(QualificationOf(spec.value)))
      ensures r.Ok? ==> state == CreateRecordsSpec(old(Snapshot()), env, false, old(state), bound).value.last
    {
      var records := CreateRecords(false, env, bound);
      if records.Err? {
        return Err(records.error);
      }
      r := Ok(QualificationOf(records.value));
    }
  }
}
