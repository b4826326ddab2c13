# gcalc in Dafny

A model of the calculation core of gcalc, a calculator for repeated independent trials (gacha pulls,
item upgrades). Each trial succeeds with a probability plus an additive bonus, capped at 1, and costs
a fixed amount. The calculator follows two accumulators from trial to trial:
- `success_until`, the chance of at least one success so far;
- `fail_until`, the chance that every trial so far has failed.

A CSV table may override the probability, the bonus and the cost, one row per trial. The calculator
pushes one record per trial until one of three things happens: a target probability is exceeded, a
budget is exceeded, or (in range mode) a fixed number of trials has been made.

The model has eight modules.
- `Wrappers`: the `Option`, `Result` and `Result<(), E>` (`Outcome`) shapes.
- `Errors`: the error variants of `GcalcError`.
- `Text`: lowercasing of ASCII letters, the decimal text of a number, and joining lines.
- `Models` (src/models.rs): column maps, records, qualifications and the case-insensitive parsers.
- `Formatter` (src/formatter.rs):
  - `to_raw_csv`, an imperative loop over the records proved against the slice it selects;
  - the qualification line.
- `Calc` (src/calc.rs):
  - the per-trial state `CalcState` and its recurrence `Step`;
  - the CSV row merge (`Override`, `Pull`) and the validator of conditional runs (`SanityCheck`);
  - the function `Run`, which states what the loop of `create_records` computes;
  - the class `Calculator`, whose fields, builders, setters and processing methods update state in
    place. Each method is proved against `Run` and its companions.
- `CalcLemmas`, `CalcTermination`: what `Run` guarantees.
  - The form of every finished run, with or without a CSV:
    - dense numbering and conservation of `success_until + fail_until`;
    - one CSV row per trial, and the behaviour once rows run out;
    - each record carries the cost of the trials before it;
    - the run stops at the first trial that meets a stop condition.
  - Runs without a CSV: the closed form `1 - (1 - p)^n`, the records in closed form, and stopping at
    the first trial that meets a stop condition.
  - Termination: range runs make at most `max(count, 1)` trials, fewer only when the last trial met the
    target or the budget test. Without a CSV, a budget with a positive cost always stops the run. So does
    a target below `success_until + fail_until` with a positive chance, by Bernoulli's inequality.
  - What the validator rejects, without a CSV:
    - a budget with cost 0, no target and a total not yet over the budget never stops;
    - a target with probability 0, no bonus and no budget never stops, while `success_until` is at or
      below the target.
  - What it misses: a target at or above `success_until + fail_until`, such as 1.0 from a fresh state with a
    non-negative chance and `fail_until` in [0, 1].
    `set_target_probability` accepts it. The validator lets it through whenever the probability is not
    0, and without a budget the run never stops.
  - A second miss: the validator checks whether a CSV is *referenced*, while the loop checks whether its
    text is *empty*. An empty inline CSV, or a file that reads back empty, passes the no-CSV checks and
    then runs without a CSV. `CalcTermination.EmptyCsvPassesValidator` shows a budget with cost 0 that
    gets through this way and never stops.

Collaborators the core calls but does not define are fields of the `Calc.Externals` value given to each
operation:
- reading a file (`std::fs::read_to_string`);
- splitting a CSV text into rows (the `csv` crate);
- parsing a float (`str::parse::<f32>`);
- `utils::prob_sanity_check` and `utils::get_prob_as_formatted` (src/utils.rs has neither);
- the `Display` text of an `f32`.

How a record or a qualification becomes a CSV line (`join_as_csv`) is a parameter of the formatters, and
so is `LINE_ENDING`. Floating point is modelled by `real`.

The source loop may run forever, so `create_records` takes a bound on the number of trials. Hitting it is
the fault `BoundReached`, which the source never reports. `CalcLemmas.FuelIrrelevant` shows that the
bound does not change a run that ends inside it, and `CalcTermination` shows when runs end.

Some details of the code that the model keeps:
- Record costs. The code pushes a record *before* charging its trial. So record `i` carries the cost of
  the trials before it, the first carries 0, and `print_qualfication` reports the cost on the last
  record, which leaves out the last trial's cost.
- Strict tests. The stop tests are strict (`>`).
- Validator. It has only three checks. None of them rejects a target of 1.0.
  `CalcTermination.TargetAtMassNeverStops` shows the loop that results.
- CSV row handling (calc.rs):
  - a field whose column is missing keeps its value;
  - a field that does not parse panics;
  - exhausted rows follow `Repeat` or `Panic`.
  
  calc.rs does not use the `CSVInvalidBehaviour` fallback policies of src/models.rs, and it has no
  default for an empty cost field.
- Qualification. calc.rs builds it from the count and the cost only, with the two-argument
  `Qualficiation::new`, and does not include a final probability.
- Two enums. calc.rs has its own `ProbType` (only "percentage" and "float") and `CsvBehaviour`. These are
  modelled separately from the `ProbType` of src/models.rs, which also accepts "percent" and names its
  second variant `Fraction`.

## Model

| member | source | states |
|---|---|---|
| Models.DefaultColumnMap | src/models.rs:24-33 | the default layout reads count, probability, bonus and cost from columns 0, 1, 2 and 3, one field per column |
| Models.NewColumnMap | src/models.rs:36-38 | the four arguments become the four fields, in order |
| Models.NewQualification | src/models.rs:49-56 | count, cost and probability are stored unchanged although the argument order differs from the field order |
| Models.NewRecord | src/models.rs:67-75 | count, probability text and cost are stored unchanged |
| Models.CsvInvalidBehaviourFromStr | src/models.rs:94-103 | yields each variant exactly when the lower-cased text is "rollback", "ignore" or "none"; any other text is an `InvalidConversion` naming the original text |
| Models.ProbTypeFromStr | src/models.rs:124-131 | `Percentage` exactly for "percentage" or "percent", `Fraction` exactly for "float", in lower case after lowercasing; anything else is an `InvalidConversion` |
| Models.CsvInvalidBehaviourAccepts | src/models.rs:94-103 | the accepted inputs are exactly the capitalisations of the three variant names, and the error case is exactly the rest |
| Models.ProbTypeAccepts | src/models.rs:124-131 | the accepted inputs are exactly the capitalisations of "percentage", "percent" and "float" |
| Models.FromStrIgnoresCase | src/models.rs:96 | both parsers give the same answer on a text and on its lower-cased form |
| Text.Lower | src/models.rs:96 | lowercasing keeps the length and lowercases each ASCII letter in place |
| Text.LowerIsWord | src/models.rs:96-99 | for a lower-case word, a text lowercases to it exactly when it is a capitalisation of it |
| Text.LowerIdempotent | src/models.rs:96 | lowercasing twice is lowercasing once |
| Text.Decimal | src/calc.rs:318 | the index in the exhausted-rows message is written with decimal digits and no leading zero |
| Text.DecimalValue | src/calc.rs:318 | that text reads back as the index, so different trials give different messages |
| Text.Join | src/formatter.rs:50 | `join` of the lines with a separator between consecutive lines |
| Text.JoinIsHeadThenPrefixed | src/formatter.rs:50 | a join is the first line followed by each later line behind one separator, with no trailing separator |
| Formatter.LineEnding | src/formatter.rs:10-13 | the separator is CRLF on Windows and LF elsewhere |
| Formatter.Window | src/formatter.rs:39-43 | the window is the given pair, or `(0, len)` without a range |
| Formatter.Selected | src/formatter.rs:44-48 | the enumerated loop's pushes: a record's line is kept when its position lies in the inclusive window, in record order |
| Formatter.AllLines | src/formatter.rs:44-48 | one line per record, in record order |
| Formatter.SelectedIsSlice | src/formatter.rs:44-48 | the record at position i is written exactly when min <= i <= max (both inclusive); the kept lines are the slice `records[min..=max]` clipped to the records, in order, and their number is the size of that window |
| Formatter.NoRangeKeepsAll | src/formatter.rs:39-48 | without a range every record is written, in order |
| Formatter.ToRawCsv | src/formatter.rs:34-53 | the enumerated loop produces the header line followed by the selected lines, joined by the line ending; it never fails |
| Formatter.RawCsvShape | src/formatter.rs:38-50 | the output starts with `count,probability,cost,constant,value`, has one line more than the selected records, and is only the header when min > max or min >= len |
| Formatter.ToCsvTable | src/formatter.rs:19-22 | the qualification table is exactly the qualification's CSV line, and never an error |
| Calc.TableFormatFromStr | src/calc.rs:58-66 | `Console`, `Csv` and `Gfm` exactly for "console", "csv", and "gfm" or "github" after lowercasing; anything else is an `InvalidConversion` naming the text |
| Calc.ProbTypeFromStr | src/calc.rs:74-82 | `Percentage` exactly for "percentage" and `Float` exactly for "float" after lowercasing; anything else is an error |
| Calc.NewCalcState | src/calc.rs:40-49 | a fresh state has no bonus and no cost, `success_until` 0 and `fail_until` 1, so the two sum to 1 |
| Calc.SuccessChance | src/calc.rs:330 | the chance of one trial is probability plus bonus when that is at most 1, and 1 otherwise |
| Calc.Step | src/calc.rs:327-336 | a trial changes only `success_until` and `fail_until` |
| Calc.StepConserves | src/calc.rs:330-334 | a trial keeps `success_until + fail_until` whatever the probability and bonus, and scales `fail_until` by the chance of failing |
| Calc.StepMonotone | src/calc.rs:330-334 | with a non-negative chance and `fail_until` in [0, 1], `success_until` never decreases and `fail_until` stays in [0, 1] and never increases |
| Calc.DefaultSnapshot | src/calc.rs:92-104 | a new calculator has the default column map, no CSV, no budget and no target |
| Calc.ReadColumn | src/calc.rs:296-312 | a column beyond the row is absent, a column that parses gives its value, and one that does not parse panics |
| Calc.Override | src/calc.rs:292-313 | merging a row fails exactly when a present column does not parse; otherwise each field whose column the row has takes that value, every other field keeps its value, and the accumulators are untouched |
| Calc.Pull | src/calc.rs:290-324 | with rows left, the next row is merged (or the reader's bad row panics); with none left, `Repeat` keeps the state and `Panic` fails with `CsvError` naming the 0-based index |
| Calc.Consumed | src/calc.rs:291 | taking a row removes exactly the first one; an exhausted reader stays exhausted |
| Calc.EmptyRowMessage | src/calc.rs:318 | the `Panic` message for exhausted rows: `Empty row in index: ` followed by the decimal trial index |
| Calc.Advance | src/calc.rs:256-257 | one trial before its record: the row merge when the CSV text is not empty, then the bonus check and the recurrence; a fault of either ends the trial |
| Calc.Stops | src/calc.rs:267-280 | the loop exits after a trial when `success_until` is strictly above the target, or the cost charged so far including this trial is strictly above the budget, or in range mode the next index reaches `count` |
| Calc.TrialRecord | src/calc.rs:259-264 | the record of trial `index` is numbered `index + 1`, shows the formatted `success_until` after the trial and carries the cost charged before it |
| Calc.Run | src/calc.rs:254-281 | the loop of `create_records`: trial after trial, one record each, until a stop test holds or a trial fails; at most `fuel` trials |
| Calc.RunUnfold | src/calc.rs:254-281 | after a trial that succeeds, a run is that trial's record followed, unless a stop condition holds, by the run from the next trial with the rows that remain and the cost charged |
| Calc.ExtendPrefix | src/calc.rs:264-281 | pushing a record keeps "records so far followed by the rest of the run" equal to the whole run |
| Calc.SanityCheck | src/calc.rs:338-353 | fails, always with `InvalidConditional`, exactly when both target and budget are absent, or there is no CSV and a budget is set with cost 0, or there is no CSV and a target is set with probability 0 |
| Calc.CsvValue | src/calc.rs:238-242 | the CSV text is the file's content (or its io error), the inline text, or empty |
| Calc.CreateRecordsSpec | src/calc.rs:233-249 | `create_records` before the loop: the validator only in conditional mode, then the CSV text, its rows (with a header row unless `no_header`), and the loop from index 0 with cost 0 |
| Calc.QualificationOf | src/calc.rs:222-223 | the summary is the number of records and the cost on the last record, or 0 with no record |
| Calc.Calculator.constructor | src/calc.rs:92-104 | a new calculator holds a fresh state for the start probability and the default settings |
| Calc.Calculator.New | src/calc.rs:87-105 | succeeds exactly when the start probability is at most 1 (negatives are accepted), and otherwise fails with `InvalidArgument` |
| Calc.Calculator.WithNoHeader | src/calc.rs:107-110 | sets only the header flag and hands back the same calculator |
| Calc.Calculator.WithColumnMap | src/calc.rs:112-115 | sets only the column map |
| Calc.Calculator.WithPanicOnInvalidCsv | src/calc.rs:117-121 | `true` selects `Panic` and `false` selects `Repeat`; nothing else changes |
| Calc.Calculator.WithTargetProbability | src/calc.rs:123-126 | sets the target to any value, unchecked |
| Calc.Calculator.WithBudget | src/calc.rs:128-131 | sets only the budget |
| Calc.Calculator.WithTableFormat | src/calc.rs:133-136 | sets only the table format |
| Calc.Calculator.WithProbType | src/calc.rs:138-141 | sets only the probability type |
| Calc.Calculator.WithPrecision | src/calc.rs:143-146 | sets only the precision |
| Calc.Calculator.WithCsvRef | src/calc.rs:148-151 | sets only the CSV reference |
| Calc.Calculator.WithCost | src/calc.rs:153-156 | sets the cost in the state and changes no setting |
| Calc.Calculator.SetColumnMap | src/calc.rs:162-164 | sets only the column map |
| Calc.Calculator.SetNoHeader | src/calc.rs:166-168 | sets only the header flag |
| Calc.Calculator.SetCost | src/calc.rs:170-172 | sets only the state's cost |
| Calc.Calculator.SetTargetProbability | src/calc.rs:174-181 | accepts exactly the targets in [0, 1] and then sets the target; otherwise fails with `InvalidArgument` and changes nothing |
| Calc.Calculator.SetBudget | src/calc.rs:183-185 | sets only the budget |
| Calc.Calculator.SetTableFormat | src/calc.rs:187-189 | sets only the table format |
| Calc.Calculator.SetProbType | src/calc.rs:191-193 | sets only the probability type |
| Calc.Calculator.SetPrecision | src/calc.rs:195-197 | sets only the precision |
| Calc.Calculator.SetCsvFile | src/calc.rs:199-201 | sets only the CSV reference |
| Calc.Calculator.CalculateFailSuccess | src/calc.rs:327-336 | a failing bonus check leaves the state and returns its error; otherwise the state advances by one trial of the recurrence |
| Calc.Calculator.UpdateStateFromCsvFile | src/calc.rs:290-324 | the in-place merge takes one row and leaves the state that `Pull` describes, or fails with the same fault; when the rows have run out the state is unchanged, as the `CsvError` return comes before any update |
| Calc.Calculator.AdvanceTrial | src/calc.rs:256-257 | a trial pulls a row when a CSV is in use, then advances the state, failing as `Advance` does; after a failed sanity check the state holds the merged row, and after an exhausted-rows `CsvError` it is unchanged |
| Calc.Calculator.TrialStep | src/calc.rs:255-281 | one loop iteration keeps "records so far followed by the rest of the run" equal to the run being computed, and stops exactly when the run does |
| Calc.Calculator.RunTrials | src/calc.rs:250-283 | the loop returns the records of `Run` from trial 0 with cost 0 (or its fault) and leaves the state after the last trial |
| Calc.Calculator.CreateRecords | src/calc.rs:231-284 | returns the records of `CreateRecordsSpec` (validator in conditional mode, CSV text, then the loop) or its fault, leaves the settings unchanged, and leaves the state after the last trial |
| Calc.Calculator.PrintRange | src/calc.rs:205-211 | sets `count`, makes a range run and returns its records with the window `(start or 0, count)`, leaving the state after the run's last trial |
| Calc.Calculator.PrintConditional | src/calc.rs:213-217 | returns the records of a conditional run, or its fault, and leaves the state after the run's last trial, so a later run goes on from it |
| Calc.Calculator.PrintQualification | src/calc.rs:219-228 | returns the record count and the cost on the last record of a conditional run, or its fault, and leaves the state after the run's last trial |
| CalcLemmas.AdvanceKeepsMass | src/calc.rs:290-336 | a trial, CSV merge included, keeps `success_until + fail_until` |
| CalcLemmas.RunNumbering | src/calc.rs:251-276 | a finished run has between 1 and `bound` records, numbered densely `index + 1, index + 2, ...`, and the first carries the cost charged before the run (0 at the start) |
| CalcLemmas.RunConserves | src/calc.rs:254-281 | the state a finished run leaves has the `success_until + fail_until` it started with, so 1 from a fresh state |
| CalcLemmas.RunEndsOnStop | src/calc.rs:267-280 | a finished run, CSV or not, ended because its last trial met a stop test: on the state it leaves, with the cost on its last record plus that trial's cost, at index `index + records - 1` |
| CalcLemmas.Trace | src/calc.rs:254-281 | the states after each of the first `n` trials of a run, each trial taking its own CSV row, or the fault of the first trial that fails |
| CalcLemmas.TraceUnfold | src/calc.rs:256-257 | a trace is the state after the first trial followed by the trace from the next trial on |
| CalcLemmas.RunTrace | src/calc.rs:251-280 | every finished run, with or without a CSV, follows its trace. There is one state per record, and the last state is the one the run leaves. Record `i` is that of trial `index + i` on the `i`-th state, and carries `totalCost` plus the costs of the earlier trials. No trial before the last met a stop test, so the run ended at the first trial that did |
| CalcLemmas.FuelIrrelevant | src/calc.rs:254-281 | a run that ends within the bound ends the same way with any larger bound |
| CalcLemmas.ExhaustedRows | src/calc.rs:314-321 | once rows run out, `Repeat` behaves exactly like a run without a CSV, and `Panic` fails at once with `CsvError` naming the trial |
| CalcLemmas.CsvTrialTakesRow | src/calc.rs:290-313 | with a CSV each trial takes exactly the next row: an unreadable row or an unparsable column panics, and otherwise the trial runs on the merged state and the rest of the run sees the remaining rows |
| CalcLemmas.Iterate | src/calc.rs:327-336 | `n` trials keep probability, bonus, cost and chance |
| CalcLemmas.IterateShift | src/calc.rs:327-336 | `n` trials after one trial are `n + 1` trials |
| CalcLemmas.IterateDecays | src/calc.rs:330-334 | each trial scales `fail_until` by the chance of failing and keeps `success_until + fail_until` |
| CalcLemmas.DecayIsPow | src/calc.rs:334 | scaling `n` times by `x` is multiplying by `x^n` |
| CalcLemmas.IterateClosedForm | src/calc.rs:327-336 | after `n` trials with chance `q`, `fail_until = f (1 - q)^n` and `success_until = s + f - f (1 - q)^n` |
| CalcLemmas.FreshClosedForm | src/calc.rs:41-48 | from a fresh state with probability `p <= 1`, `n` trials give `fail_until = (1 - p)^n` and `success_until = 1 - (1 - p)^n` |
| CalcLemmas.IterateMonotone | src/calc.rs:330-334 | with a non-negative chance, `success_until` never decreases over the trials and `fail_until` stays in [0, 1] |
| CalcLemmas.PlainRecords | src/calc.rs:254-281 | without a CSV, `n` trials give `n` records |
| CalcLemmas.ChargedClosedForm | src/calc.rs:265 | charging the same cost `k` times adds `k` times that cost |
| CalcLemmas.PlainRecordsAt | src/calc.rs:259-265 | record `i` of a run without a CSV is the record of trial `index + i` with the state after `i + 1` trials and the cost of the `i` trials before it |
| CalcLemmas.PlainRecordFields | src/calc.rs:259-264 | that record is numbered `index + i + 1` and shows the formatted success chance after `i + 1` trials |
| CalcLemmas.PlainRecordCost | src/calc.rs:264-265 | that record carries `totalCost + i * cost`: the charge is added after the push |
| CalcLemmas.StopsAfterShift | src/calc.rs:268-280 | the stop conditions after trial `j` from the next state are those after trial `j + 1` from this one |
| CalcLemmas.StopsAfterFirst | src/calc.rs:265-280 | the stop conditions after the first trial are checked on the state after it, with its cost charged |
| CalcLemmas.NoStopShifted | src/calc.rs:268-280 | no stop within `m + 1` trials is no stop within `m` trials of the next state |
| CalcLemmas.PlainRun | src/calc.rs:254-281 | without a CSV the run stops at the first trial `n` that exceeds the target or the budget or reaches the count, and no earlier one: its records are the first `n` records and its state the `n`-th iterate |
| CalcLemmas.PlainRunBound | src/calc.rs:254-281 | without a CSV, if no trial within the bound meets a stop condition the run does not end within it |
| CalcLemmas.PlainRunFault | src/calc.rs:328 | a bonus that fails the sanity check fails the first trial with that error |
| CalcLemmas.PlainRunStops | src/calc.rs:254-281 | without a CSV, if some trial within the bound meets a stop condition the run ends with records |
| CalcLemmas.FirstStopExists | src/calc.rs:268-280 | a trial that meets a stop condition has a first such trial |
| CalcTermination.RangeLength | src/calc.rs:276-280 | a range run's length is at least 1 and reaches `count` |
| CalcTermination.AdvanceFaultIsSource | src/calc.rs:290-336 | the faults of a trial are errors or panics of the source, never the model's bound |
| CalcTermination.RangeRunLength | src/calc.rs:276-280 | a range run has between 1 and `max(count - index, 1)` records; fewer only when its last trial met the target or the budget test, so exactly that many when neither fires, in particular when neither is set |
| CalcTermination.RangeRunEnds | src/calc.rs:276-280 | a range run given that many trials ends, in records or in a fault of the source |
| CalcTermination.RangePlainRun | src/calc.rs:254-281 | a range run without a CSV, a target or a budget makes exactly `max(count - index, 1)` trials of the recurrence |
| CalcTermination.PrintRangePlain | src/calc.rs:205-211 | `print_range` without a CSV, target or budget yields `max(count, 1)` records numbered from 1 and costed from 0; the validator is not consulted |
| CalcTermination.ZeroCostBudgetNeverStops | src/calc.rs:344-346 | without a CSV and a target, a budget with cost 0 that is not yet exceeded never stops the run (the second rejection of the validator) |
| CalcTermination.EmptyCsvPassesValidator | src/calc.rs:238-256 | an empty inline CSV with a non-negative budget, cost 0 and no target passes the validator (which compares the reference with `None`, src/calc.rs:344) and then runs without a CSV and never stops |
| CalcTermination.NoChanceKeepsSuccess | src/calc.rs:330-331 | with no chance of success, `success_until` never changes |
| CalcTermination.ZeroChanceTargetNeverStops | src/calc.rs:348-350 | without a CSV and a budget, a target with probability 0 and no bonus never stops the run while `success_until` is at or below the target (the third rejection of the validator) |
| CalcTermination.TargetAtMassNeverStops | src/calc.rs:268-270 | without a CSV and a budget, a target at or above `success_until + fail_until` (such as 1.0 from a fresh state), with a non-negative chance and `fail_until` in [0, 1], never fires, since the test is strict; the validator lets it through whenever the probability is not 0 |
| CalcTermination.TrialsOverBudget | src/calc.rs:273-275 | at least one trial is needed to exceed a budget |
| CalcTermination.OverBudget | src/calc.rs:273-275 | after `TrialsOverBudget` trials a positive cost per trial exceeds the budget |
| CalcTermination.BudgetRunEnds | src/calc.rs:272-275 | without a CSV, a budget with a positive cost ends a conditional run within `TrialsOverBudget` trials |
| CalcTermination.PowNonNegative | src/calc.rs:332-334 | the chance of failing every trial is never negative |
| CalcTermination.Bernoulli | src/calc.rs:330-334 | `(1 - q)^n (1 + n q) <= 1` for a chance `q` in [0, 1] |
| CalcTermination.ScaledBelowGap | src/calc.rs:330-334 | after `TrialsToGap` trials with a positive chance, `fail_until` is below any positive gap |
| CalcTermination.TargetRunEnds | src/calc.rs:268-270 | without a CSV, a target below `success_until + fail_until` with a positive chance ends a conditional run within `TrialsToGap` trials |

## Left out

- src/plot.rs, src/wasm.rs, src/cli.rs, src/bin.rs, src/lib.rs and the www/ files: charting, bindings and command-line parsing are not part of this model.
- `print_records`, `print_qual_table` and the `to_styled_table` formatters: printing and `tabled` styling. The processing methods return what they would print.
- The `csv` crate, `std::fs::read_to_string`, `str::parse::<f32>` and the `Display` text of an `f32`: foreign code, given as the fields of `Calc.Externals`.
- `utils::prob_sanity_check` and `utils::get_prob_as_formatted`: src/utils.rs defines neither, so both are parameters. Nothing is assumed of them.
- `Record::join_as_csv` and `Qualficiation::join_as_csv`: not shown, so both are parameters of the formatters.
- `f32` arithmetic: modelled by `real`. Rounding is not modelled, so conservation and the closed forms are exact here.
- `usize` overflow of the trial index: the index is an unbounded `nat`.
- `str::to_lowercase`: only ASCII letters are lowercased here, while Rust follows Unicode. So a text whose non-ASCII letter lowercases to an ASCII one is accepted by the source and rejected by the model. For example, "ROLLBAC\u{212A}" ends in the Kelvin sign, which lowercases to `k`. This ASCII-only lowercasing affects all four parsers: `Models.CsvInvalidBehaviourFromStr`, `Models.ProbTypeFromStr`, `Calc.TableFormatFromStr` and `Calc.ProbTypeFromStr`. Only the two Models parsers carry "exactly the capitalisations" lemmas (`Models.CsvInvalidBehaviourAccepts`, `Models.ProbTypeAccepts`), and these hold only over ASCII letters.
- src/consts.rs is not part of this model. Its column indexes are taken as 0, 1, 2 and 3, as in `ColumnMap::default`.
- The `count` column of a column map: listed, but `update_state_from_csv_file` never reads it.
- `CSVInvalidBehaviour` of src/models.rs: not used by calc.rs, so only its type and parser are modelled.
- `OutOption` and `RecordCursor` of src/models.rs: not used by calc.rs or formatter.rs, so they are not modelled.
- Calc.Calculator.CreateRecords: a loop that never stops in the source ends in `BoundReached` after `bound` trials. When the result is a fault, the state is not specified.
- Calc.Calculator.UpdateStateFromCsvFile, Calc.Calculator.AdvanceTrial: the state after a panic on a bad row or an unparsable column is not specified, since the panic unwinds past every caller and the state is never read again.
- Calc.Calculator.RunTrials: when the result is a fault, the state reached is not specified. The source keeps whatever the completed trials left.
- Calc.Calculator.PrintRange: when the result is a fault, the state is not specified, as for `CreateRecords`.
- Calc.Calculator.PrintConditional: when the result is a fault, the state is not specified, as for `CreateRecords`.
- Calc.Calculator.PrintQualification: returns the `(count, cost)` pair that calc.rs gives to its two-argument `Qualficiation::new` and does not build the qualification row. When the result is a fault, the state is not specified.
- Panics: the `expect` calls in the row handling become the fault `Panicked` with the panic message instead of aborting the process.
