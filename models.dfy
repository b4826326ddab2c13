/** The value types of src/models.rs: the CSV column layout, the record and
    qualification rows, and the case-insensitive variant parsers. */
module Models {
  import opened Wrappers
  import opened Errors
  import opened Text

  /** Which CSV column holds each field of a row. */
  datatype ColumnMap = ColumnMap(count: nat, probability: nat, constant: nat, cost: nat)
  {
    /** No two fields are read from one column. */
    predicate Distinct()
    {
      && count != probability && count != constant && count != cost
      && probability != constant && probability != cost && constant != cost
    }
  }

  /** `ColumnMap::new`: the four arguments become the four fields, in order. */
  function NewColumnMap(count: nat, probability: nat, constant: nat, cost: nat): (m: ColumnMap)
    ensures m.count == count && m.probability == probability
    ensures m.constant == constant && m.cost == cost
  {
    ColumnMap(count, probability, constant, cost)
  }

  /** `ColumnMap::default`: the layout `count,probability,constant,cost`,
      one field per column. */
  function DefaultColumnMap(): (m: ColumnMap)
    ensures m == NewColumnMap(0, 1, 2, 3)
    ensures m.Distinct()
  {
    ColumnMap(0, 1, 2, 3)
  }

  /** The single-row summary of a conditional calculation. */
  datatype Qualification = Qualification(count: nat, probability: string, cost: real)

  /** `Qualficiation::new(count, cost, probability)`: note that the argument
      order (cost before probability) differs from the field order. */
  function NewQualification(count: nat, cost: real, probability: string): (q: Qualification)
    ensures q.count == count && q.cost == cost && q.probability == probability
  {
    Qualification(count, probability, cost)
  }

  /** One row of the per-trial table. */
  datatype Record = Record(count: nat, probability: string, cost: real)

  /** `Record::new(count, probability, cost)`. */
  function NewRecord(count: nat, probability: string, cost: real): (r: Record)
    ensures r.count == count && r.probability == probability && r.cost == cost
  {
    Record(count, probability, cost)
  }

  datatype CsvRef = Raw(text: string) | File(path: string) | NoCsv

  datatype CsvInvalidBehaviour = Rollback | Ignore | NoFallback

  datatype ProbType = Percentage | Fraction

  /** `CSVInvalidBehaviour::from_str`: matches the lower-cased text against
      the three variant names; anything else is an `InvalidConversion`
      naming the original text. */
  function CsvInvalidBehaviourFromStr(text: string): (r: Result<CsvInvalidBehaviour, GcalcError>)
    ensures r == Ok(Rollback) <==> Lower(text) == "rollback"
    ensures r == Ok(Ignore) <==> Lower(text) == "ignore"
    ensures r == Ok(NoFallback) <==> Lower(text) == "none"
    ensures r.Err? ==> r.error == InvalidConversion(text + " is not a valid csv fallback behaviour variant")
  {
    match Lower(text)
    case "rollback" => Ok(Rollback)
    case "ignore" => Ok(Ignore)
    case "none" => Ok(NoFallback)
    case _ => Err(InvalidConversion(text + " is not a valid csv fallback behaviour variant"))
  }

  /** `ProbType::from_str`: "percentage" and "percent" give `Percentage`,
      "float" gives `Fraction`, in any letter case. */
  function ProbTypeFromStr(text: string): (r: Result<ProbType, GcalcError>)
    ensures r == Ok(Percentage) <==> Lower(text) == "percentage" || Lower(text) == "percent"
    ensures r == Ok(Fraction) <==> Lower(text) == "float"
    ensures r.Err? ==> r.error == InvalidConversion(text + " is not a valid table format")
  {
    match Lower(text)
    case "percentage" => Ok(Percentage)
    case "percent" => Ok(Percentage)
    case "float" => Ok(Fraction)
    case _ => Err(InvalidConversion(text + " is not a valid table format"))
  }

  /** The fallback parser accepts exactly the capitalisations of the three
      variant names. */
  lemma CsvInvalidBehaviourAccepts(text: string)
    ensures CsvInvalidBehaviourFromStr(text) == Ok(Rollback) <==> IsCaseVariant(text, "rollback")
    ensures CsvInvalidBehaviourFromStr(text) == Ok(Ignore) <==> IsCaseVariant(text, "ignore")
    ensures CsvInvalidBehaviourFromStr(text) == Ok(NoFallback) <==> IsCaseVariant(text, "none")
    ensures CsvInvalidBehaviourFromStr(text).Err? <==>
      !IsCaseVariant(text, "rollback") && !IsCaseVariant(text, "ignore") && !IsCaseVariant(text, "none")
  {
    LowerIsWord(text, "rollback");
    LowerIsWord(text, "ignore");
    LowerIsWord(text, "none");
  }

  /** The probability-type parser accepts exactly the capitalisations of
      "percentage", "percent" and "float". */
  lemma ProbTypeAccepts(text: string)
    ensures ProbTypeFromStr(text) == Ok(Percentage) <==>
      IsCaseVariant(text, "percentage") || IsCaseVariant(text, "percent")
    ensures ProbTypeFromStr(text) == Ok(Fraction) <==> IsCaseVariant(text, "float")
    ensures ProbTypeFromStr(text).Err? <==>
      !IsCaseVariant(text, "percentage") && !IsCaseVariant(text, "percent") && !IsCaseVariant(text, "float")
  {
    LowerIsWord(text, "percentage");
    LowerIsWord(text, "percent");
    LowerIsWord(text, "float");
  }

  /** Letter case does not matter: a string and its lower-cased form parse
      to the same variant, or both fail. */
  lemma FromStrIgnoresCase(text: string)
    ensures CsvInvalidBehaviourFromStr(text).Ok? == CsvInvalidBehaviourFromStr(Lower(text)).Ok?
    ensures CsvInvalidBehaviourFromStr(text).Ok? ==>
      CsvInvalidBehaviourFromStr(text) == CsvInvalidBehaviourFromStr(Lower(text))
    ensures ProbTypeFromStr(text).Ok? == ProbTypeFromStr(Lower(text)).Ok?
    ensures ProbTypeFromStr(text).Ok? ==> ProbTypeFromStr(text) == ProbTypeFromStr(Lower(text))
  {
    LowerIdempotent(text);
  }
}
