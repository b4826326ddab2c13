/** The CSV serialisers of src/formatter.rs. How one record or one
    qualification is written as a CSV line (`join_as_csv`) is a parameter. */
module Formatter {
  import opened Wrappers
  import opened Text
  import opened Models

  const Header: string := "count,probability,cost,constant,value"

  /** `LINE_ENDING`: CRLF when built for Windows, LF otherwise. */
  function LineEnding(windows: bool): (sep: string)
    ensures sep == if windows then "\r\n" else "\n"
  {
    if windows then "\r\n" else "\n"
  }

  /** The inclusive index window: the given pair, or `(0, len)` when no
      range is given. */
  function Window(range: Option<(nat, nat)>, len: nat): (w: (nat, nat))
    ensures range.Some? ==> w == range.value
    ensures range.None? ==> w == (0, len)
  {
    match range
    case Some(mm) => mm
    case None => (0, len)
  }

  /** The lines of the records whose position lies in `lo..=hi`, in record
      order: what the enumerated loop pushes. */
  function Selected(records: seq<Record>, lo: nat, hi: nat, joinAsCsv: Record -> string): seq<string>
  {
    if records == [] then []
    else
      var last := |records| - 1;
      Selected(records[..last], lo, hi, joinAsCsv)
        + (if lo <= last <= hi then [joinAsCsv(records[last])] else [])
  }

  /** Every record's line, in order. */
  function AllLines(records: seq<Record>, joinAsCsv: Record -> string): (ls: seq<string>)
    ensures |ls| == |records|
    ensures forall i :: 0 <= i < |records| ==> ls[i] == joinAsCsv(records[i])
  {
    seq(|records|, i requires 0 <= i < |records| => joinAsCsv(records[i]))
  }

  /** How many positions below `len` lie in `lo..=hi`. */
  function InWindow(len: nat, lo: nat, hi: nat): nat
  {
    if lo < len && lo <= hi then (if hi + 1 < len then hi + 1 else len) - lo else 0
  }

  /** The selection is the contiguous slice `records[lo..=hi]`, clipped to
      the records that exist: a record appears exactly when its index lies in
      the window (both ends inclusive), and the kept lines stay in order. */
  lemma {:induction false} SelectedIsSlice(records: seq<Record>, lo: nat, hi: nat, joinAsCsv: Record -> string)
    ensures var end := if hi + 1 < |records| then hi + 1 else |records|;
      Selected(records, lo, hi, joinAsCsv) ==
        if lo < end then AllLines(records[lo..end], joinAsCsv) else []
    ensures |Selected(records, lo, hi, joinAsCsv)| == InWindow(|records|, lo, hi)
    decreases |records|
  {
    if records != [] {
      var last := |records| - 1;
      SelectedIsSlice(records[..last], lo, hi, joinAsCsv);
      var end := if hi + 1 < |records| then hi + 1 else |records|;
      var end' := if hi + 1 < last then hi + 1 else last;
      if lo <= last <= hi {
        assert end == |records| && end' == last;
        assert records[lo..end] == records[..last][lo..end'] + [records[last]];
      } else {
        assert end == end' || lo >= end;
        if lo < end {
          assert records[lo..end] == records[..last][lo..end'];
        }
      }
    }
  }

  /** Without a range every record appears, in original order. */
  lemma NoRangeKeepsAll(records: seq<Record>, joinAsCsv: Record -> string)
    ensures Selected(records, 0, |records|, joinAsCsv) == AllLines(records, joinAsCsv)
  {
    SelectedIsSlice(records, 0, |records|, joinAsCsv);
    assert records[0..|records|] == records;
  }

  /** `RecordFormatter::to_raw_csv`: the header line, then the line of each
      record whose position lies in the window, joined by `lineEnding`. It
      never fails. */
  method ToRawCsv(records: seq<Record>, range: Option<(nat, nat)>, joinAsCsv: Record -> string, lineEnding: string)
    returns (r: Result<string, string>)
    ensures r.Ok?
    ensures var (lo, hi) := Window(range, |records|);
      r.value == Join([Header] + Selected(records, lo, hi, joinAsCsv), lineEnding)
  {
    var stringRecords := [Header];
    var (lo, hi) := Window(range, |records|);
    for index := 0 to |records|
      invariant stringRecords == [Header] + Selected(records[..index], lo, hi, joinAsCsv)
    {
      assert records[..index + 1][..index] == records[..index];
      if index >= lo && index <= hi {
        stringRecords := stringRecords + [joinAsCsv(records[index])];
      }
    }
    assert records[..|records|] == records;
    r := Ok(Join(stringRecords, lineEnding));
  }

  /** The text `to_raw_csv` produces starts with the header, and each
      selected record follows on its own line, so there is one line more
      than there are selected records and no trailing separator. */
  lemma RawCsvShape(records: seq<Record>, lo: nat, hi: nat, joinAsCsv: Record -> string, lineEnding: string)
    ensures var text := Join([Header] + Selected(records, lo, hi, joinAsCsv), lineEnding);
      && text == Header + Prefixed(Selected(records, lo, hi, joinAsCsv), lineEnding)
      && text[..|Header|] == Header
    ensures |[Header] + Selected(records, lo, hi, joinAsCsv)| == 1 + InWindow(|records|, lo, hi)
    ensures lo > hi || lo >= |records| ==> Join([Header] + Selected(records, lo, hi, joinAsCsv), lineEnding) == Header
  {
    JoinIsHeadThenPrefixed(Header, Selected(records, lo, hi, joinAsCsv), lineEnding);
    SelectedIsSlice(records, lo, hi, joinAsCsv);
  }

  /** `QualFormatter::to_csv_table`: the qualification's own CSV line,
      always successfully. */
  function ToCsvTable(qual: Qualification, joinAsCsv: Qualification -> string): (r: Result<string, string>)
    ensures r == Ok(joinAsCsv(qual))
  {
    Ok(joinAsCsv(qual))
  }
}
