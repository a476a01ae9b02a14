/**
 * Parsing of the measurement-statistics table: the flat comma list of
 * MEASure:RESults? cut into 7-field records (label, current, minimum, maximum,
 * mean, standard deviation, count), as the DSO-X/MSO-X, MXR/EXR and MSO-X 3000
 * drivers each do it.
 */
module Statistics {
  import opened Results
  import opened Text

  /** One statistics record. */
  datatype Stat = Stat(name: string, current: real, minimum: real, maximum: real,
                       mean: real, stdDev: real, count: int)

  /**
   * The drivers differ in two ways: DSO-X/MSO-X and MXR return nothing for a list
   * whose length is not a multiple of 7, MSO-X 3000 does not check; MXR reads the
   * count through float and truncates it, the others read it as an integer literal.
   * Msox3000Stats is the MSO-X 3000 driver as it evidently means to run, with the
   * generic Keysight helper reached; Msox3000StatisticsAsWritten is what it does.
   */
  datatype Dialect = DsoStats | MxrStats | Msox3000Stats

  /** The writes each driver sends before the table is read. */
  function StatisticsSetup(d: Dialect): (cmds: seq<string>)
    ensures |cmds| >= 1 && cmds[|cmds| - 1] == "MEASure:STATistics ON"
    ensures d == MxrStats <==> |cmds| == 1
    ensures d != MxrStats ==> cmds[..2] == ["SYSTem:MENU MEASure", "MEASure:STATistics:DISPlay ON"]
  {
    (if d == MxrStats then [] else ["SYSTem:MENU MEASure", "MEASure:STATistics:DISPlay ON"])
    + ["MEASure:STATistics ON"]
  }

  /** The writes a statistics read sends, and how it ends. */
  datatype StatsRun = StatsRun(sent: seq<string>, result: Result<seq<Stat>>)

  /**
   * MSO-X 3000's measureStatistics as written: its class derives from the generic
   * oscilloscope, not from Keysight, so the super() call after the two display
   * writes finds no _measureStatistics and raises AttributeError. The statistics
   * switch is never sent and the table is never read, whatever the instrument holds.
   */
  function Msox3000StatisticsAsWritten(): (run: StatsRun)
    ensures run.result == Err(AttributeError)
    ensures run.sent == StatisticsSetup(Msox3000Stats)[..|StatisticsSetup(Msox3000Stats)| - 1]
    ensures "MEASure:STATistics ON" !in run.sent
  {
    StatsRun(["SYSTem:MENU MEASure", "MEASure:STATistics:DISPlay ON"], Err(AttributeError))
  }

  /**
   * The discrepancy: on a table the DSO-X driver reads, the MSO-X 3000 driver as
   * written raises instead, while the intended driver returns the same records.
   */
  lemma Msox3000StatisticsDiscrepancy(flat: seq<string>)
    requires |flat| % Columns == 0 && Statistics(flat, DsoStats).Ok?
    ensures Msox3000StatisticsAsWritten().result != Statistics(flat, DsoStats)
    ensures Statistics(flat, Msox3000Stats) == Statistics(flat, DsoStats)
  {
    DsoAgreesWithMsox3000OnWholeRecords(flat);
  }

  const Columns: nat := 7

  /** [flat[i:i+7] for i in range(0, len(flat), 7)]: the last slice may be shorter. */
  function Chunks(flat: seq<string>): (rows: seq<seq<string>>)
    ensures forall i :: 0 <= i < |rows| ==> 1 <= |rows[i]| <= Columns
    ensures forall i :: 0 <= i < |rows| - 1 ==> |rows[i]| == Columns
    decreases |flat|
  {
    if flat == [] then []
    else if |flat| <= Columns then [flat]
    else [flat[..Columns]] + Chunks(flat[Columns..])
  }

  function Flatten(rows: seq<seq<string>>): seq<string> {
    if rows == [] then [] else rows[0] + Flatten(rows[1..])
  }

  /** Chunking loses and reorders nothing: the rows laid end to end are the flat list. */
  lemma {:induction false} ChunksFlatten(flat: seq<string>)
    ensures Flatten(Chunks(flat)) == flat
    decreases |flat|
  {
    if |flat| > Columns {
      ChunksFlatten(flat[Columns..]);
      var rows := Chunks(flat);
      assert rows[1..] == Chunks(flat[Columns..]);
      assert flat == flat[..Columns] + flat[Columns..];
    }
  }

  /** A list of whole records chunks into that many full rows, row i holding fields 7i..7i+6. */
  lemma {:induction false} ChunksOfWholeRecords(flat: seq<string>, i: nat)
    requires |flat| % Columns == 0 && i < |flat| / Columns
    ensures |Chunks(flat)| == |flat| / Columns
    ensures Chunks(flat)[i] == flat[Columns * i..Columns * i + Columns]
    decreases |flat|
  {
    var rest := flat[Columns..];
    assert |rest| == |flat| - Columns;
    if |flat| > Columns {
      assert |rest| % Columns == 0 && |rest| / Columns == |flat| / Columns - 1;
      if i > 0 {
        ChunksOfWholeRecords(rest, i - 1);
        assert 7 * (i - 1) + 7 == 7 * i;
        assert rest[Columns * (i - 1)..Columns * (i - 1) + Columns] == flat[Columns * i..Columns * i + Columns];
      } else if |rest| / Columns > 0 {
        ChunksOfWholeRecords(rest, 0);
      }
    }
  }

  /** float(s) for one field. */
  function FieldReal(s: string): (r: Result<real>)
    ensures r.Ok? <==> ParseFloat(s).Some?
    ensures r.Ok? ==> Some(r.value) == ParseFloat(s)
    ensures r.Err? ==> r.error == ValueError
  {
    match ParseFloat(s)
    case None => Err(ValueError)
    case Some(x) => Ok(x)
  }

  /** float() of each field in turn; the first field that fails decides the error. */
  function Reals(fields: seq<string>): (r: Result<seq<real>>)
    ensures r.Ok? ==> |r.value| == |fields|
    ensures r.Ok? ==> forall i :: 0 <= i < |fields| ==> Some(r.value[i]) == ParseFloat(fields[i])
  {
    if fields == [] then Ok([])
    else
      var x :- FieldReal(fields[0]);
      var xs :- Reals(fields[1..]);
      Ok([x] + xs)
  }

  /** The count field: an integer literal, or (MXR) a float literal truncated toward zero. */
  function FieldCount(row: seq<string>, d: Dialect): (r: Result<int>)
    ensures |row| <= 6 ==> r == Err(IndexError)
    ensures |row| > 6 && d == MxrStats ==> (r.Ok? <==> ParseFloat(row[6]).Some?)
    ensures |row| > 6 && d != MxrStats ==> (r.Ok? <==> ParseInt(row[6]).Some?)
    ensures r.Ok? ==> |row| > 6
    ensures r.Ok? && d == MxrStats ==> r.value == Trunc(ParseFloat(row[6]).value)
    ensures r.Ok? && d != MxrStats ==> r.value == ParseInt(row[6]).value
    ensures |row| > 6 && r.Err? ==> r.error == ValueError
  {
    if |row| <= 6 then Err(IndexError)
    else if d == MxrStats then
      match ParseFloat(row[6])
      case None => Err(ValueError)
      case Some(x) => Ok(Trunc(x))
    else
      match ParseInt(row[6])
      case None => Err(ValueError)
      case Some(n) => Ok(n)
  }

  /**
   * One record, its fields converted left to right as the dictionary literal
   * does: a short row fails with IndexError at its first missing field, unless
   * an earlier field already failed to convert.
   */
  function ParseRow(row: seq<string>, d: Dialect): (r: Result<Stat>)
    ensures r.Ok? ==> |row| >= Columns && r.value.name == row[0]
    ensures r.Ok? ==> Some(r.value.current) == ParseFloat(row[1]) && Some(r.value.minimum) == ParseFloat(row[2])
    ensures r.Ok? ==> Some(r.value.maximum) == ParseFloat(row[3]) && Some(r.value.mean) == ParseFloat(row[4])
    ensures r.Ok? ==> Some(r.value.stdDev) == ParseFloat(row[5])
  {
    if row == [] then Err(IndexError)
    else
      var xs :- Reals(row[1..if |row| < 6 then |row| else 6]);
      if |row| < 6 then Err(IndexError)
      else
        var count :- FieldCount(row, d);
        Ok(Stat(row[0], xs[0], xs[1], xs[2], xs[3], xs[4], count))
  }

  /** A record's count is the driver's reading of field 6. */
  lemma ParseRowCount(row: seq<string>, d: Dialect)
    requires ParseRow(row, d).Ok?
    ensures FieldCount(row, d) == Ok(ParseRow(row, d).value.count)
  {
  }

  /** The row results collected in order; the first failure decides the error. */
  function Collect<T>(results: seq<Result<T>>): (r: Result<seq<T>>)
    ensures r.Ok? <==> forall i :: 0 <= i < |results| ==> results[i].Ok?
    ensures r.Ok? ==> |r.value| == |results| && forall i :: 0 <= i < |results| ==> results[i] == Ok(r.value[i])
  {
    if results == [] then Ok([])
    else
      var init :- Collect(results[..|results| - 1]);
      var last :- results[|results| - 1];
      Ok(init + [last])
  }

  /** Each row parsed on its own. */
  function RowResults(rows: seq<seq<string>>, d: Dialect): (results: seq<Result<Stat>>)
    ensures |results| == |rows|
  {
    seq(|rows|, i requires 0 <= i < |rows| => ParseRow(rows[i], d))
  }

  /** Records parsed in order, every row a record; the first row that fails decides the error. */
  function ParseRows(rows: seq<seq<string>>, d: Dialect): Result<seq<Stat>> {
    Collect(RowResults(rows, d))
  }

  /** measureStatistics on the list read back from the instrument. */
  function Statistics(flat: seq<string>, d: Dialect): Result<seq<Stat>> {
    if d != Msox3000Stats && |flat| % Columns != 0 then Ok([])
    else ParseRows(Chunks(flat), d)
  }

  /** After the first failure, collecting more results changes nothing. */
  lemma {:induction false} FailureStays<T>(results: seq<Result<T>>, j: nat, k: nat)
    requires j <= k <= |results| && Collect(results[..j]).Err?
    ensures Collect(results[..k]) == Collect(results[..j])
    decreases k
  {
    if k > j {
      FailureStays(results, j, k - 1);
      assert results[..k][..k - 1] == results[..k - 1];
    }
  }

  /** Collecting one more result extends the records, or fails with that result's error. */
  lemma CollectStep<T>(results: seq<Result<T>>, i: nat)
    requires i < |results| && Collect(results[..i]).Ok?
    ensures results[i].Ok? ==> Collect(results[..i + 1]) == Ok(Collect(results[..i]).value + [results[i].value])
    ensures results[i].Err? ==> Collect(results[..i + 1]) == Err(results[i].error)
  {
    assert results[..i + 1][..i] == results[..i];
  }

  /** A failing result after a run of successes decides the whole collection. */
  lemma StopAtFailure<T>(results: seq<Result<T>>, i: nat)
    requires i < |results| && Collect(results[..i]).Ok? && results[i].Err?
    ensures Collect(results) == Err(results[i].error)
  {
    CollectStep(results, i);
    FailureStays(results, i + 1, |results|);
    assert results[..|results|] == results;
  }

  /** The statistics loop: one record appended per row, stopping at the first row that fails. */
  method ParseStatistics(flat: seq<string>, d: Dialect) returns (r: Result<seq<Stat>>)
    ensures r == Statistics(flat, d)
  {
    if d != Msox3000Stats && |flat| % Columns != 0 {
      return Ok([]);
    }
    r := ParseEachRow(Chunks(flat), d);
  }

  /** The loop over the rows of the list. */
  method ParseEachRow(rows: seq<seq<string>>, d: Dialect) returns (r: Result<seq<Stat>>)
    ensures r == ParseRows(rows, d)
  {
    var stats: seq<Stat> := [];
    var i := 0;
    while i < |rows|
      invariant 0 <= i <= |rows|
      invariant Collect(RowResults(rows, d)[..i]) == Ok(stats)
    {
      var row := ParseRowAt(rows, d, i, stats);
      if row.Err? {
        return Err(row.error);
      }
      stats := stats + [row.value];
      i := i + 1;
    }
    assert RowResults(rows, d)[..i] == RowResults(rows, d);
    r := Ok(stats);
  }

  /** One pass of the row loop: the row's record extends the records, or its error decides the result. */
  method ParseRowAt(rows: seq<seq<string>>, d: Dialect, i: nat, stats: seq<Stat>) returns (row: Result<Stat>)
    requires i < |rows| && Collect(RowResults(rows, d)[..i]) == Ok(stats)
    ensures row.Ok? ==> Collect(RowResults(rows, d)[..i + 1]) == Ok(stats + [row.value])
    ensures row.Err? ==> Collect(RowResults(rows, d)) == Err(row.error)
  {
    ghost var results := RowResults(rows, d);
    row := ParseRow(rows[i], d);
    CollectStep(results, i);
    if row.Err? {
      FailureStays(results, i + 1, |results|);
      assert results[..|results|] == results;
    }
  }

  lemma RaggedListGivesNothing(flat: seq<string>, d: Dialect)
    requires d != Msox3000Stats && |flat| % Columns != 0
    ensures Statistics(flat, d) == Ok([])
  {
  }

  /**
   * The last row of a ragged list is short, so with no length check the intended
   * MSO-X 3000 driver always fails on it.
   */
  lemma RaggedListFailsUnchecked(flat: seq<string>)
    requires |flat| % Columns != 0
    ensures Statistics(flat, Msox3000Stats).Err?
  {
    var rows := Chunks(flat);
    ShortLastRow(flat);
    var last := rows[|rows| - 1];
    var results := RowResults(rows, Msox3000Stats);
    assert ParseRow(last, Msox3000Stats).Err?;
    assert results[|rows| - 1] == ParseRow(last, Msox3000Stats);
    assert !Collect(results).Ok?;
  }

  /** In a ragged list the last chunk has fewer than 7 fields. */
  lemma {:induction false} ShortLastRow(flat: seq<string>)
    requires |flat| % Columns != 0
    ensures Chunks(flat) != [] && |Chunks(flat)[|Chunks(flat)| - 1]| < Columns
    decreases |flat|
  {
    if |flat| > Columns {
      var rest := flat[Columns..];
      assert |rest| % Columns != 0 by {
        assert |flat| == |rest| + Columns;
      }
      ShortLastRow(rest);
      assert Chunks(flat)[1..] == Chunks(rest);
    }
  }

  /** On whole records there is one record per 7 fields, labelled by the first field of its row. */
  lemma WholeRecordsLabelled(flat: seq<string>, d: Dialect, i: nat)
    requires |flat| % Columns == 0 && Statistics(flat, d).Ok? && i < |flat| / Columns
    ensures |Statistics(flat, d).value| == |flat| / Columns
    ensures Statistics(flat, d).value[i].name == flat[Columns * i]
  {
    ChunksOfWholeRecords(flat, i);
    var row := Chunks(flat)[i];
    assert row[0] == flat[Columns * i];
  }

  /** On whole records DSO-X and the intended MSO-X 3000 driver give the same result. */
  lemma DsoAgreesWithMsox3000OnWholeRecords(flat: seq<string>)
    requires |flat| % Columns == 0
    ensures Statistics(flat, DsoStats) == Statistics(flat, Msox3000Stats)
  {
    RowsAgree(Chunks(flat));
  }

  lemma RowsAgree(rows: seq<seq<string>>)
    ensures ParseRows(rows, DsoStats) == ParseRows(rows, Msox3000Stats)
  {
    forall i | 0 <= i < |rows|
      ensures ParseRow(rows[i], DsoStats) == ParseRow(rows[i], Msox3000Stats)
    {
      RowAgrees(rows[i]);
    }
    assert RowResults(rows, DsoStats) == RowResults(rows, Msox3000Stats);
  }

  lemma RowAgrees(row: seq<string>)
    ensures ParseRow(row, DsoStats) == ParseRow(row, Msox3000Stats)
  {
    assert FieldCount(row, DsoStats) == FieldCount(row, Msox3000Stats);
  }

  /** A count written as a plain integer reads the same through int() and through int(float()). */
  lemma IntegerCountAgrees(row: seq<string>, n: nat)
    requires |row| > 6 && row[6] == NatToString(n)
    ensures FieldCount(row, MxrStats) == FieldCount(row, DsoStats) == Ok(n)
  {
    ParseFloatOfNat(n);
    IntToStringParses(n);
  }

  /** MXR accepts a count written as a float, which DSO-X rejects. */
  lemma FloatCountOnlyMxr(row: seq<string>, a: string, b: string)
    requires AllDigits(a) && AllDigits(b) && |row| > 6 && row[6] == a + "." + b
    ensures FieldCount(row, MxrStats) == Ok(DigitsValue(a))
    ensures FieldCount(row, DsoStats) == Err(ValueError)
  {
    ParseFloatDecimal(a, b);
    var s := a + "." + b;
    assert s[0] == a[0] && s[|s| - 1] == b[|b| - 1];
    StripNoSpace(s);
    assert SplitSign(s) == (false, s);
    assert s[|a|] == '.';
    assert !AllDigits(s);
    assert ParseInt(s) == None;
    var x := DigitsValue(a) as real + FractionValue(b);
    var k := Trunc(x);
    assert DigitsValue(a) as real <= x < DigitsValue(a) as real + 1.0;
    assert k == DigitsValue(a);
    assert FieldCount(row, MxrStats) == Ok(k);
  }
}
