/** `parseCSV`: the import of training sessions from comma-separated text.
    The first line names the columns, every further line is one session;
    a line becomes a record only when its date, sport, duration and RPE are
    all truthy. */
module CsvImport {
  import opened Wrappers
  import opened Text

  /** The members of a `TrainingSession` a column can set. */
  datatype Field = Date | Sport | DurationMin | Rpe | DistanceKm | AvgHrBpm | SleepHours | HrvMs | Soreness | Notes

  /** `parseFloat`, supplied by the caller; `None` stands for NaN. */
  type NumberParser = string -> Option<real>

  /** A member of the record under construction: the text itself for date,
      sport and notes, the parsed number (possibly NaN) for the others. */
  datatype Cell = TextCell(text: string) | Number(number: Option<real>)

  /** The `session` object a line builds; a missing key is a member never set. */
  type Draft = map<Field, Cell>

  /** The accepted column names of each field, lower case. */
  function Synonyms(f: Field): set<string> {
    match f
    case Date => {"date"}
    case Sport => {"sport"}
    case DurationMin => {"duration_min", "duration"}
    case Rpe => {"rpe_1_10", "rpe"}
    case DistanceKm => {"distance_km", "distance"}
    case AvgHrBpm => {"avg_hr_bpm", "hr", "heart_rate"}
    case SleepHours => {"sleep_hours", "sleep"}
    case HrvMs => {"hrv_ms", "hrv"}
    case Soreness => {"soreness_1_10", "soreness"}
    case Notes => {"notes"}
  }

  /** The `switch (header)`: the field a normalised column name sets; every
      name it recognises is a synonym of that field. */
  function HeaderField(h: string): (r: Option<Field>)
    ensures r.Some? ==> h in Synonyms(r.value)
  {
    if h == "date" then Some(Date)
    else if h == "sport" then Some(Sport)
    else if h == "duration_min" || h == "duration" then Some(DurationMin)
    else if h == "rpe_1_10" || h == "rpe" then Some(Rpe)
    else if h == "distance_km" || h == "distance" then Some(DistanceKm)
    else if h == "avg_hr_bpm" || h == "hr" || h == "heart_rate" then Some(AvgHrBpm)
    else if h == "sleep_hours" || h == "sleep" then Some(SleepHours)
    else if h == "hrv_ms" || h == "hrv" then Some(HrvMs)
    else if h == "soreness_1_10" || h == "soreness" then Some(Soreness)
    else if h == "notes" then Some(Notes)
    else None
  }

  // One lemma per field keeps each chain of literal comparisons small.
  lemma DateSynonyms(h: string)
    requires h in Synonyms(Date)
    ensures HeaderField(h) == Some(Date)
  {
  }

  lemma SportSynonyms(h: string)
    requires h in Synonyms(Sport)
    ensures HeaderField(h) == Some(Sport)
  {
  }

  lemma DurationMinSynonyms(h: string)
    requires h in Synonyms(DurationMin)
    ensures HeaderField(h) == Some(DurationMin)
  {
  }

  lemma RpeSynonyms(h: string)
    requires h in Synonyms(Rpe)
    ensures HeaderField(h) == Some(Rpe)
  {
  }

  lemma DistanceKmSynonyms(h: string)
    requires h in Synonyms(DistanceKm)
    ensures HeaderField(h) == Some(DistanceKm)
  {
  }

  lemma AvgHrBpmSynonyms(h: string)
    requires h in Synonyms(AvgHrBpm)
    ensures HeaderField(h) == Some(AvgHrBpm)
  {
  }

  lemma SleepHoursSynonyms(h: string)
    requires h in Synonyms(SleepHours)
    ensures HeaderField(h) == Some(SleepHours)
  {
  }

  lemma HrvMsSynonyms(h: string)
    requires h in Synonyms(HrvMs)
    ensures HeaderField(h) == Some(HrvMs)
  {
  }

  lemma SorenessSynonyms(h: string)
    requires h in Synonyms(Soreness)
    ensures HeaderField(h) == Some(Soreness)
  {
  }

  lemma NotesSynonyms(h: string)
    requires h in Synonyms(Notes)
    ensures HeaderField(h) == Some(Notes)
  {
  }

  /** Every synonym of a field selects that field. */
  lemma HeaderFieldComplete(h: string, f: Field)
    requires h in Synonyms(f)
    ensures HeaderField(h) == Some(f)
  {
    match f
    case Date => DateSynonyms(h);
    case Sport => SportSynonyms(h);
    case DurationMin => DurationMinSynonyms(h);
    case Rpe => RpeSynonyms(h);
    case DistanceKm => DistanceKmSynonyms(h);
    case AvgHrBpm => AvgHrBpmSynonyms(h);
    case SleepHours => SleepHoursSynonyms(h);
    case HrvMs => HrvMsSynonyms(h);
    case Soreness => SorenessSynonyms(h);
    case Notes => NotesSynonyms(h);
  }

  /** The switch recognises exactly the synonyms of each field. */
  lemma HeaderFieldIff(h: string, f: Field)
    ensures HeaderField(h) == Some(f) <==> h in Synonyms(f)
  {
    if h in Synonyms(f) {
      HeaderFieldComplete(h, f);
    }
  }

  /** Text fields keep the cell, numeric fields parse it. */
  function CellFor(f: Field, value: string, parseNumber: NumberParser): (c: Cell)
    ensures f in {Date, Sport, Notes} <==> c.TextCell?
    ensures c.TextCell? ==> c.text == value
    ensures c.Number? ==> c.number == parseNumber(value)
  {
    if f == Date || f == Sport || f == Notes then TextCell(value) else Number(parseNumber(value))
  }

  /** `values[index]`, with the empty string standing for a missing cell;
      both are falsy. */
  function CellAt(values: seq<string>, index: nat): string {
    if index < |values| then values[index] else ""
  }

  /** The column-name switch, as the loops over columns see it; the import
      instantiates it with HeaderField. */
  type Classifier = string -> Option<Field>

  /** One step of `headers.forEach`: an empty cell or an unknown column
      leaves the record as it is; otherwise the column's field is
      overwritten. */
  function AssignCell(draft: Draft, header: string, value: string, classify: Classifier, parseNumber: NumberParser): (d: Draft)
    ensures value == "" || classify(header).None? ==> d == draft
    ensures value != "" && classify(header).Some? ==>
      d == draft[classify(header).value := CellFor(classify(header).value, value, parseNumber)]
  {
    if value == "" then draft
    else match classify(header)
      case None => draft
      case Some(f) => draft[f := CellFor(f, value, parseNumber)]
  }

  /** The record after the first n columns of a line. */
  function RowDraft(headers: seq<string>, values: seq<string>, classify: Classifier, parseNumber: NumberParser, n: nat): Draft
    requires n <= |headers|
    decreases n
  {
    if n == 0 then map[]
    else AssignCell(RowDraft(headers, values, classify, parseNumber, n - 1), headers[n - 1], CellAt(values, n - 1), classify, parseNumber)
  }

  /** Column j of the line sets field f. */
  predicate Feeds(headers: seq<string>, values: seq<string>, classify: Classifier, j: nat, f: Field) {
    j < |headers| && CellAt(values, j) != "" && classify(headers[j]) == Some(f)
  }

  /** A field is set exactly when some column feeds it. */
  lemma {:induction false} FieldSetIff(headers: seq<string>, values: seq<string>, classify: Classifier, parseNumber: NumberParser, n: nat, f: Field)
    requires n <= |headers|
    ensures f in RowDraft(headers, values, classify, parseNumber, n) <==> exists j :: 0 <= j < n && Feeds(headers, values, classify, j, f)
    decreases n
  {
    if n > 0 {
      FieldSetIff(headers, values, classify, parseNumber, n - 1, f);
      var prev := RowDraft(headers, values, classify, parseNumber, n - 1);
      var d := RowDraft(headers, values, classify, parseNumber, n);
      assert d == AssignCell(prev, headers[n - 1], CellAt(values, n - 1), classify, parseNumber);
      if Feeds(headers, values, classify, n - 1, f) {
        assert f in d;
      } else {
        assert (f in d) == (f in prev);
        assert (exists j :: 0 <= j < n && Feeds(headers, values, classify, j, f))
           == (exists j :: 0 <= j < n - 1 && Feeds(headers, values, classify, j, f));
      }
    }
  }

  /** A set field holds the cell of the last column feeding it: a later
      column wins over an earlier one. */
  lemma {:induction false} LastColumnWins(headers: seq<string>, values: seq<string>, classify: Classifier, parseNumber: NumberParser, n: nat, f: Field, j: nat)
    requires n <= |headers| && j < n
    requires Feeds(headers, values, classify, j, f)
    requires forall k :: j < k < n ==> !Feeds(headers, values, classify, k, f)
    ensures f in RowDraft(headers, values, classify, parseNumber, n)
    ensures RowDraft(headers, values, classify, parseNumber, n)[f] == CellFor(f, CellAt(values, j), parseNumber)
    decreases n
  {
    var prev := RowDraft(headers, values, classify, parseNumber, n - 1);
    var d := RowDraft(headers, values, classify, parseNumber, n);
    assert d == AssignCell(prev, headers[n - 1], CellAt(values, n - 1), classify, parseNumber);
    if j < n - 1 {
      LastColumnWins(headers, values, classify, parseNumber, n - 1, f, j);
      assert !Feeds(headers, values, classify, n - 1, f);
      assert f in d && d[f] == prev[f];
    }
  }

  /** A truthy number: present, not NaN and not zero. */
  predicate TruthyNumber(c: Cell) {
    c.Number? && c.number.Some? && c.number.value != 0.0
  }

  /** `session.date && session.sport && session.duration_min && session.rpe_1_10`.
      A set date or sport is never empty, since empty cells are skipped. */
  predicate Emitted(d: Draft) {
    && Date in d && Sport in d
    && DurationMin in d && TruthyNumber(d[DurationMin])
    && Rpe in d && TruthyNumber(d[Rpe])
  }

  /** Column names: trimmed and lower-cased. */
  function HeaderNames(line: string): (hs: seq<string>)
    ensures |hs| == |Split(line, ',')|
    ensures forall i :: 0 <= i < |hs| ==> hs[i] == Lower(Trim(Split(line, ',')[i]))
  {
    var cells := Split(line, ',');
    seq(|cells|, i requires 0 <= i < |cells| => Lower(Trim(cells[i])))
  }

  /** Cell values: trimmed. */
  function CellValues(line: string): (vs: seq<string>)
    ensures |vs| == |Split(line, ',')|
    ensures forall i :: 0 <= i < |vs| ==> vs[i] == Trim(Split(line, ',')[i])
  {
    var cells := Split(line, ',');
    seq(|cells|, i requires 0 <= i < |cells| => Trim(cells[i]))
  }

  /** The record every data line builds, line by line. */
  function LineDrafts(headers: seq<string>, lines: seq<string>, parseNumber: NumberParser): (ds: seq<Draft>)
    ensures |ds| == |lines|
  {
    seq(|lines|, i requires 0 <= i < |lines| => RowDraft(headers, CellValues(lines[i]), HeaderField, parseNumber, |headers|))
  }

  /** The records that pass the truthiness test, in order. */
  function Keep(ds: seq<Draft>): (out: seq<Draft>)
    ensures |out| <= |ds|
    ensures forall k :: 0 <= k < |out| ==> Emitted(out[k])
    decreases |ds|
  {
    if ds == [] then []
    else Keep(ds[..|ds| - 1]) + (if Emitted(ds[|ds| - 1]) then [ds[|ds| - 1]] else [])
  }

  const CsvShapeError: string := "CSV must have header and at least one data row"

  /** The reference definition of `parseCSV`: it fails, with the header
      error, exactly when the trimmed text has no line break; otherwise it
      gives at most one record per data line, each passing the truthiness
      test. */
  function ParseCsvSpec(csvText: string, parseNumber: NumberParser): (r: Result<seq<Draft>, string>)
    ensures r.Failure? <==> '\n' !in Trim(csvText)
    ensures r.Failure? ==> r.error == CsvShapeError
    ensures r.Success? ==> |r.value| < |Split(Trim(csvText), '\n')|
    ensures r.Success? ==> forall k :: 0 <= k < |r.value| ==> Emitted(r.value[k])
  {
    SplitPieces(Trim(csvText), '\n');
    var lines := Split(Trim(csvText), '\n');
    if |lines| < 2 then Failure(CsvShapeError)
    else Success(Keep(LineDrafts(HeaderNames(lines[0]), lines[1..], parseNumber)))
  }

  /** The kept records are some of the records, taken in increasing order,
      and a record is dropped exactly when it fails the truthiness test. */
  lemma {:induction false} KeepInOrder(ds: seq<Draft>) returns (idx: seq<nat>)
    ensures |idx| == |Keep(ds)|
    ensures forall k :: 0 <= k < |idx| ==> idx[k] < |ds| && Keep(ds)[k] == ds[idx[k]]
    ensures forall k, l :: 0 <= k < l < |idx| ==> idx[k] < idx[l]
    ensures forall i :: 0 <= i < |ds| ==> (i in idx <==> Emitted(ds[i]))
    decreases |ds|
  {
    if ds == [] {
      idx := [];
    } else {
      var n := |ds| - 1;
      var front := ds[..n];
      var pre := KeepInOrder(front);
      var tail := if Emitted(ds[n]) then [ds[n]] else [];
      assert Keep(ds) == Keep(front) + tail;
      idx := pre + (if Emitted(ds[n]) then [n] else []);
      forall k | 0 <= k < |idx| ensures idx[k] < |ds| && Keep(ds)[k] == ds[idx[k]] {
        if k < |pre| {
          assert idx[k] == pre[k] && Keep(ds)[k] == Keep(front)[k] && front[pre[k]] == ds[pre[k]];
        }
      }
      forall i | 0 <= i < |ds| ensures i in idx <==> Emitted(ds[i]) {
        if i < n {
          assert front[i] == ds[i];
          assert i in idx <==> i in pre;
        }
      }
    }
  }

  /** The inner `headers.forEach`: the record of one line, column by column. */
  method BuildRecord(headers: seq<string>, values: seq<string>, classify: Classifier, parseNumber: NumberParser) returns (session: Draft)
    ensures session == RowDraft(headers, values, classify, parseNumber, |headers|)
  {
    session := map[];
    var index := 0;
    while index < |headers|
      invariant 0 <= index <= |headers|
      invariant session == RowDraft(headers, values, classify, parseNumber, index)
    {
      var value := CellAt(values, index);
      if value != "" {
        match classify(headers[index])
        case None =>
        case Some(f) => session := session[f := CellFor(f, value, parseNumber)];
      }
      index := index + 1;
    }
  }

  /** The loop over the data lines: each line's record is built and pushed
      when it passes the truthiness test. */
  method EmitRecords(headers: seq<string>, dataLines: seq<string>, parseNumber: NumberParser) returns (sessions: seq<Draft>)
    ensures sessions == Keep(LineDrafts(headers, dataLines, parseNumber))
  {
    ghost var all := LineDrafts(headers, dataLines, parseNumber);
    sessions := [];
    var i := 0;
    while i < |dataLines|
      invariant 0 <= i <= |dataLines|
      invariant sessions == Keep(all[..i])
    {
      var session := BuildRecord(headers, CellValues(dataLines[i]), HeaderField, parseNumber);
      assert session == all[i];
      if Emitted(session) {
        sessions := sessions + [session];
      }
      assert all[..i + 1][..i] == all[..i];
      i := i + 1;
    }
    assert all[..i] == all;
  }

  /** `parseCSV`: trim, split into lines, refuse a text without a data line,
      normalise the column names, then import the data lines. */
  method ParseCSV(csvText: string, parseNumber: NumberParser) returns (r: Result<seq<Draft>, string>)
    ensures r == ParseCsvSpec(csvText, parseNumber)
  {
    var lines := Split(Trim(csvText), '\n');
    if |lines| < 2 {
      return Failure(CsvShapeError);
    }
    var headers := HeaderNames(lines[0]);
    var sessions := EmitRecords(headers, lines[1..], parseNumber);
    r := Success(sessions);
  }
}
