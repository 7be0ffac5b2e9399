/**
 * One ingestion run, `main()` of main.py: label the sheet, strip and deduplicate
 * `sequenz`, enrich every record, and reconcile the batch with the store. The
 * spreadsheet, the identifiers, the configuration files and the store's answer
 * are inputs; the insert and the counts the run logs are the output.
 */
module Ingest {
  import opened Wrappers
  import opened Text
  import opened Schema
  import opened Normalise
  import opened Enrich
  import opened Reconcile

  /** What a run reports: how many duplicate rows it dropped and what it decided to write. */
  datatype Report = Report(removed: nat, plan: Plan)

  /** Every record with its `sequenz` stripped (main.py:55): each record keeps its keys and
      gains `sequenz`, its key is the strip of the old one and strips to itself, and every
      other key keeps its value. */
  function StrippedAll(records: seq<Record>): (rs: seq<Record>)
    ensures |rs| == |records|
    ensures forall i :: 0 <= i < |rs| ==> rs[i] == WithStrippedSequenz(records[i])
    ensures forall i :: 0 <= i < |rs| ==>
      rs[i].Keys == records[i].Keys + {Col(Sequenz)} &&
      SequenzOf(rs[i]) == Strip(SequenzOf(records[i])) &&
      Strip(SequenzOf(rs[i])) == SequenzOf(rs[i])
    ensures forall i, k :: 0 <= i < |rs| && k in records[i] && k != Col(Sequenz) ==> rs[i][k] == records[i][k]
  {
    StrippedEach(records);
    seq(|records|, i requires 0 <= i < |records| => WithStrippedSequenz(records[i]))
  }

  lemma StrippedEach(records: seq<Record>)
    ensures forall i :: 0 <= i < |records| ==>
      WithStrippedSequenz(records[i]).Keys == records[i].Keys + {Col(Sequenz)} &&
      SequenzOf(WithStrippedSequenz(records[i])) == Strip(SequenzOf(records[i])) &&
      Strip(SequenzOf(WithStrippedSequenz(records[i]))) == SequenzOf(WithStrippedSequenz(records[i]))
    ensures forall i, k :: 0 <= i < |records| && k in records[i] && k != Col(Sequenz) ==>
      WithStrippedSequenz(records[i])[k] == records[i][k]
  {
    forall i | 0 <= i < |records|
      ensures WithStrippedSequenz(records[i]).Keys == records[i].Keys + {Col(Sequenz)}
      ensures SequenzOf(WithStrippedSequenz(records[i])) == Strip(SequenzOf(records[i]))
      ensures Strip(SequenzOf(WithStrippedSequenz(records[i]))) == SequenzOf(WithStrippedSequenz(records[i]))
    {
      StrippedSequenz(records[i]);
    }
  }

  /** Every record enriched with its identifier (main.py:65-137): each carries its own `_id`
      and an empty `config`, and a labelled record keeps its 38 cells and has every status
      flag at its default. */
  function EnrichedAll(records: seq<Record>, ids: seq<string>, files: map<string, seq<string>>): (rs: seq<Record>)
    requires |ids| >= |records|
    ensures |rs| == |records|
    ensures forall i :: 0 <= i < |rs| ==> rs[i] == Enriched(records[i], ids[i], files)
    ensures forall i :: 0 <= i < |rs| ==>
      Id in rs[i] && rs[i][Id] == Str(ids[i]) && ConfigKey in rs[i] && rs[i][ConfigKey] == Entries([])
    ensures forall i :: 0 <= i < |rs| && IsRow(records[i]) ==> DefaultFlagged(rs[i]) && KeepsCells(rs[i], records[i])
  {
    EnrichedEach(records, ids, files);
    seq(|records|, i requires 0 <= i < |records| => Enriched(records[i], ids[i], files))
  }

  /** `e` holds every cell of `r` unchanged. */
  ghost predicate KeepsCells(e: Record, r: Record)
  {
    forall c :: Col(c) in r ==> Col(c) in e && e[Col(c)] == r[Col(c)]
  }

  lemma EnrichedEach(records: seq<Record>, ids: seq<string>, files: map<string, seq<string>>)
    requires |ids| >= |records|
    ensures forall i :: 0 <= i < |records| && IsRow(records[i]) ==>
      DefaultFlagged(Enriched(records[i], ids[i], files)) && KeepsCells(Enriched(records[i], ids[i], files), records[i])
  {
    forall i | 0 <= i < |records| && IsRow(records[i])
      ensures DefaultFlagged(Enriched(records[i], ids[i], files))
      ensures KeepsCells(Enriched(records[i], ids[i], files), records[i])
    {
      EnrichedLabelled(records[i], ids[i], files);
    }
  }

  /** A labelled record, enriched: every flag at its default and every cell unchanged. */
  lemma EnrichedLabelled(r: Record, id: string, files: map<string, seq<string>>)
    requires IsRow(r)
    ensures DefaultFlagged(Enriched(r, id, files))
    ensures KeepsCells(Enriched(r, id, files), r)
  {
    EnrichedDefaultFlagged(r, id, files);
    EnrichedRowCells(r, id, files);
  }

  lemma EnrichedDefaultFlagged(r: Record, id: string, files: map<string, seq<string>>)
    requires IsRow(r)
    ensures DefaultFlagged(Enriched(r, id, files))
  {
    assert Col(Sequenz) in r;
    EnrichedFlags(r, id, files);
  }

  /** The raw cell of a sheet row under a declared column. */
  function Cell(row: seq<string>, c: Column): string
    requires |row| == |Columns|
  {
    ColumnsIndexed();
    row[ColumnIndex(c)]
  }

  /** A record carries exactly the columns, the 28 flags, `_id` and `config`. */
  ghost predicate CommittedKeys(r: Record)
  {
    forall k :: k in r <==> k.Col? || k.Flag? || k in Added
  }

  /** A record holds the cells of `row`, with `sequenz` stripped. */
  ghost predicate CellsOf(r: Record, row: seq<string>)
    requires |row| == |Columns|
  {
    (forall c :: c != Sequenz ==> Col(c) in r && r[Col(c)] == Str(Cell(row, c))) &&
    Col(Sequenz) in r && r[Col(Sequenz)] == Str(Strip(Cell(row, Sequenz)))
  }

  /** A record has every flag at its default value. */
  ghost predicate DefaultFlagged(r: Record)
  {
    forall f :: Flag(f) in r && r[Flag(f)] == Str(FlagDefault(f))
  }

  /** A record as the run writes it to the store: the cells of a sheet row with `sequenz`
      stripped and non-empty, the 28 flags at their defaults, an empty `config`, and nothing
      else. */
  ghost predicate Committed(r: Record, row: seq<string>)
    requires |row| == |Columns|
  {
    CommittedKeys(r) && CellsOf(r, row) && DefaultFlagged(r) && SequenzOf(r) != "" &&
    ConfigKey in r && r[ConfigKey] == Entries([])
  }

  /** A sheet row labelled, stripped and enriched. */
  function Pipeline(row: seq<string>, id: string, files: map<string, seq<string>>): Record
    requires |row| == |Columns|
  {
    Enriched(WithStrippedSequenz(RowRecord(row)), id, files)
  }

  lemma PipelineKeys(row: seq<string>, id: string, files: map<string, seq<string>>)
    requires |row| == |Columns|
    ensures CommittedKeys(Pipeline(row, id, files))
  {
    var s := WithStrippedSequenz(RowRecord(row));
    StrippedSequenz(RowRecord(row));
    EnrichedRowKeys(s, id, files);
  }

  lemma PipelineCells(row: seq<string>, id: string, files: map<string, seq<string>>)
    requires |row| == |Columns|
    ensures CellsOf(Pipeline(row, id, files), row)
  {
    var labelled := RowRecord(row);
    var s := WithStrippedSequenz(labelled);
    var e := Pipeline(row, id, files);
    StrippedCells(row);
    EnrichedRowCells(s, id, files);
    assert e == Enriched(s, id, files);
  }

  /** Labelling then stripping keeps every cell of the row but `sequenz`, which is stripped. */
  lemma StrippedCells(row: seq<string>)
    requires |row| == |Columns|
    ensures IsRow(WithStrippedSequenz(RowRecord(row)))
    ensures CellsOf(WithStrippedSequenz(RowRecord(row)), row)
  {
    var labelled := RowRecord(row);
    StrippedSequenz(labelled);
    StrippedKeyCell(row);
    StrippedOtherCells(row);
  }

  lemma StrippedKeyCell(row: seq<string>)
    requires |row| == |Columns|
    ensures Col(Sequenz) in WithStrippedSequenz(RowRecord(row))
    ensures WithStrippedSequenz(RowRecord(row))[Col(Sequenz)] == Str(Strip(Cell(row, Sequenz)))
  {
    assert SequenzOf(RowRecord(row)) == Cell(row, Sequenz);
  }

  lemma StrippedOtherCells(row: seq<string>)
    requires |row| == |Columns|
    ensures forall c :: c != Sequenz ==>
      Col(c) in WithStrippedSequenz(RowRecord(row)) &&
      WithStrippedSequenz(RowRecord(row))[Col(c)] == Str(Cell(row, c))
  {
    forall c | c != Sequenz
      ensures Col(c) in WithStrippedSequenz(RowRecord(row))
      ensures WithStrippedSequenz(RowRecord(row))[Col(c)] == Str(Cell(row, c))
    {
      StrippedOtherCell(RowRecord(row), Col(c));
    }
  }

  /** Stripping leaves every other cell as it was. */
  lemma StrippedOtherCell(r: Record, k: Field)
    requires k in r && k != Col(Sequenz)
    ensures k in WithStrippedSequenz(r) && WithStrippedSequenz(r)[k] == r[k]
  {
  }

  lemma PipelineFlags(row: seq<string>, id: string, files: map<string, seq<string>>)
    requires |row| == |Columns|
    ensures DefaultFlagged(Pipeline(row, id, files))
  {
    var s := WithStrippedSequenz(RowRecord(row));
    StrippedSequenz(RowRecord(row));
    EnrichedRowFlags(s, id, files);
  }

  /** A record with the committed keys, the cells of `row` and the default flags is
      committed exactly when its key is non-empty. */
  lemma CommittedWhenKeyed(e: Record, row: seq<string>)
    requires |row| == |Columns|
    requires CommittedKeys(e) && CellsOf(e, row) && DefaultFlagged(e)
    requires ConfigKey in e && e[ConfigKey] == Entries([])
    ensures SequenzOf(e) == Strip(Cell(row, Sequenz))
    ensures Strip(SequenzOf(e)) == SequenzOf(e)
    ensures HasSequenz(e) ==> Committed(e, row)
  {
    StripIdempotent(Cell(row, Sequenz));
  }

  /** A sheet row after labelling, stripping and enrichment: its key is the stripped cell, and
      when that key is non-empty the record is exactly what the run commits. */
  lemma RowThroughPipeline(row: seq<string>, id: string, files: map<string, seq<string>>)
    requires |row| == |Columns|
    ensures SequenzOf(Pipeline(row, id, files)) == Strip(Cell(row, Sequenz))
    ensures Strip(SequenzOf(Pipeline(row, id, files))) == SequenzOf(Pipeline(row, id, files))
    ensures HasSequenz(Pipeline(row, id, files)) ==> Committed(Pipeline(row, id, files), row)
  {
    PipelineKeys(row, id, files);
    PipelineCells(row, id, files);
    PipelineFlags(row, id, files);
    PipelineConfig(row, id, files);
    CommittedWhenKeyed(Pipeline(row, id, files), row);
  }

  lemma PipelineConfig(row: seq<string>, id: string, files: map<string, seq<string>>)
    requires |row| == |Columns|
    ensures ConfigKey in Pipeline(row, id, files)
    ensures Pipeline(row, id, files)[ConfigKey] == Entries([])
  {
  }

  /** Every record of the batch: a sheet row through the pipeline, with its identifier. */
  lemma BatchFromRows(rows: seq<seq<string>>, ids: seq<string>, files: map<string, seq<string>>)
    requires forall i :: 0 <= i < |rows| ==> |rows[i]| == |Columns|
    requires |ids| >= |rows|
    ensures var batch := Batch(RowRecords(rows), ids, files);
      forall a :: 0 <= a < |batch| ==>
        Strip(SequenzOf(batch[a])) == SequenzOf(batch[a]) &&
        (HasSequenz(batch[a]) ==> exists i :: 0 <= i < |rows| && Committed(batch[a], rows[i]))
  {
    var batch := Batch(RowRecords(rows), ids, files);
    forall a | 0 <= a < |batch|
      ensures Strip(SequenzOf(batch[a])) == SequenzOf(batch[a])
      ensures HasSequenz(batch[a]) ==> exists i :: 0 <= i < |rows| && Committed(batch[a], rows[i])
    {
      var i := BatchRecordFromRow(rows, ids, files, a);
      RowThroughPipeline(rows[i], ids[a], files);
    }
  }

  /** The `a`-th batch record is some sheet row through the pipeline. */
  lemma BatchRecordFromRow(rows: seq<seq<string>>, ids: seq<string>, files: map<string, seq<string>>, a: nat)
    returns (i: nat)
    requires forall i :: 0 <= i < |rows| ==> |rows[i]| == |Columns|
    requires |ids| >= |rows|
    requires a < |Batch(RowRecords(rows), ids, files)|
    ensures i < |rows| && a < |ids|
    ensures Batch(RowRecords(rows), ids, files)[a] == Pipeline(rows[i], ids[a], files)
  {
    var records := RowRecords(rows);
    var stripped := StrippedAll(records);
    var kept := Deduplicated(stripped);
    DeduplicatedFrom(stripped);
    DeduplicatedSize(stripped);
    assert kept[a] in stripped;
    i :| 0 <= i < |stripped| && stripped[i] == kept[a];
    assert kept[a] == WithStrippedSequenz(RowRecord(rows[i]));
  }

  /** No two records of the batch share a non-empty `sequenz`. */
  lemma BatchDistinct(records: seq<Record>, ids: seq<string>, files: map<string, seq<string>>)
    requires |ids| >= |records|
    ensures DistinctKeys(Batch(records, ids, files))
  {
    var stripped := StrippedAll(records);
    var kept := Deduplicated(stripped);
    DeduplicatedDistinct(stripped);
    BatchKeys(records, ids, files);
  }

  /** Enrichment keeps the key of every kept record. */
  lemma BatchKeys(records: seq<Record>, ids: seq<string>, files: map<string, seq<string>>)
    requires |ids| >= |records|
    ensures var kept := Deduplicated(StrippedAll(records));
      forall a :: 0 <= a < |kept| ==> SequenzOf(Batch(records, ids, files)[a]) == SequenzOf(kept[a])
  {
    var stripped := StrippedAll(records);
    var kept := Deduplicated(stripped);
    DeduplicatedFrom(stripped);
    DeduplicatedSize(stripped);
    forall a | 0 <= a < |kept|
      ensures SequenzOf(Batch(records, ids, files)[a]) == SequenzOf(kept[a])
    {
      assert kept[a] in stripped;
      EnrichedKey(kept[a], ids[a], files);
    }
  }

  /** A stripped record has a `sequenz` cell, which enrichment keeps. */
  lemma EnrichedKey(r: Record, id: string, files: map<string, seq<string>>)
    requires Col(Sequenz) in r
    ensures SequenzOf(Enriched(r, id, files)) == SequenzOf(r)
  {
    EnrichedKeeps(r, id, files);
  }

  /** The batch a labelled frame becomes before reconciliation. */
  function Batch(records: seq<Record>, ids: seq<string>, files: map<string, seq<string>>): (batch: seq<Record>)
    requires |ids| >= |records|
    ensures |batch| == |Deduplicated(StrippedAll(records))|
  {
    var kept := Deduplicated(StrippedAll(records));
    DeduplicatedSize(StrippedAll(records));
    EnrichedAll(kept, ids, files)
  }

  /** One run as a value: labelling fails the run on a header of the wrong width; otherwise
      the run reports the duplicates it dropped and reconciles the enriched batch. */
  function Run(sheet: Sheet, ids: seq<string>, files: map<string, seq<string>>, stored: Option<set<string>>)
    : (outcome: Result<Report, Failure>)
    requires Rectangular(sheet)
    requires |ids| >= |sheet.rows|
    ensures outcome.Err? <==> |sheet.header| != |Columns|
    ensures outcome.Err? ==> outcome.error == ColumnCountMismatch(|Columns|, |sheet.header|)
  {
    if |sheet.header| != |Columns| then Err(ColumnCountMismatch(|Columns|, |sheet.header|))
    else
      var records := RowRecords(sheet.rows);
      DeduplicatedSize(StrippedAll(records));
      Ok(Report(|records| - |Deduplicated(StrippedAll(records))|, Reconcile.Reconcile(Batch(records, ids, files), stored)))
  }

  /** The outcome of a run whose header has the declared width. */
  lemma RunValue(sheet: Sheet, ids: seq<string>, files: map<string, seq<string>>, stored: Option<set<string>>)
    requires Rectangular(sheet)
    requires |ids| >= |sheet.rows|
    requires |sheet.header| == |Columns|
    ensures Run(sheet, ids, files, stored).Ok?
    ensures Run(sheet, ids, files, stored).value.removed ==
      |sheet.rows| - |Deduplicated(StrippedAll(RowRecords(sheet.rows)))|
    ensures Run(sheet, ids, files, stored).value.plan ==
      Reconcile.Reconcile(Batch(RowRecords(sheet.rows), ids, files), stored)
  {
  }

  /** `main()` (main.py:37-178): label the sheet, strip `sequenz` in place, drop duplicate keys,
      enrich every record in place and reconcile the batch with the store. */
  method Ingest(sheet: Sheet, ids: seq<string>, files: map<string, seq<string>>, stored: Option<set<string>>)
    returns (outcome: Result<Report, Failure>)
    requires Rectangular(sheet)
    requires |ids| >= |sheet.rows|
    ensures outcome == Run(sheet, ids, files, stored)
  {
    var labelled := Label(sheet);
    if labelled.Err? {
      assert Run(sheet, ids, files, stored) == Err(labelled.error);
      return Err(labelled.error);
    }
    var records := labelled.value;
    assert records == RowRecords(sheet.rows);
    var kept, removed := Normalised(records);
    DeduplicatedSize(StrippedAll(records));
    var batch := EnrichedBatch(kept, ids, files);
    assert batch == Batch(records, ids, files);
    outcome := Ok(Report(removed, Reconcile.Reconcile(batch, stored)));
    RunValue(sheet, ids, files, stored);
    var run := Run(sheet, ids, files, stored);
    assert run == Ok(Report(run.value.removed, run.value.plan));
    assert removed == run.value.removed;
    assert Reconcile.Reconcile(batch, stored) == run.value.plan;
  }

  /** main.py:53-61: strip `sequenz` in place, then drop the rows whose non-empty key
      an earlier row already holds. */
  method Normalised(records: seq<Record>) returns (kept: seq<Record>, removed: nat)
    ensures kept == Deduplicated(StrippedAll(records))
    ensures removed == |records| - |kept|
  {
    var df := new Record[|records|](i requires 0 <= i < |records| => records[i]);
    StripSequenzColumn(df);
    assert df[..] == StrippedAll(records);
    kept, removed := DropDuplicates(df[..]);
  }

  /** main.py:63-137: enrich every kept record in place, the `i`-th with the `i`-th identifier. */
  method EnrichedBatch(kept: seq<Record>, ids: seq<string>, files: map<string, seq<string>>)
    returns (batch: seq<Record>)
    requires |ids| >= |kept|
    ensures batch == EnrichedAll(kept, ids, files)
  {
    var a := new Record[|kept|](i requires 0 <= i < |kept| => kept[i]);
    EnrichAll(a, ids, files);
    batch := a[..];
  }

  /** Every dropped row, skipped record and inserted record is accounted for: together they
      are the rows of the sheet (main.py:58, main.py:158-164). */
  lemma RunAccounts(sheet: Sheet, ids: seq<string>, files: map<string, seq<string>>, stored: Option<set<string>>)
    requires Rectangular(sheet)
    requires |ids| >= |sheet.rows|
    requires |sheet.header| == |Columns|
    ensures var p := Run(sheet, ids, files, stored).value.plan;
      (p.NoData? <==> sheet.rows == []) &&
      (p.Reconciled? ==>
        |p.Inserted()| + p.skippedExisting + p.skippedNoSeq + Run(sheet, ids, files, stored).value.removed
          == |sheet.rows|)
  {
    var records := RowRecords(sheet.rows);
    RunValue(sheet, ids, files, stored);
    DeduplicatedNonEmpty(StrippedAll(records));
  }

  /** Every inserted record is a committed sheet row whose key the store did not hold
      (main.py:53-161). */
  lemma RunInserts(sheet: Sheet, ids: seq<string>, files: map<string, seq<string>>, stored: Option<set<string>>)
    requires Rectangular(sheet)
    requires |ids| >= |sheet.rows|
    requires |sheet.header| == |Columns|
    ensures forall r :: r in Run(sheet, ids, files, stored).value.plan.Inserted() ==>
      (exists i :: 0 <= i < |sheet.rows| && Committed(r, sheet.rows[i])) &&
      (stored.Some? ==> SequenzOf(r) !in stored.value)
  {
    var records := RowRecords(sheet.rows);
    var batch := Batch(records, ids, files);
    RunValue(sheet, ids, files, stored);
    assert Run(sheet, ids, files, stored).value.plan == Reconcile.Reconcile(batch, stored);
    BatchFromRows(sheet.rows, ids, files);
    InsertedAgainstStore(batch, stored);
  }

  /** Conversely, every sheet row whose stripped `sequenz` is non-empty and not held by the
      store has its key inserted: deduplication loses no key and reconciliation drops only
      stored keys (main.py:55-61, main.py:158-169). */
  lemma RunInsertsEveryNewKey(sheet: Sheet, ids: seq<string>, files: map<string, seq<string>>,
                              stored: Option<set<string>>, i: nat)
    requires Rectangular(sheet)
    requires |ids| >= |sheet.rows|
    requires |sheet.header| == |Columns|
    requires i < |sheet.rows|
    requires Strip(Cell(sheet.rows[i], Sequenz)) != ""
    requires stored.None? || Strip(Cell(sheet.rows[i], Sequenz)) !in stored.value
    ensures exists r ::
      (r in Run(sheet, ids, files, stored).value.plan.Inserted() && SequenzOf(r) == Strip(Cell(sheet.rows[i], Sequenz)))
  {
    var key := Strip(Cell(sheet.rows[i], Sequenz));
    var records := RowRecords(sheet.rows);
    var stripped := StrippedAll(records);
    var kept := Deduplicated(stripped);
    var batch := Batch(records, ids, files);
    RunValue(sheet, ids, files, stored);
    StrippedKeyCell(sheet.rows[i]);
    assert SequenzOf(stripped[i]) == key;
    DeduplicatedKeepsEveryKey(stripped);
    assert key in Keys(kept);
    var a :| 0 <= a < |kept| && Keys(kept)[a] == key;
    BatchKeys(records, ids, files);
    assert SequenzOf(batch[a]) == key;
    StripIdempotent(Cell(sheet.rows[i], Sequenz));
    assert HasSequenz(batch[a]);
    BatchFromRows(sheet.rows, ids, files);
    InsertedAgainstStore(batch, stored);
    assert batch[a] in Reconcile.Reconcile(batch, stored).Inserted();
  }

  /** No two inserted records share a key (main.py:57-61, main.py:158-161). */
  lemma RunDistinct(sheet: Sheet, ids: seq<string>, files: map<string, seq<string>>, stored: Option<set<string>>)
    requires Rectangular(sheet)
    requires |ids| >= |sheet.rows|
    requires |sheet.header| == |Columns|
    ensures DistinctKeys(Run(sheet, ids, files, stored).value.plan.Inserted())
  {
    var records := RowRecords(sheet.rows);
    RunValue(sheet, ids, files, stored);
    BatchDistinct(records, ids, files);
    InsertedDistinct(Batch(records, ids, files), stored);
  }

  /** When the store cannot be asked, no record is skipped as existing and every keyed record
      of the batch is inserted (main.py:153-155). */
  lemma RunStoreFailed(sheet: Sheet, ids: seq<string>, files: map<string, seq<string>>)
    requires Rectangular(sheet)
    requires |ids| >= |sheet.rows|
    requires |sheet.header| == |Columns|
    requires sheet.rows != []
    ensures var run := Run(sheet, ids, files, None).value;
      run.plan.Reconciled? && run.plan.skippedExisting == 0 &&
      |run.plan.Inserted()| + run.plan.skippedNoSeq + run.removed == |sheet.rows|
  {
    var records := RowRecords(sheet.rows);
    var batch := Batch(records, ids, files);
    RunValue(sheet, ids, files, None);
    DeduplicatedNonEmpty(StrippedAll(records));
    assert batch != [];
    ReconcileStoreFailed(batch);
    var p := Reconcile.Reconcile(batch, None);
    assert p.skippedExisting == 0 && |p.Inserted()| + p.skippedNoSeq == |batch|;
  }
}
