# Production schedule loader — Dafny model

The loader reads one run's production schedule from a spreadsheet and writes it to a
MongoDB collection (`production.productionSchedule`). One run works like this:

1. Read the sheet, with every cell as a string. The first row is skipped and the second
   row is the header.
2. Replace the header with the 38 declared column names.
3. Strip the `sequenz` key of every row. Of the rows that share a non-empty `sequenz`,
   only the first is kept.
4. Give every record a string `_id` and the 28 status flags (`activeList` and
   `activeEngine` are `"true"`, every bay and test-bay flag is `"false"`).
5. Read a per-machine file `<machine>_00.txt`, then attach `config`. As written, the attached list is always `[]` (see below).
6. Ask the store which of the batch's keys it already holds.
7. Insert the keyed records the store does not know. Count what was skipped.

The model follows `main()` of `main.py` module by module:

| module | file | what it models |
|---|---|---|
| `Schema` | schema.dfy | the column list, the status flags, the record keys and their string names |
| `Text` | text.dfy | Python's `str.strip()`, `s.split(';')` and `';'.join(...)` |
| `ConfigFile` | config.dfy | tokenising a machine configuration file, and the `config` value a record receives |
| `Normalise` | normalise.dfy | labelling, stripping `sequenz` in place, and dropping duplicate keys |
| `Enrich` | enrich.dfy | the enrichment loop, in place over the batch |
| `Reconcile` | reconcile.dfy | `seq_values`, `existing_seq`, `new_records` and the two skip counts |
| `Ingest` | ingest.dfy | the whole run as a method, with `Run` as its functional specification |

Records are maps from an enumerated `Field` (a column, `_id`, a status flag, or `config`)
to a `Value`. A value is either a cell string or the `config` list of single-entry
mappings. `FieldName` gives the exact string key the program uses. `FieldNamesRoundTrip`
proves that no two fields share a key, so enumerated keys stand for string keys with
nothing lost.

The model follows the code where the code and the intended design differ:

- **38 columns.** The declared list has 38 names (`main.py:30-35`), including both `bay_19`
  and `bay_19_sap`. A sheet of any other width fails the whole run: assigning
  `df.columns` raises, and the outer handler exits with status 1.
- **Flags on every record.** The flag guard is `isinstance(seq_val, str)`
  (`main.py:69`). After `astype(str)` every `sequenz` is a string, so records whose
  `sequenz` is empty get the flags too, although the comment says otherwise. They are
  later skipped as "no sequenz", so they are never written.
- **`config` is always empty.** A configuration file is tokenised and its 11-token
  preamble dropped. Then `config_values.append = [...]` assigns to the read-only
  `append` attribute of a list, which raises `AttributeError` (`main.py:124`). An
  odd-length remainder raises `IndexError` one step earlier. Either exception is caught
  and `config_values` becomes `[]` (`main.py:128-130`). The intended pairs and the
  `{"machine": tokens[1]}` entry are never attached. `ConfigFile.Pairs` still models
  the pairing expression, and `ConfigFile.ReadConfigFile` models exactly which
  exception ends the block.

Inputs replace I/O:

- `Sheet(header, rows)` is the sheet as `read_excel` yields it, already rectangular.
- `ids` holds the identifiers, one per kept record, in place of `uuid4()`.
- `files` maps a stripped machine name to the lines of its readable configuration file.
- `stored: Option<set<string>>` is the store's answer. `None` is a failed query.
  `Some(s)` lists the keys the store holds; the `$in` filter is modelled by
  intersecting `s` with the batch's keys.
- The result is a `Report`: the number of duplicate rows removed, and a `Plan` (no data,
  or the records to insert plus the two skip counts).

## Model

| member | source | states |
|---|---|---|
| `Schema.ColumnsIndexed` | main.py:30-35 | the declared list has 38 columns and lists every column at its own position, so each column appears exactly once |
| `Schema.ColumnNamesRoundTrip` | main.py:30-35 | every column is recovered from its string key, so the 38 column names are pairwise different |
| `Schema.FlagsComplete` | main.py:70-97 | the flag list has 28 entries and lists every status flag exactly once |
| `Schema.FlagNamesRoundTrip` | main.py:70-97 | every flag is recovered from its string key, and no flag key is also a column key |
| `Schema.FieldNamesRoundTrip` | main.py:168 | every record field is recovered from its string key; two fields with the same key are the same field, so `str(k)` loses nothing |
| `Text.StripSpec` | main.py:55 | `Strip(s)` is a slice of `s`; everything cut off is white space; the result neither starts nor ends with white space |
| `Text.StripEmpty` | main.py:145 | a string strips to empty exactly when it is all white space |
| `Text.StripIdempotent` | main.py:143-145 | stripping an already stripped key changes nothing |
| `Text.StripChars` | main.py:55 | stripping introduces no character |
| `Text.Split` | main.py:121 | splitting on `;` yields at least one piece, and no piece contains `;` |
| `Text.JoinSplit` | main.py:119-121 | joining the pieces of a split with `;` gives back the string |
| `Text.SplitJoin` | main.py:119-121 | splitting a `;`-join of strings gives the concatenated splits of each string |
| `Text.SplitJoinRoundTrip` | main.py:119-121 | strings free of `;` survive a join and a split unchanged |
| `ConfigFile.StripEach` | main.py:116 | the lines keep their number and order, and each is stripped |
| `ConfigFile.TokensInFileOrder` | main.py:116-121 | the tokens of a file are the tokens of its lines, one line after another |
| `ConfigFile.TokensWellFormed` | main.py:121 | every token is non-empty, stripped and free of `;` |
| `ConfigFile.BlankLinesIgnored` | main.py:119 | inserting a blank line anywhere leaves the tokens unchanged |
| `ConfigFile.ConfigTokens` | main.py:123 | after the 11-token preamble the remaining tokens are kept in order; there are none when the file has 11 or fewer |
| `ConfigFile.Pairs` | main.py:124 | an odd token count raises `IndexError`; otherwise there is one `{key: value}` entry per consecutive pair, in order |
| `ConfigFile.ReadConfigFile` | main.py:114-127 | reading an existing file always raises; the exception is `IndexError` exactly when the token count after the preamble is odd |
| `ConfigFile.AttachConfig` | main.py:101-137 | whatever the machine and the files, the attached `config` list is empty |
| `Normalise.RowKeys` | main.py:49 | a labelled record has exactly the declared columns as keys |
| `Normalise.RowRecord` | main.py:63 | a row becomes a record holding, for every column, the cell at that column's position |
| `Normalise.Label` | main.py:49-50 | labelling fails exactly when the header width differs from 38, and reports both widths; otherwise every row becomes one record with its own cells |
| `Normalise.StripSequenzColumn` | main.py:55 | every row of the frame, in place, becomes the row with `sequenz` stripped |
| `Normalise.StrippedSequenz` | main.py:55 | stripping changes only `sequenz`, keeps a labelled record labelled, and leaves a key that strips to itself |
| `Normalise.DropDuplicates` | main.py:57-61 | the loop with a set of seen keys returns the mask-filtered frame, and counts as removed the set mask bits, which number the rows dropped |
| `Normalise.DeduplicatedDistinct` | main.py:57-61 | no two kept records share a non-empty key |
| `Normalise.DeduplicatedKeepsFirst` | main.py:57 | every kept keyed record is a frame row whose key occurs in no earlier row |
| `Normalise.DeduplicatedKeepsEveryKey` | main.py:57-61 | every key of the frame is still the key of some kept record |
| `Normalise.UnkeyedKept` | main.py:56-57 | records with an empty key are never dropped: they are the same, in the same order, before and after |
| `Normalise.DeduplicatedNonEmpty` | main.py:57-61 | deduplication empties the frame only when the frame was empty |
| `Normalise.DeduplicatedFrom` | main.py:61 | every kept record is a row of the frame |
| `Enrich.DefaultFlags` | main.py:70-97 | the flag map has exactly the 28 flag keys, each at its default |
| `Enrich.Enriched` | main.py:65-137 | the enriched record has the old keys plus `_id` and `config`, and the flags when `sequenz` is a string; `_id` holds the given identifier and `config` is empty |
| `Enrich.EnrichedFlags` | main.py:69-97 | when `sequenz` is a string, every flag holds its default |
| `Enrich.EnrichedKeeps` | main.py:65-137 | every key enrichment does not assign keeps its value |
| `Enrich.EnrichAll` | main.py:65-137 | every record of the batch, in place, becomes its enrichment with the identifier at its position |
| `Enrich.EnrichedRowKeys` | main.py:65-134 | an enriched labelled record has exactly the columns, the 28 flags, `_id` and `config` |
| `Enrich.EnrichedRowCells` | main.py:65-137 | enrichment leaves all 38 cells of a labelled record unchanged |
| `Enrich.EnrichedRowFlags` | main.py:69-97 | every enriched labelled record has `activeList` and `activeEngine` at `"true"` and every other flag at `"false"` |
| `Reconcile.SeqValues` | main.py:142-146 | every collected key is non-empty and already stripped, and every keyed record contributes its stripped key |
| `Reconcile.ExistingSeq` | main.py:149-155 | the existing keys are the batch keys the store holds; none when the query fails |
| `Reconcile.Partition` | main.py:158-164 | every record is new, skipped as existing or skipped as keyless, so the three counts add up to the batch size |
| `Reconcile.NewRecordsExactly` | main.py:158-161 | a record is new exactly when it has a key that is not among the existing keys |
| `Reconcile.NewRecordsInOrder` | main.py:158-161 | filtering distributes over concatenation, so new records keep batch order |
| `Reconcile.NewRecordsDistinct` | main.py:158-161 | a batch without repeated keys yields new records without repeated keys |
| `Reconcile.NothingExisting` | main.py:153-164 | with no key known to exist, nothing is skipped as existing and every keyed record is new |
| `Reconcile.Reconcile` | main.py:139-174 | no data exactly for an empty batch; the store is asked exactly when the batch has a key; an insert is never empty; inserted and skipped records add up to the batch |
| `Reconcile.ReconcileInserts` | main.py:158-169 | the insert writes exactly the keyed records whose key is not among the existing keys |
| `Reconcile.ReconcileStoreFailed` | main.py:153-155 | when the query fails, nothing is skipped as existing and every keyed record is inserted |
| `Reconcile.InsertedAgainstStore` | main.py:150-161 | for stripped keys, a record is inserted exactly when it has a key the store does not hold, or the query failed |
| `Reconcile.InsertedDistinct` | main.py:158-169 | a batch without repeated keys yields an insert without repeated keys |
| `Ingest.StrippedAll` | main.py:55 | every record keeps its keys and gains `sequenz`; its key is the strip of the old one and strips to itself; every other key keeps its value |
| `Ingest.EnrichedAll` | main.py:65-137 | every record carries the identifier at its position as `_id` and an empty `config`; a labelled record keeps its 38 cells and has every status flag at its default |
| `Ingest.RowThroughPipeline` | main.py:49-137 | a labelled, stripped and enriched row has the stripped cell as its key; when that key is non-empty the record is exactly what the run commits (cells, flags, `_id`, empty `config`, nothing else) |
| `Ingest.BatchFromRows` | main.py:49-137 | every batch record has a stripped key, and each keyed one is a committed sheet row |
| `Ingest.BatchDistinct` | main.py:57-137 | no two batch records share a non-empty key |
| `Ingest.Run` | main.py:37-178 | a run fails exactly on a header of the wrong width, with both widths in the error |
| `Ingest.Ingest` | main.py:37-178 | the method, over arrays updated in place, produces exactly the outcome `Run` specifies |
| `Ingest.Normalised` | main.py:53-61 | stripping in place then dropping duplicates yields the deduplicated stripped frame and the number of rows it lost |
| `Ingest.EnrichedBatch` | main.py:63-137 | enriching the batch in place yields every kept record enriched with its identifier |
| `Ingest.RunAccounts` | main.py:58-164 | no data exactly for a sheet without rows; otherwise removed, inserted and skipped records together are all the sheet's rows |
| `Ingest.RunInserts` | main.py:53-161 | every inserted record is a committed sheet row whose key the store did not hold |
| `Ingest.RunInsertsEveryNewKey` | main.py:55-169 | conversely, every sheet row whose stripped `sequenz` is non-empty and not held by the store (or the query failed) has a record with that key inserted |
| `Ingest.RunDistinct` | main.py:57-161 | no two inserted records share a key |
| `Ingest.RunStoreFailed` | main.py:153-164 | for a sheet with rows and a failed query, nothing is skipped as existing, and removed, inserted and keyless records are all the rows |

## Left out

- Reading the spreadsheet (`read_excel`, `openpyxl`, `dtype=str`, `keep_default_na=False`, skipping the first row) is not modelled: the sheet arrives as rows of strings, already rectangular.
- The MongoDB client, `distinct` and `insert_many` are not modelled: the store's answer is the input `stored`, and the insert is the `Plan` value. `$in` is modelled as set intersection.
- `str(k)` over keys (main.py:168) is the identity on the model's keys; `FieldNamesRoundTrip` shows that the string keys are distinct.
- `uuid4()` is replaced by the input `ids`. Their freshness and uniqueness are not modelled.
- Logging, the log directory and `sys.exit(1)` are not modelled. A header-width failure is the `Err` outcome; the log lines are not.
- The configuration file system is not modelled. `exists`, `is_file`, `open` and decoding errors become presence in `files`: an unreadable file counts as missing. Both give an empty `config`, as a read error would.
- `Text.IsSpace` covers the white space `str.isspace()` accepts. Decoding with `errors='ignore'` is not modelled.
- The `{"machine": tokens[1]}` entry (main.py:126-127) cannot be reached, because the assignment before it always raises; it is not modelled.
- Exceptions other than those named in the model (for example a `MemoryError`) are not modelled.
