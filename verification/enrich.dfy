/**
 * The enrichment loop (main.py:65-137): every record gets an `_id`, the status
 * flags when its `sequenz` is a string, and a `config` list. Identifiers are
 * inputs instead of fresh `uuid4()` values.
 */
module Enrich {
  import opened Text
  import opened Schema
  import opened ConfigFile
  import Normalise

  /** `isinstance(r.get('sequenz'), str)` (main.py:68-69). */
  predicate SequenzIsString(r: Record)
  {
    Col(Sequenz) in r && r[Col(Sequenz)].Str?
  }

  /** `str(r.get('machine') or '')` (main.py:102), before stripping. */
  function MachineOf(r: Record): string
  {
    if Col(Machine) in r && r[Col(Machine)].Str? then r[Col(Machine)].text else ""
  }

  /** The 28 flag assignments of main.py:70-97. */
  function DefaultFlags(): (flags: map<Field, Value>)
    ensures forall k :: k in flags <==> k.Flag?
    ensures forall f :: Flag(f) in flags && flags[Flag(f)] == Str(FlagDefault(f))
  {
    FlagsComplete();
    FieldSets();
    map f | f in Flags :: Flag(f) := Str(FlagDefault(f))
  }

  /** The keys the loop adds to every record, whatever its contents. */
  const Added: set<Field> := {Id, ConfigKey}

  /** One pass of the loop body on record `r` with identifier `id`. */
  function Enriched(r: Record, id: string, files: map<string, seq<string>>): (e: Record)
    ensures forall k :: k in e <==> k in r || k in Added || (k.Flag? && SequenzIsString(r))
    ensures e[Id] == Str(id)
    ensures e[ConfigKey] == Entries([])
  {
    var withId := r[Id := Str(id)];
    var flagged := if SequenzIsString(r) then withId + DefaultFlags() else withId;
    var e := flagged[ConfigKey := Entries(AttachConfig(MachineOf(flagged), files))];
    e
  }

  /** When the guard holds, every flag has its default value. */
  lemma EnrichedFlags(r: Record, id: string, files: map<string, seq<string>>)
    requires SequenzIsString(r)
    ensures forall f :: Flag(f) in Enriched(r, id, files) && Enriched(r, id, files)[Flag(f)] == Str(FlagDefault(f))
  {
  }

  /** Nothing else changes: every other key keeps its value. */
  lemma EnrichedKeeps(r: Record, id: string, files: map<string, seq<string>>)
    ensures forall k :: k in r && k !in Added && !(k.Flag? && SequenzIsString(r)) ==>
      k in Enriched(r, id, files) && Enriched(r, id, files)[k] == r[k]
  {
  }

  /** `for r in records: ...` (main.py:65-137): enrich every record in place, the `i`-th
      with the `i`-th identifier. */
  method EnrichAll(records: array<Record>, ids: seq<string>, files: map<string, seq<string>>)
    requires |ids| >= records.Length
    modifies records
    ensures forall i :: 0 <= i < records.Length ==> records[i] == Enriched(old(records[i]), ids[i], files)
  {
    for i := 0 to records.Length
      invariant forall j :: 0 <= j < i ==> records[j] == Enriched(old(records[j]), ids[j], files)
      invariant forall j :: i <= j < records.Length ==> records[j] == old(records[j])
    {
      var r := records[i];
      r := r[Id := Str(ids[i])];
      if SequenzIsString(records[i]) {
        r := r + DefaultFlags();
      }
      r := r[ConfigKey := Entries(AttachConfig(MachineOf(r), files))];
      records[i] := r;
    }
  }

  /** The keys of every enriched record of a labelled frame: its 38 columns, the 28 flags,
      `_id` and `config`, and no other. The `sequenz` guard always holds for such a
      record, also when its `sequenz` is empty (main.py:55, main.py:69). */
  lemma EnrichedRowKeys(r: Record, id: string, files: map<string, seq<string>>)
    requires Normalise.IsRow(r)
    ensures forall k :: k in Enriched(r, id, files) <==> k.Col? || k.Flag? || k in Added
  {
    assert Col(Sequenz) in r;
  }

  /** Enrichment leaves the 38 cells of a labelled record as they were. */
  lemma EnrichedRowCells(r: Record, id: string, files: map<string, seq<string>>)
    requires Normalise.IsRow(r)
    ensures forall c :: Col(c) in Enriched(r, id, files) && Enriched(r, id, files)[Col(c)] == r[Col(c)]
  {
    EnrichedKeeps(r, id, files);
    forall c
      ensures Col(c) in Enriched(r, id, files) && Enriched(r, id, files)[Col(c)] == r[Col(c)]
    {
      assert Col(c) in r && Col(c) !in Added;
    }
  }

  /** Every enriched record of a labelled frame has the list and engine flags active and
      every bay and test-bay flag inactive (main.py:70-97). */
  lemma EnrichedRowFlags(r: Record, id: string, files: map<string, seq<string>>)
    requires Normalise.IsRow(r)
    ensures var e := Enriched(r, id, files);
      Flag(ActiveList) in e && e[Flag(ActiveList)] == Str("true") &&
      Flag(ActiveEngine) in e && e[Flag(ActiveEngine)] == Str("true") &&
      (forall f :: f != ActiveList && f != ActiveEngine ==> Flag(f) in e && e[Flag(f)] == Str("false"))
  {
    assert Col(Sequenz) in r;
    EnrichedFlags(r, id, files);
  }
}
