/**
 * Reconciliation against the store (main.py:139-174). The store's `distinct`
 * query is an input: `stored` is the set of `sequenz` values already in the
 * collection, or `None` when the query fails. The bulk insert is an output:
 * the records to write, or nothing.
 */
module Reconcile {
  import opened Wrappers
  import opened Text
  import opened Schema
  import Normalise

  /** `isinstance(r.get('sequenz'), str) and r.get('sequenz').strip()` (main.py:145, main.py:160). */
  predicate HasSequenz(r: Record)
  {
    Col(Sequenz) in r && r[Col(Sequenz)].Str? && Strip(r[Col(Sequenz)].text) != ""
  }

  /** The set `seq_values` of stripped non-empty keys of the batch (main.py:142-146): every
      value is non-empty and already stripped, and the keyed records give all of them. */
  function SeqValues(records: seq<Record>): (values: set<string>)
    ensures forall v :: v in values ==> v != "" && Strip(v) == v
    ensures forall r :: r in records && HasSequenz(r) ==> Strip(Normalise.SequenzOf(r)) in values
    ensures forall v :: v in values <==> exists r :: r in records && HasSequenz(r) && v == Strip(Normalise.SequenzOf(r))
  {
    StripIdempotentAll();
    set r | r in records && HasSequenz(r) :: Strip(Normalise.SequenzOf(r))
  }

  /** `existing_seq` (main.py:149-155): the batch keys the store already holds; the store is
      asked only when the batch has keys, and a failed query counts as none. */
  function ExistingSeq(values: set<string>, stored: Option<set<string>>): (existing: set<string>)
    ensures existing <= values
    ensures stored.None? ==> existing == {}
    ensures stored.Some? ==> existing == stored.value * values
  {
    if values == {} then {}
    else match stored
      case None => {}
      case Some(s) => s * values
  }

  /** `new_records` (main.py:158-161): keyed records whose key the store does not hold, in batch order. */
  function NewRecords(records: seq<Record>, existing: set<string>): seq<Record>
  {
    if records == [] then []
    else
      var r := records[0];
      (if HasSequenz(r) && Normalise.SequenzOf(r) !in existing then [r] else [])
        + NewRecords(records[1..], existing)
  }

  /** `skipped_no_seq` (main.py:163). */
  function SkippedNoSeq(records: seq<Record>): nat
  {
    if records == [] then 0
    else (if !HasSequenz(records[0]) then 1 else 0) + SkippedNoSeq(records[1..])
  }

  /** `skipped_existing` (main.py:164). */
  function SkippedExisting(records: seq<Record>, existing: set<string>): nat
  {
    if records == [] then 0
    else
      var r := records[0];
      (if HasSequenz(r) && Normalise.SequenzOf(r) in existing then 1 else 0)
        + SkippedExisting(records[1..], existing)
  }

  /** Every record is new, already stored, or without key, and exactly one of them. */
  lemma {:induction false} Partition(records: seq<Record>, existing: set<string>)
    ensures |NewRecords(records, existing)| + SkippedExisting(records, existing) + SkippedNoSeq(records)
      == |records|
  {
    if records != [] {
      Partition(records[1..], existing);
    }
  }

  /** `new_records` holds exactly the keyed records of the batch whose key is not stored. */
  lemma {:induction false} NewRecordsExactly(records: seq<Record>, existing: set<string>)
    ensures forall r :: r in NewRecords(records, existing) <==>
      r in records && HasSequenz(r) && Normalise.SequenzOf(r) !in existing
  {
    if records != [] {
      NewRecordsExactly(records[1..], existing);
      assert records == [records[0]] + records[1..];
    }
  }

  /** `new_records` keeps batch order: it is the batch with the other records taken out. */
  lemma {:induction false} NewRecordsInOrder(a: seq<Record>, b: seq<Record>, existing: set<string>)
    ensures NewRecords(a + b, existing) == NewRecords(a, existing) + NewRecords(b, existing)
  {
    if a == [] {
      assert a + b == b;
    } else {
      assert (a + b)[0] == a[0];
      assert (a + b)[1..] == a[1..] + b;
      NewRecordsInOrder(a[1..], b, existing);
    }
  }

  /** Filtering keeps keys distinct: a batch without repeated keys gives new records without
      repeated keys. */
  lemma {:induction false} NewRecordsDistinct(records: seq<Record>, existing: set<string>)
    requires Normalise.DistinctKeys(records)
    ensures Normalise.DistinctKeys(NewRecords(records, existing))
  {
    if records != [] {
      var rest := records[1..];
      DistinctRest(records);
      NewRecordsDistinct(rest, existing);
      NewRecordsExactly(rest, existing);
      var r := records[0];
      var tail := NewRecords(rest, existing);
      if HasSequenz(r) && Normalise.SequenzOf(r) !in existing {
        forall x | x in tail && Normalise.SequenzOf(r) != ""
          ensures Normalise.SequenzOf(x) != Normalise.SequenzOf(r)
        {
          var j :| 0 <= j < |rest| && rest[j] == x;
          assert records[j + 1] == x;
        }
        DistinctPrepend(r, tail);
      }
    }
  }

  lemma DistinctRest(records: seq<Record>)
    requires records != [] && Normalise.DistinctKeys(records)
    ensures Normalise.DistinctKeys(records[1..])
  {
    var rest := records[1..];
    forall a, b | 0 <= a < b < |rest| && Normalise.SequenzOf(rest[a]) != ""
      ensures Normalise.SequenzOf(rest[a]) != Normalise.SequenzOf(rest[b])
    {
      assert rest[a] == records[a + 1] && rest[b] == records[b + 1];
    }
  }

  lemma DistinctPrepend(r: Record, tail: seq<Record>)
    requires Normalise.DistinctKeys(tail)
    requires forall x :: x in tail && Normalise.SequenzOf(r) != "" ==> Normalise.SequenzOf(x) != Normalise.SequenzOf(r)
    ensures Normalise.DistinctKeys([r] + tail)
  {
    var out := [r] + tail;
    forall a, b | 0 <= a < b < |out| && Normalise.SequenzOf(out[a]) != ""
      ensures Normalise.SequenzOf(out[a]) != Normalise.SequenzOf(out[b])
    {
      if a == 0 {
        assert out[b] in tail;
      } else {
        assert out[a] == tail[a - 1] && out[b] == tail[b - 1];
      }
    }
  }

  /** With no key known to exist, every keyed record is new and none is skipped as existing. */
  lemma {:induction false} NothingExisting(records: seq<Record>)
    ensures |NewRecords(records, {})| + SkippedNoSeq(records) == |records|
    ensures SkippedExisting(records, {}) == 0
  {
    if records != [] {
      NothingExisting(records[1..]);
    }
  }

  /** What one run decides: nothing when the batch is empty; otherwise the records to insert
      (`None` when no insert is made), the two skip counts, and whether the store was asked. */
  datatype Plan =
    | NoData
    | Reconciled(insert: Option<seq<Record>>, skippedExisting: nat, skippedNoSeq: nat, queried: bool)
  {
    /** The records written, none when no insert is made. */
    function Inserted(): seq<Record>
    {
      if Reconciled? && insert.Some? then insert.value else []
    }
  }

  /** main.py:139-174. */
  function Reconcile(records: seq<Record>, stored: Option<set<string>>): (p: Plan)
    ensures p.NoData? <==> records == []
    ensures p.Reconciled? ==> (p.queried <==> SeqValues(records) != {})
    ensures p.Reconciled? ==> p.insert.Some? ==> p.insert.value != []
    ensures p.Reconciled? ==> |p.Inserted()| + p.skippedExisting + p.skippedNoSeq == |records|

  {
    if records == [] then NoData
    else
      var values := SeqValues(records);
      var existing := ExistingSeq(values, stored);
      var newRecords := NewRecords(records, existing);
      Partition(records, existing);
      Reconciled(if newRecords == [] then None else Some(newRecords),
                 SkippedExisting(records, existing), SkippedNoSeq(records), values != {})
  }

  /** The insert writes exactly the keyed records whose key is not among the existing ones. */
  lemma ReconcileInserts(records: seq<Record>, stored: Option<set<string>>)
    ensures forall r :: r in Reconcile(records, stored).Inserted() <==>
      r in records && HasSequenz(r) && Normalise.SequenzOf(r) !in ExistingSeq(SeqValues(records), stored)
  {
    NewRecordsExactly(records, ExistingSeq(SeqValues(records), stored));
  }

  /** A failed store query skips nothing as existing: every keyed record is inserted
      (main.py:153-155). */
  lemma ReconcileStoreFailed(records: seq<Record>)
    requires records != []
    ensures var p := Reconcile(records, None);
      p.skippedExisting == 0 && |p.Inserted()| + p.skippedNoSeq == |records|
  {
    NothingExisting(records);
  }

  /** For a batch whose keys are already stripped, a record is inserted exactly when it has a
      key that the store does not hold, or the store could not be asked (main.py:150-161). */
  lemma InsertedAgainstStore(records: seq<Record>, stored: Option<set<string>>)
    requires forall r :: r in records ==> Strip(Normalise.SequenzOf(r)) == Normalise.SequenzOf(r)
    ensures forall r :: r in Reconcile(records, stored).Inserted() <==>
      r in records && HasSequenz(r) && (stored.None? || Normalise.SequenzOf(r) !in stored.value)
  {
    ReconcileInserts(records, stored);
  }

  /** A batch without repeated keys yields an insert without repeated keys. */
  lemma InsertedDistinct(records: seq<Record>, stored: Option<set<string>>)
    requires Normalise.DistinctKeys(records)
    ensures Normalise.DistinctKeys(Reconcile(records, stored).Inserted())
  {
    if records != [] {
      NewRecordsDistinct(records, ExistingSeq(SeqValues(records), stored));
    }
  }
}
