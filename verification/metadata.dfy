/** Folding the invoice's ordered metadata list into one key/value mapping,
    where a later entry overwrites an earlier one with the same key. */
module Metadata {

  import opened Wrappers
  import opened Parameters

  /** The value `m` holds for `k`, if any. */
  function Lookup(m: map<string, string>, k: string): Option<string> {
    if k in m then Some(m[k]) else None
  }

  /** The keys mentioned by the entries. */
  function EntryKeys(entries: seq<MetadataEntry>): set<string> {
    set i | 0 <= i < |entries| :: entries[i].key
  }

  /** Reference definition: the value of the LAST entry whose key is `k`. */
  function LastValue(entries: seq<MetadataEntry>, k: string): Option<string> {
    if entries == [] then None
    else if entries[|entries| - 1].key == k then Some(entries[|entries| - 1].value)
    else LastValue(entries[..|entries| - 1], k)
  }

  /** Entry `i` is the last one carrying its key. */
  predicate IsLastOccurrence(entries: seq<MetadataEntry>, i: int) {
    && 0 <= i < |entries|
    && forall j :: i < j < |entries| ==> entries[j].key != entries[i].key
  }

  /** Assigns the entries into `m` one after another, front to back. */
  function AssignEach(m: map<string, string>, entries: seq<MetadataEntry>): map<string, string>
    decreases |entries|
  {
    if entries == [] then m else AssignEach(m[entries[0].key := entries[0].value], entries[1..])
  }

  lemma {:induction false} AssignEachAppend(m: map<string, string>, entries: seq<MetadataEntry>, e: MetadataEntry)
    ensures AssignEach(m, entries + [e]) == AssignEach(m, entries)[e.key := e.value]
    decreases |entries|
  {
    if entries != [] {
      assert (entries + [e])[1..] == entries[1..] + [e];
      AssignEachAppend(m[entries[0].key := entries[0].value], entries[1..], e);
    }
  }

  lemma {:induction false} AssignEachLookup(m: map<string, string>, entries: seq<MetadataEntry>, k: string)
    ensures Lookup(AssignEach(m, entries), k) == if LastValue(entries, k).Some? then LastValue(entries, k) else Lookup(m, k)
    decreases |entries|
  {
    if entries != [] {
      var init := entries[..|entries| - 1];
      var e := entries[|entries| - 1];
      assert entries == init + [e];
      AssignEachAppend(m, init, e);
      AssignEachLookup(m, init, k);
    }
  }

  lemma {:induction false} LastValueSomeIffMentioned(entries: seq<MetadataEntry>, k: string)
    ensures LastValue(entries, k).Some? <==> k in EntryKeys(entries)
  {
    if entries != [] {
      var init := entries[..|entries| - 1];
      LastValueSomeIffMentioned(init, k);
      assert EntryKeys(entries) == EntryKeys(init) + {entries[|entries| - 1].key} by {
        forall x | x in EntryKeys(entries) ensures x in EntryKeys(init) + {entries[|entries| - 1].key} {
          var i :| 0 <= i < |entries| && entries[i].key == x;
          if i < |entries| - 1 { assert init[i] == entries[i]; }
        }
        forall x | x in EntryKeys(init) ensures x in EntryKeys(entries) {
          var i :| 0 <= i < |init| && init[i].key == x;
          assert entries[i] == init[i];
        }
      }
    }
  }

  /** The metadata object sent with an invoice: one key per distinct entry
      key, holding the value of that key's last entry; an empty list gives
      an empty mapping. */
  function FoldMetadata(entries: seq<MetadataEntry>): (r: map<string, string>)
    ensures r.Keys == EntryKeys(entries)
    ensures forall k :: Lookup(r, k) == LastValue(entries, k)
  {
    var r := if |entries| > 0 then AssignEach(map[], entries) else map[];
    assert forall k :: Lookup(r, k) == LastValue(entries, k) by {
      forall k ensures Lookup(r, k) == LastValue(entries, k) {
        AssignEachLookup(map[], entries, k);
      }
    }
    assert r.Keys == EntryKeys(entries) by {
      forall k ensures k in r <==> k in EntryKeys(entries) {
        LastValueSomeIffMentioned(entries, k);
      }
    }
    r
  }

  /** Last write wins: the entry that is the last with its key decides that
      key's value. */
  lemma {:induction false} LastOccurrenceWins(entries: seq<MetadataEntry>, i: int)
    requires IsLastOccurrence(entries, i)
    ensures LastValue(entries, entries[i].key) == Some(entries[i].value)
    decreases |entries|
  {
    var n := |entries| - 1;
    if i < n {
      var init := entries[..n];
      assert entries[n].key != entries[i].key;
      assert IsLastOccurrence(init, i) by {
        forall j | i < j < |init| ensures init[j].key != init[i].key {
          assert init[j] == entries[j];
        }
      }
      LastOccurrenceWins(init, i);
    }
  }

  lemma FoldMetadataLastWriteWins(entries: seq<MetadataEntry>, i: int)
    requires IsLastOccurrence(entries, i)
    ensures entries[i].key in FoldMetadata(entries)
    ensures FoldMetadata(entries)[entries[i].key] == entries[i].value
  {
    LastOccurrenceWins(entries, i);
    assert Lookup(FoldMetadata(entries), entries[i].key) == LastValue(entries, entries[i].key);
  }

  // ------------------------------------------------- the __proto__ key

  /** The one key a plain JavaScript object literal does not store:
      assigning a string to `obj["__proto__"]` invokes the prototype
      accessor, which ignores non-object values, so no property is created. */
  const ProtoKey: string := "__proto__"

  /** `AssignEach` as the JavaScript object literal actually behaves. */
  function AssignEachAsWritten(m: map<string, string>, entries: seq<MetadataEntry>): map<string, string>
    decreases |entries|
  {
    if entries == [] then m
    else
      var m' := if entries[0].key == ProtoKey then m else m[entries[0].key := entries[0].value];
      AssignEachAsWritten(m', entries[1..])
  }

  function FoldMetadataAsWritten(entries: seq<MetadataEntry>): map<string, string> {
    if |entries| > 0 then AssignEachAsWritten(map[], entries) else map[]
  }

  lemma {:induction false} AssignEachAsWrittenDropsProto(m: map<string, string>, entries: seq<MetadataEntry>)
    ensures AssignEachAsWritten(m - {ProtoKey}, entries) == AssignEach(m, entries) - {ProtoKey}
    decreases |entries|
  {
    if entries != [] {
      var e := entries[0];
      var m' := m[e.key := e.value];
      AssignEachAsWrittenDropsProto(m', entries[1..]);
      if e.key == ProtoKey {
        assert m' - {ProtoKey} == m - {ProtoKey};
      } else {
        assert m' - {ProtoKey} == (m - {ProtoKey})[e.key := e.value];
      }
    }
  }

  /** The object literal loses exactly the `__proto__` key and agrees with
      the intended fold on every other key. */
  lemma FoldMetadataAsWrittenDiffersOnlyAtProto(entries: seq<MetadataEntry>)
    ensures FoldMetadataAsWritten(entries) == FoldMetadata(entries) - {ProtoKey}
  {
    if |entries| > 0 {
      AssignEachAsWrittenDropsProto(map[], entries);
      var empty: map<string, string> := map[];
      assert empty - {ProtoKey} == empty;
    }
  }

  /** The input that shows the discrepancy: one entry keyed `__proto__`. */
  lemma ProtoKeyEntryIsDropped()
    ensures FoldMetadataAsWritten([MetadataEntry(ProtoKey, "1")]) == map[]
    ensures FoldMetadata([MetadataEntry(ProtoKey, "1")]) == map[ProtoKey := "1"]
  {
    var es := [MetadataEntry(ProtoKey, "1")];
    assert es[1..] == [];
    assert AssignEachAsWritten(map[], es) == AssignEachAsWritten(map[], []);
    assert Lookup(FoldMetadata(es), ProtoKey) == Some("1");
  }
}
