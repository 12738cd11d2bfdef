/**
 * `normalizeCustomerRow` of the customer upload route and its application to
 * every parsed row: keys are trimmed and lower-cased, string values trimmed,
 * other values stringified, and null or undefined entries dropped.
 */
module CustomerRows {
  import opened JsText
  import opened BatchRecord

  /** `Object.entries(raw)`: the row's own properties in enumeration order. */
  type Entries = seq<(string, JsValue)>

  type NormalizedRow = map<string, string>

  /** `typeof v === 'string' ? v.trim() : String(v)` */
  function CellText(v: JsValue): string
    requires !IsNullish(v)
  {
    if v.Str? then Trim(v.s) else Stringify(v)
  }

  /** An entry the loop writes: its value is not nullish, and its key is not `__proto__`. */
  predicate Kept(entry: (string, JsValue))
  {
    !IsNullish(entry.1) && NormalizeKey(entry.0) != "__proto__"
  }

  /**
   * One loop iteration. Assigning a string to `row["__proto__"]` goes to the
   * inherited prototype setter, which ignores non-objects: no key is added.
   */
  function Put(row: NormalizedRow, entry: (string, JsValue)): NormalizedRow
  {
    if Kept(entry) then row[NormalizeKey(entry.0) := CellText(entry.1)] else row
  }

  /** The row the loop has built after reading `entries`. */
  function Normalized(entries: Entries): NormalizedRow
  {
    if entries == [] then map[] else Put(Normalized(entries[..|entries| - 1]), entries[|entries| - 1])
  }

  method NormalizeCustomerRow(raw: Entries) returns (row: NormalizedRow)
    ensures row == Normalized(raw)
    ensures |row| <= |raw|
    ensures forall k :: k in row ==> NormalizeKey(k) == k
  {
    row := map[];
    var i := 0;
    while i < |raw|
      invariant 0 <= i <= |raw|
      invariant row == Normalized(raw[..i])
    {
      var (k, v) := raw[i];
      assert raw[..i + 1][..i] == raw[..i];
      i := i + 1;
      if IsNullish(v) {
        continue;
      }
      var key := NormalizeKey(k);
      if key != "__proto__" {
        row := row[key := if v.Str? then Trim(v.s) else Stringify(v)];
      }
    }
    assert raw[..|raw|] == raw;
    NormalizedSize(raw);
    NormalizedKeys(raw);
    forall k | k in row ensures NormalizeKey(k) == k {
      var j :| 0 <= j < |raw| && Kept(raw[j]) && NormalizeKey(raw[j].0) == k;
      NormalizeKeyIdempotent(raw[j].0);
    }
  }

  /** Every output key is the normalised form of a kept input key, and every kept input key appears. */
  lemma {:induction false} NormalizedKeys(entries: Entries)
    ensures Normalized(entries).Keys
         == set i | 0 <= i < |entries| && Kept(entries[i]) :: NormalizeKey(entries[i].0)
  {
    if entries != [] {
      var n := |entries| - 1;
      NormalizedKeys(entries[..n]);
      assert forall i :: 0 <= i < n ==> entries[..n][i] == entries[i];
    }
  }

  /** The entry is kept and lands on `key`. */
  predicate Writes(entry: (string, JsValue), key: string)
  {
    Kept(entry) && NormalizeKey(entry.0) == key
  }

  /** Reading `key` after one iteration: the entry's value if it writes `key`, the earlier value otherwise. */
  lemma PutLookup(row: NormalizedRow, entry: (string, JsValue), key: string)
    requires key in Put(row, entry)
    ensures Writes(entry, key) ==> Put(row, entry)[key] == CellText(entry.1)
    ensures !Writes(entry, key) ==> key in row && Put(row, entry)[key] == row[key]
  {
  }

  /** Each value comes from the LAST kept entry whose key normalises to it: later entries overwrite. */
  lemma {:induction false} NormalizedValueFromLast(entries: Entries, key: string)
    requires key in Normalized(entries)
    ensures exists i :: LastWriter(entries, key, i) && Normalized(entries)[key] == CellText(entries[i].1)
  {
    var n := |entries| - 1;
    var prefix, last := entries[..n], entries[n];
    assert Normalized(entries) == Put(Normalized(prefix), last);
    PutLookup(Normalized(prefix), last, key);
    if Writes(last, key) {
      assert LastWriter(entries, key, n);
    } else {
      NormalizedValueFromLast(prefix, key);
      var i :| LastWriter(prefix, key, i) && Normalized(prefix)[key] == CellText(prefix[i].1);
      LastWriterExtends(entries, key, i);
    }
  }

  /** Entry `i` writes `key` and no later entry does. */
  predicate LastWriter(entries: Entries, key: string, i: int)
  {
    && 0 <= i < |entries| && Writes(entries[i], key)
    && (forall j :: i < j < |entries| ==> !Writes(entries[j], key))
  }

  /** An entry that does not write `key` leaves the last writer of `key` in place. */
  lemma LastWriterExtends(entries: Entries, key: string, i: int)
    requires |entries| > 0 && !Writes(entries[|entries| - 1], key)
    requires LastWriter(entries[..|entries| - 1], key, i)
    ensures LastWriter(entries, key, i) && entries[i] == entries[..|entries| - 1][i]
  {
    var prefix := entries[..|entries| - 1];
    forall j | i < j < |entries| ensures !Writes(entries[j], key) {
      if j < |entries| - 1 {
        assert entries[j] == prefix[j];
      }
    }
  }

  /** Colliding keys only overwrite, so the output never has more keys than the input has entries. */
  lemma {:induction false} NormalizedSize(entries: Entries)
    ensures |Normalized(entries)| <= |entries|
  {
    if entries != [] {
      var n := |entries| - 1;
      NormalizedSize(entries[..n]);
      var m := Normalized(entries[..n]);
      if Kept(entries[n]) {
        var key := NormalizeKey(entries[n].0);
        assert m[key := CellText(entries[n].1)].Keys == m.Keys + {key};
      }
    }
  }

  /** Over entries whose values are all strings, every output value is trimmed. */
  lemma {:induction false} NormalizedValuesTrimmed(entries: Entries)
    requires forall i :: 0 <= i < |entries| ==> entries[i].1.Str?
    ensures forall k :: k in Normalized(entries) ==> IsTrimmed(Normalized(entries)[k])
  {
    if entries != [] {
      var n := |entries| - 1;
      assert forall i :: 0 <= i < n ==> entries[..n][i] == entries[i];
      NormalizedValuesTrimmed(entries[..n]);
    }
  }

  /** `entries` lists some of `row`'s entries, each key once, each value as a string. */
  predicate ListsEntriesOf(entries: Entries, row: NormalizedRow)
  {
    && (forall i :: 0 <= i < |entries| ==> entries[i].0 in row && entries[i].1 == Str(row[entries[i].0]))
    && (forall i, j :: 0 <= i < j < |entries| ==> entries[i].0 != entries[j].0)
  }

  /** A row that is already normalised. */
  predicate IsNormalized(row: NormalizedRow)
  {
    forall k :: k in row ==> NormalizeKey(k) == k && k != "__proto__" && IsTrimmed(row[k])
  }

  /** The keys a listing names. */
  function ListedKeys(entries: Entries): set<string>
  {
    set i | 0 <= i < |entries| :: entries[i].0
  }

  /** An entry listed from a normalised row is kept, under its own key, with its own value. */
  lemma ListedEntryKept(entry: (string, JsValue), row: NormalizedRow)
    requires IsNormalized(row)
    requires entry.0 in row && entry.1 == Str(row[entry.0])
    ensures Kept(entry) && NormalizeKey(entry.0) == entry.0 && CellText(entry.1) == row[entry.0]
  {
    TrimOfTrimmed(row[entry.0]);
  }

  /** Normalising a listing of an already-normalised row gives the row restricted to the listed keys. */
  lemma {:induction false} NormalizedOfListing(entries: Entries, row: NormalizedRow)
    requires IsNormalized(row) && ListsEntriesOf(entries, row)
    ensures Normalized(entries) == Restrict(row, ListedKeys(entries))
  {
    if entries != [] {
      var n := |entries| - 1;
      var prefix := entries[..n];
      ListingPrefix(entries, row);
      NormalizedOfListing(prefix, row);
      var k := entries[n].0;
      ListedEntryKept(entries[n], row);
      assert Normalized(entries) == Normalized(prefix)[k := row[k]];
      ListedKeysStep(entries);
      RestrictStep(row, ListedKeys(prefix), k);
    }
  }

  /** `row` cut down to the keys in `keys`. */
  function Restrict(row: NormalizedRow, keys: set<string>): NormalizedRow
  {
    map k | k in row && k in keys :: row[k]
  }

  lemma RestrictStep(row: NormalizedRow, keys: set<string>, k: string)
    requires k in row
    ensures Restrict(row, keys + {k}) == Restrict(row, keys)[k := row[k]]
  {
  }

  lemma ListingPrefix(entries: Entries, row: NormalizedRow)
    requires entries != [] && ListsEntriesOf(entries, row)
    ensures ListsEntriesOf(entries[..|entries| - 1], row)
  {
    var prefix := entries[..|entries| - 1];
    assert forall i :: 0 <= i < |prefix| ==> prefix[i] == entries[i];
  }

  lemma ListedKeysStep(entries: Entries)
    requires entries != []
    ensures ListedKeys(entries) == ListedKeys(entries[..|entries| - 1]) + {entries[|entries| - 1].0}
  {
    var n := |entries| - 1;
    var prefix := entries[..n];
    forall x | x in ListedKeys(entries) ensures x in ListedKeys(prefix) + {entries[n].0} {
      var i :| 0 <= i < |entries| && entries[i].0 == x;
      if i < n { assert prefix[i].0 == x; }
    }
    forall x | x in ListedKeys(prefix) ensures x in ListedKeys(entries) {
      var i :| 0 <= i < n && prefix[i].0 == x;
      assert entries[i].0 == x;
    }
  }

  /** Normalising a complete listing of an already-normalised row gives the row back. */
  lemma NormalizedFixedPoint(entries: Entries, row: NormalizedRow)
    requires IsNormalized(row) && ListsEntriesOf(entries, row)
    requires forall k :: k in row ==> exists i :: 0 <= i < |entries| && entries[i].0 == k
    ensures Normalized(entries) == row
  {
    NormalizedOfListing(entries, row);
    var keys := ListedKeys(entries);
    forall k | k in row ensures k in keys {
      var i :| 0 <= i < |entries| && entries[i].0 == k;
    }
    RestrictToAll(row, keys);
  }

  lemma RestrictToAll(row: NormalizedRow, keys: set<string>)
    requires row.Keys <= keys
    ensures Restrict(row, keys) == row
  {
  }

  /**
   * Idempotence: over string-valued input, normalising any listing of the
   * normalised row returns the normalised row unchanged.
   */
  lemma NormalizeIdempotent(raw: Entries, again: Entries)
    requires forall i :: 0 <= i < |raw| ==> raw[i].1.Str?
    requires ListsEntriesOf(again, Normalized(raw))
    requires forall k :: k in Normalized(raw) ==> exists i :: 0 <= i < |again| && again[i].0 == k
    ensures Normalized(again) == Normalized(raw)
  {
    var row := Normalized(raw);
    NormalizedKeys(raw);
    NormalizedValuesTrimmed(raw);
    forall k | k in row ensures NormalizeKey(k) == k && k != "__proto__" {
      var j :| 0 <= j < |raw| && Kept(raw[j]) && NormalizeKey(raw[j].0) == k;
      NormalizeKeyIdempotent(raw[j].0);
    }
    NormalizedFixedPoint(again, row);
  }

  /** `parsed.data.map(normalizeCustomerRow)`: one normalised row per parsed row. */
  function NormalizeRows(data: seq<Entries>): (rows: seq<NormalizedRow>)
    ensures |rows| == |data|
    ensures forall i :: 0 <= i < |data| ==> rows[i] == Normalized(data[i])
  {
    seq(|data|, i requires 0 <= i < |data| => Normalized(data[i]))
  }

  /** The route's normalisation of the parsed rows and the `pending` batch it records for them. */
  method StageCustomerImport(data: seq<Entries>) returns (rows: seq<NormalizedRow>, batch: Batch)
    ensures rows == NormalizeRows(data)
    ensures fresh(batch) && batch.Valid()
    ensures batch.importType == Customers && batch.status == Pending
    ensures batch.totalRows == |rows| == |data|
  {
    rows := NormalizeRows(data);
    batch := new Batch(Customers, |rows|);
  }
}
