/**
 * The invoice record store of js/storage.js: one IndexedDB database
 * ("invoiceDB", version 1) holding one object store ("invoices", key path
 * "id", one index "date"), reached through a connection handle that every
 * operation opens lazily. Whether the browser's storage engine completes a
 * request is not known in advance, so each operation takes it as a
 * parameter.
 */
module Storage {
  import opened Wrappers
  import opened Invoices
  import opened Collections

  const DB_VERSION: nat := 1
  const STORE_NAME := "invoices"
  const DATE_INDEX := "date"

  const OPEN_FAILED := "Failed to open database"
  const SAVE_FAILED := "Save failed"
  const READ_FAILED := "Read failed"
  const DELETE_FAILED := "Delete failed"

  /** The database as it is on disk: its version (0 while it does not exist) and its object stores with their index names. */
  datatype Schema = Schema(version: nat, stores: map<string, set<string>>)

  ghost predicate SchemaValid(s: Schema) {
    && (s.version == 0 ==> s.stores == map[])
    && (s.version >= 1 ==> STORE_NAME in s.stores)
  }

  /**
   * How `indexedDB.open("invoiceDB", DB_VERSION)` settles, on the one
   * database a `Schema` describes: it fails when the engine fails the
   * request, or when the disk holds a newer version.
   */
  function OpenOutcome(s: Schema, engineOk: bool): (r: Outcome)
    ensures r.Resolved? <==> engineOk && s.version <= DB_VERSION
    ensures r.Rejected? ==> r.reason == OPEN_FAILED
  {
    if engineOk && s.version <= DB_VERSION then Resolved else Rejected(OPEN_FAILED)
  }

  /**
   * The schema after a successful open: `onupgradeneeded` runs only when the
   * disk is older than DB_VERSION, and creates the "invoices" store, with
   * its "date" index, only when no store of that name exists.
   */
  function Opened(s: Schema): (r: Schema)
    requires SchemaValid(s) && s.version <= DB_VERSION
    ensures SchemaValid(r) && r.version == DB_VERSION
    ensures r.stores.Keys == s.stores.Keys + {STORE_NAME}
    ensures forall n :: n in s.stores ==> r.stores[n] == s.stores[n]
    ensures STORE_NAME !in s.stores ==> r.stores[STORE_NAME] == {DATE_INDEX}
  {
    if s.version < DB_VERSION then
      var stores := if STORE_NAME !in s.stores then s.stores[STORE_NAME := {DATE_INDEX}] else s.stores;
      Schema(DB_VERSION, stores)
    else s
  }

  /** Opening an already opened database changes nothing on disk. */
  lemma OpenedIdempotent(s: Schema)
    requires SchemaValid(s) && s.version <= DB_VERSION
    ensures Opened(Opened(s)) == Opened(s)
  {
  }

  /** How the `if (!db) await openDB()` guard at the start of every operation settles. */
  function ConnectOutcome(handle: bool, s: Schema, engineOk: bool): (r: Outcome)
    ensures handle ==> r == Resolved
    ensures !handle ==> r == OpenOutcome(s, engineOk)
  {
    if handle then Resolved else OpenOutcome(s, engineOk)
  }

  /** `store.put(invoice)`: an upsert under `invoice.id`. */
  function Put(records: map<int, Invoice>, inv: Invoice): (r: map<int, Invoice>)
    ensures r.Keys == records.Keys + {inv.id}
    ensures r[inv.id] == inv
    ensures forall k :: k in records && k != inv.id ==> r[k] == records[k]
    ensures KeyedById(records) ==> KeyedById(r)
  {
    records[inv.id := inv]
  }

  /** `store.delete(id)`: removes that key, and only that key; an absent key is not an error. */
  function Remove(records: map<int, Invoice>, id: int): (r: map<int, Invoice>)
    ensures r.Keys == records.Keys - {id}
    ensures forall k :: k in r ==> r[k] == records[k]
    ensures KeyedById(records) ==> KeyedById(r)
  {
    records - {id}
  }

  /** Putting the same record twice leaves the store as putting it once. */
  lemma PutIdempotent(records: map<int, Invoice>, inv: Invoice)
    ensures Put(Put(records, inv), inv) == Put(records, inv)
  {
  }

  /** Deleting the same key twice leaves the store as deleting it once. */
  lemma RemoveIdempotent(records: map<int, Invoice>, id: int)
    ensures Remove(Remove(records, id), id) == Remove(records, id)
  {
  }

  /** Of two puts under one id only the later record remains. */
  lemma PutOverwrites(records: map<int, Invoice>, a: Invoice, b: Invoice)
    requires a.id == b.id
    ensures Put(Put(records, a), b) == Put(records, b)
  {
  }

  predicate IsLeast(m: int, ks: set<int>) {
    m in ks && forall k :: k in ks ==> m <= k
  }

  lemma {:induction false} LeastExists(ks: set<int>)
    requires ks != {}
    ensures exists m :: IsLeast(m, ks)
    decreases ks
  {
    var x := Pick(ks);
    if ks == {x} {
      assert IsLeast(x, ks);
    } else {
      LeastExists(ks - {x});
      var m :| IsLeast(m, ks - {x});
      var least := if x < m then x else m;
      forall k | k in ks ensures least <= k {
        if k != x { assert k in ks - {x}; }
      }
      assert IsLeast(least, ks);
    }
  }

  /** The keys in the ascending order in which `getAll()` returns their records. */
  function AscendingKeys(ks: set<int>): (r: seq<int>)
    ensures |r| == |ks|
    ensures forall i :: 0 <= i < |r| ==> r[i] in ks
    ensures forall k :: k in ks ==> k in r
    ensures forall i, j :: 0 <= i < j < |r| ==> r[i] < r[j]
    decreases ks
  {
    if ks == {} then []
    else
      LeastExists(ks);
      var m :| IsLeast(m, ks);
      var rest := AscendingKeys(ks - {m});
      PrependLeast(m, ks, rest);
      [m] + rest
  }

  /** The least key followed by the others in ascending order lists all keys in ascending order. */
  lemma PrependLeast(m: int, ks: set<int>, rest: seq<int>)
    requires IsLeast(m, ks)
    requires |rest| == |ks - {m}|
    requires forall i :: 0 <= i < |rest| ==> rest[i] in ks - {m}
    requires forall k :: k in ks - {m} ==> k in rest
    requires forall i, j :: 0 <= i < j < |rest| ==> rest[i] < rest[j]
    ensures var r := [m] + rest;
      && |r| == |ks|
      && (forall i :: 0 <= i < |r| ==> r[i] in ks)
      && (forall k :: k in ks ==> k in r)
      && (forall i, j :: 0 <= i < j < |r| ==> r[i] < r[j])
  {
    var r := [m] + rest;
    assert forall i :: 0 <= i < |rest| ==> m < rest[i];
    forall i, j | 0 <= i < j < |r| ensures r[i] < r[j] {
      if i > 0 {
        assert r[i] == rest[i - 1] && r[j] == rest[j - 1];
      }
    }
    forall k | k in ks ensures k in r {
      if k != m {
        assert k in ks - {m};
      }
    }
  }

  /** `store.getAll()`: every record, in ascending key order. */
  function GetAll(records: map<int, Invoice>): (r: seq<Invoice>)
    requires KeyedById(records)
    ensures |r| == |records|
    ensures forall i :: 0 <= i < |r| ==> r[i].id in records && records[r[i].id] == r[i]
    ensures forall i, j :: 0 <= i < j < |r| ==> r[i].id < r[j].id
    ensures forall k :: k in records ==> records[k] in r
  {
    var ks := AscendingKeys(records.Keys);
    assert |ks| == |records| by { assert |records.Keys| == |records|; }
    var r := seq(|ks|, i requires 0 <= i < |ks| => records[ks[i]]);
    GetAllFacts(records, ks, r);
    r
  }

  lemma GetAllFacts(records: map<int, Invoice>, ks: seq<int>, r: seq<Invoice>)
    requires KeyedById(records)
    requires |ks| == |records| && (forall i :: 0 <= i < |ks| ==> ks[i] in records)
    requires forall k :: k in records ==> k in ks
    requires forall i, j :: 0 <= i < j < |ks| ==> ks[i] < ks[j]
    requires |r| == |ks| && forall i :: 0 <= i < |ks| ==> r[i] == records[ks[i]]
    ensures |r| == |records|
    ensures forall i :: 0 <= i < |r| ==> r[i].id in records && records[r[i].id] == r[i]
    ensures forall i, j :: 0 <= i < j < |r| ==> r[i].id < r[j].id
    ensures forall k :: k in records ==> records[k] in r
  {
    assert forall i :: 0 <= i < |r| ==> r[i].id == ks[i];
    forall k | k in records ensures records[k] in r {
      var i :| 0 <= i < |ks| && ks[i] == k;
      assert r[i] == records[k];
    }
  }

  /** `array.reverse()`, on values. */
  function Reversed<T>(s: seq<T>): (r: seq<T>)
    ensures |r| == |s|
    ensures forall i :: 0 <= i < |s| ==> r[i] == s[|s| - 1 - i]
  {
    if s == [] then [] else Reversed(s[1..]) + [s[0]]
  }

  /** What `getInvoices()` resolves to: `getAll()` reversed. */
  function NewestFirst(records: map<int, Invoice>): seq<Invoice>
    requires KeyedById(records)
  {
    Reversed(GetAll(records))
  }

  /**
   * `getInvoices()` lists every stored record exactly once, in strictly
   * descending `id` order, and nothing else.
   */
  lemma NewestFirstListsEachRecordOnce(records: map<int, Invoice>)
    requires KeyedById(records)
    ensures var r := NewestFirst(records);
      && |r| == |records|
      && (forall i, j :: 0 <= i < j < |r| ==> r[i].id > r[j].id)
      && (forall i :: 0 <= i < |r| ==> r[i].id in records && records[r[i].id] == r[i])
      && (forall k :: k in records ==> records[k] in r)
  {
    ReversedListing(records, GetAll(records));
  }

  /** Reversing an ascending listing of the store gives a descending one of the same records. */
  lemma ReversedListing(records: map<int, Invoice>, all: seq<Invoice>)
    requires |all| == |records|
    requires forall i :: 0 <= i < |all| ==> all[i].id in records && records[all[i].id] == all[i]
    requires forall i, j :: 0 <= i < j < |all| ==> all[i].id < all[j].id
    requires forall k :: k in records ==> records[k] in all
    ensures var r := Reversed(all);
      && |r| == |records|
      && (forall i, j :: 0 <= i < j < |r| ==> r[i].id > r[j].id)
      && (forall i :: 0 <= i < |r| ==> r[i].id in records && records[r[i].id] == r[i])
      && (forall k :: k in records ==> records[k] in r)
  {
    var r := Reversed(all);
    forall i, j | 0 <= i < j < |r| ensures r[i].id > r[j].id {
      assert r[i] == all[|all| - 1 - i] && r[j] == all[|all| - 1 - j];
    }
    forall k | k in records ensures records[k] in r {
      var i :| 0 <= i < |all| && all[i] == records[k];
      assert r[|r| - 1 - i] == all[i];
    }
  }

  /** An empty store reads as an empty list, not as an error. */
  lemma EmptyStoreListsNothing()
    ensures NewestFirst(map[]) == []
  {
  }

  /** The store after a sequence of `saveInvoice` calls. */
  function PutAll(records: map<int, Invoice>, invs: seq<Invoice>): (r: map<int, Invoice>)
    ensures forall k :: k in records ==> k in r
    ensures forall i :: 0 <= i < |invs| ==> invs[i].id in r
    decreases |invs|
  {
    if invs == [] then records else PutAll(Put(records, invs[0]), invs[1..])
  }

  predicate DistinctIds(invs: seq<Invoice>) {
    forall i, j :: 0 <= i < j < |invs| ==> invs[i].id != invs[j].id
  }

  /** After `n` saves of records with new, distinct ids, the store holds `n` more records. */
  lemma {:induction false} PutAllFreshGrows(records: map<int, Invoice>, invs: seq<Invoice>)
    requires DistinctIds(invs)
    requires forall i :: 0 <= i < |invs| ==> invs[i].id !in records
    ensures |PutAll(records, invs)| == |records| + |invs|
    ensures forall i :: 0 <= i < |invs| ==> PutAll(records, invs)[invs[i].id] == invs[i]
    decreases |invs|
  {
    if invs != [] {
      var next := Put(records, invs[0]);
      assert next.Keys == records.Keys + {invs[0].id};
      PutAllFreshGrows(next, invs[1..]);
      forall i | 0 <= i < |invs| ensures PutAll(records, invs)[invs[i].id] == invs[i] {
        if i > 0 { assert invs[1..][i - 1] == invs[i]; }
        else { PutAllKeeps(next, invs[1..], invs[0].id); }
      }
    }
  }

  /** Later saves under other ids leave a record in place. */
  lemma {:induction false} PutAllKeeps(records: map<int, Invoice>, invs: seq<Invoice>, k: int)
    requires k in records
    requires forall i :: 0 <= i < |invs| ==> invs[i].id != k
    ensures k in PutAll(records, invs) && PutAll(records, invs)[k] == records[k]
    decreases |invs|
  {
    if invs != [] {
      PutAllKeeps(Put(records, invs[0]), invs[1..], k);
    }
  }

  /**
   * The store of js/storage.js. `handle` is the module-level `db` (true when
   * it is not null); `schema` and `records` are what the browser keeps on
   * disk between page loads.
   */
  class InvoiceDB {
    var handle: bool
    var schema: Schema
    var records: map<int, Invoice>

    ghost predicate Valid()
      reads this
    {
      && SchemaValid(schema)
      && (handle ==> schema.version == DB_VERSION)
      && (schema.version == 0 ==> records == map[])
      && KeyedById(records)
    }

    /** A page load: the handle is null and the disk holds what earlier sessions left. */
    constructor (disk: Schema, stored: map<int, Invoice>)
      requires SchemaValid(disk) && (disk.version == 0 ==> stored == map[]) && KeyedById(stored)
      ensures Valid() && !handle && schema == disk && records == stored
    {
      handle := false;
      schema := disk;
      records := stored;
    }

    /** `openDB()`. */
    method OpenDB(engineOk: bool) returns (r: Outcome)
      requires Valid()
      modifies this
      ensures Valid()
      ensures r == OpenOutcome(old(schema), engineOk)
      ensures r.Resolved? ==> handle && schema == Opened(old(schema))
      ensures r.Rejected? ==> handle == old(handle) && schema == old(schema)
      ensures records == old(records)
    {
      if !engineOk || schema.version > DB_VERSION {
        return Rejected(OPEN_FAILED);
      }
      if schema.version < DB_VERSION {
        if STORE_NAME !in schema.stores {
          schema := schema.(stores := schema.stores[STORE_NAME := {DATE_INDEX}]);
        }
        schema := schema.(version := DB_VERSION);
      }
      handle := true;
      r := Resolved;
    }

    /** `if (!db) await openDB();` */
    method EnsureOpen(engineOk: bool) returns (r: Outcome)
      requires Valid()
      modifies this
      ensures Valid()
      ensures r == ConnectOutcome(old(handle), old(schema), engineOk)
      ensures handle == (r == Resolved)
      ensures schema == if r.Resolved? then Opened(old(schema)) else old(schema)
      ensures records == old(records)
    {
      r := Resolved;
      if !handle {
        r := OpenDB(engineOk);
      }
    }

    /** `saveInvoice(invoice)`: resolves after the put commits, rejects with "Save failed" when the transaction errs. */
    method SaveInvoice(inv: Invoice, engineOk: bool, txOk: bool) returns (r: Outcome)
      requires Valid()
      modifies this
      ensures Valid()
      ensures var c := ConnectOutcome(old(handle), old(schema), engineOk);
        && r == (if c.Rejected? then c else if txOk then Resolved else Rejected(SAVE_FAILED))
        && handle == c.Resolved?
        && schema == (if c.Resolved? then Opened(old(schema)) else old(schema))
      ensures records == if r.Resolved? then Put(old(records), inv) else old(records)
    {
      r := EnsureOpen(engineOk);
      if r.Rejected? {
        return;
      }
      if !txOk {
        return Rejected(SAVE_FAILED);
      }
      records := Put(records, inv);
    }

    /** `getInvoices()`: every record, newest first, or "Read failed". */
    method GetInvoices(engineOk: bool, readOk: bool) returns (r: Result<seq<Invoice>>)
      requires Valid()
      modifies this
      ensures Valid()
      ensures var c := ConnectOutcome(old(handle), old(schema), engineOk);
        && r == (if c.Rejected? then Failure(c.reason)
                 else if readOk then Success(NewestFirst(records)) else Failure(READ_FAILED))
        && handle == c.Resolved?
        && schema == (if c.Resolved? then Opened(old(schema)) else old(schema))
      ensures records == old(records)
    {
      var c := EnsureOpen(engineOk);
      if c.Rejected? {
        return Failure(c.reason);
      }
      if !readOk {
        return Failure(READ_FAILED);
      }
      var all := GetAll(records);
      r := Success(Reversed(all));
    }

    /** `deleteInvoice(id)`: removes that key and resolves, or rejects with "Delete failed". */
    method DeleteInvoice(id: int, engineOk: bool, txOk: bool) returns (r: Outcome)
      requires Valid()
      modifies this
      ensures Valid()
      ensures var c := ConnectOutcome(old(handle), old(schema), engineOk);
        && r == (if c.Rejected? then c else if txOk then Resolved else Rejected(DELETE_FAILED))
        && handle == c.Resolved?
        && schema == (if c.Resolved? then Opened(old(schema)) else old(schema))
      ensures records == if r.Resolved? then Remove(old(records), id) else old(records)
    {
      r := EnsureOpen(engineOk);
      if r.Rejected? {
        return;
      }
      if !txOk {
        return Rejected(DELETE_FAILED);
      }
      records := Remove(records, id);
    }
  }

  /** The scenario of a single invoice saved, listed, deleted and listed again. */
  lemma SaveListDeleteScenario(inv: Invoice)
    ensures NewestFirst(Put(map[], inv)) == [inv]
    ensures NewestFirst(Remove(Put(map[], inv), inv.id)) == []
  {
    var m := Put(map[], inv);
    assert m.Keys == {inv.id};
    NewestFirstListsEachRecordOnce(m);
    assert Remove(m, inv.id) == map[];
  }
}
