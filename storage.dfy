/**
 * The keyed record store: one ordered collection per entity, with
 * upsert-by-id, delete-all-by-id, first-match lookup and, for materials,
 * the in-place stock update. The browser's key-value storage and its JSON
 * encoding are replaced by an in-memory sequence.
 */
module Storage {
  import opened Wrappers
  import opened Types

  /** Position of the first record whose key is `id` (`findIndex`). */
  function FindIndex<T>(s: seq<T>, idOf: T -> string, id: string): (r: Option<nat>)
    ensures r.Some? ==> r.value < |s| && idOf(s[r.value]) == id
    ensures r.Some? ==> forall j :: 0 <= j < r.value ==> idOf(s[j]) != id
    ensures r.None? <==> forall j :: 0 <= j < |s| ==> idOf(s[j]) != id
  {
    if s == [] then None
    else if idOf(s[0]) == id then Some(0)
    else match FindIndex(s[1..], idOf, id)
      case None => None
      case Some(k) => Some(k + 1)
  }

  /** The first record whose key is `id`, if any (`find`). */
  function Lookup<T>(s: seq<T>, idOf: T -> string, id: string): (r: Option<T>)
    ensures r.Some? ==> r.value in s && idOf(r.value) == id
    ensures r.Some? ==> FindIndex(s, idOf, id).Some? && r.value == s[FindIndex(s, idOf, id).value]
    ensures r.None? <==> forall j :: 0 <= j < |s| ==> idOf(s[j]) != id
  {
    match FindIndex(s, idOf, id)
    case None => None
    case Some(k) => Some(s[k])
  }

  /**
   * `save`: overwrite the first record with the same key (after `touch`,
   * which stamps `updatedAt` where the collection does so), or append.
   */
  function Upsert<T>(s: seq<T>, idOf: T -> string, touch: (T, int) -> T, x: T, now: int): (r: seq<T>)
    ensures FindIndex(s, idOf, idOf(x)).None? ==> r == s + [x]
    ensures FindIndex(s, idOf, idOf(x)).Some? ==>
      var k := FindIndex(s, idOf, idOf(x)).value;
      |r| == |s| && r[k] == touch(x, now) &&
      forall j :: 0 <= j < |s| && j != k ==> r[j] == s[j]
  {
    match FindIndex(s, idOf, idOf(x))
    case None => s + [x]
    case Some(k) => s[k := touch(x, now)]
  }

  /** `delete`: keep exactly the records whose key differs from `id`, in order. */
  function RemoveAll<T>(s: seq<T>, idOf: T -> string, id: string): (r: seq<T>)
    ensures |r| <= |s|
    ensures forall j :: 0 <= j < |r| ==> r[j] in s && idOf(r[j]) != id
    ensures forall j :: 0 <= j < |s| && idOf(s[j]) != id ==> s[j] in r
  {
    if s == [] then []
    else
      var rest := RemoveAll(s[..|s| - 1], idOf, id);
      if idOf(s[|s| - 1]) == id then rest else rest + [s[|s| - 1]]
  }

  /** A record as `updateEstoque` leaves it: new stock, fresh `updatedAt`, nothing else. */
  function WithStock(m: Item, estoque: real, now: int): Item {
    m.(estoque := estoque, updatedAt := now)
  }

  /** `updateEstoque`: set the stock of the first material with key `id`; no write if absent. */
  function SetStock(ms: seq<Item>, id: string, estoque: real, now: int): (r: seq<Item>)
    ensures |r| == |ms|
    ensures forall j :: 0 <= j < |ms| ==> r[j].id == ms[j].id
  {
    match FindIndex(ms, ItemId, id)
    case None => ms
    case Some(k) => ms[k := WithStock(ms[k], estoque, now)]
  }

  /** Deleting distributes over concatenation, so the survivors keep their relative order. */
  lemma {:induction false} RemoveAllAppend<T>(a: seq<T>, b: seq<T>, idOf: T -> string, id: string)
    ensures RemoveAll(a + b, idOf, id) == RemoveAll(a, idOf, id) + RemoveAll(b, idOf, id)
    decreases |b|
  {
    if b == [] {
      assert a + b == a;
    } else {
      var b' := b[..|b| - 1];
      assert (a + b)[..|a + b| - 1] == a + b';
      RemoveAllAppend(a, b', idOf, id);
    }
  }

  /** Deleting a key that no record carries leaves the collection as it was. */
  lemma {:induction false} RemoveAllAbsent<T>(s: seq<T>, idOf: T -> string, id: string)
    requires forall j :: 0 <= j < |s| ==> idOf(s[j]) != id
    ensures RemoveAll(s, idOf, id) == s
  {
    if s != [] {
      RemoveAllAbsent(s[..|s| - 1], idOf, id);
      assert s[..|s| - 1] + [s[|s| - 1]] == s;
    }
  }

  /** Deleting is idempotent: a second delete of the same key changes nothing. */
  lemma RemoveAllIdempotent<T>(s: seq<T>, idOf: T -> string, id: string)
    ensures RemoveAll(RemoveAll(s, idOf, id), idOf, id) == RemoveAll(s, idOf, id)
  {
    RemoveAllAbsent(RemoveAll(s, idOf, id), idOf, id);
  }

  /** Two collections with the same keys at the same positions find the same first index. */
  lemma {:induction false} FindIndexSameKeys<T>(a: seq<T>, b: seq<T>, idOf: T -> string, id: string)
    requires |a| == |b|
    requires forall j :: 0 <= j < |a| ==> idOf(a[j]) == idOf(b[j])
    ensures FindIndex(a, idOf, id) == FindIndex(b, idOf, id)
  {
    if a != [] {
      FindIndexSameKeys(a[1..], b[1..], idOf, id);
    }
  }

  /**
   * Round trip: after `save(x)` a lookup of x's key yields x, stamped by
   * `touch` when it replaced an existing record.
   */
  lemma SaveThenGet<T>(s: seq<T>, idOf: T -> string, touch: (T, int) -> T, x: T, now: int)
    requires idOf(touch(x, now)) == idOf(x)
    ensures Lookup(Upsert(s, idOf, touch, x, now), idOf, idOf(x)) ==
      if FindIndex(s, idOf, idOf(x)).Some? then Some(touch(x, now)) else Some(x)
  {
    var r := Upsert(s, idOf, touch, x, now);
    match FindIndex(s, idOf, idOf(x))
    case None =>
      assert r[|s|] == x;
      assert FindIndex(r, idOf, idOf(x)) == Some(|s|);
    case Some(k) =>
      assert r[k] == touch(x, now);
      assert FindIndex(r, idOf, idOf(x)) == Some(k);
  }

  /**
   * `updateEstoque` changes only the stock and `updatedAt` of the first
   * material with the key, writes the value as given (no clamp), and
   * changes nothing when the key is absent.
   */
  lemma SetStockEffect(ms: seq<Item>, id: string, estoque: real, now: int)
    ensures FindIndex(ms, ItemId, id).None? ==> SetStock(ms, id, estoque, now) == ms
    ensures FindIndex(ms, ItemId, id).Some? ==>
      var k := FindIndex(ms, ItemId, id).value;
      var r := SetStock(ms, id, estoque, now);
      r[k] == ms[k].(estoque := estoque, updatedAt := now) &&
      (forall j :: 0 <= j < |ms| && j != k ==> r[j] == ms[j]) &&
      Lookup(r, ItemId, id) == Some(r[k])
  {
    if FindIndex(ms, ItemId, id).Some? {
      FindIndexSameKeys(SetStock(ms, id, estoque, now), ms, ItemId, id);
    }
  }

  /**
   * One collection of records, kept in insertion order. `idOf` is the key
   * and `touch` what a replacing `save` does to the record.
   */
  class RecordStore<T> {
    const idOf: T -> string
    const touch: (T, int) -> T
    var records: seq<T>

    constructor (idOf: T -> string, touch: (T, int) -> T, records: seq<T>)
      ensures this.idOf == idOf && this.touch == touch && this.records == records
    {
      this.idOf := idOf;
      this.touch := touch;
      this.records := records;
    }

    /** `findIndex`: a linear scan for the first record with the key. */
    method IndexOf(id: string) returns (k: Option<nat>)
      ensures k == FindIndex(records, idOf, id)
    {
      var i := 0;
      while i < |records|
        invariant 0 <= i <= |records|
        invariant forall j :: 0 <= j < i ==> idOf(records[j]) != id
      {
        if idOf(records[i]) == id {
          return Some(i);
        }
        i := i + 1;
      }
      return None;
    }

    /** `getById`. */
    method GetById(id: string) returns (r: Option<T>)
      ensures r == Lookup(records, idOf, id)
    {
      var k := IndexOf(id);
      if k.Some? {
        r := Some(records[k.value]);
      } else {
        r := None;
      }
    }

    /** `save`: overwrite the slot of the first match, or push at the end. */
    method Save(x: T, now: int)
      modifies this
      ensures records == Upsert(old(records), idOf, touch, x, now)
    {
      var k := IndexOf(idOf(x));
      if k.Some? {
        records := records[k.value := touch(x, now)];
      } else {
        records := records + [x];
      }
    }

    /** `delete`: drop every record with the key. */
    method Delete(id: string)
      modifies this
      ensures records == RemoveAll(old(records), idOf, id)
    {
      records := RemoveAll(records, idOf, id);
    }
  }

  /**
   * `itemStorage.updateEstoque`: find the first material with the key,
   * overwrite its stock and `updatedAt` in place, and write the collection
   * back; do nothing when the key is absent.
   */
  method UpdateEstoque(store: RecordStore<Item>, id: string, estoque: real, now: int)
    requires store.idOf == ItemId
    modifies store
    ensures store.records == SetStock(old(store.records), id, estoque, now)
  {
    var k := store.IndexOf(id);
    if k.Some? {
      store.records := store.records[k.value := WithStock(store.records[k.value], estoque, now)];
    }
  }
}
