/**
 * The client-side query cache that the product screens update optimistically
 * (`queryClient.getQueryData` / `setQueryData`). A cached product is a JSON object, so a
 * record is a map from field name to value and object spread `{...a, ...b}` is the map
 * union `a + b` in which `b` wins. The `['products']` entry is a plain array of records and
 * `['product', id]` holds one record.
 */
module Cache {
  import opened Wrappers

  /** A JSON value as far as the cache transforms look at it; nested values are opaque. */
  datatype Json = JUndefined | JNull | JBool(b: bool) | JNum(n: real) | JStr(s: string) | JNested(text: string)

  /** JavaScript truthiness of a value. */
  predicate Truthy(j: Json) {
    match j
    case JUndefined => false
    case JNull => false
    case JBool(b) => b
    case JNum(n) => n != 0.0
    case JStr(s) => s != ""
    case JNested(_) => true
  }

  type Record = map<string, Json>

  /** `r[k]`: `undefined` when the field is absent. */
  function Field(r: Record, k: string): Json {
    if k in r then r[k] else JUndefined
  }

  /** `r._id === id`. */
  predicate HasId(r: Record, id: Json) {
    Field(r, "_id") == id
  }

  /** `r.__isOptimistic`, the flag on records written before the server answered. */
  predicate IsOptimistic(r: Record) {
    Truthy(Field(r, "__isOptimistic"))
  }

  datatype Key = ProductsKey | ProductKey(id: string)

  datatype Entry = ListEntry(items: seq<Record>) | RecordEntry(record: Record)

  /** `getQueryData(key)`: the entry, or `None` (undefined) when nothing is cached. */
  function Snapshot(m: map<Key, Entry>, k: Key): Option<Entry> {
    if k in m then Some(m[k]) else None
  }

  /** The `['products']` array, or `None` when it is absent. */
  function ListOf(e: Option<Entry>): Option<seq<Record>> {
    if e.Some? && e.value.ListEntry? then Some(e.value.items) else None
  }

  /**
   * `setQueryData(['products'], updater)` once the updater has produced `l`: an updater that
   * returns `undefined` leaves the cache as it was.
   */
  function WriteList(m: map<Key, Entry>, l: Option<seq<Record>>): map<Key, Entry> {
    if l.Some? then m[ProductsKey := ListEntry(l.value)] else m
  }

  /** `if (context?.previous) setQueryData(key, context.previous)`: restores a snapshot that existed. */
  function Restore(m: map<Key, Entry>, k: Key, snapshot: Option<Entry>): (r: map<Key, Entry>)
    ensures snapshot.Some? ==> k in r && r[k] == snapshot.value
    ensures forall k' :: k' != k ==> Snapshot(r, k') == Snapshot(m, k')
    ensures snapshot.None? ==> r == m
  {
    if snapshot.Some? then m[k := snapshot.value] else m
  }

  /** Restoring the snapshot taken of a key undoes any write to that key alone. */
  lemma RestoreUndoes(m: map<Key, Entry>, m': map<Key, Entry>, k: Key)
    requires k in m
    requires forall k' :: k' != k ==> Snapshot(m', k') == Snapshot(m, k')
    ensures Restore(m', k, Snapshot(m, k)) == m
  {
    var r := Restore(m', k, Snapshot(m, k));
    forall k' ensures Snapshot(r, k') == Snapshot(m, k') {
    }
    assert forall k' :: k' in r <==> Snapshot(r, k').Some?;
    assert forall k' :: k' in m <==> Snapshot(m, k').Some?;
  }

  /** Entries are well-typed: the product list holds an array and each product key a record. */
  ghost predicate WellTyped(m: map<Key, Entry>) {
    forall k :: k in m ==> (m[k].ListEntry? <==> k == ProductsKey)
  }

  /** The query client's cache of product data. */
  class QueryCache {
    var entries: map<Key, Entry>

    ghost predicate Valid()
      reads this
    {
      WellTyped(entries)
    }

    constructor ()
      ensures Valid() && entries == map[]
    {
      entries := map[];
    }

    /** `getQueryData(key)`. */
    function Get(k: Key): (r: Option<Entry>)
      reads this
      ensures r.Some? <==> k in entries
    {
      Snapshot(entries, k)
    }

    /** `setQueryData(key, value)`. */
    method Set(k: Key, e: Entry)
      requires Valid() && (e.ListEntry? <==> k == ProductsKey)
      modifies this
      ensures Valid() && entries == old(entries)[k := e]
    {
      entries := entries[k := e];
    }

    /** `setQueryData(['products'], updater)` with the updater's result `l` (`None` for `undefined`). */
    method SetList(l: Option<seq<Record>>)
      requires Valid()
      modifies this
      ensures Valid() && entries == WriteList(old(entries), l)
    {
      if l.Some? {
        entries := entries[ProductsKey := ListEntry(l.value)];
      }
    }

    /** Restores a snapshot when one was taken. */
    method RestoreFrom(k: Key, snapshot: Option<Entry>)
      requires Valid() && (snapshot.Some? ==> (snapshot.value.ListEntry? <==> k == ProductsKey))
      modifies this
      ensures Valid() && entries == Restore(old(entries), k, snapshot)
    {
      if snapshot.Some? {
        entries := entries[k := snapshot.value];
      }
    }
  }
}
