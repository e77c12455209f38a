/** The part of the query cache this application relies on. The cache engine
    itself belongs to the query library; this module states the assumed
    behaviour of the four client operations the application calls:
    `getQueryData` and `setQueryData` address one key exactly, while
    `invalidateQueries` and `removeQueries` reach every key that the filter key
    is a leading sub-sequence of (partial match, element by element from 0). */
module QueryCache {
  import opened JsValues

  /** One element of a query key: a string or a number. */
  datatype Segment = Str(s: string) | Num(n: int)

  type Key = seq<Segment>

  /** Partial key matching: `filter` reaches `key` when it is a leading part of it. */
  predicate Reaches(filter: Key, key: Key)
  {
    filter <= key
  }

  /** One cache slot: the data held (none before a first fetch) and whether it
      has been marked stale by an invalidation. */
  datatype Entry = Entry(data: Option<Json>, isInvalidated: bool)

  type Entries = map<Key, Entry>

  /** What `getQueryData(key)` returns. */
  function DataOf(m: Entries, key: Key): Option<Json>
  {
    if key in m then m[key].data else None
  }

  /** The data held under every key, ignoring staleness flags. */
  function DataView(m: Entries): (d: map<Key, Option<Json>>)
    ensures d.Keys == m.Keys
    ensures forall k :: k in d ==> d[k] == m[k].data
  {
    map k | k in m :: m[k].data
  }

  /** `setQueryData(key, value)`: the slot holds `value` and is fresh again. */
  function WithData(m: Entries, key: Key, value: Json): (r: Entries)
    ensures r.Keys == m.Keys + {key}
    ensures r[key] == Entry(Some(value), false)
    ensures forall k :: k in m && k != key ==> r[k] == m[k]
  {
    m[key := Entry(Some(value), false)]
  }

  /** `invalidateQueries({ queryKey: filter })`: every reached entry is marked
      stale, its data is kept (stale-while-revalidate), and no entry appears or
      disappears. */
  function Invalidated(m: Entries, filter: Key): (r: Entries)
    ensures r.Keys == m.Keys
    ensures forall k :: k in r ==> r[k].data == m[k].data
    ensures forall k :: k in r ==> r[k].isInvalidated == (m[k].isInvalidated || Reaches(filter, k))
  {
    map k | k in m :: if Reaches(filter, k) then m[k].(isInvalidated := true) else m[k]
  }

  /** `removeQueries({ queryKey: filter })`: exactly the reached entries are
      dropped and every other entry is kept as it was. */
  function Removed(m: Entries, filter: Key): (r: Entries)
    ensures forall k :: k in r <==> k in m && !Reaches(filter, k)
    ensures forall k :: k in r ==> r[k] == m[k]
  {
    map k | k in m && !Reaches(filter, k) :: m[k]
  }

  /** The application's single query client. */
  class QueryClient {
    var entries: Entries

    constructor ()
      ensures entries == map[]
    {
      entries := map[];
    }

    function GetQueryData(key: Key): Option<Json>
      reads this
    {
      DataOf(entries, key)
    }

    method SetQueryData(key: Key, value: Json)
      modifies this
      ensures entries == WithData(old(entries), key, value)
    {
      entries := WithData(entries, key, value);
    }

    method InvalidateQueries(filter: Key)
      modifies this
      ensures entries == Invalidated(old(entries), filter)
    {
      entries := Invalidated(entries, filter);
    }

    method RemoveQueries(filter: Key)
      modifies this
      ensures entries == Removed(old(entries), filter)
    {
      entries := Removed(entries, filter);
    }
  }
}
