/** The data hooks: the query key and `enabled` guard of every query, the
    retry back-off, the infinite-list cursor rule, the cache recipes run when a
    mutation settles, and the optimistic update with snapshot and rollback. */
module UseUsers {
  import opened JsValues
  import opened QueryCache
  import UsersApi

  // ---------------------------------------------------------------------------
  // Query keys and `enabled` guards

  /** The options of one query that decide which cache entry it owns and whether it runs. */
  datatype QuerySpec = QuerySpec(key: Key, enabled: bool)

  const UsersFilter: Key := [Str("users")]
  const SearchUsersFilter: Key := [Str("search-users")]

  function UserKey(id: int): Key
  {
    [Str("user"), Num(id)]
  }

  function UsersQuery(limit: int, skip: int): QuerySpec
  {
    QuerySpec([Str("users"), Str("pagination"), Num(limit), Num(skip)], true)
  }

  function InfiniteUsersQuery(limit: int): QuerySpec
  {
    QuerySpec([Str("users"), Str("infinite"), Num(limit)], true)
  }

  /** `enabled: !!id`. */
  function UserQuery(id: int): QuerySpec
  {
    QuerySpec(UserKey(id), id != 0)
  }

  function PostsQuery(limit: int, skip: int): QuerySpec
  {
    QuerySpec([Str("posts"), Num(limit), Num(skip)], true)
  }

  function UserPostsQuery(userId: int): QuerySpec
  {
    QuerySpec([Str("user-posts"), Num(userId)], userId != 0)
  }

  function CommentsQuery(postId: int): QuerySpec
  {
    QuerySpec([Str("comments"), Num(postId)], postId != 0)
  }

  /** `enabled: query.length > 2`. */
  function SearchUsersQuery(query: string): QuerySpec
  {
    QuerySpec([Str("search-users"), Str(query)], |query| > 2)
  }

  function SearchPostsQuery(query: string): QuerySpec
  {
    QuerySpec([Str("search-posts"), Str(query)], |query| > 2)
  }

  /** `useBatchUserData(userIds)`: one always-enabled `["user", id]` query per id, in order. */
  function BatchUserQueries(userIds: seq<int>): (r: seq<QuerySpec>)
    ensures |r| == |userIds|
    ensures forall i :: 0 <= i < |r| ==> r[i].key == UserKey(userIds[i]) && r[i].enabled
  {
    seq(|userIds|, i requires 0 <= i < |userIds| => QuerySpec(UserKey(userIds[i]), true))
  }

  /** The single-entity queries run only for a non-zero id, the searches only
      for more than two characters. */
  lemma EnabledGuards(id: int, query: string)
    ensures UserQuery(id).enabled <==> id != 0
    ensures UserPostsQuery(id).enabled <==> id != 0
    ensures CommentsQuery(id).enabled <==> id != 0
    ensures SearchUsersQuery(query).enabled <==> |query| > 2
    ensures SearchPostsQuery(query).enabled <==> |query| > 2
  {
  }

  /** Invalidating `["users"]` reaches both user-list queries ... */
  lemma UsersFilterReachesLists(limit: int, skip: int)
    ensures Reaches(UsersFilter, UsersQuery(limit, skip).key)
    ensures Reaches(UsersFilter, InfiniteUsersQuery(limit).key)
  {
  }

  /** ... but not a single user, a search or any post query, which is why the
      mutations invalidate `["search-users"]` on their own. */
  lemma UsersFilterMissesOthers(id: int, limit: int, skip: int, query: string)
    ensures !Reaches(UsersFilter, UserQuery(id).key)
    ensures !Reaches(UsersFilter, SearchUsersQuery(query).key)
    ensures !Reaches(UsersFilter, SearchPostsQuery(query).key)
    ensures !Reaches(UsersFilter, PostsQuery(limit, skip).key)
    ensures !Reaches(UsersFilter, UserPostsQuery(id).key)
    ensures !Reaches(UsersFilter, CommentsQuery(id).key)
    ensures Reaches(SearchUsersFilter, SearchUsersQuery(query).key)
    ensures !Reaches(SearchUsersFilter, UserQuery(id).key)
    ensures !Reaches(SearchUsersFilter, SearchPostsQuery(query).key)
    ensures !Reaches(SearchUsersFilter, UsersQuery(limit, skip).key)
    ensures !Reaches(SearchUsersFilter, InfiniteUsersQuery(limit).key)
    ensures !Reaches(SearchUsersFilter, PostsQuery(limit, skip).key)
    ensures !Reaches(SearchUsersFilter, UserPostsQuery(id).key)
    ensures !Reaches(SearchUsersFilter, CommentsQuery(id).key)
  {
    assert UserQuery(id).key[0] != UsersFilter[0];
    assert UserPostsQuery(id).key[0] != UsersFilter[0];
    assert SearchUsersQuery(query).key[0] != UsersFilter[0];
    assert SearchPostsQuery(query).key[0] != UsersFilter[0];
  }

  /** Among the single-user query keys, the filter `["user", id]` reaches only
      the key of that very user. */
  lemma UserKeyReachesOnlyItself(id: int, other: int)
    ensures Reaches(UserKey(id), UserQuery(other).key) <==> id == other
  {
    if Reaches(UserKey(id), UserQuery(other).key) {
      assert UserKey(id)[1] == UserQuery(other).key[1];
    }
  }

  predicate Distinct<T(==)>(s: seq<T>)
  {
    forall i, j :: 0 <= i < j < |s| ==> s[i] != s[j]
  }

  /** Distinct ids give batch queries that never share a cache entry. */
  lemma BatchKeysDistinct(userIds: seq<int>)
    requires Distinct(userIds)
    ensures var qs := BatchUserQueries(userIds);
      forall i, j :: 0 <= i < j < |qs| ==> qs[i].key != qs[j].key
  {
    var qs := BatchUserQueries(userIds);
    forall i, j | 0 <= i < j < |qs| ensures qs[i].key != qs[j].key {
      assert qs[i].key[1] == Num(userIds[i]);
      assert qs[j].key[1] == Num(userIds[j]);
    }
  }

  // ---------------------------------------------------------------------------
  // Retry back-off

  function Pow2(n: nat): (r: nat)
    ensures r >= 1
  {
    if n == 0 then 1 else 2 * Pow2(n - 1)
  }

  /** `Math.min(1000 * 2 ** attemptIndex, 30000)`. */
  function RetryDelay(attemptIndex: nat): (ms: nat)
    ensures ms <= 30000
  {
    if 1000 * Pow2(attemptIndex) < 30000 then 1000 * Pow2(attemptIndex) else 30000
  }

  lemma {:induction false} Pow2Monotone(a: nat, b: nat)
    requires a <= b
    ensures Pow2(a) <= Pow2(b)
  {
    if a < b {
      Pow2Monotone(a, b - 1);
    }
  }

  /** The delay never shrinks as attempts go on. */
  lemma RetryDelayMonotone(a: nat, b: nat)
    requires a <= b
    ensures RetryDelay(a) <= RetryDelay(b)
  {
    Pow2Monotone(a, b);
  }

  /** Doubling from one second for the first five attempts, then the 30-second cap. */
  lemma RetryDelaySchedule(n: nat)
    ensures n <= 4 ==> RetryDelay(n) == 1000 * Pow2(n)
    ensures n >= 5 ==> RetryDelay(n) == 30000
  {
    if n <= 4 {
      Pow2Monotone(n, 4);
      assert Pow2(4) == 16;
    } else {
      Pow2Monotone(5, n);
      assert Pow2(5) == 32;
    }
  }

  // ---------------------------------------------------------------------------
  // Infinite-list cursor

  /** One response of `fetchUsers`. */
  datatype UsersPage = UsersPage(users: seq<Json>, total: int, skip: int, limit: int)

  const InitialPageParam: int := 0

  /** `getNextPageParam(lastPage, allPages)`: the count fetched so far while it is
      below the last page's total, otherwise no next page. */
  function NextPageParam(limit: int, lastPage: UsersPage, allPages: seq<UsersPage>): Option<int>
  {
    var totalFetched := |allPages| * limit;
    if totalFetched < lastPage.total then Some(totalFetched) else None
  }

  /** A next page exists exactly while fewer than `total` have been fetched; a
      next param is then a positive multiple of `limit` strictly below `total`. */
  lemma NextPageParamBounds(limit: int, lastPage: UsersPage, allPages: seq<UsersPage>)
    ensures NextPageParam(limit, lastPage, allPages).None? <==> |allPages| * limit >= lastPage.total
    ensures NextPageParam(limit, lastPage, allPages).Some? ==>
      var p := NextPageParam(limit, lastPage, allPages).value;
      && p < lastPage.total
      && p == |allPages| * limit
      && (limit > 0 && |allPages| > 0 ==> p > 0 && p % limit == 0)
  {
  }

  /** The library's infinite-query data: the pages and the param each was fetched with. */
  datatype InfiniteData = InfiniteData(pages: seq<UsersPage>, pageParams: seq<int>)

  /** The first fetch uses `initialPageParam`. */
  function FirstFetch(page: UsersPage): InfiniteData
  {
    InfiniteData([page], [InitialPageParam])
  }

  /** `fetchNextPage()`: asks the cursor rule for a param; with one, the page fetched
      with it is appended; without one, the data stays as it is. */
  function FetchNextPage(limit: int, data: InfiniteData, fetched: UsersPage): InfiniteData
    requires |data.pages| > 0
  {
    match NextPageParam(limit, data.pages[|data.pages| - 1], data.pages)
    case None => data
    case Some(p) => InfiniteData(data.pages + [fetched], data.pageParams + [p])
  }

  /** The params used so far are 0, limit, 2·limit, ..., and each was below the
      total reported by the page before it. */
  ghost predicate ParamsFollowCursor(limit: int, data: InfiniteData)
  {
    && |data.pages| == |data.pageParams| > 0
    && (forall i :: 0 <= i < |data.pageParams| ==> data.pageParams[i] == i * limit)
    && (forall i :: 0 < i < |data.pages| ==> data.pageParams[i] < data.pages[i - 1].total)
  }

  lemma FirstFetchFollowsCursor(limit: int, page: UsersPage)
    ensures ParamsFollowCursor(limit, FirstFetch(page))
  {
  }

  lemma {:induction false} FetchNextPageFollowsCursor(limit: int, data: InfiniteData, fetched: UsersPage)
    requires ParamsFollowCursor(limit, data)
    ensures ParamsFollowCursor(limit, FetchNextPage(limit, data, fetched))
    ensures |FetchNextPage(limit, data, fetched).pages| == |data.pages| + 1
        <==> |data.pages| * limit < data.pages[|data.pages| - 1].total
  {
    var n := |data.pages|;
    match NextPageParam(limit, data.pages[n - 1], data.pages)
    case None =>
    case Some(p) =>
      var d := FetchNextPage(limit, data, fetched);
      assert d.pageParams[n] == n * limit;
      forall i | 0 < i < |d.pages| ensures d.pageParams[i] < d.pages[i - 1].total {
        if i < n {
          assert d.pageParams[i] == data.pageParams[i] && d.pages[i - 1] == data.pages[i - 1];
        }
      }
  }

  // ---------------------------------------------------------------------------
  // Mutation recipes (`useUserMutations`)

  /** Both user-list families are marked stale; no data changes and no entry
      appears or disappears. */
  function InvalidateUserLists(m: Entries): (r: Entries)
    ensures r.Keys == m.Keys
    ensures forall k :: k in r ==> r[k].data == m[k].data
    ensures forall k :: k in r ==>
      (r[k].isInvalidated <==> m[k].isInvalidated || Reaches(UsersFilter, k) || Reaches(SearchUsersFilter, k))
  {
    Invalidated(Invalidated(m, UsersFilter), SearchUsersFilter)
  }

  /** Add succeeded: only the two invalidations. */
  function AfterAddUser(m: Entries): (r: Entries)
    ensures DataView(r) == DataView(m)
    ensures forall k :: k in r ==>
      (r[k].isInvalidated <==> m[k].isInvalidated || Reaches(UsersFilter, k) || Reaches(SearchUsersFilter, k))
  {
    InvalidateUserLists(m)
  }

  /** Update succeeded: the user's entry holds the server's answer and is fresh,
      the lists are stale, and every other entry keeps its data. */
  function AfterUpdateUser(m: Entries, id: int, data: Json): (r: Entries)
    ensures r.Keys == m.Keys + {UserKey(id)}
    ensures r[UserKey(id)] == Entry(Some(data), false)
    ensures forall k :: k in m && k != UserKey(id) ==> r[k].data == m[k].data
    ensures forall k :: k in m && k != UserKey(id) ==>
      (r[k].isInvalidated <==> m[k].isInvalidated || Reaches(UsersFilter, k) || Reaches(SearchUsersFilter, k))
  {
    assert !Reaches(UsersFilter, UserKey(id)) && !Reaches(SearchUsersFilter, UserKey(id)) by {
      assert UserKey(id)[0] != UsersFilter[0] && UserKey(id)[0] != SearchUsersFilter[0];
    }
    InvalidateUserLists(WithData(m, UserKey(id), data))
  }

  /** Delete succeeded: the user's entry is gone, the lists are stale, and every
      entry outside `["user", id]` keeps its data. */
  function AfterDeleteUser(m: Entries, id: int): (r: Entries)
    ensures UserKey(id) !in r
    ensures forall k :: k in r <==> k in m && !Reaches(UserKey(id), k)
    ensures forall k :: k in r ==> r[k].data == m[k].data
    ensures forall k :: k in r ==>
      (r[k].isInvalidated <==> m[k].isInvalidated || Reaches(UsersFilter, k) || Reaches(SearchUsersFilter, k))
  {
    InvalidateUserLists(Removed(m, UserKey(id)))
  }

  /** `addUser.mutate(newUser)`. */
  method AddUserMutation(client: QueryClient, newUser: Json, response: UsersApi.FetchOutcome)
    returns (result: Result<Json, UsersApi.ApiError>)
    modifies client
    ensures result == UsersApi.Send(UsersApi.AddUser(newUser), response)
    ensures client.entries == if result.Ok? then AfterAddUser(old(client.entries)) else old(client.entries)
  {
    result := UsersApi.Send(UsersApi.AddUser(newUser), response);
    if result.Ok? {
      client.InvalidateQueries(UsersFilter);
      client.InvalidateQueries(SearchUsersFilter);
    }
  }

  /** `updateUser.mutate({ id, user })`. */
  method UpdateUserMutation(client: QueryClient, id: int, user: Record, response: UsersApi.FetchOutcome)
    returns (result: Result<Json, UsersApi.ApiError>)
    modifies client
    ensures result == UsersApi.Send(UsersApi.UpdateUser(id, user), response)
    ensures client.entries == if result.Ok? then AfterUpdateUser(old(client.entries), id, result.value)
                              else old(client.entries)
  {
    result := UsersApi.Send(UsersApi.UpdateUser(id, user), response);
    if result.Ok? {
      client.SetQueryData(UserKey(id), result.value);
      client.InvalidateQueries(UsersFilter);
      client.InvalidateQueries(SearchUsersFilter);
    }
  }

  /** `deleteUser.mutate(userId)`. */
  method DeleteUserMutation(client: QueryClient, userId: int, response: UsersApi.FetchOutcome)
    returns (result: Result<Json, UsersApi.ApiError>)
    modifies client
    ensures result == UsersApi.Send(UsersApi.DeleteUser(userId), response)
    ensures client.entries == if result.Ok? then AfterDeleteUser(old(client.entries), userId)
                              else old(client.entries)
  {
    result := UsersApi.Send(UsersApi.DeleteUser(userId), response);
    if result.Ok? {
      client.RemoveQueries(UserKey(userId));
      client.InvalidateQueries(UsersFilter);
      client.InvalidateQueries(SearchUsersFilter);
    }
  }

  // ---------------------------------------------------------------------------
  // Optimistic update (`useOptimisticUserUpdate`)

  /** onMutate's write: the cached user with every patch field overriding. */
  function OptimisticWrite(m: Entries, id: int, user: Record): (r: Entries)
    ensures r.Keys == m.Keys + {UserKey(id)}
    ensures DataOf(r, UserKey(id)) == Some(SpreadMerge(DataOf(m, UserKey(id)), user))
    ensures forall k :: k in m && k != UserKey(id) ==> r[k] == m[k]
  {
    WithData(m, UserKey(id), SpreadMerge(DataOf(m, UserKey(id)), user))
  }

  /** onError: the snapshot is written back only when it is truthy. */
  function Rollback(m: Entries, id: int, previousUser: Option<Json>): Entries
  {
    if Truthy(previousUser) then WithData(m, UserKey(id), previousUser.value) else m
  }

  /** onSettled: the user's key is invalidated, on success and on failure. */
  function Settle(m: Entries, id: int): Entries
  {
    Invalidated(m, UserKey(id))
  }

  /** The whole protocol: snapshot, optimistic write, rollback on failure, settle. */
  function OptimisticEffect(m: Entries, id: int, user: Record, failed: bool): Entries
  {
    var previousUser := DataOf(m, UserKey(id));
    var written := OptimisticWrite(m, id, user);
    var afterError := if failed then Rollback(written, id, previousUser) else written;
    Settle(afterError, id)
  }

  /** Rollback exactness: after a failure with a snapshot present, every key holds
      exactly the data it held before the mutation started. */
  lemma OptimisticFailureRestoresSnapshot(m: Entries, id: int, user: Record)
    requires Truthy(DataOf(m, UserKey(id)))
    ensures DataView(OptimisticEffect(m, id, user, true)) == DataView(m)
    ensures OptimisticEffect(m, id, user, true)[UserKey(id)].isInvalidated
    ensures var r := OptimisticEffect(m, id, user, true);
      forall k :: k in m && !Reaches(UserKey(id), k) ==> k in r && r[k] == m[k]
    ensures OptimisticEffect(m, id, user, true) == Invalidated(m, UserKey(id))
  {
    var key := UserKey(id);
    var r := OptimisticEffect(m, id, user, true);
    var restored := Rollback(OptimisticWrite(m, id, user), id, DataOf(m, key));
    assert key in m;
    assert restored.Keys == m.Keys;
    assert forall k :: k in restored ==> restored[k].data == m[k].data;
    assert DataView(r) == DataView(restored);
    assert DataView(restored) == DataView(m);
  }

  /** Without a (truthy) snapshot a failure leaves the optimistic value in place. */
  lemma OptimisticFailureWithoutSnapshot(m: Entries, id: int, user: Record)
    requires !Truthy(DataOf(m, UserKey(id)))
    ensures DataOf(OptimisticEffect(m, id, user, true), UserKey(id))
         == Some(SpreadMerge(DataOf(m, UserKey(id)), user))
    ensures var r := OptimisticEffect(m, id, user, true);
      forall k :: k in m && !Reaches(UserKey(id), k) ==> k in r && r[k] == m[k]
  {
  }

  /** On success the optimistic value stays (the server's answer is never written
      by this hook), and nothing outside `["user", id]` changes at all, so in
      particular no user list is invalidated. */
  lemma OptimisticSuccessKeepsOptimisticValue(m: Entries, id: int, user: Record)
    ensures var r := OptimisticEffect(m, id, user, false);
      && DataOf(r, UserKey(id)) == Some(SpreadMerge(DataOf(m, UserKey(id)), user))
      && r[UserKey(id)].isInvalidated
      && (forall k :: k in m && !Reaches(UserKey(id), k) ==> k in r && r[k] == m[k])
  {
  }

  /** The optimistic value keeps every field of the cached user the patch does not name. */
  lemma OptimisticWriteKeepsOtherFields(m: Entries, id: int, user: Record, field: string)
    requires DataOf(m, UserKey(id)).Some? && DataOf(m, UserKey(id)).value.JObject?
    requires field in DataOf(m, UserKey(id)).value.fields && field !in user
    ensures DataOf(OptimisticWrite(m, id, user), UserKey(id)).value.fields[field]
         == DataOf(m, UserKey(id)).value.fields[field]
  {
  }

  /** onMutate: snapshot first, then the optimistic write. */
  method OnMutate(client: QueryClient, id: int, user: Record) returns (previousUser: Option<Json>)
    modifies client
    ensures previousUser == DataOf(old(client.entries), UserKey(id))
    ensures client.entries == OptimisticWrite(old(client.entries), id, user)
  {
    previousUser := client.GetQueryData(UserKey(id));
    var merged := SpreadMerge(client.GetQueryData(UserKey(id)), user);
    client.SetQueryData(UserKey(id), merged);
  }

  /** onError: `if (context?.previousUser) setQueryData(["user", id], previousUser)`. */
  method OnError(client: QueryClient, id: int, previousUser: Option<Json>)
    modifies client
    ensures client.entries == Rollback(old(client.entries), id, previousUser)
  {
    if Truthy(previousUser) {
      client.SetQueryData(UserKey(id), previousUser.value);
    }
  }

  method OnSettled(client: QueryClient, id: int)
    modifies client
    ensures client.entries == Settle(old(client.entries), id)
  {
    client.InvalidateQueries(UserKey(id));
  }

  /** `mutate({ id, user })` of the optimistic hook: onMutate, the request, onError
      on failure, onSettled always. */
  method OptimisticUpdate(client: QueryClient, id: int, user: Record, response: UsersApi.FetchOutcome)
    returns (result: Result<Json, UsersApi.ApiError>)
    modifies client
    ensures result == UsersApi.Send(UsersApi.UpdateUser(id, user), response)
    ensures client.entries == OptimisticEffect(old(client.entries), id, user, result.Err?)
  {
    var previousUser := OnMutate(client, id, user);
    result := UsersApi.Send(UsersApi.UpdateUser(id, user), response);
    if result.Err? {
      OnError(client, id, previousUser);
    }
    OnSettled(client, id);
  }
}
