/** The infinite users list screen: its `["users"]` query with pages of ten,
    the flattened list and total it shows, the guard that asks for the next
    page, and the confirmed delete that invalidates the user lists. */
module UsersList {
  import opened JsValues
  import opened QueryCache
  import opened UseUsers
  import UsersApi

  const PageSize: int := 10

  /** `queryKey: ["users"]`; it is itself the `["users"]` filter, so every user
      list is reached by the same invalidation. */
  function ListQuery(): (q: QuerySpec)
    ensures q.key == UsersFilter && q.enabled
    ensures forall limit: int, skip: int :: Reaches(q.key, UsersQuery(limit, skip).key)
    ensures forall limit: int :: Reaches(q.key, InfiniteUsersQuery(limit).key)
  {
    QuerySpec(UsersFilter, true)
  }

  /** The screen's own `getNextPageParam`, with a page size of ten. */
  function NextParam(lastPage: UsersPage, allPages: seq<UsersPage>): Option<int>
  {
    NextPageParam(PageSize, lastPage, allPages)
  }

  /** `hasNextPage`: the cursor rule yields a param for the loaded pages. */
  function HasNextPage(data: Option<InfiniteData>): bool
  {
    data.Some? && |data.value.pages| > 0
    && NextParam(data.value.pages[|data.value.pages| - 1], data.value.pages).Some?
  }

  /** No next page exactly when ten times the page count reaches the last total. */
  lemma HasNextPageIff(data: InfiniteData)
    requires |data.pages| > 0
    ensures !HasNextPage(Some(data)) <==> |data.pages| * 10 >= data.pages[|data.pages| - 1].total
  {
  }

  /** `pages.flatMap(page => page.users)`. */
  function Flatten(pages: seq<UsersPage>): seq<Json>
  {
    if pages == [] then [] else pages[0].users + Flatten(pages[1..])
  }

  function SumOfLengths(pages: seq<UsersPage>): nat
  {
    if pages == [] then 0 else |pages[0].users| + SumOfLengths(pages[1..])
  }

  lemma {:induction false} FlattenLength(pages: seq<UsersPage>)
    ensures |Flatten(pages)| == SumOfLengths(pages)
  {
    if pages != [] {
      FlattenLength(pages[1..]);
    }
  }

  /** Flattening keeps page order: two runs of pages flatten to the two lists joined. */
  lemma {:induction false} FlattenAppend(a: seq<UsersPage>, b: seq<UsersPage>)
    ensures Flatten(a + b) == Flatten(a) + Flatten(b)
  {
    if a == [] {
      assert a + b == b;
    } else {
      assert (a + b)[1..] == a[1..] + b;
      FlattenAppend(a[1..], b);
    }
  }

  /** `data?.pages.flatMap(page => page.users) || []`. */
  function AllUsers(data: Option<InfiniteData>): (users: seq<Json>)
    ensures data.None? ==> users == []
    ensures data.Some? ==> |users| == SumOfLengths(data.value.pages)
  {
    if data.None? then [] else
      FlattenLength(data.value.pages);
      Flatten(data.value.pages)
  }

  /** Loading one more page extends the shown list by exactly that page's users. */
  lemma FetchNextExtendsList(data: InfiniteData, fetched: UsersPage)
    requires |data.pages| > 0
    ensures var next := FetchNextPage(PageSize, data, fetched);
      AllUsers(Some(next)) == if HasNextPage(Some(data)) then AllUsers(Some(data)) + fetched.users
                              else AllUsers(Some(data))
  {
    if HasNextPage(Some(data)) {
      FlattenAppend(data.pages, [fetched]);
      assert Flatten([fetched]) == fetched.users + Flatten([]);
    }
  }

  /** `data?.pages[0]?.total || 0`. */
  function TotalUsers(data: Option<InfiniteData>): (total: int)
    ensures data.None? || data.value.pages == [] ==> total == 0
    ensures data.Some? && data.value.pages != [] ==> total == data.value.pages[0].total
  {
    if data.Some? && |data.value.pages| > 0 then data.value.pages[0].total else 0
  }

  /** The "N of total" header keeps the first page's total while more pages load. */
  lemma FetchNextKeepsTotal(data: InfiniteData, fetched: UsersPage)
    requires |data.pages| > 0
    ensures TotalUsers(Some(FetchNextPage(PageSize, data, fetched))) == TotalUsers(Some(data))
    ensures TotalUsers(Some(FetchNextPage(PageSize, data, fetched))) == data.pages[0].total
  {
  }

  /** The observer callback of the last row asks for the next page only when the
      list is not loading (no observer is attached otherwise), the row is
      visible, a next page exists and none is already being fetched. */
  function ShouldFetchNextPage(isLoading: bool, isIntersecting: bool, data: Option<InfiniteData>,
                               isFetchingNextPage: bool): (fire: bool)
    ensures fire ==> !isLoading && isIntersecting && !isFetchingNextPage
    ensures fire ==> data.Some? && |data.value.pages| > 0
                     && |data.value.pages| * PageSize < data.value.pages[|data.value.pages| - 1].total
    ensures !isLoading && isIntersecting && !isFetchingNextPage && HasNextPage(data) ==> fire
  {
    !isLoading && isIntersecting && HasNextPage(data) && !isFetchingNextPage
  }

  /** `handleDelete(id, name)`: without confirmation no request is made; a
      confirmed delete that succeeds marks every user list stale and nothing else. */
  method HandleDelete(client: QueryClient, id: int, confirmed: bool, response: UsersApi.FetchOutcome)
    returns (result: Option<Result<Json, UsersApi.ApiError>>)
    modifies client
    ensures result.Some? <==> confirmed
    ensures result.Some? ==> result.value == UsersApi.Send(UsersApi.DeleteUser(id), response)
    ensures client.entries == if result.Some? && result.value.Ok?
                              then Invalidated(old(client.entries), UsersFilter)
                              else old(client.entries)
  {
    result := None;
    if confirmed {
      var r := UsersApi.Send(UsersApi.DeleteUser(id), response);
      if r.Ok? {
        client.InvalidateQueries(UsersFilter);
      }
      result := Some(r);
    }
  }
}
