# Users data layer: cache rules, request errors and screen state

This project models the deterministic rules a small React application
(users, posts and comments from a JSON REST service) hands to its query
library. It covers:

- the query key and `enabled` guard of every data hook, and which cache entries
  a prefix invalidation reaches;
- the retry back-off and the infinite-list cursor (`getNextPageParam`);
- the cache recipes that run when add, update and delete mutations succeed, and
  the optimistic update with its snapshot, rollback and final invalidation;
- `apiRequest`, which turns every failure into an `ApiError`, together with the
  header merge and the URL of every API function;
- the state of three screens: the infinite users list, the batch-query screen
  (its selected ids and status summary) and the add-user form.

The query library's cache is modelled only through the four operations the
application calls. It is a class `QueryCache.QueryClient` holding a
`map<Key, Entry>`. `setQueryData` and `getQueryData` address one key exactly.
`invalidateQueries` marks stale, and `removeQueries` drops, every entry whose key
starts with the filter key, compared element by element from position 0. That
matching rule, and the infinite query's `{pages, pageParams}` data, in which no
next param leaves the data unchanged, are assumptions about the library, not
code of this repository.

Modules, one per source file, plus three shared ones:

- `JsValues`: Option, Result, JSON values, truthiness and object spread.
- `JsText`: `String.prototype.trim`, number-to-text and a parser for it.
- `QueryCache`: keys, entries and the query client.
- `UsersApi`: `src/api/users.ts`.
- `UseUsers`: `src/hooks/useUsers.ts`.
- `UsersList`, `BatchQueriesDemo`, `AddUserForm`: the screens of the same names.

Screen handlers that wait for a request take the request's outcome as a
parameter: a `UsersApi.FetchOutcome` saying what `fetch` and `response.json()`
did. They run the success or failure branch on it at once.

## Model

| member | source | states |
|---|---|---|
| `JsValues.SpreadMerge` | src/hooks/useUsers.ts:205-208 | `{...old, ...user}`: every patch field wins, every other field of the old object is kept, no other field appears |
| `JsText.Trim` | src/components/AddUserForm.tsx:28 | `trim()` is empty exactly when the input is all white space; otherwise it neither starts nor ends with white space |
| `JsText.TrimIsSlice` | src/components/AddUserForm.tsx:29-32 | the trimmed text is one contiguous slice of the input, with only white space cut on either side |
| `JsText.IntToStringRoundTrip` | src/api/users.ts:101 | the decimal text interpolated for a number reads back as that number |
| `UsersApi.NewApiError` | src/api/users.ts:50-55 | an `ApiError` keeps message, status and endpoint and is named "ApiError" |
| `UsersApi.CatchBlock` | src/api/users.ts:77-88 | an `ApiError` is rethrown unchanged; anything else becomes status 0 with the request's url as endpoint |
| `UsersApi.ApiRequest` | src/api/users.ts:58-89 | resolves exactly when the response is OK and its body parses, with the parsed body; rejects otherwise |
| `UsersApi.HttpErrorKeepsStatus` | src/api/users.ts:68-80 | a non-OK response rejects with "Request failed: " + statusText, its own status and the url; it is never re-wrapped as status 0 |
| `UsersApi.NetworkErrorWrapped` | src/api/users.ts:76-87 | a thrown fetch error or a body-parse error becomes "Network error: " + its message, status 0, endpoint url |
| `UsersApi.UnknownErrorWrapped` | src/api/users.ts:81-87 | a thrown non-Error value becomes "Network error: Unknown error", status 0 |
| `UsersApi.ErrorsCarryEndpoint` | src/api/users.ts:50-88 | every rejection is named "ApiError" and carries the url; its status is the HTTP status for a non-OK response and 0 otherwise |
| `UsersApi.FetchInit` | src/api/users.ts:60-66 | method and body pass through; Content-Type defaults to application/json; caller headers are all kept and override it; no other header is added |
| `UsersApi.ListUrlRoundTrip` | src/api/users.ts:101 | a list URL carries `limit` and `skip` verbatim: both read back unchanged from it |
| `UsersApi.ApiListUrls` | src/api/users.ts:92-102 | `fetchUsers` and `fetchPosts` (src/api/users.ts:139-149) carry `limit` and `skip` verbatim: both read back from their urls |
| `UsersApi.ApiIdUrls` | src/api/users.ts:104-106 | `getUserById`, `fetchUserPosts`, `fetchPostById` and `fetchComments` (src/api/users.ts:151-169) write the id verbatim after their fixed path: it reads back from the url, and the comments url ends in `/comments` |
| `UsersApi.ApiSearchUrls` | src/api/users.ts:187-202 | `searchUsers` and `searchPosts` address `/users/search` and `/posts/search` with the encoded text as the only parameter |
| `UsersApi.SearchUrlSingleParam` | src/api/users.ts:191-193 | with the query percent-encoded, a search URL has no `&` or `#`, and after its `?` holds only `q=` and the encoded text |
| `UsersApi.WritesSendJson` | src/api/users.ts:114-135 | add, update and delete go out as POST, PUT and DELETE; add and update carry exactly the JSON content type |
| `QueryCache.WithData` | src/hooks/useUsers.ts:159 | `setQueryData` stores the value under that key as fresh and leaves every other key unchanged |
| `QueryCache.Invalidated` | src/hooks/useUsers.ts:146-147 | `invalidateQueries` keeps all entries and their data and marks stale exactly the entries the filter reaches |
| `QueryCache.Removed` | src/hooks/useUsers.ts:173 | `removeQueries` drops exactly the reached entries and keeps the rest as they were |
| `QueryCache.QueryClient.SetQueryData` | src/hooks/useUsers.ts:159 | the client's entries become `WithData` of the old entries |
| `QueryCache.QueryClient.InvalidateQueries` | src/hooks/useUsers.ts:161-162 | the client's entries become `Invalidated` of the old entries |
| `QueryCache.QueryClient.RemoveQueries` | src/hooks/useUsers.ts:173 | the client's entries become `Removed` of the old entries |
| `UseUsers.EnabledGuards` | src/hooks/useUsers.ts:55-123 | the user, user-posts and comments queries run only for a non-zero id; the searches run only for more than two characters |
| `UseUsers.UsersFilterReachesLists` | src/hooks/useUsers.ts:24-53 | the pagination and infinite keys start with "users", so the `["users"]` invalidation reaches them |
| `UseUsers.UsersFilterMissesOthers` | src/hooks/useUsers.ts:24-123 | `["user", id]`, search, post, user-posts and comments keys are not under `["users"]`; of every key the hooks build, only the user search is under `["search-users"]` |
| `UseUsers.UserKeyReachesOnlyItself` | src/hooks/useUsers.ts:173 | the filter `["user", id]` reaches a user query's key exactly when the ids are equal |
| `UseUsers.BatchUserQueries` | src/hooks/useUsers.ts:126-135 | one always-enabled `["user", ids[i]]` query per input id, in input order |
| `UseUsers.BatchKeysDistinct` | src/hooks/useUsers.ts:126-135 | distinct ids give batch queries that never share a cache entry |
| `UseUsers.RetryDelay` | src/hooks/useUsers.ts:32 | the delay never exceeds 30000 ms |
| `UseUsers.RetryDelayMonotone` | src/hooks/useUsers.ts:32 | the delay never decreases as the attempt index grows |
| `UseUsers.RetryDelaySchedule` | src/hooks/useUsers.ts:32 | the delay is 1000·2^n for n ≤ 4 and 30000 for n ≥ 5 |
| `UseUsers.NextPageParamBounds` | src/hooks/useUsers.ts:41-47 | no next page exactly when pages·limit ≥ the last total; otherwise the param is pages·limit, strictly below total, and a positive multiple of limit |
| `UseUsers.FirstFetchFollowsCursor` | src/hooks/useUsers.ts:40-48 | the first page is fetched with param 0 |
| `UseUsers.FetchNextPageFollowsCursor` | src/hooks/useUsers.ts:40-48 | fetching on keeps the params 0, limit, 2·limit, …, each below the previous page's total, and adds a page exactly when pages·limit < the last total |
| `UseUsers.InvalidateUserLists` | src/hooks/useUsers.ts:146-147 | the two invalidations change no data and no key set; they mark stale exactly what is under `["users"]` or `["search-users"]` |
| `UseUsers.AfterAddUser` | src/hooks/useUsers.ts:144-148 | a successful add changes no cached data and marks stale exactly the entries under `["users"]` or `["search-users"]` (plus those already stale) |
| `UseUsers.AfterUpdateUser` | src/hooks/useUsers.ts:157-163 | a successful update leaves `["user", id]` fresh, holding the server's answer; every other entry keeps its data and becomes stale exactly when it is under `["users"]` or `["search-users"]` or was stale |
| `UseUsers.AfterDeleteUser` | src/hooks/useUsers.ts:171-177 | a successful delete drops exactly the entries under `["user", id]`; every other entry keeps its data and becomes stale exactly when it is under `["users"]` or `["search-users"]` or was stale |
| `UseUsers.AddUserMutation` | src/hooks/useUsers.ts:142-152 | the result is the add request's; on success the cache becomes `AfterAddUser`; on failure it is untouched |
| `UseUsers.UpdateUserMutation` | src/hooks/useUsers.ts:154-167 | the result is the update request's; on success the cache becomes `AfterUpdateUser` with the response; on failure it is untouched |
| `UseUsers.DeleteUserMutation` | src/hooks/useUsers.ts:169-181 | the result is the delete request's; on success the cache becomes `AfterDeleteUser`; on failure it is untouched |
| `UseUsers.OptimisticWrite` | src/hooks/useUsers.ts:205-208 | `["user", id]` becomes the old value merged with the patch; no other key changes |
| `UseUsers.OptimisticWriteKeepsOtherFields` | src/hooks/useUsers.ts:205-208 | a field of the cached user that the patch does not name keeps its value |
| `UseUsers.OptimisticFailureRestoresSnapshot` | src/hooks/useUsers.ts:213-222 | after a failure with a snapshot, the whole update amounts to invalidating `["user", id]` alone: every key holds exactly its data from before the mutation, `["user", id]` is stale, and every entry outside `["user", id]` is exactly as before, staleness included, so `["users"]` is never invalidated |
| `UseUsers.OptimisticFailureWithoutSnapshot` | src/hooks/useUsers.ts:213-218 | after a failure without a truthy snapshot, the optimistic value stays, and every entry outside `["user", id]` is exactly as before |
| `UseUsers.OptimisticSuccessKeepsOptimisticValue` | src/hooks/useUsers.ts:194-223 | on success the optimistic value stays (the server's answer is not written) and `["user", id]` is stale; nothing outside `["user", id]` changes, so `["users"]` is never invalidated |
| `UseUsers.OnMutate` | src/hooks/useUsers.ts:197-212 | the returned snapshot is the value from before the write; the cache becomes `OptimisticWrite` |
| `UseUsers.OnError` | src/hooks/useUsers.ts:213-218 | the cache becomes `Rollback`: the snapshot is written back only when it is truthy |
| `UseUsers.OnSettled` | src/hooks/useUsers.ts:219-222 | `["user", id]` is invalidated |
| `UseUsers.OptimisticUpdate` | src/hooks/useUsers.ts:194-223 | the result is the update request's; the cache goes through onMutate, onError on failure, then onSettled |
| `UsersList.ListQuery` | src/components/UsersList.tsx:26 | the list's key is exactly `["users"]`, the filter every user-list invalidation uses, so those invalidations reach it; it is a prefix of the pagination and infinite keys, and the query is enabled |
| `UsersList.HasNextPageIff` | src/components/UsersList.tsx:28-32 | there is no next page exactly when pages·10 ≥ the last page's total |
| `UsersList.FlattenLength` | src/components/UsersList.tsx:70 | the flattened list's length is the sum of the page lengths |
| `UsersList.FlattenAppend` | src/components/UsersList.tsx:70 | flattening keeps page order: the pages of two runs flatten to the two flattened runs, concatenated |
| `UsersList.AllUsers` | src/components/UsersList.tsx:70 | no data shows no users; otherwise the list is as long as all pages together |
| `UsersList.FetchNextExtendsList` | src/components/UsersList.tsx:26-33 | loading the next page extends the shown list by exactly that page's users, and by nothing when there is no next page |
| `UsersList.FetchNextKeepsTotal` | src/components/UsersList.tsx:71 | loading another page leaves the shown total at the first page's total |
| `UsersList.ShouldFetchNextPage` | src/components/UsersList.tsx:57-62 | the next page is requested exactly when not loading, intersecting, a next page exists and none is being fetched |
| `UsersList.HandleDelete` | src/components/UsersList.tsx:40-52 | a request is made only when confirmed; its success invalidates `["users"]` and nothing else; a failure changes nothing |
| `BatchQueriesDemo.AddSelectedSpec` | src/components/BatchQueriesDemo.tsx:15-19 | an id that is 0 or already selected leaves the selection unchanged; any other id is appended, once, at the end; distinctness is kept |
| `BatchQueriesDemo.Without` | src/components/BatchQueriesDemo.tsx:22 | removal drops every occurrence of the id and keeps every other id |
| `BatchQueriesDemo.WithoutAppend` | src/components/BatchQueriesDemo.tsx:21-23 | removal keeps the relative order of the remaining ids (it distributes over concatenation) |
| `BatchQueriesDemo.WithoutAbsent` | src/components/BatchQueriesDemo.tsx:21-23 | removing an id that is not selected leaves the list unchanged |
| `BatchQueriesDemo.WithoutKeepsDistinct` | src/components/BatchQueriesDemo.tsx:21-23 | removal keeps a duplicate-free list duplicate-free |
| `BatchQueriesDemo.RunKeepsDistinct` | src/components/BatchQueriesDemo.tsx:15-23 | any sequence of adds and removes keeps a duplicate-free list duplicate-free |
| `BatchQueriesDemo.SelectionStaysDistinct` | src/components/BatchQueriesDemo.tsx:8-23 | starting from [1,2,3,4,5], the selection never holds an id twice |
| `BatchQueriesDemo.StaleSelectionAfterDelete` | src/components/BatchQueriesDemo.tsx:21-31 | as written, a delete of 3 clicked on [1..5] ends at [1,2,4,5] even if 6 was added, or 5 removed, meanwhile |
| `BatchQueriesDemo.SelectionAfterDelete` | src/components/BatchQueriesDemo.tsx:28-30 | the intended success update removes the id and keeps every other currently selected id |
| `BatchQueriesDemo.DeleteKeepsConcurrentAdd` | src/components/BatchQueriesDemo.tsx:15-30 | with the intended update, a delete and an add of another id made while it was in flight commute |
| `BatchQueriesDemo.SomeLoading` | src/components/BatchQueriesDemo.tsx:36 | `isLoading` holds exactly when some query is loading |
| `BatchQueriesDemo.SomeError` | src/components/BatchQueriesDemo.tsx:37 | `hasError` holds exactly when some query errored |
| `BatchQueriesDemo.EverySuccess` | src/components/BatchQueriesDemo.tsx:38 | `isSuccess` holds exactly when every query succeeded |
| `BatchQueriesDemo.SummaryConsistent` | src/components/BatchQueriesDemo.tsx:36-38 | with no queries the summary is success, not loading, no error; all-success excludes loading and error |
| `BatchQueriesDemo.RowFor` | src/components/BatchQueriesDemo.tsx:128-199 | a row is labelled with its id; a skeleton exactly while loading; the error row exactly when errored and not loading; user details exactly when succeeded with truthy data and not loading |
| `BatchQueriesDemo.Rows` | src/components/BatchQueriesDemo.tsx:125-126 | one row per selected id, in order; row i shows query i, whose key is `["user", selectedUserIds[i]]` |
| `BatchQueriesDemo.BatchQueriesScreen.constructor` | src/components/BatchQueriesDemo.tsx:8-9 | the selection starts as [1,2,3,4,5] (duplicate-free) and the id input as 6 |
| `BatchQueriesDemo.BatchQueriesScreen.SetNewUserId` | src/components/BatchQueriesDemo.tsx:72 | the id input changes and the selection does not |
| `BatchQueriesDemo.BatchQueriesScreen.HandleAddUser` | src/components/BatchQueriesDemo.tsx:15-19 | the selection becomes `AddSelected` of the old one and stays duplicate-free |
| `BatchQueriesDemo.BatchQueriesScreen.HandleRemoveUser` | src/components/BatchQueriesDemo.tsx:21-23 | the selection becomes `Without` of the old one and stays duplicate-free |
| `BatchQueriesDemo.BatchQueriesScreen.HandleDeleteUser` | src/components/BatchQueriesDemo.tsx:25-27 | a delete starts only when confirmed, for that id |
| `BatchQueriesDemo.BatchQueriesScreen.DeleteSettled` | src/components/BatchQueriesDemo.tsx:21-31 | the hook's delete recipe runs on the cache; success sets the selection to the click-time selection without the id (`SelectionAfterDeleteAsWritten`), dropping ids added meanwhile; failure leaves the selection and the cache unchanged |
| `AddUserForm.SubmitPayloadSpec` | src/components/AddUserForm.tsx:26-35 | once `handleSubmit` is called, it sends a request exactly when both inputs have a non-white-space character; it sends the trimmed name as first name, "" as last name and the trimmed email |
| `AddUserForm.AddUserFormState.constructor` | src/components/AddUserForm.tsx:9-11 | name and email start empty and the popup hidden |
| `AddUserForm.AddUserFormState.SetName` | src/components/AddUserForm.tsx:75 | only the name changes |
| `AddUserForm.AddUserFormState.SetEmail` | src/components/AddUserForm.tsx:92 | only the email changes |
| `AddUserForm.AddUserFormState.HidePopup` | src/components/AddUserForm.tsx:155 | the popup is hidden and the inputs are unchanged |
| `AddUserForm.AddUserFormState.HandleSubmit` | src/components/AddUserForm.tsx:13-35 | once `handleSubmit` is called: on success `["users"]` is invalidated, the inputs are cleared and the popup shown; with no payload or on failure nothing changes |
| `AddUserForm.FormSuccessLeavesSearches` | src/components/AddUserForm.tsx:17 | unlike the hook's add, the form's success leaves `["search-users", q]` entries unchanged |

## Findings

| source | as written | input that shows it | evidently intended | confidence | as-written member | corrected member |
|---|---|---|---|---|---|---|
| src/components/BatchQueriesDemo.tsx:21-31 | the per-call `onSuccess` of a delete filters the `selectedUserIds` captured when the button was clicked | selection [1,2,3,4,5]; delete 3; add 6 (or remove 5) while it is pending; delete succeeds: the selection becomes [1,2,4,5] | remove the id from the selection current at success time (`setSelectedUserIds(prev => prev.filter(...))`) | not executed; the interleaving follows from closure capture | `BatchQueriesDemo.StaleSelectionAfterDelete` | `BatchQueriesDemo.SelectionAfterDelete` |

`BatchQueriesScreen.DeleteSettled` follows the code as written; `SelectionAfterDelete` is the corrected update, and `DeleteKeepsConcurrentAdd` proves what it would restore.

## Left out

- The query library's engine is not modelled: request de-duplication, staleTime and gcTime clocks, eviction, the retry loop that calls `RetryDelay`, `cancelQueries` (onMutate's first step), refetching of invalidated active queries and subscriber notification. The staleTime, gcTime, retry and refetch settings of each hook and of `src/lib/react-query.ts` are library configuration and are not modelled.
- Overlapping optimistic mutations on one key are not modelled. The code does not serialise them, so no overlap-safety guarantee is claimed.
- Request and response I/O is not run. `fetch`, `response.json()` and `JSON.stringify` are replaced by the abstract `FetchOutcome` and a `Json` body value.
- `encodeURIComponent` is a parameter. Only its output alphabet is assumed, in `UsersApi.SearchUrlSingleParam`.
- `fetchUserWithPosts` (`Promise.all`) is concurrency and is not modelled. The request of every other API function is.
- JavaScript numbers are modelled as integers: no NaN, fractions or Infinity, and ids, limits and totals are `int`. `!!id` is therefore `id != 0`.
- String lengths count code points, not UTF-16 units, for the search guard.
- Spreading a cached value that is not an object contributes nothing in `JsValues.SpreadOf`. In JavaScript a string or array would contribute index keys. Cached users are always objects.
- A `Partial<User>` field explicitly set to `undefined` cannot be expressed, since a patch holds JSON values only.
- Only plain-object headers are modelled. A `Headers` instance would spread to nothing; an array would spread its index keys (`"0"`, `"1"`, …) as header names, losing the intended headers. Header-name case is not folded.
- The `console.error` calls in the hook's mutation `onError` handlers (src/hooks/useUsers.ts:150, 165, 179) are logging and are not modelled; they change no state.
- Async handlers run their success or failure branch at once. The one interleaving that matters (see Findings) is modelled through `PendingDelete`. The form's inputs are not modelled as edited while its request is pending.
- The browser's constraint validation of the form is not modelled: both inputs are `required` and the email input is `type="email"` (src/components/AddUserForm.tsx:61, 72, 77, 89, 94), so the browser blocks the submit event for an empty or malformed email before `handleSubmit` runs, and an email input's value has surrounding ASCII white space stripped. `AddUserForm.SubmitPayload` is the handler's own check only.
- Rendering and browser APIs are not modelled: JSX markup, the `IntersectionObserver` wiring (its guard is `UsersList.ShouldFetchNextPage`), `confirm` (a boolean input), the 3-second `setTimeout` (it calls `HidePopup`), `isPending` button disabling, links, Suspense and lazy loading.
- The error boundary, the optimistic demo screen, the lazy profile and posts components, the suspense demo, the app shell, the pages and the query wrapper are presentational or lifecycle-driven and are not part of this model.
