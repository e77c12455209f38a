/** The batch screen: a list of selected user ids (one `["user", id]` query
    each), adding and removing ids, deleting a user, and the status summary
    aggregated over the per-id queries. */
module BatchQueriesDemo {
  import opened JsValues
  import opened QueryCache
  import opened UseUsers
  import UsersApi

  const InitialSelection: seq<int> := [1, 2, 3, 4, 5]
  const InitialNewUserId: int := 6

  // ---------------------------------------------------------------------------
  // Selection updates

  /** `handleAddUser`: a non-zero id not yet selected goes to the end; otherwise
      the selection is unchanged. */
  function AddSelected(ids: seq<int>, newUserId: int): seq<int>
  {
    if newUserId != 0 && newUserId !in ids then ids + [newUserId] else ids
  }

  /** `ids.filter(id => id !== userId)`. */
  function Without(ids: seq<int>, userId: int): (r: seq<int>)
    ensures |r| <= |ids|
    ensures forall y :: y in r <==> y in ids && y != userId
  {
    if ids == [] then []
    else if ids[0] == userId then Without(ids[1..], userId)
    else [ids[0]] + Without(ids[1..], userId)
  }

  /** An add appends exactly the new id when it is non-zero and not yet selected,
      and leaves the selection as it was otherwise. */
  lemma AddSelectedSpec(ids: seq<int>, newUserId: int)
    ensures newUserId == 0 || newUserId in ids ==> AddSelected(ids, newUserId) == ids
    ensures newUserId != 0 && newUserId !in ids ==> AddSelected(ids, newUserId) == ids + [newUserId]
    ensures |AddSelected(ids, newUserId)| <= |ids| + 1
    ensures forall y :: y in AddSelected(ids, newUserId) <==> y in ids || (y == newUserId && newUserId != 0)
    ensures Distinct(ids) ==> Distinct(AddSelected(ids, newUserId))
    ensures AddSelected(ids, newUserId)[..|ids|] == ids
  {
  }

  /** Filtering keeps the relative order of what stays: it distributes over `+`. */
  lemma {:induction false} WithoutAppend(a: seq<int>, b: seq<int>, userId: int)
    ensures Without(a + b, userId) == Without(a, userId) + Without(b, userId)
  {
    if a == [] {
      assert a + b == b;
    } else {
      assert (a + b)[0] == a[0];
      assert (a + b)[1..] == a[1..] + b;
      WithoutAppend(a[1..], b, userId);
    }
  }

  /** Removing an id that is not selected changes nothing. */
  lemma {:induction false} WithoutAbsent(ids: seq<int>, userId: int)
    requires userId !in ids
    ensures Without(ids, userId) == ids
  {
    if ids != [] {
      assert ids == [ids[0]] + ids[1..];
      WithoutAbsent(ids[1..], userId);
    }
  }

  lemma {:induction false} WithoutKeepsDistinct(ids: seq<int>, userId: int)
    requires Distinct(ids)
    ensures Distinct(Without(ids, userId))
  {
    if ids != [] {
      assert Distinct(ids[1..]);
      WithoutKeepsDistinct(ids[1..], userId);
      var rest := Without(ids[1..], userId);
      if ids[0] != userId {
        assert ids[0] !in ids[1..];
        assert ids[0] !in rest;
        var r := [ids[0]] + rest;
        forall i, j | 0 <= i < j < |r| ensures r[i] != r[j] {
          if i == 0 { assert r[j] in rest; }
          else { assert r[i] == rest[i - 1] && r[j] == rest[j - 1]; }
        }
      }
    }
  }

  /** One user action on the selection. */
  datatype SelectionOp = Add(newUserId: int) | Remove(userId: int)

  function Apply(ids: seq<int>, op: SelectionOp): seq<int>
  {
    match op
    case Add(n) => AddSelected(ids, n)
    case Remove(u) => Without(ids, u)
  }

  function Run(ids: seq<int>, ops: seq<SelectionOp>): seq<int>
    decreases |ops|
  {
    if ops == [] then ids else Run(Apply(ids, ops[0]), ops[1..])
  }

  lemma {:induction false} RunKeepsDistinct(ids: seq<int>, ops: seq<SelectionOp>)
    requires Distinct(ids)
    ensures Distinct(Run(ids, ops))
    decreases |ops|
  {
    if ops != [] {
      match ops[0] {
        case Add(n) => AddSelectedSpec(ids, n);
        case Remove(u) => WithoutKeepsDistinct(ids, u);
      }
      RunKeepsDistinct(Apply(ids, ops[0]), ops[1..]);
    }
  }

  /** From the initial selection, no sequence of adds and removes ever selects an id twice. */
  lemma SelectionStaysDistinct(ops: seq<SelectionOp>)
    ensures Distinct(Run(InitialSelection, ops))
  {
    RunKeepsDistinct(InitialSelection, ops);
  }

  // ---------------------------------------------------------------------------
  // Delete: the per-call onSuccess

  /** A delete in flight. `capturedIds` is the selection of the render in which the
      button was clicked: the closure passed as the per-call `onSuccess` sees that
      value, not the selection current when the request succeeds. */
  datatype PendingDelete = PendingDelete(userId: int, capturedIds: seq<int>)

  /** The selection after a successful delete as the code is written:
      `setSelectedUserIds(selectedUserIds.filter(...))` with the captured list.
      The selection current at success time is deliberately not read: ignoring
      it is the defect this function records. */
  function SelectionAfterDeleteAsWritten(pending: PendingDelete, current: seq<int>): seq<int>
  {
    Without(pending.capturedIds, pending.userId)
  }

  /** An id added while the delete is in flight is lost, and one removed meanwhile
      comes back. */
  lemma StaleSelectionAfterDelete()
    ensures var pending := PendingDelete(3, InitialSelection);
      && SelectionAfterDeleteAsWritten(pending, [1, 2, 3, 4, 5, 6]) == [1, 2, 4, 5]
      && SelectionAfterDeleteAsWritten(pending, [1, 2, 3, 4]) == [1, 2, 4, 5]
      && SelectionAfterDelete(3, [1, 2, 3, 4, 5, 6]) == [1, 2, 4, 5, 6]
      && SelectionAfterDelete(3, [1, 2, 3, 4]) == [1, 2, 4]
  {
    var pending := PendingDelete(3, InitialSelection);
    assert Without([5], 3) == [5];
    assert Without([4, 5], 3) == [4] + Without([5], 3);
    assert Without([3, 4, 5], 3) == [4, 5];
    assert Without([2, 3, 4, 5], 3) == [2] + Without([3, 4, 5], 3);
    assert InitialSelection[1..] == [2, 3, 4, 5];
  }

  /** The intended update: filter the selection current at success time. */
  function SelectionAfterDelete(userId: int, current: seq<int>): (r: seq<int>)
    ensures userId !in r
    ensures forall y :: y in current && y != userId ==> y in r
    ensures forall y :: y in r ==> y in current
  {
    Without(current, userId)
  }

  /** With the intended update, a delete commutes with an add of another id made
      while it was in flight. */
  lemma DeleteKeepsConcurrentAdd(userId: int, current: seq<int>, added: int)
    requires added != userId && added != 0 && added !in current
    ensures SelectionAfterDelete(userId, AddSelected(current, added))
         == AddSelected(SelectionAfterDelete(userId, current), added)
  {
    WithoutAppend(current, [added], userId);
    assert Without([added], userId) == [added] + Without([], userId);
  }

  // ---------------------------------------------------------------------------
  // Status aggregation

  datatype QueryStatus = Pending | Errored | Succeeded

  /** The part of a query result the screen reads. */
  datatype QueryResult = QueryResult(status: QueryStatus, isFetching: bool, data: Option<Json>)
  {
    predicate IsLoading() { status == Pending && isFetching }
    predicate IsError() { status == Errored }
    predicate IsSuccess() { status == Succeeded }
  }

  /** `userQueries.some(query => query.isLoading)`. */
  function SomeLoading(qs: seq<QueryResult>): (b: bool)
    ensures b <==> exists i :: 0 <= i < |qs| && qs[i].IsLoading()
  {
    if qs == [] then false
    else
      assert forall i :: 0 < i < |qs| ==> qs[i] == qs[1..][i - 1];
      qs[0].IsLoading() || SomeLoading(qs[1..])
  }

  /** `userQueries.some(query => query.isError)`. */
  function SomeError(qs: seq<QueryResult>): (b: bool)
    ensures b <==> exists i :: 0 <= i < |qs| && qs[i].IsError()
  {
    if qs == [] then false
    else
      assert forall i :: 0 < i < |qs| ==> qs[i] == qs[1..][i - 1];
      qs[0].IsError() || SomeError(qs[1..])
  }

  /** `userQueries.every(query => query.isSuccess)`. */
  function EverySuccess(qs: seq<QueryResult>): (b: bool)
    ensures b <==> forall i :: 0 <= i < |qs| ==> qs[i].IsSuccess()
  {
    if qs == [] then true
    else
      assert forall i :: 0 < i < |qs| ==> qs[i] == qs[1..][i - 1];
      qs[0].IsSuccess() && EverySuccess(qs[1..])
  }

  /** An empty selection reads as success with nothing loading and no error, and
      all-success excludes the other two summaries. */
  lemma SummaryConsistent(qs: seq<QueryResult>)
    ensures qs == [] ==> EverySuccess(qs) && !SomeLoading(qs) && !SomeError(qs)
    ensures EverySuccess(qs) ==> !SomeLoading(qs) && !SomeError(qs)
  {
  }

  /** One row of the results list. */
  datatype Row = Skeleton(userId: int) | FailedRow(userId: int) | UserRow(userId: int, user: Json) | NoRow

  /** The row drawn for the i-th query, labelled with `selectedUserIds[i]`. */
  function RowFor(userId: int, q: QueryResult): (row: Row)
    ensures !row.NoRow? ==> row.userId == userId
    ensures row.UserRow? <==> !q.IsLoading() && q.IsSuccess() && Truthy(q.data)
    ensures row.Skeleton? <==> q.IsLoading()
    ensures row.FailedRow? <==> !q.IsLoading() && q.IsError()
  {
    if q.IsLoading() then Skeleton(userId)
    else if q.IsError() then FailedRow(userId)
    else if q.IsSuccess() && Truthy(q.data) then UserRow(userId, q.data.value)
    else NoRow
  }

  /** `userQueries.map((query, index) => ...)`: the rows follow the selection, and
      row i shows the result of the query keyed by the i-th selected id. */
  function Rows(selectedUserIds: seq<int>, qs: seq<QueryResult>): (rows: seq<Row>)
    requires |qs| == |BatchUserQueries(selectedUserIds)|
    ensures |rows| == |selectedUserIds|
    ensures forall i :: 0 <= i < |rows| ==> rows[i] == RowFor(selectedUserIds[i], qs[i])
    ensures forall i :: 0 <= i < |rows| && !rows[i].NoRow? ==>
      BatchUserQueries(selectedUserIds)[i].key == UserKey(rows[i].userId)
  {
    seq(|selectedUserIds|, i requires 0 <= i < |selectedUserIds| => RowFor(selectedUserIds[i], qs[i]))
  }

  // ---------------------------------------------------------------------------
  // The screen's state

  class BatchQueriesScreen {
    var selectedUserIds: seq<int>
    var newUserId: int

    ghost predicate Valid()
      reads this
    {
      Distinct(selectedUserIds)
    }

    constructor ()
      ensures Valid()
      ensures selectedUserIds == InitialSelection && newUserId == InitialNewUserId
    {
      selectedUserIds := InitialSelection;
      newUserId := InitialNewUserId;
    }

    /** The id input: `setNewUserId(Number(e.target.value))`. */
    method SetNewUserId(n: int)
      modifies this
      ensures newUserId == n && selectedUserIds == old(selectedUserIds)
    {
      newUserId := n;
    }

    method HandleAddUser()
      requires Valid()
      modifies this
      ensures Valid()
      ensures selectedUserIds == AddSelected(old(selectedUserIds), old(newUserId))
      ensures newUserId == old(newUserId)
    {
      AddSelectedSpec(selectedUserIds, newUserId);
      if newUserId != 0 && newUserId !in selectedUserIds {
        selectedUserIds := selectedUserIds + [newUserId];
      }
    }

    method HandleRemoveUser(userId: int)
      requires Valid()
      modifies this
      ensures Valid()
      ensures selectedUserIds == Without(old(selectedUserIds), userId)
      ensures newUserId == old(newUserId)
    {
      WithoutKeepsDistinct(selectedUserIds, userId);
      selectedUserIds := Without(selectedUserIds, userId);
    }

    /** `handleDeleteUser(userId)`: only a confirmed click starts a delete; nothing
        changes until it settles. */
    method HandleDeleteUser(userId: int, confirmed: bool) returns (pending: Option<PendingDelete>)
      ensures pending.Some? <==> confirmed
      ensures pending.Some? ==> pending.value == PendingDelete(userId, selectedUserIds)
    {
      pending := if confirmed then Some(PendingDelete(userId, selectedUserIds)) else None;
    }

    /** The delete settles: the hook's recipe runs on the cache, then on success
        the click-time `handleRemoveUser` filters the selection captured when the
        button was clicked (`SelectionAfterDeleteAsWritten`), whatever the
        selection has become meanwhile; on failure the selection is unchanged. */
    method DeleteSettled(client: QueryClient, pending: PendingDelete, response: UsersApi.FetchOutcome)
      returns (result: Result<Json, UsersApi.ApiError>)
      requires Valid() && Distinct(pending.capturedIds)
      modifies this, client
      ensures Valid()
      ensures result == UsersApi.Send(UsersApi.DeleteUser(pending.userId), response)
      ensures client.entries == if result.Ok? then AfterDeleteUser(old(client.entries), pending.userId)
                                else old(client.entries)
      ensures selectedUserIds == if result.Ok? then SelectionAfterDeleteAsWritten(pending, old(selectedUserIds))
                                 else old(selectedUserIds)
      ensures result.Ok? ==> pending.userId !in selectedUserIds
      ensures newUserId == old(newUserId)
    {
      result := DeleteUserMutation(client, pending.userId, response);
      if result.Ok? {
        WithoutKeepsDistinct(pending.capturedIds, pending.userId);
        selectedUserIds := Without(pending.capturedIds, pending.userId);
      }
    }
  }
}
