/**
  The remote Miniflux API client, which the program uses but does not
  implement. Here it is a recording stub: each call is appended to
  `calls`, and what the remote answers comes from a fixed oracle,
  `Remote`, chosen when the client is built.
 */
module Miniflux {
  import opened Wrappers

  datatype EntryStatus = Unread | Read | Removed

  /** A query descriptor for listing entries. */
  datatype Filter = Filter(status: EntryStatus)

  datatype Entry = Entry(id: int, title: string)

  datatype ApiError = ApiError(message: string)

  /** One request sent to the remote API. */
  datatype Call =
    | ListEntries(filter: Filter)
    | SaveEntry(id: int)
    | UpdateEntries(ids: seq<int>, status: EntryStatus)

  /**
    The remote API's answers: whether listing fails, which entries it lists,
    and the entry IDs for which saving or changing the status fails.
   */
  datatype Remote = Remote(fetchFails: bool, listed: seq<Entry>, saveFails: set<int>, markFails: set<int>)

  class Client {
    const remote: Remote
    var calls: seq<Call>

    constructor (remote: Remote)
      ensures this.remote == remote && calls == []
    {
      this.remote := remote;
      calls := [];
    }

    /** Lists the entries matching `filter` in a single request. */
    method Entries(filter: Filter) returns (r: Result<seq<Entry>, ApiError>)
      modifies this
      ensures calls == old(calls) + [ListEntries(filter)]
      ensures r.Failure? <==> remote.fetchFails
      ensures r.Success? ==> r.value == remote.listed
    {
      calls := calls + [ListEntries(filter)];
      r := if remote.fetchFails then Failure(ApiError("cannot list entries")) else Success(remote.listed);
    }

    /** Saves (bookmarks) one entry; `err` is the error the remote returns, if any. */
    method SaveEntry(id: int) returns (err: Option<ApiError>)
      modifies this
      ensures calls == old(calls) + [Call.SaveEntry(id)]
      ensures err.Some? <==> id in remote.saveFails
    {
      calls := calls + [Call.SaveEntry(id)];
      err := if id in remote.saveFails then Some(ApiError("cannot save entry")) else None;
    }

    /** Sets the status of the given entries; fails when any of them is refused. */
    method UpdateEntries(ids: seq<int>, status: EntryStatus) returns (err: Option<ApiError>)
      modifies this
      ensures calls == old(calls) + [Call.UpdateEntries(ids, status)]
      ensures err.Some? <==> exists i :: 0 <= i < |ids| && ids[i] in remote.markFails
    {
      calls := calls + [Call.UpdateEntries(ids, status)];
      var refused := exists i :: 0 <= i < |ids| && ids[i] in remote.markFails;
      err := if refused then Some(ApiError("cannot update entries")) else None;
    }
  }
}
