/**
 The `Index` screen's search state, updated in place by its handlers.

 Each handler changes the four fields step by step, as the component's state
 setters do, and its postcondition ties the new fields and the requested page
 to the matching function of module SearchState.
 */
module Index {
  import opened SearchState

  class SearchScreen {
    var isLoading: bool
    var userData: seq<User>
    var page: int
    var totalCount: int

    /** The object invariant: the page counter is a 1-based page number. */
    ghost predicate Valid()
      reads this
    {
      page >= 1
    }

    /** The four fields as one value. */
    function Snapshot(): State
      reads this
    {
      State(isLoading, userData, page, totalCount)
    }

    /** Mounting: not loading, an empty list, page 1, a total of 0. */
    constructor ()
      ensures Valid()
      ensures Snapshot() == Init
      ensures !isLoading && userData == [] && page == 1 && totalCount == 0
    {
      isLoading := false;
      userData := [];
      page := 1;
      totalCount := 0;
    }

    /** The part of a fetch that runs before the request is awaited; returns
        the page to request, if any. */
    method FetchUsers(text: string) returns (request: Option<int>)
      requires Valid()
      modifies this
      ensures Valid()
      ensures (Snapshot(), request) == Fetch(old(Snapshot()), text)
      ensures text == "" ==> request == None && unchanged(this)
      ensures text != "" ==> request == Some(page) && isLoading
      ensures userData == old(userData) && page == old(page) && totalCount == old(totalCount)
    {
      if text == "" {
        return None;
      }
      isLoading := true;
      request := Some(page);
    }

    /** Submit: back to page 1, then fetch. */
    method HandleSubmit(text: string) returns (request: Option<int>)
      requires Valid()
      modifies this
      ensures Valid()
      ensures (Snapshot(), request) == Submit(old(Snapshot()), text)
      ensures page == 1
      ensures request == (if text == "" then None else Some(1))
      ensures isLoading == (old(isLoading) || text != "")
      ensures userData == old(userData) && totalCount == old(totalCount)
    {
      page := 1;
      request := FetchUsers(text);
    }

    /** The effect run when the page counter changes: pages beyond the first
        are fetched. */
    method OnPageChange(text: string) returns (request: Option<int>)
      requires Valid()
      modifies this
      ensures Valid()
      ensures (Snapshot(), request) == PageEffect(old(Snapshot()), text)
      ensures page == old(page) && userData == old(userData) && totalCount == old(totalCount)
      ensures request == (if old(page) > 1 && text != "" then Some(page) else None)
      ensures isLoading == (old(isLoading) || (old(page) > 1 && text != ""))
      ensures old(page) == 1 ==> unchanged(this)
    {
      request := None;
      if page > 1 {
        request := FetchUsers(text);
      }
    }

    /** Load more: nothing while loading or once the list holds the reported
        total; otherwise the next page, which the effect then fetches. */
    method HandleLoadMore(text: string) returns (request: Option<int>)
      requires Valid()
      modifies this
      ensures Valid()
      ensures (Snapshot(), request) == LoadMore(old(Snapshot()), text)
      ensures old(LoadMoreBlocked(Snapshot())) ==> request == None && unchanged(this)
      ensures !old(LoadMoreBlocked(Snapshot())) ==>
                page == old(page) + 1 &&
                request == (if text == "" then None else Some(page)) &&
                isLoading == (text != "")
      ensures userData == old(userData) && totalCount == old(totalCount)
    {
      if isLoading || |userData| >= totalCount {
        return None;
      }
      page := page + 1;
      request := OnPageChange(text);
    }

    /** The settling of the request issued for `requestPage`. */
    method OnFetchSettled(requestPage: int, response: Response)
      requires Valid()
      modifies this
      ensures Valid()
      ensures Snapshot() == Complete(old(Snapshot()), requestPage, response)
      ensures !isLoading && page == old(page)
      ensures response.Failure? ==> userData == old(userData) && totalCount == old(totalCount)
      ensures response.Success? ==> totalCount == response.totalCount
      ensures response.Success? && requestPage == 1 ==> userData == response.items
      ensures response.Success? && requestPage != 1 ==> userData == old(userData) + response.items
    {
      match response {
        case Success(items, total) =>
          totalCount := total;
          if requestPage == 1 {
            userData := items;
          } else {
            userData := userData + items;
          }
        case Failure =>
      }
      isLoading := false;
    }
  }

  /** A search whose server reports 23 matches, paged through to the end:
      page 1 brings 10 users, pages 2 and 3 bring 10 and 3 more; after that
      reaching the end of the list requests nothing. */
  method PageThroughSearch(query: string, first: seq<User>, second: seq<User>, third: seq<User>)
    returns (final: State, extra: Option<int>)
    requires query != ""
    requires |first| == 10 && |second| == 10 && |third| == 3
    ensures final.userData == first + second + third
    ensures final.page == 3 && final.totalCount == 23 && !final.isLoading
    ensures extra == None
  {
    var screen := new SearchScreen();
    var request := screen.HandleSubmit(query);
    assert request == Some(1);
    screen.OnFetchSettled(1, Success(first, 23));
    request := screen.HandleLoadMore(query);
    assert request == Some(2);
    screen.OnFetchSettled(2, Success(second, 23));
    request := screen.HandleLoadMore(query);
    assert request == Some(3);
    screen.OnFetchSettled(3, Success(third, 23));
    extra := screen.HandleLoadMore(query);
    final := screen.Snapshot();
  }
}
