/**
 The paginated user-search state machine of the `Index` screen, on values.

 The screen keeps four pieces of state (whether a request is in flight, the
 accumulated result list, the page counter and the server-reported total).
 Three handlers change it: submitting a query, reaching the end of the list,
 and the settling of a request. Each handler is a function here from the old
 state (and its input) to the new state, together with the page it asks the
 network for, if any. The class in module Index performs the same updates in
 place and is proved against these functions.
 */
module SearchState {

  datatype Option<T> = None | Some(value: T)

  /** One row of the result list: `id` keys the row, the rest is displayed. */
  datatype User = User(id: int, login: string, avatarUrl: string, kind: string)

  /** How an awaited search request settles: a decoded body, or a rejection
      (transport failure or a body that is not JSON). */
  datatype Response =
    | Success(items: seq<User>, totalCount: int)
    | Failure

  /** The screen's state: `isLoading`, `userData`, `page`, `totalCount`. */
  datatype State = State(isLoading: bool, userData: seq<User>, page: int, totalCount: int)

  /** The state the screen is mounted with. */
  const Init := State(false, [], 1, 0)

  /** The page counter is a 1-based page number. */
  predicate PageValid(s: State) {
    s.page >= 1
  }

  /** The guard that makes "load more" do nothing: a request is in flight, or
      the list already holds as many items as the server reported. */
  predicate LoadMoreBlocked(s: State) {
    s.isLoading || |s.userData| >= s.totalCount
  }

  /** The synchronous part of a fetch: an input that is exactly the empty
      string issues nothing; any other input (whitespace included) raises the
      loading flag and requests the current page. */
  function Fetch(s: State, text: string): (r: (State, Option<int>))
    ensures text == "" ==> r == (s, None)
    ensures text != "" ==> r.1 == Some(s.page) && r.0.isLoading
    ensures r.0.userData == s.userData && r.0.page == s.page && r.0.totalCount == s.totalCount
  {
    if text == "" then (s, None)
    else (s.(isLoading := true), Some(s.page))
  }

  /** Submitting a query: the page goes back to 1, then a fetch of page 1
      starts unless the input is empty. */
  function Submit(s: State, text: string): (r: (State, Option<int>))
    ensures r.0.page == 1
    ensures r.1 == (if text == "" then None else Some(1))
    ensures r.0.isLoading == (s.isLoading || text != "")
    ensures r.0.userData == s.userData && r.0.totalCount == s.totalCount
  {
    Fetch(s.(page := 1), text)
  }

  /** The effect that watches the page counter: a change to a page beyond the
      first starts a fetch of that page. */
  function PageEffect(s: State, text: string): (r: (State, Option<int>))
    ensures r.0.page == s.page && r.0.userData == s.userData && r.0.totalCount == s.totalCount
    ensures r.1 == (if s.page > 1 && text != "" then Some(s.page) else None)
    ensures r.0.isLoading == (s.isLoading || (s.page > 1 && text != ""))
  {
    if s.page > 1 then Fetch(s, text) else (s, None)
  }

  /** Reaching the end of the list: unless blocked, the page counter moves on
      by one and the effect fetches that page. */
  function LoadMore(s: State, text: string): (r: (State, Option<int>))
    requires PageValid(s)
    ensures LoadMoreBlocked(s) ==> r == (s, None)
    ensures !LoadMoreBlocked(s) ==> r.0.page == s.page + 1
    ensures !LoadMoreBlocked(s) ==> r.1 == (if text == "" then None else Some(s.page + 1))
    ensures !LoadMoreBlocked(s) ==> r.0.isLoading == (text != "")
    ensures r.0.userData == s.userData && r.0.totalCount == s.totalCount
    ensures r.1.Some? ==> r.1.value > 1
  {
    if LoadMoreBlocked(s) then (s, None)
    else PageEffect(s.(page := s.page + 1), text)
  }

  /** How the items of a successful response join the list: they replace it
      for the first page and are appended to it for any other page. */
  function Merge(requestPage: int, prev: seq<User>, items: seq<User>): (r: seq<User>)
    ensures requestPage == 1 ==> r == items
    ensures requestPage != 1 ==> |r| == |prev| + |items|
    ensures requestPage != 1 ==> r[..|prev|] == prev && r[|prev|..] == items
  {
    if requestPage == 1 then items else prev + items
  }

  /** The settling of a request issued for `requestPage`: a success stores
      the reported total and merges the items; a failure changes nothing but
      the loading flag, which is cleared in every case. */
  function Complete(s: State, requestPage: int, response: Response): (r: State)
    ensures !r.isLoading
    ensures r.page == s.page
    ensures response.Failure? ==> r.userData == s.userData && r.totalCount == s.totalCount
    ensures response.Success? ==> r.totalCount == response.totalCount
    ensures response.Success? && requestPage == 1 ==> r.userData == response.items
    ensures response.Success? && requestPage != 1 ==>
              r.userData == s.userData + response.items
  {
    match response
    case Success(items, total) =>
      s.(isLoading := false, totalCount := total, userData := Merge(requestPage, s.userData, items))
    case Failure =>
      s.(isLoading := false)
  }

  /** The three events the screen reacts to, in the order they happen. */
  datatype Event =
    | SubmitEvent(text: string)
    | LoadMoreEvent(text: string)
    | CompleteEvent(requestPage: int, response: Response)

  /** The state after one event. */
  function Step(s: State, e: Event): (r: State)
    requires PageValid(s)
    ensures PageValid(r)
  {
    match e
    case SubmitEvent(text) => Submit(s, text).0
    case LoadMoreEvent(text) => LoadMore(s, text).0
    case CompleteEvent(p, response) => Complete(s, p, response)
  }

  /** The state after a sequence of events. */
  function Run(s: State, events: seq<Event>): (r: State)
    requires PageValid(s)
    decreases |events|
  {
    if events == [] then s else Run(Step(s, events[0]), events[1..])
  }

  /** A success for the first page: the only event that can replace the list. */
  predicate ReplacesList(e: Event) {
    e.CompleteEvent? && e.response.Success? && e.requestPage == 1
  }

  /** The page counter never drops below 1, whatever happens. */
  lemma {:induction false} RunKeepsPageValid(s: State, events: seq<Event>)
    requires PageValid(s)
    ensures PageValid(Run(s, events))
    decreases |events|
  {
    if events != [] {
      RunKeepsPageValid(Step(s, events[0]), events[1..]);
    }
  }

  /** Starting from the mounted state, the page counter is at least 1 after
      any sequence of events. */
  lemma {:induction false} PageAlwaysPositive(events: seq<Event>)
    ensures Run(Init, events).page >= 1
  {
    RunKeepsPageValid(Init, events);
  }

  /** Once the guard blocks "load more", any number of further "load more"
      events leave the whole state as it is and issue nothing. */
  lemma {:induction false} BlockedLoadMoreIsStable(s: State, events: seq<Event>)
    requires PageValid(s) && LoadMoreBlocked(s)
    requires forall i :: 0 <= i < |events| ==> events[i].LoadMoreEvent?
    ensures Run(s, events) == s
    decreases |events|
  {
    if events != [] {
      assert Step(s, events[0]) == s;
      BlockedLoadMoreIsStable(s, events[1..]);
    }
  }

  /** Without a first-page success, the list only grows at its end: what was
      in it stays in front, in the same order. */
  lemma {:induction false} ContinuationsOnlyAppend(s: State, events: seq<Event>)
    requires PageValid(s)
    requires forall i :: 0 <= i < |events| ==> !ReplacesList(events[i])
    ensures |Run(s, events).userData| >= |s.userData|
    ensures Run(s, events).userData[..|s.userData|] == s.userData
    decreases |events|
  {
    if events != [] {
      var t := Step(s, events[0]);
      assert !ReplacesList(events[0]);
      assert |t.userData| >= |s.userData| && t.userData[..|s.userData|] == s.userData;
      ContinuationsOnlyAppend(t, events[1..]);
      var u := Run(t, events[1..]);
      assert u.userData[..|s.userData|] == u.userData[..|t.userData|][..|s.userData|];
    }
  }

  /** Two "load more" events in a row issue at most one request, provided
      the first event's updates (including the loading flag its effect
      raises) have taken effect before the second arrives: the first either
      is blocked, or raises the loading flag, or (on an empty input) issues
      nothing itself. */
  lemma LoadMoreTwiceRequestsAtMostOnce(s: State, text1: string, text2: string)
    requires PageValid(s)
    ensures var (s1, r1) := LoadMore(s, text1);
            var (_, r2) := LoadMore(s1, text2);
            !(r1.Some? && r2.Some?)
  {
  }

  /** A "load more" on an empty input advances the page without fetching it,
      so the next successful "load more" requests the page after that one. */
  lemma EmptyLoadMoreSkipsPage(s: State, text: string)
    requires PageValid(s) && !LoadMoreBlocked(s) && text != ""
    ensures var (s1, r1) := LoadMore(s, "");
            r1 == None && LoadMore(s1, text).1 == Some(s.page + 2)
  {
  }

  /** A continuation request followed by its success: the page counter has
      moved on by one and the list is the old list followed by the new items. */
  lemma LoadMoreThenSuccessAppends(s: State, text: string, items: seq<User>, total: int)
    requires PageValid(s) && !LoadMoreBlocked(s) && text != ""
    ensures var (s1, r1) := LoadMore(s, text);
            r1.Some? &&
            var s2 := Complete(s1, r1.value, Success(items, total));
            s2.page == s.page + 1 && s2.userData == s.userData + items &&
            s2.totalCount == total && !s2.isLoading
  {
  }

  /** A submitted search followed by its success: page 1, and the list is
      exactly the returned items, whatever was shown before. */
  lemma SubmitThenSuccessReplaces(s: State, text: string, items: seq<User>, total: int)
    requires text != ""
    ensures var (s1, r1) := Submit(s, text);
            r1 == Some(1) &&
            var s2 := Complete(s1, r1.value, Success(items, total));
            s2.page == 1 && s2.userData == items && s2.totalCount == total && !s2.isLoading
  {
  }
}
