# Paginated user search: a Dafny model of the `Index` screen

The `Index` screen (`app/index.js`) searches GitHub users page by page. It
keeps four pieces of state: `isLoading`, `userData` (the results gathered so
far), `page` and `totalCount` (the number of matches the server reports).
Three handlers change that state:

- submitting a query (`handleSubmit`) puts `page` back to 1 and fetches;
- reaching the end of the list (`handleLoadMore`) does nothing while a request
  is in flight or once the list holds `totalCount` items; otherwise it moves
  `page` on by one, and the effect watching `page` fetches every page beyond
  the first;
- a fetch (`fetchUsers`) does nothing for an input that is exactly `""`,
  otherwise raises `isLoading`. When the request settles, a success stores
  the reported total and replaces the list (page 1) or appends to it (later
  pages). A failure is only logged. `isLoading` is cleared either way.

The model has two modules.

- `SearchState` (`search_state.dfy`) states each handler as a function on a
  `State` value. The function returns the new state and the page it asks the
  network for, if any. A `Step`/`Run` pair replays a sequence of events. The
  lemmas prove the screen's promises over single calls and over whole runs.
- `Index` (`index.dfy`) is the component itself: class `SearchScreen` holds
  the four fields and updates them in place, one method per handler. Each
  method's postcondition ties the new fields and the requested page to the
  matching `SearchState` function and spells out the new state.
  `PageThroughSearch` drives the class through a three-page search.

The network is a parameter. The handlers return the page they would request,
and `OnFetchSettled` / `Complete` receive how the request settled
(`Success(items, totalCount)` or `Failure`). The text in the input box is
passed to each handler as an argument. A result item is a `User` record with
the fields the list uses: `id`, `login`, `avatarUrl` (the JSON field
`avatar_url`) and `kind` (the JSON field `type`, a reserved word in Dafny).
The guard of "load more" is the predicate `LoadMoreBlocked`, and the state
the screen mounts with is the constant `Init`; both are used by the
`LoadMore` and constructor contracts below.

Where the code and its comments disagree, the model follows the code:

- The fetch is suppressed only for the exact empty string
  (`app/index.js:42`). The comment beside it also mentions whitespace-only
  input, but such input is fetched, and so it is in the model.
- Submitting an empty input still resets `page` to 1, because `setPage(1)`
  runs before the empty check.
- "Load more" on an empty input still advances `page` but fetches nothing.
  The next successful "load more" therefore asks for the page after it
  (`EmptyLoadMoreSkipsPage`).
- A failed request leaves `page` where it was. Nothing rolls it back, so the
  failed page is not asked for again by "load more".
- No response is ever discarded as stale. A settled request is applied
  whatever happened since it was issued, exactly as the code does.

## Model

| member | source | states |
|---|---|---|
| `SearchState.Fetch` | app/index.js:38-45 | an input equal to `""` issues no request and leaves every field unchanged; any other input (whitespace included) sets `isLoading` and requests the current page; list, page and total never change here |
| `SearchState.Submit` | app/index.js:17-21 | after a submit `page` is 1 whatever it was before; page 1 is requested exactly when the input is not `""`; list and total are untouched |
| `SearchState.PageEffect` | app/index.js:31-36 | page, list and total are untouched; the current page is requested exactly when it is beyond the first and the input is not `""`, and the loading flag is raised exactly then (or stays as it was) |
| `SearchState.LoadMore` | app/index.js:24-36 | when loading or when the list holds at least `totalCount` items the state is unchanged and nothing is requested; otherwise `page` grows by exactly 1 and that page (always > 1) is requested unless the input is `""`; list and total are untouched |
| `SearchState.Merge` | app/index.js:53-57 | for page 1 the list becomes exactly the returned items; for any other page the old list stays as the prefix and the length grows by the number of returned items, which form the suffix |
| `SearchState.Complete` | app/index.js:47-62 | after any settling `isLoading` is false and `page` is unchanged; a failure changes nothing else; a success sets `totalCount` to the reported total and replaces (page 1) or appends to (other pages) the list |
| `SearchState.Step` | app/index.js:17-63 | every event keeps `page` at least 1 |
| `SearchState.RunKeepsPageValid` | app/index.js:12-28 | `page` stays at least 1 over any sequence of submits, load-mores and settlings, since it is only reset to 1 or incremented |
| `SearchState.PageAlwaysPositive` | app/index.js:12 | from the mounted state (page 1) the page counter is at least 1 after any sequence of events |
| `SearchState.BlockedLoadMoreIsStable` | app/index.js:26 | once the guard blocks, any number of further load-more events leave the whole state unchanged |
| `SearchState.ContinuationsOnlyAppend` | app/index.js:52-57 | over any run without a successful page-1 response, the list only grows and the old list stays as its prefix |
| `SearchState.LoadMoreTwiceRequestsAtMostOnce` | app/index.js:24-45 | two load-more events in a row issue at most one request, provided the first event's updates (the page step and the loading flag raised by the effect's fetch) have taken effect before the second arrives |
| `SearchState.EmptyLoadMoreSkipsPage` | app/index.js:28 | a load-more on an empty input advances the page without a request, so the next one requests the page two beyond the old one |
| `SearchState.LoadMoreThenSuccessAppends` | app/index.js:24-63 | a load-more whose request succeeds leaves `page` one higher, the list equal to the old list followed by the new items, the reported total stored and loading cleared |
| `SearchState.SubmitThenSuccessReplaces` | app/index.js:17-63 | a submit whose request succeeds leaves `page` 1, the list exactly the returned items, the reported total stored and loading cleared |
| `Index.SearchScreen.constructor` | app/index.js:9-14 | the screen mounts not loading, with an empty list, page 1 and a total of 0 |
| `Index.SearchScreen.FetchUsers` | app/index.js:38-45 | updates the fields in place as `SearchState.Fetch` prescribes: `""` changes nothing and requests nothing, anything else sets the loading flag and requests the current page |
| `Index.SearchScreen.HandleSubmit` | app/index.js:17-21 | updates the fields as `SearchState.Submit` prescribes: `page` becomes 1 and page 1 is requested unless the input is `""` |
| `Index.SearchScreen.OnPageChange` | app/index.js:31-36 | updates the fields as `SearchState.PageEffect` prescribes: page, list and total stay; the current page is requested and loading raised exactly when the page is beyond the first and the input is not `""`; at page 1 nothing changes |
| `Index.SearchScreen.HandleLoadMore` | app/index.js:24-29 | updates the fields as `SearchState.LoadMore` prescribes: a blocked call changes nothing; otherwise `page` grows by 1 and the new page is requested unless the input is `""` |
| `Index.SearchScreen.OnFetchSettled` | app/index.js:47-62 | updates the fields as `SearchState.Complete` prescribes: loading cleared, `page` untouched, a failure keeps list and total, a success stores the total and replaces or appends the items |
| `Index.PageThroughSearch` | app/index.js:17-63 | a search with 23 matches served as 10, 10 and 3 users ends on page 3 with the 23 users in order, the total 23 and loading cleared, and a further load-more requests nothing |

## Left out

- Rendering: `renderItem`, the JSX tree, `keyExtractor`, `onEndReachedThreshold` and `styles` (app/index.js:65-153) are presentation.
- The HTTP request and its decoding (app/index.js:48-51). The URL interpolates the query without encoding it. `fetch` resolves on an HTTP error status, so a JSON body without `total_count` or `items` reaches the state updates. Then `totalCount` becomes `undefined`, which makes the `>=` guard at app/index.js:26 false, so the count never blocks "load more". For page 1 the list itself becomes `undefined` (app/index.js:54), and the next "load more" throws on `userData.length` (app/index.js:26). For a later page the append at app/index.js:56 throws when React runs the update during the next render, outside the `try`/`catch`, so nothing is stored and the component errors. The model captures none of these outcomes. It sees only a decoded `Success(items, totalCount)` or a `Failure`.
- Reading the input from the text widget (app/index.js:40): the text is a parameter of each handler.
- React scheduling. State updates are modelled as taking effect at once and in order. Batched updates are not modelled. Nor is the stale `page` that `fetchUsers` sees when called directly from `handleSubmit`: the model requests page 1 there, as the comment on line 18 intends. Nor is the gap between `setPage` and `setLoading(true)` that can let rapid end-of-list events through.
- Interleaved or out-of-order completions. Each settling is applied to the state as it is when it arrives, as in the code. Tracking of outstanding requests is not modelled.
- The `console.error` call on failure (app/index.js:59).
