# Infinite-scroll product list: page source and pagination controller

This project models the sequential logic of a React infinite-scroll product
list and proves properties about it in Dafny. It has two parts.

- **Page source** (`getMockData`, module `PageSource`). Given a zero-based page
  index `p` and a backing array of products, it returns the window
  `[10*p, 10*(p+1))` of the array, clipped to the array's length. It also
  returns the flag `isEnd = 10*(p+1) >= length`. `Slice` models
  `Array.prototype.slice` for non-negative bounds. `GetPage` is the page
  source. `Pages` concatenates pages `0..k`.
- **Pagination controller** (`InfiniteScroll`, module `Pagination`). This is a
  class holding the component's five state fields: `data`, `pageNum`,
  `loading`, `isEnd` and `totalPriceSum`. Each transition is a method:
  - `StartFetch` is the start of `loadData`;
  - `FetchSucceeded` and `FetchFailed` are its two ways of completing, each
    ending with the `finally` that clears `loading`;
  - `OnIntersect` is the guard of the observer callback.

  The object invariant `Valid()` says that `totalPriceSum == SumPrices(data)`.
  It also says that pages are requested in order, one per counter value, and
  that `loading` and `isEnd` are never both true. `SumPrices` is the left fold
  the `reduce` performs.
- **Scenarios** (module `Scenarios`). These client methods drive the controller
  with `GetPage` in the call order the component's effects produce: a fetch on
  mount, then one fetch each time the sensor advances the counter. They cover
  the 25-item run (pages of 10, 10 and 5 items, with the end
  reported on page index 2), an empty dataset, repeated triggers while a fetch
  is loading, and a failed fetch.

Inputs the JavaScript code takes from its environment become parameters. The backing
array is the argument `backing`, because the `MockData` module is not part of
this model. The observer's `isIntersecting` is the argument `intersecting`.
The resolved or rejected promise becomes a choice of which completion method
to call. Nothing reads a clock, the network or the DOM.

Ghost field `requested`: the controller carries this ghost field, the list of
zero-based page indices requested so far. Outside development StrictMode,
React calls `loadData` from an effect exactly once each time `pageNum` changes.
This is stated as call-order preconditions:
- `StartFetch` requires that no fetch has yet been made for the current counter
  value.
- `OnIntersect` requires that one has been made (`FetchIssued`).

Two points about the code's own behaviour:

- The comment above `getMockData` says pages start at 1. The function really
  treats its argument as zero-based, and the caller passes `pageNum - 1`.
  `GetPage` is zero-based.
- The page counter is incremented only by the sensor callback
  (MainPage.tsx:53-54), never by a fetch, and a failed fetch does not roll it
  back. After a failure the next trigger requests the following page, so the
  failed page is skipped (`FailedFetchRun`).

## Model

| member | source | states |
|---|---|---|
| `PageSource.Slice` | Assignment1/src/getMockData.tsx:15-18 | the slice is no longer than the array; in-range bounds give exactly `s[start..end]`; a start at or past the end gives the empty array; an end past the length is clipped; an end at or before the start gives the empty array |
| `PageSource.GetPage` | Assignment1/src/getMockData.tsx:9-19 | a page has at most 10 items; it is the contiguous window from `min(10p, len)` to `min(10(p+1), len)` of the backing array, in order; `isEnd` holds iff `10(p+1) >= len`; a page that is not the last has exactly 10 items |
| `PageSource.PageOfEmptyBacking` | Assignment1/src/getMockData.tsx:15-19 | for an empty backing array, page 0 is empty and reports the end |
| `PageSource.PageBeyondEnd` | Assignment1/src/getMockData.tsx:15-19 | a page whose start `10p` is at or past the length is empty and reports the end |
| `PageSource.PagesAfterEndEmpty` | Assignment1/src/getMockData.tsx:15-19 | once page `p` reports the end, every later page `q > p` is empty and reports the end too |
| `PageSource.PagesConcat` | Assignment1/src/getMockData.tsx:15-18 | pages `0..k` concatenated equal the first `min(10(k+1), len)` items of the backing array |
| `Pagination.SumPricesAppend` | Assignment1/src/MainPage.tsx:30-35 | `SumPrices` is the left fold of the `reduce`; the price fold over `a + b` is the fold over `a` plus the fold over `b`, so adding each page's fold to the running total keeps it equal to the fold over all loaded items |
| `Pagination.InfiniteScroll.constructor` | Assignment1/src/MainPage.tsx:13-17 | the initial state: no items, counter 1, not loading, not at the end, total 0, nothing requested; the invariant holds |
| `Pagination.InfiniteScroll.StartFetch` | Assignment1/src/MainPage.tsx:22-25 | raises `loading` and requests the zero-based page `pageNum - 1`, recorded after all earlier requests; no fetch was outstanding and the end had not been reached; nothing else changes |
| `Pagination.InfiniteScroll.FetchSucceeded` | Assignment1/src/MainPage.tsx:25-42 | new `data` is old `data` followed by the page's items; the total grows by exactly their price fold and equals the fold over `data`; `isEnd` becomes the source's flag; `loading` ends false; the counter is unchanged |
| `Pagination.InfiniteScroll.FetchFailed` | Assignment1/src/MainPage.tsx:39-42 | only `loading` changes, and it becomes false; data, total, end flag and counter are untouched |
| `Pagination.InfiniteScroll.OnIntersect` | Assignment1/src/MainPage.tsx:50-58 | the counter grows by exactly 1 iff intersecting, not loading and not at the end; otherwise nothing changes; an advance happens only while the sentinel is rendered |
| `Pagination.EndStopsFetching` | Assignment1/src/MainPage.tsx:100-106 | `SentinelRendered` is the `!isEnd` condition under which the sentinel is rendered; once `isEnd` holds the sentinel is not rendered, no fetch is outstanding (so neither completion can reset the end flag), and the fetch for the current counter value has already been made, so no further fetch can start |
| `Scenarios.ThreePageRun` | Assignment1/src/MainPage.tsx:22-58 | over 25 items, three fetches deliver pages of 10, 10 and 5 items; the accumulated data is the whole backing array with its full price total; the end is reported with counter 3; a further trigger does not advance |
| `Scenarios.EmptyRun` | Assignment1/src/MainPage.tsx:22-58 | over an empty dataset, the first fetch yields nothing and reports the end; the total stays 0; a trigger does not advance the counter |
| `Scenarios.TriggersWhileLoading` | Assignment1/src/MainPage.tsx:50-58 | two triggers while the first fetch is outstanding both leave the counter at 1 |
| `Scenarios.FailedFetchRun` | Assignment1/src/MainPage.tsx:39-54 | a failed second fetch leaves the first page's items and total and a false end flag, with `loading` cleared; the next trigger requests page index 2, skipping the failed page |

## Left out

- JSX rendering, CSS, the `BeatLoader` spinner and the localised date formatting of each row are presentational. Only the sentinel's condition `!isEnd` is modelled, as `SentinelRendered`.
- Constructing, observing and disconnecting the `IntersectionObserver` is a browser API, as are its root margin and threshold. Only the callback's guard is modelled, with `intersecting` as a parameter.
- The 1.5-second `setTimeout` and the promise/async plumbing are left out. The fetch is split into a start method and two completion methods.
- React scheduling is left out: `useCallback` dependency arrays, effects re-running when `pageNum` changes, batched state updates, and stale closures seen by an observer callback before re-rendering. The one-fetch-per-counter-value rule is a precondition on call order.
- Prices are integers. JavaScript floating-point addition and its rounding are not modelled.
- The contents of the `MockData` module are not part of this model. The backing array is a parameter.
- `console.error` logging on a failed fetch is output only. `FetchFailed` changes nothing else.
- Negative or fractional arguments to `slice` never occur here, because the page index is a natural number. `Slice` covers only non-negative bounds.
- React's development StrictMode re-runs mount effects and state updater functions; the `setData` updater calls `setTotalPriceSum` itself. The model assumes each effect and each updater runs once.
