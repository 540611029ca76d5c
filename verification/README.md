# Crypto market screener — a Dafny model of its core

The dashboard shows the top 100 crypto assets by market capitalisation. This project models
the plain logic under the page's DOM wiring and proves what that logic guarantees:

- **Filter pipeline** (`js/filters.js`): category filters (`top10`, `top50`, `gainers`,
  `losers`, `stablecoins`, `all`/anything else), a case-insensitive substring search on name
  or symbol, and their fixed composition (category first, then search).
- **Sort engine** (`js/sort.js`): `sortCoins` with its comparator. Absent values become
  `±Infinity`; numbers compare by difference, strings with `localeCompare`, and mixed values
  by their text. `toggleSortDirection` flips the direction.
- **Cache and fetcher** (`js/api.js`): the single-slot cache with its 60 000 ms window,
  `handleApiError`'s classification, and `fetchMarketData`'s choice between cache, network and
  stale fallback.
- **Controller** (`js/app.js`): the state record, `handleSort`, `handleSearch`,
  `handleFilterChange`, the branches of `loadData`, and `applyFiltersAndSort`.

Everything is a pure function over immutable values. The page's module-level variables become
explicit state records (`Api.CacheState`, `App.AppState`). `Date.now()` becomes a `now`
parameter. The network's answer becomes a `FetchOutcome` parameter. The `apiError` event
becomes a field of the result.

Modules, one per file:

| file | module | contents |
|---|---|---|
| `wrappers.dfy` | `Wrappers` | `Option` |
| `coins.dfy` | `Coins` | the market record; JSON fields that may be `undefined`, `null` or present |
| `seqs.dfy` | `Seqs` | `Array.prototype.filter` as `Filter`, with its order and membership lemmas |
| `text.dfy` | `Text` | `trim`, `toLowerCase`, `includes`, the `localeCompare` stand-in, decimal text |
| `filters.dfy` | `Filters` | `js/filters.js` |
| `sorting.dfy` | `Sorting` | a stable insertion sort, standing for `Array.prototype.sort` |
| `sort_engine.dfy` | `SortEngine` | `js/sort.js` |
| `api.dfy` | `Api` | `js/api.js` |
| `app.dfy` | `App` | `js/app.js` |

Four behaviours of the code are easy to misread; the model follows the code:

- A `null` rank passes `top10` and `top50`, because `null <= 10` holds in JavaScript. An
  `undefined` rank fails. See `Filters.NullRankIsTop10`.
- Sorting ranks `[5, null, 1]` descending gives `[5, 1, null]`: the `null` is last in both
  directions. It becomes `-Infinity` and the comparator is `b - a`. See
  `SortEngine.NullRankSortsLast`. For the same reason, a descending sort is not the reverse of
  an ascending one when keys are absent.
- On the text columns (`name`, `symbol`) absent values are not always last. The sentinel is
  compared as the text `"Infinity"` or `"-Infinity"`. See `SortEngine.AbsentNameBeforeZcash`.
- The cache counts as fresh only if its timestamp is nonzero, because the code tests the
  timestamp's truthiness. See `Api.ZeroTimestampNeverFresh`.

## Model

| member | source | states |
|---|---|---|
| Seqs.Filter | js/filters.js:19-40 | `Array.prototype.filter` keeps only elements that pass, and never lengthens the list |
| Seqs.FilterMembership | js/filters.js:19-40 | an element is in the filtered list exactly when it is in the input and passes |
| Seqs.FilterPositions | js/filters.js:19-40 | the filtered list sits in the input at strictly increasing positions, and every passing position is used: an order-preserving subsequence |
| Seqs.FilterKeepsAll | js/filters.js:42-44 | filtering returns the input unchanged exactly when every element passes |
| Seqs.FilterIdempotent | js/filters.js:86-92 | filtering twice with one test equals filtering once |
| Seqs.FilterCommutes | js/filters.js:86-92 | two filters may be applied in either order |
| Seqs.FilterPrefix | js/filters.js:18-19 | when exactly the first k elements pass, the result is that prefix |
| Text.TrimStart | js/filters.js:60 | `trimStart` removes a whitespace prefix and leaves a non-whitespace first character |
| Text.TrimEnd | js/filters.js:60 | `trimEnd` removes a whitespace suffix and leaves a non-whitespace last character |
| Text.TrimIsMiddle | js/filters.js:60-64 | `trim` returns a middle slice with only whitespace cut off on either side and non-whitespace ends |
| Text.TrimEmptyIff | js/filters.js:60 | `s.trim() === ''` exactly when every character of `s` is whitespace |
| Text.TrimUntouched | js/filters.js:64 | a string with non-whitespace ends is its own trim |
| Text.Lower | js/filters.js:64-68 | `toLowerCase` keeps the length and maps each character on its own |
| Text.LowerKeepsWhitespace | js/filters.js:60-64 | lowercasing neither creates nor removes whitespace, so trimming and lowercasing commute for the blank test |
| Text.ContainsIff | js/filters.js:70 | `includes` holds exactly when the needle occurs at some index |
| Text.ContainsEmpty | js/filters.js:70 | every string includes the empty string |
| Text.ContainsFirstChar | js/filters.js:70 | a string that includes a non-empty needle contains its first character |
| Text.LocaleCompare | js/sort.js:40 | the comparison reports -1, 0 or 1, and 0 exactly for equal strings |
| Text.LocaleCompareAntisymmetric | js/sort.js:40 | swapping the arguments negates the comparison |
| Text.LocaleCompareTransitive | js/sort.js:40 | the comparison is transitive |
| Text.DecimalString | js/api.js:120 | the status in `HTTP <status>` is written as a non-empty run of decimal digits |
| Filters.ApplyCategoryFilter | js/filters.js:12-46 | `applyCategoryFilter`: a non-array gives the empty list; an array gives at most as many records, each in the category |
| Filters.CategoryFilter | js/filters.js:17-45 | any filter other than the five categories returns the input; otherwise the result is the input filtered by the category test |
| Filters.CategoryFilterSelects | js/filters.js:17-45 | a category filter returns an order-preserving subsequence holding every record in the category, and exactly those |
| Filters.CategoryMeaning | js/filters.js:18-40 | `top10`/`top50`: rank null or at most 10/50; `gainers`/`losers`: change present and above/below 0; `stablecoins`: change present with magnitude at most 0.5; `all`: every record |
| Filters.GainersLosersDisjoint | js/filters.js:24-34 | no record is both a gainer and a loser, and a record in neither has change 0 or none |
| Filters.UnknownCategoryKeepsAll | js/filters.js:42-44 | an unrecognised filter string returns the input unchanged |
| Filters.NotArrayYieldsEmpty | js/filters.js:13-15 | a non-array input gives the empty list in all three filter functions |
| Filters.ApplySearchFilter | js/filters.js:55-72 | `applySearchFilter`: a non-array gives the empty list; a blank term returns the array; otherwise at most as many records, each whose lowercased name or symbol includes the needle |
| Filters.SearchFilter | js/filters.js:60-62 | an empty or all-whitespace term returns the input unchanged |
| Filters.BlankNeedleMatchesAll | js/filters.js:60-64 | a blank term trims to the empty needle, which every record matches |
| Filters.SearchFilterSelects | js/filters.js:64-71 | the search returns an order-preserving subsequence holding every record whose lowercased name or symbol includes the trimmed, lowercased term, and only those |
| Filters.SearchFilterIdempotent | js/filters.js:55-72 | searching the result of a search with the same term changes nothing |
| Filters.ApplyAllFilters | js/filters.js:81-93 | `applyAllFilters`: a non-array gives the empty list; an array gives at most as many records, each in the category and matching the search |
| Filters.AllFiltersSound | js/filters.js:86-92 | every record the composed filters keep is in the category and matches the search |
| Filters.ApplyAllFiltersComposes | js/filters.js:81-92 | `applyAllFilters` equals the search filter applied to the category filter's result |
| Filters.AllFiltersMembership | js/filters.js:86-92 | a record survives both filters exactly when it is in the input, in the category and matches the search |
| Filters.AllFiltersIdempotent | js/filters.js:86-92 | applying both filters twice equals applying them once |
| Filters.Top10OfTwenty | js/filters.js:18-19 | ranks 1 to 20 under `top10` give exactly the first ten records, in order |
| Filters.NullRankIsTop10 | js/filters.js:18-19 | a `null` rank passes `top10` and an `undefined` rank does not |
| Filters.StablecoinBoundary | js/filters.js:36-40 | changes 0.3 and -0.5 are stablecoins and 0.6 is not; the boundary is inclusive |
| Filters.SearchByNameAndSymbol | js/filters.js:64-71 | `coin` finds Bitcoin and Litecoin by name; `BTC` finds only Bitcoin, by symbol, ignoring case |
| Sorting.InsertionSort | js/sort.js:21 | `sorted.sort(comparator)` as a stable insertion sort: the result is a permutation of the input |
| Sorting.InsertSorted | js/sort.js:21-49 | inserting into a sorted list keeps it sorted under a total preorder |
| Sorting.InsertionSortSorted | js/sort.js:21-49 | the sort's output is ordered by any total preorder it is given |
| Sorting.InsertionSortStable | js/sort.js:21-49 | records the comparator ties keep their input order, as `Array.prototype.sort` guarantees |
| Sorting.InsertionSortAgrees | js/sort.js:21-49 | two comparators that agree everywhere sort every list the same way |
| SortEngine.ToggleSortDirection | js/sort.js:59-61 | `asc` becomes `desc`, and every other direction becomes `asc` |
| SortEngine.ToggleIsInvolution | js/sort.js:59-61 | on `asc` and `desc`, one toggle changes the direction and two restore it |
| SortEngine.CompareCoins | js/sort.js:21-49 | the comparator: absent keys become `±Infinity` by direction, two numbers compare by difference, two strings by `localeCompare`, a string and a sentinel by their text; negated when not ascending (its properties are in the rows below) |
| SortEngine.SortList | js/sort.js:18-51 | the result is a permutation of the input, of the same length, ordered by the comparator |
| SortEngine.SortCoins | js/sort.js:13-49 | a non-array input gives the empty list; an array gives a permutation of its elements, of the same length, ordered by the comparator for the column and direction |
| SortEngine.CompareNumbersMeaning | js/sort.js:34-35 | ascending, the difference is at most 0 exactly when a is at most b on the extended reals; descending, when b is at most a |
| SortEngine.NotAfterIsTotalPreorder | js/sort.js:21-49 | the comparator induces a connex, transitive order on records, for every column and direction |
| SortEngine.CompareCoinsAntisymmetric | js/sort.js:21-49 | swapping the two records negates the comparator's sign |
| SortEngine.CompareTextKeysAsText | js/sort.js:39-48 | on a text column, a string against an absent value compares the string with the sentinel's text |
| SortEngine.CompareCoinsTransitive | js/sort.js:21-49 | the comparator's "not after" is transitive |
| SortEngine.NumericColumnOrder | js/sort.js:26-35 | on a numeric column, present keys come out non-decreasing ascending and non-increasing otherwise, and absent keys come after all present ones in both directions |
| SortEngine.TextColumnOrder | js/sort.js:39-42 | on a text column, two present keys come out in `localeCompare` order, reversed when not ascending |
| SortEngine.SortListStable | js/sort.js:21-49 | records the comparator ties keep their relative input order |
| SortEngine.DescendingNegatesAscending | js/sort.js:35-41 | `desc` negates the `asc` result on two present strings and swaps the operands on two present numbers |
| SortEngine.OtherDirectionsAreDescending | js/sort.js:27-48 | every direction other than `asc` sorts exactly as `desc` |
| SortEngine.NullRankSortsLast | js/sort.js:26-35 | ranks 5, null, 1 give 1, 5, null ascending and 5, 1, null descending |
| SortEngine.AbsentNameBeforeZcash | js/sort.js:44-48 | sorting by name ascending puts a record with no name before `Zcash`, because the sentinel reads as the text `Infinity` |
| Api.IsCacheValid | js/api.js:33-40 | `isCacheValid`: data stored, a truthy (nonzero) timestamp, and strictly less than 60 000 ms elapsed (its properties are in FreshnessWindow and ZeroTimestampNeverFresh) |
| Api.GetCachedData | js/api.js:33-51 | a list is returned exactly when the cache is valid, and it is the stored list |
| Api.SetCachedData | js/api.js:57-60 | a put stores the list, which a read at the same nonzero time returns |
| Api.ClearCache | js/api.js:160-163 | after a clear nothing is stored and no read at any time returns a list |
| Api.FreshnessWindow | js/api.js:33-40 | after a put at a nonzero time the entry is valid exactly while `now - stored < 60000` |
| Api.StaleAtWindow | js/api.js:7-39 | an entry is stale at exactly 60000 ms and still fresh at 59999 ms |
| Api.FreshnessMonotone | js/api.js:38-39 | a stale entry stays stale as time advances, and a fresh one was fresh before |
| Api.PutReplaces | js/api.js:57-60 | put X then put Y leaves exactly the entry a lone put of Y makes, and it returns Y |
| Api.ZeroTimestampNeverFresh | js/api.js:34-36 | an entry with timestamp 0 is never valid, because the timestamp is falsy |
| Api.ClearForgets | js/api.js:147-163 | after a clear, reads return nothing and a failed fetch returns `null` |
| Api.ErrorKindOf | js/api.js:68-99 | 429 is `rateLimited`; at least 500 is `serverError`; other 4xx is `clientError`; with no response or one below 400, a `TypeError` mentioning `fetch` is `networkError`; anything else is `unknownError` |
| Api.HandleApiError | js/api.js:68-99 | the result pairs the chosen kind with that kind's fixed message |
| Api.HttpError | js/api.js:119-121 | a non-ok status throws an `Error` whose message starts with `HTTP ` |
| Api.TryFetch | js/api.js:115-137 | the request yields records exactly for an ok response with an array body; a thrown response always has a non-ok status |
| Api.Classify | js/api.js:138-140 | the `catch` block: a thrown `{error, response}` is classified with its error and response, anything else with no response (ThrownKindMatchesTable relates it to the outcome table) |
| Api.FetchMarketData | js/api.js:106-155 | a fresh cache without a forced refresh is served with no request and the cache unchanged. Otherwise one request is made. On success the body is cached and returned with no error. On failure the cache is unchanged, the stored data (even expired) or `null` is returned, and one error is reported |
| Api.ThrownKindMatchesTable | js/api.js:119-140 | the thrown values plus `handleApiError` classify every failed outcome as the outcome table does |
| Api.FailureClassified | js/api.js:138-145 | the error a failed fetch reports has the kind the outcome table predicts, with its message |
| Api.StatusKindsNeedStatus | js/api.js:69-86 | only a response with status at least 400 is classified as rate-limited, server or client error |
| Api.NonArrayBodyRejected | js/api.js:127-132 | an ok response whose body is not an array is an unknown error and leaves the cache as it was |
| Api.SuccessIsServedNext | js/api.js:134-137 | after a successful fetch, any unforced fetch within the window is served from the cache with no request |
| Api.StaleFallbackOn503 | js/api.js:147-151 | a stale cache and a forced fetch answered 503 give the stale list with a `serverError` |
| App.DisplayedCoins | js/app.js:164-173 | the displayed list is ordered by the current column and direction, and is a permutation of the filtered records |
| App.ApplyFiltersAndSort | js/app.js:164-182 | the rows shown are exactly the records passing the filters, and the results count is their number |
| App.DisplayedMembership | js/app.js:166-173 | a record is displayed exactly when it is loaded, in the current category and matches the current search |
| App.HandleSort | js/app.js:132-143 | the current column flips direction and another column starts ascending; the filters and records are untouched |
| App.SameColumnTwiceRestores | js/app.js:133-135 | activating the current column twice restores the sort state |
| App.NewColumnThenAgainDescends | js/app.js:136-140 | a new column followed by the same column again sorts that column descending |
| App.HandleSearch | js/app.js:115-118 | only the search term changes |
| App.HandleFilterChange | js/app.js:123-126 | only the category filter changes |
| App.SearchRefilters | js/app.js:115-118 | after `handleSearch`, a record is displayed exactly when it is loaded, in the category and matches the new term |
| App.FilterChangeRefilters | js/app.js:123-126 | after `handleFilterChange`, a record is displayed exactly when it is loaded, in the new category and matches the search |
| App.Decide | js/app.js:89-100 | non-empty data replaces; `null` with nothing loaded is the no-data state; otherwise existing records are re-rendered; an empty array with nothing loaded does nothing |
| App.LoadData | js/app.js:83-103 | only the replace branch changes the records; the no-data branch shows its own banner and no rows; other branches show the fetch error's message if any; exactly the replace and re-render branches render |
| App.InitialState | js/app.js:7-14 | the page starts sorted by rank ascending, unfiltered, with an empty search and nothing displayed |
| App.LoadedDataIsDisplayed | js/app.js:89-92 | a successful fetch with records replaces the loaded records, with no banner |
| App.FirstLoadFailure | js/app.js:93-96 | a failed first load enters the no-data state with its banner and loads nothing |
| App.RefreshFailureKeepsRecords | js/app.js:87-92 | after a successful load, a failed forced refresh keeps the records and shows the failure's message |

## Left out

- DOM and presentation: `init`, `attachEventListeners`, `renderTable`'s HTML,
  `updateResultsCount`'s wording, `updateTimestamp`, `showLoading`/`hideLoading`, the banner's
  show/hide calls, and `updateSortIndicators`. The rendered rows, the count and the banner's
  text are modelled as values.
- `js/utils.js` formats numbers for display with locale-dependent and floating-point library
  calls. It is not part of this model.
- `buildApiUrl` builds a constant URL with `URLSearchParams`. The URL is not modelled.
- `fetch`, `response.json()`, `window.dispatchEvent` and `console.warn` are not modelled. The
  response and parsed body are inputs (`Api.FetchOutcome`), and the event's detail is part of
  the result.
- `Date.now()` and `new Date()` are not modelled. The time is the parameter `now`.
- Overlapping fetches racing on the cache slot are not modelled. Each fetch is one atomic step.
- Api.FetchMarketData: a successful fetch stores the same `now` that the freshness check read.
  The code reads `Date.now()` again in `setCachedData`, after the response and its body have
  arrived, so in the model the new entry's window starts when the call starts rather than when
  the data arrives.
- Numbers are exact reals, not IEEE doubles. The infinities and the `NaN` of
  `Infinity - Infinity` in the comparator are modelled explicitly (`SortEngine.Number`).
- Record fields are typed: ranks are integers, names and symbols are strings, and the other
  columns are numbers. A field holding a JSON value of another type is not modelled. So the
  comparator's fallback only ever compares a string with a sentinel, and the stringification of
  finite numbers is never needed. A column name that is not a field of the record reads as
  absent on every record.
- Text.LocaleCompare: code-point lexicographic order stands in for locale collation. The
  general sort lemmas rely only on its being a total order, antisymmetric and transitive. The
  example `SortEngine.AbsentNameBeforeZcash` also relies on `I` sorting before `Z`, which
  locale collation agrees with.
- Text.Lower: only ASCII letters are lowercased. Unicode case mapping is not modelled.
- Text.DecimalString: it states only that the result is a non-empty run of digits, not that
  the digits spell the status, because only the error's name and status decide its
  classification.
- A `searchTerm` that is not a string (`undefined`) is not modelled. The term is always a
  string, and the empty string takes the same branch.
