/**
 * The dashboard's controller: its state record, the handlers that change it, the list it
 * displays, and the decision `loadData` takes on what the fetcher returned. The page's
 * module-level variables become one `AppState` value; each handler maps a state to the next.
 */
module App {

  import opened Wrappers
  import opened Coins
  import opened Seqs
  import opened Sorting
  import opened Filters
  import opened SortEngine
  import Api

  /** `currentSort`. */
  datatype SortState = SortState(column: string, direction: string)

  /** `allCoins`, `currentSort`, `currentFilter` and `searchTerm`. */
  datatype AppState = AppState(allCoins: seq<Coin>, sort: SortState, filter: string, searchTerm: string)

  /** The state as the page loads. */
  const Initial := AppState([], SortState("market_cap_rank", "asc"), "all", "")

  /** The banner `loadData` shows when nothing could be loaded and nothing was loaded before. */
  const NoDataMessage := "Unable to load cryptocurrency data. Please check your connection and try again."

  // ---------------------------------------------------------------- the displayed list

  /**
   * `filteredCoins` as `applyFiltersAndSort` computes it: the records that pass the category
   * and the search, ordered by the current column and direction.
   */
  function DisplayedCoins(state: AppState): (r: seq<Coin>)
    ensures |r| <= |state.allCoins|
    ensures SortedBy(r, NotAfter(state.sort.column, state.sort.direction))
    ensures multiset(r) == multiset(AllFilters(state.allCoins, state.searchTerm, state.filter))
  {
    SortList(AllFilters(state.allCoins, state.searchTerm, state.filter), state.sort.column, state.sort.direction)
  }

  /** What one render leaves on screen: the table rows and the results count. */
  datatype View = View(rows: seq<Coin>, count: nat)

  /** `applyFiltersAndSort`: render the displayed list and count its rows. */
  function ApplyFiltersAndSort(state: AppState): (r: View)
    ensures r.count == |r.rows| <= |state.allCoins|
    ensures forall c :: c in r.rows <==> c in AllFilters(state.allCoins, state.searchTerm, state.filter)
  {
    var rows := DisplayedCoins(state);
    assert forall c :: c in rows <==> c in multiset(rows);
    View(rows, |rows|)
  }

  // ---------------------------------------------------------------- handlers

  /** `handleSort(column)`: the current column flips direction; another column starts ascending. */
  function HandleSort(state: AppState, column: string): (r: AppState)
    ensures r.allCoins == state.allCoins && r.filter == state.filter && r.searchTerm == state.searchTerm
    ensures r.sort.column == column
    ensures column == state.sort.column ==>
              (IsAscending(r.sort.direction) <==> !IsAscending(state.sort.direction))
    ensures column != state.sort.column ==> IsAscending(r.sort.direction)
    ensures r.sort.direction in {"asc", "desc"}
  {
    if state.sort.column == column then
      state.(sort := SortState(column, ToggleSortDirection(state.sort.direction)))
    else
      state.(sort := SortState(column, "asc"))
  }

  /** `handleSearch`: the new term replaces the old one; nothing else changes. */
  function HandleSearch(state: AppState, value: string): (r: AppState)
    ensures r.searchTerm == value
    ensures r.(searchTerm := state.searchTerm) == state
  {
    state.(searchTerm := value)
  }

  /** `handleFilterChange`: the new category replaces the old one; nothing else changes. */
  function HandleFilterChange(state: AppState, value: string): (r: AppState)
    ensures r.filter == value
    ensures r.(filter := state.filter) == state
  {
    state.(filter := value)
  }

  // ---------------------------------------------------------------- loading

  /** The four ways `loadData` can end, in the order its branches are tried. */
  datatype LoadDecision = Replaced | NoData | Rerendered | Untouched

  /** The branch `loadData` takes for what `fetchMarketData` returned. */
  function Decide(data: Option<seq<Coin>>, allCoins: seq<Coin>): (d: LoadDecision)
    ensures d == Replaced <==> data.Some? && |data.value| > 0
    ensures d == NoData <==> data.None? && |allCoins| == 0
    ensures d == Rerendered <==> !(data.Some? && |data.value| > 0) && |allCoins| > 0
    ensures d == Untouched <==> data == Some([]) && |allCoins| == 0
  {
    if data.Some? && |data.value| > 0 then Replaced
    else if data.None? && |allCoins| == 0 then NoData
    else if |allCoins| > 0 then Rerendered
    else Untouched
  }

  /**
   * One call of `loadData`: the next state and cache, the branch taken, the view rendered by
   * it if any, the error banner left visible, and the fetch's own result.
   */
  datatype LoadResult = LoadResult(
    state: AppState,
    cache: Api.CacheState,
    decision: LoadDecision,
    view: Option<View>,
    banner: Option<string>,
    fetched: Api.FetchResult
  )

  /**
   * `loadData(forceRefresh)`. The banner is hidden first; the fetcher's error event shows its
   * message; the no-data branch then overwrites it with its own.
   */
  function LoadData(state: AppState, cache: Api.CacheState, now: int, forceRefresh: bool, outcome: Api.FetchOutcome): (r: LoadResult)
    ensures r.fetched == Api.FetchMarketData(cache, now, forceRefresh, outcome) && r.cache == r.fetched.cache
    ensures r.decision == Decide(r.fetched.data, state.allCoins)
    ensures r.decision == Replaced ==> r.state == state.(allCoins := r.fetched.data.value)
    ensures r.decision != Replaced ==> r.state == state
    ensures r.decision == NoData ==> r.banner == Some(NoDataMessage) && r.view.None? && |r.state.allCoins| == 0
    ensures r.decision != NoData ==> r.banner == (if r.fetched.error.Some? then Some(r.fetched.error.value.message) else None)
    ensures r.decision in {Replaced, Rerendered} <==> r.view == Some(ApplyFiltersAndSort(r.state))
    ensures r.decision in {NoData, Untouched} <==> r.view.None?
  {
    var fetched := Api.FetchMarketData(cache, now, forceRefresh, outcome);
    var shown := if fetched.error.Some? then Some(fetched.error.value.message) else None;
    var decision := Decide(fetched.data, state.allCoins);
    match decision
    case Replaced =>
      var next := state.(allCoins := fetched.data.value);
      LoadResult(next, fetched.cache, decision, Some(ApplyFiltersAndSort(next)), shown, fetched)
    case NoData =>
      LoadResult(state, fetched.cache, decision, None, Some(NoDataMessage), fetched)
    case Rerendered =>
      LoadResult(state, fetched.cache, decision, Some(ApplyFiltersAndSort(state)), shown, fetched)
    case Untouched =>
      LoadResult(state, fetched.cache, decision, None, shown, fetched)
  }

  // ---------------------------------------------------------------- properties

  /** The page starts sorted by rank, ascending, unfiltered, with nothing to display. */
  lemma InitialState()
    ensures Initial.sort.column == "market_cap_rank" && IsAscending(Initial.sort.direction)
    ensures !IsCategory(Initial.filter) && IsBlank(Initial.searchTerm)
    ensures ApplyFiltersAndSort(Initial) == View([], 0)
  {
  }

  /** Activating the same column twice restores the sort, when the direction is one of the two. */
  lemma SameColumnTwiceRestores(state: AppState)
    requires state.sort.direction in {"asc", "desc"}
    ensures HandleSort(HandleSort(state, state.sort.column), state.sort.column) == state
  {
  }

  /** Activating another column and then the same one again sorts it descending. */
  lemma NewColumnThenAgainDescends(state: AppState, column: string)
    requires column != state.sort.column
    ensures HandleSort(HandleSort(state, column), column).sort == SortState(column, "desc")
  {
  }

  /** A record is displayed exactly when it is loaded, in the category and matches the search. */
  lemma DisplayedMembership(state: AppState, c: Coin)
    ensures c in DisplayedCoins(state) <==>
            && c in state.allCoins
            && InCategory(c, state.filter)
            && (IsBlank(state.searchTerm) || MatchesNeedle(c, Needle(state.searchTerm)))
  {
    var filtered := AllFilters(state.allCoins, state.searchTerm, state.filter);
    assert c in DisplayedCoins(state) <==> c in filtered by {
      assert c in DisplayedCoins(state) <==> c in multiset(DisplayedCoins(state));
      assert c in filtered <==> c in multiset(filtered);
    }
    AllFiltersMembership(state.allCoins, state.searchTerm, state.filter, c);
  }

  /** After a search, the display holds exactly the loaded records of the category that match the new term. */
  lemma SearchRefilters(state: AppState, value: string, c: Coin)
    ensures c in DisplayedCoins(HandleSearch(state, value)) <==>
            && c in state.allCoins
            && InCategory(c, state.filter)
            && (IsBlank(value) || MatchesNeedle(c, Needle(value)))
  {
    DisplayedMembership(HandleSearch(state, value), c);
  }

  /** After a category change, the display holds exactly the loaded records of the new category that match the search. */
  lemma FilterChangeRefilters(state: AppState, value: string, c: Coin)
    ensures c in DisplayedCoins(HandleFilterChange(state, value)) <==>
            && c in state.allCoins
            && InCategory(c, value)
            && (IsBlank(state.searchTerm) || MatchesNeedle(c, Needle(state.searchTerm)))
  {
    DisplayedMembership(HandleFilterChange(state, value), c);
  }

  /** Fresh, non-empty data replaces the loaded records and is what gets displayed. */
  lemma LoadedDataIsDisplayed(state: AppState, cache: Api.CacheState, now: int, forceRefresh: bool, outcome: Api.FetchOutcome)
    requires Api.Succeeds(outcome) && |outcome.body.json.items| > 0
    requires forceRefresh || !Api.IsCacheValid(cache, now)
    ensures var r := LoadData(state, cache, now, forceRefresh, outcome);
            r.decision == Replaced && r.state.allCoins == outcome.body.json.items && r.banner.None?
  {
  }

  /** Nothing fetched and nothing loaded before: the no-data state, with its own banner. */
  lemma FirstLoadFailure(now: int, outcome: Api.FetchOutcome)
    requires !Api.Succeeds(outcome)
    ensures var r := LoadData(Initial, Api.EmptyCache, now, false, outcome);
            r.decision == NoData && r.state == Initial && r.banner == Some(NoDataMessage)
  {
  }

  /** A failure after a successful load keeps the records and shows the failure's message. */
  lemma RefreshFailureKeepsRecords(
    state: AppState, items: seq<Coin>, cache: Api.CacheState, t: int, later: int, outcome: Api.FetchOutcome)
    requires |items| > 0 && !Api.Succeeds(outcome)
    ensures var first := LoadData(state, Api.EmptyCache, t, true, Api.Responded(200, Api.Parsed(Api.JsonArray(items))));
            var second := LoadData(first.state, first.cache, later, true, outcome);
            && second.state.allCoins == items
            && second.decision == Replaced
            && second.banner.Some?
            && second.banner.value == Api.MessageOf(Api.ExpectedKind(outcome))
  {
    var first := LoadData(state, Api.EmptyCache, t, true, Api.Responded(200, Api.Parsed(Api.JsonArray(items))));
    Api.FailureClassified(first.cache, later, true, outcome);
  }
}
