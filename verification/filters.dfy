/**
 * The filter pipeline: a category selection, a case-insensitive search on name or
 * symbol, and their fixed composition (category first, then search). Every stage is an
 * order-preserving selection from its input.
 */
module Filters {

  import opened Coins
  import opened Seqs
  import opened Text

  /** The category names that narrow the list; `all` and every other string do not. */
  predicate IsCategory(filter: string) {
    filter in {"top10", "top50", "gainers", "losers", "stablecoins"}
  }

  /**
   * JavaScript's `rank <= limit`: `null` converts to 0 and so passes a non-negative
   * limit, `undefined` converts to NaN and fails every comparison.
   */
  predicate RankAtMost(rank: Field<int>, limit: int) {
    match rank
    case Undefined => false
    case Null => 0 <= limit
    case Present(r) => r <= limit
  }

  /**
   * JavaScript's `change !== null && test(change)` where every comparison with
   * `undefined` (or `Math.abs(undefined)`, which is NaN) is false.
   */
  predicate ChangeSatisfies(change: Field<real>, test: real -> bool) {
    change.Present? && test(change.value)
  }

  function Abs(x: real): real {
    if x < 0.0 then -x else x
  }

  /** Whether `coin` belongs to the category named by `filter`. */
  predicate InCategory(coin: Coin, filter: string) {
    if filter == "top10" then RankAtMost(coin.marketCapRank, 10)
    else if filter == "top50" then RankAtMost(coin.marketCapRank, 50)
    else if filter == "gainers" then ChangeSatisfies(coin.priceChange24h, x => x > 0.0)
    else if filter == "losers" then ChangeSatisfies(coin.priceChange24h, x => x < 0.0)
    else if filter == "stablecoins" then ChangeSatisfies(coin.priceChange24h, x => Abs(x) <= 0.5)
    else true
  }

  /** The category test as a value, so that every use names the same function. */
  function CategoryTest(filter: string): Coin -> bool {
    coin => InCategory(coin, filter)
  }

  /** `applyCategoryFilter` on an array. */
  function CategoryFilter(coins: seq<Coin>, filter: string): (r: seq<Coin>)
    ensures !IsCategory(filter) ==> r == coins
    ensures r == Filter(CategoryTest(filter), coins)
  {
    if IsCategory(filter) then Filter(CategoryTest(filter), coins)
    else
      FilterKeepsAll(CategoryTest(filter), coins);
      coins
  }

  /** A missing or null name or symbol reads as the empty string. */
  function TextOrEmpty(field: Field<string>): string {
    if field.Present? then field.value else ""
  }

  /** The needle a raw search box value is turned into: lowercased, then trimmed. */
  function Needle(searchTerm: string): string {
    Trim(Lower(searchTerm))
  }

  /** Whether the lowercased name or symbol of `coin` contains `needle`. */
  predicate MatchesNeedle(coin: Coin, needle: string) {
    || Contains(Lower(TextOrEmpty(coin.name)), needle)
    || Contains(Lower(TextOrEmpty(coin.symbol)), needle)
  }

  /** The search test as a value. */
  function SearchTest(needle: string): Coin -> bool {
    coin => MatchesNeedle(coin, needle)
  }

  /** A search box value that filters nothing: empty, or whitespace only. */
  predicate IsBlank(searchTerm: string) {
    Trim(searchTerm) == ""
  }

  /** `applySearchFilter` on an array. */
  function SearchFilter(coins: seq<Coin>, searchTerm: string): (r: seq<Coin>)
    ensures IsBlank(searchTerm) ==> r == coins
    ensures r == Filter(SearchTest(Needle(searchTerm)), coins)
  {
    if IsBlank(searchTerm) then
      BlankNeedleMatchesAll(coins, searchTerm);
      coins
    else
      Filter(SearchTest(Needle(searchTerm)), coins)
  }

  /** A blank search box yields the empty needle, which every record matches. */
  lemma BlankNeedleMatchesAll(coins: seq<Coin>, searchTerm: string)
    requires IsBlank(searchTerm)
    ensures Filter(SearchTest(Needle(searchTerm)), coins) == coins
  {
    TrimEmptyIff(searchTerm);
    LowerKeepsWhitespace(searchTerm);
    TrimEmptyIff(Lower(searchTerm));
    forall i | 0 <= i < |coins|
      ensures SearchTest(Needle(searchTerm))(coins[i])
    {
      ContainsEmpty(Lower(TextOrEmpty(coins[i].name)));
    }
    FilterKeepsAll(SearchTest(Needle(searchTerm)), coins);
  }

  /** `applyAllFilters` on an array: category first, then search. */
  function AllFilters(coins: seq<Coin>, searchTerm: string, filter: string): seq<Coin> {
    SearchFilter(CategoryFilter(coins, filter), searchTerm)
  }

  /** `applyCategoryFilter`: anything that is not an array yields the empty list. */
  function ApplyCategoryFilter(coins: Input, filter: string): (r: seq<Coin>)
    ensures coins.NotArray? ==> r == []
    ensures coins.Array? ==> |r| <= |coins.items| && forall i :: 0 <= i < |r| ==> InCategory(r[i], filter)
  {
    match coins
    case NotArray => []
    case Array(items) => CategoryFilter(items, filter)
  }

  /** `applySearchFilter`: anything that is not an array yields the empty list. */
  function ApplySearchFilter(coins: Input, searchTerm: string): (r: seq<Coin>)
    ensures coins.NotArray? ==> r == []
    ensures coins.Array? && IsBlank(searchTerm) ==> r == coins.items
    ensures coins.Array? ==> |r| <= |coins.items| && forall i :: 0 <= i < |r| ==> MatchesNeedle(r[i], Needle(searchTerm))
  {
    match coins
    case NotArray => []
    case Array(items) => SearchFilter(items, searchTerm)
  }

  /** `applyAllFilters`: anything that is not an array yields the empty list. */
  function ApplyAllFilters(coins: Input, searchTerm: string, filter: string): (r: seq<Coin>)
    ensures coins.NotArray? ==> r == []
    ensures coins.Array? ==> |r| <= |coins.items|
    ensures coins.Array? ==> forall i :: 0 <= i < |r| ==>
              InCategory(r[i], filter) && (IsBlank(searchTerm) || MatchesNeedle(r[i], Needle(searchTerm)))
  {
    match coins
    case NotArray => []
    case Array(items) =>
      AllFiltersSound(items, searchTerm, filter);
      AllFilters(items, searchTerm, filter)
  }

  // ----- Properties -----

  /** A value that is not an array yields the empty list from all three entry points. */
  lemma NotArrayYieldsEmpty(searchTerm: string, filter: string)
    ensures ApplyCategoryFilter(NotArray, filter) == []
    ensures ApplySearchFilter(NotArray, searchTerm) == []
    ensures ApplyAllFilters(NotArray, searchTerm, filter) == []
  {
  }

  /** The entry point is the search filter applied to the category filter's result. */
  lemma ApplyAllFiltersComposes(coins: Input, searchTerm: string, filter: string)
    ensures ApplyAllFilters(coins, searchTerm, filter)
         == ApplySearchFilter(Array(ApplyCategoryFilter(coins, filter)), searchTerm)
  {
  }

  /**
   * The category filter keeps exactly the records of the category, in their original
   * relative order, and every record of the category in the input survives.
   */
  lemma CategoryFilterSelects(coins: seq<Coin>, filter: string) returns (idx: seq<int>)
    ensures IsEmbedding(idx, CategoryFilter(coins, filter), coins)
    ensures forall k :: 0 <= k < |coins| && InCategory(coins[k], filter) ==> Lists(idx, k)
    ensures forall c :: c in CategoryFilter(coins, filter) <==> c in coins && InCategory(c, filter)
  {
    idx := FilterPositions(CategoryTest(filter), coins);
    forall c
      ensures c in CategoryFilter(coins, filter) <==> c in coins && InCategory(c, filter)
    {
      FilterMembership(CategoryTest(filter), coins, c);
    }
  }

  /** `all` and every unrecognised filter name hand back the input itself. */
  lemma UnknownCategoryKeepsAll(coins: seq<Coin>, filter: string)
    requires !IsCategory(filter)
    ensures CategoryFilter(coins, filter) == coins
    ensures ApplyCategoryFilter(Array(coins), filter) == coins
  {
  }

  /** The membership test of each category, spelled out. */
  lemma CategoryMeaning(coin: Coin)
    ensures InCategory(coin, "top10") <==> coin.marketCapRank.Null?
                                           || (coin.marketCapRank.Present? && coin.marketCapRank.value <= 10)
    ensures InCategory(coin, "top50") <==> coin.marketCapRank.Null?
                                           || (coin.marketCapRank.Present? && coin.marketCapRank.value <= 50)
    ensures InCategory(coin, "gainers") <==> coin.priceChange24h.Present? && coin.priceChange24h.value > 0.0
    ensures InCategory(coin, "losers") <==> coin.priceChange24h.Present? && coin.priceChange24h.value < 0.0
    ensures InCategory(coin, "stablecoins") <==> coin.priceChange24h.Present?
                                                 && -0.5 <= coin.priceChange24h.value <= 0.5
    ensures InCategory(coin, "all")
  {
  }

  /** No record is both a gainer and a loser, and a change of exactly 0 or none at all is neither. */
  lemma GainersLosersDisjoint(coin: Coin)
    ensures !(InCategory(coin, "gainers") && InCategory(coin, "losers"))
    ensures coin.priceChange24h == Present(0.0) || !coin.priceChange24h.Present?
            ==> !InCategory(coin, "gainers") && !InCategory(coin, "losers")
  {
  }

  /**
   * The search keeps exactly the records whose lowercased name or symbol contains the
   * needle, in their original relative order; a blank search box keeps everything.
   */
  lemma SearchFilterSelects(coins: seq<Coin>, searchTerm: string) returns (idx: seq<int>)
    ensures IsEmbedding(idx, SearchFilter(coins, searchTerm), coins)
    ensures forall k :: 0 <= k < |coins| && MatchesNeedle(coins[k], Needle(searchTerm)) ==> Lists(idx, k)
    ensures forall c :: c in SearchFilter(coins, searchTerm) <==>
              c in coins && (IsBlank(searchTerm) || MatchesNeedle(c, Needle(searchTerm)))
  {
    idx := FilterPositions(SearchTest(Needle(searchTerm)), coins);
    forall c
      ensures c in SearchFilter(coins, searchTerm) <==>
              c in coins && (IsBlank(searchTerm) || MatchesNeedle(c, Needle(searchTerm)))
    {
      FilterMembership(SearchTest(Needle(searchTerm)), coins, c);
    }
  }

  /** The combined filter keeps exactly the records in the category that match the search. */
  lemma AllFiltersMembership(coins: seq<Coin>, searchTerm: string, filter: string, c: Coin)
    ensures c in AllFilters(coins, searchTerm, filter) <==>
            && c in coins
            && InCategory(c, filter)
            && (IsBlank(searchTerm) || MatchesNeedle(c, Needle(searchTerm)))
  {
    FilterMembership(CategoryTest(filter), coins, c);
    FilterMembership(SearchTest(Needle(searchTerm)), CategoryFilter(coins, filter), c);
  }

  /** Every record both filters keep is in the category and matches the search. */
  lemma AllFiltersSound(coins: seq<Coin>, searchTerm: string, filter: string)
    ensures var r := AllFilters(coins, searchTerm, filter);
            forall i :: 0 <= i < |r| ==>
              InCategory(r[i], filter) && (IsBlank(searchTerm) || MatchesNeedle(r[i], Needle(searchTerm)))
  {
    var r := AllFilters(coins, searchTerm, filter);
    forall i | 0 <= i < |r|
      ensures InCategory(r[i], filter) && (IsBlank(searchTerm) || MatchesNeedle(r[i], Needle(searchTerm)))
    {
      AllFiltersMembership(coins, searchTerm, filter, r[i]);
    }
  }

  /** Filtering an already filtered list with the same settings changes nothing. */
  lemma AllFiltersIdempotent(coins: seq<Coin>, searchTerm: string, filter: string)
    ensures AllFilters(AllFilters(coins, searchTerm, filter), searchTerm, filter)
         == AllFilters(coins, searchTerm, filter)
  {
    var p, q := CategoryTest(filter), SearchTest(Needle(searchTerm));
    calc {
      AllFilters(AllFilters(coins, searchTerm, filter), searchTerm, filter);
      Filter(q, Filter(p, Filter(q, Filter(p, coins))));
      { FilterCommutes(p, q, Filter(p, coins)); }
      Filter(q, Filter(q, Filter(p, Filter(p, coins))));
      { FilterIdempotent(p, coins); FilterIdempotent(q, Filter(p, coins)); }
      Filter(q, Filter(p, coins));
    }
  }

  /** The search filter on its own is idempotent as well. */
  lemma SearchFilterIdempotent(coins: seq<Coin>, searchTerm: string)
    ensures SearchFilter(SearchFilter(coins, searchTerm), searchTerm) == SearchFilter(coins, searchTerm)
  {
    FilterIdempotent(SearchTest(Needle(searchTerm)), coins);
  }

  // ----- Worked examples -----

  /** Twenty records ranked 1 to 20: `top10` keeps the first ten, in order. */
  lemma Top10OfTwenty()
    ensures var coins := seq(20, i => RankedCoin(Present(i + 1)));
            CategoryFilter(coins, "top10") == coins[..10]
  {
    var coins := seq(20, i => RankedCoin(Present(i + 1)));
    FilterPrefix(CategoryTest("top10"), coins, 10);
  }

  /** A null rank passes `top10` while a missing one does not. */
  lemma NullRankIsTop10()
    ensures CategoryFilter([RankedCoin(Null), RankedCoin(Undefined)], "top10") == [RankedCoin(Null)]
  {
  }

  /** Changes 0.3, 0.6 and -0.5: the stablecoin filter keeps 0.3 and -0.5. */
  lemma StablecoinBoundary()
    ensures var a, b, c := ChangeCoin(0.3), ChangeCoin(0.6), ChangeCoin(-0.5);
            CategoryFilter([a, b, c], "stablecoins") == [a, c]
  {
    var a, b, c := ChangeCoin(0.3), ChangeCoin(0.6), ChangeCoin(-0.5);
    var p := CategoryTest("stablecoins");
    assert p(a) && !p(b) && p(c);
    assert [a, b, c][1..] == [b, c] && [b, c][1..] == [c] && [c][1..] == [];
    assert Filter(p, [c]) == [c];
    assert Filter(p, [b, c]) == [c];
  }

  lemma LowerNames()
    ensures Lower("Bitcoin") == "bitcoin" && Lower("Litecoin") == "litecoin"
  {
    LowerOfLowercase("itcoin");
    LowerOfLowercase("itecoin");
    LowerCapitalised('B', "itcoin");
    LowerCapitalised('L', "itecoin");
  }

  lemma LowerSymbols()
    ensures Lower("BTC") == "btc" && Lower("LTC") == "ltc"
  {
    LowerCapitalised('B', "TC");
    LowerCapitalised('L', "TC");
    LowerCapitalised('T', "C");
    LowerCapitalised('C', "");
  }

  lemma Needles()
    ensures Needle("coin") == "coin" && Needle("BTC") == "btc"
  {
    NeedleCoin();
    NeedleBtc();
  }

  lemma NeedleCoin()
    ensures Needle("coin") == "coin"
  {
    LowerOfLowercase("coin");
    assert !IsWhitespace('c') && !IsWhitespace('n');
    NeedleIs("coin", "coin");
  }

  lemma NeedleBtc()
    ensures Needle("BTC") == "btc"
  {
    LowerSymbols();
    assert !IsWhitespace('b') && !IsWhitespace('c');
    NeedleIs("BTC", "btc");
  }

  /** A search value whose lowercase form has no whitespace at either end is its own needle. */
  lemma NeedleIs(raw: string, lowered: string)
    requires Lower(raw) == lowered
    requires |lowered| > 0 && !IsWhitespace(lowered[0]) && !IsWhitespace(lowered[|lowered| - 1])
    ensures Needle(raw) == lowered
  {
    TrimUntouched(lowered);
  }

  lemma LowerOfLowercase(s: string)
    requires forall i :: 0 <= i < |s| ==> !('A' <= s[i] <= 'Z')
    ensures Lower(s) == s
  {
  }

  lemma LowerCapitalised(c: char, s: string)
    ensures Lower([c] + s) == [LowerChar(c)] + Lower(s)
  {
    assert forall i :: 1 <= i <= |s| ==> ([c] + s)[i] == s[i - 1];
  }

  function ChangeCoin(change: real): Coin {
    Coin(Undefined, Undefined, Undefined, Undefined, Present(change), Undefined, Undefined)
  }

  function NamedCoin(name: string, symbol: string): Coin {
    Coin(Undefined, Present(name), Present(symbol), Undefined, Undefined, Undefined, Undefined)
  }

  /** "coin" finds both Bitcoin and Litecoin by name; "BTC" finds only Bitcoin, by symbol. */
  lemma SearchByNameAndSymbol()
    ensures var btc, ltc := NamedCoin("Bitcoin", "BTC"), NamedCoin("Litecoin", "LTC");
            && SearchFilter([btc, ltc], "coin") == [btc, ltc]
            && SearchFilter([btc, ltc], "BTC") == [btc]
  {
    SearchCoin();
    SearchBtc();
  }

  lemma SearchCoin()
    ensures var btc, ltc := NamedCoin("Bitcoin", "BTC"), NamedCoin("Litecoin", "LTC");
            SearchFilter([btc, ltc], "coin") == [btc, ltc]
  {
    var btc, ltc := NamedCoin("Bitcoin", "BTC"), NamedCoin("Litecoin", "LTC");
    LowerNames();
    Needles();
    assert OccursAt("bitcoin", "coin", 3);
    assert OccursAt("litecoin", "coin", 4);
    ContainsIff("bitcoin", "coin");
    ContainsIff("litecoin", "coin");
    assert SearchTest("coin")(btc) && SearchTest("coin")(ltc);
    FilterKeepsAll(SearchTest("coin"), [btc, ltc]);
  }

  lemma LitecoinLacksBtc()
    ensures !Contains("litecoin", "btc") && !Contains("ltc", "btc")
  {
    assert 'b' !in "litecoin" && 'b' !in "ltc";
    if Contains("litecoin", "btc") {
      ContainsFirstChar("litecoin", "btc");
    }
    if Contains("ltc", "btc") {
      ContainsFirstChar("ltc", "btc");
    }
  }

  lemma SearchBtc()
    ensures var btc, ltc := NamedCoin("Bitcoin", "BTC"), NamedCoin("Litecoin", "LTC");
            SearchFilter([btc, ltc], "BTC") == [btc]
  {
    var btc, ltc := NamedCoin("Bitcoin", "BTC"), NamedCoin("Litecoin", "LTC");
    Needles();
    BtcTestSelectsBitcoin();
  }

  lemma BtcTestSelectsBitcoin()
    ensures var btc, ltc := NamedCoin("Bitcoin", "BTC"), NamedCoin("Litecoin", "LTC");
            Filter(SearchTest("btc"), [btc, ltc]) == [btc]
  {
    var btc, ltc := NamedCoin("Bitcoin", "BTC"), NamedCoin("Litecoin", "LTC");
    var test := SearchTest("btc");
    assert test(btc) by {
      LowerSymbols();
      assert "btc"[..3] == "btc";
    }
    assert !test(ltc) by {
      LowerNames();
      LowerSymbols();
      LitecoinLacksBtc();
    }
    assert [btc, ltc][1..] == [ltc] && [ltc][1..] == [];
    assert Filter(test, [ltc]) == [];
  }
}
