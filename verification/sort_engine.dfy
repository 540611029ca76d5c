/**
 * The sort engine: `sortCoins` orders a copy of the list by one column and direction
 * with a comparator that turns absent values into an infinite sentinel, compares numbers
 * by difference and strings with `localeCompare`, and falls back to comparing the text of
 * mixed values. `toggleSortDirection` flips the direction.
 */
module SortEngine {

  import opened Wrappers
  import opened Coins
  import opened Text
  import opened Seqs
  import opened Sorting

  /** The JavaScript numbers the comparator can see: the reals, both infinities and NaN. */
  datatype Number = NaN | NegInf | Finite(value: real) | PosInf

  /** IEEE subtraction on those numbers; `Infinity - Infinity` is NaN. */
  function Subtract(a: Number, b: Number): Number {
    match (a, b)
    case (NaN, _) => NaN
    case (_, NaN) => NaN
    case (Finite(x), Finite(y)) => Finite(x - y)
    case (PosInf, PosInf) => NaN
    case (NegInf, NegInf) => NaN
    case (PosInf, _) => PosInf
    case (NegInf, _) => NegInf
    case (Finite(_), PosInf) => NegInf
    case (Finite(_), NegInf) => PosInf
  }

  /**
   * How `Array.prototype.sort` reads a comparator's result: its sign, with NaN read as 0
   * (SortCompare, section 23.1.3.30.2 of ECMA-262).
   */
  function SignOf(n: Number): int {
    match n
    case NaN => 0
    case NegInf => -1
    case PosInf => 1
    case Finite(x) => if x < 0.0 then -1 else if x > 0.0 then 1 else 0
  }

  /** Only the exact string `asc` means ascending; every other direction sorts descending. */
  predicate IsAscending(direction: string) {
    direction == "asc"
  }

  /** `toggleSortDirection`. */
  function ToggleSortDirection(direction: string): (r: string)
    ensures IsAscending(direction) <==> r == "desc"
    ensures !IsAscending(direction) <==> r == "asc"
  {
    if IsAscending(direction) then "desc" else "asc"
  }

  /** The columns that hold text; every other column name reads as a number or nothing. */
  predicate IsTextColumn(column: string) {
    column == "name" || column == "symbol"
  }

  function NumberOf<T>(field: Field<T>, toReal: T -> real): Option<real> {
    if field.Present? then Some(toReal(field.value)) else None
  }

  /** `coin[column]` on a numeric or unknown column: `None` for null, undefined or no such field. */
  function NumericKey(coin: Coin, column: string): Option<real> {
    if column == "market_cap_rank" then NumberOf(coin.marketCapRank, (r: int) => r as real)
    else if column == "current_price" then NumberOf(coin.currentPrice, (x: real) => x)
    else if column == "price_change_percentage_24h" then NumberOf(coin.priceChange24h, (x: real) => x)
    else if column == "total_volume" then NumberOf(coin.totalVolume, (x: real) => x)
    else if column == "market_cap" then NumberOf(coin.marketCap, (x: real) => x)
    else None
  }

  /** `coin[column]` on a text column: `None` for null or undefined. */
  function TextKey(coin: Coin, column: string): Option<string> {
    var field := if column == "name" then coin.name else coin.symbol;
    if field.Present? then Some(field.value) else None
  }

  /** The value an absent key is replaced by: `Infinity` ascending, `-Infinity` otherwise. */
  function Sentinel(ascending: bool): Number {
    if ascending then PosInf else NegInf
  }

  /** `String(Infinity)` and `String(-Infinity)`. */
  function SentinelText(ascending: bool): string {
    if ascending then "Infinity" else "-Infinity"
  }

  /** The numeric branch: `a - b` ascending, `b - a` otherwise. */
  function CompareNumbers(a: Number, b: Number, ascending: bool): int {
    if ascending then SignOf(Subtract(a, b)) else SignOf(Subtract(b, a))
  }

  /** The comparator on a numeric column, absent values replaced by the sentinel. */
  function CompareNumericKeys(a: Option<real>, b: Option<real>, ascending: bool): int {
    var x := if a.Some? then Finite(a.value) else Sentinel(ascending);
    var y := if b.Some? then Finite(b.value) else Sentinel(ascending);
    CompareNumbers(x, y, ascending)
  }

  /**
   * The comparator on a text column. Two strings take the `localeCompare` branch; two
   * sentinels are both numbers and take the numeric branch; a string against a sentinel
   * takes the fallback, which compares the sentinel's text.
   */
  function CompareTextKeys(a: Option<string>, b: Option<string>, ascending: bool): int {
    if a.None? && b.None? then
      CompareNumbers(Sentinel(ascending), Sentinel(ascending), ascending)
    else
      var x := if a.Some? then a.value else SentinelText(ascending);
      var y := if b.Some? then b.value else SentinelText(ascending);
      var comparison := LocaleCompare(x, y);
      if ascending then comparison else -comparison
  }

  /** The comparator `sortCoins` hands to `Array.prototype.sort`. */
  function CompareCoins(a: Coin, b: Coin, column: string, direction: string): int {
    if IsTextColumn(column) then
      CompareTextKeys(TextKey(a, column), TextKey(b, column), IsAscending(direction))
    else
      CompareNumericKeys(NumericKey(a, column), NumericKey(b, column), IsAscending(direction))
  }

  /** "`a` may stay before `b`": the comparator does not put `a` after `b`. */
  function NotAfter(column: string, direction: string): (Coin, Coin) -> bool {
    (a: Coin, b: Coin) => CompareCoins(a, b, column, direction) <= 0
  }

  /** `sortCoins` on an array: a sorted copy; the input is a value and is left as it was. */
  function SortList(coins: seq<Coin>, column: string, direction: string): (r: seq<Coin>)
    ensures multiset(r) == multiset(coins)
    ensures |r| == |coins|
    ensures SortedBy(r, NotAfter(column, direction))
  {
    NotAfterIsTotalPreorder(column, direction);
    InsertionSortSorted(coins, NotAfter(column, direction));
    var r := InsertionSort(coins, NotAfter(column, direction));
    assert |r| == |multiset(r)| == |multiset(coins)| == |coins|;
    r
  }

  /** `sortCoins`: an array is copied and ordered by the comparator; anything else yields the empty list. */
  function SortCoins(coins: Input, column: string, direction: string): (r: seq<Coin>)
    ensures coins.NotArray? ==> r == []
    ensures coins.Array? ==> multiset(r) == multiset(coins.items) && |r| == |coins.items|
    ensures coins.Array? ==> SortedBy(r, NotAfter(column, direction))
  {
    match coins
    case NotArray => []
    case Array(items) => SortList(items, column, direction)
  }

  // ----- The comparator is a consistent total preorder -----

  /** The order the numeric comparator induces: a rank on the extended reals. */
  predicate NumberLe(a: Number, b: Number) {
    match (a, b)
    case (NegInf, _) => true
    case (_, PosInf) => true
    case (Finite(x), Finite(y)) => x <= y
    case _ => a == b
  }

  lemma CompareNumbersMeaning(a: Number, b: Number, ascending: bool)
    requires !a.NaN? && !b.NaN?
    ensures ascending ==> (CompareNumbers(a, b, ascending) <= 0 <==> NumberLe(a, b))
    ensures !ascending ==> (CompareNumbers(a, b, ascending) <= 0 <==> NumberLe(b, a))
  {
  }

  lemma NotAfterIsTotalPreorder(column: string, direction: string)
    ensures TotalPreorder(NotAfter(column, direction))
  {
    var le := NotAfter(column, direction);
    forall a, b
      ensures le(a, b) || le(b, a)
    {
      CompareCoinsAntisymmetric(a, b, column, direction);
    }
    forall a, b, c | le(a, b) && le(b, c)
      ensures le(a, c)
    {
      CompareCoinsTransitive(a, b, c, column, direction);
    }
  }

  /** Swapping the records negates the comparator's verdict. */
  lemma CompareCoinsAntisymmetric(a: Coin, b: Coin, column: string, direction: string)
    ensures CompareCoins(b, a, column, direction) == -CompareCoins(a, b, column, direction)
  {
    if IsTextColumn(column) {
      var asc := IsAscending(direction);
      var x, y := TextKey(a, column), TextKey(b, column);
      var sx := if x.Some? then x.value else SentinelText(asc);
      var sy := if y.Some? then y.value else SentinelText(asc);
      LocaleCompareAntisymmetric(sx, sy);
    }
  }

  /** The text comparator is directional `localeCompare` on keys with the sentinel's text. */
  lemma CompareTextKeysAsText(a: Option<string>, b: Option<string>, ascending: bool)
    ensures var x := if a.Some? then a.value else SentinelText(ascending);
            var y := if b.Some? then b.value else SentinelText(ascending);
            CompareTextKeys(a, b, ascending) == if ascending then LocaleCompare(x, y) else -LocaleCompare(x, y)
  {
  }

  lemma CompareCoinsTransitive(a: Coin, b: Coin, c: Coin, column: string, direction: string)
    requires CompareCoins(a, b, column, direction) <= 0 && CompareCoins(b, c, column, direction) <= 0
    ensures CompareCoins(a, c, column, direction) <= 0
  {
    var asc := IsAscending(direction);
    if IsTextColumn(column) {
      var ka, kb, kc := TextKey(a, column), TextKey(b, column), TextKey(c, column);
      CompareTextKeysAsText(ka, kb, asc);
      CompareTextKeysAsText(kb, kc, asc);
      CompareTextKeysAsText(ka, kc, asc);
      var x := if ka.Some? then ka.value else SentinelText(asc);
      var y := if kb.Some? then kb.value else SentinelText(asc);
      var z := if kc.Some? then kc.value else SentinelText(asc);
      if asc {
        LocaleCompareTransitive(x, y, z);
      } else {
        LocaleCompareAntisymmetric(x, y);
        LocaleCompareAntisymmetric(y, z);
        LocaleCompareAntisymmetric(x, z);
        LocaleCompareTransitive(z, y, x);
      }
    }
  }

  // ----- What the sorted list looks like -----

  /** The JavaScript value a numeric key stands for once absent values are replaced. */
  function Substituted(key: Option<real>, ascending: bool): Number {
    if key.Some? then Finite(key.value) else Sentinel(ascending)
  }

  /**
   * On a numeric column the present keys come out non-decreasing when ascending and
   * non-increasing otherwise, and in both directions every record without a key comes
   * after every record with one.
   */
  lemma NumericColumnOrder(coins: seq<Coin>, column: string, direction: string)
    requires !IsTextColumn(column)
    ensures var r := SortList(coins, column, direction);
            forall i, j :: 0 <= i < j < |r| && NumericKey(r[i], column).Some? && NumericKey(r[j], column).Some? ==>
              if IsAscending(direction) then NumericKey(r[i], column).value <= NumericKey(r[j], column).value
              else NumericKey(r[i], column).value >= NumericKey(r[j], column).value
    ensures var r := SortList(coins, column, direction);
            forall i, j :: 0 <= i < j < |r| && NumericKey(r[i], column).None? ==> NumericKey(r[j], column).None?
  {
    var r := SortList(coins, column, direction);
    var asc := IsAscending(direction);
    forall i, j | 0 <= i < j < |r|
      ensures NumericKey(r[i], column).Some? && NumericKey(r[j], column).Some? ==>
              if asc then NumericKey(r[i], column).value <= NumericKey(r[j], column).value
              else NumericKey(r[i], column).value >= NumericKey(r[j], column).value
      ensures NumericKey(r[i], column).None? ==> NumericKey(r[j], column).None?
    {
      assert NotAfter(column, direction)(r[i], r[j]);
      var x, y := NumericKey(r[i], column), NumericKey(r[j], column);
      CompareNumbersMeaning(Substituted(x, asc), Substituted(y, asc), asc);
    }
  }

  /**
   * On a text column two present keys come out in `localeCompare` order, reversed when
   * not ascending.
   */
  lemma TextColumnOrder(coins: seq<Coin>, column: string, direction: string)
    requires IsTextColumn(column)
    ensures var r := SortList(coins, column, direction);
            forall i, j :: 0 <= i < j < |r| && TextKey(r[i], column).Some? && TextKey(r[j], column).Some? ==>
              if IsAscending(direction) then LocaleCompare(TextKey(r[i], column).value, TextKey(r[j], column).value) <= 0
              else LocaleCompare(TextKey(r[i], column).value, TextKey(r[j], column).value) >= 0
  {
    var r := SortList(coins, column, direction);
    forall i, j | 0 <= i < j < |r| && TextKey(r[i], column).Some? && TextKey(r[j], column).Some?
      ensures if IsAscending(direction) then LocaleCompare(TextKey(r[i], column).value, TextKey(r[j], column).value) <= 0
              else LocaleCompare(TextKey(r[i], column).value, TextKey(r[j], column).value) >= 0
    {
      assert NotAfter(column, direction)(r[i], r[j]);
    }
  }

  /**
   * Records the comparator ties keep their input order: for any record `k`, the records
   * tied with it appear in the output in the same order as in the input.
   */
  lemma SortListStable(coins: seq<Coin>, column: string, direction: string, k: Coin)
    ensures var le := NotAfter(column, direction);
            Filter(EquivalentTo(k, le), SortList(coins, column, direction)) == Filter(EquivalentTo(k, le), coins)
  {
    NotAfterIsTotalPreorder(column, direction);
    InsertionSortStable(coins, NotAfter(column, direction), k);
  }

  /**
   * Descending negates ascending: on two present strings exactly, and on two present
   * numbers by comparing them the other way round.
   */
  lemma DescendingNegatesAscending(a: Coin, b: Coin, column: string)
    ensures IsTextColumn(column) && TextKey(a, column).Some? && TextKey(b, column).Some? ==>
            CompareCoins(a, b, column, "desc") == -CompareCoins(a, b, column, "asc")
    ensures !IsTextColumn(column) && NumericKey(a, column).Some? && NumericKey(b, column).Some? ==>
            CompareCoins(a, b, column, "desc") == CompareCoins(b, a, column, "asc")
  {
  }

  /** Every direction other than `asc` sorts exactly as `desc` does. */
  lemma OtherDirectionsAreDescending(coins: seq<Coin>, column: string, direction: string)
    requires direction != "asc"
    ensures SortList(coins, column, direction) == SortList(coins, column, "desc")
  {
    InsertionSortAgrees(coins, NotAfter(column, direction), NotAfter(column, "desc"));
  }

  /** Toggling twice returns to the start on `asc` and `desc`, and one toggle changes them. */
  lemma ToggleIsInvolution(direction: string)
    requires direction == "asc" || direction == "desc"
    ensures ToggleSortDirection(ToggleSortDirection(direction)) == direction
    ensures ToggleSortDirection(direction) != direction
  {
  }

  // ----- Worked example -----

  /**
   * Ranks 5, null and 1: ascending gives 1, 5, null; descending gives 5, 1, null, the
   * null last in both directions.
   */
  lemma NullRankSortsLast()
    ensures var five, none, one := RankedCoin(Present(5)), RankedCoin(Null), RankedCoin(Present(1));
            && SortList([five, none, one], "market_cap_rank", "asc") == [one, five, none]
            && SortList([five, none, one], "market_cap_rank", "desc") == [five, one, none]
  {
    NullRankAscending();
    NullRankDescending();
  }

  /** The comparator's verdicts on the example's records, in both directions. */
  lemma RankVerdicts()
    ensures var five, none, one := RankedCoin(Present(5)), RankedCoin(Null), RankedCoin(Present(1));
            var asc, desc := NotAfter("market_cap_rank", "asc"), NotAfter("market_cap_rank", "desc");
            && !asc(none, one) && !asc(five, one) && asc(five, none)
            && !desc(none, one) && desc(five, one)
  {
    var five, none, one := RankedCoin(Present(5)), RankedCoin(Null), RankedCoin(Present(1));
    assert !IsTextColumn("market_cap_rank");
    assert NumericKey(five, "market_cap_rank") == Some(5.0);
    assert NumericKey(one, "market_cap_rank") == Some(1.0);
    assert NumericKey(none, "market_cap_rank") == None;
  }

  lemma NullRankAscending()
    ensures var five, none, one := RankedCoin(Present(5)), RankedCoin(Null), RankedCoin(Present(1));
            SortList([five, none, one], "market_cap_rank", "asc") == [one, five, none]
  {
    NullRankAscendingSteps();
  }

  lemma NullRankAscendingSteps()
    ensures var five, none, one := RankedCoin(Present(5)), RankedCoin(Null), RankedCoin(Present(1));
            InsertionSort([five, none, one], NotAfter("market_cap_rank", "asc")) == [one, five, none]
  {
    var five, none, one := RankedCoin(Present(5)), RankedCoin(Null), RankedCoin(Present(1));
    RankVerdicts();
    SortOfThreeMiddle(five, none, one, NotAfter("market_cap_rank", "asc"));
  }

  lemma NullRankDescending()
    ensures var five, none, one := RankedCoin(Present(5)), RankedCoin(Null), RankedCoin(Present(1));
            SortList([five, none, one], "market_cap_rank", "desc") == [five, one, none]
  {
    NullRankDescendingSteps();
  }

  lemma NullRankDescendingSteps()
    ensures var five, none, one := RankedCoin(Present(5)), RankedCoin(Null), RankedCoin(Present(1));
            InsertionSort([five, none, one], NotAfter("market_cap_rank", "desc")) == [five, one, none]
  {
    var five, none, one := RankedCoin(Present(5)), RankedCoin(Null), RankedCoin(Present(1));
    RankVerdicts();
    SortOfThreeFront(five, none, one, NotAfter("market_cap_rank", "desc"));
  }

  /**
   * On a text column an absent key is not always last: ascending, it reads as the text
   * `Infinity`, which comes before `Zcash`.
   */
  lemma AbsentNameBeforeZcash()
    ensures var zcash := Coin(Undefined, Present("Zcash"), Undefined, Undefined, Undefined, Undefined, Undefined);
            var unnamed := RankedCoin(Present(1));
            SortList([zcash, unnamed], "name", "asc") == [unnamed, zcash]
  {
    var zcash := Coin(Undefined, Present("Zcash"), Undefined, Undefined, Undefined, Undefined, Undefined);
    var unnamed := RankedCoin(Present(1));
    assert LocaleCompare("Zcash", "Infinity") == 1 by {
      assert "Zcash"[0] == 'Z' && "Infinity"[0] == 'I';
    }
    assert !NotAfter("name", "asc")(zcash, unnamed);
    SortOfTwo(zcash, unnamed, NotAfter("name", "asc"));
  }
}
