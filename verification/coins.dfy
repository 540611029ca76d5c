/**
 * The market record the dashboard receives from the market-data endpoint, one per asset.
 * Every field of the JSON object may be missing (`undefined`), `null`, or hold a value,
 * and the filters tell the first two apart, so a field is a three-way choice.
 */
module Coins {

  /** A JSON field as JavaScript sees it. */
  datatype Field<+T> = Undefined | Null | Present(value: T)

  /**
   * One market record. JSON names: `market_cap_rank`, `name`, `symbol`, `current_price`,
   * `price_change_percentage_24h`, `total_volume`, `market_cap`. Numbers are exact reals.
   */
  datatype Coin = Coin(
    marketCapRank: Field<int>,
    name: Field<string>,
    symbol: Field<string>,
    currentPrice: Field<real>,
    priceChange24h: Field<real>,
    totalVolume: Field<real>,
    marketCap: Field<real>
  )

  /** What the pipeline functions are handed: a JavaScript array, or anything else. */
  datatype Input = Array(items: seq<Coin>) | NotArray

  /** A record that only carries a rank, for examples. */
  function RankedCoin(rank: Field<int>): Coin {
    Coin(rank, Undefined, Undefined, Undefined, Undefined, Undefined, Undefined)
  }
}
