/**
 * The price-series provider (crypto_data.py): the mapping of a symbol and a
 * timeframe to the market-data request, the conversion of the reply into
 * the chart payload, and the mock series returned whenever the fetch fails.
 * The market-data service and the seeded random generator are parameters.
 */
module CryptoData {
  import opened Text

  /** The payload the chart receives: the caller's symbol, epoch seconds and prices, index-aligned. */
  datatype ChartData = ChartData(symbol: string, timestamps: seq<int>, prices: seq<real>)

  /** Common names to market-data ids. */
  const SymbolMap: map<string, string> := map[
    "bitcoin" := "bitcoin",
    "ethereum" := "ethereum",
    "cardano" := "cardano",
    "solana" := "solana",
    "dogecoin" := "dogecoin",
    "ripple" := "ripple",
    "polkadot" := "polkadot",
    "litecoin" := "litecoin",
    "chainlink" := "chainlink",
    "stellar" := "stellar-lumens"
  ]

  /** `symbol_map.get(symbol.lower(), symbol.lower())`. */
  function CoinId(symbol: string): string {
    var key := Lower(symbol);
    if key in SymbolMap then SymbolMap[key] else key
  }

  /** Timeframe selectors to a number of days. */
  const DaysMap: map<string, int> := map["1d" := 1, "1wk" := 7, "1mo" := 30, "3mo" := 90, "1y" := 365]

  /** `days_map.get(timeframe, 30)`. */
  function Days(timeframe: string): int {
    if timeframe in DaysMap then DaysMap[timeframe] else 30
  }

  /** Known names map to their ids and any other symbol to its lower-cased self; case never matters. */
  lemma CoinIdLookup(symbol: string)
    ensures Lower(symbol) in SymbolMap ==> CoinId(symbol) == SymbolMap[Lower(symbol)]
    ensures Lower(symbol) !in SymbolMap ==> CoinId(symbol) == Lower(symbol)
    ensures CoinId(symbol) == CoinId(Lower(symbol))
  {
    LowerIdempotent(symbol);
  }

  /** "Stellar" is the one name whose id differs from the name. */
  lemma StellarId()
    ensures CoinId("Stellar") == "stellar-lumens"
    ensures forall k :: k in SymbolMap && k != "stellar" ==> SymbolMap[k] == k
  {
    assert Lower("Stellar") == "stellar";
  }

  /** Every timeframe gets a day count from the table; anything unlisted gets a month. */
  lemma DaysTable(timeframe: string)
    ensures Days(timeframe) in {1, 7, 30, 90, 365}
    ensures timeframe !in {"1d", "1wk", "1mo", "3mo", "1y"} ==> Days(timeframe) == 30
  {
  }

  /** Python's `int(x / y)` on integers: the quotient truncated toward zero. */
  function TruncDiv(x: int, y: int): int
    requires y > 0
  {
    if x >= 0 then x / y else -((-x) / y)
  }

  /** Truncation keeps the quotient on the side of zero, within one divisor of `x`. */
  lemma TruncDivBounds(x: int, y: int)
    requires y > 0
    ensures x >= 0 ==> 0 <= x - y * TruncDiv(x, y) < y
    ensures x < 0 ==> -y < x - y * TruncDiv(x, y) <= 0
  {
  }

  /** One `[milliseconds, price]` entry of `data['prices']`. */
  datatype PricePoint = PricePoint(ms: int, price: real)

  /**
   * What the market-data request ends in: the price entries of a 2xx reply, or
   * any exception (network, status, unreadable body, missing key).
   */
  datatype MarketReply = MarketChart(points: seq<PricePoint>) | RequestFailed

  /** `[int(entry[0]/1000) for entry in price_data]`. */
  function Seconds(points: seq<PricePoint>): seq<int> {
    seq(|points|, i requires 0 <= i < |points| => TruncDiv(points[i].ms, 1000))
  }

  /** `[entry[1] for entry in price_data]`. */
  function Prices(points: seq<PricePoint>): seq<real> {
    seq(|points|, i requires 0 <= i < |points| => points[i].price)
  }

  /** The converted series stays index-aligned with the reply, each time the whole seconds of its entry. */
  lemma SeriesAligned(points: seq<PricePoint>)
    ensures |Seconds(points)| == |Prices(points)| == |points|
    ensures forall i :: 0 <= i < |points| && points[i].ms >= 0 ==>
      Seconds(points)[i] * 1000 <= points[i].ms < Seconds(points)[i] * 1000 + 1000
    ensures forall i :: 0 <= i < |points| ==> Prices(points)[i] == points[i].price
  {
    forall i | 0 <= i < |points| && points[i].ms >= 0
      ensures Seconds(points)[i] * 1000 <= points[i].ms < Seconds(points)[i] * 1000 + 1000
    {
      TruncDivBounds(points[i].ms, 1000);
    }
  }

  const DaySeconds: int := 24 * 60 * 60
  /** The number of days, and of prices, in a mock series. */
  const MockLength: nat := 30

  /** `[now - (i * day_seconds) for i in range(30, 0, -1)]`. */
  function MockTimestamps(now: int): seq<int> {
    seq(MockLength, k requires 0 <= k < MockLength => now - (MockLength - k) * DaySeconds)
  }

  /** Thirty days, one day apart, strictly increasing, ending one day before `now`. */
  lemma MockTimestampsShape(now: int)
    ensures |MockTimestamps(now)| == 30
    ensures MockTimestamps(now)[0] == now - 30 * 86400 && MockTimestamps(now)[29] == now - 86400
    ensures forall k :: 0 <= k < 29 ==> MockTimestamps(now)[k + 1] == MockTimestamps(now)[k] + 86400
    ensures forall i, j :: 0 <= i < j < 30 ==> MockTimestamps(now)[i] < MockTimestamps(now)[j] < now
  {
  }

  /** `sum(ord(c) for c in symbol)`. */
  function OrdSum(s: string): nat {
    if s == [] then 0 else OrdSum(s[..|s| - 1]) + s[|s| - 1] as nat
  }

  /** `sum(ord(c) for c in symbol) % 1000 + 100`. */
  function BasePrice(symbol: string): int {
    OrdSum(symbol) % 1000 + 100
  }

  /** The mock base price lies in [100, 1099] whatever the symbol. */
  lemma BasePriceRange(symbol: string)
    ensures 100 <= BasePrice(symbol) <= 1099
  {
  }

  /** `random.uniform(-base * 0.05, base * 0.05)` for the generator's draw `u` = `random()`. */
  function Step(base: int, u: real): real {
    -(base as real) * 0.05 + (base as real) * 0.1 * u
  }

  /** `current_price` after the first `n` iterations, the generator's k-th draw being `draw(k)`. */
  function Walk(base: int, draw: nat -> real, n: nat): real {
    if n == 0 then base as real else Walk(base, draw, n - 1) + Step(base, draw(n - 1))
  }

  function MaxReal(x: real, y: real): real {
    if x >= y then x else y
  }

  /** The mock prices: each the walk so far, floored at 1. */
  function MockPriceSeries(base: int, draw: nat -> real): seq<real> {
    seq(MockLength, k requires 0 <= k < MockLength => MaxReal(Walk(base, draw, k + 1), 1.0))
  }

  /** A draw in [0, 1) moves the price by at most 5% of the base, either way. */
  lemma StepBounds(base: nat, u: real)
    requires 0.0 <= u < 1.0
    ensures -(base as real) * 0.05 <= Step(base, u) <= (base as real) * 0.05
  {
    var b := base as real;
    assert 0.0 <= b * u;
    assert b * u <= b by {
      assert b - b * u == b * (1.0 - u);
      assert b * (1.0 - u) >= 0.0;
    }
    assert Step(base, u) == -b * 0.05 + 0.1 * (b * u);
  }

  /** With draws in [0, 1), after n steps the walk is within n times 5% of the base. */
  lemma {:induction false} WalkBounds(base: nat, draw: nat -> real, n: nat)
    requires forall k: nat :: 0.0 <= draw(k) < 1.0
    ensures (base as real) - 0.05 * (base as real) * (n as real) <= Walk(base, draw, n)
    ensures Walk(base, draw, n) <= (base as real) + 0.05 * (base as real) * (n as real)
  {
    if n > 0 {
      WalkBounds(base, draw, n - 1);
      StepBounds(base, draw(n - 1));
      var c := 0.05 * (base as real);
      var k := (n - 1) as real;
      assert n as real == k + 1.0;
      assert c * (n as real) == c * k + c;
    }
  }

  /** The price loop of `generate_mock_data`: thirty steps of the walk, each recorded floored at 1. */
  method MockPrices(base: int, draw: nat -> real) returns (prices: seq<real>)
    ensures prices == MockPriceSeries(base, draw)
    ensures forall k :: 0 <= k < |prices| ==> prices[k] >= 1.0
  {
    prices := [];
    var currentPrice := base as real;
    var i := 0;
    while i < MockLength
      invariant 0 <= i <= MockLength
      invariant currentPrice == Walk(base, draw, i)
      invariant prices == MockPriceSeries(base, draw)[..i]
    {
      currentPrice := currentPrice + Step(base, draw(i));
      prices := prices + [MaxReal(currentPrice, 1.0)];
      i := i + 1;
    }
  }

  /**
   * `generate_mock_data(symbol)` at epoch second `now`. `seeded(symbol)` is the
   * draw sequence of the generator after `random.seed(symbol)`, so the prices
   * depend on the symbol alone and only the timestamps on the clock.
   */
  method GenerateMockData(symbol: string, now: int, seeded: string -> nat -> real) returns (data: ChartData)
    ensures data == ChartData(symbol, MockTimestamps(now), MockPriceSeries(BasePrice(symbol), seeded(symbol)))
    ensures |data.timestamps| == |data.prices| == 30
  {
    var timestamps := MockTimestamps(now);
    var prices := MockPrices(BasePrice(symbol), seeded(symbol));
    data := ChartData(symbol, timestamps, prices);
  }

  /**
   * `fetch_crypto_data(symbol, timeframe)`: one request for the mapped id and
   * day count; its entries converted, or the mock series on any exception.
   * Either way the payload keeps the caller's symbol and aligned series.
   */
  method FetchCryptoData(symbol: string, timeframe: string, api: (string, int) -> MarketReply,
                         now: int, seeded: string -> nat -> real) returns (data: ChartData)
    ensures api(CoinId(symbol), Days(timeframe)).MarketChart? ==>
      var points := api(CoinId(symbol), Days(timeframe)).points;
      data == ChartData(symbol, Seconds(points), Prices(points))
    ensures api(CoinId(symbol), Days(timeframe)).RequestFailed? ==>
      data == ChartData(symbol, MockTimestamps(now), MockPriceSeries(BasePrice(symbol), seeded(symbol)))
    ensures data.symbol == symbol && |data.timestamps| == |data.prices|
  {
    var coinId := CoinId(symbol);
    var days := Days(timeframe);
    var reply := api(coinId, days);
    match reply {
      case MarketChart(points) =>
        data := ChartData(symbol, Seconds(points), Prices(points));
      case RequestFailed =>
        data := GenerateMockData(symbol, now, seeded);
    }
  }
}
