/**
 * The price-chart panel (CryptoChart.tsx): its state, the fetch effect keyed
 * on the symbol and the timeframe, the timeframe buttons, and what it shows.
 * A fetch is split at its `await`: `StartFetch` is the synchronous part and
 * `CompleteFetch` the settled reply, so any interleaving can be replayed.
 */
module CryptoChart {
  import opened Wrappers
  import opened CryptoData

  const DefaultTimeframe: string := "1mo"
  /** The selector buttons, left to right. */
  const TimeframeButtons: seq<string> := ["1d", "1wk", "1mo", "3mo", "1y"]
  const LoadErrorText: string := "Failed to load chart data. Please try again later."

  /** The caption of a timeframe button. */
  function TimeframeLabel(timeframe: string): string {
    if timeframe == "1d" then "1D"
    else if timeframe == "1wk" then "1W"
    else if timeframe == "1mo" then "1M"
    else if timeframe == "3mo" then "3M"
    else "1Y"
  }

  /** The buttons carry distinct captions, the default is among them, and each asks the server for a distinct span. */
  lemma ButtonsDistinct()
    ensures forall i, j :: 0 <= i < j < |TimeframeButtons| ==>
      TimeframeLabel(TimeframeButtons[i]) != TimeframeLabel(TimeframeButtons[j]) &&
      Days(TimeframeButtons[i]) < Days(TimeframeButtons[j])
    ensures DefaultTimeframe in TimeframeButtons && Days(DefaultTimeframe) == 30
  {
  }

  /** JavaScript truthiness of `cryptoSymbol: string | null`. */
  predicate Truthy(symbol: Option<string>) {
    symbol.Some? && symbol.value != ""
  }

  /** How the awaited request settles: a parsed 2xx body, a non-2xx status, or a thrown error. */
  datatype FetchOutcome = Fetched(data: ChartData) | FetchNotOk | FetchThrew

  /** The "Latest price" line: the last price when there is one. */
  function LatestPrice(prices: seq<real>): (r: Option<real>)
    ensures r.Some? <==> |prices| > 0
    ensures r.Some? ==> r.value == prices[|prices| - 1]
  {
    if |prices| > 0 then Some(prices[|prices| - 1]) else None
  }

  /** The chart body: the plotted series and the latest-price line. */
  datatype ChartBody = ChartBody(timestamps: seq<int>, prices: seq<real>, latest: Option<real>)

  /**
   * What the panel shows: the placeholder when no symbol is given, otherwise
   * the highlighted timeframe, the loading line, the error line and the body.
   */
  datatype ChartView =
    | Placeholder
    | Panel(selected: string, loading: bool, error: Option<string>, body: Option<ChartBody>)

  class ChartPanel {
    /** The `cryptoSymbol` prop. */
    var symbol: Option<string>
    var chartData: Option<ChartData>
    var isLoading: bool
    var error: Option<string>
    var timeframe: string
    /** Every request the effect has sent, as (symbol, timeframe). */
    var requests: seq<(string, string)>

    /** Mounting: the initial state, then the effect's first run. */
    constructor (symbol: Option<string>)
      ensures this.symbol == symbol && chartData == None && timeframe == DefaultTimeframe
      ensures Truthy(symbol) ==> isLoading && error == None && requests == [(symbol.value, DefaultTimeframe)]
      ensures !Truthy(symbol) ==> !isLoading && error == None && requests == []
    {
      this.symbol := symbol;
      chartData := None;
      isLoading := false;
      error := None;
      timeframe := DefaultTimeframe;
      requests := [];
      new;
      StartFetch();
    }

    /** The effect up to its `await`: nothing without a symbol, else loading, error cleared, one request. */
    method StartFetch()
      modifies this`isLoading, this`error, this`requests
      ensures Truthy(symbol) ==>
        isLoading && error == None && requests == old(requests) + [(symbol.value, timeframe)]
      ensures !Truthy(symbol) ==>
        isLoading == old(isLoading) && error == old(error) && requests == old(requests)
    {
      if !Truthy(symbol) {
        return;
      }
      isLoading := true;
      error := None;
      requests := requests + [(symbol.value, timeframe)];
    }

    /**
     * The request settles: the body is stored on success, the error line set
     * otherwise, and loading ends either way. The reply is applied whatever
     * the current symbol and timeframe are.
     */
    method CompleteFetch(outcome: FetchOutcome)
      modifies this`chartData, this`error, this`isLoading
      ensures !isLoading
      ensures outcome.Fetched? ==> chartData == Some(outcome.data) && error == old(error)
      ensures !outcome.Fetched? ==> chartData == old(chartData) && error == Some(LoadErrorText)
      ensures outcome.Fetched? && old(error) == None && Truthy(symbol) ==>
        View().Panel? && View().body == Some(ChartBody(outcome.data.timestamps, outcome.data.prices, LatestPrice(outcome.data.prices)))
      ensures !outcome.Fetched? && Truthy(symbol) ==>
        View().Panel? && View().error == Some(LoadErrorText) && View().body == None
    {
      match outcome {
        case Fetched(data) =>
          chartData := Some(data);
        case _ =>
          error := Some(LoadErrorText);
      }
      isLoading := false;
    }

    /** A button press: the timeframe is set; the effect reruns only if it changed. */
    method HandleTimeframeChange(newTimeframe: string)
      modifies this`timeframe, this`isLoading, this`error, this`requests
      ensures timeframe == newTimeframe
      ensures newTimeframe != old(timeframe) && Truthy(symbol) ==>
        isLoading && error == None && requests == old(requests) + [(symbol.value, newTimeframe)]
      ensures newTimeframe == old(timeframe) || !Truthy(symbol) ==>
        isLoading == old(isLoading) && error == old(error) && requests == old(requests)
    {
      var changed := newTimeframe != timeframe;
      timeframe := newTimeframe;
      if changed {
        StartFetch();
      }
    }

    /** A re-render with a new `cryptoSymbol` prop: the effect reruns only if it changed. */
    method SetSymbol(newSymbol: Option<string>)
      modifies this`symbol, this`isLoading, this`error, this`requests
      ensures symbol == newSymbol
      ensures newSymbol != old(symbol) && Truthy(newSymbol) ==>
        isLoading && error == None && requests == old(requests) + [(newSymbol.value, timeframe)]
      ensures newSymbol == old(symbol) || !Truthy(newSymbol) ==>
        isLoading == old(isLoading) && error == old(error) && requests == old(requests)
    {
      var changed := newSymbol != symbol;
      symbol := newSymbol;
      if changed {
        StartFetch();
      }
    }

    /** The rendered panel. */
    function View(): (v: ChartView)
      reads this
      ensures v.Placeholder? <==> !Truthy(symbol)
      ensures v.Panel? ==> v.selected == timeframe && v.loading == isLoading && v.error == error
      ensures v.Panel? ==> (v.body.Some? <==> !isLoading && error.None? && chartData.Some?)
      ensures v.Panel? && v.body.Some? ==>
        v.body.value.prices == chartData.value.prices &&
        (v.body.value.latest.Some? <==> |chartData.value.prices| > 0)
    {
      if !Truthy(symbol) then Placeholder
      else
        var body :=
          if !isLoading && error.None? && chartData.Some? then
            Some(ChartBody(chartData.value.timestamps, chartData.value.prices, LatestPrice(chartData.value.prices)))
          else None;
        Panel(timeframe, isLoading, error, body)
    }
  }

  /**
   * Two presses in a row whose replies settle in the opposite order: the
   * panel ends showing the series fetched for the first press under the
   * second press's highlighted button, since a reply is applied without
   * checking which request it answers.
   */
  method OutOfOrderReplies(panel: ChartPanel, first: string, second: string, older: ChartData, newer: ChartData)
    modifies panel
    requires Truthy(panel.symbol) && panel.error == None && first != panel.timeframe && second != first
    ensures panel.symbol == old(panel.symbol)
    ensures panel.timeframe == second && panel.chartData == Some(older)
    ensures panel.requests == old(panel.requests) + [(panel.symbol.value, first), (panel.symbol.value, second)]
    ensures panel.View().Panel? && panel.View().selected == second
    ensures panel.View().body == Some(ChartBody(older.timestamps, older.prices, LatestPrice(older.prices)))
  {
    panel.HandleTimeframeChange(first);
    panel.HandleTimeframeChange(second);
    panel.CompleteFetch(Fetched(newer));
    panel.CompleteFetch(Fetched(older));
  }
}
