/**
 * Portfolio valuation of PortfolioView.swift: the totals shown in the summary
 * card (`reduce` folds over the holdings), the figures of one holding row, the
 * simulated performance series, and the entry form that appends a holding.
 *
 * A coin missing from the price map is valued at price 0.
 */
module PortfolioView {

  import opened Models

  function PriceOrZero(coinData: map<string, CoinPriceData>, coinId: string): real {
    if coinId in coinData then coinData[coinId].price else 0.0
  }

  /** What one holding is worth now. */
  function HoldingValue(e: PortfolioEntry, coinData: map<string, CoinPriceData>): real {
    e.amount * PriceOrZero(coinData, e.coinId)
  }

  /** What one holding cost. */
  function HoldingCost(e: PortfolioEntry): real {
    e.amount * e.purchasePrice
  }

  predicate AllWellFormed(entries: seq<PortfolioEntry>) {
    forall i | 0 <= i < |entries| :: WellFormed(entries[i])
  }

  /** No coin is quoted below zero. */
  predicate PricesNonNegative(coinData: map<string, CoinPriceData>) {
    forall id | id in coinData :: coinData[id].price >= 0.0
  }

  /** The holdings before the last one are well formed when all are. */
  lemma AllWellFormedInit(entries: seq<PortfolioEntry>)
    requires entries != []
    ensures AllWellFormed(entries) ==>
      AllWellFormed(entries[..|entries| - 1]) && WellFormed(entries[|entries| - 1])
  {
  }

  lemma ProductSign(a: real, b: real)
    ensures a > 0.0 && b >= 0.0 ==> a * b >= 0.0
    ensures a > 0.0 && b > 0.0 ==> a * b > 0.0
  {
  }

  /** A quotient scaled to percent has the sign of its numerator over a positive denominator. */
  lemma PercentSign(numerator: real, denominator: real)
    requires denominator > 0.0
    ensures numerator / denominator * 100.0 > 0.0 <==> numerator > 0.0
    ensures numerator / denominator * 100.0 < 0.0 <==> numerator < 0.0
  {
    var q := numerator / denominator;
    assert q * denominator == numerator;
    if numerator > 0.0 {
      assert q > 0.0;
    } else if numerator < 0.0 {
      assert q < 0.0;
    } else {
      assert q == 0.0;
    }
  }

  /**
   * `totalValue`: the left fold of the holdings' current values. Holdings
   * from the entry form are worth nothing negative at non-negative prices.
   */
  function TotalValue(entries: seq<PortfolioEntry>, coinData: map<string, CoinPriceData>): (r: real)
    ensures AllWellFormed(entries) && PricesNonNegative(coinData) ==> r >= 0.0
  {
    if entries == [] then 0.0
    else
      var e := entries[|entries| - 1];
      AllWellFormedInit(entries);
      ProductSign(e.amount, PriceOrZero(coinData, e.coinId));
      TotalValue(entries[..|entries| - 1], coinData) + HoldingValue(e, coinData)
  }

  /**
   * The total investment inside `profitPercentage`. Holdings from the entry
   * form always add up to a positive investment.
   */
  function TotalInvestment(entries: seq<PortfolioEntry>): (r: real)
    ensures AllWellFormed(entries) ==> r >= 0.0
    ensures AllWellFormed(entries) && entries != [] ==> r > 0.0
  {
    if entries == [] then 0.0
    else
      var e := entries[|entries| - 1];
      AllWellFormedInit(entries);
      ProductSign(e.amount, e.purchasePrice);
      TotalInvestment(entries[..|entries| - 1]) + HoldingCost(e)
  }

  /** `totalProfit`: the left fold of current value minus purchase value, which is value less investment. */
  function TotalProfit(entries: seq<PortfolioEntry>, coinData: map<string, CoinPriceData>): (r: real)
    ensures r == TotalValue(entries, coinData) - TotalInvestment(entries)
  {
    if entries == [] then 0.0
    else
      var e := entries[|entries| - 1];
      TotalProfit(entries[..|entries| - 1], coinData) + (HoldingValue(e, coinData) - HoldingCost(e))
  }

  /** `profitPercentage`: 0 without investment, else profit over investment in percent. */
  function ProfitPercentage(entries: seq<PortfolioEntry>, coinData: map<string, CoinPriceData>): (r: real)
    ensures TotalInvestment(entries) == 0.0 ==> r == 0.0
    ensures TotalInvestment(entries) != 0.0 ==> r * TotalInvestment(entries) == TotalProfit(entries, coinData) * 100.0
  {
    var totalInvestment := TotalInvestment(entries);
    if totalInvestment == 0.0 then 0.0
    else TotalProfit(entries, coinData) / totalInvestment * 100.0
  }

  /** With real holdings the return is positive exactly when the value exceeds the investment. */
  lemma ProfitPercentageSign(entries: seq<PortfolioEntry>, coinData: map<string, CoinPriceData>)
    requires entries != [] && AllWellFormed(entries)
    ensures ProfitPercentage(entries, coinData) > 0.0 <==> TotalValue(entries, coinData) > TotalInvestment(entries)
    ensures ProfitPercentage(entries, coinData) < 0.0 <==> TotalValue(entries, coinData) < TotalInvestment(entries)
  {
    var investment := TotalInvestment(entries);
    var profit := TotalProfit(entries, coinData);
    assert investment > 0.0;
    assert ProfitPercentage(entries, coinData) == profit / investment * 100.0;
    PercentSign(profit, investment);
  }

  /** Appending a holding adds its value, cost and profit to the totals. */
  lemma TotalsAppend(entries: seq<PortfolioEntry>, e: PortfolioEntry, coinData: map<string, CoinPriceData>)
    ensures TotalValue(entries + [e], coinData) == TotalValue(entries, coinData) + HoldingValue(e, coinData)
    ensures TotalInvestment(entries + [e]) == TotalInvestment(entries) + HoldingCost(e)
    ensures TotalProfit(entries + [e], coinData) == TotalProfit(entries, coinData) + HoldingValue(e, coinData) - HoldingCost(e)
  {
    assert (entries + [e])[..|entries|] == entries;
  }

  /** The figures of one row of the holdings list. */
  datatype RowFigures = RowFigures(value: real, profit: real, profitPercentage: real)

  function HoldingRow(e: PortfolioEntry, coinData: map<string, CoinPriceData>): (r: RowFigures)
    requires e.purchasePrice != 0.0
    ensures var u := UpdateValues(e, PriceOrZero(coinData, e.coinId));
      r == RowFigures(u.currentValue, u.profitLoss, u.profitLossPercentage)
    ensures r.value == HoldingValue(e, coinData)
    ensures r.profit == HoldingValue(e, coinData) - HoldingCost(e)
  {
    var currentPrice := PriceOrZero(coinData, e.coinId);
    var value := e.amount * currentPrice;
    var profit := value - e.amount * e.purchasePrice;
    var profitPercentage := (currentPrice / e.purchasePrice - 1.0) * 100.0;
    RowFigures(value, profit, profitPercentage)
  }

  /** Two coins bought at 100: at 150 the row shows 300, 100 and 50%; without a price, 0, -200 and -100%. */
  lemma HoldingRowExamples(e: PortfolioEntry, coinData: map<string, CoinPriceData>)
    requires e.amount == 2.0 && e.purchasePrice == 100.0
    ensures e.coinId in coinData && coinData[e.coinId].price == 150.0 ==>
      HoldingRow(e, coinData) == RowFigures(300.0, 100.0, 50.0)
    ensures e.coinId !in coinData ==> HoldingRow(e, coinData) == RowFigures(0.0, -200.0, -100.0)
  {
  }

  // ---------------------------------------------------------------------
  // samplePerformanceData
  // ---------------------------------------------------------------------

  /** How many simulated points each time frame asks for before the final one. */
  function PointCount(t: TimeFrame): nat {
    match t
    case Hour => 12
    case Day => 24
    case Week => 7
    case Month => 30
    case Year => 12
    case All => 12
  }

  /** The largest downward step of the simulated value per frame. */
  function MaxDrop(t: TimeFrame): real {
    match t
    case Hour => 0.005
    case Day => 0.02
    case Week => 0.05
    case Month => 0.08
    case Year => 0.12
    case All => 0.12
  }

  /** The largest upward step of the simulated value per frame. */
  function MaxRise(t: TimeFrame): real {
    match t
    case Hour => 0.008
    case Day => 0.03
    case Week => 0.07
    case Month => 0.1
    case Year => 0.15
    case All => 0.15
  }

  function CountPresent(dates: seq<Option<Date>>): (n: nat)
    ensures n <= |dates|
  {
    if dates == [] then 0
    else CountPresent(dates[..|dates| - 1]) + (if dates[|dates| - 1].Some? then 1 else 0)
  }

  function PresentDates(dates: seq<Option<Date>>): (r: seq<Date>)
    ensures |r| == CountPresent(dates)
  {
    if dates == [] then []
    else
      var init := PresentDates(dates[..|dates| - 1]);
      match dates[|dates| - 1]
      case Some(d) => init + [d]
      case None => init
  }

  function DatesOf(points: seq<PerformanceDataPoint>): seq<Date> {
    seq(|points|, i requires 0 <= i < |points| => points[i].date)
  }

  /**
   * The simulated series. `dates[i]` is the calendar's answer for the i-th
   * offset (absent when the calendar cannot compute it: that step is
   * skipped) and `randomChanges[i]` the random step drawn for it.
   */
  method SamplePerformanceData(
    entries: seq<PortfolioEntry>, coinData: map<string, CoinPriceData>, timeframe: TimeFrame,
    endDate: Date, dates: seq<Option<Date>>, randomChanges: seq<real>)
    returns (dataPoints: seq<PerformanceDataPoint>)
    requires |dates| == PointCount(timeframe) && |randomChanges| == PointCount(timeframe)
    requires forall i | 0 <= i < |randomChanges| :: -MaxDrop(timeframe) <= randomChanges[i] <= MaxRise(timeframe)
    ensures |dataPoints| == CountPresent(dates) + 1 <= PointCount(timeframe) + 1
    ensures dataPoints[|dataPoints| - 1] == PerformanceDataPoint(endDate, TotalValue(entries, coinData))
    ensures DatesOf(dataPoints[..|dataPoints| - 1]) == PresentDates(dates)
    ensures TotalValue(entries, coinData) >= 0.0 ==> forall i | 0 <= i < |dataPoints| :: dataPoints[i].value >= 0.0
  {
    var totalValue := TotalValue(entries, coinData);
    dataPoints := [];
    var currentValue := totalValue * 0.8;
    for i := 0 to |dates|
      invariant |dataPoints| == CountPresent(dates[..i])
      invariant DatesOf(dataPoints) == PresentDates(dates[..i])
      invariant totalValue >= 0.0 ==> currentValue >= 0.0
      invariant totalValue >= 0.0 ==> forall k | 0 <= k < |dataPoints| :: dataPoints[k].value >= 0.0
    {
      assert dates[..i + 1][..i] == dates[..i];
      if dates[i].Some? {
        var factor := 1.0 + randomChanges[i];
        assert factor > 0.0;
        assert currentValue >= 0.0 ==> currentValue * factor >= 0.0;
        currentValue := currentValue * factor;
        dataPoints := dataPoints + [PerformanceDataPoint(dates[i].value, currentValue)];
      }
    }
    assert dates[..|dates|] == dates;
    dataPoints := dataPoints + [PerformanceDataPoint(endDate, totalValue)];
  }

  // ---------------------------------------------------------------------
  // AddPortfolioEntryView
  // ---------------------------------------------------------------------

  /** The form's acceptance rule: both fields parse and both values are positive. */
  predicate Accepts(amountValue: Option<real>, priceValue: Option<real>) {
    amountValue.Some? && priceValue.Some? && amountValue.value > 0.0 && priceValue.value > 0.0
  }

  /**
   * The holdings list, `@State` of the root view. The root view and the
   * "Add Holding" sheet (through its `@Binding`) hold the same object, so an
   * entry the sheet appends is the one the root view revalues and totals.
   */
  class Holdings {
    var entries: seq<PortfolioEntry>

    constructor (entries: seq<PortfolioEntry>)
      ensures this.entries == entries
    {
      this.entries := entries;
    }
  }

  /**
   * The "Add Holding" sheet. `holdings` is the list bound to the app's
   * state; `amount` and `purchasePrice` are the text fields.
   */
  class AddPortfolioEntryView {
    const coins: seq<(string, string)>
    const holdings: Holdings
    var selectedCoinIndex: nat
    var amount: string
    var purchasePrice: string
    var purchaseDate: Date

    predicate Valid()
      reads this, holdings
    {
      selectedCoinIndex < |coins| && AllWellFormed(holdings.entries)
    }

    constructor (coins: seq<(string, string)>, holdings: Holdings, now: Date)
      requires coins != [] && AllWellFormed(holdings.entries)
      ensures Valid()
      ensures this.coins == coins && this.holdings == holdings
      ensures selectedCoinIndex == 0 && amount == "" && purchasePrice == "" && purchaseDate == now
    {
      this.coins := coins;
      this.holdings := holdings;
      selectedCoinIndex := 0;
      amount := "";
      purchasePrice := "";
      purchaseDate := now;
    }

    /**
     * `addEntry()`. `parseDouble` is `Double(_:)` on a string; `id` is the
     * fresh `UUID()` of the new holding.
     */
    method AddEntry(parseDouble: string -> Option<real>, id: Uuid)
      requires Valid()
      modifies holdings
      ensures Valid()
      ensures var amountValue, priceValue := parseDouble(amount), parseDouble(purchasePrice);
        if Accepts(amountValue, priceValue) then
          holdings.entries == old(holdings.entries) +
            [NewPortfolioEntry(id, coins[selectedCoinIndex].1, amountValue.value, priceValue.value, purchaseDate)]
        else
          holdings.entries == old(holdings.entries)
    {
      var amountValue := parseDouble(amount);
      var priceValue := parseDouble(purchasePrice);
      if !(amountValue.Some? && priceValue.Some? && amountValue.value > 0.0 && priceValue.value > 0.0) {
        return;
      }
      var newEntry := NewPortfolioEntry(id, coins[selectedCoinIndex].1, amountValue.value, priceValue.value, purchaseDate);
      holdings.entries := holdings.entries + [newEntry];
    }
  }
}
