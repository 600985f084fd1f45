/**
 * The app's data records (Models.swift): the decoded market record, the
 * per-coin price pair, chart points, the portfolio holding with its derived
 * valuation fields, and the chart time frames.
 *
 * Swift `Double` is modelled by `real` (no rounding, NaN or infinities), a
 * `Date` by its number of seconds, and a `UUID` by a natural number chosen by
 * the caller.
 */
module Models {

  datatype Option<T> = None | Some(value: T) {
    function GetOr(default: T): T {
      match this
      case Some(v) => v
      case None => default
    }
  }

  /** Seconds since the reference date. */
  type Date = real

  /** The identity a fresh `UUID()` gives a holding. */
  type Uuid = nat

  /** One coin object of the markets response; every field but `id` may be absent. */
  datatype CoinData = CoinData(
    id: string,
    symbol: Option<string>,
    name: Option<string>,
    currentPrice: Option<real>,
    priceChangePercentage24h: Option<real>,
    priceChangePercentage1h: Option<real>)

  /** The price and 24-hour change the app keeps per coin id. */
  datatype CoinPriceData = CoinPriceData(price: real, change: real)

  /** A chart sample: time in seconds and price. */
  datatype ChartDataPoint = ChartDataPoint(time: real, price: real)

  /** The market-chart response: `prices` holds `[timestampMs, price]` rows. */
  datatype ChartResponse = ChartResponse(
    prices: seq<seq<real>>,
    marketCaps: Option<seq<seq<real>>>,
    totalVolumes: Option<seq<seq<real>>>)

  datatype ErrorStatus = ErrorStatus(errorCode: int, errorMessage: string)

  /** The API's error body `{ status: { error_code, error_message } }`. */
  datatype ErrorResponse = ErrorResponse(status: ErrorStatus)

  /** A holding; the last three fields are derived from a current price. */
  datatype PortfolioEntry = PortfolioEntry(
    id: Uuid,
    coinId: string,
    amount: real,
    purchasePrice: real,
    purchaseDate: Date,
    currentValue: real,
    profitLoss: real,
    profitLossPercentage: real)

  /** What the entry form guarantees of every holding it creates. */
  predicate WellFormed(e: PortfolioEntry) {
    e.amount > 0.0 && e.purchasePrice > 0.0
  }

  /** True when the derived fields are those of `price`. */
  predicate ValuedAt(e: PortfolioEntry, price: real)
    requires e.purchasePrice != 0.0
  {
    && e.currentValue == e.amount * price
    && e.profitLoss == e.currentValue - e.amount * e.purchasePrice
    && e.profitLossPercentage == (price / e.purchasePrice - 1.0) * 100.0
  }

  /** The memberwise initializer: the derived fields start at their default 0. */
  function NewPortfolioEntry(id: Uuid, coinId: string, amount: real, purchasePrice: real, purchaseDate: Date): (e: PortfolioEntry)
    ensures e.id == id && e.coinId == coinId && e.amount == amount
    ensures e.purchasePrice == purchasePrice && e.purchaseDate == purchaseDate
    ensures e.currentValue == 0.0 && e.profitLoss == 0.0 && e.profitLossPercentage == 0.0
  {
    PortfolioEntry(id, coinId, amount, purchasePrice, purchaseDate, 0.0, 0.0, 0.0)
  }

  /**
   * `mutating func updateValues(with:)`: Swift structs are values, so the
   * mutation is the entry with its three derived fields reassigned.
   */
  function UpdateValues(e: PortfolioEntry, currentPrice: real): (r: PortfolioEntry)
    requires e.purchasePrice != 0.0
    ensures r.id == e.id && r.coinId == e.coinId && r.amount == e.amount
    ensures r.purchasePrice == e.purchasePrice && r.purchaseDate == e.purchaseDate
    ensures ValuedAt(r, currentPrice)
    ensures r.profitLoss == e.amount * (currentPrice - e.purchasePrice)
    ensures r.profitLossPercentage * e.purchasePrice == (currentPrice - e.purchasePrice) * 100.0
  {
    var value := e.amount * currentPrice;
    e.(currentValue := value,
       profitLoss := value - e.amount * e.purchasePrice,
       profitLossPercentage := (currentPrice / e.purchasePrice - 1.0) * 100.0)
  }

  /** Only the last price counts: the derived fields never read themselves. */
  lemma UpdateValuesLastWins(e: PortfolioEntry, p: real, q: real)
    requires e.purchasePrice != 0.0
    ensures UpdateValues(UpdateValues(e, p), q) == UpdateValues(e, q)
  {
  }

  lemma UpdateValuesIdempotent(e: PortfolioEntry, p: real)
    requires e.purchasePrice != 0.0
    ensures UpdateValues(UpdateValues(e, p), p) == UpdateValues(e, p)
  {
    UpdateValuesLastWins(e, p, p);
  }

  /** Updating keeps a holding well formed. */
  lemma UpdateValuesWellFormed(e: PortfolioEntry, p: real)
    requires WellFormed(e)
    ensures WellFormed(UpdateValues(e, p))
  {
  }

  /**
   * For a well-formed holding the profit, the percentage and the price
   * movement all have the same sign.
   */
  lemma {:induction false} ProfitSignAgrees(e: PortfolioEntry, p: real)
    requires WellFormed(e)
    ensures var r := UpdateValues(e, p);
      && (r.profitLoss > 0.0 <==> p > e.purchasePrice)
      && (r.profitLoss < 0.0 <==> p < e.purchasePrice)
      && (r.profitLossPercentage > 0.0 <==> p > e.purchasePrice)
      && (r.profitLossPercentage < 0.0 <==> p < e.purchasePrice)
  {
    var r := UpdateValues(e, p);
    var d := p - e.purchasePrice;
    assert r.profitLoss == e.amount * d;
    assert r.profitLossPercentage * e.purchasePrice == d * 100.0;
    if d > 0.0 {
      assert e.amount * d > 0.0;
      assert r.profitLossPercentage > 0.0;
    } else if d < 0.0 {
      assert e.amount * d < 0.0;
      assert r.profitLossPercentage < 0.0;
    } else {
      assert e.amount * d == 0.0;
      assert r.profitLossPercentage == 0.0;
    }
  }

  /** The chart/portfolio time frames (`enum TimeFrame: String`). */
  datatype TimeFrame = Hour | Day | Week | Month | Year | All {

    function RawValue(): string {
      match this
      case Hour => "1H"
      case Day => "24H"
      case Week => "7D"
      case Month => "30D"
      case Year => "1Y"
      case All => "ALL"
    }

    /** `Identifiable.id`: the raw value, so it parses back to the frame. */
    function Id(): (r: string)
      ensures TimeFrameFromRawValue(r) == Some(this)
    {
      RawValue()
    }

    /** The `days` query parameter of the chart API for this frame. */
    function Days(): string {
      match this
      case Hour => "0.042"
      case Day => "1"
      case Week => "7"
      case Month => "30"
      case Year => "365"
      case All => "max"
    }
  }

  /** `TimeFrame.allCases`, in declaration order. */
  const AllTimeFrames: seq<TimeFrame> := [Hour, Day, Week, Month, Year, All]

  /** The synthesized `init?(rawValue:)`. */
  function TimeFrameFromRawValue(raw: string): (r: Option<TimeFrame>)
    ensures r.Some? ==> r.value.RawValue() == raw
  {
    if raw == "1H" then Some(Hour)
    else if raw == "24H" then Some(Day)
    else if raw == "7D" then Some(Week)
    else if raw == "30D" then Some(Month)
    else if raw == "1Y" then Some(Year)
    else if raw == "ALL" then Some(All)
    else None
  }

  /** Raw values, hence ids, identify frames: parsing a raw value gives the frame back. */
  lemma TimeFrameRawValueRoundTrip(t: TimeFrame)
    ensures TimeFrameFromRawValue(t.RawValue()) == Some(t)
    ensures t in AllTimeFrames
  {
  }

  lemma TimeFrameIdsDistinct(t: TimeFrame, u: TimeFrame)
    ensures t.Id() == u.Id() <==> t == u
    ensures t.Days() == u.Days() <==> t == u
  {
    TimeFrameRawValueRoundTrip(t);
    TimeFrameRawValueRoundTrip(u);
  }

  /** A point of the portfolio performance chart. */
  datatype PerformanceDataPoint = PerformanceDataPoint(date: Date, value: real)
}
