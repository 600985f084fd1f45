/**
 * The app state of ContentView.swift and the operations that change it: the
 * price refresh with its retry on HTTP 429, the chart download behind a
 * five-minute cache, the daily check streak, and the periodic checks that
 * the settings toggle starts and stops.
 *
 * Networking is not modelled as such. Sending a request is a method that
 * returns the request; the response arrives later as a separate call whose
 * argument says what `URLSession` and `JSONDecoder` produced. The clock is a
 * `now` parameter and the calendar's day arithmetic a `daysSinceLastCheck`
 * parameter. Status messages are the `Status` datatype, whose `Text()`
 * gives the wording.
 */
module ContentView {

  import opened Models
  import opened Seqs
  import opened PortfolioView
  import MarketView
  import Helpers

  // ---------------------------------------------------------------------
  // The tracked coins and the ids query parameter
  // ---------------------------------------------------------------------

  /** The tracked coins as `(name, id)` pairs, in display order. */
  const Coins: seq<(string, string)> := [
    ("Bitcoin", "bitcoin"),
    ("Ethereum", "ethereum"),
    ("Dogecoin", "dogecoin"),
    ("Shiba Inu", "shiba-inu"),
    ("Pepe", "pepe"),
    ("BONK", "bonk"),
    ("FLOKI", "floki-inu"),
    ("WIF", "dogwifhat"),
    ("Solana", "solana"),
    ("XRP", "xrp"),
    ("Cardano", "cardano"),
    ("Tether", "tether")
  ]

  /** `coins.map { $1 }`. */
  function CoinIds(coins: seq<(string, string)>): (ids: seq<string>)
    ensures |ids| == |coins|
    ensures forall k | 0 <= k < |coins| :: ids[k] == coins[k].1
  {
    seq(|coins|, k requires 0 <= k < |coins| => coins[k].1)
  }

  /** Every tracked coin has an icon of its own, and no two share one. */
  lemma TrackedCoinsHaveIcons()
    ensures forall k | 0 <= k < |Coins| :: Helpers.CoinIcon(Coins[k].1) != Helpers.DefaultCoinIcon
    ensures forall j, k | 0 <= j < k < |Coins| :: Helpers.CoinIcon(Coins[j].1) != Helpers.CoinIcon(Coins[k].1)
  {
    forall j, k | 0 <= j < k < |Coins|
      ensures Helpers.CoinIcon(Coins[j].1) != Helpers.CoinIcon(Coins[k].1)
    {
      assert Coins[j].1 != Coins[k].1;
      if Helpers.CoinIcon(Coins[j].1) == Helpers.CoinIcon(Coins[k].1) {
        Helpers.CoinIconInjective(Coins[j].1, Coins[k].1);
      }
    }
  }

  /** `joined(separator:)`. */
  function Joined(parts: seq<string>, separator: string): string {
    if parts == [] then ""
    else if |parts| == 1 then parts[0]
    else parts[0] + separator + Joined(parts[1..], separator)
  }

  /** Splitting at every `separator` character: what the server does with the ids parameter. */
  function SplitOn(s: string, separator: char): (fields: seq<string>)
    ensures |fields| >= 1
  {
    if s == [] then [""]
    else
      var rest := SplitOn(s[1..], separator);
      if s[0] == separator then [""] + rest
      else [[s[0]] + rest[0]] + rest[1..]
  }

  /** The comma-separated ids of the markets request. */
  const TrackedIds: string := Joined(CoinIds(Coins), ",")

  /** Text without the separator is taken whole as the first field. */
  lemma {:induction false} SplitOnPrefix(a: string, t: string, separator: char)
    requires separator !in a
    ensures SplitOn(a + t, separator) == [a + SplitOn(t, separator)[0]] + SplitOn(t, separator)[1..]
    decreases |a|
  {
    var fields := SplitOn(t, separator);
    if a != [] {
      assert a[0] in a;
      assert forall c | c in a[1..] :: c in a;
      assert (a + t)[0] == a[0] && (a + t)[1..] == a[1..] + t;
      SplitOnPrefix(a[1..], t, separator);
      var rest := SplitOn(a[1..] + t, separator);
      assert rest == [a[1..] + fields[0]] + fields[1..];
      assert SplitOn(a + t, separator) == [[a[0]] + rest[0]] + rest[1..];
      assert rest[0] == a[1..] + fields[0] && rest[1..] == fields[1..];
      assert [a[0]] + (a[1..] + fields[0]) == a + fields[0];
      assert SplitOn(a + t, separator) == [a + fields[0]] + fields[1..];
    } else {
      assert a + t == t;
      assert a + fields[0] == fields[0];
      assert [a + fields[0]] + fields[1..] == fields;
    }
  }

  /** Splitting undoes joining when no part contains the separator. */
  lemma {:induction false} SplitJoinRoundTrip(parts: seq<string>, separator: char)
    requires parts != []
    requires forall k | 0 <= k < |parts| :: separator !in parts[k]
    ensures SplitOn(Joined(parts, [separator]), separator) == parts
    decreases |parts|
  {
    if |parts| == 1 {
      assert Joined(parts, [separator]) == parts[0];
      SplitOnPrefix(parts[0], "", separator);
      assert SplitOn("", separator) == [""];
      assert parts[0] + "" == parts[0];
      assert parts == [parts[0]];
      assert SplitOn(parts[0], separator) == [parts[0]];
    } else {
      var tail := Joined(parts[1..], [separator]);
      SplitJoinRoundTrip(parts[1..], separator);
      assert Joined(parts, [separator]) == parts[0] + ([separator] + tail);
      SplitOnPrefix(parts[0], [separator] + tail, separator);
      assert ([separator] + tail)[1..] == tail;
      var fields := SplitOn([separator] + tail, separator);
      assert fields == [""] + parts[1..];
      assert fields[0] == "" && fields[1..] == parts[1..];
      assert parts[0] + "" == parts[0];
      assert parts == [parts[0]] + parts[1..];
    }
  }

  /** The markets request names every tracked coin, in order, and nothing else. */
  lemma TrackedIdsRoundTrip()
    ensures SplitOn(TrackedIds, ',') == CoinIds(Coins)
    ensures |SplitOn(TrackedIds, ',')| == 12
  {
    var ids := CoinIds(Coins);
    assert ids == ["bitcoin", "ethereum", "dogecoin", "shiba-inu", "pepe", "bonk",
                   "floki-inu", "dogwifhat", "solana", "xrp", "cardano", "tether"];
    SplitJoinRoundTrip(ids, ',');
  }

  /** `coins.first { $1 == id }?.0 ?? "coin"`. */
  function CoinName(coins: seq<(string, string)>, id: string): string {
    if coins == [] then "coin"
    else if coins[0].1 == id then coins[0].0
    else CoinName(coins[1..], id)
  }

  /** The name shown is that of the first coin with the id, or "coin" when there is none. */
  lemma {:induction false} CoinNameSpec(coins: seq<(string, string)>, id: string, k: int)
    requires 0 <= k <= |coins|
    requires forall j | 0 <= j < k :: coins[j].1 != id
    requires k < |coins| ==> coins[k].1 == id
    ensures CoinName(coins, id) == if k < |coins| then coins[k].0 else "coin"
    decreases k
  {
    if k > 0 {
      CoinNameSpec(coins[1..], id, k - 1);
    }
  }

  // ---------------------------------------------------------------------
  // Status messages
  // ---------------------------------------------------------------------

  /** The messages of the status toast. `description` is the error's `localizedDescription`. */
  datatype Status =
    | Welcome
    | StartingChecks
    | ChecksStopped
    | FetchingPrices
    | NetworkError(description: string)
    | NoDataReceived
    | PricesUpdated(alerts: seq<string>)
    | JsonError(description: string)
    | UsingCachedChart(coinName: string)
    | FetchingChart(coinName: string)
    | ChartNetworkError(description: string)
    | NoChartData
    | ChartUpdated(coinName: string)
    | ChartError(errorMessage: string)
    | ChartJsonError(description: string)
  {
    function Text(): string {
      match this
      case Welcome => "Welcome to CryptoTrade!"
      case StartingChecks => "Starting price checks every 120 seconds..."
      case ChecksStopped => "Price checks stopped."
      case FetchingPrices => "Fetching prices for all coins..."
      case NetworkError(d) => "Network error: " + d
      case NoDataReceived => "No data received!"
      case PricesUpdated(alerts) =>
        "Prices updated!" + (if alerts == [] then "" else " Alerts: " + Joined(alerts, ", "))
      case JsonError(d) => "JSON error: " + d
      case UsingCachedChart(name) => "Using cached chart for " + name
      case FetchingChart(name) => "Fetching chart data for " + name + "..."
      case ChartNetworkError(d) => "Chart network error: " + d
      case NoChartData => "No chart data received!"
      case ChartUpdated(name) => "Chart updated for " + name + "!"
      case ChartError(m) => "Chart error: " + m + ". Wait a minute and try again."
      case ChartJsonError(d) => "Chart JSON error: " + d
    }
  }

  // ---------------------------------------------------------------------
  // The price refresh
  // ---------------------------------------------------------------------

  /** `CoinPriceData(price: coin.currentPrice ?? 0, change: coin.priceChangePercentage24h ?? 0)`. */
  function PriceOf(coin: CoinData): CoinPriceData {
    CoinPriceData(coin.currentPrice.GetOr(0.0), coin.priceChangePercentage24h.GetOr(0.0))
  }

  /** The name an alert reports: the coin's name, or its id without one. */
  function DisplayName(coin: CoinData): string {
    coin.name.GetOr(coin.id)
  }

  /** A coin alerts when the size of its 24-hour change reaches the threshold. */
  predicate MeetsThreshold(coin: CoinData, alertThreshold: real) {
    MarketView.Abs(coin.priceChangePercentage24h.GetOr(0.0)) >= alertThreshold
  }

  /** The new price map: the records in order, a later record overwriting an earlier one of the same id. */
  function PriceTable(records: seq<CoinData>): map<string, CoinPriceData> {
    if records == [] then map[]
    else
      var last := records[|records| - 1];
      PriceTable(records[..|records| - 1])[last.id := PriceOf(last)]
  }

  /** How many records of the response meet the threshold. */
  function AlertCount(records: seq<CoinData>, alertThreshold: real): nat {
    if records == [] then 0
    else
      AlertCount(records[..|records| - 1], alertThreshold) +
      if MeetsThreshold(records[|records| - 1], alertThreshold) then 1 else 0
  }

  /** The names of the alerting coins, in response order: one name per alerting record. */
  function AlertNames(records: seq<CoinData>, alertThreshold: real): (r: seq<string>)
    ensures |r| == AlertCount(records, alertThreshold)
  {
    if records == [] then []
    else
      var last := records[|records| - 1];
      var init := AlertNames(records[..|records| - 1], alertThreshold);
      if MeetsThreshold(last, alertThreshold) then init + [DisplayName(last)] else init
  }

  /** The new map has exactly the ids of the response: coins absent from it are dropped. */
  lemma {:induction false} PriceTableKeys(records: seq<CoinData>)
    ensures forall id :: id in PriceTable(records) <==> exists k | 0 <= k < |records| :: records[k].id == id
  {
    if records != [] {
      var init := records[..|records| - 1];
      PriceTableKeys(init);
      forall id
        ensures id in PriceTable(records) <==> exists k | 0 <= k < |records| :: records[k].id == id
      {
        if id in PriceTable(init) {
          var k :| 0 <= k < |init| && init[k].id == id;
          assert records[k].id == id;
        }
        if exists k | 0 <= k < |records| :: records[k].id == id {
          var k :| 0 <= k < |records| && records[k].id == id;
          if k < |init| {
            assert init[k].id == id;
          }
        }
      }
    }
  }

  /** The entry of an id is taken from its last record in the response. */
  lemma {:induction false} PriceTableLastWins(records: seq<CoinData>, k: int)
    requires 0 <= k < |records|
    requires forall j | k < j < |records| :: records[j].id != records[k].id
    ensures records[k].id in PriceTable(records)
    ensures PriceTable(records)[records[k].id] == PriceOf(records[k])
  {
    if k < |records| - 1 {
      var init := records[..|records| - 1];
      assert init[k] == records[k];
      PriceTableLastWins(init, k);
    }
  }

  /** A coin is reported exactly when one of its records meets the threshold. */
  lemma {:induction false} AlertNamesSpec(records: seq<CoinData>, alertThreshold: real)
    ensures forall name :: name in AlertNames(records, alertThreshold) <==>
      exists k | 0 <= k < |records| :: MeetsThreshold(records[k], alertThreshold) && DisplayName(records[k]) == name
  {
    if records != [] {
      var init := records[..|records| - 1];
      AlertNamesSpec(init, alertThreshold);
      forall name
        ensures name in AlertNames(records, alertThreshold) <==>
          exists k | 0 <= k < |records| :: MeetsThreshold(records[k], alertThreshold) && DisplayName(records[k]) == name
      {
        if name in AlertNames(init, alertThreshold) {
          var k :| 0 <= k < |init| && MeetsThreshold(init[k], alertThreshold) && DisplayName(init[k]) == name;
          assert records[k] == init[k];
        }
        if exists k | 0 <= k < |records| :: MeetsThreshold(records[k], alertThreshold) && DisplayName(records[k]) == name {
          var k :| 0 <= k < |records| && MeetsThreshold(records[k], alertThreshold) && DisplayName(records[k]) == name;
          if k < |init| {
            assert init[k] == records[k];
          }
        }
      }
    }
  }

  /**
   * The alerts come in response order: an alerting record's name stands at
   * the position given by the number of alerting records before it. With
   * the length, this fixes every entry of the list.
   */
  lemma {:induction false} AlertNamesOrder(records: seq<CoinData>, alertThreshold: real)
    ensures forall k | 0 <= k < |records| && MeetsThreshold(records[k], alertThreshold) ::
      && AlertCount(records[..k], alertThreshold) < |AlertNames(records, alertThreshold)|
      && AlertNames(records, alertThreshold)[AlertCount(records[..k], alertThreshold)] == DisplayName(records[k])
  {
    if records != [] {
      var init := records[..|records| - 1];
      AlertNamesOrder(init, alertThreshold);
      forall k | 0 <= k < |records| && MeetsThreshold(records[k], alertThreshold)
        ensures && AlertCount(records[..k], alertThreshold) < |AlertNames(records, alertThreshold)|
                && AlertNames(records, alertThreshold)[AlertCount(records[..k], alertThreshold)] == DisplayName(records[k])
      {
        if k < |init| {
          assert records[..k] == init[..k];
          assert init[k] == records[k];
        } else {
          assert records[..k] == init;
        }
      }
    }
  }

  /** Raising the threshold can only drop alerts, never add or reorder them. */
  lemma {:induction false} AlertThresholdMonotone(records: seq<CoinData>, lower: real, higher: real)
    requires lower <= higher
    ensures IsSubsequence(AlertNames(records, higher), AlertNames(records, lower))
  {
    if records == [] {
    } else {
      var init := records[..|records| - 1];
      var last := records[|records| - 1];
      AlertThresholdMonotone(init, lower, higher);
      if MeetsThreshold(last, higher) {
        SubsequenceAppendBoth(AlertNames(init, higher), AlertNames(init, lower), DisplayName(last));
      } else if MeetsThreshold(last, lower) {
        SubsequenceAppendRight(AlertNames(init, higher), AlertNames(init, lower), DisplayName(last));
      }
    }
  }

  /** A market card is bordered exactly when its coin's last record alerted at the card's threshold. */
  lemma CardBorderMatchesAlert(records: seq<CoinData>, k: int, alertThreshold: real)
    requires 0 <= k < |records|
    requires forall j | k < j < |records| :: records[j].id != records[k].id
    ensures MarketView.CoinCardDisplay(PriceTable(records), records[k].id, alertThreshold).border != MarketView.Clear
      <==> MeetsThreshold(records[k], alertThreshold)
  {
    PriceTableLastWins(records, k);
  }

  /**
   * The loop over the decoded records: the new price map and the names of
   * the alerting coins.
   */
  method BuildPriceUpdate(json: seq<CoinData>, alertThreshold: real)
    returns (newCoinData: map<string, CoinPriceData>, triggeredAlerts: seq<string>)
    ensures newCoinData == PriceTable(json)
    ensures triggeredAlerts == AlertNames(json, alertThreshold)
  {
    newCoinData := map[];
    triggeredAlerts := [];
    for i := 0 to |json|
      invariant newCoinData == PriceTable(json[..i])
      invariant triggeredAlerts == AlertNames(json[..i], alertThreshold)
    {
      assert json[..i + 1][..i] == json[..i];
      var coin := json[i];
      var change := coin.priceChangePercentage24h.GetOr(0.0);
      var price := coin.currentPrice.GetOr(0.0);
      newCoinData := newCoinData[coin.id := CoinPriceData(price, change)];
      if MarketView.Abs(change) >= alertThreshold {
        triggeredAlerts := triggeredAlerts + [coin.name.GetOr(coin.id)];
      }
    }
    assert json[..|json|] == json;
  }

  /** A holding after the refresh: revalued when the new map has its coin, untouched otherwise. */
  function RevaluedEntry(e: PortfolioEntry, coinData: map<string, CoinPriceData>): PortfolioEntry
    requires e.purchasePrice != 0.0
  {
    if e.coinId in coinData then UpdateValues(e, coinData[e.coinId].price) else e
  }

  /** The holdings after the refresh, in the same order. */
  function Revalued(entries: seq<PortfolioEntry>, coinData: map<string, CoinPriceData>): (r: seq<PortfolioEntry>)
    requires AllWellFormed(entries)
    ensures |r| == |entries| && AllWellFormed(r)
  {
    seq(|entries|, k requires 0 <= k < |entries| => RevaluedEntry(entries[k], coinData))
  }

  /** Refreshing twice with the same prices is refreshing once. */
  lemma RevaluedIdempotent(entries: seq<PortfolioEntry>, coinData: map<string, CoinPriceData>)
    requires AllWellFormed(entries)
    ensures Revalued(Revalued(entries, coinData), coinData) == Revalued(entries, coinData)
  {
    var once := Revalued(entries, coinData);
    forall k | 0 <= k < |entries|
      ensures Revalued(once, coinData)[k] == once[k]
    {
      if entries[k].coinId in coinData {
        UpdateValuesIdempotent(entries[k], coinData[entries[k].coinId].price);
      }
    }
  }

  /** The refresh keeps every holding's identity and purchase, and values those it has a price for. */
  lemma RevaluedSpec(entries: seq<PortfolioEntry>, coinData: map<string, CoinPriceData>, k: int)
    requires AllWellFormed(entries) && 0 <= k < |entries|
    ensures var e, r := entries[k], Revalued(entries, coinData)[k];
      && r.id == e.id && r.coinId == e.coinId && r.amount == e.amount
      && r.purchasePrice == e.purchasePrice && r.purchaseDate == e.purchaseDate
      && (e.coinId in coinData ==> ValuedAt(r, coinData[e.coinId].price))
      && (e.coinId !in coinData ==> r == e)
  {
  }

  /** The sum of the stored current values of the holdings. */
  function StoredValue(entries: seq<PortfolioEntry>): real {
    if entries == [] then 0.0
    else StoredValue(entries[..|entries| - 1]) + entries[|entries| - 1].currentValue
  }

  /** The sum of the stored profits of the holdings. */
  function StoredProfit(entries: seq<PortfolioEntry>): real {
    if entries == [] then 0.0
    else StoredProfit(entries[..|entries| - 1]) + entries[|entries| - 1].profitLoss
  }

  /**
   * When the refresh priced every holding, the values stored in the holdings
   * add up to the portfolio totals the summary card computes.
   */
  lemma {:induction false} RevaluedMatchesTotals(entries: seq<PortfolioEntry>, coinData: map<string, CoinPriceData>)
    requires AllWellFormed(entries)
    requires forall k | 0 <= k < |entries| :: entries[k].coinId in coinData
    ensures StoredValue(Revalued(entries, coinData)) == TotalValue(entries, coinData)
    ensures StoredProfit(Revalued(entries, coinData)) == TotalProfit(entries, coinData)
  {
    if entries != [] {
      var init := entries[..|entries| - 1];
      assert Revalued(entries, coinData)[..|entries| - 1] == Revalued(init, coinData);
      RevaluedMatchesTotals(init, coinData);
    }
  }

  /** What the markets request reported, after the transport and before decoding. */
  datatype PriceBody = CoinList(records: seq<CoinData>) | Undecodable(description: string)

  /** What `URLSession` delivered for a markets request. */
  datatype PriceOutcome =
    | TransportError(description: string)
    | MissingData
    | HttpResponse(statusCode: int, body: PriceBody)

  /** A markets request: the ids parameter and the retries it has left. */
  datatype MarketsRequest = MarketsRequest(ids: string, retryCount: nat)

  /** A rate-limited answer with retries left is retried instead of being handled. */
  predicate Retried(outcome: PriceOutcome, retryCount: nat) {
    RateLimited(outcome) && retryCount > 0
  }

  /** An HTTP 429 answer. */
  predicate RateLimited(outcome: PriceOutcome) {
    outcome.HttpResponse? && outcome.statusCode == 429
  }

  /** The status a handled outcome leaves. */
  function SettledStatus(outcome: PriceOutcome, alertThreshold: real): Status {
    match outcome
    case TransportError(d) => NetworkError(d)
    case MissingData => NoDataReceived
    case HttpResponse(_, CoinList(records)) => PricesUpdated(AlertNames(records, alertThreshold))
    case HttpResponse(_, Undecodable(d)) => JsonError(d)
  }

  /** The alerts a handled outcome raises. */
  function SettledAlerts(outcome: PriceOutcome, alertThreshold: real): seq<string> {
    if outcome.HttpResponse? && outcome.body.CoinList? then AlertNames(outcome.body.records, alertThreshold) else []
  }

  /** How many markets requests a refresh sends, given the answers in order. */
  function Attempts(retryCount: nat, outcomes: seq<PriceOutcome>): nat
    decreases |outcomes|
  {
    if outcomes != [] && Retried(outcomes[0], retryCount) then 1 + Attempts(retryCount - 1, outcomes[1..])
    else 1
  }

  /** The answer a refresh ends up handling; `None` while the last request is unanswered. */
  function Settled(retryCount: nat, outcomes: seq<PriceOutcome>): Option<PriceOutcome>
    decreases |outcomes|
  {
    if outcomes == [] then None
    else if Retried(outcomes[0], retryCount) then Settled(retryCount - 1, outcomes[1..])
    else Some(outcomes[0])
  }

  /** A refresh sends at most one request more than its retry budget, and no more than it gets answers plus one. */
  lemma {:induction false} AttemptsBound(retryCount: nat, outcomes: seq<PriceOutcome>)
    ensures Attempts(retryCount, outcomes) <= retryCount + 1
    ensures Attempts(retryCount, outcomes) <= |outcomes| + 1
    decreases |outcomes|
  {
    if outcomes != [] && Retried(outcomes[0], retryCount) {
      AttemptsBound(retryCount - 1, outcomes[1..]);
    }
  }

  /**
   * The outcome handled is the first one that is not retried: every earlier
   * one was a 429, and the handled one is not, unless the retries ran out.
   */
  lemma {:induction false} SettledIsFirstNotRetried(retryCount: nat, outcomes: seq<PriceOutcome>)
    ensures var n := Attempts(retryCount, outcomes);
      && n - 1 <= |outcomes|
      && (forall j | 0 <= j < n - 1 :: RateLimited(outcomes[j]))
      && (Settled(retryCount, outcomes).Some? <==> n <= |outcomes|)
      && (n <= |outcomes| ==>
            Settled(retryCount, outcomes) == Some(outcomes[n - 1]) &&
            (!RateLimited(outcomes[n - 1]) || n == retryCount + 1))
    decreases |outcomes|
  {
    if outcomes != [] && Retried(outcomes[0], retryCount) {
      var rest := outcomes[1..];
      SettledIsFirstNotRetried(retryCount - 1, rest);
      var m := Attempts(retryCount - 1, rest);
      forall j | 1 <= j < m
        ensures RateLimited(outcomes[j])
      {
        assert RateLimited(rest[j - 1]);
        assert rest[j - 1] == outcomes[j];
      }
      if m <= |rest| {
        assert rest[m - 1] == outcomes[m];
      }
    }
  }

  /** Rate limiting twice and then answering takes three requests; four 429s in a row exhaust the retries and the fourth is decoded. */
  lemma RetryExamples(ok: PriceOutcome, body: PriceBody)
    requires ok == HttpResponse(200, body)
    ensures var limited := HttpResponse(429, body);
      && Attempts(3, [limited, limited, ok]) == 3
      && Settled(3, [limited, limited, ok]) == Some(ok)
      && Attempts(3, [limited, limited, limited, limited]) == 4
      && Settled(3, [limited, limited, limited, limited]) == Some(limited)
      && Attempts(0, [limited]) == 1
      && Settled(0, [limited]) == Some(limited)
  {
    var limited := HttpResponse(429, body);
    assert [limited, limited, ok][1..] == [limited, ok];
    assert [limited, ok][1..] == [ok];
    assert Attempts(1, [ok]) == 1 && Settled(1, [ok]) == Some(ok);
    assert Attempts(2, [limited, ok]) == 2 && Settled(2, [limited, ok]) == Some(ok);
    assert [limited, limited, limited, limited][1..] == [limited, limited, limited];
    assert [limited, limited, limited][1..] == [limited, limited];
    assert [limited, limited][1..] == [limited];
    assert Attempts(0, [limited]) == 1 && Settled(0, [limited]) == Some(limited);
    assert Attempts(1, [limited, limited]) == 2 && Settled(1, [limited, limited]) == Some(limited);
    assert Attempts(2, [limited, limited, limited]) == 3;
    assert Settled(2, [limited, limited, limited]) == Some(limited);
  }

  // ---------------------------------------------------------------------
  // The chart download
  // ---------------------------------------------------------------------

  /** What `URLSession` and the decoders delivered for a chart request; the body is tried as a chart first. */
  datatype ChartOutcome =
    | ChartTransportError(description: string)
    | ChartMissingData
    | ChartDecoded(response: ChartResponse)
    | ChartErrorBody(error: ErrorResponse)
    | ChartUndecodable(description: string)

  /** A chart request: the coin id and the `days` parameter. */
  datatype ChartRequest = ChartRequest(coinId: string, days: string)

  /** How long a downloaded chart is reused, in seconds. */
  const ChartCacheSeconds: real := 300.0

  /** The cache gate: no download when not forced and the last one is under five minutes old. */
  predicate ChartIsFresh(force: bool, lastChartFetch: Option<Date>, now: Date) {
    !force && lastChartFetch.Some? && now - lastChartFetch.value < ChartCacheSeconds
  }

  /** A forced fetch always downloads; otherwise the cache holds for exactly five minutes after a download. */
  lemma ChartCacheWindow(fetchedAt: Date, now: Date)
    ensures !ChartIsFresh(true, Some(fetchedAt), now)
    ensures !ChartIsFresh(false, None, now)
    ensures ChartIsFresh(false, Some(fetchedAt), now) <==> now < fetchedAt + 300.0
  {
  }

  predicate WellShapedPrices(prices: seq<seq<real>>) {
    forall k | 0 <= k < |prices| :: |prices[k]| >= 2
  }

  /** `json.prices.map { ChartDataPoint(time: $0[0] / 1000, price: $0[1]) }`: milliseconds become seconds. */
  function ChartPoints(prices: seq<seq<real>>): (points: seq<ChartDataPoint>)
    requires WellShapedPrices(prices)
    ensures |points| == |prices|
    ensures forall k | 0 <= k < |prices| :: points[k].time * 1000.0 == prices[k][0] && points[k].price == prices[k][1]
  {
    seq(|prices|, k requires 0 <= k < |prices| => ChartDataPoint(prices[k][0] / 1000.0, prices[k][1]))
  }

  /** Samples in ascending time order stay in ascending time order. */
  lemma ChartPointsKeepOrder(prices: seq<seq<real>>)
    requires WellShapedPrices(prices)
    requires forall j, k | 0 <= j < k < |prices| :: prices[j][0] < prices[k][0]
    ensures var points := ChartPoints(prices);
      forall j, k | 0 <= j < k < |points| :: points[j].time < points[k].time
  {
    var points := ChartPoints(prices);
    forall j, k | 0 <= j < k < |points|
      ensures points[j].time < points[k].time
    {
      assert points[j].time * 1000.0 < points[k].time * 1000.0;
    }
  }

  // ---------------------------------------------------------------------
  // The check streak
  // ---------------------------------------------------------------------

  /**
   * The streak after a check when an earlier check exists, given how many
   * calendar days ago it was: same day keeps it, the day before extends it,
   * anything else starts over.
   */
  function NextStreak(checkStreak: int, daysSinceLastCheck: int): (r: int)
    ensures daysSinceLastCheck == 0 ==> r == checkStreak
    ensures daysSinceLastCheck == 1 ==> r == checkStreak + 1
    ensures daysSinceLastCheck != 0 && daysSinceLastCheck != 1 ==> r == 1
  {
    if daysSinceLastCheck == 0 then checkStreak
    else if daysSinceLastCheck == 1 then checkStreak + 1
    else 1
  }

  /** The streak after a run of later checks, `gaps[i]` days after the one before. */
  function StreakAfter(checkStreak: int, gaps: seq<int>): int
    decreases |gaps|
  {
    if gaps == [] then checkStreak
    else StreakAfter(NextStreak(checkStreak, gaps[0]), gaps[1..])
  }

  /** How many of the gaps are exactly one day. */
  function DaysAdvanced(gaps: seq<int>): nat {
    if gaps == [] then 0 else (if gaps[0] == 1 then 1 else 0) + DaysAdvanced(gaps[1..])
  }

  /** Without a missed day the streak grows by one per new calendar day. */
  lemma {:induction false} StreakCountsDays(checkStreak: int, gaps: seq<int>)
    requires forall k | 0 <= k < |gaps| :: gaps[k] == 0 || gaps[k] == 1
    ensures StreakAfter(checkStreak, gaps) == checkStreak + DaysAdvanced(gaps)
    decreases |gaps|
  {
    if gaps != [] {
      StreakCountsDays(NextStreak(checkStreak, gaps[0]), gaps[1..]);
    }
  }

  /** Starting from the first check, the streak stays between 1 and the number of checks. */
  lemma {:induction false} StreakBounds(checkStreak: int, gaps: seq<int>)
    requires checkStreak >= 1
    ensures 1 <= StreakAfter(checkStreak, gaps) <= checkStreak + |gaps|
    decreases |gaps|
  {
    if gaps != [] {
      StreakBounds(NextStreak(checkStreak, gaps[0]), gaps[1..]);
    }
  }

  /** A missed day resets the streak to 1, whatever it was. */
  lemma StreakResets(checkStreak: int, gap: int, gaps: seq<int>)
    requires gap != 0 && gap != 1
    ensures StreakAfter(checkStreak, [gap] + gaps) == StreakAfter(1, gaps)
  {
    assert ([gap] + gaps)[1..] == gaps;
  }

  // ---------------------------------------------------------------------
  // The app state
  // ---------------------------------------------------------------------

  /** A scheduled `Timer`. */
  datatype Timer = Timer(interval: real, repeats: bool)

  /** The interval of the periodic checks, in seconds. */
  const CheckInterval: real := 120.0

  /**
   * The `@State` of the root view that the core operations touch. The tab
   * selection, dark mode and the audio player are left out.
   * `runningTimers` counts the scheduled timers not yet invalidated.
   */
  class ContentView {
    var coinData: map<string, CoinPriceData>
    var statusMessage: Status
    var showAlertFlash: bool
    var isChecking: bool
    var alertThreshold: real
    var selectedChartCoin: string
    var chartData: seq<ChartDataPoint>
    /** The holdings, shared with the entry sheet through its binding. */
    const holdings: Holdings
    var lastChartFetch: Option<Date>
    var showConfetti: bool
    var timer: Option<Timer>
    var runningTimers: nat
    var checkStreak: int
    var lastCheckDate: Option<Date>

    /** Every holding came from the entry form, and a recorded check has a streak of at least 1. */
    predicate Valid()
      reads this, holdings
    {
      && AllWellFormed(holdings.entries)
      && checkStreak >= 0
      && (lastCheckDate.Some? ==> checkStreak >= 1)
    }

    /** The timer field holds the one running timer exactly while checks are on. */
    predicate TimersAgree()
      reads this
    {
      && (timer.Some? <==> isChecking)
      && runningTimers == (if timer.Some? then 1 else 0)
    }

    constructor ()
      ensures Valid() && TimersAgree()
      ensures coinData == map[] && statusMessage == Welcome && !showAlertFlash && !isChecking
      ensures alertThreshold == 5.0 && selectedChartCoin == "bitcoin" && chartData == []
      ensures fresh(holdings) && holdings.entries == [] && lastChartFetch == None && !showConfetti
      ensures timer == None && runningTimers == 0 && checkStreak == 0 && lastCheckDate == None
    {
      coinData := map[];
      statusMessage := Welcome;
      showAlertFlash := false;
      isChecking := false;
      alertThreshold := 5.0;
      selectedChartCoin := "bitcoin";
      chartData := [];
      holdings := new Holdings([]);
      lastChartFetch := None;
      showConfetti := false;
      timer := None;
      runningTimers := 0;
      checkStreak := 0;
      lastCheckDate := None;
    }

    /** `updateStreak()`: the first check starts the streak at 1, later ones follow `NextStreak`. */
    method UpdateStreak(now: Date, daysSinceLastCheck: int)
      requires Valid()
      modifies this`checkStreak, this`lastCheckDate
      ensures Valid()
      ensures old(lastCheckDate).None? ==> checkStreak == 1
      ensures old(lastCheckDate).Some? ==> checkStreak == NextStreak(old(checkStreak), daysSinceLastCheck)
      ensures lastCheckDate == Some(now)
    {
      if lastCheckDate.None? {
        checkStreak := 1;
        lastCheckDate := Some(now);
        return;
      }
      if daysSinceLastCheck == 0 {
      } else if daysSinceLastCheck == 1 {
        checkStreak := checkStreak + 1;
      } else {
        checkStreak := 1;
      }
      lastCheckDate := Some(now);
    }

    /** `checkPricesWithRetry(retryCount:)` up to sending the request. */
    method CheckPricesWithRetry(retryCount: nat) returns (request: MarketsRequest)
      modifies this`statusMessage
      ensures statusMessage == FetchingPrices
      ensures request == MarketsRequest(TrackedIds, retryCount)
    {
      statusMessage := FetchingPrices;
      request := MarketsRequest(Joined(CoinIds(Coins), ","), retryCount);
    }

    /** `checkPrices()`: a refresh with three retries. */
    method CheckPrices() returns (request: MarketsRequest)
      modifies this`statusMessage
      ensures statusMessage == FetchingPrices
      ensures request == MarketsRequest(TrackedIds, 3)
    {
      request := CheckPricesWithRetry(3);
    }

    /**
     * The completion handler of a markets request. A retried answer changes
     * nothing and asks for a new request with one retry fewer. A decoded
     * answer replaces the price map, revalues the holdings that have a new
     * price and reports the alerts, which raise the toast, the confetti and
     * a notification for `notified`.
     */
    method CompletePriceRequest(request: MarketsRequest, outcome: PriceOutcome)
      returns (retryWith: Option<nat>, notified: seq<string>)
      requires Valid()
      modifies this`coinData, this`statusMessage, holdings, this`showAlertFlash, this`showConfetti
      ensures Valid()
      ensures retryWith.Some? <==> Retried(outcome, request.retryCount)
      ensures retryWith.Some? ==> retryWith.value == request.retryCount - 1 && notified == []
      ensures retryWith.Some? ==> statusMessage == old(statusMessage)
      ensures retryWith.None? ==> statusMessage == SettledStatus(outcome, alertThreshold)
      ensures retryWith.None? ==> notified == SettledAlerts(outcome, alertThreshold)
      ensures retryWith.None? && outcome.HttpResponse? && outcome.body.CoinList? ==>
        coinData == PriceTable(outcome.body.records) &&
        holdings.entries == Revalued(old(holdings.entries), coinData)
      ensures !(retryWith.None? && outcome.HttpResponse? && outcome.body.CoinList?) ==>
        coinData == old(coinData) && holdings.entries == old(holdings.entries)
      ensures showAlertFlash == (old(showAlertFlash) || notified != [])
      ensures showConfetti == (old(showConfetti) || notified != [])
    {
      retryWith := None;
      notified := [];
      match outcome {
        case TransportError(d) =>
          statusMessage := NetworkError(d);
        case MissingData =>
          statusMessage := NoDataReceived;
        case HttpResponse(statusCode, body) =>
          if statusCode == 429 && request.retryCount > 0 {
            retryWith := Some(request.retryCount - 1);
            return;
          }
          match body {
            case Undecodable(d) =>
              statusMessage := JsonError(d);
            case CoinList(json) =>
              var newCoinData, triggeredAlerts := BuildPriceUpdate(json, alertThreshold);
              coinData := newCoinData;
              statusMessage := PricesUpdated(triggeredAlerts);
              RevalueHoldings(newCoinData);
              if triggeredAlerts != [] {
                showAlertFlash := true;
                showConfetti := true;
                notified := triggeredAlerts;
              }
          }
      }
    }

    /** The loop over the holdings: each one whose coin got a price is revalued at it, in place. */
    method RevalueHoldings(newCoinData: map<string, CoinPriceData>)
      requires AllWellFormed(holdings.entries)
      modifies holdings
      ensures holdings.entries == Revalued(old(holdings.entries), newCoinData)
    {
      ghost var entries := holdings.entries;
      var i := 0;
      while i < |holdings.entries|
        invariant 0 <= i <= |holdings.entries| == |entries|
        invariant forall k | 0 <= k < i :: holdings.entries[k] == RevaluedEntry(entries[k], newCoinData)
        invariant forall k | i <= k < |entries| :: holdings.entries[k] == entries[k]
      {
        if holdings.entries[i].coinId in newCoinData {
          var entry := holdings.entries[i];
          entry := UpdateValues(entry, newCoinData[entry.coinId].price);
          holdings.entries := holdings.entries[i := entry];
        }
        i := i + 1;
      }
      assert holdings.entries == Revalued(entries, newCoinData);
    }

    /**
     * One refresh from the request with `retryCount` retries, fed the
     * answers in order and with no other event in between: each 429 with
     * retries left sends the next request, and the first other answer is
     * handled. `requests` are the requests sent.
     */
    method RunPriceRefresh(retryCount: nat, outcomes: seq<PriceOutcome>)
      returns (requests: seq<MarketsRequest>, notified: seq<string>)
      requires Valid()
      modifies this`coinData, this`statusMessage, holdings, this`showAlertFlash, this`showConfetti
      ensures Valid()
      ensures |requests| == Attempts(retryCount, outcomes) <= retryCount + 1
      ensures forall j | 0 <= j < |requests| :: requests[j] == MarketsRequest(TrackedIds, retryCount - j)
      ensures Settled(retryCount, outcomes).None? ==>
        statusMessage == FetchingPrices && notified == [] &&
        coinData == old(coinData) && holdings.entries == old(holdings.entries)
      ensures Settled(retryCount, outcomes).Some? ==>
        var outcome := Settled(retryCount, outcomes).value;
        && statusMessage == SettledStatus(outcome, alertThreshold)
        && notified == SettledAlerts(outcome, alertThreshold)
        && (outcome.HttpResponse? && outcome.body.CoinList? ==>
              coinData == PriceTable(outcome.body.records) &&
              holdings.entries == Revalued(old(holdings.entries), coinData))
        && (!(outcome.HttpResponse? && outcome.body.CoinList?) ==>
              coinData == old(coinData) && holdings.entries == old(holdings.entries))
      ensures showAlertFlash == (old(showAlertFlash) || notified != [])
      ensures showConfetti == (old(showConfetti) || notified != [])
      decreases retryCount
    {
      AttemptsBound(retryCount, outcomes);
      var request := CheckPricesWithRetry(retryCount);
      if outcomes == [] {
        requests := [request];
        notified := [];
        return;
      }
      var retryWith;
      retryWith, notified := CompletePriceRequest(request, outcomes[0]);
      if retryWith.Some? {
        var rest;
        rest, notified := RunPriceRefresh(retryWith.value, outcomes[1..]);
        requests := [request] + rest;
      } else {
        requests := [request];
      }
    }

    /**
     * The portfolio tab presenting the "Add Holding" sheet: the sheet gets
     * the tracked coins and a binding to this view's holdings.
     */
    method ShowAddSheet(now: Date) returns (sheet: AddPortfolioEntryView)
      requires Valid()
      ensures fresh(sheet) && sheet.Valid()
      ensures sheet.holdings == holdings && sheet.coins == Coins
      ensures sheet.selectedCoinIndex == 0 && sheet.amount == "" && sheet.purchasePrice == "" && sheet.purchaseDate == now
    {
      sheet := new AddPortfolioEntryView(Coins, holdings, now);
    }

    /**
     * Saving the sheet: its `addEntry` appends to this view's own holdings,
     * which stay well formed, so later refreshes revalue the new holding and
     * the totals include it.
     */
    method SaveAddSheet(sheet: AddPortfolioEntryView, parseDouble: string -> Option<real>, id: Uuid)
      requires Valid() && sheet.Valid() && sheet.holdings == holdings
      modifies holdings
      ensures Valid()
      ensures var amountValue, priceValue := parseDouble(sheet.amount), parseDouble(sheet.purchasePrice);
        holdings.entries == old(holdings.entries) +
          if Accepts(amountValue, priceValue)
          then [NewPortfolioEntry(id, sheet.coins[sheet.selectedCoinIndex].1, amountValue.value, priceValue.value, sheet.purchaseDate)]
          else []
    {
      sheet.AddEntry(parseDouble, id);
    }

    /** `fetchChartData(force:)` up to sending the request; `None` when the cached chart is kept. */
    method FetchChartData(force: bool, now: Date) returns (request: Option<ChartRequest>)
      modifies this`statusMessage
      ensures request.None? <==> ChartIsFresh(force, lastChartFetch, now)
      ensures request.None? ==> statusMessage == UsingCachedChart(CoinName(Coins, selectedChartCoin))
      ensures request.Some? ==> statusMessage == FetchingChart(CoinName(Coins, selectedChartCoin))
      ensures request.Some? ==> request.value == ChartRequest(selectedChartCoin, "1")
    {
      if !force && lastChartFetch.Some? && now - lastChartFetch.value < 300.0 {
        statusMessage := UsingCachedChart(CoinName(Coins, selectedChartCoin));
        return None;
      }
      statusMessage := FetchingChart(CoinName(Coins, selectedChartCoin));
      request := Some(ChartRequest(selectedChartCoin, "1"));
    }

    /**
     * The completion handler of a chart request. Only a decoded chart
     * replaces the series and restarts the cache clock; the name in the
     * message is that of the coin selected when the answer arrives.
     */
    method CompleteChartRequest(outcome: ChartOutcome, now: Date)
      requires outcome.ChartDecoded? ==> WellShapedPrices(outcome.response.prices)
      modifies this`chartData, this`lastChartFetch, this`statusMessage
      ensures outcome.ChartDecoded? ==>
        chartData == ChartPoints(outcome.response.prices) && lastChartFetch == Some(now) &&
        statusMessage == ChartUpdated(CoinName(Coins, selectedChartCoin))
      ensures !outcome.ChartDecoded? ==> chartData == old(chartData) && lastChartFetch == old(lastChartFetch)
      ensures outcome.ChartTransportError? ==> statusMessage == ChartNetworkError(outcome.description)
      ensures outcome.ChartMissingData? ==> statusMessage == NoChartData
      ensures outcome.ChartErrorBody? ==> statusMessage == ChartError(outcome.error.status.errorMessage)
      ensures outcome.ChartUndecodable? ==> statusMessage == ChartJsonError(outcome.description)
    {
      match outcome {
        case ChartTransportError(d) =>
          statusMessage := ChartNetworkError(d);
        case ChartMissingData =>
          statusMessage := NoChartData;
        case ChartDecoded(json) =>
          chartData := ChartPoints(json.prices);
          lastChartFetch := Some(now);
          statusMessage := ChartUpdated(CoinName(Coins, selectedChartCoin));
        case ChartErrorBody(errorResponse) =>
          statusMessage := ChartError(errorResponse.status.errorMessage);
        case ChartUndecodable(d) =>
          statusMessage := ChartJsonError(d);
      }
    }

    /**
     * One round of checks, as run at launch, on every timer tick and when
     * checks start: a price refresh, a chart fetch, a streak update.
     */
    method PollCycle(now: Date, daysSinceLastCheck: int)
      returns (priceRequest: MarketsRequest, chartRequest: Option<ChartRequest>)
      requires Valid()
      modifies this`statusMessage, this`checkStreak, this`lastCheckDate
      ensures Valid()
      ensures priceRequest == MarketsRequest(TrackedIds, 3)
      ensures chartRequest.None? <==> ChartIsFresh(false, lastChartFetch, now)
      ensures chartRequest.None? ==> statusMessage == UsingCachedChart(CoinName(Coins, selectedChartCoin))
      ensures chartRequest.Some? ==>
        statusMessage == FetchingChart(CoinName(Coins, selectedChartCoin)) &&
        chartRequest.value == ChartRequest(selectedChartCoin, "1")
      ensures old(lastCheckDate).None? ==> checkStreak == 1
      ensures old(lastCheckDate).Some? ==> checkStreak == NextStreak(old(checkStreak), daysSinceLastCheck)
      ensures lastCheckDate == Some(now)
    {
      priceRequest := CheckPrices();
      chartRequest := FetchChartData(false, now);
      UpdateStreak(now, daysSinceLastCheck);
    }

    /**
     * `startChecking()`: schedules a repeating 120-second timer without
     * invalidating one already held, runs a round of checks and shows the
     * toast, whose message is then the chart's.
     */
    method StartChecking(now: Date, daysSinceLastCheck: int)
      returns (priceRequest: MarketsRequest, chartRequest: Option<ChartRequest>)
      requires Valid()
      modifies this`isChecking, this`statusMessage, this`timer, this`runningTimers,
        this`checkStreak, this`lastCheckDate, this`showAlertFlash
      ensures Valid()
      ensures isChecking && showAlertFlash
      ensures timer == Some(Timer(CheckInterval, true)) && runningTimers == old(runningTimers) + 1
      ensures priceRequest == MarketsRequest(TrackedIds, 3)
      ensures chartRequest.None? <==> ChartIsFresh(false, lastChartFetch, now)
      ensures chartRequest.None? ==> statusMessage == UsingCachedChart(CoinName(Coins, selectedChartCoin))
      ensures chartRequest.Some? ==>
        statusMessage == FetchingChart(CoinName(Coins, selectedChartCoin)) &&
        chartRequest.value == ChartRequest(selectedChartCoin, "1")
      ensures old(lastCheckDate).None? ==> checkStreak == 1
      ensures old(lastCheckDate).Some? ==> checkStreak == NextStreak(old(checkStreak), daysSinceLastCheck)
      ensures lastCheckDate == Some(now)
    {
      isChecking := true;
      statusMessage := StartingChecks;
      timer := Some(Timer(120.0, true));
      runningTimers := runningTimers + 1;
      priceRequest, chartRequest := PollCycle(now, daysSinceLastCheck);
      showAlertFlash := true;
    }

    /** `stopChecking()`: invalidates the timer it holds and shows the toast. */
    method StopChecking()
      modifies this`isChecking, this`timer, this`runningTimers, this`statusMessage, this`showAlertFlash
      ensures !isChecking && timer == None && statusMessage == ChecksStopped && showAlertFlash
      ensures runningTimers == if old(timer).Some? && old(runningTimers) > 0 then old(runningTimers) - 1 else old(runningTimers)
    {
      isChecking := false;
      if timer.Some? && runningTimers > 0 {
        runningTimers := runningTimers - 1;
      }
      timer := None;
      statusMessage := ChecksStopped;
      showAlertFlash := true;
    }

    /**
     * The settings toggle: the binding stores the new value, then the
     * change handler starts or stops the checks. Through the toggle no
     * timer is ever left running unheld.
     */
    method ToggleChecking(newValue: bool, now: Date, daysSinceLastCheck: int)
      returns (priceRequest: Option<MarketsRequest>, chartRequest: Option<ChartRequest>)
      requires Valid() && TimersAgree()
      requires newValue != isChecking
      modifies this`isChecking, this`statusMessage, this`timer, this`runningTimers,
        this`checkStreak, this`lastCheckDate, this`showAlertFlash
      ensures Valid() && TimersAgree()
      ensures isChecking == newValue
      ensures runningTimers == if newValue then 1 else 0
      ensures showAlertFlash
      ensures newValue ==> timer == Some(Timer(CheckInterval, true))
      ensures newValue ==> priceRequest == Some(MarketsRequest(TrackedIds, 3))
      ensures newValue ==> (chartRequest.None? <==> ChartIsFresh(false, lastChartFetch, now))
      ensures newValue && chartRequest.None? ==> statusMessage == UsingCachedChart(CoinName(Coins, selectedChartCoin))
      ensures newValue && chartRequest.Some? ==>
        statusMessage == FetchingChart(CoinName(Coins, selectedChartCoin)) &&
        chartRequest.value == ChartRequest(selectedChartCoin, "1")
      ensures newValue && old(lastCheckDate).None? ==> checkStreak == 1
      ensures newValue && old(lastCheckDate).Some? ==> checkStreak == NextStreak(old(checkStreak), daysSinceLastCheck)
      ensures newValue ==> lastCheckDate == Some(now)
      ensures !newValue ==> priceRequest.None? && chartRequest.None? && statusMessage == ChecksStopped
      ensures !newValue ==> timer == None && checkStreak == old(checkStreak) && lastCheckDate == old(lastCheckDate)
    {
      isChecking := newValue;
      if newValue {
        var request;
        request, chartRequest := StartChecking(now, daysSinceLastCheck);
        priceRequest := Some(request);
      } else {
        StopChecking();
        priceRequest, chartRequest := None, None;
      }
    }
  }
}
