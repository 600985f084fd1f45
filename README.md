# CryptoTrade core, modelled in Dafny

CryptoTrade is a SwiftUI app that tracks the prices of twelve crypto coins. This project models
the logic under its views and proves properties of it:

- **Price refresh.** The app asks the markets API for every tracked coin in a single request. The decoded
  records replace the price map wholesale; a missing price or change counts as 0. Coins whose
  24-hour change reaches the alert threshold raise an alert, and every holding whose coin got a
  new price is revalued in place. An HTTP 429 answer is retried up to three times.
- **Chart download.** The app downloads the chart of the selected coin. A five-minute cache sits in
  front of it, and it has a single timestamp shared by all coins.
- **Check streak.** A counter of consecutive calendar days on which the app checked prices.
- **Periodic checks.** The settings toggle starts and stops a 120-second timer.
- **Portfolio valuation.** Each holding's derived value, profit and percentage; the summary totals;
  the simulated performance series; and the entry form, which accepts a holding only when both
  numbers parse and are positive.
- **Market list.** The search and category filter, the fear/greed colour bands, and the
  alert border of a coin card.
- **Helpers.** Hex colour strings to integer ARGB components, the precision tier of a price, the
  suffix tier of a large number, the coin icon table, and the relative-time wording.

The project has one module per Swift file: `Models`, `Helpers`, `MarketView`, `PortfolioView`
and `ContentView`. A small module `Seqs` defines order-preserving sub-lists.

Some Swift values are modelled as plain data:

- `Double` is `real`, a `Date` is a number of seconds, and a `UUID` is a natural number supplied by the caller.
- Swift structs that are values become datatypes. So the `mutating` method `updateValues` becomes a
  function that returns the updated holding.
- The root view's `@State` becomes the class `ContentView.ContentView`. The entry sheet becomes
  `PortfolioView.AddPortfolioEntryView`. The holdings list is a `PortfolioView.Holdings` object.
  The root view and the sheet hold the same object, as the Swift `@Binding` shares one array. So a
  holding the sheet appends is one the root view then revalues and totals.

Whatever the app gets from Foundation or the network is passed in as a parameter:

- **Markets request.** Sending it returns a `MarketsRequest` value. Its answer arrives later, through
  `CompletePriceRequest`, as a `PriceOutcome`: a transport error, missing data, or an HTTP status
  with a body that either decoded to coin records or did not.
- **Chart request.** The same scheme, with a `ChartOutcome`; the body is tried as a chart first,
  then as an API error.
- **`Double(String)`** is a function parameter.
- **The calendar.** For the streak, it is the number of calendar days since the last check. For the
  relative time, it is the optional day, hour and minute components.
- **The clock** is a `now` parameter.

## Model

| member | source | states |
|---|---|---|
| Models.NewPortfolioEntry | CryptoTrade/Models.swift:67-76 | a new holding keeps its coin, amount, purchase price and date, and its value, profit and percentage start at 0 |
| Models.UpdateValues | CryptoTrade/Models.swift:78-82 | identity, amount and purchase fields are unchanged; value is amount × price; profit is amount × (price − purchase price); the percentage times the purchase price is 100 × (price − purchase price) |
| Models.UpdateValuesLastWins | CryptoTrade/Models.swift:78-82 | the derived fields do not depend on earlier updates: updating at p then q equals updating at q |
| Models.UpdateValuesIdempotent | CryptoTrade/Models.swift:78-82 | updating twice with the same price equals updating once |
| Models.UpdateValuesWellFormed | CryptoTrade/Models.swift:78-82 | an update keeps amount and purchase price positive |
| Models.ProfitSignAgrees | CryptoTrade/Models.swift:78-82 | for a positive holding, profit and percentage are positive (negative) exactly when the price is above (below) the purchase price |
| Models.TimeFrame.Id | CryptoTrade/Models.swift:114 | a frame's id parses back, through the raw-value initializer, to the same frame |
| Models.TimeFrameFromRawValue | CryptoTrade/Models.swift:106-112 | a parsed frame has the given raw value |
| Models.TimeFrameRawValueRoundTrip | CryptoTrade/Models.swift:106-114 | parsing a frame's raw value gives the frame back, and every frame is among the listed cases |
| Models.TimeFrameIdsDistinct | CryptoTrade/Models.swift:106-125 | two frames share an id, or a `days` value, only when they are the same frame |
| Helpers.TrimNonAlphanumerics | CryptoTrade/Helpers.swift:43 | the trimmed string is empty or starts and ends with a letter or digit |
| Helpers.TrimMargins | CryptoTrade/Helpers.swift:43 | trimming removes exactly the non-alphanumeric margins around an alphanumeric-bounded core |
| Helpers.ScanHexInt | CryptoTrade/Helpers.swift:44-45 | the scanned value is below 16^length, and is the hex value of the whole string when it is all hex digits |
| Helpers.ColorComponents | CryptoTrade/Helpers.swift:42-54 | every component is at most 255; lengths other than 3, 6 and 8 give opaque black; lengths 3 and 6 are opaque |
| Helpers.ShortComponents | CryptoTrade/Helpers.swift:48 | three digits give an opaque colour with components at most 255 |
| Helpers.RgbComponents | CryptoTrade/Helpers.swift:49 | six digits give an opaque colour with components at most 255 |
| Helpers.ArgbComponents | CryptoTrade/Helpers.swift:50 | eight digits give components at most 255 |
| Helpers.ColorFromRgb | CryptoTrade/Helpers.swift:43-49 | "#RRGGBB" parses to (255, R, G, B): red, green and blue are bytes 2, 1 and 0 of the value |
| Helpers.ColorFromArgb | CryptoTrade/Helpers.swift:43-50 | "#AARRGGBB" parses to (A, R, G, B): alpha is the top byte |
| Helpers.ColorFromShort | CryptoTrade/Helpers.swift:43-48 | "#RGB" parses to (255, 17R, 17G, 17B), so F becomes 255 |
| Helpers.PriceDecimals | CryptoTrade/Helpers.swift:85-95 | 6 decimals exactly below 0.01, 4 exactly from 0.01 up to 1, otherwise 2 |
| Helpers.PriceDecimalsAntitone | CryptoTrade/Helpers.swift:85-95 | a dearer price never gets more decimals |
| Helpers.LargeNumberParts | CryptoTrade/Helpers.swift:97-111 | the mantissa times the suffix's power is the number; there is no suffix exactly below 1000; with K or M the mantissa is in [1, 1000) |
| Helpers.CoinIconInjective | CryptoTrade/Helpers.swift:113-130 | two ids with the same non-default icon are the same id |
| Helpers.ElapsedBucket | CryptoTrade/Helpers.swift:65-79 | days are reported iff the day component is positive, else hours iff positive, else minutes iff positive, else "just now", with the component's count |
| Helpers.TimeAgoDisplay | CryptoTrade/Helpers.swift:65-79 | the text reads back as the bucket the components fall in, and is "Just now" exactly when no component is positive |
| Helpers.DecimalRoundTrip | CryptoTrade/Helpers.swift:71-76 | the interpolated count reads back as the same number |
| Helpers.WordingShape | CryptoTrade/Helpers.swift:71-76 | a counted wording starts with the count's digits, a space and the unit's letter |
| Helpers.ReadWordingRoundTrip | CryptoTrade/Helpers.swift:70-78 | the wording can be read back into its bucket and count |
| Helpers.WordingInjective | CryptoTrade/Helpers.swift:70-78 | different buckets or counts never produce the same text |
| MarketView.Lowercased | CryptoTrade/MarketView.swift:30 | lower-casing keeps the length and leaves no capital letter; each capital becomes the same letter in lower case, and every other character is kept |
| MarketView.SearchIgnoresCase | CryptoTrade/MarketView.swift:30 | lower-casing the name or the search text first does not change whether a coin matches |
| MarketView.FilterBySearchSpec | CryptoTrade/MarketView.swift:26-32 | the search keeps an order-preserving sub-list holding exactly the coins whose name matches |
| MarketView.FilterByIdsSpec | CryptoTrade/MarketView.swift:39-46 | a category keeps an order-preserving sub-list holding exactly the coins whose id is in its set |
| MarketView.EmptySearchKeepsAll | CryptoTrade/MarketView.swift:26-29 | an empty search keeps every coin |
| MarketView.UnfilteredShowsAll | CryptoTrade/MarketView.swift:26-35 | an empty search with category "All" shows the list unchanged |
| MarketView.FilteredCoins | CryptoTrade/MarketView.swift:25-50 | the result is an order-preserving sub-list of the search result and of the coins, holding exactly the coins that match the search and the category |
| MarketView.UnknownCategoryIsAll | CryptoTrade/MarketView.swift:47-48 | a category outside the four named ones behaves like "All" |
| MarketView.FearGreedColor | CryptoTrade/MarketView.swift:198-210 | the five colours are exactly the bands ≤25, 26-45, 46-55, 56-75 and >75 |
| MarketView.FearGreedMonotone | CryptoTrade/MarketView.swift:198-210 | a higher index never gets a lower band |
| MarketView.CoinCardDisplay | CryptoTrade/MarketView.swift:221-267 | a coin without data shows 0 and 0; the border is drawn iff abs(change) reaches the threshold, in the success colour iff the change is also non-negative |
| MarketView.MissingCoinCard | CryptoTrade/MarketView.swift:221-222 | with a positive threshold a card without data has no border |
| PortfolioView.ProfitPercentage | CryptoTrade/PortfolioView.swift:33-40 | 0 without investment, otherwise the percentage times the investment is 100 × the total profit |
| PortfolioView.TotalValue | CryptoTrade/PortfolioView.swift:19-23 | holdings from the entry form are worth nothing negative at non-negative prices |
| PortfolioView.TotalProfit | CryptoTrade/PortfolioView.swift:25-31 | the profit total is the value total less the investment total |
| PortfolioView.TotalInvestment | CryptoTrade/PortfolioView.swift:34-36 | holdings from the entry form never add up to a negative investment, and to a positive one as soon as there is one |
| PortfolioView.ProfitPercentageSign | CryptoTrade/PortfolioView.swift:19-40 | with holdings, the percentage is positive (negative) exactly when the value exceeds (falls short of) the investment |
| PortfolioView.TotalsAppend | CryptoTrade/PortfolioView.swift:19-37 | appending a holding adds its value, cost and profit to the totals |
| PortfolioView.HoldingRow | CryptoTrade/PortfolioView.swift:164-169 | a row shows the derived fields `updateValues` would give at the current price (0 when missing), and its value and profit are the holding's share of the totals |
| PortfolioView.HoldingRowExamples | CryptoTrade/PortfolioView.swift:164-169 | two coins bought at 100 show 300, 100 and 50% at 150, and 0, −200 and −100% without a price |
| PortfolioView.SamplePerformanceData | CryptoTrade/PortfolioView.swift:235-298 | one point per date the calendar could compute, in order, plus the final point (now, total value), so at most 13/25/8/31/13 points; values stay non-negative |
| PortfolioView.AddPortfolioEntryView.constructor | CryptoTrade/PortfolioView.swift:302-311 | the sheet starts with the first coin, empty fields and today's date |
| PortfolioView.AddPortfolioEntryView.AddEntry | CryptoTrade/PortfolioView.swift:455-470 | on the bound holdings list, exactly one holding (the selected coin, the entered amount, price and date, zero derived fields) is appended iff both fields parse to positive numbers; otherwise the list is unchanged |
| ContentView.TrackedCoinsHaveIcons | CryptoTrade/Helpers.swift:113-130 | every tracked coin has an icon of its own, and no two tracked coins share one |
| ContentView.SplitJoinRoundTrip | CryptoTrade/ContentView.swift:232 | splitting at the separator undoes joining parts that do not contain it |
| ContentView.TrackedIdsRoundTrip | CryptoTrade/ContentView.swift:232-233 | the markets request names all twelve tracked coins, in order, and nothing else |
| ContentView.CoinNameSpec | CryptoTrade/ContentView.swift:308 | the name in a chart message is that of the first coin with the id, or "coin" |
| ContentView.PriceTableKeys | CryptoTrade/ContentView.swift:263-273 | the new price map holds exactly the ids of the response; coins absent from it disappear |
| ContentView.PriceTableLastWins | CryptoTrade/ContentView.swift:265-268 | an id maps to (price ?? 0, change ?? 0) of its last record in the response |
| ContentView.AlertNames | CryptoTrade/ContentView.swift:264-271 | one name per record whose abs(change ?? 0) reaches the threshold |
| ContentView.AlertNamesOrder | CryptoTrade/ContentView.swift:264-271 | the alerts keep response order: an alerting record's name (name ?? id) stands at the position counting the alerting records before it |
| ContentView.AlertNamesSpec | CryptoTrade/ContentView.swift:264-271 | an alert names exactly the coins (name ?? id) whose abs(change ?? 0) is at least the threshold |
| ContentView.AlertThresholdMonotone | CryptoTrade/ContentView.swift:269-271 | raising the threshold only drops alerts, keeping the rest in response order |
| ContentView.CardBorderMatchesAlert | CryptoTrade/ContentView.swift:265-271 | after a refresh a coin card is bordered exactly when that coin raised an alert at the same threshold |
| ContentView.BuildPriceUpdate | CryptoTrade/ContentView.swift:263-272 | the loop builds the price map and the alert list described by the two lemmas above |
| ContentView.Revalued | CryptoTrade/ContentView.swift:277-283 | the refresh keeps the number of holdings and keeps them well formed |
| ContentView.RevaluedSpec | CryptoTrade/ContentView.swift:277-283 | each holding keeps its identity and purchase; holdings with a new price are valued at it and the others are untouched |
| ContentView.RevaluedIdempotent | CryptoTrade/ContentView.swift:277-283 | refreshing twice with the same prices equals refreshing once |
| ContentView.RevaluedMatchesTotals | CryptoTrade/ContentView.swift:277-283 | when every holding got a price, the stored values and profits add up to the summary card's totals |
| ContentView.AttemptsBound | CryptoTrade/ContentView.swift:253-258 | a refresh sends at most retryCount + 1 requests, so at most 4 from `checkPrices` |
| ContentView.SettledIsFirstNotRetried | CryptoTrade/ContentView.swift:253-258 | every answer before the handled one was a 429; the handled one is the first answer that is not a 429, or the 429 that arrives once the retries are spent |
| ContentView.RetryExamples | CryptoTrade/ContentView.swift:227-258 | 429, 429, 200 takes three requests; four 429s take four and the fourth is decoded; a 429 with no retries left is decoded |
| ContentView.ChartCacheWindow | CryptoTrade/ContentView.swift:307 | a forced fetch, or one with no earlier download, always downloads; otherwise the cache holds for exactly 300 seconds after the last download |
| ContentView.ChartPoints | CryptoTrade/ContentView.swift:336 | one point per row, with time in seconds equal to the row's milliseconds over 1000 and the row's price |
| ContentView.ChartPointsKeepOrder | CryptoTrade/ContentView.swift:336 | samples in ascending time stay in ascending time |
| ContentView.NextStreak | CryptoTrade/ContentView.swift:182-188 | a check on the same day keeps the streak, on the next day extends it by one, otherwise resets it to 1 |
| ContentView.StreakCountsDays | CryptoTrade/ContentView.swift:174-190 | without a missed day the streak grows by one per new calendar day |
| ContentView.StreakBounds | CryptoTrade/ContentView.swift:174-190 | from the first check on, the streak stays between 1 and the number of checks |
| ContentView.StreakResets | CryptoTrade/ContentView.swift:186-188 | a missed day resets the streak to 1 whatever it was |
| ContentView.ContentView.constructor | CryptoTrade/ContentView.swift:16-28 | the initial state: empty prices, the welcome message, threshold 5, bitcoin selected, no timer, streak 0 |
| ContentView.ContentView.UpdateStreak | CryptoTrade/ContentView.swift:174-190 | the first check sets the streak to 1, later ones follow `NextStreak`; the last check date is now, so the streak is at least 1 |
| ContentView.ContentView.CheckPricesWithRetry | CryptoTrade/ContentView.swift:230-236 | sends one markets request for all tracked ids with the given retries and shows the fetching message |
| ContentView.ContentView.CheckPrices | CryptoTrade/ContentView.swift:225-228 | a refresh starts with three retries |
| ContentView.ContentView.CompletePriceRequest | CryptoTrade/ContentView.swift:238-302 | a 429 with retries left changes nothing and asks for a retry with one fewer. Errors change only the message. A decoded answer replaces the map, revalues the holdings and reports the alerts, which raise the toast, the confetti and a notification |
| ContentView.ContentView.RevalueHoldings | CryptoTrade/ContentView.swift:277-283 | the loop leaves the shared holdings equal to `Revalued` of the old ones: each holding with a new price is revalued in place, the others untouched |
| ContentView.ContentView.RunPriceRefresh | CryptoTrade/ContentView.swift:230-303 | over a sequence of answers: the requests sent (at most retryCount + 1, with retries counting down) and the final state, which is that of the first answer not retried |
| ContentView.ContentView.ShowAddSheet | CryptoTrade/PortfolioView.swift:221-228 | the sheet is handed the tracked coins and this view's own holdings object, and opens with the first coin and empty fields |
| ContentView.ContentView.SaveAddSheet | CryptoTrade/PortfolioView.swift:455-470 | saving the sheet appends the accepted holding to this view's holdings, which stay well formed |
| ContentView.ContentView.FetchChartData | CryptoTrade/ContentView.swift:305-316 | nothing is requested exactly when the cache is fresh; otherwise the selected coin's one-day chart is requested; the message names the coin |
| ContentView.ContentView.CompleteChartRequest | CryptoTrade/ContentView.swift:318-350 | only a decoded chart replaces the series and restarts the cache clock; every outcome sets its own message |
| ContentView.ContentView.PollCycle | CryptoTrade/ContentView.swift:195-202 | one round sends a price refresh with three retries, fetches the chart through the cache and updates the streak |
| ContentView.ContentView.StartChecking | CryptoTrade/ContentView.swift:192-209 | checks are on, a 120-second repeating timer is scheduled (one more running timer), and a round runs: a three-retry price request, the selected coin's one-day chart request unless the cache is fresh, and the streak update with the check date now; the toast shows the chart's message |
| ContentView.ContentView.StopChecking | CryptoTrade/ContentView.swift:211-222 | checks are off, the held timer is invalidated and cleared, and the toast shows the stop message |
| ContentView.ContentView.ToggleChecking | CryptoTrade/ContentView.swift:122-128 | through the settings toggle, exactly one timer runs while checks are on and none while they are off; switching on runs the round `StartChecking` states (requests, chart message, streak, check date), switching off shows the stop message and leaves the streak alone; the toast shows either way |

## Left out

- SwiftUI layout, colours, fonts, navigation, the tab selection and dark mode: presentation only. SettingsView, NewsView, UtilityViews and ChartView are not part of this model.
- `URLSession`, URL building and the "Invalid URL!" branches: a request is a value and its answer an argument. The URLs are built from fixed ids, so `URL(string:)` never fails for them.
- `JSONDecoder`: the outcome datatypes say what decoding produced.
- `DispatchQueue` and `Timer` scheduling: the 60-second retry delay, the 2-second toast and confetti resets, and the timer's firing are not modelled. A timer tick is a call to `PollCycle`. Responses can arrive in any order relative to other calls, and a response can arrive after checks stop; the model has no guard against either, and neither has the app.
- Notifications, the alert sound and haptics: `CompletePriceRequest` returns the alert names a notification would carry and does not model the rest. The notification permission request and the audio setup of `setupApp` are left out.
- `String(format:)` and `Text(... specifier:)`: the formatters return the tier they choose (decimals, or mantissa and suffix), not the text.
- `formattedCurrentPrice` of the entry sheet and the holding row's display name: display text only.
- Floating point: `Double` is `real`, so there is no rounding, NaN or infinity. The final `/ 255` colour conversion is left out.
- Randomness: `samplePerformanceData` takes the random steps and the calendar's dates as inputs, and the confetti is a flag.
- Helpers.ScanHexInt: reads the longest prefix of hex digits. It does not accept the optional "0x" prefix that `Scanner` skips, and it does not model 64-bit overflow. Overflow cannot change a colour, because only 3, 6 or 8 digits give one.
- Helpers.TrimNonAlphanumerics: letters and digits are ASCII only. `CharacterSet.alphanumerics` also covers other Unicode letters and digits.
- MarketView.Lowercased: ASCII lower-casing only.
- Helpers.ColorComponents: counts Unicode code points. Swift's `hex.count` counts grapheme clusters, so an inner "\r\n" counts as one character there. The app only passes colour literals, so no caller is affected.
- PortfolioView.SamplePerformanceData: states the dates, the number of points, the final point and non-negativity. It does not state the intermediate values, which are random.
- ContentView.ContentView.CompleteChartRequest: requires every decoded price row to have at least two numbers. The Swift code would trap on a shorter row.
- Models.UpdateValues: requires a non-zero purchase price. The entry form only creates positive ones, and Swift would produce infinity or NaN.

## Behaviour worth knowing

- **Late responses.** A price or chart response that arrives after checks were stopped is still applied.
- **A 429 with no retries left.** It is not reported as rate limiting. Its body goes to the decoder, so the message is usually a JSON error.
- **Chart cache.** One timestamp covers all coins. Switching coins within five minutes shows the cached message and downloads nothing for the new coin. A chart answer is stored whatever coin is selected when it arrives, and its message names the coin selected at that moment.
- **Starting checks twice.** A second call to `startChecking` schedules another timer without invalidating the first, which keeps running with nothing holding it. Through the settings toggle this cannot happen, as `ToggleChecking` shows.
