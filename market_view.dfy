/**
 * The market list logic of MarketView.swift: the search-and-category filter
 * over the tracked coins, the fear/greed colour bands, and what a coin card
 * shows (price and change with 0 defaults, the alert border).
 *
 * A coin is a `(name, id)` pair. Lower-casing is ASCII-only.
 */
module MarketView {

  import opened Models
  import opened Seqs

  type Coin = (string, string)

  // ---------------------------------------------------------------------
  // filteredCoins
  // ---------------------------------------------------------------------

  function LowerChar(c: char): char {
    if 'A' <= c <= 'Z' then (c as int + 32) as char else c
  }

  /**
   * `lowercased()` on ASCII text: no capital is left, a capital becomes the
   * same letter in lower case, and every other character is kept.
   */
  function Lowercased(s: string): (r: string)
    ensures |r| == |s|
    ensures forall i | 0 <= i < |r| :: !('A' <= r[i] <= 'Z')
    ensures forall i | 0 <= i < |s| && 'A' <= s[i] <= 'Z' ::
      'a' <= r[i] <= 'z' && r[i] as int - 'a' as int == s[i] as int - 'A' as int
    ensures forall i | 0 <= i < |s| && !('A' <= s[i] <= 'Z') :: r[i] == s[i]
  {
    seq(|s|, i requires 0 <= i < |s| => LowerChar(s[i]))
  }

  /** `String.contains(_:)`: `needle` occurs somewhere in `haystack`. */
  predicate Contains(haystack: string, needle: string) {
    needle <= haystack || (haystack != [] && Contains(haystack[1..], needle))
  }

  /** The search part of the filter for one coin. */
  predicate MatchesSearch(name: string, searchText: string) {
    searchText == [] || Contains(Lowercased(name), Lowercased(searchText))
  }

  lemma LowercasedIdempotent(s: string)
    ensures Lowercased(Lowercased(s)) == Lowercased(s)
  {
  }

  /** The search ignores letter case on both sides. */
  lemma SearchIgnoresCase(name: string, searchText: string)
    ensures MatchesSearch(Lowercased(name), searchText) == MatchesSearch(name, searchText)
    ensures MatchesSearch(name, Lowercased(searchText)) == MatchesSearch(name, searchText)
  {
    LowercasedIdempotent(name);
    LowercasedIdempotent(searchText);
  }

  /** `coins.filter { ... }` on the search text, in list order. */
  function FilterBySearch(coins: seq<Coin>, searchText: string): (r: seq<Coin>)
    ensures |r| <= |coins|
  {
    if coins == [] then []
    else
      var rest := FilterBySearch(coins[1..], searchText);
      if MatchesSearch(coins[0].0, searchText) then [coins[0]] + rest else rest
  }

  /** The fixed id lists of the named categories; `None` for "All" and any other name. */
  function CategoryIds(category: string): Option<seq<string>> {
    match category
    case "Meme" => Some(["dogecoin", "shiba-inu", "pepe", "bonk", "floki-inu", "dogwifhat"])
    case "DeFi" => Some(["ethereum"])
    case "Layer 1" => Some(["bitcoin", "ethereum", "solana", "cardano"])
    case "Stablecoin" => Some(["tether"])
    case _ => None
  }

  /** The category part of the filter for one coin id. */
  predicate InCategory(id: string, category: string) {
    CategoryIds(category).None? || id in CategoryIds(category).value
  }

  /** `filtered.filter { ids.contains($0.1) }`, in list order. */
  function FilterByIds(coins: seq<Coin>, ids: seq<string>): (r: seq<Coin>)
    ensures |r| <= |coins|
  {
    if coins == [] then []
    else
      var rest := FilterByIds(coins[1..], ids);
      if coins[0].1 in ids then [coins[0]] + rest else rest
  }

  /**
   * `filteredCoins`: search first, then the selected category. The result
   * is an order-preserving sub-list of the search result and of the coins,
   * and holds exactly the coins that match both the search and the category.
   */
  function FilteredCoins(coins: seq<Coin>, searchText: string, selectedCategory: string): (r: seq<Coin>)
    ensures IsSubsequence(r, FilterBySearch(coins, searchText))
    ensures IsSubsequence(r, coins)
    ensures forall c :: c in r <==> c in coins && MatchesSearch(c.0, searchText) && InCategory(c.1, selectedCategory)
  {
    var filtered := FilterBySearch(coins, searchText);
    FilterBySearchSpec(coins, searchText);
    if selectedCategory == "All" then
      SubsequenceReflexive(filtered);
      filtered
    else
      match CategoryIds(selectedCategory)
      case Some(ids) =>
        FilterByIdsSpec(filtered, ids);
        SubsequenceTransitive(FilterByIds(filtered, ids), filtered, coins);
        FilterByIds(filtered, ids)
      case None =>
        SubsequenceReflexive(filtered);
        filtered
  }

  lemma {:induction false} FilterBySearchSpec(coins: seq<Coin>, searchText: string)
    ensures IsSubsequence(FilterBySearch(coins, searchText), coins)
    ensures forall c :: c in FilterBySearch(coins, searchText) <==> c in coins && MatchesSearch(c.0, searchText)
  {
    if coins != [] {
      FilterBySearchSpec(coins[1..], searchText);
      assert coins == [coins[0]] + coins[1..];
    }
  }

  lemma {:induction false} FilterByIdsSpec(coins: seq<Coin>, ids: seq<string>)
    ensures IsSubsequence(FilterByIds(coins, ids), coins)
    ensures forall c :: c in FilterByIds(coins, ids) <==> c in coins && c.1 in ids
  {
    if coins != [] {
      FilterByIdsSpec(coins[1..], ids);
      assert coins == [coins[0]] + coins[1..];
    }
  }

  /** An empty search keeps the whole list. */
  lemma {:induction false} EmptySearchKeepsAll(coins: seq<Coin>)
    ensures FilterBySearch(coins, "") == coins
  {
    if coins != [] {
      EmptySearchKeepsAll(coins[1..]);
      assert coins == [coins[0]] + coins[1..];
    }
  }

  /** With no search text and category "All", the list is shown unchanged. */
  lemma UnfilteredShowsAll(coins: seq<Coin>)
    ensures FilteredCoins(coins, "", "All") == coins
  {
    EmptySearchKeepsAll(coins);
  }

  /** A category name outside the fixed list behaves like "All". */
  lemma UnknownCategoryIsAll(coins: seq<Coin>, searchText: string, selectedCategory: string)
    requires selectedCategory !in {"Meme", "DeFi", "Layer 1", "Stablecoin"}
    ensures FilteredCoins(coins, searchText, selectedCategory) == FilteredCoins(coins, searchText, "All")
  {
  }

  // ---------------------------------------------------------------------
  // MarketOverviewCard.fearGreedColor
  // ---------------------------------------------------------------------

  /** The colours of the fear/greed tag, from extreme fear to extreme greed. */
  datatype GaugeColor = AlertRed | Orange | Highlight | SuccessTeal | Green

  function Rank(c: GaugeColor): nat {
    match c
    case AlertRed => 0
    case Orange => 1
    case Highlight => 2
    case SuccessTeal => 3
    case Green => 4
  }

  function FearGreedColor(index: int): (c: GaugeColor)
    ensures c == AlertRed <==> index <= 25
    ensures c == Orange <==> 25 < index <= 45
    ensures c == Highlight <==> 45 < index <= 55
    ensures c == SuccessTeal <==> 55 < index <= 75
    ensures c == Green <==> 75 < index
  {
    if index <= 25 then AlertRed
    else if index <= 45 then Orange
    else if index <= 55 then Highlight
    else if index <= 75 then SuccessTeal
    else Green
  }

  /** The bands are contiguous: a higher index never gets a lower band. */
  lemma FearGreedMonotone(i: int, j: int)
    requires i <= j
    ensures Rank(FearGreedColor(i)) <= Rank(FearGreedColor(j))
  {
  }

  // ---------------------------------------------------------------------
  // CoinCard
  // ---------------------------------------------------------------------

  /** The border of a card: clear, or the success or alert colour. */
  datatype Border = Clear | SuccessBorder | AlertBorder

  /** What a coin card shows: price and change (0 when the coin has no data) and its border. */
  datatype CardDisplay = CardDisplay(price: real, change: real, border: Border)

  function Abs(x: real): (r: real)
    ensures r >= 0.0 && (r == x || r == -x)
  {
    if x < 0.0 then -x else x
  }

  function CoinCardDisplay(coinData: map<string, CoinPriceData>, id: string, alertThreshold: real): (d: CardDisplay)
    ensures id !in coinData ==> d.price == 0.0 && d.change == 0.0
    ensures id in coinData ==> d.price == coinData[id].price && d.change == coinData[id].change
    ensures d.border != Clear <==> Abs(d.change) >= alertThreshold
    ensures d.border == SuccessBorder <==> Abs(d.change) >= alertThreshold && d.change >= 0.0
  {
    var price := if id in coinData then coinData[id].price else 0.0;
    var change := if id in coinData then coinData[id].change else 0.0;
    var border :=
      if Abs(change) >= alertThreshold then (if change >= 0.0 then SuccessBorder else AlertBorder)
      else Clear;
    CardDisplay(price, change, border)
  }

  /** A card with no data has a border only when the threshold is not positive. */
  lemma MissingCoinCard(coinData: map<string, CoinPriceData>, id: string, alertThreshold: real)
    requires id !in coinData && alertThreshold > 0.0
    ensures CoinCardDisplay(coinData, id, alertThreshold) == CardDisplay(0.0, 0.0, Clear)
  {
  }
}
