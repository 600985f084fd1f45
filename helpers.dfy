/**
 * Pure helpers of Helpers.swift: hex colour parsing down to integer ARGB
 * components, the precision tier of a price, the suffix tier of a large
 * number, the coin icon table, and the relative-time wording.
 *
 * Foreign calls are modelled as follows: the scanner reads the longest prefix
 * of hex digits; `String(format:)` is left out, so the formatters return the
 * tier they choose (decimals, or the scaled value and its suffix).
 */
module Helpers {

  import opened Models

  // ---------------------------------------------------------------------
  // Color(hex:)
  // ---------------------------------------------------------------------

  /** Integer alpha, red, green and blue components, before the `/ 255` scaling. */
  datatype Argb = Argb(a: nat, r: nat, g: nat, b: nat)

  /** ASCII letters and digits (`CharacterSet.alphanumerics` restricted to ASCII). */
  predicate IsAlphanumeric(c: char) {
    ('a' <= c <= 'z') || ('A' <= c <= 'Z') || ('0' <= c <= '9')
  }

  function TrimLeading(s: string): (r: string)
    ensures |r| <= |s| && r == s[|s| - |r|..]
    ensures r == [] || IsAlphanumeric(r[0])
    ensures forall i | 0 <= i < |s| - |r| :: !IsAlphanumeric(s[i])
  {
    if s != [] && !IsAlphanumeric(s[0]) then
      var r := TrimLeading(s[1..]);
      assert s[1..][|s| - 1 - |r|..] == s[|s| - |r|..];
      assert forall i | 1 <= i < |s| - |r| :: s[i] == s[1..][i - 1];
      r
    else s
  }

  function TrimTrailing(s: string): (r: string)
    ensures |r| <= |s| && r == s[..|r|]
    ensures r == [] || IsAlphanumeric(r[|r| - 1])
    ensures forall i | |r| <= i < |s| :: !IsAlphanumeric(s[i])
  {
    if s != [] && !IsAlphanumeric(s[|s| - 1]) then
      var r := TrimTrailing(s[..|s| - 1]);
      assert forall i | |r| <= i < |s| - 1 :: s[i] == s[..|s| - 1][i];
      r
    else s
  }

  /** `trimmingCharacters(in: CharacterSet.alphanumerics.inverted)`. */
  function TrimNonAlphanumerics(s: string): (r: string)
    ensures r == [] || (IsAlphanumeric(r[0]) && IsAlphanumeric(r[|r| - 1]))
  {
    TrimTrailing(TrimLeading(s))
  }

  /** Trimming removes exactly the non-alphanumeric margins around an alphanumeric-bounded core. */
  lemma {:induction false} TrimMargins(pre: string, core: string, post: string)
    requires forall c | c in pre :: !IsAlphanumeric(c)
    requires forall c | c in post :: !IsAlphanumeric(c)
    requires core != [] && IsAlphanumeric(core[0]) && IsAlphanumeric(core[|core| - 1])
    ensures TrimNonAlphanumerics(pre + core + post) == core
  {
    assert pre + core + post == pre + (core + post);
    TrimLeadingMargin(pre, core + post);
    TrimTrailingMargin(core, post);
  }

  lemma {:induction false} TrimLeadingMargin(pre: string, s: string)
    requires forall c | c in pre :: !IsAlphanumeric(c)
    requires s != [] && IsAlphanumeric(s[0])
    ensures TrimLeading(pre + s) == s
    decreases |pre|
  {
    if pre != [] {
      assert (pre + s)[1..] == pre[1..] + s;
      TrimLeadingMargin(pre[1..], s);
    }
  }

  lemma {:induction false} TrimTrailingMargin(s: string, post: string)
    requires forall c | c in post :: !IsAlphanumeric(c)
    requires s != [] && IsAlphanumeric(s[|s| - 1])
    ensures TrimTrailing(s + post) == s
    decreases |post|
  {
    if post != [] {
      var shorter := post[..|post| - 1];
      assert (s + post)[..|s + post| - 1] == s + shorter;
      TrimTrailingMargin(s, shorter);
    } else {
      assert s + post == s;
    }
  }

  predicate IsHexDigit(c: char) {
    ('0' <= c <= '9') || ('a' <= c <= 'f') || ('A' <= c <= 'F')
  }

  predicate AllHexDigits(s: string) {
    forall c | c in s :: IsHexDigit(c)
  }

  function HexDigitValue(c: char): (v: nat)
    requires IsHexDigit(c)
    ensures v < 16
  {
    if '0' <= c <= '9' then (c - '0') as nat
    else if 'a' <= c <= 'f' then (c - 'a') as nat + 10
    else (c - 'A') as nat + 10
  }

  function Pow16(n: nat): (p: nat)
    ensures p >= 1
  {
    if n == 0 then 1 else 16 * Pow16(n - 1)
  }

  lemma {:induction false} Pow16Monotone(m: nat, n: nat)
    requires m <= n
    ensures Pow16(m) <= Pow16(n)
    decreases n
  {
    if m < n {
      Pow16Monotone(m, n - 1);
    }
  }

  /** The value of a string of hex digits, most significant first. */
  function HexValue(d: string): (v: nat)
    requires AllHexDigits(d)
    ensures v < Pow16(|d|)
  {
    if d == [] then 0
    else
      var init := d[..|d| - 1];
      assert forall c | c in init :: c in d;
      HexValue(init) * 16 + HexDigitValue(d[|d| - 1])
  }

  /** How many hex digits the string starts with. */
  function HexPrefixLength(s: string): (n: nat)
    ensures n <= |s| && AllHexDigits(s[..n])
    ensures n < |s| ==> !IsHexDigit(s[n])
  {
    if s != [] && IsHexDigit(s[0]) then
      var n := 1 + HexPrefixLength(s[1..]);
      assert s[..n] == [s[0]] + s[1..][..n - 1];
      n
    else 0
  }

  /** `Scanner.scanHexInt64`: the value of the leading hex digits, 0 when there are none. */
  function ScanHexInt(s: string): (v: nat)
    ensures v < Pow16(|s|)
    ensures AllHexDigits(s) ==> v == HexValue(s)
  {
    var n := HexPrefixLength(s);
    Pow16Monotone(n, |s|);
    assert AllHexDigits(s) ==> s[..n] == s;
    HexValue(s[..n])
  }

  /** `Color.init(hex:)` up to the final division by 255. */
  function ColorComponents(hex: string): (c: Argb)
    ensures c.a <= 255 && c.r <= 255 && c.g <= 255 && c.b <= 255
    ensures |TrimNonAlphanumerics(hex)| !in {3, 6, 8} ==> c == Argb(255, 0, 0, 0)
    ensures |TrimNonAlphanumerics(hex)| in {3, 6} ==> c.a == 255
  {
    var h := TrimNonAlphanumerics(hex);
    var v := ScanHexInt(h);
    Pow16Values();
    if |h| == 3 then ShortComponents(v)
    else if |h| == 6 then RgbComponents(v)
    else if |h| == 8 then ArgbComponents(v)
    else Argb(255, 0, 0, 0)
  }

  /** Three digits: one nibble per channel, scaled by 17. */
  function ShortComponents(v: nat): (c: Argb)
    requires v < 4096
    ensures c.a == 255 && c.r <= 255 && c.g <= 255 && c.b <= 255
  {
    ShortBounds(v);
    Argb(255, (v / 256) * 17, (v / 16 % 16) * 17, (v % 16) * 17)
  }

  /** Six digits: one byte per channel, opaque. */
  function RgbComponents(v: nat): (c: Argb)
    requires v < 16777216
    ensures c.a == 255 && c.r <= 255 && c.g <= 255 && c.b <= 255
  {
    RgbBounds(v);
    Argb(255, v / 65536, v / 256 % 256, v % 256)
  }

  /** Eight digits: alpha, red, green, blue from the top byte down. */
  function ArgbComponents(v: nat): (c: Argb)
    requires v < 4294967296
    ensures c.a <= 255 && c.r <= 255 && c.g <= 255 && c.b <= 255
  {
    ArgbBounds(v);
    Argb(v / 16777216, v / 65536 % 256, v / 256 % 256, v % 256)
  }

  lemma Pow16Values()
    ensures Pow16(2) == 256 && Pow16(3) == 4096 && Pow16(6) == 16777216 && Pow16(8) == 4294967296
  {
  }

  lemma ShortBounds(v: nat)
    requires v < 4096
    ensures v / 256 * 17 <= 255 && v / 16 % 16 * 17 <= 255 && v % 16 * 17 <= 255
  {
    assert v == 256 * (v / 256) + v % 256;
    assert v / 256 < 16;
  }

  lemma RgbBounds(v: nat)
    requires v < 16777216
    ensures v / 65536 <= 255 && v / 256 % 256 <= 255 && v % 256 <= 255
  {
    assert v == 65536 * (v / 65536) + v % 65536;
    assert v / 65536 < 256;
  }

  lemma ArgbBounds(v: nat)
    requires v < 4294967296
    ensures v / 16777216 <= 255 && v / 65536 % 256 <= 255 && v / 256 % 256 <= 255 && v % 256 <= 255
  {
    assert v == 16777216 * (v / 16777216) + v % 16777216;
    assert v / 16777216 < 256;
  }

  // An encoder, the inverse of the parser on well-formed colour strings.

  const HexAlphabet: string := "0123456789ABCDEF"

  function HexNibble(x: nat): (s: string)
    requires x < 16
    ensures |s| == 1 && IsHexDigit(s[0]) && IsAlphanumeric(s[0]) && HexDigitValue(s[0]) == x
    ensures AllHexDigits(s)
  {
    [HexAlphabet[x]]
  }

  function HexByte(x: nat): (s: string)
    requires x < 256
    ensures |s| == 2 && AllHexDigits(s)
    ensures IsAlphanumeric(s[0]) && IsAlphanumeric(s[1])
  {
    HexNibble(x / 16) + HexNibble(x % 16)
  }

  lemma {:induction false} HexValueAppend(x: string, y: string)
    requires AllHexDigits(x) && AllHexDigits(y)
    ensures AllHexDigits(x + y)
    ensures HexValue(x + y) == HexValue(x) * Pow16(|y|) + HexValue(y)
    decreases |y|
  {
    AllHexDigitsAppend(x, y);
    if y == [] {
      assert x + y == x;
    } else {
      var init := y[..|y| - 1];
      var last := HexDigitValue(y[|y| - 1]);
      AllHexDigitsPrefix(y);
      assert (x + y)[..|x + y| - 1] == x + init;
      assert (x + y)[|x + y| - 1] == y[|y| - 1];
      HexValueAppend(x, init);
      HexValueLast(x + y);
      HexValueLast(y);
      ShiftDigit(HexValue(x), Pow16(|init|), HexValue(init), last);
    }
  }

  lemma AllHexDigitsAppend(x: string, y: string)
    requires AllHexDigits(x) && AllHexDigits(y)
    ensures AllHexDigits(x + y)
  {
    assert forall c | c in x + y :: c in x || c in y;
  }

  lemma AllHexDigitsPrefix(y: string)
    requires y != [] && AllHexDigits(y)
    ensures AllHexDigits(y[..|y| - 1])
  {
    assert forall c | c in y[..|y| - 1] :: c in y;
  }

  /** Unfolds `HexValue` once: the last digit is the least significant. */
  lemma HexValueLast(s: string)
    requires s != [] && AllHexDigits(s)
    ensures AllHexDigits(s[..|s| - 1])
    ensures HexValue(s) == HexValue(s[..|s| - 1]) * 16 + HexDigitValue(s[|s| - 1])
  {
    AllHexDigitsPrefix(s);
  }

  lemma ShiftDigit(high: int, scale: int, low: int, digit: int)
    ensures (high * scale + low) * 16 + digit == high * (16 * scale) + (low * 16 + digit)
  {
  }

  lemma HexValueByte(x: nat)
    requires x < 256
    ensures HexValue(HexByte(x)) == x
  {
    var s := HexByte(x);
    HexValueAppend(HexNibble(x / 16), HexNibble(x % 16));
    assert HexValue(HexNibble(x / 16)) == x / 16;
    assert HexValue(HexNibble(x % 16)) == x % 16;
  }

  lemma DivModNibble(v: nat, hi: nat, lo: nat)
    requires lo < 16 && v == hi * 16 + lo
    ensures v / 16 == hi && v % 16 == lo
  {
  }

  lemma DivModBytes(v: nat, hi: nat, lo: nat)
    requires lo < 256 && v == hi * 256 + lo
    ensures v / 256 == hi && v % 256 == lo
  {
  }

  lemma DivModShorts(v: nat, hi: nat, lo: nat)
    requires lo < 65536 && v == hi * 65536 + lo
    ensures v / 65536 == hi
  {
  }

  lemma DivModTriples(v: nat, hi: nat, lo: nat)
    requires lo < 16777216 && v == hi * 16777216 + lo
    ensures v / 16777216 == hi
  {
  }

  /** "#RRGGBB" */
  function HexRgb(r: nat, g: nat, b: nat): string
    requires r < 256 && g < 256 && b < 256
  {
    "#" + HexByte(r) + HexByte(g) + HexByte(b)
  }

  /** "#AARRGGBB" */
  function HexArgb(a: nat, r: nat, g: nat, b: nat): string
    requires a < 256 && r < 256 && g < 256 && b < 256
  {
    "#" + HexByte(a) + HexByte(r) + HexByte(g) + HexByte(b)
  }

  /** "#RGB" */
  function HexShort(r: nat, g: nat, b: nat): string
    requires r < 16 && g < 16 && b < 16
  {
    "#" + HexNibble(r) + HexNibble(g) + HexNibble(b)
  }

  lemma TrimHash(d: string)
    requires d != [] && IsAlphanumeric(d[0]) && IsAlphanumeric(d[|d| - 1])
    ensures TrimNonAlphanumerics("#" + d) == d
  {
    TrimMargins("#", d, "");
    assert "#" + d + "" == "#" + d;
  }

  /** Six digits: opaque, with red, green and blue as bytes 2, 1 and 0 of the value. */
  lemma {:induction false} ColorFromRgb(r: nat, g: nat, b: nat)
    requires r < 256 && g < 256 && b < 256
    ensures ColorComponents(HexRgb(r, g, b)) == Argb(255, r, g, b)
  {
    var d := HexByte(r) + HexByte(g) + HexByte(b);
    assert HexRgb(r, g, b) == "#" + d;
    TrimHash(d);
    RgbDigitsValue(r, g, b);
    RgbArithmetic(ScanHexInt(d), r, g, b);
  }

  lemma RgbDigitsValue(r: nat, g: nat, b: nat)
    requires r < 256 && g < 256 && b < 256
    ensures var d := HexByte(r) + HexByte(g) + HexByte(b);
      AllHexDigits(d) && HexValue(d) == (r * 256 + g) * 256 + b
  {
    Pow16Values();
    HexValueByte(r);
    HexValueByte(g);
    HexValueByte(b);
    var rg := HexByte(r) + HexByte(g);
    HexValueAppend(HexByte(r), HexByte(g));
    assert HexValue(rg) == r * 256 + g;
    HexValueAppend(rg, HexByte(b));
    assert HexValue(rg + HexByte(b)) == (r * 256 + g) * 256 + b;
  }

  lemma RgbArithmetic(v: nat, r: nat, g: nat, b: nat)
    requires r < 256 && g < 256 && b < 256
    requires v == (r * 256 + g) * 256 + b
    ensures v < 16777216 && RgbComponents(v) == Argb(255, r, g, b)
  {
    DivModBytes(v, r * 256 + g, b);
    DivModBytes(r * 256 + g, r, g);
    DivModShorts(v, r, g * 256 + b);
  }

  /** Eight digits are read as ARGB: alpha is the top byte. */
  lemma {:induction false} ColorFromArgb(a: nat, r: nat, g: nat, b: nat)
    requires a < 256 && r < 256 && g < 256 && b < 256
    ensures ColorComponents(HexArgb(a, r, g, b)) == Argb(a, r, g, b)
  {
    var d := HexByte(a) + HexByte(r) + HexByte(g) + HexByte(b);
    assert HexArgb(a, r, g, b) == "#" + d;
    TrimHash(d);
    ArgbDigitsValue(a, r, g, b);
    ArgbArithmetic(ScanHexInt(d), a, r, g, b);
  }

  lemma ArgbDigitsValue(a: nat, r: nat, g: nat, b: nat)
    requires a < 256 && r < 256 && g < 256 && b < 256
    ensures var d := HexByte(a) + HexByte(r) + HexByte(g) + HexByte(b);
      AllHexDigits(d) && HexValue(d) == ((a * 256 + r) * 256 + g) * 256 + b
  {
    Pow16Values();
    HexValueByte(a);
    HexValueByte(r);
    HexValueByte(g);
    HexValueByte(b);
    var ar := HexByte(a) + HexByte(r);
    HexValueAppend(HexByte(a), HexByte(r));
    assert HexValue(ar) == a * 256 + r;
    var arg := ar + HexByte(g);
    HexValueAppend(ar, HexByte(g));
    assert HexValue(arg) == (a * 256 + r) * 256 + g;
    HexValueAppend(arg, HexByte(b));
    assert HexValue(arg + HexByte(b)) == ((a * 256 + r) * 256 + g) * 256 + b;
  }

  lemma ArgbArithmetic(v: nat, a: nat, r: nat, g: nat, b: nat)
    requires a < 256 && r < 256 && g < 256 && b < 256
    requires v == ((a * 256 + r) * 256 + g) * 256 + b
    ensures v / 16777216 == a && v / 65536 % 256 == r && v / 256 % 256 == g && v % 256 == b
  {
    DivModBytes(v, (a * 256 + r) * 256 + g, b);
    DivModBytes((a * 256 + r) * 256 + g, a * 256 + r, g);
    DivModShorts(v, a * 256 + r, g * 256 + b);
    DivModBytes(a * 256 + r, a, r);
    DivModTriples(v, a, (r * 256 + g) * 256 + b);
  }

  /** Three digits: each nibble is scaled by 17, so 0xF becomes 255. */
  lemma {:induction false} ColorFromShort(r: nat, g: nat, b: nat)
    requires r < 16 && g < 16 && b < 16
    ensures ColorComponents(HexShort(r, g, b)) == Argb(255, r * 17, g * 17, b * 17)
  {
    var d := HexNibble(r) + HexNibble(g) + HexNibble(b);
    assert HexShort(r, g, b) == "#" + d;
    TrimHash(d);
    ShortDigitsValue(r, g, b);
    ShortArithmetic(ScanHexInt(d), r, g, b);
  }

  lemma ShortDigitsValue(r: nat, g: nat, b: nat)
    requires r < 16 && g < 16 && b < 16
    ensures var d := HexNibble(r) + HexNibble(g) + HexNibble(b);
      AllHexDigits(d) && HexValue(d) == (r * 16 + g) * 16 + b
  {
    var x, y, z := HexNibble(r), HexNibble(g), HexNibble(b);
    assert HexValue(x) == r && HexValue(y) == g && HexValue(z) == b;
    HexValueAppend(x, y);
    HexValueAppend(x + y, z);
  }

  lemma ShortArithmetic(v: nat, r: nat, g: nat, b: nat)
    requires r < 16 && g < 16 && b < 16
    requires v == (r * 16 + g) * 16 + b
    ensures v / 256 * 17 == r * 17 && v / 16 % 16 * 17 == g * 17 && v % 16 * 17 == b * 17
  {
    DivModNibble(v, r * 16 + g, b);
    DivModNibble(r * 16 + g, r, g);
    DivModBytes(v, r, g * 16 + b);
  }

  // ---------------------------------------------------------------------
  // formatPrice and formatLargeNumber
  // ---------------------------------------------------------------------

  /** The number of decimals `formatPrice` prints. */
  function PriceDecimals(price: real): (d: nat)
    ensures d in {2, 4, 6}
    ensures d == 6 <==> price < 0.01
    ensures d == 4 <==> 0.01 <= price < 1.0
  {
    if price < 0.01 then 6
    else if price < 1.0 then 4
    else if price < 1000.0 then 2
    else 2
  }

  /** Cheaper coins never get fewer decimals than dearer ones. */
  lemma PriceDecimalsAntitone(p: real, q: real)
    requires p <= q
    ensures PriceDecimals(q) <= PriceDecimals(p)
  {
  }

  /** The value `formatLargeNumber` prints with two decimals, and its suffix. */
  datatype Scaled = Scaled(mantissa: real, suffix: string)

  function SuffixScale(suffix: string): real {
    if suffix == "B" then 1000000000.0
    else if suffix == "M" then 1000000.0
    else if suffix == "K" then 1000.0
    else 1.0
  }

  function LargeNumberParts(number: real): (s: Scaled)
    ensures s.suffix in {"B", "M", "K", ""}
    ensures s.mantissa * SuffixScale(s.suffix) == number
    ensures number >= 1000.0 ==> s.mantissa >= 1.0
    ensures s.suffix != "B" ==> s.mantissa < 1000.0
    ensures s.suffix == "" <==> number < 1000.0
  {
    var billion := 1000000000.0;
    var million := 1000000.0;
    var thousand := 1000.0;
    if number >= billion then Scaled(number / billion, "B")
    else if number >= million then Scaled(number / million, "M")
    else if number >= thousand then Scaled(number / thousand, "K")
    else Scaled(number, "")
  }

  // ---------------------------------------------------------------------
  // coinIcon(for:)
  // ---------------------------------------------------------------------

  const DefaultCoinIcon: string := "default_coin_icon"

  function CoinIcon(id: string): string {
    match id
    case "bitcoin" => "btc"
    case "ethereum" => "eth"
    case "dogecoin" => "doge"
    case "shiba-inu" => "shib"
    case "pepe" => "pepe"
    case "bonk" => "bonk"
    case "floki-inu" => "floki"
    case "dogwifhat" => "wif"
    case "solana" => "sol"
    case "xrp" => "xrp"
    case "cardano" => "ada"
    case "tether" => "tether-usdt-icon"
    case _ => DefaultCoinIcon
  }

  /** Known coins have icons of their own: the table is injective off the default. */
  lemma CoinIconInjective(x: string, y: string)
    requires CoinIcon(x) == CoinIcon(y) && CoinIcon(x) != DefaultCoinIcon
    ensures x == y
  {
  }

  // ---------------------------------------------------------------------
  // Date.timeAgoDisplay()
  // ---------------------------------------------------------------------

  /** The bucket `timeAgoDisplay` reports, with its positive count. */
  datatype Elapsed = Days(days: nat) | Hours(hours: nat) | Minutes(minutes: nat) | JustNow

  predicate Positive(component: Option<int>) {
    component.Some? && component.value > 0
  }

  /** Days win over hours, hours over minutes; no positive component reads as just now. */
  function ElapsedBucket(day: Option<int>, hour: Option<int>, minute: Option<int>): (e: Elapsed)
    ensures e.Days? <==> Positive(day)
    ensures e.Hours? <==> !Positive(day) && Positive(hour)
    ensures e.Minutes? <==> !Positive(day) && !Positive(hour) && Positive(minute)
    ensures e.Days? ==> e.days == day.value
    ensures e.Hours? ==> e.hours == hour.value
    ensures e.Minutes? ==> e.minutes == minute.value
  {
    if Positive(day) then Days(day.value)
    else if Positive(hour) then Hours(hour.value)
    else if Positive(minute) then Minutes(minute.value)
    else JustNow
  }

  function DigitChar(d: nat): (c: char)
    requires d < 10
    ensures '0' <= c <= '9'
  {
    "0123456789"[d]
  }

  predicate AllDigits(s: string) {
    forall c | c in s :: '0' <= c <= '9'
  }

  /** String interpolation of a natural number. */
  function DecimalString(n: nat): (s: string)
    ensures s != [] && AllDigits(s)
  {
    if n < 10 then [DigitChar(n)]
    else
      var s := DecimalString(n / 10) + [DigitChar(n % 10)];
      assert forall c | c in s :: c in DecimalString(n / 10) || c == DigitChar(n % 10);
      s
  }

  function DecimalValue(s: string): nat
    requires AllDigits(s)
  {
    if s == [] then 0
    else
      var init := s[..|s| - 1];
      assert forall c | c in init :: c in s;
      assert s[|s| - 1] in s;
      DecimalValue(init) * 10 + (s[|s| - 1] - '0') as nat
  }

  lemma {:induction false} DecimalRoundTrip(n: nat)
    ensures DecimalValue(DecimalString(n)) == n
  {
    if n >= 10 {
      DecimalRoundTrip(n / 10);
      var s := DecimalString(n);
      assert s[..|s| - 1] == DecimalString(n / 10);
    }
  }

  function Plural(n: nat): string {
    if n == 1 then "" else "s"
  }

  /** The wording of a bucket. */
  function Wording(e: Elapsed): string {
    match e
    case Days(d) => if d == 1 then "Yesterday" else DecimalString(d) + " days ago"
    case Hours(h) => DecimalString(h) + " hour" + Plural(h) + " ago"
    case Minutes(m) => DecimalString(m) + " minute" + Plural(m) + " ago"
    case JustNow => "Just now"
  }

  /**
   * `timeAgoDisplay()`: the text names the bucket the components fall in,
   * and reads "Just now" exactly when no component is positive.
   */
  function TimeAgoDisplay(day: Option<int>, hour: Option<int>, minute: Option<int>): (r: string)
    ensures ReadWording(r) == ElapsedBucket(day, hour, minute)
    ensures r == "Just now" <==> !Positive(day) && !Positive(hour) && !Positive(minute)
  {
    var e := ElapsedBucket(day, hour, minute);
    ReadWordingRoundTrip(e);
    Wording(e)
  }

  /** The digits that open a counted wording, and the letter that follows them. */
  lemma {:induction false} WordingShape(e: Elapsed, n: nat, next: char)
    requires (e.Days? && e.days == n && n != 1 && next == 'd')
          || (e.Hours? && e.hours == n && next == 'h')
          || (e.Minutes? && e.minutes == n && next == 'm')
    ensures var w := Wording(e); var k := |DecimalString(n)|;
      |w| > k + 1 && w[..k] == DecimalString(n) && w[k] == ' ' && w[k + 1] == next
  {
  }

  /** How many decimal digits the string starts with. */
  function DigitRunLength(w: string): (k: nat)
    ensures k <= |w|
  {
    if w != [] && '0' <= w[0] <= '9' then 1 + DigitRunLength(w[1..]) else 0
  }

  lemma {:induction false} DigitRunOf(d: string, rest: string)
    requires AllDigits(d)
    requires rest != [] && !('0' <= rest[0] <= '9')
    ensures DigitRunLength(d + rest) == |d|
    decreases |d|
  {
    if d != [] {
      assert d[0] in d;
      assert forall c | c in d[1..] :: c in d;
      assert (d + rest)[1..] == d[1..] + rest;
      DigitRunOf(d[1..], rest);
    } else {
      assert d + rest == rest;
    }
  }

  /** Reads a wording back into its bucket: the left inverse of `Wording`. */
  function ReadWording(w: string): Elapsed {
    if w == "Yesterday" then Days(1)
    else if w == "Just now" then JustNow
    else
      var k := DigitRunLength(w);
      assert forall c | c in w[..k] :: c in w;
      var n := if AllDigits(w[..k]) then DecimalValue(w[..k]) else 0;
      if k + 1 < |w| && w[k + 1] == 'd' then Days(n)
      else if k + 1 < |w| && w[k + 1] == 'h' then Hours(n)
      else Minutes(n)
  }

  lemma {:induction false} ReadWordingRoundTrip(e: Elapsed)
    requires e.Days? ==> e.days > 0
    ensures ReadWording(Wording(e)) == e
  {
    if !e.JustNow? && !(e.Days? && e.days == 1) {
      var n := CountOf(e);
      var d := DecimalString(n);
      var w := Wording(e);
      WordingShape(e, n, Initial(e));
      assert w == d + w[|d|..];
      DigitRunOf(d, w[|d|..]);
      assert w[0] == d[0] && d[0] in d;
      assert w != "Yesterday" && w != "Just now";
      DecimalRoundTrip(n);
    }
  }

  /** Different buckets never share a wording, so the text determines the bucket and its count. */
  lemma WordingInjective(e: Elapsed, f: Elapsed)
    requires e.Days? ==> e.days > 0
    requires f.Days? ==> f.days > 0
    requires Wording(e) == Wording(f)
    ensures e == f
  {
    ReadWordingRoundTrip(e);
    ReadWordingRoundTrip(f);
  }

  function CountOf(e: Elapsed): nat
    requires !e.JustNow?
  {
    match e
    case Days(d) => d
    case Hours(h) => h
    case Minutes(m) => m
  }

  function Initial(e: Elapsed): char {
    match e
    case Days(_) => 'd'
    case Hours(_) => 'h'
    case Minutes(_) => 'm'
    case JustNow => 'J'
  }
}
