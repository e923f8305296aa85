/**
 * The market-metric report: for each configured coin, the fields read from
 * the market-data provider's record, with defaults for everything missing,
 * and the sentence the broadcast narrates. Amounts and percentages are
 * integer hundredths (`-350` is -3.50 %, `6543210` is $65,432.10).
 */
module Metrics {
  import opened Wrappers
  import Text
  import Format

  /** The coins reported on, in report order. */
  const COINS: seq<string> := ["bitcoin", "ethereum", "solana", "cosmos"]

  /** A per-currency price table such as `current_price`: currency code to hundredths. */
  type Quote = map<string, int>

  /** The `market_data` object of a provider record; every field may be absent. */
  datatype MarketData = MarketData(
    currentPrice: Option<Quote>,
    change24h: Option<int>,
    change7d: Option<int>,
    marketCap: Option<Quote>,
    totalVolume: Option<Quote>,
    high24h: Option<Quote>,
    low24h: Option<Quote>)

  /** A provider record for one coin; every field may be absent. */
  datatype CoinData = CoinData(name: Option<string>, symbol: Option<string>, marketData: Option<MarketData>)

  /** The values the report is made from, once every default is applied. */
  datatype Snapshot = Snapshot(
    name: string, symbol: string, price: int, change24h: int, change7d: int,
    marketCap: int, volume24h: int, high24h: int, low24h: int)

  /** `table.get("usd", 0)` on a table defaulting to `{}`. */
  function Usd(q: Option<Quote>): int {
    if q.Some? && "usd" in q.value then q.value["usd"] else 0
  }

  /** Reading a provider record: a missing name is "Unknown", a missing symbol "UNKNOWN", a missing number 0. */
  function Read(d: CoinData): Snapshot {
    var m := d.marketData.GetOr(MarketData(None, None, None, None, None, None, None));
    Snapshot(
      d.name.GetOr("Unknown"),
      Text.Upper(d.symbol.GetOr("Unknown")),
      Usd(m.currentPrice),
      m.change24h.GetOr(0),
      m.change7d.GetOr(0),
      Usd(m.marketCap),
      Usd(m.totalVolume),
      Usd(m.high24h),
      Usd(m.low24h))
  }

  /** The opening of the sentence, up to the trend word. */
  function Lead(s: Snapshot): string {
    s.name + " (" + s.symbol + ") is currently trading at $" + Format.Money(s.price) + ", "
  }

  /** The trend word, chosen by the sign of the 24-hour change. */
  function Trend(s: Snapshot): string {
    if s.change24h >= 0 then "up" else "down"
  }

  /** The 24-hour figure right after the trend word: its magnitude only. */
  function DailyFigure(s: Snapshot): string {
    " " + Format.Fixed2(Format.Abs(s.change24h)) + "%"
  }

  /** The rest of the sentence: the weekly figure, also as a magnitude, and the day's range. */
  function Rest(s: Snapshot): string {
    " in the last 24 hours and " + Format.Fixed2(Format.Abs(s.change7d)) + "% over the past week. "
    + "Today's high and low prices were $" + Format.Money(s.high24h)
    + " and $" + Format.Money(s.low24h) + "."
  }

  /** Everything after the trend word. */
  function Figures(s: Snapshot): string {
    DailyFigure(s) + Rest(s)
  }

  function Sentence(s: Snapshot): string {
    Lead(s) + Trend(s) + Figures(s)
  }

  /** The narration for one provider record. */
  function MetricText(d: CoinData): string {
    Sentence(Read(d))
  }

  // ---------------------------------------------------------------------
  // Properties of the report

  /** Every absent field is replaced by its default; present fields are taken as they are. */
  lemma MissingFieldsDefault(d: CoinData)
    ensures var s := Read(d);
      && (d.name.None? ==> s.name == "Unknown")
      && (d.name.Some? ==> s.name == d.name.value)
      && (d.symbol.None? ==> s.symbol == "UNKNOWN")
      && (d.symbol.Some? ==> s.symbol == Text.Upper(d.symbol.value))
      && (d.marketData.None? ==> s.price == 0 && s.change24h == 0 && s.change7d == 0
                                 && s.marketCap == 0 && s.volume24h == 0
                                 && s.high24h == 0 && s.low24h == 0)
      && (d.marketData.Some? && d.marketData.value.change24h.None? ==> s.change24h == 0)
      && (d.marketData.Some? && d.marketData.value.change24h.Some? ==> s.change24h == d.marketData.value.change24h.value)
      && (d.marketData.Some? && d.marketData.value.change7d.None? ==> s.change7d == 0)
      && (d.marketData.Some? && d.marketData.value.change7d.Some? ==> s.change7d == d.marketData.value.change7d.value)
  {
    if d.symbol.None? {
      var u := Text.Upper("Unknown");
      assert u[0] == 'U' && u[1] == 'N' && u[2] == 'K' && u[3] == 'N';
      assert u[4] == 'O' && u[5] == 'W' && u[6] == 'N';
      assert u == "UNKNOWN";
    }
  }

  /**
   * Inside a present `market_data`, a price table that is missing, or that has
   * no "usd" entry, reads as 0; otherwise its "usd" entry is taken.
   */
  lemma NestedTablesDefault(d: CoinData)
    requires d.marketData.Some?
    ensures var s, m := Read(d), d.marketData.value;
      && (m.currentPrice.None? || "usd" !in m.currentPrice.value ==> s.price == 0)
      && (m.currentPrice.Some? && "usd" in m.currentPrice.value ==> s.price == m.currentPrice.value["usd"])
      && (m.high24h.None? || "usd" !in m.high24h.value ==> s.high24h == 0)
      && (m.high24h.Some? && "usd" in m.high24h.value ==> s.high24h == m.high24h.value["usd"])
      && (m.low24h.None? || "usd" !in m.low24h.value ==> s.low24h == 0)
      && (m.low24h.Some? && "usd" in m.low24h.value ==> s.low24h == m.low24h.value["usd"])
      && (m.marketCap.None? || "usd" !in m.marketCap.value ==> s.marketCap == 0)
      && (m.marketCap.Some? && "usd" in m.marketCap.value ==> s.marketCap == m.marketCap.value["usd"])
      && (m.totalVolume.None? || "usd" !in m.totalVolume.value ==> s.volume24h == 0)
      && (m.totalVolume.Some? && "usd" in m.totalVolume.value ==> s.volume24h == m.totalVolume.value["usd"])
  {
  }

  /** Where a word is spliced between two strings, it can be read back at that position. */
  lemma SplicedWord(l: string, w: string, t: string)
    ensures |l + w + t| == |l| + |w| + |t|
    ensures (l + w + t)[..|l|] == l
    ensures (l + w + t)[|l|..|l| + |w|] == w
    ensures (l + w + t)[|l| + |w|..] == t
  {
  }

  lemma TrendWordAt(l: string, w: string, f: string)
    requires w == "up" || w == "down"
    requires |f| >= 3 && f[0] == ' '
    ensures var t, k := l + w + f, |l|;
      && |t| >= k + 5
      && t[..k] == l
      && (w == "up" <==> t[k..k + 3] == "up ")
      && (w == "down" <==> t[k..k + 5] == "down ")
  {
    var t, k := l + w + f, |l|;
    assert t[..k] == l;
    assert t[k..] == w + f;
    if w == "up" {
      assert t[k..k + 3] == (w + f)[..3];
      assert (w + f)[..3] == "up ";
      assert t[k..k + 5][0] == 'u';
    } else {
      assert t[k..k + 5] == (w + f)[..5];
      assert (w + f)[..5] == "down ";
      assert t[k..k + 3][0] == 'd';
    }
  }

  /**
   * The trend word follows the opening and is "up" exactly when the 24-hour
   * change is not negative, "down" exactly when it is negative; a space
   * follows it either way.
   */
  lemma TrendWordFollowsSign(s: Snapshot)
    ensures var t, k := Sentence(s), |Lead(s)|;
      && |t| >= k + 5
      && t[..k] == Lead(s)
      && (s.change24h >= 0 <==> t[k..k + 3] == "up ")
      && (s.change24h < 0 <==> t[k..k + 5] == "down ")
  {
    var l, w, f := Lead(s), Trend(s), Figures(s);
    Format.Fixed2Value(Format.Abs(s.change24h));
    assert f[0] == ' ';
    assert Sentence(s) == l + w + f;
    TrendWordAt(l, w, f);
  }

  /**
   * A rise and a fall of the same size give sentences that differ only in the
   * trend word: the daily figure printed is the magnitude.
   */
  lemma DailySignOnlyPicksWord(s: Snapshot, c: nat)
    requires c > 0
    ensures var up, down, k := Sentence(s.(change24h := c)), Sentence(s.(change24h := -(c as int))), |Lead(s)|;
      && |up| + 2 == |down| && k + 2 <= |up|
      && up[..k] == down[..k]
      && up[k..k + 2] == "up" && down[k..k + 4] == "down"
      && up[k + 2..] == down[k + 4..]
  {
    var rise, fall := s.(change24h := c), s.(change24h := -(c as int));
    assert Format.Abs(-(c as int)) == c;
    assert Figures(rise) == Figures(fall);
    WordSwapped(Lead(s), Figures(rise));
  }

  /** Swapping "up" for "down" between two fixed strings. */
  lemma WordSwapped(l: string, f: string)
    ensures var up, down, k := l + "up" + f, l + "down" + f, |l|;
      && |up| + 2 == |down| && k + 2 <= |up|
      && up[..k] == down[..k]
      && up[k..k + 2] == "up" && down[k..k + 4] == "down"
      && up[k + 2..] == down[k + 4..]
  {
    SplicedWord(l, "up", f);
    SplicedWord(l, "down", f);
  }

  /** The weekly change carries no qualifier: its sign does not reach the sentence. */
  lemma WeeklySignDropped(s: Snapshot, c: int)
    ensures Sentence(s.(change7d := c)) == Sentence(s.(change7d := -c))
  {
    var a, b := s.(change7d := c), s.(change7d := -c);
    assert Format.Abs(c) == Format.Abs(-c);
    assert Rest(a) == Rest(b);
    assert Lead(a) == Lead(b) && Trend(a) == Trend(b) && DailyFigure(a) == DailyFigure(b);
  }

  /** Market cap and trading volume are read but not narrated. */
  lemma CapAndVolumeNotNarrated(s: Snapshot, cap: int, volume: int)
    ensures Sentence(s.(marketCap := cap, volume24h := volume)) == Sentence(s)
  {
  }

  /** A record with a 24-hour change of -3.50 % and no market cap narrates "down 3.50%". */
  lemma FallOfThreeFiftyNarrated(d: CoinData, m: MarketData)
    requires d.marketData == Some(m) && m.change24h == Some(-350) && m.marketCap.None?
    ensures var t, k := MetricText(d), |Lead(Read(d))|;
      k + 10 <= |t| && t[k..k + 10] == "down 3.50%"
  {
    var s := Read(d);
    assert Format.Digits(3) == "3";
    assert Format.Pad2(50) == "50";
    assert Format.Fixed2(350) == "3.50";
    var w := Trend(s) + DailyFigure(s);
    assert w == "down 3.50%";
    assert MetricText(d) == Lead(s) + w + Rest(s);
    SplicedWord(Lead(s), w, Rest(s));
  }

  /** A record with nothing in it is narrated from the defaults, every amount as 0.00. */
  lemma EmptyRecordNarrated()
    ensures Read(CoinData(None, None, None)) == Snapshot("Unknown", "UNKNOWN", 0, 0, 0, 0, 0, 0, 0)
    ensures Format.Money(0) == "0.00" && Format.Fixed2(0) == "0.00"
  {
    MissingFieldsDefault(CoinData(None, None, None));
    assert Format.Digits(0) == "0" && Format.Grouped(0) == "0" && Format.Pad2(0) == "00";
  }

  // ---------------------------------------------------------------------
  // Collecting the reports

  /** `[report(c) for c in coins]`. */
  function PerCoin<T>(report: string -> T, coins: seq<string>): seq<T> {
    if coins == [] then [] else PerCoin(report, coins[..|coins| - 1]) + [report(coins[|coins| - 1])]
  }

  /** There is one entry per coin, and the `i`-th entry is that of the `i`-th coin. */
  lemma {:induction false} PerCoinInOrder<T>(report: string -> T, coins: seq<string>, i: nat)
    requires i < |coins|
    ensures |PerCoin(report, coins)| == |coins|
    ensures PerCoin(report, coins)[i] == report(coins[i])
  {
    var init := coins[..|coins| - 1];
    if i < |coins| - 1 {
      PerCoinInOrder(report, init, i);
    } else if init != [] {
      PerCoinInOrder(report, init, 0);
    }
  }

  /** The narration of each configured coin, in `COINS` order; `fetch` stands for the provider's answer for a coin id. */
  function CoinReports(fetch: string -> CoinData): seq<string> {
    PerCoin(c => MetricText(fetch(c)), COINS)
  }

  /** The loop collecting one report per configured coin. */
  method FetchCoinMetrics(fetch: string -> CoinData) returns (texts: seq<string>)
    ensures texts == CoinReports(fetch)
  {
    texts := [];
    for i := 0 to |COINS|
      invariant texts == PerCoin(c => MetricText(fetch(c)), COINS[..i])
    {
      assert COINS[..i + 1][..i] == COINS[..i];
      texts := texts + [MetricText(fetch(COINS[i]))];
    }
    assert COINS[..|COINS|] == COINS;
  }
}
