/** Symbol names: BTCUSDC here, XBT/USDC at the exchange. */
module KrakenSymbols {
  import opened Options

  const KNOWN_QUOTES: seq<string> := ["USDC", "USDT", "BTC", "ETH"]

  function ToTheirs(asset: string): string
  {
    if asset == "BTC" then "XBT" else asset
  }

  function ToOurs(asset: string): string
  {
    if asset == "XBT" then "BTC" else asset
  }

  predicate EndsWith(s: string, suffix: string)
  {
    |s| >= |suffix| && s[|s| - |suffix|..] == suffix
  }

  /** The first of the quotes that the name ends with but does not equal; without one the
      source raises. */
  function Split(internal: string, quotes: seq<string>): Option<string>
  {
    if quotes == [] then None
    else if EndsWith(internal, quotes[0]) && internal != quotes[0] then
      Some(ToTheirs(internal[..|internal| - |quotes[0]|]) + "/" + ToTheirs(quotes[0]))
    else Split(internal, quotes[1..])
  }

  function ToKraken(internal: string): Option<string>
  {
    Split(internal, KNOWN_QUOTES)
  }

  function SlashAt(s: string): (i: nat)
    ensures i <= |s| && '/' !in s[..i] && (i < |s| ==> s[i] == '/')
  {
    if s == "" || s[0] == '/' then 0 else
      var i := 1 + SlashAt(s[1..]);
      assert s[..i] == [s[0]] + s[1..][..i - 1];
      i
  }

  function FromKraken(kraken: string): string
  {
    var i := SlashAt(kraken);
    ToOurs(kraken[..i]) + ToOurs(if i < |kraken| then kraken[i + 1..] else "")
  }

  lemma {:induction false} SlashIsFound(base: string, quote: string)
    requires '/' !in base
    ensures SlashAt(base + "/" + quote) == |base|
    decreases |base|
  {
    var s := base + "/" + quote;
    if base == "" {
      assert s[0] == '/';
    } else {
      SlashIsFound(base[1..], quote);
      assert s[0] == base[0] && s[1..] == base[1..] + "/" + quote;
      assert base[0] in base;
    }
  }

  lemma SplitSkips(s: string, quotes: seq<string>)
    requires quotes != []
    ensures Split(s, quotes) ==
      if EndsWith(s, quotes[0]) && s != quotes[0]
      then Some(ToTheirs(s[..|s| - |quotes[0]|]) + "/" + ToTheirs(quotes[0]))
      else Split(s, quotes[1..])
  {
  }

  lemma EndsWithOwn(base: string, quote: string)
    ensures EndsWith(base + quote, quote)
  {
  }

  lemma LastTwo(s: string, suffix: string)
    requires EndsWith(s, suffix) && |suffix| >= 2
    ensures s[|s| - 1] == suffix[|suffix| - 1] && s[|s| - 2] == suffix[|suffix| - 2]
  {
    var end := s[|s| - |suffix|..];
    assert end[|suffix| - 1] == s[|s| - 1] && end[|suffix| - 2] == s[|s| - 2];
  }

  /** The last two letters tell the known quotes apart. */
  lemma OnlyOneEnds(s: string, quote: string)
    requires quote in KNOWN_QUOTES && EndsWith(s, quote)
    ensures forall other <- KNOWN_QUOTES :: other != quote ==> !EndsWith(s, other)
  {
    hide EndsWith;
    LastTwo(s, quote);
    forall other | other in KNOWN_QUOTES && other != quote ensures !EndsWith(s, other) {
      assert other[|other| - 1] != quote[|quote| - 1] || other[|other| - 2] != quote[|quote| - 2];
      if EndsWith(s, other) {
        LastTwo(s, other);
        assert false;
      }
    }
  }

  /** No known quote ends another, so the name's own quote is the one that is found. */
  lemma SplitFindsQuote(base: string, quote: string)
    requires base != "" && quote in KNOWN_QUOTES
    ensures ToKraken(base + quote) == Some(ToTheirs(base) + "/" + ToTheirs(quote))
  {
    hide Split, ToTheirs, EndsWith;
    var s := base + quote;
    var n := |s|;
    assert s[n - |quote|..] == quote && s[..n - |quote|] == base;
    assert EndsWith(s, quote) by { EndsWithOwn(base, quote); }
    assert s != quote;
    OnlyOneEnds(s, quote);
    SplitSkips(s, KNOWN_QUOTES);
    assert KNOWN_QUOTES[1..] == ["USDT", "BTC", "ETH"];
    SplitSkips(s, ["USDT", "BTC", "ETH"]);
    assert ["USDT", "BTC", "ETH"][1..] == ["BTC", "ETH"];
    SplitSkips(s, ["BTC", "ETH"]);
    assert ["BTC", "ETH"][1..] == ["ETH"];
    SplitSkips(s, ["ETH"]);
  }

  /** The way to the exchange's name and back gives every name back, except where the base
      is already the exchange's name for Bitcoin. */
  lemma RoundTripIff(base: string, quote: string)
    requires base != "" && '/' !in base && quote in KNOWN_QUOTES
    ensures ToKraken(base + quote).Some?
    ensures FromKraken(ToKraken(base + quote).value) == base + quote <==> base != "XBT"
  {
    SplitFindsQuote(base, quote);
    var b, q := ToTheirs(base), ToTheirs(quote);
    SlashIsFound(b, q);
    var k := b + "/" + q;
    assert k[..|b|] == b && k[|b| + 1..] == q;
    assert ToOurs(q) == quote;
    if base == "XBT" {
      assert ("BTC" + quote)[0] != (base + quote)[0];
    }
  }

  /** And from the exchange's name, except where its base is our name for Bitcoin. */
  lemma RoundTripFromKrakenIff(base: string, quote: string)
    requires base != "" && '/' !in base && quote in KNOWN_QUOTES
    ensures ToKraken(FromKraken(base + "/" + ToTheirs(quote))) == Some(base + "/" + ToTheirs(quote)) <==> base != "BTC"
  {
    var q := ToTheirs(quote);
    var k := base + "/" + q;
    SlashIsFound(base, q);
    assert k[..|base|] == base && k[|base| + 1..] == q;
    assert ToOurs(q) == quote;
    SplitFindsQuote(ToOurs(base), quote);
    if base == "BTC" {
      assert ("XBT" + "/" + q)[0] != k[0];
    }
  }
}
