/** The mocked price engine of the Market Service. Prices are integers in cents. */
module Pricing {
  import opened Money
  import opened Domain

  const BAND_BPS := 200
  const BPS_ONE := 10_000

  /** What a lookup says about a symbol; the priced case carries the base price. */
  datatype Listing = Listed(base: int) | Unknown | Unavailable

  datatype Engine = Engine(bases: map<string, int>, failing: set<string>) {
    /** Every base price is at least one cent, and every key went through `Symbol::from`. */
    predicate Valid()
    {
      forall s <- bases :: bases[s] >= 1 && Normalize(s) == s
    }

    /** A failing symbol is unavailable even when it is not listed. */
    function Lookup(symbol: string): Listing
    {
      if symbol in failing then Unavailable
      else if symbol in bases then Listed(bases[symbol])
      else Unknown
    }
  }

  const CATALOG: map<string, int> :=
    map["BTC" := 6_000_000, "ETH" := 300_000, "SOL" := 15_000, "ADA" := 45, "DOGE" := 15]

  /** A draw is any whole number of basis points in the band. */
  predicate InBand(bps: int)
  {
    -BAND_BPS <= bps <= BAND_BPS
  }

  /** Base times (10000 + bps) / 10000, rounded to cents half to even. */
  function Jitter(base: int, bps: int): int
  {
    RoundHalfEven(base * (BPS_ONE + bps), BPS_ONE)
  }

  /** A quote is positive and within half a cent of the exact jittered price. */
  lemma QuotePositiveAndClose(base: int, bps: int)
    requires base >= 1 && InBand(bps)
    ensures Jitter(base, bps) >= 1
    ensures 2 * Abs(BPS_ONE * Jitter(base, bps) - base * (BPS_ONE + bps)) <= BPS_ONE
  {
    var exact, q := base * (BPS_ONE + bps), Jitter(base, bps);
    RoundHalfEvenMeaning(exact, BPS_ONE, q);
    TimesMonotone(base, BPS_ONE - BAND_BPS, BPS_ONE + bps);
  }

  /** A quote never falls when the base or the draw rises. */
  lemma QuoteMonotone(base: int, bps: int, base': int, bps': int)
    requires 0 <= base <= base' && InBand(bps) && InBand(bps') && bps <= bps'
    ensures Jitter(base, bps) <= Jitter(base', bps')
  {
    TimesMonotone(BPS_ONE + bps, base, base');
    TimesMonotone(base', BPS_ONE + bps, BPS_ONE + bps');
    RoundHalfEvenMonotone(base * (BPS_ONE + bps), base' * (BPS_ONE + bps'), BPS_ONE);
  }

  /** The rounded quote lies inside the plus or minus two percent band. */
  predicate InsideBand(base: int, quote: int)
  {
    base * (BPS_ONE - BAND_BPS) <= BPS_ONE * quote <= base * (BPS_ONE + BAND_BPS)
  }

  /** When no draw can push the rounded quote outside the band. */
  predicate BandSafe(base: int)
  {
    base % 50 < 25 || (base % 50 == 25 && (base + base / 50) % 2 == 0)
  }

  /** How far the two extreme quotes are from the base. */
  function ExtremeMove(base: int): int
  {
    base / 50 + if BandSafe(base) then 0 else 1
  }

  lemma HighestQuote(base: int)
    requires base >= 1
    ensures Jitter(base, BAND_BPS) == base + ExtremeMove(base)
  {
    assert base == 50 * (base / 50) + base % 50;
    RoundHalfEvenMeaning(base * 10_200, BPS_ONE, base + ExtremeMove(base));
  }

  lemma LowestQuote(base: int)
    requires base >= 1
    ensures Jitter(base, -BAND_BPS) == base - ExtremeMove(base)
  {
    assert base == 50 * (base / 50) + base % 50;
    RoundHalfEvenMeaning(base * 9_800, BPS_ONE, base - ExtremeMove(base));
  }

  /** Every quote stays inside the band exactly when the base is band-safe. */
  lemma BandExact(base: int)
    requires base >= 1
    ensures (forall bps :: InBand(bps) ==> InsideBand(base, Jitter(base, bps))) <==> BandSafe(base)
  {
    HighestQuote(base);
    LowestQuote(base);
    if BandSafe(base) {
      forall bps | InBand(bps)
        ensures InsideBand(base, Jitter(base, bps))
      {
        QuoteMonotone(base, -BAND_BPS, base, bps);
        QuoteMonotone(base, bps, base, BAND_BPS);
      }
    } else {
      assert InBand(BAND_BPS);
      assert !InsideBand(base, Jitter(base, BAND_BPS));
    }
  }

  lemma TimesMonotone(base: int, low: int, high: int)
    requires base >= 0 && low <= high
    ensures base * low <= base * high
  {
    assert base * high == base * low + base * (high - low);
  }

  /** Outside or not, a quote misses the band by at most half a cent. */
  lemma BandMissedByHalfACent(base: int, bps: int)
    requires base >= 1 && InBand(bps)
    ensures 2 * (BPS_ONE * Jitter(base, bps) - base * (BPS_ONE + BAND_BPS)) <= BPS_ONE
    ensures 2 * (base * (BPS_ONE - BAND_BPS) - BPS_ONE * Jitter(base, bps)) <= BPS_ONE
  {
    QuotePositiveAndClose(base, bps);
    TimesMonotone(base, BPS_ONE - BAND_BPS, BPS_ONE + bps);
    TimesMonotone(base, BPS_ONE + bps, BPS_ONE + BAND_BPS);
  }

  lemma CatalogEntry(s: string)
    requires s in CATALOG
    ensures IsNormal(s) && CATALOG[s] >= 1
    ensures s in {"BTC", "ETH", "SOL"} ==> CATALOG[s] % 50 == 0
    ensures BandSafe(CATALOG[s]) <==> s != "ADA"
    ensures Normalize(s) == s
  {
    NormalIsFixed(s);
  }

  /** The default catalogue is valid; every listed base but ADA's is band-safe. */
  lemma DefaultCatalog(failing: set<string>)
    ensures Engine(CATALOG, failing).Valid()
    ensures CATALOG["BTC"] == 60_000 * 100 && CATALOG["ETH"] == 3_000 * 100 && CATALOG["SOL"] == 150 * 100
    ensures CATALOG["ADA"] == 45 && CATALOG["DOGE"] == 15
    ensures forall s <- CATALOG :: BandSafe(CATALOG[s]) <==> s != "ADA"
  {
    forall s | s in CATALOG
      ensures Normalize(s) == s && CATALOG[s] >= 1
      ensures BandSafe(CATALOG[s]) <==> s != "ADA"
    {
      CatalogEntry(s);
    }
  }
}
