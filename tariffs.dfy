/** The tariff table of the Mumbai electricity bill calculator (FY 2025-26 rates):
    for each utility provider, its ordered energy slabs, its wheeling rate per unit,
    its single-phase fixed-charge table, its three-phase fixed charge and its
    per-unit tax on sale. Amounts are exact rationals (rupees). */
module Tariffs {

  datatype Option<+T> = None | Some(value: T)

  /** One energy slab: the upper unit limit of the slab (None stands for an
      unbounded last slab) and the rate charged per unit inside it. */
  datatype Slab = Slab(limit: Option<nat>, rate: real)

  /** The tariff schedule of one provider. fixedSingle maps unit breakpoints to
      the single-phase fixed charge. */
  datatype Tariff = Tariff(
    slabs: seq<Slab>,
    wheeling: real,
    fixedSingle: map<int, real>,
    fixedThree: real,
    taxOnSale: real)

  const Adani: string := "Adani Electricity"
  const TataPower: string := "Tata Power (Direct)"

  const AdaniTariff: Tariff := Tariff(
    [Slab(Some(100), 3.45), Slab(Some(300), 6.70), Slab(Some(500), 8.10), Slab(None, 9.05)],
    2.93,
    map[100 := 90.0, 300 := 135.0, 500 := 135.0, 1000 := 160.0],
    160.0,
    0.2604)

  const TataPowerTariff: Tariff := Tariff(
    [Slab(Some(100), 2.02), Slab(Some(300), 5.35), Slab(Some(500), 10.04), Slab(None, 11.25)],
    1.82,
    map[100 := 90.0, 300 := 135.0, 500 := 135.0, 1000 := 160.0],
    160.0,
    0.2604)

  /** The table the calculation looks providers up in. */
  const TariffData: map<string, Tariff> := map[Adani := AdaniTariff, TataPower := TataPowerTariff]

  /** The slabs, read from the lower bound prev, have strictly increasing finite
      limits above prev and end with exactly one unbounded slab. */
  predicate AscendingFrom(prev: int, slabs: seq<Slab>)
    decreases |slabs|
  {
    && |slabs| > 0
    && match slabs[0].limit
       case None => |slabs| == 1
       case Some(l) => prev < l && AscendingFrom(l, slabs[1..])
  }

  /** Every slab rate is non-negative. */
  predicate NonNegativeRates(slabs: seq<Slab>)
    decreases |slabs|
  {
    slabs == [] || (slabs[0].rate >= 0.0 && NonNegativeRates(slabs[1..]))
  }

  /** Each slab's rate is at least the rate of the slab before it. */
  predicate AscendingRates(slabs: seq<Slab>)
    decreases |slabs|
  {
    |slabs| <= 1 || (slabs[0].rate <= slabs[1].rate && AscendingRates(slabs[1..]))
  }

  /** The single-phase fixed-charge table has the three breakpoints the
      calculation reads. */
  predicate HasFixedKeys(t: Tariff)
  {
    100 in t.fixedSingle && 300 in t.fixedSingle && 1000 in t.fixedSingle
  }

  /** A schedule the slab walk and the fixed-charge lookup can rely on. */
  predicate WellFormed(t: Tariff)
  {
    && AscendingFrom(0, t.slabs)
    && NonNegativeRates(t.slabs)
    && HasFixedKeys(t)
    && t.fixedThree >= 0.0
    && t.fixedSingle[100] >= 0.0 && t.fixedSingle[300] >= 0.0 && t.fixedSingle[1000] >= 0.0
    && t.wheeling >= 0.0
    && t.taxOnSale >= 0.0
  }

  /** The table has exactly the two providers, both schedules are well formed
      with four ascending slabs, and they share the fixed-charge and tax values. */
  lemma TariffDataWellFormed(provider: string)
    requires provider in TariffData
    ensures provider == Adani || provider == TataPower
    ensures var t := TariffData[provider];
      && WellFormed(t)
      && AscendingRates(t.slabs)
      && |t.slabs| == 4
      && t.fixedThree == 160.0
      && t.fixedSingle[100] == 90.0 && t.fixedSingle[300] == 135.0 && t.fixedSingle[1000] == 160.0
      && t.taxOnSale == 0.2604
  {
    var t := TariffData[provider];
    assert t.slabs[1..][1..][1..] == [t.slabs[3]];
  }
}
