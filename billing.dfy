/** The bill: fixed charge, slab-wise energy charge, wheeling and PPCA charges,
    electricity duty on their sum, tax on sale, and the grand total. */
module Billing {
  import opened Tariffs
  import opened Slabs

  const ThreePhase: string := "Three Phase"

  /** Electricity duty for residential consumers: 16% of the subtotal. */
  const DutyRate: real := 0.16

  /** The parts of one bill, with the slab breakdown they were computed from. */
  datatype Bill = Bill(
    fixed: real,
    energy: real,
    wheeling: real,
    ppca: real,
    duty: real,
    taxSale: real,
    total: real,
    slabs: seq<SlabEntry>)

  /** The fixed charge: the three-phase charge for a three-phase connection (any
      other phase is billed as single phase), otherwise the single-phase table
      entry read at breakpoint 100, 300 or 1000. */
  function FixedCharge(units: int, phase: string, t: Tariff): real
    requires HasFixedKeys(t)
  {
    if phase == ThreePhase then t.fixedThree
    else if units <= 100 then t.fixedSingle[100]
    else if units <= 500 then t.fixedSingle[300]
    else t.fixedSingle[1000]
  }

  /** The wheeling charge: the provider's wheeling rate on every unit. */
  function Wheeling(units: int, t: Tariff): real
  {
    units as real * t.wheeling
  }

  /** The PPCA (fuel adjustment) charge: the month's PPCA rate on every unit. */
  function PpcaCharge(units: int, ppca: real): real
  {
    units as real * ppca
  }

  /** The tax on sale: the provider's per-unit tax on every unit. */
  function TaxOnSale(units: int, t: Tariff): real
  {
    units as real * t.taxOnSale
  }

  /** The duty base: fixed, energy, wheeling and PPCA charges. */
  function Subtotal(units: int, phase: string, ppca: real, t: Tariff): real
    requires HasFixedKeys(t)
  {
    FixedCharge(units, phase, t) + Energy(units, t.slabs) + Wheeling(units, t) + PpcaCharge(units, ppca)
  }

  /** The bill for the given units, phase and PPCA rate under schedule t. */
  function BillFor(units: int, phase: string, ppca: real, t: Tariff): Bill
    requires HasFixedKeys(t)
  {
    var subtotal := Subtotal(units, phase, ppca, t);
    var duty := subtotal * DutyRate;
    var taxSale := TaxOnSale(units, t);
    Bill(FixedCharge(units, phase, t), Energy(units, t.slabs), Wheeling(units, t), PpcaCharge(units, ppca),
      duty, taxSale, subtotal + duty + taxSale, Breakdown(units, t.slabs))
  }

  /** The calculation engine: looks the provider up (an unknown provider is a
      lookup error, excluded here) and computes the bill from its schedule. */
  method RunCalculation(units: int, provider: string, phase: string, ppca: real) returns (bill: Bill)
    requires provider in TariffData
    ensures bill == BillFor(units, phase, ppca, TariffData[provider])
  {
    var data := TariffData[provider];
    TariffDataWellFormed(provider);
    bill := ComputeBill(units, phase, ppca, data);
  }

  /** The body of the calculation for one schedule: selects the fixed charge,
      walks the slabs accumulating the energy charge and the breakdown, then adds
      wheeling, PPCA, duty and tax on sale. */
  method ComputeBill(units: int, phase: string, ppca: real, data: Tariff) returns (bill: Bill)
    requires HasFixedKeys(data)
    ensures bill == BillFor(units, phase, ppca, data)
  {
    var fixed: real;
    if phase == ThreePhase {
      fixed := data.fixedThree;
    } else if units <= 100 {
      fixed := data.fixedSingle[100];
    } else if units <= 500 {
      fixed := data.fixedSingle[300];
    } else {
      fixed := data.fixedSingle[1000];
    }

    var energyTotal, breakdown, _ := ComputeSlabs(units, data.slabs);

    var wheeling := units as real * data.wheeling;
    var ppcaTotal := units as real * ppca;

    var subtotal := fixed + energyTotal + wheeling + ppcaTotal;
    var duty := subtotal * DutyRate;
    var taxSale := units as real * data.taxOnSale;

    var total := subtotal + duty + taxSale;
    bill := Bill(fixed, energyTotal, wheeling, ppcaTotal, duty, taxSale, total, breakdown);
    ghost var expected := BillFor(units, phase, ppca, data);
    assert expected.fixed == fixed && expected.energy == energyTotal && expected.slabs == breakdown;
    assert expected.wheeling == wheeling && expected.ppca == ppcaTotal && expected.taxSale == taxSale;
    assert expected.duty == duty;
    assert expected.total == total;
  }

  /** The fixed charges of the table: 160 for three phase; otherwise 90 up to
      100 units, 135 up to 500 units and 160 above. */
  lemma FixedChargeTable(units: int, provider: string, phase: string)
    requires provider in TariffData
    ensures HasFixedKeys(TariffData[provider])
    ensures var f := FixedCharge(units, phase, TariffData[provider]);
      && (phase == ThreePhase ==> f == 160.0)
      && (phase != ThreePhase && units <= 100 ==> f == 90.0)
      && (phase != ThreePhase && 100 < units <= 500 ==> f == 135.0)
      && (phase != ThreePhase && 500 < units ==> f == 160.0)
  {
    TariffDataWellFormed(provider);
  }

  /** The single-phase entry at breakpoint 500 is never read: changing it leaves
      every fixed charge as it was. */
  lemma FixedChargeIgnores500(units: int, phase: string, t: Tariff, x: real)
    requires HasFixedKeys(t)
    ensures HasFixedKeys(t.(fixedSingle := t.fixedSingle[500 := x]))
    ensures FixedCharge(units, phase, t.(fixedSingle := t.fixedSingle[500 := x])) == FixedCharge(units, phase, t)
  {
  }

  /** The slab breakdown of a bill covers the consumption exactly, with at most
      one entry per slab (four for the table), each entry billing between one
      unit and its slab's width, in slab order with contiguous bounds from 0, and
      every entry but the last filling its slab. */
  lemma BillBreakdown(units: nat, provider: string, phase: string, ppca: real)
    requires provider in TariffData
    ensures HasFixedKeys(TariffData[provider])
    ensures var t := TariffData[provider];
      var r := BillFor(units, phase, ppca, t).slabs;
      && SumUnits(r) == units
      && |r| <= 4
      && (|r| > 0 ==> r[0].lower == 0)
      && (forall k :: 0 <= k < |r| ==>
            && r[k].upper == t.slabs[k].limit
            && r[k].rate == t.slabs[k].rate
            && 0 < r[k].units
            && (r[k].upper.Some? ==> r[k].units <= r[k].upper.value - r[k].lower))
      && (forall k :: 0 <= k < |r| - 1 ==>
            && r[k].upper.Some?
            && r[k + 1].lower == r[k].upper.value
            && r[k].units == r[k].upper.value - r[k].lower)
  {
    var t := TariffData[provider];
    TariffDataWellFormed(provider);
    WalkCovers(units, 0, t.slabs);
    WalkFollowsSlabs(units, 0, t.slabs);
    WalkEntriesBounded(units, 0, t.slabs);
    WalkContiguous(units, 0, t.slabs);
    var r := BillFor(units, phase, ppca, t).slabs;
    forall k | 0 <= k < |r|
      ensures r[k].upper == t.slabs[k].limit && r[k].rate == t.slabs[k].rate
      ensures 0 < r[k].units && (r[k].upper.Some? ==> r[k].units <= r[k].upper.value - r[k].lower)
    {
      assert FromSlab(r[k], t.slabs[k]) && WithinSlab(r[k]);
    }
  }

  /** Wheeling, PPCA and tax on sale are linear in the units: the charges for
      u + v units are the sums of those for u and for v; with non-negative
      rates they are non-negative for non-negative units and grow with the
      units. */
  lemma ChargesLinear(u: int, v: int, ppca: real, t: Tariff)
    ensures Wheeling(u + v, t) == Wheeling(u, t) + Wheeling(v, t)
    ensures PpcaCharge(u + v, ppca) == PpcaCharge(u, ppca) + PpcaCharge(v, ppca)
    ensures TaxOnSale(u + v, t) == TaxOnSale(u, t) + TaxOnSale(v, t)
    ensures u >= 0 && t.wheeling >= 0.0 ==> Wheeling(u, t) >= 0.0
    ensures u >= 0 && ppca >= 0.0 ==> PpcaCharge(u, ppca) >= 0.0
    ensures u >= 0 && t.taxOnSale >= 0.0 ==> TaxOnSale(u, t) >= 0.0
    ensures u <= v && t.wheeling >= 0.0 ==> Wheeling(u, t) <= Wheeling(v, t)
    ensures u <= v && ppca >= 0.0 ==> PpcaCharge(u, ppca) <= PpcaCharge(v, ppca)
    ensures u <= v && t.taxOnSale >= 0.0 ==> TaxOnSale(u, t) <= TaxOnSale(v, t)
  {
    ScaledGrows(u, v, t.wheeling);
    ScaledGrows(u, v, ppca);
    ScaledGrows(u, v, t.taxOnSale);
  }

  lemma ScaledGrows(u: int, v: int, rate: real)
    ensures (u + v) as real * rate == u as real * rate + v as real * rate
    ensures u >= 0 && rate >= 0.0 ==> u as real * rate >= 0.0
    ensures u <= v && rate >= 0.0 ==> u as real * rate <= v as real * rate
  {
    if u <= v && rate >= 0.0 {
      assert v as real * rate - u as real * rate == (v - u) as real * rate;
    }
  }

  /** The duty base is fixed + energy + wheeling + PPCA, and the duty is 16% of
      it; the total adds duty and tax on sale to that base. */
  lemma BillTotals(units: int, phase: string, ppca: real, t: Tariff)
    requires HasFixedKeys(t)
    ensures var b := BillFor(units, phase, ppca, t);
      && b.duty == 0.16 * (b.fixed + b.energy + b.wheeling + b.ppca)
      && b.taxSale == units as real * t.taxOnSale
      && b.total == b.fixed + b.energy + b.wheeling + b.ppca + b.duty + b.taxSale
      && b.total == 1.16 * (b.fixed + b.energy + b.wheeling + b.ppca) + b.taxSale
  {
  }

  /** Tax on sale is not part of the duty base: changing its rate changes neither
      the duty nor any charge before it, and moves the total by exactly the
      change in tax on sale. */
  lemma DutyExcludesTaxOnSale(units: int, phase: string, ppca: real, t: Tariff, rate: real)
    requires HasFixedKeys(t)
    ensures var a, b := BillFor(units, phase, ppca, t), BillFor(units, phase, ppca, t.(taxOnSale := rate));
      && b.duty == a.duty
      && b.fixed == a.fixed && b.energy == a.energy && b.wheeling == a.wheeling && b.ppca == a.ppca
      && b.total - a.total == b.taxSale - a.taxSale
  {
  }

  /** For a well-formed schedule, non-negative units and a non-negative PPCA
      rate, every part of the bill is non-negative. */
  lemma BillNonNegative(units: nat, phase: string, ppca: real, t: Tariff)
    requires WellFormed(t) && ppca >= 0.0
    ensures var b := BillFor(units, phase, ppca, t);
      && b.fixed >= 0.0 && b.energy >= 0.0 && b.wheeling >= 0.0 && b.ppca >= 0.0
      && b.duty >= 0.0 && b.taxSale >= 0.0 && b.total >= 0.0
  {
    WalkIdle(0, 0, t.slabs);
    EnergyMonotone(0, units, t.slabs);
    ChargesLinear(units, 0, ppca, t);
  }

  /** For a fixed provider the energy charge does not decrease as consumption
      grows, and (the table's rates ascend) each further unit costs at least as
      much as the one before. */
  lemma EnergyMonotoneInUnits(provider: string, u: int, v: int)
    requires provider in TariffData && u <= v
    ensures var slabs := TariffData[provider].slabs;
      && Energy(u, slabs) <= Energy(v, slabs)
      && (u >= 0 ==> Energy(u + 2, slabs) - Energy(u + 1, slabs) >= Energy(u + 1, slabs) - Energy(u, slabs))
  {
    var slabs := TariffData[provider].slabs;
    TariffDataWellFormed(provider);
    EnergyMonotone(u, v, slabs);
    if u >= 0 {
      EnergyConvex(u, slabs);
    }
  }

  /** For a fixed provider, phase and non-negative PPCA rate, the grand total
      does not decrease as consumption grows. */
  lemma TotalMonotoneInUnits(provider: string, phase: string, ppca: real, u: int, v: int)
    requires provider in TariffData && ppca >= 0.0 && u <= v
    ensures HasFixedKeys(TariffData[provider])
    ensures BillFor(u, phase, ppca, TariffData[provider]).total <= BillFor(v, phase, ppca, TariffData[provider]).total
  {
    var t := TariffData[provider];
    TariffDataWellFormed(provider);
    FixedChargeTable(u, provider, phase);
    FixedChargeTable(v, provider, phase);
    EnergyMonotone(u, v, t.slabs);
    ChargesLinear(u, v, ppca, t);
    assert Subtotal(u, phase, ppca, t) <= Subtotal(v, phase, ppca, t);
  }

  /** Tata Power, single phase, 250 units at a PPCA rate of 0.45: energy
      202 + 802.5 = 1004.5, fixed 135, wheeling 455, PPCA 112.5, duty 273.12 on a
      subtotal of 1707, tax on sale 65.1, total 2045.22. */
  lemma TataPowerExample()
    ensures HasFixedKeys(TariffData[TataPower])
    ensures BillFor(250, "Single Phase", 0.45, TariffData[TataPower]) == Bill(
      135.0, 1004.5, 455.0, 112.5, 273.12, 65.1, 2045.22,
      [SlabEntry(0, Some(100), 100, 2.02, 202.0), SlabEntry(100, Some(300), 150, 5.35, 802.5)])
  {
    var slabs := TataPowerTariff.slabs;
    assert slabs[1..][1..][1..][1..] == [];
    WalkIdle(0, 300, slabs[1..][1..]);
  }
}
