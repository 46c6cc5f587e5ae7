/** The slab-wise energy charge: the consumption is walked through the ordered
    slabs, filling each slab up to its limit before spilling into the next. */
module Slabs {
  import opened Tariffs

  /** One row of the slab breakdown: the slab's bounds (lower, optional upper),
      the units billed in it, its rate and the resulting cost. */
  datatype SlabEntry = SlabEntry(lower: int, upper: Option<nat>, units: int, rate: real, cost: real)

  function Min(a: int, b: int): int
  {
    if b < a then b else a
  }

  /** The units billed in a slab with the given limit, when rem units are still
      unbilled and the slab starts at prev. An unbounded slab takes them all. */
  function UnitsInSlab(rem: int, prev: int, limit: Option<nat>): int
  {
    match limit
    case None => rem
    case Some(l) => Min(rem, l - prev)
  }

  /** The lower bound of the next slab. After an unbounded slab nothing is left
      to bill, so the value kept there is never read. */
  function NextLower(prev: int, limit: Option<nat>): int
  {
    match limit
    case None => prev
    case Some(l) => l
  }

  /** The breakdown produced by walking slabs with rem units still to bill and
      the current slab starting at prev: a slab yields an entry only while units
      remain. */
  function Walk(rem: int, prev: int, slabs: seq<Slab>): (r: seq<SlabEntry>)
    ensures |r| <= |slabs|
    decreases |slabs|
  {
    if slabs == [] then []
    else if rem <= 0 then Walk(rem, prev, slabs[1..])
    else
      var units := UnitsInSlab(rem, prev, slabs[0].limit);
      [SlabEntry(prev, slabs[0].limit, units, slabs[0].rate, units as real * slabs[0].rate)]
        + Walk(rem - units, NextLower(prev, slabs[0].limit), slabs[1..])
  }

  /** The breakdown of a bill for the given units. */
  function Breakdown(units: int, slabs: seq<Slab>): seq<SlabEntry>
  {
    Walk(units, 0, slabs)
  }

  function SumUnits(entries: seq<SlabEntry>): int
    decreases |entries|
  {
    if entries == [] then 0 else entries[0].units + SumUnits(entries[1..])
  }

  function SumCosts(entries: seq<SlabEntry>): real
    decreases |entries|
  {
    if entries == [] then 0.0 else entries[0].cost + SumCosts(entries[1..])
  }

  /** The energy charge for the given units: the total cost of the breakdown. */
  function Energy(units: int, slabs: seq<Slab>): real
  {
    SumCosts(Breakdown(units, slabs))
  }

  /** The rate paid for the unit after the first rem units, for slabs starting
      at prev: the rate of the slab that unit falls in. */
  function MarginalRate(rem: int, prev: int, slabs: seq<Slab>): real
    requires AscendingFrom(prev, slabs)
    decreases |slabs|
  {
    match slabs[0].limit
    case None => slabs[0].rate
    case Some(l) =>
      if rem < l - prev then slabs[0].rate else MarginalRate(rem - (l - prev), l, slabs[1..])
  }

  /** The slab loop: walks the slabs in order, and while units remain bills
      the next slab up to its limit, appending an entry to the breakdown and
      adding its cost to the energy total. */
  method ComputeSlabs(units: int, slabs: seq<Slab>) returns (energyTotal: real, breakdown: seq<SlabEntry>, ghost remaining: int)
    ensures breakdown == Breakdown(units, slabs)
    ensures energyTotal == Energy(units, slabs)
    ensures remaining == units - SumUnits(breakdown)
    ensures units >= 0 && AscendingFrom(0, slabs) ==> remaining == 0
  {
    energyTotal := 0.0;
    var remUnits := units;
    var prevLimit := 0;
    breakdown := [];
    for i := 0 to |slabs|
      invariant Breakdown(units, slabs) == breakdown + Walk(remUnits, prevLimit, slabs[i..])
      invariant energyTotal == SumCosts(breakdown)
      invariant remUnits == units - SumUnits(breakdown)
    {
      var slab := slabs[i];
      assert slabs[i..][0] == slab && slabs[i..][1..] == slabs[i + 1..];
      if remUnits > 0 {
        var unitsInSlab := UnitsInSlab(remUnits, prevLimit, slab.limit);
        var cost := unitsInSlab as real * slab.rate;
        var entry := SlabEntry(prevLimit, slab.limit, unitsInSlab, slab.rate, cost);
        WalkAppendStep(remUnits, prevLimit, slabs, i);
        assert cost == UnitsInSlab(remUnits, prevLimit, slabs[i].limit) as real * slabs[i].rate;
        ghost var rest := Walk(remUnits - unitsInSlab, NextLower(prevLimit, slab.limit), slabs[i + 1..]);
        assert breakdown + ([entry] + rest) == (breakdown + [entry]) + rest;
        SumCostsAppend(breakdown, [entry]);
        SumUnitsAppend(breakdown, [entry]);
        energyTotal := energyTotal + cost;
        breakdown := breakdown + [entry];
        remUnits := remUnits - unitsInSlab;
        prevLimit := NextLower(prevLimit, slab.limit);
      }
    }
    assert slabs[|slabs|..] == [];
    remaining := remUnits;
    if units >= 0 && AscendingFrom(0, slabs) {
      WalkCovers(units, 0, slabs);
    }
  }

  /** One step of the walk seen from the loop: while units remain, slab i
      yields its entry and the walk goes on from slab i + 1. */
  lemma WalkAppendStep(rem: int, prev: int, slabs: seq<Slab>, i: nat)
    requires i < |slabs| && rem > 0
    ensures Walk(rem, prev, slabs[i..])
      == [SlabEntry(prev, slabs[i].limit, UnitsInSlab(rem, prev, slabs[i].limit), slabs[i].rate,
                    UnitsInSlab(rem, prev, slabs[i].limit) as real * slabs[i].rate)]
         + Walk(rem - UnitsInSlab(rem, prev, slabs[i].limit), NextLower(prev, slabs[i].limit), slabs[i + 1..])
  {
    var units := UnitsInSlab(rem, prev, slabs[i].limit);
    var entry := SlabEntry(prev, slabs[i].limit, units, slabs[i].rate, units as real * slabs[i].rate);
    var rest := Walk(rem - units, NextLower(prev, slabs[i].limit), slabs[i + 1..]);
    assert slabs[i..][0] == slabs[i] && slabs[i..][1..] == slabs[i + 1..];
    assert |Walk(rem, prev, slabs[i..])| > 0;
    assert Walk(rem, prev, slabs[i..])[0] == entry;
    assert Walk(rem, prev, slabs[i..])[1..] == rest;
    assert entry.cost == UnitsInSlab(rem, prev, slabs[i].limit) as real * slabs[i].rate;
  }

  lemma {:induction false} SumCostsAppend(a: seq<SlabEntry>, b: seq<SlabEntry>)
    ensures SumCosts(a + b) == SumCosts(a) + SumCosts(b)
    decreases |a|
  {
    if a != [] {
      assert (a + b)[0] == a[0];
      assert (a + b)[1..] == a[1..] + b;
      SumCostsAppend(a[1..], b);
    } else {
      assert a + b == b;
    }
  }

  lemma {:induction false} SumUnitsAppend(a: seq<SlabEntry>, b: seq<SlabEntry>)
    ensures SumUnits(a + b) == SumUnits(a) + SumUnits(b)
    decreases |a|
  {
    if a != [] {
      assert (a + b)[0] == a[0];
      assert (a + b)[1..] == a[1..] + b;
      SumUnitsAppend(a[1..], b);
    } else {
      assert a + b == b;
    }
  }

  /** Once nothing is left to bill, no further slab yields an entry: for zero or
      negative units the breakdown is empty and the energy charge is zero. */
  lemma {:induction false} WalkIdle(rem: int, prev: int, slabs: seq<Slab>)
    requires rem <= 0
    ensures Walk(rem, prev, slabs) == []
    ensures SumCosts(Walk(rem, prev, slabs)) == 0.0
    decreases |slabs|
  {
    if slabs != [] {
      WalkIdle(rem, prev, slabs[1..]);
    }
  }

  /** Slab coverage: when the slabs ascend and end unbounded, the units of the
      breakdown add up to exactly the units to bill, so nothing is left over. */
  lemma {:induction false} WalkCovers(rem: int, prev: int, slabs: seq<Slab>)
    requires rem >= 0 && AscendingFrom(prev, slabs)
    ensures SumUnits(Walk(rem, prev, slabs)) == rem
    decreases |slabs|
  {
    if rem == 0 {
      WalkIdle(rem, prev, slabs);
    } else {
      match slabs[0].limit
      case None =>
        WalkIdle(0, prev, slabs[1..]);
      case Some(l) =>
        WalkCovers(rem - Min(rem, l - prev), l, slabs[1..]);
    }
  }

  /** An entry belongs to slab s: it has s's limit as upper bound and s's rate. */
  predicate FromSlab(e: SlabEntry, s: Slab)
  {
    e.upper == s.limit && e.rate == s.rate
  }

  /** The breakdown follows slab order: entry k belongs to slab k. */
  lemma {:induction false} WalkFollowsSlabs(rem: int, prev: int, slabs: seq<Slab>)
    ensures forall k :: 0 <= k < |Walk(rem, prev, slabs)| ==> FromSlab(Walk(rem, prev, slabs)[k], slabs[k])
    decreases |slabs|
  {
    if slabs != [] {
      if rem <= 0 {
        WalkIdle(rem, prev, slabs);
      } else {
        var units := UnitsInSlab(rem, prev, slabs[0].limit);
        var next := NextLower(prev, slabs[0].limit);
        var rest := Walk(rem - units, next, slabs[1..]);
        WalkFollowsSlabs(rem - units, next, slabs[1..]);
        assert |Walk(rem, prev, slabs)| > 0;
        assert Walk(rem, prev, slabs)[0]
            == SlabEntry(prev, slabs[0].limit, units, slabs[0].rate, units as real * slabs[0].rate);
        assert Walk(rem, prev, slabs)[1..] == rest;
        var r := Walk(rem, prev, slabs);
        forall k | 0 < k < |r|
          ensures FromSlab(r[k], slabs[k])
        {
          assert r[k] == rest[k - 1];
          assert slabs[1..][k - 1] == slabs[k];
        }
      }
    }
  }

  /** An entry costs its units times its rate. */
  predicate Priced(e: SlabEntry)
  {
    e.cost == e.units as real * e.rate
  }

  /** Every entry costs its units times its rate. */
  lemma {:induction false} WalkCosts(rem: int, prev: int, slabs: seq<Slab>)
    ensures forall k :: 0 <= k < |Walk(rem, prev, slabs)| ==> Priced(Walk(rem, prev, slabs)[k])
    decreases |slabs|
  {
    if slabs != [] {
      if rem <= 0 {
        WalkIdle(rem, prev, slabs);
      } else {
        var units := UnitsInSlab(rem, prev, slabs[0].limit);
        var next := NextLower(prev, slabs[0].limit);
        var rest := Walk(rem - units, next, slabs[1..]);
        WalkCosts(rem - units, next, slabs[1..]);
        assert |Walk(rem, prev, slabs)| > 0;
        assert Walk(rem, prev, slabs)[0]
            == SlabEntry(prev, slabs[0].limit, units, slabs[0].rate, units as real * slabs[0].rate);
        assert Walk(rem, prev, slabs)[1..] == rest;
        var r := Walk(rem, prev, slabs);
        forall k | 0 < k < |r|
          ensures Priced(r[k])
        {
          assert r[k] == rest[k - 1];
        }
      }
    }
  }

  /** The energy charge is the sum of the breakdown's costs, each entry's cost
      being the units in it times its slab's rate; with no consumption there is
      no entry and no energy charge. */
  lemma EnergyIsSlabCosts(units: int, slabs: seq<Slab>)
    ensures forall k :: 0 <= k < |Breakdown(units, slabs)| ==>
      Breakdown(units, slabs)[k].cost == Breakdown(units, slabs)[k].units as real * slabs[k].rate
    ensures units <= 0 ==> Breakdown(units, slabs) == [] && Energy(units, slabs) == 0.0
  {
    var r := Breakdown(units, slabs);
    WalkFollowsSlabs(units, 0, slabs);
    WalkCosts(units, 0, slabs);
    forall k | 0 <= k < |r|
      ensures r[k].cost == r[k].units as real * slabs[k].rate
    {
      assert Priced(r[k]) && FromSlab(r[k], slabs[k]);
    }
    if units <= 0 {
      WalkIdle(units, 0, slabs);
    }
  }

  /** Contiguous bounds: the first entry starts at prev, each later entry starts
      at the upper limit of the one before, and every entry except the last is
      a completely filled, bounded slab. */
  lemma {:induction false} WalkContiguous(rem: int, prev: int, slabs: seq<Slab>)
    ensures var r := Walk(rem, prev, slabs);
      && (|r| > 0 ==> r[0].lower == prev)
      && forall k :: 0 <= k < |r| - 1 ==>
           && r[k].upper.Some?
           && r[k + 1].lower == r[k].upper.value
           && r[k].units == r[k].upper.value - r[k].lower
    decreases |slabs|
  {
    if slabs != [] {
      if rem <= 0 {
        WalkIdle(rem, prev, slabs);
      } else {
        var units := UnitsInSlab(rem, prev, slabs[0].limit);
        var next := NextLower(prev, slabs[0].limit);
        var rest := Walk(rem - units, next, slabs[1..]);
        WalkContiguous(rem - units, next, slabs[1..]);
        if rest != [] {
          if rem - units <= 0 {
            WalkIdle(rem - units, next, slabs[1..]);
          }
        }
      }
    }
  }

  /** An entry bills at least one unit and, in a bounded slab, no more than the
      slab's width. */
  predicate WithinSlab(e: SlabEntry)
  {
    0 < e.units && (e.upper.Some? ==> e.units <= e.upper.value - e.lower)
  }

  /** Every entry of the walk lies within its slab; so a slab yields an entry
      only while units remain. */
  lemma {:induction false} WalkEntriesBounded(rem: int, prev: int, slabs: seq<Slab>)
    requires AscendingFrom(prev, slabs)
    ensures forall k :: 0 <= k < |Walk(rem, prev, slabs)| ==> WithinSlab(Walk(rem, prev, slabs)[k])
    decreases |slabs|
  {
    if rem <= 0 {
      WalkIdle(rem, prev, slabs);
    } else {
      var units := UnitsInSlab(rem, prev, slabs[0].limit);
      var next := NextLower(prev, slabs[0].limit);
      var rest := Walk(rem - units, next, slabs[1..]);
      assert |Walk(rem, prev, slabs)| > 0;
      assert Walk(rem, prev, slabs)[0]
          == SlabEntry(prev, slabs[0].limit, units, slabs[0].rate, units as real * slabs[0].rate);
      assert Walk(rem, prev, slabs)[1..] == rest;
      match slabs[0].limit
      case None =>
        WalkIdle(0, prev, slabs[1..]);
      case Some(l) =>
        WalkEntriesBounded(rem - units, l, slabs[1..]);
        var r := Walk(rem, prev, slabs);
        forall k | 0 < k < |r|
          ensures WithinSlab(r[k])
        {
          assert r[k] == rest[k - 1];
        }
    }
  }

  /** Billing one more unit adds exactly the marginal rate to the energy charge. */
  lemma {:induction false} EnergyStep(rem: int, prev: int, slabs: seq<Slab>)
    requires rem >= 0 && AscendingFrom(prev, slabs)
    ensures SumCosts(Walk(rem + 1, prev, slabs))
         == SumCosts(Walk(rem, prev, slabs)) + MarginalRate(rem, prev, slabs)
    decreases |slabs|
  {
    var rate := slabs[0].rate;
    match slabs[0].limit
    case None =>
      WalkIdle(0, prev, slabs[1..]);
      if rem > 0 {
        assert (rem + 1) as real * rate == rem as real * rate + rate;
      }
    case Some(l) =>
      var w := l - prev;
      if rem + 1 <= w {
        WalkIdle(0, prev, slabs[1..]);
        WalkIdle(0, l, slabs[1..]);
        assert (rem + 1) as real * rate == rem as real * rate + rate;
      } else {
        EnergyStep(rem - w, l, slabs[1..]);
      }
  }

  lemma {:induction false} MarginalRateNonNegative(rem: int, prev: int, slabs: seq<Slab>)
    requires AscendingFrom(prev, slabs) && NonNegativeRates(slabs)
    ensures MarginalRate(rem, prev, slabs) >= 0.0
    decreases |slabs|
  {
    match slabs[0].limit
    case None =>
    case Some(l) =>
      if rem >= l - prev {
        MarginalRateNonNegative(rem - (l - prev), l, slabs[1..]);
      }
  }

  /** With ascending rates, no unit is charged less than the first slab's rate. */
  lemma {:induction false} MarginalRateAtLeastFirst(rem: int, prev: int, slabs: seq<Slab>)
    requires AscendingFrom(prev, slabs) && AscendingRates(slabs)
    ensures slabs[0].rate <= MarginalRate(rem, prev, slabs)
    decreases |slabs|
  {
    match slabs[0].limit
    case None =>
    case Some(l) =>
      if rem >= l - prev {
        MarginalRateAtLeastFirst(rem - (l - prev), l, slabs[1..]);
      }
  }

  /** With ascending rates, each further unit costs at least as much as the one
      before it. */
  lemma {:induction false} MarginalRateAscending(rem: int, prev: int, slabs: seq<Slab>)
    requires rem >= 0 && AscendingFrom(prev, slabs) && AscendingRates(slabs)
    ensures MarginalRate(rem, prev, slabs) <= MarginalRate(rem + 1, prev, slabs)
    decreases |slabs|
  {
    match slabs[0].limit
    case None =>
    case Some(l) =>
      var w := l - prev;
      if rem + 1 == w {
        MarginalRateAtLeastFirst(0, l, slabs[1..]);
      } else if rem >= w {
        MarginalRateAscending(rem - w, l, slabs[1..]);
      }
  }

  /** With non-negative rates, the energy charge does not decrease when the
      consumption grows. */
  lemma {:induction false} EnergyMonotone(u: int, v: int, slabs: seq<Slab>)
    requires AscendingFrom(0, slabs) && NonNegativeRates(slabs) && u <= v
    ensures Energy(u, slabs) <= Energy(v, slabs)
    decreases v - u
  {
    if u < v {
      EnergyMonotone(u, v - 1, slabs);
      if v - 1 >= 0 {
        EnergyStep(v - 1, 0, slabs);
        MarginalRateNonNegative(v - 1, 0, slabs);
      } else {
        WalkIdle(v - 1, 0, slabs);
        WalkIdle(v, 0, slabs);
      }
    }
  }

  /** With ascending rates, the energy charge is convex in the units: the
      increase for a further unit is never smaller than the one before. */
  lemma EnergyConvex(u: nat, slabs: seq<Slab>)
    requires AscendingFrom(0, slabs) && AscendingRates(slabs)
    ensures Energy(u + 2, slabs) - Energy(u + 1, slabs) >= Energy(u + 1, slabs) - Energy(u, slabs)
  {
    EnergyStep(u, 0, slabs);
    EnergyStep(u + 1, 0, slabs);
    MarginalRateAscending(u, 0, slabs);
  }
}
