# Mumbai electricity bill calculator: tariff engine

This project models the calculation engine of a Mumbai residential electricity
bill calculator for the 2025-26 tariffs, and proves properties of it in Dafny.
The engine takes a monthly unit count, a utility provider (Adani Electricity or
Tata Power (Direct)), a connection phase and the month's PPCA (power purchase
cost adjustment) rate. From these it computes the parts of the bill:

- a fixed charge, chosen by phase and by unit breakpoint;
- a slab-wise energy charge, with a breakdown of the units, rate and cost in each slab;
- a wheeling charge and a PPCA charge, each linear in the units;
- a 16% electricity duty on the sum of those four charges;
- a per-unit tax on sale;
- the grand total.

Modules:

- `Tariffs` (`tariffs.dfy`): the rate table as data. Each slab is an
  (upper limit, rate) pair. The unbounded last slab has upper limit `None`.
  The module also has the well-formedness predicates that the proofs rely on,
  and a lemma that both table entries satisfy them.
- `Slabs` (`slabs.dfy`): the slab walk. `Walk` is the pure recursive
  specification. `ComputeSlabs` is the loop that updates the remaining units,
  the previous limit and the running energy total, and appends to the
  breakdown. It is proved equal to `Walk`. The lemmas cover coverage, ordering,
  per-entry bounds, the marginal rate of one more unit, monotonicity and
  convexity.
- `Billing` (`billing.dfy`): fixed charge, wheeling, PPCA, duty, tax on sale and
  total. `BillFor` is the specification of a whole bill. `RunCalculation` looks
  the provider up, and `ComputeBill` does the step-by-step calculation for one
  schedule. Both are proved equal to `BillFor`.

Amounts are exact Dafny `real`s. The decimal constants of the table (3.45, 0.2604,
0.16, ...) are the exact rationals they denote. Units are unbounded integers.

A breakdown entry is produced only while units remain, so a bill has one entry
per slab actually used. The duty base is fixed + energy + wheeling + PPCA.
Worked example: Tata Power, single phase, 250 units, PPCA 0.45 gives energy
1004.5 and total 2045.22.

`Billing.BillFor`, `Billing.FixedCharge` and `Billing.Subtotal` are
specification functions that only compute. Their properties are stated by the
lemmas in the table below (`FixedChargeTable`, `BillTotals`,
`DutyExcludesTaxOnSale`, `BillNonNegative`, `TotalMonotoneInUnits`) and by the
methods proved equal to `BillFor`.

## Model

| member | source | states |
|---|---|---|
| `Tariffs.TariffDataWellFormed` | app.py:24-39 | the table has exactly the two providers; each schedule has four slabs with strictly increasing limits ending in one unbounded slab, non-negative ascending rates, fixed charges 90/135/160 at breakpoints 100/300/1000, three-phase charge 160, tax on sale 0.2604 |
| `Slabs.Walk` | app.py:59-66 | the slab walk yields at most one breakdown entry per slab |
| `Slabs.ComputeSlabs` | app.py:53-66 | the slab loop's breakdown is the walk's breakdown, its accumulated energy total is the sum of the entries' costs, and the remaining units at the end are the units minus those billed, which is 0 for non-negative units and ascending slabs ending unbounded |
| `Slabs.WalkIdle` | app.py:59-60 | once no units remain, and so for zero or negative units, no further entry is produced and the energy charge is 0 |
| `Slabs.WalkCovers` | app.py:55-66 | for non-negative units and ascending slabs ending unbounded, the entries' units sum to exactly the units billed |
| `Slabs.WalkFollowsSlabs` | app.py:59-64 | entry k comes from slab k: its upper bound is slab k's limit and its rate is slab k's rate |
| `Slabs.WalkCosts` | app.py:61-64 | every entry's cost is its units times its rate |
| `Slabs.EnergyIsSlabCosts` | app.py:61-64 | each entry's cost is the units in the slab times that slab's rate; with units at most 0 the breakdown is empty and the energy is 0 |
| `Slabs.WalkContiguous` | app.py:56-66 | the first entry starts at the initial lower bound; each later entry starts at the previous entry's upper limit; every entry but the last is bounded and completely filled |
| `Slabs.WalkEntriesBounded` | app.py:60-61 | with ascending limits, every entry bills more than 0 units and, in a bounded slab, at most the slab width (limit minus lower bound) |
| `Slabs.EnergyStep` | app.py:59-63 | billing one more unit adds exactly the rate of the slab that unit falls in |
| `Slabs.MarginalRateNonNegative` | app.py:62-63 | with non-negative slab rates, the marginal rate of a unit is non-negative |
| `Slabs.MarginalRateAtLeastFirst` | app.py:59-63 | with ascending rates, no unit is charged less than the first slab's rate |
| `Slabs.MarginalRateAscending` | app.py:59-63 | with ascending slab rates, each further unit's rate is at least the previous unit's |
| `Slabs.EnergyMonotone` | app.py:54-66 | with non-negative rates, the energy charge does not decrease as units grow |
| `Slabs.EnergyConvex` | app.py:54-66 | with ascending rates, the increase in energy charge per further unit never shrinks |
| `Billing.RunCalculation` | app.py:42-83 | for a provider in the table, the calculation returns exactly the specified bill for that provider's schedule |
| `Billing.ComputeBill` | app.py:45-83 | the step-by-step calculation (fixed charge selection, slab loop, wheeling, PPCA, duty, tax on sale, total) yields exactly the specified bill |
| `Billing.FixedChargeTable` | app.py:46-51 | fixed charge is 160 for "Three Phase"; for any other phase it is 90 up to 100 units, 135 for 101 to 500 units and 160 above 500 |
| `Billing.FixedChargeIgnores500` | app.py:49-51 | the single-phase table entry at breakpoint 500 is never read: changing it changes no fixed charge |
| `Billing.BillBreakdown` | app.py:54-66 | for a table provider and non-negative units, the bill's breakdown sums to the units, has at most 4 entries, starts at 0, follows slab order with contiguous bounds, bills between 1 unit and the slab width per entry, and fills every slab but the last |
| `Billing.ChargesLinear` | app.py:69-75 | wheeling, PPCA and tax on sale are additive in the units; they are non-negative for non-negative units and rates, and non-decreasing in the units |
| `Billing.BillTotals` | app.py:73-77 | duty is 0.16 times fixed + energy + wheeling + PPCA; tax on sale is units times the table rate; total is that subtotal plus duty plus tax on sale, which is 1.16 times the subtotal plus tax on sale |
| `Billing.DutyExcludesTaxOnSale` | app.py:73-77 | tax on sale is not in the duty base: changing its rate leaves duty and every earlier charge unchanged, and moves the total only by the change in tax on sale |
| `Billing.BillNonNegative` | app.py:42-77 | with a well-formed schedule, non-negative units and a non-negative PPCA rate, every part of the bill is non-negative |
| `Billing.EnergyMonotoneInUnits` | app.py:54-66 | for a fixed table provider, energy is non-decreasing in units and convex (the table's rates ascend) |
| `Billing.TotalMonotoneInUnits` | app.py:42-77 | for a fixed table provider and phase and a non-negative PPCA rate, the grand total is non-decreasing in units |
| `Billing.TataPowerExample` | app.py:42-77 | Tata Power, single phase, 250 units, PPCA rate 0.45: slab entries 100 x 2.02 = 202 and 150 x 5.35 = 802.5; energy 1004.5; fixed 135; wheeling 455; PPCA 112.5; duty 273.12; tax on sale 65.1; total 2045.22 |

## Left out

- Page setup, sidebar widgets and result rendering (app.py:1-20, app.py:85-111) are not modelled. They are user interface code. The model's inputs are the values those widgets would return.
- Two-decimal display formatting and the "Avg Rate/Unit" division (app.py:90-91, app.py:102-108) are not modelled. They are presentation, not engine logic.
- The slab label string (app.py:64) is not modelled as a string. Each entry instead carries its bounds as a (lower, optional upper) pair.
- Floating-point rounding is not modelled. Amounts are exact rationals, so the model states the values the source's floats approximate.
- The first line of `run_calculation` (app.py:43) raises a KeyError for an unknown provider. Here that is a precondition: `RunCalculation` requires the provider to be a key of `TariffData`.
- After the unbounded slab, the source sets `prev_limit` to infinity. The model keeps the previous lower bound instead. This value is never read, because no units remain after the unbounded slab.
- `Billing.ComputeBill` and `Slabs.ComputeSlabs` model the body of `run_calculation` split in two. The slab loop forms its own method, and its accumulators are locals, as in the source. The loop's final remaining units are returned as a ghost output so that a contract can state them.
- Unit conversion for network losses, solar rebates, commercial demand charges and penalties, per-load surcharges and PPCA floors are not modelled. The source has none of them.
