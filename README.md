# Shenandoah allocation pacer, modelled in Dafny

This project models the allocation pacer of the Shenandoah garbage collector
(`ShenandoahPacer`). The pacer throttles mutator threads that allocate while a
concurrent cycle runs. It holds a shared word budget and a per-word tax rate,
and a mutator must pay `tax` words of budget before it allocates.

- `pacer_tax.dfy`, module `PacerTax`: pure arithmetic. A phase's free space is
  split into a non-taxable slack share and a taxable share. Each collection
  phase derives its rate from a work estimate, a phase weight (3 for mark,
  2 for evacuation, 1 for update-refs), a floor of 1 and a 1.1 surcharge. The
  idle phase uses rate 1. The module also has the tax of one claim and the
  word budget that a restart installs.
- `pacer.dfy`, module `ShenandoahPacer`: class `Pacer` with the fields
  `budget`, `taxRate` and `delays` (the recorded delay samples). Its methods
  are the four phase setups, `RestartWith`, `ClaimForAlloc` and
  `PaceForAlloc`. The module also has pure functions for one claim, for a
  sequence of claims and for the wait loop, with lemmas about them.
- `pacer_report.dfy`, module `PacerReport`: the `[lo, hi)` millisecond labels
  that `print_on` writes for each histogram level.

Each compare-and-swap retry loop has one linearisation point, so it is one
atomic step here. The clock is an input: the elapsed milliseconds read at each
poll of the wait, non-decreasing, and past the maximum wait by the last reading.
Budget changes made by other threads during the wait are an input too: one
delta per poll, applied before that poll's claim.

Two points about the code that the model keeps as written:
- `claim_for_alloc` never reads its `force` argument
  (shenandoahPacer.cpp:147-162). The comment before the forced claim at
  shenandoahPacer.cpp:189-190 says the budget "may go negative at this point".
  It cannot: the forced claim made after a time-out is an ordinary claim, which
  fails when the budget is short. `ClaimForAlloc`'s contract does not mention
  `force`. `ClaimsNeverOverdraw`, `SlowPathNeverOverdraws` and
  `StarvedWaitTimesOut` state the consequences.
- Each collection phase multiplies the base tax `basis / taxable` by the phase
  weight and only then applies the floor of 1 (shenandoahPacer.cpp:62-64). The
  rate is therefore `max(1, w * basis / taxable) * 1.1`.

## Model

| member | source | states |
|---|---|---|
| PacerTax.Weight | hotspot/src/share/vm/gc_implementation/shenandoah/shenandoahPacer.cpp:63-105 | weights are 1..3; 3 only for mark, 1 only for update-refs |
| PacerTax.NonTaxable | hotspot/src/share/vm/gc_implementation/shenandoah/shenandoahPacer.cpp:59 | the slack share is `slack` percent of free space, rounded down, and never more than free space when slack <= 100 |
| PacerTax.Taxable | hotspot/src/share/vm/gc_implementation/shenandoah/shenandoahPacer.cpp:60 | the taxable share lies between 0 and free space when slack <= 100 |
| PacerTax.TaxableIsPositive | hotspot/src/share/vm/gc_implementation/shenandoah/shenandoahPacer.cpp:59-62 | the taxable share, the divisor of the base tax, is positive exactly when free > 0 and slack < 100 |
| PacerTax.PhaseRate | hotspot/src/share/vm/gc_implementation/shenandoah/shenandoahPacer.cpp:62-65 | the rate is at least 1.1; taxing every taxable byte at it repays at least 1.1 times the weighted work, exactly that when the work is at least the taxable space, and the rate is exactly 1.1 otherwise |
| PacerTax.CyclePlan | hotspot/src/share/vm/gc_implementation/shenandoah/shenandoahPacer.cpp:56-67 | the slack share is slack percent of free, rounded down, and leaves a positive taxable share; the rate is exactly 1.1 when the weighted work is at most the taxable share, and otherwise exactly the rate at which the taxable share repays 1.1 times the weighted work (so always >= 1.1) |
| PacerTax.MarkPlan | hotspot/src/share/vm/gc_implementation/shenandoah/shenandoahPacer.cpp:53-67 | mark: slack share is slack percent of free, rounded down; rate is exactly 1.1 when 3 x used <= taxable, otherwise taxable x rate == 1.1 x 3 x used exactly |
| PacerTax.EvacPlan | hotspot/src/share/vm/gc_implementation/shenandoah/shenandoahPacer.cpp:74-88 | evacuation: slack share is slack percent of free, rounded down; rate is exactly 1.1 when 2 x live data <= taxable, otherwise taxable x rate == 1.1 x 2 x live data exactly |
| PacerTax.UpdateRefsPlan | hotspot/src/share/vm/gc_implementation/shenandoah/shenandoahPacer.cpp:95-109 | update-refs: slack share is slack percent of free, rounded down; rate is exactly 1.1 when used <= taxable, otherwise taxable x rate == 1.1 x used exactly |
| PacerTax.IdlePlan | hotspot/src/share/vm/gc_implementation/shenandoah/shenandoahPacer.cpp:125-131 | idle: rate exactly 1; allowance is idle-slack percent of capacity, rounded down, and at most capacity |
| PacerTax.RestartBudget | hotspot/src/share/vm/gc_implementation/shenandoah/shenandoahPacer.cpp:137-139 | the restart budget, `floor(bytes x rate) >> 3`, is the number of whole 8-byte heap words in non-taxable bytes x rate, and is non-negative |
| PacerTax.Tax | hotspot/src/share/vm/gc_implementation/shenandoah/shenandoahPacer.cpp:150 | the tax is `max(1, floor(words x rate))`: at least 1, at most the product unless it is 1, and above the product minus one |
| PacerTax.MarkWorkedExample | hotspot/src/share/vm/gc_implementation/shenandoah/shenandoahPacer.cpp:45-50 | used 90 MB, free 10 MB, slack 10%: taxable 9 MB, non-taxable 1 MB, mark rate 33, budget 33 MB in words |
| PacerTax.IdleWorkedExample | hotspot/src/share/vm/gc_implementation/shenandoah/shenandoahPacer.cpp:128-131 | capacity 100 MB, idle slack 1%: 1 MB at rate 1, budget 1 MB in words |
| ShenandoahPacer.Claim | hotspot/src/share/vm/gc_implementation/shenandoah/shenandoahPacer.cpp:154-162 | a claim is granted exactly when budget >= tax; a granted claim lowers the budget by exactly the tax, a refused one leaves it unchanged |
| ShenandoahPacer.ForceIsIgnored | hotspot/src/share/vm/gc_implementation/shenandoah/shenandoahPacer.cpp:147-162 | two claim sequences of the same sizes end with the same budget and the same number of granted claims, whatever their force flags |
| ShenandoahPacer.ClaimsNeverOverdraw | hotspot/src/share/vm/gc_implementation/shenandoah/shenandoahPacer.cpp:147-162 | claims never raise the budget; final budget plus granted claims is at most the start budget; a non-negative budget stays non-negative and grants at most that many claims |
| ShenandoahPacer.SlowPath | hotspot/src/share/vm/gc_implementation/shenandoah/shenandoahPacer.cpp:173-200 | the wait ends within the supplied clock readings, after at least one poll |
| ShenandoahPacer.SlowPathOutcome | hotspot/src/share/vm/gc_implementation/shenandoah/shenandoahPacer.cpp:176-200 | the wait records one sample, the clock at its last poll; it timed out exactly when the sample exceeds the maximum wait; every earlier poll was within the wait and found the budget short; a wait that did not time out ended with a granted claim; the final budget is one ordinary claim against the budget seen at the last poll |
| ShenandoahPacer.StarvedWaitTimesOut | hotspot/src/share/vm/gc_implementation/shenandoah/shenandoahPacer.cpp:183-192 | with a short budget and no replenishment, the wait times out with a sample above the maximum wait, and the forced claim fails, so the budget is unchanged |
| ShenandoahPacer.SlowPathNeverOverdraws | hotspot/src/share/vm/gc_implementation/shenandoah/shenandoahPacer.cpp:176-200 | when other threads only add budget, a non-negative budget stays non-negative through the wait |
| ShenandoahPacer.Pacer.RestartWith | hotspot/src/share/vm/gc_implementation/shenandoah/shenandoahPacer.cpp:137-145 | the budget becomes RestartBudget(bytes, rate) whatever it was; the rate becomes `rate` (at least 1, as every caller passes); the delays are unchanged |
| ShenandoahPacer.Pacer.SetupForMark | hotspot/src/share/vm/gc_implementation/shenandoah/shenandoahPacer.cpp:53-72 | restarts with the mark plan; the published rate is >= 1.1 |
| ShenandoahPacer.Pacer.SetupForEvac | hotspot/src/share/vm/gc_implementation/shenandoah/shenandoahPacer.cpp:74-93 | restarts with the evacuation plan; the published rate is >= 1.1 |
| ShenandoahPacer.Pacer.SetupForUpdateRefs | hotspot/src/share/vm/gc_implementation/shenandoah/shenandoahPacer.cpp:95-114 | restarts with the update-refs plan; the published rate is >= 1.1 |
| ShenandoahPacer.Pacer.SetupForIdle | hotspot/src/share/vm/gc_implementation/shenandoah/shenandoahPacer.cpp:125-135 | restarts with idle-slack percent of capacity at rate exactly 1 |
| ShenandoahPacer.Pacer.ClaimForAlloc | hotspot/src/share/vm/gc_implementation/shenandoah/shenandoahPacer.cpp:147-163 | granted exactly when the budget covers Tax(words, rate), whatever `force` is; charges exactly the tax when granted and nothing otherwise; a non-negative budget stays non-negative |
| ShenandoahPacer.Pacer.PaceForAlloc | hotspot/src/share/vm/gc_implementation/shenandoah/shenandoahPacer.cpp:165-201 | a granted fast-path claim charges the tax and records no sample; otherwise the budget and the single appended sample are those of SlowPath |
| PacerReport.Pow2 | hotspot/src/share/vm/gc_implementation/shenandoah/shenandoahPacer.cpp:221 | `1 << n` is at least 1, and at least 2 for n >= 1 |
| PacerReport.LevelsContiguous | hotspot/src/share/vm/gc_implementation/shenandoah/shenandoahPacer.cpp:220-221 | each level's range is non-empty and ends where the next level's begins |
| PacerReport.LabelsPartition | hotspot/src/share/vm/gc_implementation/shenandoah/shenandoahPacer.cpp:220-221 | every delay in milliseconds lies in the range of exactly one level |
| PacerReport.LevelRanges | hotspot/src/share/vm/gc_implementation/shenandoah/shenandoahPacer.cpp:219-223 | one row per level from min to max level, in order: level 0 is [0, 1), level c is [2^(c-1), 2^c); rows are non-empty and contiguous |

## Left out

- Atomics and memory ordering (`Atomic::cmpxchg`, `load_acquire`, `release_store`): each retry loop is one atomic step. The window between a restart's budget swap and its rate store is not modelled.
- Concurrent restarts during a wait: other threads change only the budget (one delta per poll). The tax rate stays fixed for one `PaceForAlloc` call, whereas the C++ code re-reads it at every claim.
- `os::sleep` and `os::elapsedTime`: replaced by a list of elapsed-millisecond readings, one per poll. The conversion `(size_t)((end - start) * 1000)` is not modelled. The model assumes the clock passes the maximum wait within the readings it is given.
- ShenandoahPacer.Pacer.PaceForAlloc: does not model safepoint participation while sleeping.
- IEEE doubles: rates are exact reals, so 1.1 is exactly 11/10. The infinite or NaN rate the C++ code computes when the taxable share is 0 is excluded by `slack < 100 && free > 0`.
- A slack above 100 percent is excluded by `slack < 100` in the mark, evacuation and update-refs plans. In the C++ code `free - non_taxable` then wraps around in `size_t`, giving a huge taxable share and a rate of 1.1. `PacerTax.Taxable` is an unbounded integer and goes negative instead.
- Overflow: the double-to-`size_t` and double-to-`intptr_t` casts are guarded by `RestartFits` and `TaxFits`. The product `free * slack` in `size_t` is computed unbounded.
- `LogHeapWordSize` is 3, as on a 64-bit VM; a 32-bit VM uses 2.
- PacerReport.LevelRanges: computes `1 << c` unbounded; the C++ `int` shift overflows for levels of 31 and above.
- The delay histogram (`_delays`, its `add`, `min_level`, `max_level`, `level`): shenandoahNumberSeq is not part of this model. `delays` is the sequence of recorded samples; the report takes its minimum and maximum levels as inputs and omits the counts.
- The text of `print_on` and all `log_info` output.
- Heap, free-set and collection-set accessors (`used`, `available`, `capacity`, `live_data`) and the slack and delay flags: plain natural-number inputs.
- `assert(ShenandoahPacing, ...)`: a debug check on the caller, not modelled.
- The constructor: shenandoahPacer.hpp is not part of this model. The model starts with budget 0, rate 1 and no samples.
