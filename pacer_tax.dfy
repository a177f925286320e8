/**
 * The arithmetic of the Shenandoah allocation pacer: how a phase's free space
 * is split into a non-taxable slack share and a taxable share, which tax rate
 * each collector phase publishes, how many words a claim costs, and how a
 * restart turns the non-taxable bytes into a word budget.
 *
 * Rates are mathematical reals: the multiplier 1.1 is exactly 11/10 and no
 * IEEE double rounding happens. The conversions from double to an integer
 * type in the C++ code truncate toward zero; all the values converted here
 * are non-negative, so truncation is `.Floor`.
 */
module PacerTax {

  /** log2 of the heap word size in bytes on a 64-bit VM. */
  const LogHeapWordSize: nat := 3
  /** The heap word size in bytes, 2^LogHeapWordSize. */
  const HeapWordSize: nat := 8

  /** `x >> n` on an unsigned value: n halvings, each rounding down. */
  function ShiftRight(x: nat, n: nat): nat
  {
    if n == 0 then x else ShiftRight(x / 2, n - 1)
  }

  /** One mebibyte, the unit the worked example is stated in. */
  const M: nat := 1024 * 1024

  /** 2^64: a double at or above this does not fit a size_t. */
  const SizeLimit: int := 0x1_0000_0000_0000_0000
  /** 2^63: a double at or above this does not fit an intptr_t. */
  const IntptrLimit: int := 0x8000_0000_0000_0000

  /** The surcharge applied to every collection-phase rate. */
  const Surcharge: real := 1.1

  /** The phases of a concurrent cycle that are charged a tax. */
  datatype CyclePhase = Mark | Evac | UpdateRefs

  /** What a phase setup hands to restart_with. */
  datatype Plan = Plan(nonTaxable: nat, taxRate: real)

  /**
   * How many phases' worth of pessimistic work remain to be repaid when the
   * phase starts: mark is phase 1 of 3, evacuation 2 of 3, update-refs 3 of 3.
   */
  function Weight(p: CyclePhase): (w: nat)
    ensures 1 <= w <= 3
    ensures w == 3 <==> p == Mark
    ensures w == 1 <==> p == UpdateRefs
  {
    match p
    case Mark => 3
    case Evac => 2
    case UpdateRefs => 1
  }

  function Max1(x: real): real { if x < 1.0 then 1.0 else x }

  /** The slack share of `free`: `slack` percent of it, rounded down. */
  function NonTaxable(free: nat, slack: nat): (nt: nat)
    ensures nt * 100 <= free * slack < (nt + 1) * 100
    ensures slack <= 100 ==> nt <= free
  {
    free * slack / 100
  }

  /** The part of `free` the pacer charges for. */
  function Taxable(free: nat, slack: nat): (t: int)
    ensures slack <= 100 ==> 0 <= t <= free
  {
    free - NonTaxable(free, slack)
  }

  /**
   * With a slack of at most 100 percent there is a taxable share exactly
   * when there is free space and the slack is not the whole of it.
   */
  lemma TaxableIsPositive(free: nat, slack: nat)
    requires slack <= 100
    ensures Taxable(free, slack) > 0 <==> free > 0 && slack < 100
  {
  }

  /**
   * The rate a collection phase publishes: `basis` bytes of work weighted by
   * the phase, spread over the `taxable` bytes, never below one, plus 10%.
   */
  function PhaseRate(basis: nat, taxable: nat, weight: nat): (r: real)
    requires taxable > 0
    ensures r >= Surcharge
    // Charging every taxable byte at r repays the weighted work plus 10%,
    // and exactly that when the work is at least the taxable space.
    ensures taxable as real * r >= Surcharge * (basis * weight) as real
    ensures basis * weight >= taxable ==> taxable as real * r == Surcharge * (basis * weight) as real
    ensures basis * weight <= taxable ==> r == Surcharge
  {
    var base := 1.0 * basis as real / taxable as real;
    assert taxable as real * base == basis as real;
    var weighted := base * weight as real;
    assert taxable as real * weighted == (basis * weight) as real;
    Max1(weighted) * Surcharge
  }

  /** The plan of one collection phase, from its workload estimate and the free space. */
  function CyclePlan(p: CyclePhase, basis: nat, free: nat, slack: nat): (plan: Plan)
    requires slack < 100 && free > 0
    ensures plan.nonTaxable < free
    ensures plan.nonTaxable * 100 <= free * slack < (plan.nonTaxable + 1) * 100
    ensures plan.taxRate >= Surcharge
    ensures (free - plan.nonTaxable) as real * plan.taxRate >= Surcharge * (basis * Weight(p)) as real
    ensures basis * Weight(p) >= free - plan.nonTaxable ==>
      (free - plan.nonTaxable) as real * plan.taxRate == Surcharge * (basis * Weight(p)) as real
    ensures basis * Weight(p) <= free - plan.nonTaxable ==> plan.taxRate == Surcharge
  {
    TaxableIsPositive(free, slack);
    var nt := NonTaxable(free, slack);
    Plan(nt, PhaseRate(basis, free - nt, Weight(p)))
  }

  /** setup_for_mark: the work estimate is the heap's used bytes, weighted by 3. */
  function MarkPlan(used: nat, free: nat, slack: nat): (plan: Plan)
    requires slack < 100 && free > 0
    ensures plan.nonTaxable * 100 <= free * slack < (plan.nonTaxable + 1) * 100
    ensures plan.nonTaxable < free && plan.taxRate >= Surcharge
    ensures (free - plan.nonTaxable) as real * plan.taxRate >= Surcharge * (3 * used) as real
    ensures 3 * used >= free - plan.nonTaxable ==>
      (free - plan.nonTaxable) as real * plan.taxRate == Surcharge * (3 * used) as real
    ensures 3 * used <= free - plan.nonTaxable ==> plan.taxRate == Surcharge
  {
    CyclePlan(Mark, used, free, slack)
  }

  /** setup_for_evac: the work estimate is the collection set's live data, weighted by 2. */
  function EvacPlan(cset: nat, free: nat, slack: nat): (plan: Plan)
    requires slack < 100 && free > 0
    ensures plan.nonTaxable * 100 <= free * slack < (plan.nonTaxable + 1) * 100
    ensures plan.nonTaxable < free && plan.taxRate >= Surcharge
    ensures (free - plan.nonTaxable) as real * plan.taxRate >= Surcharge * (2 * cset) as real
    ensures 2 * cset >= free - plan.nonTaxable ==>
      (free - plan.nonTaxable) as real * plan.taxRate == Surcharge * (2 * cset) as real
    ensures 2 * cset <= free - plan.nonTaxable ==> plan.taxRate == Surcharge
  {
    CyclePlan(Evac, cset, free, slack)
  }

  /** setup_for_updaterefs: the work estimate is the heap's used bytes, weighted by 1. */
  function UpdateRefsPlan(used: nat, free: nat, slack: nat): (plan: Plan)
    requires slack < 100 && free > 0
    ensures plan.nonTaxable * 100 <= free * slack < (plan.nonTaxable + 1) * 100
    ensures plan.nonTaxable < free && plan.taxRate >= Surcharge
    ensures (free - plan.nonTaxable) as real * plan.taxRate >= Surcharge * used as real
    ensures used >= free - plan.nonTaxable ==>
      (free - plan.nonTaxable) as real * plan.taxRate == Surcharge * used as real
    ensures used <= free - plan.nonTaxable ==> plan.taxRate == Surcharge
  {
    CyclePlan(UpdateRefs, used, free, slack)
  }

  /** setup_for_idle: an initial allowance of `idleSlack` percent of capacity, at rate 1. */
  function IdlePlan(capacity: nat, idleSlack: nat): (plan: Plan)
    ensures plan.taxRate == 1.0
    ensures plan.nonTaxable * 100 <= capacity * idleSlack < (plan.nonTaxable + 1) * 100
    ensures idleSlack <= 100 ==> plan.nonTaxable <= capacity
  {
    Plan(NonTaxable(capacity, idleSlack), 1.0)
  }

  /** The non-taxable bytes times the rate still fit a size_t. */
  predicate RestartFits(nonTaxableBytes: nat, rate: real)
  {
    rate >= 0.0 && nonTaxableBytes as real * rate < SizeLimit as real
  }

  /**
   * The budget restart_with installs: the whole heap words contained in
   * `nonTaxableBytes * rate` bytes.
   */
  function RestartBudget(nonTaxableBytes: nat, rate: real): (words: int)
    requires RestartFits(nonTaxableBytes, rate)
    ensures 0 <= words
    ensures (words * HeapWordSize) as real <= nonTaxableBytes as real * rate
    ensures nonTaxableBytes as real * rate < ((words + 1) * HeapWordSize) as real
  {
    var bytes: nat := (nonTaxableBytes as real * rate).Floor;
    assert ShiftRight(bytes, 3) == ShiftRight(bytes / 2, 2) == ShiftRight(bytes / 2 / 2, 1)
      == bytes / 2 / 2 / 2;
    ShiftRight(bytes, LogHeapWordSize)
  }

  /** The product of the words claimed and the rate still fits an intptr_t. */
  predicate TaxFits(words: nat, rate: real)
  {
    rate >= 0.0 && words as real * rate < IntptrLimit as real
  }

  /**
   * The tax of a claim of `words` at `rate`: the whole part of their
   * product, but never less than one word.
   */
  function Tax(words: nat, rate: real): (t: int)
    requires TaxFits(words, rate)
    ensures 1 <= t
    ensures t == 1 || t as real <= words as real * rate
    ensures words as real * rate < (t + 1) as real
  {
    var product := (words as real * rate).Floor;
    if product < 1 then 1 else product
  }

  /** The worked example of the mark phase: 90 MB used, 10 MB free, 10% slack. */
  lemma MarkWorkedExample()
    ensures Taxable(10 * M, 10) == 9 * M
    ensures MarkPlan(90 * M, 10 * M, 10) == Plan(M, 33.0)
    ensures RestartBudget(M, 33.0) == 33 * M / HeapWordSize
  {
  }

  /** The idle example: 100 MB capacity and 1% idle slack give 1 MB at rate 1. */
  lemma IdleWorkedExample()
    ensures IdlePlan(100 * M, 1) == Plan(M, 1.0)
    ensures RestartBudget(M, 1.0) == M / HeapWordSize
  {
  }
}
