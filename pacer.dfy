/**
 * The pacer's shared state and the operations that change it: phase setup and
 * restart (control thread), claims and the pacing wait (mutator threads).
 *
 * Every compare-and-swap retry loop of the C++ code has one linearisation
 * point, so each is modelled as a single atomic step. What other threads do
 * to the budget while a mutator waits is an input of the wait (one budget
 * delta per poll); the clock is an input too (the elapsed milliseconds seen
 * at each poll).
 */
module ShenandoahPacer {
  import opened PacerTax

  /** The outcome of one claim: whether it was granted and the budget after it. */
  datatype Claimed = Claimed(ok: bool, budget: int)

  /**
   * One claim of `tax` words against `budget`: granted, and charged, exactly
   * when the budget covers the tax.
   */
  function Claim(budget: int, tax: int): (c: Claimed)
    ensures c.ok <==> budget >= tax
    ensures c.budget == (if c.ok then budget - tax else budget)
  {
    if budget < tax then Claimed(false, budget) else Claimed(true, budget - tax)
  }

  /** A claim_for_alloc request: the words to allocate and the force flag. */
  datatype Request = Request(words: nat, force: bool)

  predicate AllTaxFit(rate: real, reqs: seq<Request>)
  {
    forall i :: 0 <= i < |reqs| ==> TaxFits(reqs[i].words, rate)
  }

  /** The budget after the claims `reqs`, in order, at a fixed rate. */
  function RunClaims(budget: int, rate: real, reqs: seq<Request>): int
    requires AllTaxFit(rate, reqs)
  {
    if reqs == [] then budget
    else RunClaims(Claim(budget, Tax(reqs[0].words, rate)).budget, rate, reqs[1..])
  }

  /** How many of the claims `reqs` are granted. */
  function Granted(budget: int, rate: real, reqs: seq<Request>): nat
    requires AllTaxFit(rate, reqs)
  {
    if reqs == [] then 0
    else
      var c := Claim(budget, Tax(reqs[0].words, rate));
      (if c.ok then 1 else 0) + Granted(c.budget, rate, reqs[1..])
  }

  /** Same sizes, whatever the force flags. */
  predicate SameWords(a: seq<Request>, b: seq<Request>)
  {
    |a| == |b| && forall i :: 0 <= i < |a| ==> a[i].words == b[i].words
  }

  /**
   * Two request sequences of the same sizes leave the same budget and grant
   * the same number of claims, whatever their force flags. This holds by
   * construction, since claim_for_alloc's model never reads `force`; the
   * evidence about the code is that ClaimForAlloc's contract, which its body
   * must meet, does not mention `force` either.
   */
  lemma {:induction false} ForceIsIgnored(budget: int, rate: real, a: seq<Request>, b: seq<Request>)
    requires AllTaxFit(rate, a) && SameWords(a, b)
    ensures AllTaxFit(rate, b)
    ensures RunClaims(budget, rate, a) == RunClaims(budget, rate, b)
    ensures Granted(budget, rate, a) == Granted(budget, rate, b)
  {
    if a != [] {
      assert a[0].words == b[0].words;
      assert SameWords(a[1..], b[1..]) by {
        forall i | 0 <= i < |a| - 1 ensures a[1..][i].words == b[1..][i].words {
          assert a[1..][i] == a[i + 1] && b[1..][i] == b[i + 1];
        }
      }
      assert AllTaxFit(rate, a[1..]) by {
        forall i | 0 <= i < |a| - 1 ensures TaxFits(a[1..][i].words, rate) {
          assert a[1..][i] == a[i + 1];
        }
      }
      ForceIsIgnored(Claim(budget, Tax(a[0].words, rate)).budget, rate, a[1..], b[1..]);
    }
  }

  /**
   * Claims alone never raise the budget, never take a non-negative budget
   * below zero, and each granted claim costs at least one word: a budget of
   * `budget` words grants at most `budget` claims.
   */
  lemma {:induction false} ClaimsNeverOverdraw(budget: int, rate: real, reqs: seq<Request>)
    requires AllTaxFit(rate, reqs)
    ensures RunClaims(budget, rate, reqs) + Granted(budget, rate, reqs) <= budget
    ensures budget >= 0 ==> RunClaims(budget, rate, reqs) >= 0
    ensures budget >= 0 ==> Granted(budget, rate, reqs) <= budget
  {
    if reqs != [] {
      assert AllTaxFit(rate, reqs[1..]) by {
        forall i | 0 <= i < |reqs| - 1 ensures TaxFits(reqs[1..][i].words, rate) {
          assert reqs[1..][i] == reqs[i + 1];
        }
      }
      ClaimsNeverOverdraw(Claim(budget, Tax(reqs[0].words, rate)).budget, rate, reqs[1..]);
    }
  }

  /** What the slow path of pace_for_alloc ends with. */
  datatype Paced = Paced(budget: int, sample: nat, timedOut: bool, polls: nat)

  /** The clock passes the maximum wait by its last poll. */
  predicate Eventually(maxWait: nat, elapsed: seq<nat>)
  {
    |elapsed| > 0 && elapsed[|elapsed| - 1] > maxWait
  }

  /** The clock never goes back. */
  predicate Monotone(elapsed: seq<nat>)
  {
    forall i, j :: 0 <= i < j < |elapsed| ==> elapsed[i] <= elapsed[j]
  }

  /**
   * The slow path from a budget of `budget` words: before poll i other
   * threads change the budget by others[i], and the clock reads elapsed[i].
   * Past the maximum wait, the sample is recorded and a forced claim is
   * made; otherwise a granted claim records the sample and ends the wait.
   */
  function SlowPath(budget: int, tax: int, maxWait: nat, elapsed: seq<nat>, others: seq<int>): (r: Paced)
    requires Eventually(maxWait, elapsed) && |others| == |elapsed|
    ensures 1 <= r.polls <= |elapsed|
    decreases |elapsed|
  {
    var b := budget + others[0];
    if elapsed[0] > maxWait then Paced(Claim(b, tax).budget, elapsed[0], true, 1)
    else if b >= tax then Paced(b - tax, elapsed[0], false, 1)
    else
      var r := SlowPath(b, tax, maxWait, elapsed[1..], others[1..]);
      r.(polls := r.polls + 1)
  }

  /** A poll within the wait that finds the budget short leaves the rest of the wait to later polls. */
  lemma SlowPathStep(budget: int, tax: int, maxWait: nat, elapsed: seq<nat>, others: seq<int>)
    requires Eventually(maxWait, elapsed) && |others| == |elapsed|
    requires elapsed[0] <= maxWait && budget + others[0] < tax
    ensures Eventually(maxWait, elapsed[1..])
    ensures var t := SlowPath(budget + others[0], tax, maxWait, elapsed[1..], others[1..]);
      SlowPath(budget, tax, maxWait, elapsed, others) == t.(polls := t.polls + 1)
  {
  }

  /** The budget seen at poll k: the start budget plus every change up to poll k. */
  function BudgetAt(budget: int, others: seq<int>, k: nat): int
    requires k < |others|
  {
    if k == 0 then budget + others[0] else BudgetAt(budget, others, k - 1) + others[k]
  }

  lemma BudgetAtTail(budget: int, others: seq<int>, k: nat)
    requires 0 < |others| && k + 1 < |others|
    ensures BudgetAt(budget + others[0], others[1..], k) == BudgetAt(budget, others, k + 1)
  {
    if k > 0 {
      BudgetAtTail(budget, others, k - 1);
    }
  }

  /**
   * The slow path records exactly one sample, the clock at its last poll;
   * it timed out exactly when that sample exceeds the maximum wait; every
   * earlier poll was within the wait and found the budget short of the tax;
   * a wait that did not time out ended with a granted claim; and the forced
   * claim after a time-out is an ordinary claim.
   */
  lemma {:induction false} SlowPathOutcome(budget: int, tax: int, maxWait: nat, elapsed: seq<nat>, others: seq<int>)
    requires Eventually(maxWait, elapsed) && |others| == |elapsed|
    ensures var r := SlowPath(budget, tax, maxWait, elapsed, others);
      && r.sample == elapsed[r.polls - 1]
      && (r.timedOut <==> r.sample > maxWait)
      && (forall k :: 0 <= k < r.polls - 1 ==> elapsed[k] <= maxWait && BudgetAt(budget, others, k) < tax)
      && (!r.timedOut ==> BudgetAt(budget, others, r.polls - 1) >= tax)
      && r.budget == Claim(BudgetAt(budget, others, r.polls - 1), tax).budget
    decreases |elapsed|
  {
    var r := SlowPath(budget, tax, maxWait, elapsed, others);
    var b := budget + others[0];
    if elapsed[0] <= maxWait && b < tax {
      var e', o' := elapsed[1..], others[1..];
      assert Eventually(maxWait, e') by {
        assert e'[|e'| - 1] == elapsed[|elapsed| - 1];
      }
      SlowPathOutcome(b, tax, maxWait, e', o');
      var t := SlowPath(b, tax, maxWait, e', o');
      assert r == t.(polls := t.polls + 1);
      forall k | 0 <= k < r.polls - 1
        ensures elapsed[k] <= maxWait && BudgetAt(budget, others, k) < tax
      {
        if k > 0 {
          BudgetAtTail(budget, others, k - 1);
          assert elapsed[k] == e'[k - 1];
        }
      }
      BudgetAtTail(budget, others, t.polls - 1);
    }
  }

  /**
   * With no replenishment while waiting, a mutator that finds the budget
   * short waits out the maximum delay, records one sample above it, and the
   * forced claim then fails: the budget is left as it was.
   */
  lemma {:induction false} StarvedWaitTimesOut(budget: int, tax: int, maxWait: nat, elapsed: seq<nat>, others: seq<int>)
    requires Eventually(maxWait, elapsed) && |others| == |elapsed|
    requires budget < tax
    requires forall k :: 0 <= k < |others| ==> others[k] == 0
    ensures var r := SlowPath(budget, tax, maxWait, elapsed, others);
      r.timedOut && r.sample > maxWait && r.budget == budget
    decreases |elapsed|
  {
    if elapsed[0] <= maxWait {
      var e', o' := elapsed[1..], others[1..];
      assert Eventually(maxWait, e') by {
        assert e'[|e'| - 1] == elapsed[|elapsed| - 1];
      }
      StarvedWaitTimesOut(budget, tax, maxWait, e', o');
    }
  }

  /**
   * When other threads only add budget while a mutator waits, the wait
   * leaves a non-negative budget non-negative, even after a time-out.
   */
  lemma {:induction false} SlowPathNeverOverdraws(budget: int, tax: int, maxWait: nat, elapsed: seq<nat>, others: seq<int>)
    requires Eventually(maxWait, elapsed) && |others| == |elapsed|
    requires budget >= 0 && tax >= 1
    requires forall k :: 0 <= k < |others| ==> others[k] >= 0
    ensures SlowPath(budget, tax, maxWait, elapsed, others).budget >= 0
    decreases |elapsed|
  {
    var b := budget + others[0];
    if elapsed[0] <= maxWait && b < tax {
      var e', o' := elapsed[1..], others[1..];
      assert Eventually(maxWait, e') by {
        assert e'[|e'| - 1] == elapsed[|elapsed| - 1];
      }
      SlowPathNeverOverdraws(b, tax, maxWait, e', o');
    }
  }

  /** The pacer: a shared word budget, the per-word tax rate and the recorded delays. */
  class Pacer {
    var budget: int
    var taxRate: real
    /** The delay samples recorded so far, in milliseconds, oldest first. */
    var delays: seq<nat>

    /** Every rate the pacer publishes is at least 1: a word never costs less than a word. */
    ghost predicate Valid()
      reads this
    {
      taxRate >= 1.0
    }

    /** A pacer with an empty budget, rate 1 and no samples. */
    constructor ()
      ensures Valid()
      ensures budget == 0 && taxRate == 1.0 && delays == []
    {
      budget := 0;
      taxRate := 1.0;
      delays := [];
    }

    /**
     * restart_with: overwrite the budget with the heap words of
     * `nonTaxableBytes * rate` bytes, whatever it was, then publish the rate.
     * Its only callers are the four phase setups, whose rates are at least 1.
     */
    method RestartWith(nonTaxableBytes: nat, rate: real)
      requires RestartFits(nonTaxableBytes, rate) && rate >= 1.0
      modifies this`budget, this`taxRate
      ensures Valid()
      ensures budget == RestartBudget(nonTaxableBytes, rate)
      ensures taxRate == rate
      ensures delays == old(delays)
    {
      budget := RestartBudget(nonTaxableBytes, rate);
      taxRate := rate;
    }

    method SetupForMark(used: nat, free: nat, slack: nat)
      requires slack < 100 && free > 0
      requires RestartFits(MarkPlan(used, free, slack).nonTaxable, MarkPlan(used, free, slack).taxRate)
      modifies this`budget, this`taxRate
      ensures Valid() && taxRate >= Surcharge
      ensures taxRate == MarkPlan(used, free, slack).taxRate
      ensures budget == RestartBudget(MarkPlan(used, free, slack).nonTaxable, taxRate)
      ensures delays == old(delays)
    {
      var plan := MarkPlan(used, free, slack);
      RestartWith(plan.nonTaxable, plan.taxRate);
    }

    method SetupForEvac(cset: nat, free: nat, slack: nat)
      requires slack < 100 && free > 0
      requires RestartFits(EvacPlan(cset, free, slack).nonTaxable, EvacPlan(cset, free, slack).taxRate)
      modifies this`budget, this`taxRate
      ensures Valid() && taxRate >= Surcharge
      ensures taxRate == EvacPlan(cset, free, slack).taxRate
      ensures budget == RestartBudget(EvacPlan(cset, free, slack).nonTaxable, taxRate)
      ensures delays == old(delays)
    {
      var plan := EvacPlan(cset, free, slack);
      RestartWith(plan.nonTaxable, plan.taxRate);
    }

    method SetupForUpdateRefs(used: nat, free: nat, slack: nat)
      requires slack < 100 && free > 0
      requires RestartFits(UpdateRefsPlan(used, free, slack).nonTaxable, UpdateRefsPlan(used, free, slack).taxRate)
      modifies this`budget, this`taxRate
      ensures Valid() && taxRate >= Surcharge
      ensures taxRate == UpdateRefsPlan(used, free, slack).taxRate
      ensures budget == RestartBudget(UpdateRefsPlan(used, free, slack).nonTaxable, taxRate)
      ensures delays == old(delays)
    {
      var plan := UpdateRefsPlan(used, free, slack);
      RestartWith(plan.nonTaxable, plan.taxRate);
    }

    method SetupForIdle(capacity: nat, idleSlack: nat)
      requires RestartFits(IdlePlan(capacity, idleSlack).nonTaxable, 1.0)
      modifies this`budget, this`taxRate
      ensures Valid() && taxRate == 1.0
      ensures budget == RestartBudget(IdlePlan(capacity, idleSlack).nonTaxable, 1.0)
      ensures delays == old(delays)
    {
      var plan := IdlePlan(capacity, idleSlack);
      RestartWith(plan.nonTaxable, plan.taxRate);
    }

    /**
     * claim_for_alloc: charge Tax(words, taxRate) when the budget covers it,
     * otherwise change nothing. `force` is not read.
     */
    method ClaimForAlloc(words: nat, force: bool) returns (ok: bool)
      requires Valid() && TaxFits(words, taxRate)
      modifies this`budget
      ensures ok <==> old(budget) >= Tax(words, taxRate)
      ensures budget == (if ok then old(budget) - Tax(words, taxRate) else old(budget))
      ensures old(budget) >= 0 ==> budget >= 0
    {
      var tax := Tax(words, taxRate);
      var c := Claim(budget, tax);
      ok := c.ok;
      budget := c.budget;
    }

    /**
     * pace_for_alloc: a claim on the fast path; when it fails, poll once per
     * clock reading until a claim is granted or the wait exceeds
     * `maxWaitMs`, recording the wait as one delay sample either way.
     */
    method PaceForAlloc(words: nat, maxWaitMs: nat, elapsed: seq<nat>, others: seq<int>)
      requires Valid() && TaxFits(words, taxRate)
      requires Monotone(elapsed) && Eventually(maxWaitMs, elapsed) && |others| == |elapsed|
      modifies this`budget, this`delays
      ensures Valid()
      ensures old(budget) >= Tax(words, taxRate) ==>
        budget == old(budget) - Tax(words, taxRate) && delays == old(delays)
      ensures old(budget) < Tax(words, taxRate) ==>
        var r := SlowPath(old(budget), Tax(words, taxRate), maxWaitMs, elapsed, others);
        budget == r.budget && delays == old(delays) + [r.sample]
    {
      var ok := ClaimForAlloc(words, false);
      if ok {
        return;
      }
      var tax := Tax(words, taxRate);
      ghost var r := SlowPath(budget, tax, maxWaitMs, elapsed, others);
      var i := 0;
      while true
        invariant 0 <= i < |elapsed| && |others| == |elapsed|
        invariant Eventually(maxWaitMs, elapsed[i..])
        invariant delays == old(delays) && taxRate == old(taxRate)
        invariant r.budget == SlowPath(budget, tax, maxWaitMs, elapsed[i..], others[i..]).budget
        invariant r.sample == SlowPath(budget, tax, maxWaitMs, elapsed[i..], others[i..]).sample
        decreases |elapsed| - i
      {
        ghost var e, o, b := elapsed[i..], others[i..], budget;
        assert e[0] == elapsed[i] && o[0] == others[i];
        // Other threads change the budget while this one sleeps.
        budget := budget + others[i];
        var ms := elapsed[i];
        if ms > maxWaitMs {
          delays := delays + [ms];
          ok := ClaimForAlloc(words, true);
          break;
        }
        ok := ClaimForAlloc(words, false);
        if ok {
          delays := delays + [ms];
          break;
        }
        SlowPathStep(b, tax, maxWaitMs, e, o);
        assert e[1..] == elapsed[i + 1..] && o[1..] == others[i + 1..];
        i := i + 1;
      }
    }
  }
}
