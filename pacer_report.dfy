/**
 * The millisecond ranges print_on labels the delay histogram's levels with:
 * level 0 is [0, 1) and level c >= 1 is [2^(c-1), 2^c). The histogram's own
 * bucketing and the text of the report are not part of this model.
 */
module PacerReport {

  /** 2^n, the value of `1 << n`. */
  function Pow2(n: nat): (p: nat)
    ensures p >= 1
    ensures n >= 1 ==> p >= 2
  {
    if n == 0 then 1 else 2 * Pow2(n - 1)
  }

  /** The lower end of level c's range. */
  function LevelFrom(c: nat): nat
  {
    if c == 0 then 0 else Pow2(c - 1)
  }

  /** The upper end, exclusive, of level c's range. */
  function LevelTo(c: nat): nat
  {
    Pow2(c)
  }

  /** One row of the report: a level's range [lo, hi). */
  datatype Range = Range(lo: nat, hi: nat)

  /** Every level's range is non-empty and ends where the next one starts. */
  lemma LevelsContiguous(c: nat)
    ensures LevelFrom(c) < LevelTo(c)
    ensures LevelTo(c) == LevelFrom(c + 1)
  {
  }

  lemma {:induction false} Pow2Monotone(a: nat, b: nat)
    requires a < b
    ensures Pow2(a) < Pow2(b)
    decreases b
  {
    if a < b - 1 {
      Pow2Monotone(a, b - 1);
    }
  }

  /** floor(log2(m)) for m >= 1. */
  function Log2(m: nat): nat
    requires m >= 1
  {
    if m < 2 then 0 else 1 + Log2(m / 2)
  }

  lemma {:induction false} Log2Bounds(m: nat)
    requires m >= 1
    ensures Pow2(Log2(m)) <= m < Pow2(Log2(m) + 1)
  {
    if m >= 2 {
      Log2Bounds(m / 2);
    }
  }

  /** The level whose label contains a delay of `ms` milliseconds. */
  function LabelLevel(ms: nat): nat
  {
    if ms == 0 then 0 else 1 + Log2(ms)
  }

  /**
   * The labels partition the delays: every delay lies in the range of
   * exactly one level.
   */
  lemma LabelsPartition(ms: nat, c: nat)
    ensures LevelFrom(LabelLevel(ms)) <= ms < LevelTo(LabelLevel(ms))
    ensures LevelFrom(c) <= ms < LevelTo(c) ==> c == LabelLevel(ms)
  {
    var l := LabelLevel(ms);
    if ms > 0 {
      Log2Bounds(ms);
    }
    if LevelFrom(c) <= ms < LevelTo(c) && c != l {
      if c < l {
        Pow2Monotone(c, l - 1);
      } else if l > 0 {
        Pow2Monotone(l, c - 1);
      }
    }
  }

  /**
   * The range labels print_on writes for the levels minLevel..maxLevel,
   * one row per level, in order.
   */
  method LevelRanges(minLevel: nat, maxLevel: nat) returns (rows: seq<Range>)
    ensures |rows| == if minLevel <= maxLevel then maxLevel - minLevel + 1 else 0
    ensures forall i :: 0 <= i < |rows| ==>
      rows[i] == Range(LevelFrom(minLevel + i), LevelTo(minLevel + i))
    ensures forall i :: 0 <= i < |rows| ==> rows[i].lo < rows[i].hi
    ensures forall i :: 0 <= i < |rows| - 1 ==> rows[i].hi == rows[i + 1].lo
  {
    rows := [];
    var c := minLevel;
    while c <= maxLevel
      invariant minLevel <= c
      invariant c <= if minLevel <= maxLevel then maxLevel + 1 else minLevel
      invariant |rows| == c - minLevel
      invariant forall i :: 0 <= i < |rows| ==>
        rows[i] == Range(LevelFrom(minLevel + i), LevelTo(minLevel + i))
    {
      var lo := if c == 0 then 0 else Pow2(c - 1);
      rows := rows + [Range(lo, Pow2(c))];
      c := c + 1;
    }
    forall i | 0 <= i < |rows|
      ensures rows[i].lo < rows[i].hi
    {
      LevelsContiguous(minLevel + i);
    }
  }
}
