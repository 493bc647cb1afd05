/**
 The success-rate scoring rule of the IVF calculator: a base score of 50,
 a fixed sequence of additive adjustments for age range, number of cycles,
 procedures and conditions, and a final clamp to [0, 100].
 */
module Scoring {
  import Conditions

  /** The age-range radio values, in the order the form offers them. */
  const AgeRanges: seq<string> := [
    "Under 30",
    "Between 30 - 34",
    "Between 35 - 37",
    "Between 38 - 40",
    "Between 41 - 43",
    "Above 43"
  ]

  /** The age range before the user picks one. */
  const UnsetAgeRange: string := ""

  /** Everything the scoring rule reads from the form's state. */
  datatype Inputs = Inputs(
    ageRange: string,
    cycles: int,
    hasICSI: bool,
    hasPGT: bool,
    conditions: Conditions.Conditions)

  /** The form's state before the user changes anything. */
  const InitialInputs: Inputs := Inputs(UnsetAgeRange, 1, false, false, Conditions.Initial)

  /** `Math.min` on integers. */
  function Min(a: int, b: int): (r: int)
    ensures r <= a && r <= b && (r == a || r == b)
  {
    if a <= b then a else b
  }

  /** `Math.max` on integers. */
  function Max(a: int, b: int): (r: int)
    ensures a <= r && b <= r && (r == a || r == b)
  {
    if a <= b then b else a
  }

  /** `Math.max(0, Math.min(100, x))`: the closest value to `x` in [0, 100]. */
  function Clamp(x: int): (r: int)
    ensures 0 <= r <= 100
    ensures 0 <= x <= 100 ==> r == x
    ensures x < 0 ==> r == 0
    ensures x > 100 ==> r == 100
  {
    Max(0, Min(100, x))
  }

  /** The age term: exact comparisons against the first and the last range label. */
  function AgeAdjustment(ageRange: string): (d: int)
    ensures -20 <= d <= 10
  {
    (if ageRange == "Under 30" then 10 else 0) + (if ageRange == "Above 43" then -20 else 0)
  }

  /**
   The cycles term: two points per cycle after the first, at most five. The
   bonus lies in [0, 5] for every integer and is 0 exactly when cycles <= 1.
   */
  function CycleBonus(cycles: int): (b: int)
    ensures 0 <= b <= 5
    ensures cycles <= 1 <==> b == 0
  {
    if cycles > 1 then Min(5, (cycles - 1) * 2) else 0
  }

  /** The procedures term: ICSI and PGT each add a fixed bonus. */
  function ProcedureBonus(hasICSI: bool, hasPGT: bool): (b: int)
    ensures 0 <= b <= 15
    ensures b == 0 <==> !hasICSI && !hasPGT
  {
    (if hasICSI then 10 else 0) + (if hasPGT then 5 else 0)
  }

  /** The conditions term: only endometriosis and low ovarian reserve are read. */
  function ConditionAdjustment(c: Conditions.Conditions): (d: int)
    ensures -15 <= d <= 0
    ensures d == 0 <==> !c.endometriosis && !c.lowOvarianReserve
  {
    (if c.endometriosis then -5 else 0) + (if c.lowOvarianReserve then -10 else 0)
  }

  /**
   The accumulated score before the clamp. It lies in [15, 80] for every
   input, not only for slider values, because the cycles bonus is bounded
   for every integer.
   */
  function RawScore(i: Inputs): (r: int)
    ensures 15 <= r <= 80
  {
    50 + AgeAdjustment(i.ageRange) + CycleBonus(i.cycles)
       + ProcedureBonus(i.hasICSI, i.hasPGT) + ConditionAdjustment(i.conditions)
  }

  /** The success rate the calculator reports. */
  function SuccessRate(i: Inputs): (r: int)
    ensures 0 <= r <= 100
  {
    Clamp(RawScore(i))
  }

  /**
   The scoring routine as the form runs it: one accumulator, adjusted by
   each guarded step in turn, then clamped.
   */
  method CalculateSuccessRate(i: Inputs) returns (successRate: int)
    ensures successRate == SuccessRate(i)
    ensures 0 <= successRate <= 100
  {
    successRate := 50;
    if i.ageRange == "Under 30" { successRate := successRate + 10; }
    if i.ageRange == "Above 43" { successRate := successRate - 20; }
    if i.cycles > 1 { successRate := successRate + Min(5, (i.cycles - 1) * 2); }
    if i.hasICSI { successRate := successRate + 10; }
    if i.hasPGT { successRate := successRate + 5; }
    if i.conditions.endometriosis { successRate := successRate - 5; }
    if i.conditions.lowOvarianReserve { successRate := successRate - 10; }
    successRate := Max(0, Min(100, successRate));
  }

  // ---------------------------------------------------------------------
  // The individual terms

  /** Only the labels "Under 30" and "Above 43" move the score; every other string adds nothing. */
  lemma AgeAdjustmentOnlyTwoLabels(ageRange: string)
    ensures AgeAdjustment(ageRange) != 0 <==> ageRange == "Under 30" || ageRange == "Above 43"
    ensures ageRange == "Under 30" ==> AgeAdjustment(ageRange) == 10
    ensures ageRange == "Above 43" ==> AgeAdjustment(ageRange) == -20
  {
  }

  /** The six offered ranges and the unset value: +10, four zeros, -20, and 0. */
  lemma AgeAdjustmentPerRange()
    ensures AgeAdjustment(AgeRanges[0]) == 10
    ensures forall k :: 1 <= k <= 4 ==> AgeAdjustment(AgeRanges[k]) == 0
    ensures AgeAdjustment(AgeRanges[5]) == -20
    ensures AgeAdjustment(UnsetAgeRange) == 0
  {
  }

  /** The bonus for each position of the 1..5 slider. */
  lemma CycleBonusPerSliderValue()
    ensures CycleBonus(1) == 0
    ensures CycleBonus(2) == 2
    ensures CycleBonus(3) == 4
    ensures CycleBonus(4) == 5
    ensures CycleBonus(5) == 5
  {
  }

  /** More cycles never lower the bonus. */
  lemma CycleBonusMonotone(c1: int, c2: int)
    requires c1 <= c2
    ensures CycleBonus(c1) <= CycleBonus(c2)
  {
  }

  // ---------------------------------------------------------------------
  // The whole score

  /** Hence the clamp never changes the accumulated value. */
  lemma ClampIsIdentity(i: Inputs)
    ensures SuccessRate(i) == RawScore(i)
    ensures 15 <= SuccessRate(i) <= 80
  {
  }

  /**
   At the level of the whole score, only "Under 30" (+10) and "Above 43"
   (-20) count; every other age string scores as the unset value does.
   */
  lemma AgeRangeEffect(i: Inputs, a: string)
    ensures a != "Under 30" && a != "Above 43" ==>
      SuccessRate(i.(ageRange := a)) == SuccessRate(i.(ageRange := UnsetAgeRange))
    ensures SuccessRate(i.(ageRange := "Under 30")) == SuccessRate(i.(ageRange := UnsetAgeRange)) + 10
    ensures SuccessRate(i.(ageRange := "Above 43")) == SuccessRate(i.(ageRange := UnsetAgeRange)) - 20
  {
  }

  /** The untouched form scores exactly the base of 50. */
  lemma Baseline()
    ensures SuccessRate(InitialInputs) == 50
  {
  }

  /** The best inputs score 80: the top of the range is reached. */
  lemma BestCase(c: Conditions.Conditions)
    requires !c.endometriosis && !c.lowOvarianReserve
    ensures SuccessRate(Inputs(AgeRanges[0], 5, true, true, c)) == 80
  {
  }

  /** The worst inputs score 15, whatever the two flags the score ignores are. */
  lemma WorstCase(c: Conditions.Conditions)
    ensures SuccessRate(Inputs(AgeRanges[5], 1, false, false,
              c.(endometriosis := true, lowOvarianReserve := true))) == 15
  {
  }

  /** The PCOS and male-factor flags are read by no step of the score. */
  lemma NoOpConditions(i: Inputs, v: bool)
    ensures SuccessRate(i.(conditions := Conditions.Update(i.conditions, Conditions.PCOS, v))) == SuccessRate(i)
    ensures SuccessRate(i.(conditions := Conditions.Update(i.conditions, Conditions.MaleFactorInfertility, v))) == SuccessRate(i)
  {
  }

  /** ICSI adds exactly 10 and PGT exactly 5, so ticking either never lowers the score. */
  lemma ProceduresRaiseScore(i: Inputs)
    ensures SuccessRate(i.(hasICSI := true)) == SuccessRate(i.(hasICSI := false)) + 10
    ensures SuccessRate(i.(hasPGT := true)) == SuccessRate(i.(hasPGT := false)) + 5
    ensures SuccessRate(i) <= SuccessRate(i.(hasICSI := true))
    ensures SuccessRate(i) <= SuccessRate(i.(hasPGT := true))
  {
  }

  /**
   Endometriosis takes exactly 5 and low ovarian reserve exactly 10, so
   ticking either never raises the score.
   */
  lemma ConditionsLowerScore(i: Inputs)
    ensures var e := Conditions.Endometriosis;
      SuccessRate(i.(conditions := Conditions.Update(i.conditions, e, true)))
        == SuccessRate(i.(conditions := Conditions.Update(i.conditions, e, false))) - 5
    ensures var l := Conditions.LowOvarianReserve;
      SuccessRate(i.(conditions := Conditions.Update(i.conditions, l, true)))
        == SuccessRate(i.(conditions := Conditions.Update(i.conditions, l, false))) - 10
    ensures SuccessRate(i.(conditions := Conditions.Update(i.conditions, Conditions.Endometriosis, true))) <= SuccessRate(i)
    ensures SuccessRate(i.(conditions := Conditions.Update(i.conditions, Conditions.LowOvarianReserve, true))) <= SuccessRate(i)
  {
    var c := i.conditions;
    ClampIsIdentity(i);
    ClampIsIdentity(i.(conditions := Conditions.Update(c, Conditions.Endometriosis, true)));
    ClampIsIdentity(i.(conditions := Conditions.Update(c, Conditions.Endometriosis, false)));
    ClampIsIdentity(i.(conditions := Conditions.Update(c, Conditions.LowOvarianReserve, true)));
    ClampIsIdentity(i.(conditions := Conditions.Update(c, Conditions.LowOvarianReserve, false)));
  }

  /** More cycles never lower the score; from 4 cycles on the score is flat. */
  lemma CyclesMonotone(i: Inputs, c1: int, c2: int)
    requires c1 <= c2
    ensures SuccessRate(i.(cycles := c1)) <= SuccessRate(i.(cycles := c2))
    ensures 4 <= c1 ==> SuccessRate(i.(cycles := c1)) == SuccessRate(i.(cycles := c2))
  {
  }
}
