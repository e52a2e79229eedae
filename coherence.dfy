/** The heuristic 0-100 coherence score (`computeCoherence`, app.js:513-542) and the two
    bands the page shows it in: the ring colour (app.js:708-711) and the score label
    (app.js:728). */
module Coherence {
  import opened Numeric

  /** The deduction for the size of the deficit or surplus: one band at most, the first
      that matches in the order of the source. */
  function DeltaPenalty(delta: real): int
  {
    if delta < 0.0 then
      var deficit := Abs(delta);
      if deficit > 1100.0 then 35
      else if deficit > 900.0 then 18
      else if deficit < 60.0 then 12
      else if deficit < 120.0 then 6
      else 0
    else if delta > 0.0 then
      if delta > 650.0 then 25
      else if delta > 500.0 then 12
      else if delta < 80.0 then 10
      else 0
    else 0
  }

  function ProteinPenalty(proteinPerKg: real): int
  {
    (if proteinPerKg < 1.6 then 18 else 0) + (if proteinPerKg > 2.8 then 6 else 0)
  }

  function FatPenalty(fatMinPerKg: real): int
  {
    (if fatMinPerKg < 0.6 then 20 else 0) + (if fatMinPerKg > 1.3 then 6 else 0)
  }

  function CarbPenalty(carbMinPerKg: real): int
  {
    if carbMinPerKg < 0.5 then 6 else 0
  }

  function BmrPenalty(target: int, bmr: real): int
  {
    if (target as real) < bmr then 25 else 0
  }

  /** The score as 100 less the sum of independent deductions, clamped to [0,100]. */
  function CoherenceScore(bmr: real, delta: real, target: int,
                          proteinPerKg: real, fatMinPerKg: real, carbMinPerKg: real): int
  {
    ClampInt(100 - DeltaPenalty(delta) - ProteinPenalty(proteinPerKg) - FatPenalty(fatMinPerKg)
                 - CarbPenalty(carbMinPerKg) - BmrPenalty(target, bmr), 0, 100)
  }

  /** `computeCoherence`: a local score decremented through the source's if-chains. The
      TDEE the source passes in is never read, so it is not a parameter here. */
  method ComputeCoherence(bmr: real, delta: real, target: int,
                          proteinPerKg: real, fatMinPerKg: real, carbMinPerKg: real)
    returns (score: int)
    ensures 0 <= score <= 100
    ensures score == CoherenceScore(bmr, delta, target, proteinPerKg, fatMinPerKg, carbMinPerKg)
  {
    score := 100;

    if delta < 0.0 {
      var deficit := Abs(delta);
      if deficit > 1100.0 { score := score - 35; }
      else if deficit > 900.0 { score := score - 18; }
      else if deficit < 60.0 { score := score - 12; }
      else if deficit < 120.0 { score := score - 6; }
    } else if delta > 0.0 {
      if delta > 650.0 { score := score - 25; }
      else if delta > 500.0 { score := score - 12; }
      else if delta < 80.0 { score := score - 10; }
    }

    if proteinPerKg < 1.6 { score := score - 18; }
    if proteinPerKg > 2.8 { score := score - 6; }

    if fatMinPerKg < 0.6 { score := score - 20; }
    if fatMinPerKg > 1.3 { score := score - 6; }

    if carbMinPerKg < 0.5 { score := score - 6; }

    if (target as real) < bmr { score := score - 25; }

    score := ClampInt(score, 0, 100);
  }

  /** At most one deficit band or one surplus band applies, by the source's order. */
  lemma DeltaPenaltyBands(delta: real)
    ensures delta < 0.0 ==> DeltaPenalty(delta) in {0, 6, 12, 18, 35}
    ensures delta > 0.0 ==> DeltaPenalty(delta) in {0, 10, 12, 25}
    ensures delta == 0.0 ==> DeltaPenalty(delta) == 0
    ensures delta < -1100.0 ==> DeltaPenalty(delta) == 35
    ensures -1100.0 <= delta < -900.0 ==> DeltaPenalty(delta) == 18
    ensures -900.0 <= delta <= -120.0 ==> DeltaPenalty(delta) == 0
    ensures -120.0 < delta <= -60.0 ==> DeltaPenalty(delta) == 6
    ensures -60.0 < delta < 0.0 ==> DeltaPenalty(delta) == 12
    ensures 0.0 < delta < 80.0 ==> DeltaPenalty(delta) == 10
    ensures 80.0 <= delta <= 500.0 ==> DeltaPenalty(delta) == 0
    ensures 500.0 < delta <= 650.0 ==> DeltaPenalty(delta) == 12
    ensures 650.0 < delta ==> DeltaPenalty(delta) == 25
  {
  }

  /** The source's edge values: a deficit of exactly 1100 is in the >900 band, exactly 900
      and exactly 120 are in no band, exactly 60 is in the <120 band. */
  lemma DeltaPenaltyEdges()
    ensures DeltaPenalty(-1100.0) == 18 && DeltaPenalty(-900.0) == 0
    ensures DeltaPenalty(-120.0) == 0 && DeltaPenalty(-60.0) == 6
    ensures DeltaPenalty(650.0) == 12 && DeltaPenalty(500.0) == 0 && DeltaPenalty(80.0) == 0
  {
  }

  /** The deductions are never negative and add up to at most 104, so the upper clamp
      never acts and only the lower one can. */
  lemma ScoreBeforeClamp(bmr: real, delta: real, target: int,
                         proteinPerKg: real, fatMinPerKg: real, carbMinPerKg: real)
    ensures var raw := 100 - DeltaPenalty(delta) - ProteinPenalty(proteinPerKg) - FatPenalty(fatMinPerKg)
                         - CarbPenalty(carbMinPerKg) - BmrPenalty(target, bmr);
            -4 <= raw <= 100
            && CoherenceScore(bmr, delta, target, proteinPerKg, fatMinPerKg, carbMinPerKg) == MaxInt(0, raw)
  {
  }

  /** Over the deltas the page can produce after a redraw (a deficit of at most 1100 kcal,
      a surplus of at most 550), the delta deduction is at most 18, so every score is at
      least 13 and the lower clamp never acts. */
  lemma ScoreFloorWithinRedrawnDelta(bmr: real, delta: real, target: int,
                                     proteinPerKg: real, fatMinPerKg: real, carbMinPerKg: real)
    requires -1100.0 <= delta <= 550.0
    ensures DeltaPenalty(delta) <= 18
    ensures delta > 0.0 ==> DeltaPenalty(delta) <= 12
    ensures CoherenceScore(bmr, delta, target, proteinPerKg, fatMinPerKg, carbMinPerKg) >= 13
    ensures CoherenceScore(bmr, delta, target, proteinPerKg, fatMinPerKg, carbMinPerKg)
            == 100 - DeltaPenalty(delta) - ProteinPenalty(proteinPerKg) - FatPenalty(fatMinPerKg)
               - CarbPenalty(carbMinPerKg) - BmrPenalty(target, bmr)
  {
    DeltaPenaltyBands(delta);
  }

  /** The score is 100 exactly when no deduction applies. */
  lemma PerfectScore(bmr: real, delta: real, target: int,
                     proteinPerKg: real, fatMinPerKg: real, carbMinPerKg: real)
    ensures CoherenceScore(bmr, delta, target, proteinPerKg, fatMinPerKg, carbMinPerKg) == 100
        <==> (&& (delta == 0.0 || -900.0 <= delta <= -120.0 || 80.0 <= delta <= 500.0)
              && 1.6 <= proteinPerKg <= 2.8
              && 0.6 <= fatMinPerKg <= 1.3
              && carbMinPerKg >= 0.5
              && (target as real) >= bmr)
  {
    DeltaPenaltyBands(delta);
  }

  datatype CoherenceLabel = GoodBalance | ToOptimise | ToCorrect

  /** The label of the score explanation: 80 and up, 60 and up, below 60. */
  function LabelFor(score: int): CoherenceLabel
  {
    if score >= 80 then GoodBalance else if score >= 60 then ToOptimise else ToCorrect
  }

  datatype RingTone = Calm | Caution | Alarm

  /** The ring colour: below 55 alarm, below 75 caution, otherwise calm. */
  function RingToneFor(score: int): RingTone
  {
    if score < 55 then Alarm else if score < 75 then Caution else Calm
  }

  function LabelRank(l: CoherenceLabel): int
  {
    match l
    case ToCorrect => 0
    case ToOptimise => 1
    case GoodBalance => 2
  }

  /** A higher score never gets a worse label. */
  lemma LabelMonotone(lo: int, hi: int)
    requires lo <= hi
    ensures LabelRank(LabelFor(lo)) <= LabelRank(LabelFor(hi))
  {
  }

  /** The two bandings agree at their ends: an alarm ring always carries the
      "to correct" label, and a "good balance" label always a calm ring. */
  lemma RingAndLabelAgree(score: int)
    ensures RingToneFor(score) == Alarm ==> LabelFor(score) == ToCorrect
    ensures LabelFor(score) == GoodBalance ==> RingToneFor(score) == Calm
    ensures LabelFor(score) == ToOptimise ==> RingToneFor(score) != Alarm
  {
  }
}
