/** The plan calculation (`calcPlan`, app.js:389-511): energy, clamped per-kg parameters,
    the float-first macro solve, integer reconciliation, coherence and warnings. The
    profile and settings come in as an explicit `State` value instead of the global. */
module Engine {
  import opened Types
  import opened Numeric
  import opened Defaults
  import opened Validation
  import opened Coherence

  datatype Severity = Info | Warn

  /** The five warnings calcPlan can emit; their French texts are not modelled. */
  datatype WarningKind = CarbsBelowFloor | AggressiveDeficit | HighSurplus | BelowBmr | VeryLowTarget

  datatype Warning = Warning(severity: Severity, kind: WarningKind)

  datatype Plan = Plan(
    bmr: real, tdee: real, delta: real, target: int,
    proteinG: int, fatG: int, carbG: int,
    fiber: real, water: real, sodium: real,
    coherence: int,
    warnings: seq<Warning>)

  /** The clamped per-kg parameters and the fat target the carb profile derives from them. */
  datatype MacroParams = MacroParams(
    proteinPerKg: real, fatMinPerKg: real, carbMinPerKg: real, fatPerKgTarget: real)

  // ---------------------------------------------------------------- energy

  /** Mifflin-St Jeor basal metabolic rate. */
  function Bmr(sex: Sex, weight: real, height: real, age: real): real
  {
    if sex == Male then 10.0 * weight + 6.25 * height - 5.0 * age + 5.0
    else 10.0 * weight + 6.25 * height - 5.0 * age - 161.0
  }

  /** Total daily energy expenditure: the basal rate times the activity factor. */
  function Tdee(bmr: real, activity: real): real
  {
    bmr * activity
  }

  /** The daily energy adjustment: 7700 kcal per kg spread over 7 days. */
  function GoalDelta(goal: Goal, pace: real): (delta: real)
    ensures goal == Cut ==> delta == -1100.0 * pace
    ensures goal == Bulk ==> delta == 1100.0 * pace
    ensures goal != Cut && goal != Bulk ==> delta == 0.0
  {
    if goal == Cut then -(pace * 7700.0 / 7.0)
    else if goal == Bulk then pace * 7700.0 / 7.0
    else 0.0
  }

  /** The two sexes differ by a constant 166 kcal, and over the ranges validation
      admits the rate is at least 489 kcal. */
  lemma BmrProperties(weight: real, height: real, age: real)
    ensures Bmr(Male, weight, height, age) - Bmr(Female, weight, height, age) == 166.0
    ensures 35.0 <= weight && 120.0 <= height && age <= 90.0 ==>
              Bmr(Female, weight, height, age) >= 489.0 && Bmr(Male, weight, height, age) >= 655.0
  {
  }

  /** Maintain ignores the pace; a faster cut never raises the target and a faster bulk
      never lowers it, and a pace change of at least 1/1100 kg/week moves it strictly. */
  lemma TargetMonotoneInPace(tdee: real, pace1: real, pace2: real)
    requires pace1 <= pace2
    ensures Round(tdee + GoalDelta(Maintain, pace1)) == Round(tdee + GoalDelta(Maintain, pace2))
    ensures Round(tdee + GoalDelta(Cut, pace2)) <= Round(tdee + GoalDelta(Cut, pace1))
    ensures Round(tdee + GoalDelta(Bulk, pace1)) <= Round(tdee + GoalDelta(Bulk, pace2))
    ensures pace1 + 1.0 / 1100.0 <= pace2 ==>
              Round(tdee + GoalDelta(Cut, pace2)) < Round(tdee + GoalDelta(Cut, pace1))
              && Round(tdee + GoalDelta(Bulk, pace1)) < Round(tdee + GoalDelta(Bulk, pace2))
  {
    RoundMonotone(tdee - 1100.0 * pace2, tdee - 1100.0 * pace1);
    RoundMonotone(tdee + 1100.0 * pace1, tdee + 1100.0 * pace2);
    if pace1 + 1.0 / 1100.0 <= pace2 {
      RoundStrict(tdee - 1100.0 * pace2, tdee - 1100.0 * pace1);
      RoundStrict(tdee + 1100.0 * pace1, tdee + 1100.0 * pace2);
    }
  }

  /** Because the target is rounded, a small pace change can leave it where it was. */
  lemma SmallPaceChangeKeepsTarget()
    ensures Round(2759.0 + GoalDelta(Cut, 0.5)) == Round(2759.0 + GoalDelta(Cut, 0.5001)) == 2209
  {
  }

  /** Male, 30 years, 180 cm, 80 kg, activity 1.55, cutting 0.5 kg/week. */
  lemma ReferenceScenario()
    ensures Bmr(Male, 80.0, 180.0, 30.0) == 1780.0
    ensures Bmr(Male, 80.0, 180.0, 30.0) * 1.55 == 2759.0
    ensures GoalDelta(Cut, 0.5) == -550.0
    ensures Round(Bmr(Male, 80.0, 180.0, 30.0) * 1.55 + GoalDelta(Cut, 0.5)) == 2209
  {
  }

  /** The finding, as written: with the activity never chosen, `validateCore` lets the
      plan through and `Number(null) == 0` makes TDEE 0, so the target is the bare delta. */
  lemma UnsetActivityGivesNegativeTarget()
    ensures var s := Initial.(sex := Some(Male), age := Some(30.0), height := Some(180.0),
                              weight := Some(80.0), goal := Some(Cut));
            && ValidateCoreAsWritten(s) && !ValidateCore(s)
            && Bmr(Male, 80.0, 180.0, 30.0) * NumberOf(s.activity) == 0.0
            && Round(Bmr(Male, 80.0, 180.0, 30.0) * NumberOf(s.activity) + GoalDelta(Cut, s.pace)) == -550
  {
  }

  // ---------------------------------------------------------------- parameters

  /** The carb profile raises the fat target above the fat floor: +0.10 for balanced,
      +0.25 for low, nothing for high or for an unknown profile. */
  function FatPerKgTarget(profile: CarbProfile, fatMinPerKg: real): (t: real)
    ensures fatMinPerKg <= t <= fatMinPerKg + 0.25
    ensures t == fatMinPerKg <==> profile == High || profile == OtherProfile
    ensures t == fatMinPerKg + 0.25 <==> profile == Low
    ensures profile == Balanced ==> t == fatMinPerKg + 0.10
  {
    match profile
    case Balanced => fatMinPerKg + 0.10
    case Low => fatMinPerKg + 0.25
    case High => fatMinPerKg
    case OtherProfile => fatMinPerKg
  }

  /** The per-kg parameters: the defaults in simple mode, the (filled) settings in advanced
      mode, clamped to protein [1.2,3.0], fat floor [0.4,1.4], carb floor [0,4]. */
  function MacroParamsOf(s: State): (m: MacroParams)
    ensures 1.2 <= m.proteinPerKg <= 3.0
    ensures 0.4 <= m.fatMinPerKg <= 1.4
    ensures 0.0 <= m.carbMinPerKg <= 4.0
    ensures m.fatPerKgTarget == FatPerKgTarget(s.carbProfile, m.fatMinPerKg)
    ensures s.mode == Simple ==>
              var d := DefaultsFor(s.goal, s.sex, s.weight);
              m.proteinPerKg == d.proteinPerKg && m.fatMinPerKg == d.fatMinPerKg
              && m.carbMinPerKg == d.carbMinPerKg
    ensures s.mode == Advanced && 1.2 <= NumberOf(s.proteinPerKg) <= 3.0 ==>
              m.proteinPerKg == NumberOf(s.proteinPerKg)
    ensures s.mode == Advanced && 0.4 <= NumberOf(s.fatMinPerKg) <= 1.4 ==>
              m.fatMinPerKg == NumberOf(s.fatMinPerKg)
    ensures s.mode == Advanced && 0.0 <= NumberOf(s.carbMinPerKg) <= 4.0 ==>
              m.carbMinPerKg == NumberOf(s.carbMinPerKg)
    // an out-of-range setting goes to the nearest end of its range
    ensures s.mode == Advanced ==>
              && (NumberOf(s.proteinPerKg) < 1.2 ==> m.proteinPerKg == 1.2)
              && (NumberOf(s.proteinPerKg) > 3.0 ==> m.proteinPerKg == 3.0)
              && (NumberOf(s.fatMinPerKg) < 0.4 ==> m.fatMinPerKg == 0.4)
              && (NumberOf(s.fatMinPerKg) > 1.4 ==> m.fatMinPerKg == 1.4)
              && (NumberOf(s.carbMinPerKg) < 0.0 ==> m.carbMinPerKg == 0.0)
              && (NumberOf(s.carbMinPerKg) > 4.0 ==> m.carbMinPerKg == 4.0)
  {
    var d := DefaultsFor(s.goal, s.sex, s.weight);
    var proteinRaw := if s.mode == Simple then d.proteinPerKg else NumberOf(s.proteinPerKg);
    var fatMinRaw := if s.mode == Simple then d.fatMinPerKg else NumberOf(s.fatMinPerKg);
    var carbMinRaw := if s.mode == Simple then d.carbMinPerKg else NumberOf(s.carbMinPerKg);
    var fatMin := Clamp(fatMinRaw, 0.4, 1.4);
    MacroParams(
      proteinPerKg := Clamp(proteinRaw, 1.2, 3.0),
      fatMinPerKg := fatMin,
      carbMinPerKg := Clamp(carbMinRaw, 0.0, 4.0),
      fatPerKgTarget := FatPerKgTarget(s.carbProfile, fatMin))
  }

  // ---------------------------------------------------------------- macros

  /** The per-kg parameters times the body weight, in grams: the source's `proteinGf`
      (before any change), `w * fatPerKgTarget`, `fatGMinF` and `carbMinGF`. */
  datatype Grams = Grams(protein: real, fatTarget: real, fatMin: real, carbMin: real)

  function GramsOf(w: real, m: MacroParams): Grams
  {
    Grams(w * m.proteinPerKg, w * m.fatPerKgTarget, w * m.fatMinPerKg, w * m.carbMinPerKg)
  }

  /** Step one, in floats: protein from its g/kg, fat at its target (never below the
      floor), carbs as the remainder; if carbs miss their floor, fat drops to its floor. */
  method FloatSolve(target: int, g: Grams) returns (proteinGf: real, fatGf: real, carbGf: real)
    ensures proteinGf == g.protein
    ensures fatGf == g.fatMin || fatGf == Max(g.fatTarget, g.fatMin)
    ensures fatGf >= g.fatMin
    // carbs are what the target leaves over, never negative
    ensures carbGf == Max(0.0, (target as real - proteinGf * 4.0 - fatGf * 9.0) / 4.0)
    // fat stays above its floor only where the carb floor is met
    ensures fatGf > g.fatMin ==> carbGf >= g.carbMin
    // and fat is lowered only where the carb floor would otherwise be missed
    ensures var fatWanted := Max(g.fatTarget, g.fatMin);
            var carbsWanted := Max(0.0, (target as real - proteinGf * 4.0 - fatWanted * 9.0) / 4.0);
            carbsWanted >= g.carbMin ==> fatGf == fatWanted
  {
    proteinGf := g.protein;
    fatGf := g.fatTarget;
    var fatGMinF := g.fatMin;
    if fatGf < fatGMinF {
      fatGf := fatGMinF;
    }

    carbGf := (target as real - proteinGf * 4.0 - fatGf * 9.0) / 4.0;
    carbGf := Max(0.0, carbGf);

    var carbMinGF := g.carbMin;
    if carbGf < carbMinGF {
      fatGf := fatGMinF;
      carbGf := (target as real - proteinGf * 4.0 - fatGf * 9.0) / 4.0;
      carbGf := Max(0.0, carbGf);
    }
  }

  /** The rounded carb remainder of the target once protein and fat are counted. */
  function Remainder(target: int, proteinG: int, fatG: int): int
  {
    Round((target - proteinG * 4 - fatG * 9) as real / 4.0)
  }

  /** Carbs as the rounded remainder, never negative: they absorb the rounding, so the
      macros' energy is within 2 kcal of the target whenever there are carbs at all. */
  function CarbsFor(target: int, proteinG: int, fatG: int): (carbG: int)
    ensures carbG >= 0
    ensures carbG > 0 ==> -2 < proteinG * 4 + fatG * 9 + carbG * 4 - target <= 2
    // no carbs only when protein and fat leave at most 1 kcal of the target over
    ensures carbG == 0 ==> proteinG * 4 + fatG * 9 - target >= -1
  {
    MaxInt(0, Remainder(target, proteinG, fatG))
  }

  /** Less fat never means fewer carbs. */
  lemma CarbsForAntitoneInFat(target: int, proteinG: int, fatLo: int, fatHi: int)
    requires fatLo <= fatHi
    ensures CarbsFor(target, proteinG, fatLo) >= CarbsFor(target, proteinG, fatHi)
  {
    RoundMonotone((target - proteinG * 4 - fatHi * 9) as real / 4.0,
                  (target - proteinG * 4 - fatLo * 9) as real / 4.0);
  }

  /** Cutting at least ceil(4n/9) grams of fat frees at least n grams of carbs. */
  lemma {:induction false} FreedFatRaisesRemainder(target: int, proteinG: int, fatG: int, need: int, cut: int)
    requires cut >= Ceil((need * 4) as real / 9.0)
    ensures Remainder(target, proteinG, fatG - cut) >= Remainder(target, proteinG, fatG) + need
  {
    var x := (target - proteinG * 4 - fatG * 9) as real / 4.0;
    var y := (target - proteinG * 4 - (fatG - cut) * 9) as real / 4.0;
    assert y == x + (cut * 9) as real / 4.0;
    assert (cut * 9) as real >= (need * 4) as real;
    RoundMonotone(x + need as real, y);
    RoundShift(x, need);
  }

  /** Step two, in whole grams: round protein and fat, let carbs be the remainder, and if
      carbs still miss their rounded floor, cut fat toward its rounded floor by at most
      ceil(4 * shortfall / 9) grams and take the remainder again. */
  method Reconcile(target: int, g: Grams, proteinGf: real, fatGf: real)
    returns (proteinG: int, fatG: int, carbG: int)
    ensures proteinG == Round(proteinGf)
    ensures carbG == CarbsFor(target, proteinG, fatG)
    ensures var fat0, fatGMin, carbMinG := Round(fatGf), Round(g.fatMin), Round(g.carbMin);
            var carb0 := CarbsFor(target, proteinG, fat0);
            var allowed := Ceil(((carbMinG - carb0) * 4) as real / 9.0);
            // fat is cut exactly when carbs miss their floor and fat has room above its floor
            && (fatG < fat0 <==> carb0 < carbMinG && fat0 > fatGMin)
            && (fatG >= fat0 ==> fatG == fat0)
            // the cut stays within both allowances and uses the smaller one in full
            && (fatG < fat0 ==> fatGMin <= fatG && fat0 - fatG <= allowed
                                && (fatG == fatGMin || fat0 - fatG == allowed))
            // cutting fat never costs carbs
            && carbG >= carb0
            // with enough room above the fat floor and a non-negative remainder, the floor is met
            && ((carb0 < carbMinG && Remainder(target, proteinG, fat0) >= 0 && fat0 - fatGMin >= allowed)
                ==> carbG >= carbMinG)
    ensures fatGf >= g.fatMin ==> fatG >= Round(g.fatMin)
  {
    proteinG := Round(proteinGf);
    fatG := Round(fatGf);
    carbG := CarbsFor(target, proteinG, fatG);
    ghost var fat0, carb0 := fatG, carbG;

    var fatGMin := Round(g.fatMin);
    var carbMinG := Round(g.carbMin);
    if fatGf >= g.fatMin {
      RoundMonotone(g.fatMin, fatGf);
    }
    if carbG < carbMinG && fatG > fatGMin {
      var needCarbG := carbMinG - carbG;
      var needKcal := needCarbG * 4;
      var reducibleFatG := fatG - fatGMin;
      var reduceFatG := MinInt(reducibleFatG, Ceil(needKcal as real / 9.0));
      fatG := fatG - reduceFatG;
      carbG := CarbsFor(target, proteinG, fatG);

      CarbsForAntitoneInFat(target, proteinG, fatG, fat0);
      if Remainder(target, proteinG, fat0) >= 0 && reducibleFatG >= Ceil(needKcal as real / 9.0) {
        FreedFatRaisesRemainder(target, proteinG, fat0, needCarbG, reduceFatG);
      }
    }
  }

  // ---------------------------------------------------------------- warnings

  function SeverityOf(k: WarningKind): Severity
  {
    match k
    case CarbsBelowFloor => Info
    case HighSurplus => Info
    case AggressiveDeficit => Warn
    case BelowBmr => Warn
    case VeryLowTarget => Warn
  }

  /** The position of each warning in the fixed order the source appends them in. */
  function Rank(k: WarningKind): int
  {
    match k
    case CarbsBelowFloor => 0
    case AggressiveDeficit => 1
    case HighSurplus => 2
    case BelowBmr => 3
    case VeryLowTarget => 4
  }

  /** The condition under which the source appends each warning. */
  predicate WarningHolds(k: WarningKind, goal: Goal, delta: real, target: int, bmr: real,
                         carbG: int, carbMinG: int)
  {
    match k
    case CarbsBelowFloor => carbG < carbMinG
    case AggressiveDeficit => goal == Cut && Abs(delta) > 1000.0
    case HighSurplus => goal == Bulk && delta > 600.0
    case BelowBmr => (target as real) < bmr
    case VeryLowTarget => target < 1200
  }

  /** Each element has its kind's severity, and the ranks strictly increase. */
  predicate StrictlyRanked(ws: seq<Warning>)
  {
    && (forall i :: 0 <= i < |ws| ==> ws[i].severity == SeverityOf(ws[i].kind))
    && (forall i, j :: 0 <= i < j < |ws| ==> Rank(ws[i].kind) < Rank(ws[j].kind))
  }

  /** The warnings list of the source: in the fixed order, each warning present exactly
      when its condition holds. */
  predicate WarningsFor(ws: seq<Warning>, goal: Goal, delta: real, target: int, bmr: real,
                        carbG: int, carbMinG: int)
  {
    && StrictlyRanked(ws)
    && (forall i :: 0 <= i < |ws| ==> WarningHolds(ws[i].kind, goal, delta, target, bmr, carbG, carbMinG))
    && (forall k :: WarningHolds(k, goal, delta, target, bmr, carbG, carbMinG) ==>
                      Warning(SeverityOf(k), k) in ws)
  }

  /** The warning of kind `k` if its condition holds, else nothing. */
  function WarningIf(k: WarningKind, goal: Goal, delta: real, target: int, bmr: real,
                     carbG: int, carbMinG: int): seq<Warning>
  {
    if WarningHolds(k, goal, delta, target, bmr, carbG, carbMinG) then [Warning(SeverityOf(k), k)] else []
  }

  /** Appending a warning of a higher rank than all present keeps the list ranked. */
  lemma AppendRanked(ws: seq<Warning>, w: Warning)
    requires StrictlyRanked(ws) && w.severity == SeverityOf(w.kind)
    requires forall i :: 0 <= i < |ws| ==> Rank(ws[i].kind) < Rank(w.kind)
    ensures StrictlyRanked(ws + [w])
  {
  }

  /** What holds of the list once the warnings of rank below `n` have been considered. */
  predicate WarningsUpTo(ws: seq<Warning>, n: int, goal: Goal, delta: real, target: int, bmr: real,
                         carbG: int, carbMinG: int)
  {
    && StrictlyRanked(ws)
    && (forall i :: 0 <= i < |ws| ==> Rank(ws[i].kind) < n)
    && (forall i :: 0 <= i < |ws| ==> WarningHolds(ws[i].kind, goal, delta, target, bmr, carbG, carbMinG))
    && (forall k :: Rank(k) < n && WarningHolds(k, goal, delta, target, bmr, carbG, carbMinG) ==>
                      Warning(SeverityOf(k), k) in ws)
  }

  /** One step of the source's sequence of `if (...) warnings.push(...)`. */
  lemma PushStep(ws: seq<Warning>, k: WarningKind, goal: Goal, delta: real, target: int, bmr: real,
                 carbG: int, carbMinG: int)
    requires WarningsUpTo(ws, Rank(k), goal, delta, target, bmr, carbG, carbMinG)
    ensures WarningsUpTo(ws + WarningIf(k, goal, delta, target, bmr, carbG, carbMinG),
                         Rank(k) + 1, goal, delta, target, bmr, carbG, carbMinG)
  {
    var w := Warning(SeverityOf(k), k);
    if WarningHolds(k, goal, delta, target, bmr, carbG, carbMinG) {
      AppendRanked(ws, w);
      var next := ws + [w];
      forall j | Rank(j) < Rank(k) + 1 && WarningHolds(j, goal, delta, target, bmr, carbG, carbMinG)
        ensures Warning(SeverityOf(j), j) in next
      {
        if Rank(j) < Rank(k) {
          assert Warning(SeverityOf(j), j) in ws;
        } else {
          assert j == k;
          assert next[|ws|] == w;
        }
      }
    } else {
      assert ws + WarningIf(k, goal, delta, target, bmr, carbG, carbMinG) == ws;
      forall j | Rank(j) < Rank(k) + 1 && WarningHolds(j, goal, delta, target, bmr, carbG, carbMinG)
        ensures Warning(SeverityOf(j), j) in ws
      {
        assert j != k;
        assert Rank(j) < Rank(k);
      }
    }
  }

  /** Once all five ranks are considered, the list is the source's warnings list. */
  lemma WarningsUpToAll(ws: seq<Warning>, goal: Goal, delta: real, target: int, bmr: real,
                        carbG: int, carbMinG: int)
    requires WarningsUpTo(ws, 5, goal, delta, target, bmr, carbG, carbMinG)
    ensures WarningsFor(ws, goal, delta, target, bmr, carbG, carbMinG)
  {
    forall k | WarningHolds(k, goal, delta, target, bmr, carbG, carbMinG)
      ensures Warning(SeverityOf(k), k) in ws
    {
      assert Rank(k) < 5;
    }
  }

  /** The kinds in the order the source considers them. */
  function KindAt(i: nat): (k: WarningKind)
    requires i < 5
    ensures Rank(k) == i
  {
    [CarbsBelowFloor, AggressiveDeficit, HighSurplus, BelowBmr, VeryLowTarget][i]
  }

  /** The first `n` candidate warnings in the source's order, each kept when its
      condition holds; `WarningsBelow(5, ...)` is the whole list. */
  function WarningsBelow(n: nat, goal: Goal, delta: real, target: int, bmr: real,
                         carbG: int, carbMinG: int): seq<Warning>
    requires n <= 5
  {
    if n == 0 then []
    else WarningsBelow(n - 1, goal, delta, target, bmr, carbG, carbMinG)
         + WarningIf(KindAt(n - 1), goal, delta, target, bmr, carbG, carbMinG)
  }

  /** Considering the candidates in order builds the source's warnings list. */
  lemma {:induction false} WarningsBelowSound(n: nat, goal: Goal, delta: real, target: int, bmr: real,
                                              carbG: int, carbMinG: int)
    requires n <= 5
    ensures WarningsUpTo(WarningsBelow(n, goal, delta, target, bmr, carbG, carbMinG),
                         n, goal, delta, target, bmr, carbG, carbMinG)
  {
    if n > 0 {
      WarningsBelowSound(n - 1, goal, delta, target, bmr, carbG, carbMinG);
      PushStep(WarningsBelow(n - 1, goal, delta, target, bmr, carbG, carbMinG), KindAt(n - 1),
               goal, delta, target, bmr, carbG, carbMinG);
    }
  }

  /** The source's sequence of `if (...) warnings.push(...)`. */
  method CollectWarnings(goal: Goal, delta: real, target: int, bmr: real, carbG: int, carbMinG: int)
    returns (warnings: seq<Warning>)
    ensures warnings == WarningsBelow(5, goal, delta, target, bmr, carbG, carbMinG)
    ensures WarningsFor(warnings, goal, delta, target, bmr, carbG, carbMinG)
  {
    warnings := [];
    if carbG < carbMinG {
      warnings := warnings + [Warning(Info, CarbsBelowFloor)];
    }
    assert warnings == WarningsBelow(1, goal, delta, target, bmr, carbG, carbMinG);
    if goal == Cut && Abs(delta) > 1000.0 {
      warnings := warnings + [Warning(Warn, AggressiveDeficit)];
    }
    assert warnings == WarningsBelow(2, goal, delta, target, bmr, carbG, carbMinG);
    if goal == Bulk && delta > 600.0 {
      warnings := warnings + [Warning(Info, HighSurplus)];
    }
    assert warnings == WarningsBelow(3, goal, delta, target, bmr, carbG, carbMinG);
    if (target as real) < bmr {
      warnings := warnings + [Warning(Warn, BelowBmr)];
    }
    assert warnings == WarningsBelow(4, goal, delta, target, bmr, carbG, carbMinG);
    if target < 1200 {
      warnings := warnings + [Warning(Warn, VeryLowTarget)];
    }
    assert warnings == WarningsBelow(5, goal, delta, target, bmr, carbG, carbMinG);
    WarningsBelowSound(5, goal, delta, target, bmr, carbG, carbMinG);
    WarningsUpToAll(warnings, goal, delta, target, bmr, carbG, carbMinG);
  }

  /** The tail of a ranked list is ranked, and its head outranks everything after it. */
  lemma RankedTail(a: seq<Warning>)
    requires StrictlyRanked(a) && a != []
    ensures StrictlyRanked(a[1..])
    ensures forall x :: x in a[1..] ==> Rank(a[0].kind) < Rank(x.kind)
    ensures forall x :: x in a ==> x == a[0] || x in a[1..]
  {
    forall x | x in a[1..]
      ensures Rank(a[0].kind) < Rank(x.kind)
    {
      var k :| 0 <= k < |a| - 1 && a[1..][k] == x;
      assert a[k + 1] == x;
    }
    assert a == [a[0]] + a[1..];
  }

  /** Two strictly ranked lists with the same elements are equal. */
  lemma {:induction false} StrictlyRankedUnique(a: seq<Warning>, b: seq<Warning>)
    requires StrictlyRanked(a) && StrictlyRanked(b)
    requires forall x :: x in a <==> x in b
    ensures a == b
    decreases |a|
  {
    assert a != [] ==> a[0] in b;
    assert b != [] ==> b[0] in a;
    if a != [] && b != [] {
      RankedTail(a);
      RankedTail(b);
      var ra, rb := Rank(a[0].kind), Rank(b[0].kind);
      assert a[0] == b[0] || rb < ra;
      assert a[0] == b[0] || ra < rb;
      assert forall x :: x in a[1..] <==> x in b[1..];
      StrictlyRankedUnique(a[1..], b[1..]);
      assert a == [a[0]] + a[1..] == [b[0]] + b[1..] == b;
    }
  }

  /** The order and the conditions determine the warnings list completely. */
  lemma WarningsForUnique(a: seq<Warning>, b: seq<Warning>, goal: Goal, delta: real, target: int,
                          bmr: real, carbG: int, carbMinG: int)
    requires WarningsFor(a, goal, delta, target, bmr, carbG, carbMinG)
    requires WarningsFor(b, goal, delta, target, bmr, carbG, carbMinG)
    ensures a == b
  {
    forall x
      ensures x in a <==> x in b
    {
      if x in a {
        var i :| 0 <= i < |a| && a[i] == x;
        assert WarningHolds(x.kind, goal, delta, target, bmr, carbG, carbMinG);
      }
      if x in b {
        var i :| 0 <= i < |b| && b[i] == x;
        assert WarningHolds(x.kind, goal, delta, target, bmr, carbG, carbMinG);
      }
    }
    StrictlyRankedUnique(a, b);
  }

  /** An aggressive-deficit warning always comes with one of the two largest deficit
      deductions, and the below-BMR warning with the below-BMR deduction. */
  lemma WarningsAgreeWithCoherence(goal: Goal, delta: real, target: int, bmr: real,
                                   carbG: int, carbMinG: int)
    ensures WarningHolds(AggressiveDeficit, goal, delta, target, bmr, carbG, carbMinG) ==>
              DeltaPenalty(delta) >= 18
    ensures WarningHolds(BelowBmr, goal, delta, target, bmr, carbG, carbMinG) <==> BmrPenalty(target, bmr) == 25
  {
  }

  // ---------------------------------------------------------------- the whole plan

  /** Every figure of the plan `calcPlan` derives for a state that validates. The unset
      advanced settings are read as `defaultsFor` fills them. */
  predicate PlanFor(s: State, p: Plan)
  {
    && ValidateCore(s)
    && var f, w := AutoDefaults(s), NumberOf(s.weight);
       var m, d := MacroParamsOf(f), DefaultsFor(s.goal, s.sex, s.weight);
       var g := GramsOf(w, m);
       && p.bmr == Bmr(s.sex.value, w, NumberOf(s.height), NumberOf(s.age))
       && p.tdee == Tdee(p.bmr, s.activity.value)
       && p.delta == GoalDelta(s.goal.value, s.pace)
       && p.target == Round(p.tdee + p.delta)
       && p.proteinG == Round(g.protein)
       && Round(g.fatMin) <= p.fatG <= Round(Max(g.fatTarget, g.fatMin))
       && p.carbG >= 0
       && p.carbG == CarbsFor(p.target, p.proteinG, p.fatG)
       && (p.carbG > 0 ==> -2 < p.proteinG * 4 + p.fatG * 9 + p.carbG * 4 - p.target <= 2)
       && 0 <= p.coherence <= 100
       && p.coherence == CoherenceScore(p.bmr, p.delta, p.target, m.proteinPerKg, m.fatMinPerKg, m.carbMinPerKg)
       && WarningsFor(p.warnings, s.goal.value, p.delta, p.target, p.bmr, p.carbG, Round(g.carbMin))
       && p.fiber == (if s.mode == Simple then d.fiber else NumberOf(f.fiber))
       && p.water == (if s.mode == Simple then d.water else NumberOf(f.water))
       && p.sodium == (if s.mode == Simple then d.sodium else NumberOf(f.sodium))
  }

  /** `calcPlan`: no plan unless the profile validates; otherwise the plan `PlanFor`
      describes (the in-place filling of the defaults is `Controller.App.CalcPlan`). */
  method CalcPlan(s: State) returns (plan: Option<Plan>)
    ensures plan.Some? <==> ValidateCore(s)
    ensures plan.Some? ==> PlanFor(s, plan.value)
  {
    if !ValidateCore(s) {
      return None;
    }

    var sex := s.sex.value;
    var age := NumberOf(s.age);
    var h := NumberOf(s.height);
    var w := NumberOf(s.weight);
    var pal := NumberOf(s.activity);
    assert pal == s.activity.value;

    var bmr := Bmr(sex, w, h, age);
    var tdee := Tdee(bmr, pal);
    var delta := GoalDelta(s.goal.value, s.pace);
    var target := Round(tdee + delta);

    var filled := AutoDefaults(s);
    var d := DefaultsFor(filled.goal, filled.sex, filled.weight);
    var m := MacroParamsOf(filled);

    var fiber := if filled.mode == Simple then d.fiber else NumberOf(filled.fiber);
    var water := if filled.mode == Simple then d.water else NumberOf(filled.water);
    var sodium := if filled.mode == Simple then d.sodium else NumberOf(filled.sodium);

    var g := GramsOf(w, m);
    var proteinGf, fatGf, carbGf := FloatSolve(target, g);
    var proteinG, fatG, carbG := Reconcile(target, g, proteinGf, fatGf);
    RoundMonotone(fatGf, Max(g.fatTarget, g.fatMin));

    var carbMinG := Round(g.carbMin);
    var coherence := ComputeCoherence(bmr, delta, target, m.proteinPerKg, m.fatMinPerKg, m.carbMinPerKg);
    var warnings := CollectWarnings(s.goal.value, delta, target, bmr, carbG, carbMinG);

    assert w == NumberOf(s.weight) && m == MacroParamsOf(AutoDefaults(s));
    plan := Some(Plan(bmr, tdee, delta, target, proteinG, fatG, carbG,
                      fiber, water, sodium, coherence, warnings));
  }
}
