/** Per-goal defaults (`defaultsFor`, app.js:162-201) and the filling of unset advanced
    settings (`applyAutoDefaultsIfMissing`, app.js:203-213), as functions on values.
    The in-place version of the latter is `Controller.App.ApplyAutoDefaultsIfMissing`. */
module Defaults {
  import opened Types
  import opened Numeric

  datatype MacroDefaults = MacroDefaults(
    proteinPerKg: real, fatMinPerKg: real, carbMinPerKg: real,
    fiber: real, water: real, sodium: real)

  /** `Number(weight) || 80`: an unset or zero weight counts as 80 kg. */
  function WeightOrDefault(weight: Option<real>): (w: real)
    ensures w != 0.0
    ensures NumberOf(weight) == 0.0 ==> w == 80.0
    ensures NumberOf(weight) != 0.0 ==> w == NumberOf(weight)
  {
    if NumberOf(weight) == 0.0 then 80.0 else NumberOf(weight)
  }

  /** 35 ml per kg, kept between 2 and 6 litres, rounded to a tenth of a litre. */
  function WaterDefault(weight: Option<real>): (litres: real)
    ensures 2.0 <= litres <= 6.0
    ensures (litres * 10.0).Floor as real == litres * 10.0
    ensures var raw := 0.035 * WeightOrDefault(weight);
            && (raw < 2.0 ==> litres == 2.0)
            && (raw > 6.0 ==> litres == 6.0)
            && (2.0 <= raw <= 6.0 ==> -0.05 < litres - raw <= 0.05)
  {
    var raw := Clamp(WeightOrDefault(weight) * 0.035, 2.0, 6.0);
    var tenths := Round(raw * 10.0);
    RoundMonotone(raw * 10.0, 60.0);
    RoundMonotone(20.0, raw * 10.0);
    RoundInt(60);
    RoundInt(20);
    tenths as real / 10.0
  }

  /** The protein, fat-floor and carb-floor defaults in g/kg for a goal; a goal outside
      the three known ones keeps the initial values of the `let` chain. */
  function PerKgDefaults(goal: Option<Goal>): (real, real, real)
  {
    match goal
    case Some(Cut) => (1.6, 0.7, 1.0)
    case Some(Maintain) => (1.5, 0.7, 1.2)
    case Some(Bulk) => (1.5, 0.7, 1.5)
    case _ => (1.5, 0.7, 1.2)
  }

  function DefaultsFor(goal: Option<Goal>, sex: Option<Sex>, weight: Option<real>): (d: MacroDefaults)
    // the defaults lie inside the ranges calcPlan clamps to, so clamping leaves them alone
    ensures 1.2 <= d.proteinPerKg <= 3.0 && 0.4 <= d.fatMinPerKg <= 1.4 && 0.0 <= d.carbMinPerKg <= 4.0
    // a cut asks for the most protein and the lowest carb floor, a bulk for the highest carb floor
    ensures goal == Some(Cut) <==> d.proteinPerKg == 1.6
    ensures goal != Some(Cut) ==> d.proteinPerKg == 1.5
    ensures d.fatMinPerKg == 0.7
    ensures goal == Some(Cut) ==> d.carbMinPerKg == 1.0
    ensures goal == Some(Bulk) ==> d.carbMinPerKg == 1.5
    ensures goal != Some(Cut) && goal != Some(Bulk) ==> d.carbMinPerKg == 1.2
    ensures d.fiber == (if sex == Some(Female) then 25.0 else 30.0)
    ensures d.water == WaterDefault(weight) && 2.0 <= d.water <= 6.0
    ensures d.sodium == 2500.0
  {
    var perKg := PerKgDefaults(goal);
    MacroDefaults(
      proteinPerKg := perKg.0,
      fatMinPerKg := perKg.1,
      carbMinPerKg := perKg.2,
      fiber := if sex == Some(Female) then 25.0 else 30.0,
      water := WaterDefault(weight),
      sodium := 2500.0)
  }

  /** `if(field == null) field = default`. */
  function Fill(field: Option<real>, default: real): Option<real>
  {
    if field.None? then Some(default) else field
  }

  /** `applyAutoDefaultsIfMissing` on a state value. */
  function AutoDefaults(s: State): State
  {
    if s.goal.None? then s
    else
      var d := DefaultsFor(s.goal, s.sex, s.weight);
      s.(proteinPerKg := Fill(s.proteinPerKg, d.proteinPerKg),
         fatMinPerKg := Fill(s.fatMinPerKg, d.fatMinPerKg),
         carbMinPerKg := Fill(s.carbMinPerKg, d.carbMinPerKg),
         fiber := Fill(s.fiber, d.fiber),
         water := Fill(s.water, d.water),
         sodium := Fill(s.sodium, d.sodium))
  }

  /** Everything but the six advanced settings is the same in `s` and `t`. */
  predicate SameExceptAdvanced(s: State, t: State)
  {
    t == s.(proteinPerKg := t.proteinPerKg, fatMinPerKg := t.fatMinPerKg,
            carbMinPerKg := t.carbMinPerKg, fiber := t.fiber, water := t.water,
            sodium := t.sodium)
  }

  /** `t` keeps every advanced setting that `s` had set. */
  predicate KeepsSetAdvanced(s: State, t: State)
  {
    && (s.proteinPerKg.Some? ==> t.proteinPerKg == s.proteinPerKg)
    && (s.fatMinPerKg.Some? ==> t.fatMinPerKg == s.fatMinPerKg)
    && (s.carbMinPerKg.Some? ==> t.carbMinPerKg == s.carbMinPerKg)
    && (s.fiber.Some? ==> t.fiber == s.fiber)
    && (s.water.Some? ==> t.water == s.water)
    && (s.sodium.Some? ==> t.sodium == s.sodium)
  }

  /** Every advanced setting of `t` is set; the ones `s` left unset hold the defaults `d`. */
  predicate FilledFrom(s: State, t: State, d: MacroDefaults)
  {
    && t.proteinPerKg == (if s.proteinPerKg.None? then Some(d.proteinPerKg) else s.proteinPerKg)
    && t.fatMinPerKg == (if s.fatMinPerKg.None? then Some(d.fatMinPerKg) else s.fatMinPerKg)
    && t.carbMinPerKg == (if s.carbMinPerKg.None? then Some(d.carbMinPerKg) else s.carbMinPerKg)
    && t.fiber == (if s.fiber.None? then Some(d.fiber) else s.fiber)
    && t.water == (if s.water.None? then Some(d.water) else s.water)
    && t.sodium == (if s.sodium.None? then Some(d.sodium) else s.sodium)
  }

  /** Without a goal nothing is filled in. */
  lemma AutoDefaultsWithoutGoal(s: State)
    requires s.goal.None?
    ensures AutoDefaults(s) == s
  {
  }

  /** Only unset advanced settings change; set ones and the profile stay as they were. */
  lemma AutoDefaultsOnlyFillsUnset(s: State)
    ensures SameExceptAdvanced(s, AutoDefaults(s))
    ensures KeepsSetAdvanced(s, AutoDefaults(s))
  {
  }

  /** With a goal, every advanced setting ends up set, the unset ones from `defaultsFor`. */
  lemma AutoDefaultsFillsFromTable(s: State)
    requires s.goal.Some?
    ensures FilledFrom(s, AutoDefaults(s), DefaultsFor(s.goal, s.sex, s.weight))
  {
  }

  /** Filling twice is filling once. */
  lemma AutoDefaultsIdempotent(s: State)
    ensures AutoDefaults(AutoDefaults(s)) == AutoDefaults(s)
  {
  }
}
