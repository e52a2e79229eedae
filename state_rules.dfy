/** The small rules the page applies to the state around the engine: the step clamp of
    `showPanel` (app.js:244-245), the stepper buttons (app.js:1075-1101), `setMode`
    (app.js:285-298), the pace defaults of the goal cards (app.js:1132-1150) and of
    `render` (app.js:583-599), and the sanitising of an imported settings file
    (app.js:1224-1244). Each rule is a function from the old state to the new one. */
module StateRules {
  import opened Types
  import opened Numeric
  import opened Defaults
  import opened Validation
  import opened Coherence
  import Engine

  // ---------------------------------------------------------------- steps

  /** The last panel of the stepper (the result). */
  const LastStep: real := 3.0

  /** `showPanel`: every requested step is clamped to the four panels. */
  function PanelStep(step: real): (r: real)
    ensures 0.0 <= r <= LastStep
    ensures 0.0 <= step <= LastStep ==> r == step
    ensures step < 0.0 ==> r == 0.0
    ensures step > LastStep ==> r == LastStep
  {
    Clamp(step, 0.0, LastStep)
  }

  /** The back button asks for the previous panel. */
  function BackStep(s: State): real
  {
    PanelStep(s.step - 1.0)
  }

  /** The next button: nothing on the last panel or when the current step's gate fails,
      otherwise the following panel. */
  function NextStep(s: State): real
  {
    if s.step == LastStep then s.step
    else if !CanGoNext(s) then s.step
    else PanelStep(s.step + 1.0)
  }

  /** A click on a step marker: backwards always, forwards only past the current gate. */
  function JumpStep(s: State, target: real): real
  {
    if target > s.step && !CanGoNext(s) then s.step
    else PanelStep(target)
  }

  /** Every button keeps the step on one of the panels, and the back button never moves
      forward, nor below the first panel. */
  lemma NavigationStaysOnPanels(s: State, target: real)
    requires 0.0 <= s.step <= LastStep
    ensures 0.0 <= BackStep(s) <= s.step
    ensures 0.0 <= NextStep(s) <= LastStep
    ensures 0.0 <= JumpStep(s, target) <= LastStep
    ensures s.step >= 1.0 ==> BackStep(s) == s.step - 1.0
  {
  }

  /** Moving forward, by the next button or by a step marker, needs the current gate;
      the next button moves exactly one panel. */
  lemma ForwardNeedsGate(s: State, target: real)
    requires 0.0 <= s.step <= LastStep
    ensures NextStep(s) > s.step <==> s.step < LastStep && CanGoNext(s)
    ensures NextStep(s) > s.step ==> NextStep(s) == Min(s.step + 1.0, LastStep)
    ensures JumpStep(s, target) > s.step ==> CanGoNext(s)
  {
  }

  /** A step marker checks only the gate of the current step, so a complete profile on
      step 0 can jump straight to the result with no activity and no goal. */
  lemma JumpChecksOnlyCurrentGate()
    ensures var s := Initial.(sex := Some(Female), age := Some(40.0), height := Some(165.0),
                              weight := Some(60.0));
            JumpStep(s, LastStep) == LastStep && !ValidateCore(s)
  {
  }

  /** The gates compare the step with `===`, so a fractional step (possible after an
      import) passes the gate whatever the profile. */
  lemma FractionalStepPassesEveryGate(s: State)
    requires s.step != 0.0 && s.step != 1.0 && s.step != 2.0
    ensures CanGoNext(s)
  {
  }

  // ---------------------------------------------------------------- mode

  /** `setMode`: switching to simple closes the advanced block; the step is re-clamped. */
  function WithMode(s: State, mode: Mode): (t: State)
    ensures t.mode == mode
    ensures mode == Simple ==> !t.advancedOpen
    ensures mode == Advanced ==> t.advancedOpen == s.advancedOpen
    ensures t.step == PanelStep(s.step)
    ensures t == s.(mode := t.mode, advancedOpen := t.advancedOpen, step := t.step)
  {
    s.(mode := mode,
       advancedOpen := (if mode == Simple then false else s.advancedOpen),
       step := PanelStep(s.step))
  }

  // ---------------------------------------------------------------- pace

  /** JavaScript's `Number(x) || d` on a number the model can hold: 0 is falsy. */
  function OrElse(x: real, d: real): real
  {
    if x == 0.0 then d else x
  }

  /** The pace a goal card sets: for a cut the old pace (0.5 if it was 0) clamped to
      [0.25, 1.0], for a bulk the old pace (0.25 if it was 0) clamped to [0.10, 0.50];
      maintain keeps the pace, which it ignores. */
  function PaceOnGoalChoice(goal: Goal, pace: real): (p: real)
    ensures goal == Cut ==> 0.25 <= p <= 1.0
    ensures goal == Bulk ==> 0.10 <= p <= 0.50
    ensures goal != Cut && goal != Bulk ==> p == pace
    ensures goal == Cut && 0.25 <= pace <= 1.0 ==> p == pace
    ensures goal == Bulk && 0.10 <= pace <= 0.50 ==> p == pace
    ensures goal == Cut && pace == 0.0 ==> p == 0.5
    ensures goal == Bulk && pace == 0.0 ==> p == 0.25
    // a set pace outside the range goes to its nearer end
    ensures goal == Cut && pace != 0.0 && pace < 0.25 ==> p == 0.25
    ensures goal == Cut && pace > 1.0 ==> p == 1.0
    ensures goal == Bulk && pace != 0.0 && pace < 0.10 ==> p == 0.10
    ensures goal == Bulk && pace > 0.50 ==> p == 0.50
  {
    if goal == Cut then Clamp(OrElse(pace, 0.5), 0.25, 1.0)
    else if goal == Bulk then Clamp(OrElse(pace, 0.25), 0.10, 0.50)
    else pace
  }

  /** The pace `render` keeps: a cut pace outside [0.10, 1.00] becomes 0.50, a bulk pace
      outside [0.10, 0.50] becomes 0.25; any other goal leaves the pace alone. */
  function PaceOnRender(goal: Option<Goal>, pace: real): (p: real)
    ensures goal == Some(Cut) ==> 0.10 <= p <= 1.00
    ensures goal == Some(Bulk) ==> 0.10 <= p <= 0.50
    ensures goal == Some(Cut) ==> (p == pace <==> 0.10 <= pace <= 1.00)
    ensures goal == Some(Bulk) ==> (p == pace <==> 0.10 <= pace <= 0.50)
    ensures goal == Some(Cut) && p != pace ==> p == 0.50
    ensures goal == Some(Bulk) && p != pace ==> p == 0.25
    ensures goal != Some(Cut) && goal != Some(Bulk) ==> p == pace
  {
    if goal == Some(Cut) then (if pace < 0.10 || pace > 1.00 then 0.50 else pace)
    else if goal == Some(Bulk) then (if pace < 0.10 || pace > 0.50 then 0.25 else pace)
    else pace
  }

  /** Redrawing the screen never overrides the pace a goal card just set. */
  lemma RenderKeepsChosenPace(goal: Goal, pace: real)
    ensures PaceOnRender(Some(goal), PaceOnGoalChoice(goal, pace)) == PaceOnGoalChoice(goal, pace)
  {
  }

  /** Both pace rules settle after one application. */
  lemma PaceRulesIdempotent(goal: Goal, pace: real)
    ensures PaceOnGoalChoice(goal, PaceOnGoalChoice(goal, pace)) == PaceOnGoalChoice(goal, pace)
    ensures PaceOnRender(Some(goal), PaceOnRender(Some(goal), pace)) == PaceOnRender(Some(goal), pace)
  {
  }

  /** The two rules disagree on the cut range: a cut at 0.15 kg/week survives a redraw,
      but choosing the cut card again moves it up to 0.25. */
  lemma CutRangesDiffer()
    ensures PaceOnRender(Some(Cut), 0.15) == 0.15
    ensures PaceOnGoalChoice(Cut, 0.15) == 0.25
  {
  }

  /** After a redraw the pace always passes the step-2 gate once one of the three goal
      cards is set. (An unknown goal from an imported file keeps its pace, which may fail.) */
  lemma RenderedPacePassesGoalGate(s: State)
    requires s.goal == Some(Cut) || s.goal == Some(Maintain) || s.goal == Some(Bulk)
    ensures GoalStepOk(s.(pace := PaceOnRender(s.goal, s.pace)))
  {
  }

  // ---------------------------------------------------------------- redraw

  /** The state changes a redraw makes (app.js:583-603): the pace is normalised, then the
      missing advanced settings are filled. */
  function Rendered(s: State): State
  {
    AutoDefaults(s.(pace := PaceOnRender(s.goal, s.pace)))
  }

  /** A redraw changes only the pace and the unset advanced settings, so it never changes
      whether a plan exists, and a second redraw changes nothing. */
  lemma RenderedProperties(s: State)
    ensures ValidateCore(Rendered(s)) == ValidateCore(s)
    ensures SameExceptAdvanced(s.(pace := PaceOnRender(s.goal, s.pace)), Rendered(s))
    ensures Rendered(Rendered(s)) == Rendered(s)
  {
    var t := s.(pace := PaceOnRender(s.goal, s.pace));
    AutoDefaultsIdempotent(t);
  }

  /** The delta `calcPlan` sees after a redraw: a cut keeps a pace in [0.10, 1.00] and a
      bulk one in [0.10, 0.50], so the deficit is 110 to 1100 kcal and the surplus 110 to
      550 kcal. */
  lemma RedrawnDeltaRange(goal: Goal, pace: real)
    ensures var delta := Engine.GoalDelta(goal, PaceOnRender(Some(goal), pace));
            && (goal == Cut ==> -1100.0 <= delta <= -110.0)
            && (goal == Bulk ==> 110.0 <= delta <= 550.0)
            && (goal != Cut && goal != Bulk ==> delta == 0.0)
  {
  }

  /** Every plan painted after a redraw has a coherence score of at least 13, and never
      carries the high-surplus warning, whose 600 kcal threshold lies above the largest
      surplus a redrawn bulk allows. */
  lemma RedrawnPlanBounds(s: State, p: Engine.Plan)
    ensures Engine.PlanFor(Rendered(s), p) ==>
              && -1100.0 <= p.delta <= 550.0
              && 13 <= p.coherence
              && (forall i :: 0 <= i < |p.warnings| ==> p.warnings[i].kind != Engine.HighSurplus)
  {
    if Engine.PlanFor(Rendered(s), p) {
      var t := Rendered(s);
      RenderedProperties(s);
      assert t.goal == s.goal && t.pace == PaceOnRender(s.goal, s.pace);
      RedrawnDeltaRange(t.goal.value, s.pace);
      var m := Engine.MacroParamsOf(AutoDefaults(t));
      ScoreFloorWithinRedrawnDelta(p.bmr, p.delta, p.target, m.proteinPerKg, m.fatMinPerKg, m.carbMinPerKg);
    }
  }

  // ---------------------------------------------------------------- goal cards

  /** A goal card: the goal is set, the six advanced settings are cleared so that they
      follow the new goal, the pace gets its default and the defaults are filled again. */
  function GoalChoice(s: State, goal: Goal): State
  {
    var cleared := s.(goal := Some(goal),
                      proteinPerKg := None, fatMinPerKg := None, carbMinPerKg := None,
                      fiber := None, water := None, sodium := None);
    AutoDefaults(cleared.(pace := PaceOnGoalChoice(goal, s.pace)))
  }

  /** Choosing a goal replaces every advanced setting, also one the user had set, by the
      table value for the new goal, and touches nothing but the goal, the pace and those
      six settings. */
  lemma GoalChoiceResetsSettings(s: State, goal: Goal)
    ensures var t, d := GoalChoice(s, goal), DefaultsFor(Some(goal), s.sex, s.weight);
            && t.goal == Some(goal)
            && t.pace == PaceOnGoalChoice(goal, s.pace)
            && t.proteinPerKg == Some(d.proteinPerKg) && t.fatMinPerKg == Some(d.fatMinPerKg)
            && t.carbMinPerKg == Some(d.carbMinPerKg) && t.fiber == Some(d.fiber)
            && t.water == Some(d.water) && t.sodium == Some(d.sodium)
            && t == s.(goal := t.goal, pace := t.pace,
                       proteinPerKg := t.proteinPerKg, fatMinPerKg := t.fatMinPerKg,
                       carbMinPerKg := t.carbMinPerKg, fiber := t.fiber, water := t.water,
                       sodium := t.sodium)
  {
  }

  /** The redraw that follows a goal card changes nothing more. */
  lemma GoalChoiceIsStable(s: State, goal: Goal)
    ensures Rendered(GoalChoice(s, goal)) == GoalChoice(s, goal)
  {
    var t := GoalChoice(s, goal);
    RenderKeepsChosenPace(goal, s.pace);
    assert t.pace == PaceOnGoalChoice(goal, s.pace);
    assert t.(pace := PaceOnRender(t.goal, t.pace)) == t;
    var cleared := s.(goal := Some(goal),
                      proteinPerKg := None, fatMinPerKg := None, carbMinPerKg := None,
                      fiber := None, water := None, sodium := None);
    AutoDefaultsIdempotent(cleared.(pace := PaceOnGoalChoice(goal, s.pace)));
  }

  // ---------------------------------------------------------------- import

  /** The imported step: `clamp(Number(step) || 0, 0, 3)`. `None` stands for a value whose
      `Number` is 0 or NaN (missing, null, not numeric). */
  function ImportedStep(raw: Option<real>): (step: real)
    ensures 0.0 <= step <= LastStep
    ensures raw.None? ==> step == 0.0
    ensures raw.Some? && 0.0 <= raw.value <= LastStep ==> step == raw.value
    ensures raw.Some? && raw.value < 0.0 ==> step == 0.0
    ensures raw.Some? && raw.value > LastStep ==> step == LastStep
  {
    PanelStep(OrElse(NumberOf(raw), 0.0))
  }

  /** The imported mode: exactly the string "advanced" selects advanced mode. */
  function ImportedMode(raw: string): (mode: Mode)
    ensures mode == Advanced <==> raw == "advanced"
  {
    if raw == "advanced" then Advanced else Simple
  }

  /** An import: the merged settings with the step and the mode sanitised, then `setMode`
      and `showPanel` with the sanitised values. */
  function Imported(merged: State, rawStep: Option<real>, rawMode: string): State
  {
    var sane := merged.(step := ImportedStep(rawStep), mode := ImportedMode(rawMode));
    WithMode(sane, sane.mode).(step := PanelStep(sane.step))
  }

  /** Whatever the file held, an import lands on a panel, in one of the two modes, with
      the advanced block closed in simple mode; every other field is the merged one. */
  lemma ImportIsSanitised(merged: State, rawStep: Option<real>, rawMode: string)
    ensures var t := Imported(merged, rawStep, rawMode);
            && 0.0 <= t.step <= LastStep
            && (t.mode == Advanced <==> rawMode == "advanced")
            && (t.mode == Simple ==> !t.advancedOpen)
            && t == merged.(step := t.step, mode := t.mode, advancedOpen := t.advancedOpen)
  {
  }

  /** Importing the settings a session exported puts it back where it was, provided the
      session was on a panel and kept the advanced block closed in simple mode; and when
      the session had already been redrawn, the redraw the import handler ends with
      changes nothing either. */
  lemma ImportOfExportRestores(s: State)
    requires 0.0 <= s.step <= LastStep
    requires s.mode == Simple ==> !s.advancedOpen
    ensures Imported(s, if s.step == 0.0 then None else Some(s.step),
                     if s.mode == Advanced then "advanced" else "simple") == s
    ensures Rendered(s) == s ==>
              Rendered(Imported(s, if s.step == 0.0 then None else Some(s.step),
                                if s.mode == Advanced then "advanced" else "simple")) == s
  {
  }
}
