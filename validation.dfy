/** Profile validation: the gate in front of the plan (`validateCore`, app.js:315-355) and
    the per-step gate of the stepper (`canGoNext`, app.js:357-385). The error messages the
    source writes into the page are left out; only the verdicts are modelled. */
module Validation {
  import opened Types

  /** The four anthropometric checks, shared by `validateCore` and step 0 of `canGoNext`.
      An unset number reads as `Number(null) == 0` and so fails its range. */
  predicate ProfileInRange(s: State)
  {
    && s.sex.Some?
    && 10.0 <= NumberOf(s.age) <= 90.0
    && 120.0 <= NumberOf(s.height) <= 220.0
    && 35.0 <= NumberOf(s.weight) <= 250.0
  }

  /** The activity check as written: `Number.isFinite(Number(state.activity))`. Every
      value of the model is finite, and `Number(null)` is 0, so it accepts everything,
      including an activity that was never chosen. */
  predicate ActivityAcceptedAsWritten(s: State)
  {
    true
  }

  /** The activity check as evidently intended: an activity card has been chosen. */
  predicate ActivityChosen(s: State)
  {
    s.activity.Some?
  }

  predicate ValidateCoreAsWritten(s: State)
  {
    ProfileInRange(s) && ActivityAcceptedAsWritten(s) && s.goal.Some?
  }

  /** `validateCore` with the corrected activity check; the engine uses this one. */
  predicate ValidateCore(s: State)
  {
    ProfileInRange(s) && ActivityChosen(s) && s.goal.Some?
  }

  /** The gate of step 2: a goal, and a positive pace unless the goal is maintain. */
  predicate GoalStepOk(s: State)
  {
    s.goal.Some? && (s.goal != Some(Maintain) ==> s.pace > 0.0)
  }

  function CanGoNextAsWritten(s: State): bool
  {
    if s.step == 0.0 then ProfileInRange(s)
    else if s.step == 1.0 then ActivityAcceptedAsWritten(s)
    else if s.step == 2.0 then GoalStepOk(s)
    else true
  }

  /** `canGoNext` with the corrected activity check. */
  function CanGoNext(s: State): bool
  {
    if s.step == 0.0 then ProfileInRange(s)
    else if s.step == 1.0 then ActivityChosen(s)
    else if s.step == 2.0 then GoalStepOk(s)
    else true
  }

  /** Passing the gates of steps 0, 1 and 2 is enough for a plan. */
  lemma StepGatesImplyValid(s: State)
    requires CanGoNext(s.(step := 0.0)) && CanGoNext(s.(step := 1.0)) && CanGoNext(s.(step := 2.0))
    ensures ValidateCore(s)
  {
    assert ProfileInRange(s.(step := 0.0));
    assert ActivityChosen(s.(step := 1.0));
    assert GoalStepOk(s.(step := 2.0));
  }

  /** A valid profile passes the gates of steps 0 and 1, and the gate of step 2 exactly
      when its pace is positive or its goal is maintain. */
  lemma ValidPassesProfileAndActivityGates(s: State)
    requires ValidateCore(s)
    ensures CanGoNext(s.(step := 0.0)) && CanGoNext(s.(step := 1.0))
    ensures CanGoNext(s.(step := 2.0)) <==> (s.goal == Some(Maintain) || s.pace > 0.0)
  {
  }

  /** `validateCore` does not look at the pace: a cut with a negative pace is valid but
      cannot leave step 2. */
  lemma ValidateCoreIgnoresPace()
    ensures var s := Initial.(sex := Some(Male), age := Some(30.0), height := Some(180.0),
                              weight := Some(80.0), activity := Some(1.55), goal := Some(Cut),
                              pace := -1.0, step := 2.0);
            ValidateCore(s) && !CanGoNext(s)
  {
  }

  /** The page starts with no plan. */
  lemma InitialStateIsInvalid()
    ensures !ValidateCore(Initial) && !ValidateCoreAsWritten(Initial)
  {
  }

  /** The finding, as written: a complete profile whose activity was never chosen passes
      both `validateCore` and the step-1 gate. */
  lemma UnsetActivityAcceptedAsWritten()
    ensures var s := Initial.(sex := Some(Male), age := Some(30.0), height := Some(180.0),
                              weight := Some(80.0), goal := Some(Cut), step := 1.0);
            && s.activity.None?
            && ValidateCoreAsWritten(s) && CanGoNextAsWritten(s)
            && !ValidateCore(s) && !CanGoNext(s)
  {
  }

  /** The corrected gates differ from the written ones only on an unset activity. */
  lemma CorrectedGatesDifferOnlyOnUnsetActivity(s: State)
    requires s.activity.Some?
    ensures ValidateCore(s) == ValidateCoreAsWritten(s)
    ensures CanGoNext(s) == CanGoNextAsWritten(s)
  {
  }
}
