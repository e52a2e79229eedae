/** The page's global `state` (app.js:134-157) and the handlers that update it in place:
    `applyAutoDefaultsIfMissing`, `showPanel`, `setMode`, the stepper buttons, the
    advanced-block toggle, the goal cards, reset, import, and the state side of `render`
    and `calcPlan`. Painting the page and saving to storage are not modelled. Each method
    is specified by the rule of the same name in `StateRules` or `Defaults`. */
module Controller {
  import opened Types
  import opened Numeric
  import opened Defaults
  import opened Validation
  import opened StateRules
  import Engine

  class App {
    var st: State

    /** What every handler keeps: the step is one of the panels, and simple mode never has
        the advanced block open. */
    ghost predicate Valid()
      reads this
    {
      && 0.0 <= st.step <= LastStep
      && (st.mode == Simple ==> !st.advancedOpen)
    }

    constructor ()
      ensures st == Initial && Valid()
    {
      st := Initial;
    }

    /** Fills each unset advanced setting from `defaultsFor`, one field at a time. */
    method ApplyAutoDefaultsIfMissing()
      modifies this
      ensures st == AutoDefaults(old(st))
    {
      if st.goal.None? {
        return;
      }
      var d := DefaultsFor(st.goal, st.sex, st.weight);
      if st.proteinPerKg.None? { st := st.(proteinPerKg := Some(d.proteinPerKg)); }
      if st.fatMinPerKg.None? { st := st.(fatMinPerKg := Some(d.fatMinPerKg)); }
      if st.carbMinPerKg.None? { st := st.(carbMinPerKg := Some(d.carbMinPerKg)); }
      if st.fiber.None? { st := st.(fiber := Some(d.fiber)); }
      if st.water.None? { st := st.(water := Some(d.water)); }
      if st.sodium.None? { st := st.(sodium := Some(d.sodium)); }
    }

    method ShowPanel(step: real)
      modifies this
      ensures st == old(st).(step := PanelStep(step))
      ensures old(st.mode == Simple ==> !st.advancedOpen) ==> Valid()
    {
      st := st.(step := PanelStep(step));
    }

    /** The pace part of `render`. */
    method NormalizePace()
      modifies this
      ensures st == old(st).(pace := PaceOnRender(old(st).goal, old(st).pace))
    {
      if st.goal == Some(Cut) {
        if st.pace < 0.10 || st.pace > 1.00 { st := st.(pace := 0.50); }
      } else if st.goal == Some(Bulk) {
        if st.pace < 0.10 || st.pace > 0.50 { st := st.(pace := 0.25); }
      }
    }

    /** `calcPlan` as the page runs it: after validation it fills the missing defaults
        into the state, then computes the plan of the state it was called on. */
    method CalcPlan() returns (plan: Option<Engine.Plan>)
      modifies this
      ensures plan.Some? <==> ValidateCore(old(st))
      ensures st == if ValidateCore(old(st)) then AutoDefaults(old(st)) else old(st)
      ensures plan.Some? ==> Engine.PlanFor(old(st), plan.value)
    {
      if !ValidateCore(st) {
        return None;
      }
      var before := st;
      ApplyAutoDefaultsIfMissing();
      plan := Engine.CalcPlan(before);
    }

    /** The state changes of `render`, and the plan it paints: the plan of the redrawn
        state. */
    method Render() returns (plan: Option<Engine.Plan>)
      modifies this
      ensures st == Rendered(old(st))
      ensures plan.Some? <==> ValidateCore(old(st))
      ensures plan.Some? ==> Engine.PlanFor(st, plan.value)
    {
      NormalizePace();
      ApplyAutoDefaultsIfMissing();
      RenderedProperties(old(st));
      AutoDefaultsIdempotent(st);
      plan := CalcPlan();
    }

    method SetMode(mode: Mode)
      modifies this
      ensures st == Rendered(WithMode(old(st), mode))
      ensures Valid()
    {
      st := st.(mode := mode);
      if mode == Simple {
        st := st.(advancedOpen := false);
      }
      var _ := Render();
      ShowPanel(st.step);
    }

    method GoBack()
      modifies this
      ensures st == old(st).(step := BackStep(old(st)))
      ensures old(Valid()) ==> Valid()
    {
      ShowPanel(st.step - 1.0);
    }

    method GoNext()
      modifies this
      ensures st == old(st).(step := NextStep(old(st)))
      ensures old(Valid()) ==> Valid()
    {
      if st.step == LastStep {
        return;
      }
      if !CanGoNext(st) {
        return;
      }
      ShowPanel(st.step + 1.0);
    }

    method GoToStep(target: real)
      modifies this
      ensures st == old(st).(step := JumpStep(old(st), target))
      ensures old(Valid()) ==> Valid()
    {
      if target > st.step && !CanGoNext(st) {
        return;
      }
      ShowPanel(target);
    }

    /** The collapse button opens or closes the advanced block, in advanced mode only. */
    method ToggleAdvanced()
      modifies this
      ensures st == if old(st).mode == Simple then old(st)
                    else old(st).(advancedOpen := !old(st).advancedOpen)
      ensures old(Valid()) ==> Valid()
    {
      if st.mode == Simple {
        return;
      }
      st := st.(advancedOpen := !st.advancedOpen);
    }

    /** A goal card, followed by the redraw every card triggers. */
    method ChooseGoal(goal: Goal)
      modifies this
      ensures st == GoalChoice(old(st), goal)
      ensures old(Valid()) ==> Valid()
    {
      st := st.(goal := Some(goal));
      st := st.(proteinPerKg := None, fatMinPerKg := None, carbMinPerKg := None);
      st := st.(fiber := None, water := None, sodium := None);
      if goal == Cut {
        st := st.(pace := Clamp(OrElse(st.pace, 0.5), 0.25, 1.0));
      }
      if goal == Bulk {
        st := st.(pace := Clamp(OrElse(st.pace, 0.25), 0.10, 0.50));
      }
      ApplyAutoDefaultsIfMissing();
      GoalChoiceIsStable(old(st), goal);
      var _ := Render();
    }

    /** The reset button: back to the initial settings. */
    method Reset()
      modifies this
      ensures st == Initial && Valid()
    {
      st := Initial;
      SetMode(Simple);
      ShowPanel(0.0);
      var _ := Render();
    }

    /** An imported settings file, already merged over the state: the step and the mode
        are sanitised, then `setMode`, `showPanel` and `render` run. */
    method Import(merged: State, rawStep: Option<real>, rawMode: string)
      modifies this
      ensures st == Rendered(Imported(merged, rawStep, rawMode))
      ensures Valid()
    {
      st := merged;
      st := st.(step := ImportedStep(rawStep));
      st := st.(mode := ImportedMode(rawMode));
      SetMode(st.mode);
      ShowPanel(st.step);
      RenderedProperties(Imported(merged, rawStep, rawMode));
      var _ := Render();
    }
  }
}
