# Nutrition-plan engine of `app.js`, in Dafny

This project models the calculation core of a single-page nutrition planner. From a profile (sex, age, height, weight, activity factor) and a goal (cut, maintain or bulk, with a pace in kg per week), `calcPlan` derives:

- the basal metabolic rate;
- the total energy expenditure;
- the daily energy adjustment and a rounded kcal target;
- protein, fat and carbohydrate grams;
- a 0–100 coherence score;
- an ordered list of warnings.

Around the engine, the model covers the following:

- the validation gates;
- the per-goal defaults and how they are filled into unset settings;
- the small rules the page applies to its global `state`: the stepper, the mode switch, the pace defaults and the sanitising of an imported settings file.

Modules, one per part of the program:

- `Numeric`: `clamp`, `Math.round` as `Floor(x + 0.5)`, and `Math.ceil`, with their lemmas.
- `Types`: the `state` record. An unset field is `None`. `Number(null)` is 0.
- `Defaults`: `defaultsFor`, and `applyAutoDefaultsIfMissing` as a function on values.
- `Validation`: `validateCore` and `canGoNext`.
- `Coherence`: `computeCoherence`, which works imperatively over a local score, and its reference function. It also holds the label and ring bands.
- `Engine`: `calcPlan`, as methods. They compute in floats first, then reconcile in whole grams, then push the warnings. Each method's contract states what its result means: bounds, floors, the energy balance, and the warnings predicate.
- `StateRules`: the state rules written as functions from the old state to the new one.
- `Controller.App`: a class that holds `state` and has the handlers that update it in place. Each handler's new state is stated with the `StateRules` and `Defaults` functions.

All arithmetic is on exact reals. The profile and settings are an explicit `State` value, not a global.

Facts about the code that the model makes explicit:

- **Reference scenario.** A man of 30 years, 180 cm and 80 kg, activity 1.55, cutting at 0.5 kg/week, gets BMR 1780, TDEE 2759 and a target of 2209 kcal (`Engine.ReferenceScenario`).
- **Monotonicity.** Because the target is rounded, a faster cut lowers it strictly only for pace steps of at least 1/1100 kg/week. Smaller steps can leave it unchanged (`Engine.TargetMonotoneInPace`, `Engine.SmallPaceChangeKeepsTarget`).
- **Pace.** `validateCore` never reads the pace. Only the step-2 gate of `canGoNext` checks it (`Validation.ValidateCoreIgnoresPace`).
- **Activity.** The activity check is only `Number.isFinite(Number(state.activity))`. It also accepts an activity that was never chosen (see Findings).
- **Redrawn paces.** `render` puts the pace back in [0.10, 1.00] for a cut and [0.10, 0.50] for a bulk before it calls `calcPlan`. A painted plan therefore never has a deficit above 1100 kcal or a surplus above 550. Its coherence score is at least 13, and the high-surplus warning (surplus above 600 kcal) never appears (`StateRules.RedrawnPlanBounds`).

## Model

| member | source | states |
|---|---|---|
| `Numeric.Clamp` | app.js:124 | the result lies in [lo, hi]; a value already in range is unchanged; below the range gives lo and above gives hi (for lo ≤ hi) |
| `Numeric.ClampInt` | app.js:124 | `clamp` on integers, as applied to the coherence score at app.js:541: the result lies in [lo, hi], an in-range value is kept, and out-of-range values go to the nearer end |
| `Numeric.Ceil` | app.js:476 | `Math.ceil` returns the least integer not below x |
| `Numeric.Round` | app.js:125 | `Math.round` returns the integer within half a unit of x, with halves going up |
| `Numeric.RoundShift` | app.js:125 | rounding commutes with adding an integer |
| `Numeric.RoundMonotone` | app.js:125 | rounding never reverses the order of two values |
| `Numeric.RoundStrict` | app.js:125 | values at least 1 apart round to different integers |
| `Defaults.WeightOrDefault` | app.js:164 | an unset or zero weight counts as exactly 80 kg; any other weight is kept; the result is never 0 |
| `Defaults.WaterDefault` | app.js:164-198 | the water default lies in [2, 6] litres, is a whole number of tenths; it is 2 when 35 ml/kg falls below 2 litres and 6 when it goes above 6; in between it lies in (−0.05, +0.05] of 35 ml/kg, so halves round up |
| `Defaults.DefaultsFor` | app.js:162-201 | protein is 1.6 g/kg exactly for a cut and 1.5 otherwise; the fat floor is 0.7; the carb floor is 1.0 for a cut, 1.5 for a bulk and 1.2 otherwise; fiber is 25 for a woman and 30 otherwise; sodium is 2500; every per-kg value lies inside the clamp ranges of `calcPlan` |
| `Defaults.AutoDefaults` | app.js:203-213 | defines the fill as a function: without a goal the state is returned unchanged; otherwise each unset advanced setting gets its `defaultsFor` value; properties in the four lemmas below |
| `Defaults.AutoDefaultsWithoutGoal` | app.js:204 | without a goal nothing is filled in |
| `Defaults.AutoDefaultsOnlyFillsUnset` | app.js:207-212 | only unset advanced settings change; set ones and every other field stay as they were |
| `Defaults.AutoDefaultsFillsFromTable` | app.js:205-212 | with a goal, each unset setting receives the `defaultsFor` value for the goal, sex and weight |
| `Defaults.AutoDefaultsIdempotent` | app.js:203-213 | filling twice is the same as filling once |
| `Validation.ValidateCoreAsWritten` | app.js:315-355 | defines the gate as written: sex set, age in [10, 90], height in [120, 220], weight in [35, 250], the `Number.isFinite` activity check (always true on the model's values) and a goal set; its consequences are `Validation.UnsetActivityAcceptedAsWritten` and `Validation.CorrectedGatesDifferOnlyOnUnsetActivity` |
| `Validation.ValidateCore` | app.js:315-355 | defines the corrected gate: the same checks, with the activity required to be chosen; properties in `Validation.StepGatesImplyValid`, `Validation.ValidPassesProfileAndActivityGates` and `Validation.CorrectedGatesDifferOnlyOnUnsetActivity` |
| `Validation.CanGoNextAsWritten` | app.js:357-385 | defines the per-step gate as written: step 0 checks the profile ranges, step 1 the `Number.isFinite` activity check, step 2 a goal and, unless maintain, a positive pace; every other step passes |
| `Validation.CanGoNext` | app.js:357-385 | defines the corrected per-step gate, with step 1 requiring a chosen activity; properties in `Validation.ValidPassesProfileAndActivityGates` and `StateRules.FractionalStepPassesEveryGate` |
| `Validation.StepGatesImplyValid` | app.js:315-385 | passing the gates of steps 0, 1 and 2 implies the profile validates |
| `Validation.ValidPassesProfileAndActivityGates` | app.js:357-385 | a valid profile passes the gates of steps 0 and 1, and passes step 2 exactly when its goal is maintain or its pace is positive |
| `Validation.ValidateCoreIgnoresPace` | app.js:315-355 | a cut with a negative pace validates, yet cannot leave step 2 |
| `Validation.InitialStateIsInvalid` | app.js:134-157 | the initial state yields no plan |
| `Validation.UnsetActivityAcceptedAsWritten` | app.js:343-347 | as written, a complete profile whose activity was never chosen passes `validateCore` and the step-1 gate |
| `Validation.CorrectedGatesDifferOnlyOnUnsetActivity` | app.js:343-347 | the corrected gates agree with the written ones whenever an activity is set |
| `Coherence.ComputeCoherence` | app.js:513-542 | the if-chain decrements give a score in [0, 100] equal to 100 less the sum of the independent deductions, clamped |
| `Coherence.DeltaPenaltyBands` | app.js:516-529 | at most one deficit band or one surplus band applies, checked in the source's order; names the deduction for every interval of the delta |
| `Coherence.DeltaPenaltyEdges` | app.js:518-528 | the band edges are strict: a deficit of exactly 1100 falls in the >900 band, exactly 900 and exactly 120 fall in no band |
| `Coherence.ScoreBeforeClamp` | app.js:513-542 | the unclamped score lies in [−4, 100], so only the lower clamp can act |
| `Coherence.CoherenceScore` | app.js:513-542 | defines the reference score: 100 less the deficit or surplus band, the protein, fat and carb deductions and the below-BMR deduction, clamped to [0, 100]; `Coherence.ComputeCoherence` is proved equal to it |
| `Coherence.ScoreFloorWithinRedrawnDelta` | app.js:513-542 | for a deficit of at most 1100 kcal or a surplus of at most 550, the delta deduction is at most 18 (12 for a surplus), the lower clamp never acts, and the score is at least 13 |
| `Coherence.PerfectScore` | app.js:513-542 | the score is 100 exactly when no deduction applies, with each condition spelled out |
| `Coherence.LabelFor` | app.js:728 | defines the label bands: "good balance" from 80, "to optimise" from 60, "to correct" below; properties in `Coherence.LabelMonotone` and `Coherence.RingAndLabelAgree` |
| `Coherence.RingToneFor` | app.js:708-711 | defines the ring bands: alarm below 55, caution below 75, calm otherwise; related to the label by `Coherence.RingAndLabelAgree` |
| `Coherence.LabelMonotone` | app.js:728 | a higher score never gets a worse label |
| `Coherence.RingAndLabelAgree` | app.js:708-711 | an alarm ring always carries the "to correct" label, and a "good balance" label always a calm ring |
| `Engine.Bmr` | app.js:398-401 | defines the Mifflin–St Jeor rate, +5 for a man and −161 otherwise; properties in `Engine.BmrProperties` and `Engine.ReferenceScenario` |
| `Engine.Tdee` | app.js:403 | defines TDEE as the rate times the activity factor; `Engine.ReferenceScenario` and `Engine.UnsetActivityGivesNegativeTarget` evaluate it |
| `Engine.GoalDelta` | app.js:405-413 | the delta is −1100·pace for a cut, +1100·pace for a bulk, and 0 otherwise |
| `Engine.BmrProperties` | app.js:399-401 | the male and female rates differ by 166 kcal; over the validated ranges the rate is at least 489 kcal |
| `Engine.TargetMonotoneInPace` | app.js:405-416 | maintain ignores the pace; a faster cut never raises the target and a faster bulk never lowers it; a pace step of at least 1/1100 kg/week changes the target strictly |
| `Engine.SmallPaceChangeKeepsTarget` | app.js:416 | a pace change of 0.0001 kg/week can leave the rounded target unchanged |
| `Engine.ReferenceScenario` | app.js:396-416 | the reference scenario gives BMR 1780, TDEE 2759, delta −550 and target 2209 |
| `Engine.UnsetActivityGivesNegativeTarget` | app.js:396-416 | as written, an unset activity makes TDEE 0 and, for a cut at 0.5 kg/week, the target −550 |
| `Engine.FatPerKgTarget` | app.js:440-443 | the fat target lies in [fatMin, fatMin + 0.25]; it equals the floor exactly for a "high" or unknown profile, the floor + 0.25 exactly for "low", and the floor + 0.10 for "balanced" |
| `Engine.MacroParamsOf` | app.js:421-431 | the parameters lie in protein [1.2, 3], fat floor [0.4, 1.4] and carb floor [0, 4]; they are the defaults in simple mode; in advanced mode an in-range setting is used unchanged and an out-of-range one goes to the nearest end of its range; the fat target is `FatPerKgTarget` of the carb profile and the clamped fat floor |
| `Engine.FloatSolve` | app.js:446-462 | protein is w·protein; fat is never below its floor and is either its target or the floor; carbs are the non-negative remainder; fat stays above its floor only where the carb floor is met, and is lowered only where the carb floor would be missed |
| `Engine.CarbsFor` | app.js:467 | carbs are never negative; whenever they are positive the macros' energy is within (−2, +2] kcal of the target, so a half gram of carbs rounds up; they are 0 only when protein and fat leave at most 1 kcal of the target over |
| `Engine.CarbsForAntitoneInFat` | app.js:467 | less fat never means fewer carbs |
| `Engine.FreedFatRaisesRemainder` | app.js:472-478 | cutting at least ceil(4n/9) g of fat raises the carb remainder by at least n g |
| `Engine.Reconcile` | app.js:464-479 | protein is the rounded float; carbs are the remainder of the final fat; fat is cut exactly when carbs miss their rounded floor and fat has room; the cut stays within min(fat − fatMin, ceil(4·shortfall/9)) and uses the smaller allowance in full; carbs never drop; the carb floor is met when there is room; fat stays at or above round(w·fatMin) |
| `Engine.KindAt` | app.js:485-502 | the i-th warning kind has rank i |
| `Engine.PushStep` | app.js:485-502 | pushing the next kind's warning, if its condition holds, extends a correct prefix of the list by one kind |
| `Engine.WarningsBelowSound` | app.js:485-502 | the list built from the first n kinds is in order, holds only warnings whose conditions hold, and holds every such warning of those kinds |
| `Engine.CollectWarnings` | app.js:482-502 | the pushes give the list in the fixed order, each warning present exactly when its condition holds and with its severity |
| `Engine.StrictlyRankedUnique` | app.js:482-502 | two lists in the fixed order with the same elements are equal |
| `Engine.WarningsForUnique` | app.js:482-502 | the order and the conditions determine the warnings list completely |
| `Engine.WarningsAgreeWithCoherence` | app.js:491-498 | an aggressive-deficit warning always comes with one of the two largest deficit deductions; the below-BMR warning comes exactly with the below-BMR deduction |
| `Engine.PlanFor` | app.js:389-511 | defines the plan of a state: the profile validates, and the plan has the Mifflin–St Jeor BMR, TDEE = BMR·activity, the goal delta, target = round(TDEE + delta); protein is round(w·protein); fat lies between round(w·fatMin) and round(max(w·fatTarget, w·fatMin)); carbs are the non-negative remainder, within (−2, +2] kcal of the target when positive; the coherence score is in [0, 100]; the warnings are exactly those whose conditions hold, in order; fiber, water and sodium are the defaults in simple mode and the filled settings otherwise |
| `Engine.CalcPlan` | app.js:389-511 | a plan exists exactly when the profile validates, and it is then the plan `Engine.PlanFor` describes |
| `StateRules.PanelStep` | app.js:245 | the step lies in [0, 3]; an in-range step is kept; out-of-range steps go to the nearest end |
| `StateRules.BackStep` | app.js:1075-1077 | defines the back button's step: the clamped previous panel; properties in `StateRules.NavigationStaysOnPanels` |
| `StateRules.NextStep` | app.js:1078-1091 | defines the next button's step: unchanged on the last panel or when the current gate fails, else the clamped next panel; properties in `StateRules.NavigationStaysOnPanels` and `StateRules.ForwardNeedsGate` |
| `StateRules.JumpStep` | app.js:1093-1100 | defines a step marker's step: unchanged when moving forward past a failing gate, else the clamped target; properties in `StateRules.ForwardNeedsGate` and `StateRules.JumpChecksOnlyCurrentGate` |
| `StateRules.NavigationStaysOnPanels` | app.js:1075-1101 | every stepper button keeps the step on a panel; the back button never moves forward and steps back by exactly one from step 1 or higher |
| `StateRules.ForwardNeedsGate` | app.js:1078-1101 | the next button moves forward exactly when not on the last panel and the current gate passes, and then to the next step, capped at the last panel; a step marker moves forward only past the current gate |
| `StateRules.JumpChecksOnlyCurrentGate` | app.js:1093-1100 | a step marker checks only the current gate, so a complete profile can jump from step 0 to the result with no activity and no goal |
| `StateRules.FractionalStepPassesEveryGate` | app.js:357-385 | a step other than 0, 1 and 2 passes the gate whatever the profile |
| `StateRules.WithMode` | app.js:285-297 | the mode change of app.js:285-294 together with the step clamp of app.js:297: it sets the mode, closes the advanced block in simple mode, keeps it as it was in advanced mode, clamps the step, and changes nothing else; the redraw between them never writes the step, and is `Controller.App.SetMode`'s |
| `StateRules.PaceOnGoalChoice` | app.js:1143-1145 | a cut card puts the pace in [0.25, 1.0] and a bulk card in [0.10, 0.50]: an in-range pace is kept, a pace of 0 becomes 0.5 or 0.25, and any other pace goes to the nearer end of the range; other goals keep the pace |
| `StateRules.PaceOnRender` | app.js:586-597 | a redraw keeps the pace exactly when it is in [0.10, 1.00] for a cut or [0.10, 0.50] for a bulk, and otherwise resets it to 0.50 or 0.25; other goals keep the pace |
| `StateRules.RenderKeepsChosenPace` | app.js:1132-1150 | the redraw after a goal card never overrides the pace the card set |
| `StateRules.PaceRulesIdempotent` | app.js:586-597 | both pace rules settle after one application |
| `StateRules.CutRangesDiffer` | app.js:589 | the two cut ranges differ: 0.15 kg/week survives a redraw, but choosing the cut card again raises it to 0.25 |
| `StateRules.RenderedPacePassesGoalGate` | app.js:376-382 | after a redraw, any of the three card goals passes the step-2 pace gate |
| `StateRules.Rendered` | app.js:583-603 | defines the state a redraw leaves: the pace reset by `PaceOnRender`, then `AutoDefaults`; properties in `StateRules.RenderedProperties` |
| `StateRules.RedrawnDeltaRange` | app.js:586-597 | after a redraw a cut's deficit lies in [110, 1100] kcal, a bulk's surplus in [110, 550], and any other goal's delta is 0 |
| `StateRules.RedrawnPlanBounds` | app.js:583-621 | every plan painted after a redraw has a delta in [−1100, 550], a coherence score of at least 13, and no high-surplus warning |
| `StateRules.RenderedProperties` | app.js:583-603 | a redraw changes only the pace and the unset advanced settings, never whether a plan exists, and a second redraw changes nothing |
| `StateRules.GoalChoice` | app.js:1132-1150 | defines a goal card's state: the goal set, the six advanced settings cleared, the pace from `PaceOnGoalChoice`, and the defaults filled; properties in `StateRules.GoalChoiceResetsSettings` and `StateRules.GoalChoiceIsStable` |
| `StateRules.GoalChoiceResetsSettings` | app.js:1132-1150 | a goal card replaces every advanced setting, even one the user had set, by the table value for the new goal; it changes only the goal, the pace and those six settings |
| `StateRules.GoalChoiceIsStable` | app.js:1049-1056 | the redraw that follows a goal card changes nothing more |
| `StateRules.ImportedStep` | app.js:1232 | the imported step lies in [0, 3]; a merged step whose `Number` is 0 or NaN gives 0; an in-range step is kept; a negative step gives 0 and a step above 3 gives 3 |
| `StateRules.ImportedMode` | app.js:1233 | advanced mode is chosen exactly when the file says "advanced" |
| `StateRules.Imported` | app.js:1229-1236 | defines the state an import leaves before its redraw: the merged state with the step and mode sanitised, then `setMode`'s and `showPanel`'s writes; properties in `StateRules.ImportIsSanitised` and `StateRules.ImportOfExportRestores` |
| `StateRules.ImportIsSanitised` | app.js:1229-1237 | after any import the state is on a panel, in the mode the file names or simple, with the advanced block closed in simple mode; every other field is the merged one |
| `StateRules.ImportOfExportRestores` | app.js:1229-1237 | importing the settings of a session that was on a panel, with a consistent mode, gives back that session before the redraw; when the session was already redrawn, the import's redraw changes nothing either, so the handler restores it exactly |
| `Controller.App.constructor` | app.js:134-157 | the page starts from the initial state |
| `Controller.App.ApplyAutoDefaultsIfMissing` | app.js:203-213 | filling the fields one at a time in place gives `AutoDefaults` of the old state |
| `Controller.App.ShowPanel` | app.js:244-245 | the step becomes the clamped request and nothing else changes |
| `Controller.App.NormalizePace` | app.js:586-597 | the pace becomes `PaceOnRender` of the old pace |
| `Controller.App.CalcPlan` | app.js:389-511 | a plan exists exactly when the profile validates; the defaults are then filled into the state; the plan is `Engine.PlanFor` of the state before the filling |
| `Controller.App.Render` | app.js:565-621 | the new state is the pace-normalised, default-filled old state; a plan exists exactly when the profile validates, and it is `Engine.PlanFor` of the new state |
| `Controller.App.SetMode` | app.js:285-298 | the new state is the redraw of `WithMode`, and the class invariant holds |
| `Controller.App.GoBack` | app.js:1075-1077 | the step becomes `BackStep`, and the invariant is kept |
| `Controller.App.GoNext` | app.js:1078-1091 | the step becomes `NextStep`, and the invariant is kept |
| `Controller.App.GoToStep` | app.js:1093-1100 | the step becomes `JumpStep`, and the invariant is kept |
| `Controller.App.ToggleAdvanced` | app.js:1161-1167 | the advanced block flips in advanced mode only, and the invariant is kept |
| `Controller.App.ChooseGoal` | app.js:1132-1150 | the new state is `GoalChoice` of the old one, also after the redraw |
| `Controller.App.Reset` | app.js:1186-1200 | the state returns to the initial one |
| `Controller.App.Import` | app.js:1224-1244 | the new state is the redraw of the sanitised import, and the class invariant holds whatever the file held |

## Left out

- Painting the page is not modelled: the DOM updates of `render`, `showPanel`, `setMode` and the handlers, `animateNumber`, the bars and percentages, the score popover, tooltips and the tour. They only display values.
- The French texts of warnings and validation errors are not modelled. Warnings are modelled by kind and severity only.
- I/O against browser APIs is not modelled: `localStorage` (`save`, `load`, `setDailyPlan`, `renderDailyChip`), the clipboard (`copyPlan`), the canvas (`sharePlanImage`), Blob export, reading the imported file and `JSON.parse`, and `Date` formatting.
  - For import, `Controller.App.Import` receives the merged state and the raw step and mode.
  - A file the parser rejects, which leaves the state unchanged, is not modelled.
- The object spread that merges a loaded or imported file over `state` is not modelled: arbitrary keys and values of arbitrary types. A merged value is a typed `State`. A goal or carb profile outside the known ones is `OtherGoal` / `OtherProfile`.
- `load` is not modelled. It merges storage without sanitising, so the class invariant is stated for the handlers that are modelled.
- The input and segmented-control handlers are not modelled (`onInput`, the sex and carb-profile controls, the activity cards, the pace slider, the advanced inputs). They copy form values into `state` and then redraw. With a goal set, the sex control also clears the six advanced settings and refills them from `defaultsFor` (app.js:1034-1041), as a goal card does.
- sw.js is not part of this model. It is service-worker caching.
- IEEE-754 is not modelled. NaN, infinities and binary rounding (of 0.035·w, 7700/7 or the +0.10 fat step) are replaced by exact reals.
  - The `Number.isFinite` guards on the carb remainder (app.js:453, app.js:461) cannot fail on exact reals and are dropped.
  - `ImportedStep` writes a merged step whose `Number` is NaN as `None`, the same as null or 0. A step missing from the file is the current step after the merge, and arrives as that value.
- Food-log totals, training/rest-day targets and consumption classifiers have no code in the repository's files. They are not modelled.
- `Coherence.ComputeCoherence`: the TDEE that the source passes in is not a parameter, because the source never reads it.
- `Engine.CalcPlan`: the plan it promises, `Engine.PlanFor`, bounds the fat grams between round(w·fatMin) and round(max(w·fatTarget, w·fatMin)). The exact fat value is stated by `Engine.FloatSolve` and `Engine.Reconcile`, which `Engine.CalcPlan` calls. It is not repeated in `Engine.PlanFor`.
- The stepper and the redraw use the corrected activity gate of the Findings, not the one as written. For a complete profile with no activity chosen, the source's next button leaves step 1 and `render` paints a plan whose target is the bare delta. The model's `StateRules.NextStep`, `StateRules.JumpStep` and the `Controller.App` handlers stay on step 1 and paint no plan.

## Findings

| source | as written | input that shows it | evidently intended | confidence | as-written member | corrected member |
|---|---|---|---|---|---|---|
| app.js:343-347 | `validateCore` (and the step-1 gate of `canGoNext`, app.js:370-374) checks the activity with `Number.isFinite(Number(state.activity))`. `Number(null)` is 0, so an activity that was never chosen is accepted. | Male, 30 years, 180 cm, 80 kg, goal cut, activity unset. The profile validates, TDEE is 0 and the target is round(0 − 550) = −550 kcal. | Accept a profile only once an activity factor has been chosen. The step-1 error text "Choisis ton activité." asks for exactly that. | not executed | `Validation.UnsetActivityAcceptedAsWritten`, `Engine.UnsetActivityGivesNegativeTarget` | `Validation.ValidateCore`, `Validation.CanGoNext`, `Validation.CorrectedGatesDifferOnlyOnUnsetActivity`, `Engine.PlanFor`, `Engine.CalcPlan`, `StateRules.NextStep`, `StateRules.JumpStep`, `StateRules.ForwardNeedsGate`, `Controller.App.GoNext`, `Controller.App.GoToStep`, `Controller.App.CalcPlan`, `Controller.App.Render`, `Controller.App.SetMode`, `Controller.App.ChooseGoal`, `Controller.App.Import` |
