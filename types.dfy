/** The application state that app.js keeps in its global `state` object (lines 134-157),
    as a typed record. A `null` field is `None`; every number is an exact real. */
module Types {

  datatype Option<+T> = None | Some(value: T)

  /** `"male"` or `"female"`; any other value (null, an imported string) is `None`. */
  datatype Sex = Male | Female

  /** `state.goal`: `None` is the falsy value (null or the empty string); `OtherGoal` is any
      other non-empty string, which only an imported settings file can produce. */
  datatype Goal = Cut | Maintain | Bulk | OtherGoal

  /** `state.carbProfile`; `OtherProfile` is any value outside the three known ones. */
  datatype CarbProfile = Low | Balanced | High | OtherProfile

  datatype Mode = Simple | Advanced

  datatype State = State(
    mode: Mode,
    step: real,
    sex: Option<Sex>,
    age: Option<real>,
    height: Option<real>,
    weight: Option<real>,
    activity: Option<real>,
    goal: Option<Goal>,
    pace: real,
    advancedOpen: bool,
    carbProfile: CarbProfile,
    proteinPerKg: Option<real>,
    fatMinPerKg: Option<real>,
    carbMinPerKg: Option<real>,
    fiber: Option<real>,
    water: Option<real>,
    sodium: Option<real>)

  /** JavaScript `Number(v)` of a nullable number: `Number(null)` is 0. */
  function NumberOf(v: Option<real>): real
  {
    match v
    case None => 0.0
    case Some(x) => x
  }

  /** The state the page starts from, and the one the reset button restores. */
  const Initial: State := State(
    mode := Simple, step := 0.0,
    sex := None, age := None, height := None, weight := None,
    activity := None, goal := None, pace := 0.5,
    advancedOpen := false, carbProfile := Balanced,
    proteinPerKg := None, fatMinPerKg := None, carbMinPerKg := None,
    fiber := None, water := None, sodium := None)
}
