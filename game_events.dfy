/**
 * The time of day (src/game/time.rs, `TimeOfDay`) and the game-wide event
 * stream the game systems read and write (src/game/mod.rs, `GameEvent`).
 */
module GameEvents {

  datatype TimeOfDay = Morning | Afternoon | Night

  /** `TimeOfDay::progress`: Morning, then Afternoon, then Night, then Morning again. */
  function Progress(t: TimeOfDay): (r: TimeOfDay)
    ensures r != t
  {
    if t == Morning then Afternoon
    else if t == Afternoon then Night
    else Morning
  }

  /** Three steps of the cycle bring every time of day back to itself. */
  lemma ProgressCycle(t: TimeOfDay)
    ensures Progress(Progress(Progress(t))) == t
    ensures Progress(t) != t && Progress(Progress(t)) != t
  {
  }

  /** Every time of day is reached from exactly one other. */
  lemma ProgressInjective(a: TimeOfDay, b: TimeOfDay)
    ensures Progress(a) == Progress(b) <==> a == b
  {
  }

  /** `Display for TimeOfDay`: the name the day panel shows. */
  function Name(t: TimeOfDay): (s: string)
    ensures |s| > 0
  {
    match t
    case Morning => "Morning"
    case Afternoon => "Afternoon"
    case Night => "Night"
  }

  /** Different times of day show different names. */
  lemma NameInjective(a: TimeOfDay, b: TimeOfDay)
    ensures Name(a) == Name(b) <==> a == b
  {
    if a != b {
      assert Name(a)[0] != Name(b)[0] || |Name(a)| != |Name(b)|;
    }
  }

  /**
   * `GameEvent`. The payload of `HandleStatEffects` is a list of
   * `StatEffect`, a type that is not part of this model; it is dropped.
   */
  datatype GameEvent =
    | NewGameStarted
    | NewDayStarted(day: int)
    | NewTimeOfDayStarted(timeOfDay: TimeOfDay)
    | ProgressTime(hours: int)
    | HandleStatEffects
    | MerchantArrived
    | GameOver
    | FinalDayGameWin
    | RefreshActivities
    | ActivityGoFishing
    | ActivityPerformMaintenance
    | ActivityPrayToJand
    | ActivityDrinkAlcobev
    | ActivityHuntRats
    | ActivityTinker
}
