/**
 * The in-game clock (src/game/time.rs): an hour counter inside each time
 * of day, the Morning / Afternoon / Night cycle, and the day number, moved
 * on by `ProgressTime` events; and the hours bar the time panel shows.
 */
module Time {
  import opened Types
  import opened GameEvents

  /** Hours per time of day: at this count the time of day moves on. */
  const HOURS_PER_PERIOD: int := 4

  /** The clock's three fields as one value. */
  datatype Clock = Clock(day: int, timeOfDay: TimeOfDay, hoursPassed: int)

  /**
   * One event's effect on the clock (the loop body of `TimeSystem::run`).
   * Only `ProgressTime` matters, whatever its payload: one hour passes, and
   * at the fourth the hour count restarts at 0, the time of day moves on,
   * and the day number rises when that lands on Morning.
   */
  function Tick(c: Clock, e: GameEvent): (r: Clock)
    ensures r.day == c.day || r.day == c.day + 1
    ensures r.timeOfDay == c.timeOfDay || r.timeOfDay == Progress(c.timeOfDay)
  {
    match e
    case ProgressTime(_) =>
      var hours := c.hoursPassed + 1;
      if hours >= HOURS_PER_PERIOD then
        var t := Progress(c.timeOfDay);
        Clock(if t == Morning then c.day + 1 else c.day, t, 0)
      else
        c.(hoursPassed := hours)
    case _ => c
  }

  /** The clock after reading `events` in order. */
  function Replay(c: Clock, events: seq<GameEvent>): (r: Clock)
    ensures c.day <= r.day <= c.day + |events|
  {
    if events == [] then c else Tick(Replay(c, events[..|events| - 1]), events[|events| - 1])
  }

  /** The clock the system keeps between ticks: the hour count is within 0..4. */
  predicate HoursInRange(c: Clock) {
    0 <= c.hoursPassed <= HOURS_PER_PERIOD
  }

  /**
   * What one event does, stated against the clock before it: after a
   * `ProgressTime` the hour count is within 0..3 and either just rose by
   * one within the same period, or restarted at 0 with the time of day
   * moved on and the day number up by one exactly when that is Morning;
   * any other event leaves the clock alone.
   */
  lemma TickSpec(c: Clock, e: GameEvent)
    requires HoursInRange(c)
    ensures var n := Tick(c, e);
      && HoursInRange(n)
      && (!e.ProgressTime? ==> n == c)
      && (e.ProgressTime? ==> 0 <= n.hoursPassed < HOURS_PER_PERIOD)
      && (e.ProgressTime? && c.hoursPassed + 1 < HOURS_PER_PERIOD ==>
            n == Clock(c.day, c.timeOfDay, c.hoursPassed + 1))
      && (e.ProgressTime? && c.hoursPassed + 1 >= HOURS_PER_PERIOD ==>
            n.hoursPassed == 0 && n.timeOfDay == Progress(c.timeOfDay))
      && (n.day == c.day + 1 <==> e.ProgressTime? && c.hoursPassed + 1 >= HOURS_PER_PERIOD && c.timeOfDay == Night)
      && (n.day != c.day + 1 ==> n.day == c.day)
  {
  }

  /** Reading more events never leaves the range, and the day number never falls. */
  lemma {:induction false} ReplayInRange(c: Clock, events: seq<GameEvent>)
    requires HoursInRange(c)
    ensures HoursInRange(Replay(c, events))
    ensures c.day <= Replay(c, events).day <= c.day + |events|
  {
    if events != [] {
      var init := events[..|events| - 1];
      ReplayInRange(c, init);
      TickSpec(Replay(c, init), events[|events| - 1]);
    }
  }

  /** Reading two batches of events is reading the first, then the second. */
  lemma {:induction false} ReplayAppend(c: Clock, a: seq<GameEvent>, b: seq<GameEvent>)
    ensures Replay(c, a + b) == Replay(Replay(c, a), b)
  {
    if b == [] {
      assert a + b == a;
    } else {
      ReplayAppend(c, a, b[..|b| - 1]);
      assert (a + b)[..|a + b| - 1] == a + b[..|b| - 1];
      assert (a + b)[|a + b| - 1] == b[|b| - 1];
    }
  }

  /** Events other than `ProgressTime` leave the clock alone, however many there are. */
  lemma {:induction false} ReplayOthers(c: Clock, events: seq<GameEvent>)
    requires forall i :: 0 <= i < |events| ==> !events[i].ProgressTime?
    ensures Replay(c, events) == c
  {
    if events != [] {
      ReplayOthers(c, events[..|events| - 1]);
    }
  }

  /** From the start of a period, four hours move to the start of the next. */
  lemma Period(c: Clock, events: seq<GameEvent>)
    requires c.hoursPassed == 0
    requires |events| == 4 && forall i :: 0 <= i < 4 ==> events[i].ProgressTime?
    ensures Replay(c, events) == Tick(c.(hoursPassed := HOURS_PER_PERIOD - 1), events[3])
  {
    assert events[..1][..0] == [] && events[..2][..1] == events[..1];
    assert events[..3][..2] == events[..2] && events[..4] == events;
    assert Replay(c, events[..1]) == c.(hoursPassed := 1);
    assert Replay(c, events[..2]) == c.(hoursPassed := 2);
    assert Replay(c, events[..3]) == c.(hoursPassed := 3);
  }

  /**
   * From the start of any period, twelve hours make a full day: the same
   * time of day comes round again, on the next day.
   */
  lemma FullDay(c: Clock, events: seq<GameEvent>)
    requires c.hoursPassed == 0
    requires |events| == 12 && forall i :: 0 <= i < 12 ==> events[i].ProgressTime?
    ensures Replay(c, events) == Clock(c.day + 1, c.timeOfDay, 0)
  {
    var a, b, d := events[..4], events[4..8], events[8..];
    assert events == a + b + d;
    ReplayAppend(c, a + b, d);
    ReplayAppend(c, a, b);
    Period(c, a);
    var c1 := Replay(c, a);
    Period(c1, b);
    var c2 := Replay(c1, b);
    Period(c2, d);
    ProgressCycle(c.timeOfDay);
  }

  /** `TimeState`: the clock resource. */
  class TimeState {
    var day: int
    var timeOfDay: TimeOfDay
    var hoursPassed: int

    function Current(): Clock
      reads this
    {
      Clock(day, timeOfDay, hoursPassed)
    }

    /** `TimeState::new`: day 1, Morning, with the hour count already at 4. */
    constructor ()
      ensures Current() == Clock(1, Morning, 4)
      ensures HoursInRange(Current())
    {
      day, timeOfDay, hoursPassed := 1, Morning, 4;
    }
  }

  /**
   * `TimeSystem::run`: reads the tick's game events in order and moves the
   * clock on as `Replay` says.
   */
  method RunTimeSystem(time: TimeState, events: seq<GameEvent>)
    modifies time
    ensures time.Current() == Replay(old(time.Current()), events)
  {
    var i := 0;
    while i < |events|
      invariant i <= |events|
      invariant time.Current() == Replay(old(time.Current()), events[..i])
    {
      assert events[..i + 1][..i] == events[..i];
      match events[i] {
        case ProgressTime(_) =>
          time.hoursPassed := time.hoursPassed + 1;
          if time.hoursPassed >= HOURS_PER_PERIOD {
            time.hoursPassed := 0;
            time.timeOfDay := Progress(time.timeOfDay);
            if time.timeOfDay == Morning {
              time.day := time.day + 1;
            }
          }
        case _ =>
      }
      i := i + 1;
    }
    assert events[..i] == events;
  }

  /**
   * The hours bar of the time panel (`TimeInfoRenderSystem::run`): segment
   * `h` of the bar for hour counts 0 to 3, and the full bar otherwise.
   */
  function HoursBarRegion(hoursPassed: int): (r: SpriteRegion)
    ensures 0 <= hoursPassed < HOURS_PER_PERIOD ==> r == SpriteRegion(320, 64 * hoursPassed, 288, 64)
    ensures !(0 <= hoursPassed < HOURS_PER_PERIOD) ==> r == SpriteRegion(320, 256, 288, 64)
  {
    match hoursPassed
    case 0 => SpriteRegion(320, 0, 288, 64)
    case 1 => SpriteRegion(320, 64, 288, 64)
    case 2 => SpriteRegion(320, 128, 288, 64)
    case 3 => SpriteRegion(320, 192, 288, 64)
    case _ => SpriteRegion(320, 256, 288, 64)
  }

  /**
   * A new game starts with the hour count at 4: the bar is full, and the
   * first hour that passes already ends the first Morning.
   */
  lemma NewGameFirstHour(e: GameEvent)
    requires e.ProgressTime?
    ensures HoursBarRegion(Clock(1, Morning, 4).hoursPassed) == SpriteRegion(320, 256, 288, 64)
    ensures Tick(Clock(1, Morning, 4), e) == Clock(1, Afternoon, 0)
  {
  }
}
