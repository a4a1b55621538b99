/**
 * The player's stock (src/game/stats.rs): sanity, food, gas and parts, of
 * which the stats system consumes one food per new day.
 */
module Stats {
  import opened GameEvents

  /** The number of `NewDayStarted` events in `events`, whatever their payload. */
  function NewDays(events: seq<GameEvent>): (n: nat)
    ensures n <= |events|
  {
    if events == [] then 0
    else NewDays(events[..|events| - 1]) + (if events[|events| - 1].NewDayStarted? then 1 else 0)
  }

  /** Counting two batches of events is counting each. */
  lemma {:induction false} NewDaysAppend(a: seq<GameEvent>, b: seq<GameEvent>)
    ensures NewDays(a + b) == NewDays(a) + NewDays(b)
  {
    if b == [] {
      assert a + b == a;
    } else {
      NewDaysAppend(a, b[..|b| - 1]);
      assert (a + b)[..|a + b| - 1] == a + b[..|b| - 1];
      assert (a + b)[|a + b| - 1] == b[|b| - 1];
    }
  }

  /** A batch with no new day counts nothing; a batch of new days counts each one. */
  lemma {:induction false} NewDaysExtremes(events: seq<GameEvent>)
    ensures (forall i :: 0 <= i < |events| ==> !events[i].NewDayStarted?) ==> NewDays(events) == 0
    ensures (forall i :: 0 <= i < |events| ==> events[i].NewDayStarted?) ==> NewDays(events) == |events|
  {
    if events != [] {
      NewDaysExtremes(events[..|events| - 1]);
    }
  }

  /** `StatsState`: the player's stock, as i32 counters. */
  class StatsState {
    var sanity: int
    var food: int
    var gas: int
    var parts: int

    /** `StatsState::new`: sanity 10, food 15, gas 10, parts 5. */
    constructor ()
      ensures sanity == 10 && food == 15 && gas == 10 && parts == 5
    {
      sanity, food, gas, parts := 10, 15, 10, 5;
    }
  }

  /**
   * `StatsSystem::run`: each `NewDayStarted` costs one food, with no floor
   * (food may reach zero and go below); nothing else changes.
   */
  method RunStatsSystem(stats: StatsState, events: seq<GameEvent>)
    modifies stats
    ensures stats.food == old(stats.food) - NewDays(events)
    ensures stats.sanity == old(stats.sanity) && stats.gas == old(stats.gas) && stats.parts == old(stats.parts)
  {
    var i := 0;
    while i < |events|
      invariant i <= |events|
      invariant stats.food == old(stats.food) - NewDays(events[..i])
      invariant stats.sanity == old(stats.sanity) && stats.gas == old(stats.gas) && stats.parts == old(stats.parts)
    {
      assert events[..i + 1][..i] == events[..i];
      match events[i] {
        case NewDayStarted(_) =>
          stats.food := stats.food - 1;
        case _ =>
      }
      i := i + 1;
    }
    assert events[..i] == events;
  }
}
