/**
 * Hover tracking for clickable entities (src/game/clickable.rs): each tick
 * the entities under the mouse are collected into a hit set, and every
 * clickable component moves between Normal and Hovered accordingly. The
 * hit set, which the source obtains from the physics world, is an input.
 */
module Clickable {

  datatype ClickableState = Normal | Hovered | Clicked

  /** One component's transition, given whether its entity is under the mouse. */
  function Next(s: ClickableState, hit: bool): (r: ClickableState)
    ensures hit ==> r != Normal
    ensures !hit ==> r != Hovered
  {
    if hit then (if s == Normal then Hovered else s)
    else (if s == Hovered then Normal else s)
  }

  /**
   * The hover rule: Clicked is never entered or left; any other state
   * becomes Hovered when hit and Normal when not; and a second pass with
   * the same hit changes nothing.
   */
  lemma NextSpec(s: ClickableState, hit: bool)
    ensures s == Clicked <==> Next(s, hit) == Clicked
    ensures s != Clicked ==> Next(s, hit) == (if hit then Hovered else Normal)
    ensures Next(Next(s, hit), hit) == Next(s, hit)
  {
  }

  class ClickableComponent {
    var state: ClickableState

    /** `ClickableComponent::new`: Normal. */
    constructor ()
      ensures state == Normal
    {
      state := Normal;
    }
  }

  /**
   * `ClickableSystem::run`: gathers the ids of the entities hit by the
   * mouse into a set, then updates each entity's component (`ids[i]` is
   * the id of the entity owning `clickables[i]`; every entity has its own
   * component) from its own state and its own hit alone.
   */
  method RunClickableSystem(ids: seq<nat>, clickables: seq<ClickableComponent>, hits: seq<nat>)
    requires |ids| == |clickables|
    requires forall i, j :: 0 <= i < j < |clickables| ==> clickables[i] != clickables[j]
    modifies set c | c in clickables
    ensures forall i :: 0 <= i < |clickables| ==>
      clickables[i].state == Next(old(clickables[i].state), ids[i] in hits)
  {
    var cursorHitEnts: set<nat> := {};
    var j := 0;
    while j < |hits|
      invariant j <= |hits|
      invariant cursorHitEnts == set k | 0 <= k < j :: hits[k]
    {
      cursorHitEnts := cursorHitEnts + {hits[j]};
      j := j + 1;
    }
    assert forall id :: id in cursorHitEnts <==> id in hits by {
      forall id ensures id in cursorHitEnts <==> id in hits {
        if id in hits {
          var k :| 0 <= k < |hits| && hits[k] == id;
        }
      }
    }

    var i := 0;
    while i < |clickables|
      invariant i <= |clickables|
      invariant forall k :: 0 <= k < i ==> clickables[k].state == Next(old(clickables[k].state), ids[k] in hits)
      invariant forall k :: i <= k < |clickables| ==> clickables[k].state == old(clickables[k].state)
    {
      var clickable := clickables[i];
      if ids[i] in cursorHitEnts {
        match clickable.state {
          case Normal =>
            clickable.state := Hovered;
          case _ =>
        }
      } else {
        match clickable.state {
          case Hovered =>
            clickable.state := Normal;
          case _ =>
        }
      }
      i := i + 1;
    }
  }
}
