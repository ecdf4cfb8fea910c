/** Attaching actors to a level and detaching them (LifecycleManager). */
module Lifecycle {
  import opened Common
  import opened Entities

  /** remove(): marks the actor removed and, when it has a level, asks that
      level to drop it; the answer `dropFrom` names the level asked. The
      actor's own level field is left as it was. */
  method Remove(e: Entity) returns (dropFrom: Option<LevelRef>)
    modifies e`removed
    ensures e.removed
    ensures dropFrom == e.level
  {
    e.SetRemoved(true);
    dropFrom := e.level;
  }

  /** die(): the same effect as remove(). */
  method Die(e: Entity) returns (dropFrom: Option<LevelRef>)
    modifies e`removed
    ensures e.removed
    ensures dropFrom == e.level
  {
    dropFrom := Remove(e);
  }

  /** remove(level): only a request naming the actor's current level (both
      absent counts as a match) detaches it; any other request changes nothing. */
  method RemoveFrom(e: Entity, l: Option<LevelRef>)
    modifies e`removed, e`level
    ensures l != old(e.level) ==> e.removed == old(e.removed) && e.level == old(e.level)
    ensures l == old(e.level) ==> e.removed && e.level == None
  {
    if l != e.level {
      // a stale request: only logged
    } else {
      e.SetRemoved(true);
      e.SetLevel(None);
    }
  }

  /** setLevel(level, x, y): refuses a missing level; otherwise attaches the
      actor at (x, y) and gives it `freshId` (the network's fresh id) only when
      its current id is negative. */
  method SetLevel(e: Entity, l: Option<LevelRef>, x: int, y: int, freshId: int)
    modifies e`level, e`removed, e`x, e`y, e`eid
    ensures l == None ==> unchanged(e)
    ensures l != None ==> e.level == l && !e.removed && e.x == x && e.y == y
    ensures l != None ==> e.eid == (if old(e.eid) < 0 then freshId else old(e.eid))
  {
    if l == None {
      return;
    }
    e.SetLevel(l);
    e.SetRemoved(false);
    e.SetX(x);
    e.SetY(y);
    if e.eid < 0 {
      e.SetEid(freshId);
    }
  }

  /** Attaching an actor that already has a non-negative id, to any level and
      with any fresh id on offer, keeps its id. */
  method ReattachKeepsId(e: Entity, l: LevelRef, x: int, y: int, freshId: int)
    requires e.eid >= 0
    modifies e`level, e`removed, e`x, e`y, e`eid
    ensures e.eid == old(e.eid)
  {
    SetLevel(e, Some(l), x, y, freshId);
  }

  /** After attaching, the actor is live on its level; after a matching
      remove(level), it is removed and has no level. */
  method AttachThenDetach(e: Entity, l: LevelRef, x: int, y: int, freshId: int)
    modifies e`level, e`removed, e`x, e`y, e`eid
    ensures e.removed && e.level == None
    ensures e.x == x && e.y == y
    ensures e.eid >= 0 || e.eid == freshId
  {
    SetLevel(e, Some(l), x, y, freshId);
    assert !e.removed && e.level == Some(l);
    RemoveFrom(e, Some(l));
  }
}
