/** The actor record: position, hitbox radii, liveness, level reference and
    identifier, with the pure queries the rest of the core relies on. */
module Entities {
  import opened Common

  /** The subclasses of Entity whose type the core tests with `instanceof`. */
  datatype Kind =
    | PlayerKind       // a Player (also a Mob)
    | AirWizardKind    // the AirWizard boss (a Mob)
    | VillagerKind     // a VillagerMob (a Mob)
    | OtherMobKind     // any other Mob
    | ItemEntityKind   // an item lying on the ground (not a Mob)
    | FurnitureKind    // beds, spawners and other furniture (not a Mob)
    | OtherKind        // particles and other non-mob entities
  {
    predicate IsPlayer() { this == PlayerKind }
    predicate IsMob() { this in {PlayerKind, AirWizardKind, VillagerKind, OtherMobKind} }
  }

  /** A reference to a Level; levels are told apart by `handle`, and `depth`
      is the value the core compares to decide whether two actors share a world. */
  datatype LevelRef = LevelRef(handle: int, depth: int)

  /** An axis-aligned box given by its centre and its full width and height
      (the game's Rectangle built with CENTER_DIMS). */
  datatype Rect = Rect(cx: int, cy: int, w: int, h: int)

  /** The hitbox of an actor at (x, y) with radii (xr, yr). */
  function BoundsAt(x: int, y: int, xr: int, yr: int): (r: Rect)
    ensures r.cx == x && r.cy == y
    ensures r.w == 2 * xr && r.h == 2 * yr
  {
    Rect(x, y, xr * 2, yr * 2)
  }

  class Entity {
    var x: int
    var y: int
    var xr: int
    var yr: int
    var removed: bool
    var level: Option<LevelRef>
    var eid: int
    /** The runtime class of the actor. */
    const kind: Kind
    /** What `isSolid()` answers; the base class answers true and subclasses may override it. */
    const solid: bool

    /** A new actor is detached: removed, with no level, and with a random id
        (`randomId` stands for the ThreadLocalRandom draw). */
    constructor (xr: int, yr: int, kind: Kind, randomId: int, solid: bool := true)
      ensures this.xr == xr && this.yr == yr
      ensures this.x == 0 && this.y == 0
      ensures removed && level == None
      ensures eid == randomId
      ensures this.kind == kind && this.solid == solid
    {
      this.xr := xr;
      this.yr := yr;
      this.x := 0;
      this.y := 0;
      this.level := None;
      this.removed := true;
      this.eid := randomId;
      this.kind := kind;
      this.solid := solid;
    }

    /** The hitbox, centred on the actor's position. */
    function Bounds(): (r: Rect)
      reads this
      ensures r == BoundsAt(x, y, xr, yr)
      ensures r.cx == x && r.cy == y && r.w == 2 * xr && r.h == 2 * yr
    {
      BoundsAt(x, y, xr, yr)
    }

    predicate IsSolid() {
      solid
    }

    /** Whether this actor stops `other` from moving. */
    predicate Blocks(other: Entity) {
      IsSolid() && other.IsSolid()
    }

    /** hashCode(): the id. */
    function HashCode(): int
      reads `eid
    {
      eid
    }

    /** equals(): another entity with the same hash code; null is never equal. */
    predicate Equals(other: Entity?)
      reads `eid, other
    {
      other != null && HashCode() == other.HashCode()
    }

    /** hasSameLevel(): both actors are attached to levels of the same depth. */
    predicate HasSameLevel(other: Entity)
      reads this, other
    {
      level.Some? && other.level.Some? && level.value.depth == other.level.value.depth
    }

    /** isWithin(): same depth, and the Euclidean distance in pixels is at most
        `radius` (exact arithmetic in place of Math.hypot). */
    predicate IsWithin(radius: int, other: Entity)
      reads this, other
    {
      HasSameLevel(other)
        && 0 <= radius
        && (x - other.x) * (x - other.x) + (y - other.y) * (y - other.y) <= radius * radius
    }

    /** getClosestPlayer(returnSelf): a player asked with returnSelf answers
        itself; otherwise the level is asked (`levelAnswer` is the level's
        reply), and an actor with no level gets no player. */
    function GetClosestPlayer(returnSelf: bool, levelAnswer: Option<Entity>): (p: Option<Entity>)
      reads this
      ensures kind.IsPlayer() && returnSelf ==> p == Some(this)
      ensures !(kind.IsPlayer() && returnSelf) && level == None ==> p == None
      ensures !(kind.IsPlayer() && returnSelf) && level != None ==> p == levelAnswer
      ensures p.Some? ==> p == Some(this) || p == levelAnswer
    {
      if kind.IsPlayer() && returnSelf then Some(this)
      else if level == None then None
      else levelAnswer
    }

    method SetRemoved(b: bool)
      modifies this`removed
      ensures removed == b
    {
      removed := b;
    }

    method SetLevel(l: Option<LevelRef>)
      modifies this`level
      ensures level == l
    {
      level := l;
    }

    method SetX(v: int)
      modifies this`x
      ensures x == v
    {
      x := v;
    }

    method SetY(v: int)
      modifies this`y
      ensures y == v
    {
      y := v;
    }

    method SetEid(id: int)
      modifies this`eid
      ensures eid == id
    {
      eid := id;
    }
  }

  /** blocks() is symmetric, and holds exactly when both actors are solid. */
  lemma BlocksSymmetric(a: Entity, b: Entity)
    ensures a.Blocks(b) == b.Blocks(a)
    ensures a.Blocks(b) <==> a.solid && b.solid
  {
  }

  /** equals() is decided by the ids alone: it is an equivalence, and two
      entities are equal exactly when their ids are. */
  lemma EqualsIsIdEquality(a: Entity, b: Entity, c: Entity)
    ensures a.Equals(b) <==> a.eid == b.eid
    ensures a.Equals(a)
    ensures a.Equals(b) ==> b.Equals(a)
    ensures a.Equals(b) && b.Equals(c) ==> a.Equals(c)
    ensures a.Equals(b) ==> a.HashCode() == b.HashCode()
  {
  }

  /** An actor without a level, or on a level of another depth, is never within
      any radius of another. */
  lemma NotWithinAcrossLevels(a: Entity, b: Entity, radius: int)
    requires a.level == None || b.level == None
          || (a.level.Some? && b.level.Some? && a.level.value.depth != b.level.value.depth)
    ensures !a.IsWithin(radius, b) && !b.IsWithin(radius, a)
  {
  }
}
