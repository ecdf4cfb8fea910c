/** IceSpikeTile: a spike that hurts the mobs bumping into it, takes 10
    points of damage to break and melts into snow, dropping icicles. */
module IceSpikeRules {
  import opened Common
  import opened Entities
  import opened Levels
  import opened Damage

  const IceSpikeHealth: int := 10

  /** bumpedInto: the damage the spike deals to the entity bumping into it
      (Mob.hurt is not part of this model), none to a non-mob or on
      Peaceful. `diffIdx` is the index of the difficulty setting. */
  function BumpDamage(kind: Kind, peaceful: bool, diffIdx: int): (r: Option<int>)
    ensures r.Some? <==> kind.IsMob() && !peaceful
    ensures r.Some? ==> r.value == 1 + diffIdx
  {
    if !kind.IsMob() || peaceful then None else Some(1 + diffIdx)
  }

  /** mayPass: nothing walks through an ice spike. */
  function MayPass(kind: Kind): (r: bool)
    ensures !r
  {
    false
  }

  /** What a broken spike drops at tile (x, y): 2..4 icicles. */
  function MeltDrops(x: int, y: int): (ds: seq<Drop>)
    ensures |ds| == 1 && ds[0].item == "Icicle" && ds[0].min == 2 && ds[0].max == 4
    ensures Shr4(ds[0].px) == x && Shr4(ds[0].py) == y
  {
    [DropOn(x, y, 2, 4, "Icicle")]
  }

  /** hurt: the damage so far plus the hit (the spike's health in Creative
      mode); at 10 the cell becomes Snow and drops icicles. Always true. */
  method Hurt(level: Level, x: int, y: int, dmg: int, creative: bool) returns (r: bool)
    modifies level`cells, level`drops
    ensures r
    ensures var damage := HitDamage(old(level.cells), x, y, dmg, IceSpikeHealth, creative);
      && level.cells == HitCells(old(level.cells), x, y, damage, IceSpikeHealth, SnowId)
      && level.drops == old(level.drops) + (if damage >= IceSpikeHealth then MeltDrops(x, y) else [])
  {
    var damage := level.DataAt(x, y) + dmg;
    if creative {
      damage := IceSpikeHealth;
    }
    if damage >= IceSpikeHealth {
      level.SetTile(x, y, SnowId);
      level.DropItem(x * 16 + 8, y * 16 + 8, 2, 4, "Icicle");
    } else {
      level.SetData(x, y, damage);
    }
    return true;
  }

  /** tick: the damage wears off by one; the answer says whether it did. */
  method Tick(level: Level, xt: int, yt: int) returns (r: bool)
    modifies level`cells
    ensures r <==> old(level.DataAt(xt, yt)) > 0
    ensures level.cells == Decayed(old(level.cells), xt, yt)
  {
    var damage := level.DataAt(xt, yt);
    if damage > 0 {
      level.SetData(xt, yt, damage - 1);
      return true;
    }
    return false;
  }

  /** In Creative mode one hit breaks a spike whatever it has taken so far. */
  lemma CreativeBreaksAtOnce(cells: map<Pos, Cell>, x: int, y: int, dmg: int)
    requires (x, y) in cells
    ensures HitCells(cells, x, y, HitDamage(cells, x, y, dmg, IceSpikeHealth, true), IceSpikeHealth, SnowId)[(x, y)]
      == Cell(SnowId, 0)
  {
  }
}
