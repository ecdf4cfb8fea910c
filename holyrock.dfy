/** HolyRockTile: a rock that takes 50 points of damage to break, turning
    into Sky High grass and dropping holy stone, plus coal once the shared
    coal level has been raised. */
module HolyRockRules {
  import opened Common
  import opened Entities
  import opened Levels
  import opened Items
  import opened Damage

  const HolyRockHealth: int := 50

  /** What breaking a holy rock drops at tile (x, y): holy stone 1..4 at coal
      level 0; holy stone 1..2 and coal (0..1 on Hard, 1..2 otherwise) at
      coal level 1. */
  function BrokenDrops(x: int, y: int, coalLvl: int, hard: bool): (ds: seq<Drop>)
    ensures coalLvl == 0 ==> ds == [DropOn(x, y, 1, 4, "Holy Stone")]
    ensures coalLvl == 1 ==>
      (|ds| == 2 && ds[0] == DropOn(x, y, 1, 2, "Holy Stone")
       && ds[1].item == "coal" && ds[1].max == ds[1].min + 1 && ds[1].min == (if hard then 0 else 1))
    ensures coalLvl != 0 && coalLvl != 1 ==> ds == []
    ensures forall i :: 0 <= i < |ds| ==> Shr4(ds[i].px) == x && Shr4(ds[i].py) == y && 0 <= ds[i].min <= ds[i].max
  {
    (if coalLvl == 0 then [DropOn(x, y, 1, 4, "Holy Stone")] else [])
    + (if coalLvl == 1 then
         var minCoal := if hard then 0 else 1;
         [DropOn(x, y, 1, 2, "Holy Stone"), DropOn(x, y, minCoal, minCoal + 1, "coal")]
       else [])
  }

  /** The one holy rock tile: `coalLvl` is shared by every holy rock cell. */
  class HolyRock {
    var coalLvl: int

    constructor ()
      ensures coalLvl == 0
    {
      coalLvl := 0;
    }

    predicate Valid()
      reads `coalLvl
    {
      coalLvl == 0 || coalLvl == 1
    }

    /** mayPass: nothing walks through a holy rock. */
    function MayPass(kind: Kind): (r: bool)
      ensures !r
    {
      false
    }

    /** hurt(level, x, y, hurtDamage). Creative mode forces the damage to the
        rock's health and raises the coal level first. */
    method Hurt(level: Level, x: int, y: int, hurtDamage: int, creative: bool, hard: bool)
      requires Valid()
      modifies `coalLvl, level`cells, level`drops
      ensures Valid() && old(coalLvl) <= coalLvl
      ensures coalLvl == if creative then 1 else old(coalLvl)
      ensures var damage := HitDamage(old(level.cells), x, y, hurtDamage, HolyRockHealth, creative);
        && level.cells == HitCells(old(level.cells), x, y, damage, HolyRockHealth, SkyHighGrassId)
        && level.drops == old(level.drops) + (if damage >= HolyRockHealth then BrokenDrops(x, y, coalLvl, hard) else [])
    {
      var damage := level.DataAt(x, y) + hurtDamage;
      if creative {
        damage := HolyRockHealth;
        coalLvl := 1;
      }
      if damage >= HolyRockHealth {
        if coalLvl == 0 {
          level.DropItem(x * 16 + 8, y * 16 + 8, 1, 4, "Holy Stone");
        }
        if coalLvl == 1 {
          level.DropItem(x * 16 + 8, y * 16 + 8, 1, 2, "Holy Stone");
          var minCoal, maxCoal := 0, 1;
          if !hard {
            minCoal, maxCoal := minCoal + 1, maxCoal + 1;
          }
          level.DropItem(x * 16 + 8, y * 16 + 8, minCoal, maxCoal, "coal");
        }
        level.SetTile(x, y, SkyHighGrassId);
      } else {
        level.SetData(x, y, damage);
      }
    }

    /** hurt by a mob: the same hit, always answered true. */
    method HurtBy(level: Level, x: int, y: int, hurtDamage: int, creative: bool, hard: bool) returns (r: bool)
      requires Valid()
      modifies `coalLvl, level`cells, level`drops
      ensures r
      ensures Valid() && coalLvl == if creative then 1 else old(coalLvl)
      ensures var damage := HitDamage(old(level.cells), x, y, hurtDamage, HolyRockHealth, creative);
        && level.cells == HitCells(old(level.cells), x, y, damage, HolyRockHealth, SkyHighGrassId)
        && level.drops == old(level.drops) + (if damage >= HolyRockHealth then BrokenDrops(x, y, coalLvl, hard) else [])
    {
      Hurt(level, x, y, hurtDamage, creative, hard);
      r := true;
    }

    /** interact: a paid pickaxe raises the shared coal level to 1 for good
        and hits for draw10 + 5 * level + 10 (draw10 is random.nextInt(10)). */
    method Interact(level: Level, xt: int, yt: int, item: Item, staminaOk: int -> bool, durabilityOk: bool,
                    draw10: int, creative: bool, hard: bool) returns (handled: bool, charges: seq<Charge>)
      requires Valid() && 0 <= draw10 < 10
      modifies `coalLvl, level`cells, level`drops
      ensures Paid(handled, charges) == ToolAction(item, Pickaxe, 4, staminaOk, durabilityOk)
      ensures Valid() && old(coalLvl) <= coalLvl
      ensures !handled ==> coalLvl == old(coalLvl) && level.cells == old(level.cells) && level.drops == old(level.drops)
      ensures handled ==> coalLvl == 1
      ensures handled ==>
        var damage := HitDamage(old(level.cells), xt, yt, draw10 + item.level * 5 + 10, HolyRockHealth, creative);
        && level.cells == HitCells(old(level.cells), xt, yt, damage, HolyRockHealth, SkyHighGrassId)
        && level.drops == old(level.drops) + (if damage >= HolyRockHealth then BrokenDrops(xt, yt, 1, hard) else [])
    {
      var paid := ToolAction(item, Pickaxe, 4, staminaOk, durabilityOk);
      if paid.ok {
        coalLvl := 1;
        Hurt(level, xt, yt, draw10 + item.level * 5 + 10, creative, hard);
      }
      return paid.ok, paid.charges;
    }

    /** tick: the damage wears off by one; the answer says whether it did. */
    method Tick(level: Level, xt: int, yt: int) returns (r: bool)
      modifies level`cells
      ensures r <==> old(level.DataAt(xt, yt)) > 0
      ensures level.cells == Decayed(old(level.cells), xt, yt)
    {
      var damage := level.DataAt(xt, yt);
      if damage > 0 {
        level.SetData(xt, yt, damage - 1);
        return true;
      }
      return false;
    }
  }
}
