/** GoldenCloudTreeTile: a tree that only the air wizard walks through,
    takes 20 points of damage to fell, and whose light radius is redrawn
    every 16 idle ticks. */
module GoldenCloudTreeRules {
  import opened Common
  import opened Entities
  import opened Levels
  import opened Items
  import opened Damage

  const TreeHealth: int := 20
  /** The number of idle ticks after which the light radius is redrawn. */
  const LightPeriod: int := 16

  /** The light radius drawn as the source draws it: `random.nextInt(5) == 5`
      can never hold, so the radius is always 5. */
  function DrawnLight(draw5: int): (light: int)
    requires 0 <= draw5 < 5
    ensures light == 5
  {
    if draw5 == 5 then 6 else 5
  }

  /** The draw as evidently intended: one draw in five gives radius 6. */
  function IntendedLight(draw5: int): (light: int)
    requires 0 <= draw5 < 5
    ensures light == 6 <==> draw5 == 0
    ensures light == 5 || light == 6
  {
    if draw5 == 0 then 6 else 5
  }

  /** Of the five draws the intended rule gives radius 6 for exactly one and
      the rule as written for none. */
  lemma LightDrawsCompared()
    ensures |set d | 0 <= d < 5 && IntendedLight(d) == 6| == 1
    ensures |set d | 0 <= d < 5 && DrawnLight(d) == 6| == 0
  {
    assert (set d | 0 <= d < 5 && IntendedLight(d) == 6) == {0};
    assert (set d | 0 <= d < 5 && DrawnLight(d) == 6) == {};
  }

  /** mayPass: only the air wizard passes. */
  function MayPass(kind: Kind): (r: bool)
    ensures r <==> kind == AirWizardKind
  {
    kind == AirWizardKind
  }

  /** What hitting the tree at tile (x, y) drops: an apple when the
      one-in-a-hundred draw is 0, and 1..2 oak wood when it falls. */
  function HitDrops(x: int, y: int, draw100: int, falls: bool): (ds: seq<Drop>)
    ensures (DropOn(x, y, 1, 1, "Apple") in ds) <==> draw100 == 0
    ensures (DropOn(x, y, 1, 2, "Oak Wood") in ds) <==> falls
    ensures |ds| == (if draw100 == 0 then 1 else 0) + (if falls then 1 else 0)
  {
    (if draw100 == 0 then [DropOn(x, y, 1, 1, "Apple")] else [])
    + (if falls then [DropOn(x, y, 1, 2, "Oak Wood")] else [])
  }

  /** The one golden cloud tree tile, with its light radius and idle-tick
      counter shared by every cell. */
  class GoldenCloudTree {
    var light: int
    var tickc: int

    constructor ()
      ensures light == 5 && tickc == 0
    {
      light := 5;
      tickc := 0;
    }

    /** The counter stays below the period and the radius at 5. */
    predicate Valid()
      reads `light, `tickc
    {
      light == 5 && 0 <= tickc < LightPeriod
    }

    /** getLightRadius. */
    function LightRadius(): (r: int)
      reads `light
      ensures Valid() ==> r == 5
    {
      light
    }

    /** tick: damage wears off first; only an undamaged tree counts the tick,
        and every 16th counted tick redraws the radius and restarts the count.
        `draw5` is random.nextInt(5). */
    method Tick(level: Level, xt: int, yt: int, draw5: int) returns (r: bool)
      requires Valid() && 0 <= draw5 < 5
      modifies `light, `tickc, level`cells
      ensures Valid()
      ensures r <==> old(level.DataAt(xt, yt)) > 0
      ensures level.cells == Decayed(old(level.cells), xt, yt)
      ensures r ==> tickc == old(tickc) && light == old(light)
      ensures !r ==> tickc == (old(tickc) + 1) % LightPeriod
      ensures !r && old(tickc) + 1 == LightPeriod ==> light == DrawnLight(draw5)
    {
      var damage := level.DataAt(xt, yt);
      if damage > 0 {
        level.SetData(xt, yt, damage - 1);
        return true;
      }
      tickc := tickc + 1;
      if tickc >= LightPeriod {
        light := DrawnLight(draw5);
        tickc := 0;
      }
      return false;
    }

    /** hurt(level, x, y, dmg): maybe an apple, then the hit; at 20 the tree
        falls into Sky High Grass and drops oak wood. `draw100` is
        random.nextInt(100). */
    method Hurt(level: Level, x: int, y: int, dmg: int, draw100: int, creative: bool)
      requires 0 <= draw100 < 100
      modifies level`cells, level`drops
      ensures var damage := HitDamage(old(level.cells), x, y, dmg, TreeHealth, creative);
        && level.cells == HitCells(old(level.cells), x, y, damage, TreeHealth, SkyHighGrassId)
        && level.drops == old(level.drops) + HitDrops(x, y, draw100, damage >= TreeHealth)
    {
      if draw100 == 0 {
        level.DropItem(x * 16 + 8, y * 16 + 8, 1, 1, "Apple");
      }
      var damage := level.DataAt(x, y) + dmg;
      if creative {
        damage := TreeHealth;
      }
      if damage >= TreeHealth {
        level.DropItem(x * 16 + 8, y * 16 + 8, 1, 2, "Oak Wood");
        level.SetTile(x, y, SkyHighGrassId);
      } else {
        level.SetData(x, y, damage);
      }
    }

    /** hurt by a mob: the same hit, always answered true. */
    method HurtBy(level: Level, x: int, y: int, dmg: int, draw100: int, creative: bool) returns (r: bool)
      requires 0 <= draw100 < 100
      modifies level`cells, level`drops
      ensures r
      ensures var damage := HitDamage(old(level.cells), x, y, dmg, TreeHealth, creative);
        && level.cells == HitCells(old(level.cells), x, y, damage, TreeHealth, SkyHighGrassId)
        && level.drops == old(level.drops) + HitDrops(x, y, draw100, damage >= TreeHealth)
    {
      Hurt(level, x, y, dmg, draw100, creative);
      r := true;
    }

    /** interact: never in Creative mode (the hit goes straight to hurt);
        otherwise a paid axe hits for the tool's damage. */
    method Interact(level: Level, xt: int, yt: int, item: Item, toolDamage: int, staminaOk: int -> bool,
                    durabilityOk: bool, draw100: int, creative: bool) returns (handled: bool, charges: seq<Charge>)
      requires 0 <= draw100 < 100
      modifies level`cells, level`drops
      ensures creative ==> !handled && charges == []
      ensures !creative ==> Paid(handled, charges) == ToolAction(item, Axe, 4, staminaOk, durabilityOk)
      ensures !handled ==> level.cells == old(level.cells) && level.drops == old(level.drops)
      ensures handled ==>
        var damage := HitDamage(old(level.cells), xt, yt, toolDamage, TreeHealth, false);
        && level.cells == HitCells(old(level.cells), xt, yt, damage, TreeHealth, SkyHighGrassId)
        && level.drops == old(level.drops) + HitDrops(xt, yt, draw100, damage >= TreeHealth)
    {
      if creative {
        return false, [];
      }
      var paid := ToolAction(item, Axe, 4, staminaOk, durabilityOk);
      if paid.ok {
        Hurt(level, xt, yt, toolDamage, draw100, creative);
      }
      return paid.ok, paid.charges;
    }
  }
}
