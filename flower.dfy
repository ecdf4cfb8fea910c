/** FlowerTile: a flower that now and then spreads grass onto a
    neighbouring dirt cell, and gives flowers and roses when dug up or hit. */
module FlowerRules {
  import opened Levels
  import opened Items

  /** tick: one time in thirty (draw30 is random.nextInt(30)) a Dirt
      neighbour chosen by the draws becomes Grass; always false. */
  method Tick(level: Level, xt: int, yt: int, draw30: int, alongX: bool, side: int) returns (r: bool)
    requires 0 <= draw30 < 30 && 0 <= side < 2
    modifies level`cells
    ensures !r
    ensures level.cells == if draw30 != 0 then old(level.cells)
                           else Spread(old(level.cells), xt, yt, alongX, side, DirtId, GrassId)
  {
    if draw30 != 0 {
      return false;
    }
    var n := Neighbour(xt, yt, alongX, side);
    if level.TileAt(n.0, n.1) == DirtId {
      level.SetTile(n.0, n.1, GrassId);
    }
    return false;
  }

  /** A flower's tick changes at most one cell, an orthogonal neighbour,
      and only from Dirt to Grass. */
  lemma TickSpreadsGrassOnly(cells: map<Pos, Cell>, xt: int, yt: int, draw30: int, alongX: bool, side: int)
    requires 0 <= side < 2
    ensures var r := if draw30 != 0 then cells else Spread(cells, xt, yt, alongX, side, DirtId, GrassId);
      && r.Keys == cells.Keys
      && forall p :: p in cells && r[p] != cells[p] ==>
           (p.0 - xt) * (p.0 - xt) + (p.1 - yt) * (p.1 - yt) == 1
           && cells[p].tile == DirtId && r[p].tile == GrassId
  {
  }

  /** What digging up or hitting a flower drops at (x, y). */
  function FlowerDrops(x: int, y: int, min: int): (ds: seq<Drop>)
    ensures |ds| == 2 && ds[0].item == "Flower" && ds[1].item == "Rose"
    ensures forall i :: 0 <= i < 2 ==> ds[i] == DropOn(x, y, min, 1, ds[i].item)
  {
    [DropOn(x, y, min, 1, "Flower"), DropOn(x, y, min, 1, "Rose")]
  }

  /** interact: a paid shovel (stamina 2 - level) digs the flower up: the
      cell becomes Grass and one flower and one rose drop. */
  method Interact(level: Level, x: int, y: int, item: Item, staminaOk: int -> bool, durabilityOk: bool)
    returns (handled: bool, charges: seq<Charge>)
    modifies level`cells, level`drops
    ensures Paid(handled, charges) == ToolAction(item, Shovel, 2, staminaOk, durabilityOk)
    ensures level.cells == if handled then WithTile(old(level.cells), x, y, GrassId) else old(level.cells)
    ensures level.drops == old(level.drops) + if handled then FlowerDrops(x, y, 1) else []
  {
    var paid := ToolAction(item, Shovel, 2, staminaOk, durabilityOk);
    if paid.ok {
      level.SetTile(x, y, GrassId);
      level.DropItem(x * 16 + 8, y * 16 + 8, 1, 1, "Flower");
      level.DropItem(x * 16 + 8, y * 16 + 8, 1, 1, "Rose");
    }
    return paid.ok, paid.charges;
  }

  /** hurt: up to one flower and one rose drop and the cell becomes Grass,
      whatever the hit; always true. */
  method Hurt(level: Level, x: int, y: int, hurtDamage: int) returns (r: bool)
    modifies level`cells, level`drops
    ensures r
    ensures level.cells == WithTile(old(level.cells), x, y, GrassId)
    ensures level.drops == old(level.drops) + FlowerDrops(x, y, 0)
  {
    level.DropItem(x * 16 + 8, y * 16 + 8, 0, 1, "Flower");
    level.DropItem(x * 16 + 8, y * 16 + 8, 0, 1, "Rose");
    level.SetTile(x, y, GrassId);
    return true;
  }
}
