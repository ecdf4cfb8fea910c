/** JungleGrassTile: jungle grass that spreads onto neighbouring dirt and is
    dug up by a shovel, a hoe or a pickaxe. */
module JungleGrassRules {
  import opened Levels
  import opened Items
  import opened Digging

  /** interact as written: the shared digging rule, answering false after a
      paid pickaxe dig (the pickaxe branch has no `return true`). */
  method Interact(level: Level, xt: int, yt: int, item: Item, staminaOk: int -> bool, durabilityOk: bool,
                  d5: int, d15: int, d64: int) returns (handled: bool, charges: seq<Charge>)
    requires 0 <= d5 < 5 && 0 <= d15 < 15 && 0 <= d64 < 64
    modifies level`cells, level`drops
    ensures var r := Dig(old(level.cells), xt, yt, item, staminaOk, durabilityOk, d5, d15, d64, false);
      && level.cells == r.cells && level.drops == old(level.drops) + r.drops
      && handled == r.handled && charges == r.charges
  {
    if !item.Tool? {
      return false, [];
    }
    if item.kind == Shovel {
      var paid := Pay(4 - item.level, staminaOk, durabilityOk);
      if paid.ok {
        level.SetTile(xt, yt, DirtId);
        if d5 == 0 {
          level.DropItem(xt * 16 + 8, yt * 16 + 8, 2, 2, "Seeds");
        }
        return true, paid.charges;
      }
      return false, paid.charges;
    }
    if item.kind == Hoe {
      var paid := Pay(4 - item.level, staminaOk, durabilityOk);
      if paid.ok {
        level.SetTile(xt, yt, DirtId);
        if d15 == 0 {
          level.DropItem(xt * 16 + 8, yt * 16 + 8, 1, 1, "Seeds");
        }
        if d64 == 0 {
          level.DropItem(xt * 16 + 8, yt * 16 + 8, 1, 1, "Dirt");
        }
        return true, paid.charges;
      }
      return false, paid.charges;
    }
    if item.kind == Pickaxe {
      var paid := Pay(4 - item.level, staminaOk, durabilityOk);
      if paid.ok {
        level.SetTile(xt, yt, PathId);
        if d5 == 0 {
          level.DropItem(xt * 16 + 8, yt * 16 + 8, 2, 2, "Seeds");
        }
      }
      return false, paid.charges;
    }
    return false, [];
  }

  /** tick: one time in forty (draw40 is random.nextInt(40)) a Dirt
      neighbour chosen by the draws becomes jungle grass; always false. */
  method Tick(level: Level, xt: int, yt: int, draw40: int, alongX: bool, side: int) returns (r: bool)
    requires 0 <= draw40 < 40 && 0 <= side < 2
    modifies level`cells
    ensures !r
    ensures level.cells == if draw40 != 0 then old(level.cells)
                           else Spread(old(level.cells), xt, yt, alongX, side, DirtId, JungleGrassId)
  {
    if draw40 != 0 {
      return false;
    }
    var n := Neighbour(xt, yt, alongX, side);
    if level.TileAt(n.0, n.1) == DirtId {
      level.SetTile(n.0, n.1, JungleGrassId);
    }
    return false;
  }

  /** Every Dirt cell next to jungle grass can be overgrown by one tick: some
      draws turn it, and only it, into jungle grass. */
  lemma SpreadReachesEveryNeighbour(cells: map<Pos, Cell>, xt: int, yt: int, p: Pos)
    requires p in cells && cells[p].tile == DirtId
    requires (p.0 - xt) * (p.0 - xt) + (p.1 - yt) * (p.1 - yt) == 1
    ensures exists alongX: bool, side: int ::
              (0 <= side < 2 && Spread(cells, xt, yt, alongX, side, DirtId, JungleGrassId) == cells[p := Cell(JungleGrassId, 0)])
  {
    NeighbourCoversAll(xt, yt, p);
    var alongX: bool, side: int :| 0 <= side < 2 && Neighbour(xt, yt, alongX, side) == p;
    var r := Spread(cells, xt, yt, alongX, side, DirtId, JungleGrassId);
    assert r == cells[p := Cell(JungleGrassId, 0)];
  }
}
