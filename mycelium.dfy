/** MyceliumTile: mycelium, dug up by a shovel, a hoe or a pickaxe, that
    never spreads. */
module MyceliumRules {
  import opened Levels
  import opened Items
  import opened Digging

  /** interact: the shared digging rule, answering true after every paid
      dig. */
  method Interact(level: Level, xt: int, yt: int, item: Item, staminaOk: int -> bool, durabilityOk: bool,
                  d5: int, d15: int, d64: int) returns (handled: bool, charges: seq<Charge>)
    requires 0 <= d5 < 5 && 0 <= d15 < 15 && 0 <= d64 < 64
    modifies level`cells, level`drops
    ensures var r := Dig(old(level.cells), xt, yt, item, staminaOk, durabilityOk, d5, d15, d64, true);
      && level.cells == r.cells && level.drops == old(level.drops) + r.drops
      && handled == r.handled && charges == r.charges
  {
    if !item.Tool? {
      return false, [];
    }
    var kind := item.kind;
    if kind == Shovel {
      var paid := Pay(4 - item.level, staminaOk, durabilityOk);
      if paid.ok {
        level.SetTile(xt, yt, DirtId);
        if d5 == 0 {
          level.DropItem(xt * 16 + 8, yt * 16 + 8, 2, 2, "Seeds");
        }
        return true, paid.charges;
      }
      return false, paid.charges;
    }
    if kind == Hoe {
      var paid := Pay(4 - item.level, staminaOk, durabilityOk);
      if paid.ok {
        level.SetTile(xt, yt, DirtId);
        if d15 == 0 {
          level.DropItem(xt * 16 + 8, yt * 16 + 8, 1, 1, "Seeds");
        }
        if d64 == 0 {
          level.DropItem(xt * 16 + 8, yt * 16 + 8, 1, 1, "Dirt");
        }
        return true, paid.charges;
      }
      return false, paid.charges;
    }
    if kind == Pickaxe {
      var paid := Pay(4 - item.level, staminaOk, durabilityOk);
      if paid.ok {
        level.SetTile(xt, yt, PathId);
        if d5 == 0 {
          level.DropItem(xt * 16 + 8, yt * 16 + 8, 2, 2, "Seeds");
        }
        return true, paid.charges;
      }
      return false, paid.charges;
    }
    return false, [];
  }

  /** tick: draws random.nextInt(40) and answers false either way; the
      cell never changes. */
  function Tick(draw40: int): (r: bool)
    requires 0 <= draw40 < 40
    ensures !r
  {
    false
  }
}
