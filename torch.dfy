/** TorchTile: a torch standing on a base tile. It lights a radius of 5,
    moves its flame's spark point every tick, and a power glove takes it
    back, leaving the base tile. */
module TorchRules {
  import opened Common
  import opened Levels
  import opened Items
  import opened Tiles

  /** LIGHT: every torch lights a radius of 5. */
  const TorchLight: int := 5

  /** getLightRadius on a torch variant: the same radius whatever tile the
      torch stands on and wherever it is. */
  function LightRadius(torch: Tile, x: int, y: int): (radius: int)
    requires torch.onType != null
    ensures radius == TorchLight
  {
    TorchLight
  }

  /** tick on the torch variant at tile (x, y): counts the tick and puts the
      spark point near the tile's top-left corner, `r2` and `r1` being
      random.nextInt(2) and random.nextInt(1). The spark point stays in
      the torch's own tile. Always false. */
  method Tick(torch: Tile, x: int, y: int, r2: int, r1: int) returns (r: bool)
    requires 0 <= r2 < 2 && 0 <= r1 < 1
    modifies torch`tickTime, torch`spawnX, torch`spawnY
    ensures !r
    ensures torch.tickTime == old(torch.tickTime) + 1
    ensures torch.spawnX == x * 16 + 4 && torch.spawnY == y * 16 + r2
    ensures Shr4(torch.spawnX) == x && Shr4(torch.spawnY) == y
  {
    torch.tickTime := torch.tickTime + 1;
    torch.spawnX := x * 16 + 4;
    torch.spawnY := y * 16 + r2 - r1;
    return false;
  }

  /** interact: a power glove puts the base tile back and drops the torch;
      every other item leaves the cell alone. */
  method Interact(torch: Tile, level: Level, xt: int, yt: int, item: Item) returns (handled: bool)
    requires torch.onType != null
    modifies level`cells, level`drops
    ensures handled <==> item == PowerGlove
    ensures level.cells == if handled then WithTile(old(level.cells), xt, yt, torch.onType.id) else old(level.cells)
    ensures level.drops == old(level.drops) + if handled then [DropOn(xt, yt, 1, 1, "Torch")] else []
  {
    if item == PowerGlove {
      level.SetTile(xt, yt, torch.onType.id);
      level.DropItem(xt * 16 + 8, yt * 16 + 8, 1, 1, "Torch");
      return true;
    }
    return false;
  }

  /** Placing a torch on an undamaged base cell and taking it back with the
      glove leaves the grid exactly as it was. */
  lemma GloveUndoesPlacement(cells: map<Pos, Cell>, xt: int, yt: int, baseId: int, torchId: int)
    requires (xt, yt) in cells && cells[(xt, yt)] == Cell(baseId, 0)
    ensures WithTile(WithTile(cells, xt, yt, torchId), xt, yt, baseId) == cells
  {
    var r := WithTile(WithTile(cells, xt, yt, torchId), xt, yt, baseId);
    assert forall p :: p in r ==> r[p] == cells[p];
  }
}
