/** IceTile: ice that fills a neighbouring hole with water and freezes the
    lava next to it into raw obsidian, and that a pickaxe breaks into water. */
module IceRules {
  import opened Levels
  import opened Items

  /** The cells the lava loops of tick visit, in order: the row
      xt - 1 .. xt + 1, then the column yt - 1 .. yt + 1. */
  function Cross(xt: int, yt: int): (ps: seq<Pos>)
    ensures |ps| == 6
    ensures ps[0] == (xt - 1, yt) && ps[1] == (xt, yt) && ps[2] == (xt + 1, yt)
    ensures ps[3] == (xt, yt - 1) && ps[4] == (xt, yt) && ps[5] == (xt, yt + 1)
  {
    [(xt - 1, yt), (xt, yt), (xt + 1, yt), (xt, yt - 1), (xt, yt), (xt, yt + 1)]
  }

  /** One visit of a lava loop: Lava at p becomes Raw Obsidian. */
  function Quench(cells: map<Pos, Cell>, p: Pos): map<Pos, Cell> {
    if TileIn(cells, p.0, p.1) == LavaId then WithTile(cells, p.0, p.1, RawObsidianId) else cells
  }

  /** The visits of `ps`, in order. */
  function Quenched(cells: map<Pos, Cell>, ps: seq<Pos>): map<Pos, Cell> {
    if ps == [] then cells else Quench(Quenched(cells, ps[..|ps| - 1]), ps[|ps| - 1])
  }

  /** After the visits, exactly the visited Lava cells are Raw Obsidian
      and every other cell is as it was. */
  lemma {:induction false} QuenchedCells(cells: map<Pos, Cell>, ps: seq<Pos>)
    ensures var r := Quenched(cells, ps);
      && r.Keys == cells.Keys
      && forall p :: p in cells ==>
           r[p] == if p in ps && cells[p].tile == LavaId then Cell(RawObsidianId, 0) else cells[p]
  {
    if ps != [] {
      var init := ps[..|ps| - 1];
      QuenchedCells(cells, init);
      assert forall p :: p in ps <==> p in init || p == ps[|ps| - 1] by {
        assert ps == init + [ps[|ps| - 1]];
      }
    }
  }

  /** One more visit extends the prefix by one. */
  lemma QuenchedStep(cells: map<Pos, Cell>, ps: seq<Pos>, k: int)
    requires 0 <= k < |ps|
    ensures Quenched(cells, ps[..k + 1]) == Quench(Quenched(cells, ps[..k]), ps[k])
  {
    assert ps[..k + 1][..k] == ps[..k];
  }

  /** The body of a lava loop at (x, y). */
  method QuenchAt(level: Level, x: int, y: int)
    modifies level`cells
    ensures level.cells == Quench(old(level.cells), (x, y))
  {
    if level.TileAt(x, y) == LavaId {
      level.SetTile(x, y, RawObsidianId);
    }
  }

  /** The neighbour step of tick: a Hole at the chosen neighbour becomes Water. */
  function Flooded(cells: map<Pos, Cell>, xt: int, yt: int, alongX: bool, side: int): map<Pos, Cell>
    requires 0 <= side < 2
  {
    Spread(cells, xt, yt, alongX, side, HoleId, WaterId)
  }

  /** After a tick no Lava is left in the row or the column through the ice
      (those cells are Raw Obsidian now), and every cell that changed was
      Lava there or the Hole at the chosen neighbour. */
  lemma TickLeavesNoLava(cells: map<Pos, Cell>, xt: int, yt: int, alongX: bool, side: int)
    requires 0 <= side < 2
    ensures var r := Quenched(Flooded(cells, xt, yt, alongX, side), Cross(xt, yt));
      && r.Keys == cells.Keys
      && (forall p :: p in Cross(xt, yt) && p in r ==> r[p].tile != LavaId)
      && (forall p :: p in Cross(xt, yt) && p in cells && cells[p].tile == LavaId ==> r[p] == Cell(RawObsidianId, 0))
      && (forall p :: p in cells && r[p] != cells[p] ==>
            (p in Cross(xt, yt) && cells[p].tile == LavaId)
            || (p == Neighbour(xt, yt, alongX, side) && cells[p].tile == HoleId && r[p] == Cell(WaterId, 0)))
  {
    QuenchedCells(Flooded(cells, xt, yt, alongX, side), Cross(xt, yt));
  }

  /** tick: the neighbour step, then the two lava loops; always false.
      `alongX` and `side` are the random draws choosing the neighbour. */
  method Tick(level: Level, xt: int, yt: int, alongX: bool, side: int) returns (r: bool)
    requires 0 <= side < 2
    modifies level`cells
    ensures !r
    ensures level.cells == Quenched(Flooded(old(level.cells), xt, yt, alongX, side), Cross(xt, yt))
  {
    var n := Neighbour(xt, yt, alongX, side);
    if level.TileAt(n.0, n.1) == HoleId {
      level.SetTile(n.0, n.1, WaterId);
    }
    ghost var flooded := level.cells;
    ghost var cross := Cross(xt, yt);
    for dx := -1 to 2
      invariant level.cells == Quenched(flooded, cross[..dx + 1])
    {
      QuenchedStep(flooded, cross, dx + 1);
      QuenchAt(level, xt + dx, yt);
    }
    for dy := -1 to 2
      invariant level.cells == Quenched(flooded, cross[..dy + 4])
    {
      QuenchedStep(flooded, cross, dy + 4);
      QuenchAt(level, xt, yt + dy);
    }
    assert cross[..6] == cross;
    return false;
  }

  /** interact: a paid pickaxe (stamina 4 - level) breaks the ice into Water. */
  method Interact(level: Level, xt: int, yt: int, item: Item, staminaOk: int -> bool, durabilityOk: bool)
    returns (handled: bool, charges: seq<Charge>)
    modifies level`cells
    ensures Paid(handled, charges) == ToolAction(item, Pickaxe, 4, staminaOk, durabilityOk)
    ensures level.cells == if handled then WithTile(old(level.cells), xt, yt, WaterId) else old(level.cells)
  {
    var paid := ToolAction(item, Pickaxe, 4, staminaOk, durabilityOk);
    if paid.ok {
      level.SetTile(xt, yt, WaterId);
    }
    return paid.ok, paid.charges;
  }
}
