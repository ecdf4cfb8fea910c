/** The part of the Level that the tile rules use: a grid of cells, each
    holding a tile id and a data value, plus the list of item drops the
    rules ask for. The Level class itself is not part of this model; this is
    its observable behaviour as the rules rely on it. */
module Levels {
  import opened Common

  /** Tile ids the rules look up by name, as initTileList registers them
      (Tiles.java lines 31-144). */
  const GrassId: int := 0
  const DirtId: int := 1
  const FlowerId: int := 2
  const HoleId: int := 3
  const WaterId: int := 6
  const LavaId: int := 17
  const ExplodeId: int := 19
  const FarmlandId: int := 20
  const PathId: int := 44
  const SnowId: int := 66
  const IceSpikeId: int := 74
  const RawObsidianId: int := 75
  const SkyHighGrassId: int := 77
  const HolyRockId: int := 82
  const GoldenCloudTreeId: int := 83
  const JungleGrassId: int := 87
  const IceId: int := 89
  /** The connector tile answered for cells outside the grid. */
  const ConnectId: int := 255

  type Pos = (int, int)

  datatype Cell = Cell(tile: int, data: int)

  /** A `level.dropItem(px, py, min, max, item)` request: between `min` and
      `max` copies of `item` at pixel (px, py). */
  datatype Drop = Drop(px: int, py: int, min: int, max: int, item: string)

  class Level {
    /** The cells of the grid; a position outside the map is outside the grid. */
    var cells: map<Pos, Cell>
    /** Every item drop requested so far, in order. */
    var drops: seq<Drop>

    constructor (cells: map<Pos, Cell>)
      ensures this.cells == cells && drops == []
    {
      this.cells := cells;
      drops := [];
    }

    /** getTile(x, y).id: the connector tile outside the grid. */
    function TileAt(x: int, y: int): (id: int)
      reads `cells
      ensures (x, y) !in cells ==> id == ConnectId
    {
      TileIn(cells, x, y)
    }

    /** getData(x, y): 0 outside the grid. */
    function DataAt(x: int, y: int): (d: int)
      reads `cells
      ensures (x, y) !in cells ==> d == 0
    {
      DataIn(cells, x, y)
    }

    /** setTile(x, y, tile): replaces the tile and resets the data to the
        tile's default, 0; ignored outside the grid. */
    method SetTile(x: int, y: int, id: int)
      modifies `cells
      ensures cells == if (x, y) in old(cells) then old(cells)[(x, y) := Cell(id, 0)] else old(cells)
    {
      if (x, y) in cells {
        cells := cells[(x, y) := Cell(id, 0)];
      }
    }

    /** setData(x, y, v): ignored outside the grid. */
    method SetData(x: int, y: int, v: int)
      modifies `cells
      ensures cells == if (x, y) in old(cells) then old(cells)[(x, y) := Cell(old(cells)[(x, y)].tile, v)] else old(cells)
    {
      if (x, y) in cells {
        cells := cells[(x, y) := Cell(cells[(x, y)].tile, v)];
      }
    }

    /** dropItem(px, py, min, max, item). */
    method DropItem(px: int, py: int, min: int, max: int, item: string)
      modifies `drops
      ensures drops == old(drops) + [Drop(px, py, min, max, item)]
    {
      drops := drops + [Drop(px, py, min, max, item)];
    }
  }

  /** The tile id of a cell of the grid, the connector tile outside it. */
  function TileIn(cells: map<Pos, Cell>, x: int, y: int): int {
    if (x, y) in cells then cells[(x, y)].tile else ConnectId
  }

  /** The data of a cell of the grid, 0 outside it. */
  function DataIn(cells: map<Pos, Cell>, x: int, y: int): int {
    if (x, y) in cells then cells[(x, y)].data else 0
  }

  /** `dropItem((xt << 4) + 8, (yt << 4) + 8, min, max, item)`: a drop at the
      centre of tile (xt, yt), which lands inside that tile. */
  function DropOn(xt: int, yt: int, min: int, max: int, item: string): (d: Drop)
    ensures Shr4(d.px) == xt && Shr4(d.py) == yt
    ensures d.px % CellSize == 8 && d.py % CellSize == 8
    ensures d.min == min && d.max == max && d.item == item
  {
    Drop(xt * 16 + 8, yt * 16 + 8, min, max, item)
  }

  /** The grid after setTile(x, y, id). */
  function WithTile(cells: map<Pos, Cell>, x: int, y: int, id: int): (r: map<Pos, Cell>)
    ensures r.Keys == cells.Keys
    ensures (x, y) in cells ==> r[(x, y)] == Cell(id, 0)
    ensures forall p :: p in cells && p != (x, y) ==> r[p] == cells[p]
  {
    if (x, y) in cells then cells[(x, y) := Cell(id, 0)] else cells
  }

  /** The grid after setData(x, y, v). */
  function WithData(cells: map<Pos, Cell>, x: int, y: int, v: int): (r: map<Pos, Cell>)
    ensures r.Keys == cells.Keys
    ensures (x, y) in cells ==> r[(x, y)] == Cell(cells[(x, y)].tile, v)
    ensures forall p :: p in cells && p != (x, y) ==> r[p] == cells[p]
  {
    if (x, y) in cells then cells[(x, y) := Cell(cells[(x, y)].tile, v)] else cells
  }

  /** The four orthogonal neighbours, as the spreading rules pick them: a
      coin chooses the axis and a second draw the side (`nextInt(2) * 2 - 1`). */
  function Neighbour(xt: int, yt: int, alongX: bool, side: int): (p: Pos)
    requires 0 <= side < 2
    ensures (p.0 - xt) * (p.0 - xt) + (p.1 - yt) * (p.1 - yt) == 1
  {
    if alongX then (xt + side * 2 - 1, yt) else (xt, yt + side * 2 - 1)
  }

  /** The spreading step of a tick: the chosen neighbour becomes `to` when
      it holds `from`; nothing else changes. */
  function Spread(cells: map<Pos, Cell>, xt: int, yt: int, alongX: bool, side: int, from: int, to: int): (r: map<Pos, Cell>)
    requires 0 <= side < 2
    ensures r.Keys == cells.Keys
    ensures forall p :: p in cells && r[p] != cells[p] ==>
      p == Neighbour(xt, yt, alongX, side) && cells[p].tile == from && r[p] == Cell(to, 0)
    ensures var n := Neighbour(xt, yt, alongX, side);
      n in cells && cells[n].tile == from ==> r[n] == Cell(to, 0)
  {
    var n := Neighbour(xt, yt, alongX, side);
    if TileIn(cells, n.0, n.1) == from then WithTile(cells, n.0, n.1, to) else cells
  }

  /** Every orthogonal neighbour is reachable by some pair of draws. */
  lemma NeighbourCoversAll(xt: int, yt: int, p: Pos)
    requires (p.0 - xt) * (p.0 - xt) + (p.1 - yt) * (p.1 - yt) == 1
    ensures exists alongX: bool, side: int :: 0 <= side < 2 && Neighbour(xt, yt, alongX, side) == p
  {
    var dx := p.0 - xt;
    var dy := p.1 - yt;
    if dx * dx >= 1 {
      assert dy * dy == 0;
      if dx == 1 {
        assert Neighbour(xt, yt, true, 1) == p;
      } else if dx == -1 {
        assert Neighbour(xt, yt, true, 0) == p;
      }
    } else {
      assert dx == 0;
      if dy == 1 {
        assert Neighbour(xt, yt, false, 1) == p;
      } else if dy == -1 {
        assert Neighbour(xt, yt, false, 0) == p;
      }
    }
  }
}
