/** The damage a breakable tile (HolyRockTile, IceSpikeTile,
    GoldenCloudTreeTile) keeps in its cell's data value: each hit adds to it,
    the tile breaks once it reaches the tile's health, and every tick wears
    one point off again. */
module Damage {
  import opened Common
  import opened Levels

  /** The damage after a hit of `dmg`: what the cell has taken so far plus
      the hit, or the tile's whole health in Creative mode. */
  function HitDamage(cells: map<Pos, Cell>, x: int, y: int, dmg: int, health: int, creative: bool): (d: int)
    ensures creative ==> d == health
    ensures !creative ==> d - DataIn(cells, x, y) == dmg
  {
    if creative then health else DataIn(cells, x, y) + dmg
  }

  /** The grid after a hit that leaves `damage`: at the tile's health the
      cell becomes `into`, below it the cell keeps its tile and records the
      damage. No other cell changes. */
  function HitCells(cells: map<Pos, Cell>, x: int, y: int, damage: int, health: int, into: int): (r: map<Pos, Cell>)
    ensures r.Keys == cells.Keys
    ensures (x, y) in cells && damage >= health ==> r[(x, y)] == Cell(into, 0)
    ensures (x, y) in cells && damage < health ==> r[(x, y)] == Cell(cells[(x, y)].tile, damage)
    ensures forall p :: p in cells && p != (x, y) ==> r[p] == cells[p]
  {
    if damage >= health then WithTile(cells, x, y, into) else WithData(cells, x, y, damage)
  }

  /** Hits that do not break the tile add up: a hit of a and then one of b
      leave the same damage as one hit of a + b. */
  lemma HitsAddUp(cells: map<Pos, Cell>, x: int, y: int, a: int, b: int, health: int, into: int)
    requires (x, y) in cells
    requires HitDamage(cells, x, y, a, health, false) < health
    ensures var once := HitCells(cells, x, y, HitDamage(cells, x, y, a, health, false), health, into);
      HitDamage(once, x, y, b, health, false) == HitDamage(cells, x, y, a + b, health, false)
      && HitCells(once, x, y, HitDamage(once, x, y, b, health, false), health, into)
         == HitCells(cells, x, y, HitDamage(cells, x, y, a + b, health, false), health, into)
  {
    var once := HitCells(cells, x, y, HitDamage(cells, x, y, a, health, false), health, into);
    var d := HitDamage(cells, x, y, a + b, health, false);
    assert HitDamage(once, x, y, b, health, false) == d;
    var lhs := HitCells(once, x, y, d, health, into);
    var rhs := HitCells(cells, x, y, d, health, into);
    assert forall p :: p in lhs ==> lhs[p] == rhs[p];
  }

  /** The grid after one tick of a damaged tile: the damage falls by one
      while it is positive. */
  function Decayed(cells: map<Pos, Cell>, x: int, y: int): map<Pos, Cell> {
    if DataIn(cells, x, y) > 0 then WithData(cells, x, y, DataIn(cells, x, y) - 1) else cells
  }

  function DecayedTimes(cells: map<Pos, Cell>, x: int, y: int, n: nat): map<Pos, Cell> {
    if n == 0 then cells else Decayed(DecayedTimes(cells, x, y, n - 1), x, y)
  }

  /** n ticks wear n points of damage off, never below 0, and change
      neither the tile nor any other cell. */
  lemma {:induction false} DecayWearsOff(cells: map<Pos, Cell>, x: int, y: int, n: nat)
    ensures var r := DecayedTimes(cells, x, y, n);
      && r.Keys == cells.Keys
      && DataIn(r, x, y) == (if DataIn(cells, x, y) <= 0 then DataIn(cells, x, y) else Max(DataIn(cells, x, y) - n, 0))
      && TileIn(r, x, y) == TileIn(cells, x, y)
      && forall p :: p in cells && p != (x, y) ==> r[p] == cells[p]
  {
    if n > 0 {
      DecayWearsOff(cells, x, y, n - 1);
    }
  }

  function Max(a: int, b: int): int {
    if a >= b then a else b
  }
}
