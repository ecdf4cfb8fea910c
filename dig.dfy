/** Digging up a ground cover tile (jungle grass, mycelium) with a shovel,
    a hoe or a pickaxe: both tiles share the rule, each at stamina cost
    4 - level, and differ only in what they answer after a pickaxe. */
module Digging {
  import opened Levels
  import opened Items

  /** The tools the rule reacts to. */
  predicate Digs(item: Item) {
    item.Tool? && (item.kind == Shovel || item.kind == Hoe || item.kind == Pickaxe)
  }

  /** The player paid for a dig: a digging tool, stamina and durability. */
  predicate PaidDig(item: Item, staminaOk: int -> bool, durabilityOk: bool) {
    Digs(item) && staminaOk(4 - item.level) && durabilityOk
  }

  /** What a dig leaves behind: Path after a pickaxe, Dirt otherwise. */
  function DugTile(kind: ToolType): int {
    if kind == Pickaxe then PathId else DirtId
  }

  /** The drops of a paid dig at tile (xt, yt): after a shovel or a pickaxe
      two seeds when the one-in-five draw is 0; after a hoe one seed when
      the one-in-fifteen draw is 0 and one dirt when the one-in-sixty-four
      draw is 0. */
  function DigDrops(xt: int, yt: int, kind: ToolType, d5: int, d15: int, d64: int): seq<Drop> {
    if kind == Hoe then
      (if d15 == 0 then [DropOn(xt, yt, 1, 1, "Seeds")] else [])
      + (if d64 == 0 then [DropOn(xt, yt, 1, 1, "Dirt")] else [])
    else if d5 == 0 then [DropOn(xt, yt, 2, 2, "Seeds")] else []
  }

  /** The outcome of an interaction: the new grid, the drops, the answer and
      the payments asked for. */
  datatype Dug = Dug(cells: map<Pos, Cell>, drops: seq<Drop>, handled: bool, charges: seq<Charge>)

  /** interact on the tile at (xt, yt). `d5`, `d15` and `d64` are the
      random draws; `pickaxeAnswer` is what the tile answers after a paid
      pickaxe dig. */
  function Dig(cells: map<Pos, Cell>, xt: int, yt: int, item: Item, staminaOk: int -> bool, durabilityOk: bool,
               d5: int, d15: int, d64: int, pickaxeAnswer: bool): (r: Dug)
    ensures r.cells.Keys == cells.Keys
    ensures forall p :: p in cells && p != (xt, yt) ==> r.cells[p] == cells[p]
    ensures PaidDig(item, staminaOk, durabilityOk) && (xt, yt) in cells ==>
      r.cells[(xt, yt)] == Cell(if item.kind == Pickaxe then PathId else DirtId, 0)
    ensures !PaidDig(item, staminaOk, durabilityOk) ==> r.cells == cells && r.drops == [] && !r.handled
    ensures r.handled <==> PaidDig(item, staminaOk, durabilityOk) && (item.kind != Pickaxe || pickaxeAnswer)
    ensures r.charges == if Digs(item) then ToolAction(item, item.kind, 4, staminaOk, durabilityOk).charges else []
    ensures |r.drops| <= 2
    ensures forall d :: d in r.drops ==> d.px == xt * 16 + 8 && d.py == yt * 16 + 8 && (d.item == "Seeds" || d.item == "Dirt")
  {
    if !Digs(item) then Dug(cells, [], false, [])
    else
      var paid := ToolAction(item, item.kind, 4, staminaOk, durabilityOk);
      if !paid.ok then Dug(cells, [], false, paid.charges)
      else Dug(WithTile(cells, xt, yt, DugTile(item.kind)), DigDrops(xt, yt, item.kind, d5, d15, d64),
               item.kind != Pickaxe || pickaxeAnswer, paid.charges)
  }

  /** The rule with a false answer after a pickaxe (jungle grass): a paid
      pickaxe turns a grass cell into Path and charges the player, yet the
      tile answers that it did not handle the interaction. */
  lemma PickaxeDigGoesUnreported(cells: map<Pos, Cell>, xt: int, yt: int, level: int,
                                 staminaOk: int -> bool, d5: int, d15: int, d64: int)
    requires (xt, yt) in cells && cells[(xt, yt)].tile == JungleGrassId
    requires staminaOk(4 - level)
    ensures var r := Dig(cells, xt, yt, Tool(Pickaxe, level), staminaOk, true, d5, d15, d64, false);
      && r.cells != cells
      && r.cells[(xt, yt)] == Cell(PathId, 0)
      && r.charges == [Stamina(4 - level), Durability]
      && !r.handled
  {
    var r := Dig(cells, xt, yt, Tool(Pickaxe, level), staminaOk, true, d5, d15, d64, false);
    assert r.cells[(xt, yt)] != cells[(xt, yt)];
  }

  /** The rule with a true answer after a pickaxe (mycelium, and jungle
      grass as evidently intended): the answer is true exactly when the
      player paid, and so whenever the grid changed or something dropped. */
  lemma DigReportsEveryChange(cells: map<Pos, Cell>, xt: int, yt: int, item: Item, staminaOk: int -> bool,
                              durabilityOk: bool, d5: int, d15: int, d64: int)
    ensures var r := Dig(cells, xt, yt, item, staminaOk, durabilityOk, d5, d15, d64, true);
      && (r.handled <==> PaidDig(item, staminaOk, durabilityOk))
      && (r.cells != cells || r.drops != [] ==> r.handled)
      && (r.handled <==> Durability in r.charges && r.charges[0] == Stamina(4 - item.level) && durabilityOk)
  {
  }
}
