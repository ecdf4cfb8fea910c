/** FarmTile: farmland whose data value is its age. It ripens over five
    ticks, ripe farmland trodden on reverts to dirt now and then, and a
    shovel turns it back into dirt. */
module FarmRules {
  import opened Entities
  import opened Levels
  import opened Items

  const RipeAge: int := 5

  /** The grid after one tick at (xt, yt): the age grows by one while it is
      below 5. */
  function Aged(cells: map<Pos, Cell>, xt: int, yt: int): map<Pos, Cell> {
    if DataIn(cells, xt, yt) < RipeAge then WithData(cells, xt, yt, DataIn(cells, xt, yt) + 1) else cells
  }

  function AgedTimes(cells: map<Pos, Cell>, xt: int, yt: int, n: nat): map<Pos, Cell> {
    if n == 0 then cells else Aged(AgedTimes(cells, xt, yt, n - 1), xt, yt)
  }

  function Min(a: int, b: int): int {
    if a <= b then a else b
  }

  /** n ticks raise the age by n but never past 5 (an age already past 5 is
      kept), and change neither the tile nor any other cell. */
  lemma {:induction false} AgeAfterTicks(cells: map<Pos, Cell>, xt: int, yt: int, n: nat)
    requires (xt, yt) in cells
    ensures var r := AgedTimes(cells, xt, yt, n);
      && r.Keys == cells.Keys
      && DataIn(r, xt, yt) == (if DataIn(cells, xt, yt) >= RipeAge then DataIn(cells, xt, yt) else Min(DataIn(cells, xt, yt) + n, RipeAge))
      && r[(xt, yt)].tile == cells[(xt, yt)].tile
      && forall p :: p in cells && p != (xt, yt) ==> r[p] == cells[p]
  {
    if n > 0 {
      AgeAfterTicks(cells, xt, yt, n - 1);
    }
  }

  /** steppedOn: whether the step tramples the farmland, which takes a
      walker other than an item or a villager, the one-in-sixty draw
      (random.nextInt(60)) at 0, and a ripe age. */
  predicate Trampled(kind: Kind, draw60: int, age: int) {
    kind != ItemEntityKind && kind != VillagerKind && draw60 == 0 && age >= RipeAge
  }

  /** Farmland aged n ticks from age 0 can be trampled exactly when n
      reaches 5, and items and villagers never trample it. */
  lemma TrampledOnceRipe(cells: map<Pos, Cell>, xt: int, yt: int, n: nat, kind: Kind)
    requires (xt, yt) in cells && cells[(xt, yt)].data == 0
    ensures Trampled(kind, 0, DataIn(AgedTimes(cells, xt, yt, n), xt, yt))
      <==> n >= RipeAge && kind != ItemEntityKind && kind != VillagerKind
  {
    AgeAfterTicks(cells, xt, yt, n);
  }

  /** tick: ages the cell; always true. */
  method Tick(level: Level, xt: int, yt: int) returns (r: bool)
    modifies level`cells
    ensures r
    ensures level.cells == Aged(old(level.cells), xt, yt)
  {
    var age := level.DataAt(xt, yt);
    if age < RipeAge {
      level.SetData(xt, yt, age + 1);
    }
    return true;
  }

  /** steppedOn: a trampled cell becomes Dirt. */
  method SteppedOn(level: Level, xt: int, yt: int, kind: Kind, draw60: int)
    requires 0 <= draw60 < 60
    modifies level`cells
    ensures level.cells == if Trampled(kind, draw60, old(level.DataAt(xt, yt)))
                           then WithTile(old(level.cells), xt, yt, DirtId) else old(level.cells)
  {
    if kind == ItemEntityKind || kind == VillagerKind {
      return;
    }
    if draw60 != 0 {
      return;
    }
    if level.DataAt(xt, yt) < RipeAge {
      return;
    }
    level.SetTile(xt, yt, DirtId);
  }

  /** interact: a paid shovel (stamina 4 - level) turns the cell into Dirt. */
  method Interact(level: Level, xt: int, yt: int, item: Item, staminaOk: int -> bool, durabilityOk: bool)
    returns (handled: bool, charges: seq<Charge>)
    modifies level`cells
    ensures Paid(handled, charges) == ToolAction(item, Shovel, 4, staminaOk, durabilityOk)
    ensures level.cells == if handled then WithTile(old(level.cells), xt, yt, DirtId) else old(level.cells)
  {
    var paid := ToolAction(item, Shovel, 4, staminaOk, durabilityOk);
    if paid.ok {
      level.SetTile(xt, yt, DirtId);
    }
    return paid.ok, paid.charges;
  }
}
