/** The movement resolver (MovementHandler): moves an actor by (xd, yd) one
    axis at a time, bumping and checking the tile cells its hitbox newly
    covers, touching the actors it overlaps and refusing to walk into a
    newly overlapped solid actor.

    The level is seen through two of its answers: `mayPass(xt, yt)` is what
    the tile at cell (xt, yt) answers to mayPass for the mover, and
    `inRect(r)` is the list getEntitiesInRect returns for box r. A move
    queries the level once per axis step, and the x step's touchedBy
    callbacks run in between, so a move takes one such answer per step:
    `inRectX` for the x step and `inRectY` for the y step. The tile
    and actor callbacks (bumpedInto, touchedBy, steppedOn) are recorded, in
    the order they are made, as an event trace. */
module Movement {
  import opened Common
  import opened Entities
  import Interaction

  type TilePos = (int, int)

  datatype Event =
    | Bumped(xt: int, yt: int)                   // getTile(xt, yt).bumpedInto(level, xt, yt, mover)
    | Touched(touched: Entity, toucher: Entity)  // touched.touchedBy(toucher)
    | SteppedOn(xt: int, yt: int)                // getTile(xt, yt).steppedOn(level, xt, yt, mover)

  /** An inclusive range of tile cells. */
  datatype TileBox = TileBox(x0: int, y0: int, x1: int, y1: int) {
    predicate Covers(xt: int, yt: int) {
      x0 <= xt <= x1 && y0 <= yt <= y1
    }
  }

  /** The cells covered by the hitbox of an actor at (x, y) with radii (xr, yr):
      from (pos - r) >> 4 to (pos + r) >> 4 on each axis. */
  function CoveredCells(x: int, y: int, xr: int, yr: int): TileBox {
    TileBox(Shr4(x - xr), Shr4(y - yr), Shr4(x + xr), Shr4(y + yr))
  }

  /** On one axis, a cell index lies in the covered range exactly when some
      pixel of the hitbox's extent [lo, hi] falls in that cell. */
  lemma {:induction false} CoveredRangeIsPixelImage(lo: int, hi: int, t: int)
    requires lo <= hi
    ensures Shr4(lo) <= t <= Shr4(hi) <==> exists p :: lo <= p <= hi && Shr4(p) == t
  {
    if Shr4(lo) <= t <= Shr4(hi) {
      var p := if lo < Shl4(t) then Shl4(t) else lo;
      assert lo <= p <= hi && Shr4(p) == t;
    }
    forall p | lo <= p <= hi && Shr4(p) == t
      ensures Shr4(lo) <= t <= Shr4(hi)
    {
      Shr4Monotone(lo, p);
      Shr4Monotone(p, hi);
    }
  }

  /** A hitbox of radius 0 covers exactly the cell of its position. */
  lemma ZeroRadiusCoversOneCell(x: int, y: int)
    ensures var b := CoveredCells(x, y, 0, 0);
      b.x0 == b.x1 == Shr4(x) && b.y0 == b.y1 == Shr4(y)
  {
  }

  // ---------------------------------------------------------------------
  // Tile phase (checkTilesAndInteract)

  /** Scanning row yt from column xt to xt1: skip cells of the old box, bump
      every other cell, and stop after the first one that refuses passage.
      Answers whether every bumped cell let the mover pass, and the cells bumped. */
  function ScanRow(yt: int, xt: int, xt1: int, od: TileBox, mayPass: (int, int) -> bool): (bool, seq<TilePos>)
    decreases xt1 - xt
  {
    if xt > xt1 then (true, [])
    else if od.Covers(xt, yt) then ScanRow(yt, xt + 1, xt1, od, mayPass)
    else if !mayPass(xt, yt) then (false, [(xt, yt)])
    else
      var r := ScanRow(yt, xt + 1, xt1, od, mayPass);
      (r.0, [(xt, yt)] + r.1)
  }

  /** Scanning rows yt..nw.y1 of the new box, in row-major order. */
  function ScanRows(yt: int, nw: TileBox, od: TileBox, mayPass: (int, int) -> bool): (bool, seq<TilePos>)
    decreases nw.y1 - yt
  {
    if yt > nw.y1 then (true, [])
    else
      var r := ScanRow(yt, nw.x0, nw.x1, od, mayPass);
      if !r.0 then r
      else
        var s := ScanRows(yt + 1, nw, od, mayPass);
        (s.0, r.1 + s.1)
  }

  /** The whole tile phase of an axis step from old box `od` to new box `nw`. */
  function TileScan(nw: TileBox, od: TileBox, mayPass: (int, int) -> bool): (bool, seq<TilePos>) {
    ScanRows(nw.y0, nw, od, mayPass)
  }

  /** The inner loop of checkTilesAndInteract: row yt, columns xt..xt1. */
  method CheckRow(yt: int, xt0: int, xt1: int, od: TileBox, mayPass: (int, int) -> bool)
    returns (ok: bool, bumped: seq<TilePos>)
    ensures (ok, bumped) == ScanRow(yt, xt0, xt1, od, mayPass)
  {
    bumped := [];
    var xt := xt0;
    assert [] + ScanRow(yt, xt0, xt1, od, mayPass).1 == ScanRow(yt, xt0, xt1, od, mayPass).1;
    while xt <= xt1
      invariant (ScanRow(yt, xt, xt1, od, mayPass).0, bumped + ScanRow(yt, xt, xt1, od, mayPass).1)
             == ScanRow(yt, xt0, xt1, od, mayPass)
      decreases xt1 - xt
    {
      if od.Covers(xt, yt) {
        xt := xt + 1;
        continue;
      }
      bumped := bumped + [(xt, yt)];
      if !mayPass(xt, yt) {
        return false, bumped;
      }
      assert bumped + ScanRow(yt, xt + 1, xt1, od, mayPass).1
          == bumped[..|bumped| - 1] + ([(xt, yt)] + ScanRow(yt, xt + 1, xt1, od, mayPass).1);
      xt := xt + 1;
    }
    assert bumped + [] == bumped;
    ok := true;
  }

  /** checkTilesAndInteract: the nested loops over the new box, in row-major
      order, stopping at the first cell that refuses passage. */
  method CheckTiles(nw: TileBox, od: TileBox, mayPass: (int, int) -> bool) returns (ok: bool, bumped: seq<TilePos>)
    ensures (ok, bumped) == TileScan(nw, od, mayPass)
  {
    bumped := [];
    var yt := nw.y0;
    assert [] + TileScan(nw, od, mayPass).1 == TileScan(nw, od, mayPass).1;
    while yt <= nw.y1
      invariant (ScanRows(yt, nw, od, mayPass).0, bumped + ScanRows(yt, nw, od, mayPass).1) == TileScan(nw, od, mayPass)
      decreases nw.y1 - yt
    {
      var rowOk, row := CheckRow(yt, nw.x0, nw.x1, od, mayPass);
      if !rowOk {
        return false, bumped + row;
      }
      assert bumped + ScanRows(yt, nw, od, mayPass).1 == (bumped + row) + ScanRows(yt + 1, nw, od, mayPass).1;
      bumped := bumped + row;
      yt := yt + 1;
    }
    assert bumped + [] == bumped;
    ok := true;
  }

  /** Cell a comes before cell b in row-major order. */
  predicate Before(a: TilePos, b: TilePos) {
    a.1 < b.1 || (a.1 == b.1 && a.0 < b.0)
  }

  /** The cells are listed in strictly increasing row-major order (so none twice). */
  predicate Ordered(cells: seq<TilePos>) {
    forall i, j :: 0 <= i < j < |cells| ==> Before(cells[i], cells[j])
  }

  /** Every listed cell lets the mover pass. */
  predicate AllPass(cells: seq<TilePos>, mayPass: (int, int) -> bool) {
    forall i :: 0 <= i < |cells| ==> mayPass(cells[i].0, cells[i].1)
  }

  /** The scan stopped at the last listed cell: it refuses passage and every
      earlier one allows it. */
  predicate StoppedAt(cells: seq<TilePos>, mayPass: (int, int) -> bool) {
    |cells| > 0 && !mayPass(cells[|cells| - 1].0, cells[|cells| - 1].1) && AllPass(cells[..|cells| - 1], mayPass)
  }

  /** A row scan bumps cells of its own row and column range outside the old
      box, left to right. */
  lemma {:induction false} ScanRowPlaces(yt: int, xt: int, xt1: int, od: TileBox, mayPass: (int, int) -> bool)
    ensures var r := ScanRow(yt, xt, xt1, od, mayPass);
      && (forall i :: 0 <= i < |r.1| ==> r.1[i].1 == yt && xt <= r.1[i].0 <= xt1 && !od.Covers(r.1[i].0, yt))
      && Ordered(r.1)
    decreases xt1 - xt
  {
    if xt <= xt1 && (od.Covers(xt, yt) || mayPass(xt, yt)) {
      ScanRowPlaces(yt, xt + 1, xt1, od, mayPass);
      var r := ScanRow(yt, xt + 1, xt1, od, mayPass);
      if !od.Covers(xt, yt) {
        var cells := [(xt, yt)] + r.1;
        assert forall i :: 1 <= i < |cells| ==> cells[i] == r.1[i - 1];
      }
    }
  }

  /** A row scan that succeeds has bumped every cell of the range outside the
      old box, and each let the mover pass. */
  lemma {:induction false} ScanRowPasses(yt: int, xt: int, xt1: int, od: TileBox, mayPass: (int, int) -> bool)
    ensures var r := ScanRow(yt, xt, xt1, od, mayPass);
      r.0 ==> AllPass(r.1, mayPass) && forall c :: xt <= c <= xt1 && !od.Covers(c, yt) ==> (c, yt) in r.1
    decreases xt1 - xt
  {
    if xt <= xt1 && (od.Covers(xt, yt) || mayPass(xt, yt)) {
      ScanRowPasses(yt, xt + 1, xt1, od, mayPass);
      var r := ScanRow(yt, xt + 1, xt1, od, mayPass);
      if !od.Covers(xt, yt) {
        var cells := [(xt, yt)] + r.1;
        assert forall i :: 1 <= i < |cells| ==> cells[i] == r.1[i - 1];
      }
    }
  }

  /** A row scan that fails stopped right after the first refusing cell:
      that cell refuses, and every cell of the range left of it and outside
      the old box was bumped (and let the mover pass). */
  lemma {:induction false} ScanRowStops(yt: int, xt: int, xt1: int, od: TileBox, mayPass: (int, int) -> bool)
    ensures var r := ScanRow(yt, xt, xt1, od, mayPass);
      !r.0 ==> StoppedAt(r.1, mayPass)
               && forall c :: xt <= c < r.1[|r.1| - 1].0 && !od.Covers(c, yt) ==> (c, yt) in r.1
    decreases xt1 - xt
  {
    if xt <= xt1 && (od.Covers(xt, yt) || mayPass(xt, yt)) {
      ScanRowStops(yt, xt + 1, xt1, od, mayPass);
      var r := ScanRow(yt, xt + 1, xt1, od, mayPass);
      if !od.Covers(xt, yt) && !r.0 {
        var cells := [(xt, yt)] + r.1;
        assert cells[..|cells| - 1] == [(xt, yt)] + r.1[..|r.1| - 1];
        assert cells[|cells| - 1] == r.1[|r.1| - 1];
        forall c | xt <= c < cells[|cells| - 1].0 && !od.Covers(c, yt)
          ensures (c, yt) in cells
        {
          if c != xt {
            assert (c, yt) in r.1;
          }
        }
      }
    }
  }

  /** A scan of rows yt.. bumps cells of the new box outside the old one, in
      row-major order. */
  lemma {:induction false} ScanRowsPlaces(yt: int, nw: TileBox, od: TileBox, mayPass: (int, int) -> bool)
    requires nw.y0 <= yt
    ensures var r := ScanRows(yt, nw, od, mayPass);
      && (forall i :: 0 <= i < |r.1| ==> yt <= r.1[i].1 && nw.Covers(r.1[i].0, r.1[i].1) && !od.Covers(r.1[i].0, r.1[i].1))
      && Ordered(r.1)
    decreases nw.y1 - yt
  {
    if yt <= nw.y1 {
      ScanRowPlaces(yt, nw.x0, nw.x1, od, mayPass);
      var row := ScanRow(yt, nw.x0, nw.x1, od, mayPass);
      if row.0 {
        ScanRowsPlaces(yt + 1, nw, od, mayPass);
        var below := ScanRows(yt + 1, nw, od, mayPass);
        var cells := row.1 + below.1;
        assert forall i :: |row.1| <= i < |cells| ==> cells[i] == below.1[i - |row.1|];
      }
    }
  }

  /** A scan of rows yt.. that succeeds bumped every cell of those rows of
      the new box outside the old one, and each let the mover pass. */
  lemma {:induction false} ScanRowsPasses(yt: int, nw: TileBox, od: TileBox, mayPass: (int, int) -> bool)
    ensures var r := ScanRows(yt, nw, od, mayPass);
      r.0 ==> AllPass(r.1, mayPass) && forall c, d :: yt <= d && nw.Covers(c, d) && !od.Covers(c, d) ==> (c, d) in r.1
    decreases nw.y1 - yt
  {
    if yt <= nw.y1 {
      ScanRowPasses(yt, nw.x0, nw.x1, od, mayPass);
      var row := ScanRow(yt, nw.x0, nw.x1, od, mayPass);
      if row.0 {
        ScanRowsPasses(yt + 1, nw, od, mayPass);
        var below := ScanRows(yt + 1, nw, od, mayPass);
        var cells := row.1 + below.1;
        assert forall i :: |row.1| <= i < |cells| ==> cells[i] == below.1[i - |row.1|];
        forall c, d | yt <= d && nw.Covers(c, d) && !od.Covers(c, d)
          ensures below.0 ==> (c, d) in cells
        {
          if d == yt {
            assert (c, d) in row.1;
          }
        }
      }
    }
  }

  /** A scan of rows yt.. that fails stopped right after the first refusing
      cell: that cell refuses, and every cell of those rows of the new box
      outside the old one that comes before it in row-major order was bumped. */
  lemma {:induction false} ScanRowsStops(yt: int, nw: TileBox, od: TileBox, mayPass: (int, int) -> bool)
    ensures var r := ScanRows(yt, nw, od, mayPass);
      !r.0 ==> StoppedAt(r.1, mayPass)
               && forall c, d :: yt <= d && nw.Covers(c, d) && !od.Covers(c, d) && Before((c, d), r.1[|r.1| - 1])
                    ==> (c, d) in r.1
    decreases nw.y1 - yt
  {
    if yt <= nw.y1 {
      ScanRowPasses(yt, nw.x0, nw.x1, od, mayPass);
      ScanRowStops(yt, nw.x0, nw.x1, od, mayPass);
      ScanRowPlaces(yt, nw.x0, nw.x1, od, mayPass);
      var row := ScanRow(yt, nw.x0, nw.x1, od, mayPass);
      if row.0 {
        ScanRowsStops(yt + 1, nw, od, mayPass);
        var below := ScanRows(yt + 1, nw, od, mayPass);
        var cells := row.1 + below.1;
        if !below.0 {
          assert cells[..|cells| - 1] == row.1 + below.1[..|below.1| - 1];
          assert cells[|cells| - 1] == below.1[|below.1| - 1];
          forall c, d | yt <= d && nw.Covers(c, d) && !od.Covers(c, d) && Before((c, d), cells[|cells| - 1])
            ensures (c, d) in cells
          {
            if d == yt {
              assert (c, d) in row.1;
            } else {
              assert (c, d) in below.1;
            }
          }
        }
      } else {
        assert row.1[|row.1| - 1].1 == yt;
      }
    }
  }

  /** The tile phase bumps only cells the new hitbox covers and the old one
      does not, in row-major order, each once; it succeeds exactly when every
      such cell lets the mover pass, in which case it has bumped them all, and
      otherwise it stopped right after the first cell that refused. */
  lemma TileScanSpec(nw: TileBox, od: TileBox, mayPass: (int, int) -> bool)
    ensures var r := TileScan(nw, od, mayPass);
      && (forall i :: 0 <= i < |r.1| ==> nw.Covers(r.1[i].0, r.1[i].1) && !od.Covers(r.1[i].0, r.1[i].1))
      && Ordered(r.1)
      && (r.0 <==> forall c, d :: nw.Covers(c, d) && !od.Covers(c, d) ==> mayPass(c, d))
      && (r.0 ==> forall c, d :: nw.Covers(c, d) && !od.Covers(c, d) ==> (c, d) in r.1)
      && (!r.0 ==> StoppedAt(r.1, mayPass))
      && (!r.0 ==> forall c, d :: nw.Covers(c, d) && !od.Covers(c, d) && Before((c, d), r.1[|r.1| - 1]) ==> (c, d) in r.1)
  {
    ScanRowsPlaces(nw.y0, nw, od, mayPass);
    ScanRowsPasses(nw.y0, nw, od, mayPass);
    ScanRowsStops(nw.y0, nw, od, mayPass);
    var r := TileScan(nw, od, mayPass);
    if r.0 {
      forall c, d | nw.Covers(c, d) && !od.Covers(c, d)
        ensures mayPass(c, d)
      {
        assert (c, d) in r.1;
        var i :| 0 <= i < |r.1| && r.1[i] == (c, d);
      }
    } else {
      var last := r.1[|r.1| - 1];
      assert nw.Covers(last.0, last.1) && !od.Covers(last.0, last.1) && !mayPass(last.0, last.1);
    }
  }

  /** The bump notifications for a list of cells, in order. */
  function Bumps(cells: seq<TilePos>): (ev: seq<Event>)
    ensures |ev| == |cells|
    ensures forall i :: 0 <= i < |cells| ==> ev[i] == Bumped(cells[i].0, cells[i].1)
  {
    if cells == [] then [] else [Bumped(cells[0].0, cells[0].1)] + Bumps(cells[1..])
  }

  // ---------------------------------------------------------------------
  // Actor phase (processInteractions, removeAll, checkBlockages)

  /** The touch notification made for actor `e` met by `mover`: a player met
      by a non-player makes the mover the one touched; in every other case,
      two players included, `e` is touched by the mover. */
  function MoveTouch(mover: Entity, e: Entity): Event {
    if e.kind.IsPlayer() && !mover.kind.IsPlayer() then Touched(mover, e) else Touched(e, mover)
  }

  /** processInteractions: one notification per listed actor other than the mover. */
  function Touches(mover: Entity, isIn: seq<Entity>): seq<Event> {
    if isIn == [] then []
    else
      var last := isIn[|isIn| - 1];
      Touches(mover, isIn[..|isIn| - 1]) + (if last == mover then [] else [MoveTouch(mover, last)])
  }

  method ProcessInteractions(mover: Entity, isIn: seq<Entity>) returns (events: seq<Event>)
    ensures events == Touches(mover, isIn)
  {
    events := [];
    for i := 0 to |isIn|
      invariant events == Touches(mover, isIn[..i])
    {
      assert isIn[..i + 1][..i] == isIn[..i];
      var e := isIn[i];
      if e == mover {
        continue;
      }
      events := events + [MoveTouch(mover, e)];
    }
    assert isIn[..|isIn|] == isIn;
  }

  /** `list.contains(e)`: some element equals `e`, that is, has its hash code (its id). */
  predicate ContainsEqual(list: seq<Entity>, e: Entity)
    reads list`eid, e`eid
  {
    exists w :: w in list && w.HashCode() == e.HashCode()
  }

  method Contains(list: seq<Entity>, e: Entity) returns (found: bool)
    ensures found == ContainsEqual(list, e)
  {
    found := false;
    for i := 0 to |list|
      invariant found == exists j :: 0 <= j < i && list[j].HashCode() == e.HashCode()
    {
      if list[i].Equals(e) {
        found := true;
      }
    }
  }

  /** `isIn.removeAll(wasIn)`: the actors of `isIn` whose id is not that of
      any actor of `wasIn`, in their order. */
  function Newcomers(isIn: seq<Entity>, wasIn: seq<Entity>): seq<Entity>
    reads isIn`eid, wasIn`eid
  {
    if isIn == [] then []
    else
      var last := isIn[|isIn| - 1];
      Newcomers(isIn[..|isIn| - 1], wasIn) + (if ContainsEqual(wasIn, last) then [] else [last])
  }

  method RemoveAll(isIn: seq<Entity>, wasIn: seq<Entity>) returns (kept: seq<Entity>)
    ensures kept == Newcomers(isIn, wasIn)
  {
    kept := [];
    for i := 0 to |isIn|
      invariant kept == Newcomers(isIn[..i], wasIn)
    {
      assert isIn[..i + 1][..i] == isIn[..i];
      var seen := Contains(wasIn, isIn[i]);
      if !seen {
        kept := kept + [isIn[i]];
      }
    }
    assert isIn[..|isIn|] == isIn;
  }

  /** Some listed actor other than the mover blocks it. */
  predicate Blocked(mover: Entity, others: seq<Entity>) {
    exists i :: 0 <= i < |others| && others[i] != mover && others[i].Blocks(mover)
  }

  /** checkBlockages: true when no listed actor other than the mover blocks it. */
  method CheckBlockages(mover: Entity, others: seq<Entity>) returns (free: bool)
    ensures free == !Blocked(mover, others)
  {
    for i := 0 to |others|
      invariant forall j :: 0 <= j < i ==> others[j] == mover || !others[j].Blocks(mover)
    {
      var e := others[i];
      if e == mover {
        continue;
      }
      if e.Blocks(mover) {
        return false;
      }
    }
    return true;
  }

  // ---------------------------------------------------------------------
  // One axis step (move2) and a whole move (move)

  datatype StepResult = StepResult(ok: bool, events: seq<Event>)

  /** move2 for an actor at (x, y) with radii (xr, yr); `wasIn` and `isIn` are
      the level's lists of actors in the current and in the shifted hitbox. */
  function Step(mover: Entity, x: int, y: int, xr: int, yr: int, xd: int, yd: int,
                mayPass: (int, int) -> bool, wasIn: seq<Entity>, isIn: seq<Entity>): StepResult
    reads wasIn`eid, isIn`eid
  {
    if xd == 0 && yd == 0 then StepResult(true, [])
    else
      var scan := TileScan(CoveredCells(x + xd, y + yd, xr, yr), CoveredCells(x, y, xr, yr), mayPass);
      if !scan.0 then StepResult(false, Bumps(scan.1))
      else StepResult(!Blocked(mover, Newcomers(isIn, wasIn)), Bumps(scan.1) + Touches(mover, isIn))
  }

  /** Step with the lists the level answers for the two hitboxes. */
  function StepIn(mover: Entity, x: int, y: int, xr: int, yr: int, xd: int, yd: int,
                  mayPass: (int, int) -> bool, inRect: Rect -> seq<Entity>): StepResult
    reads inRect(BoundsAt(x, y, xr, yr))`eid, inRect(BoundsAt(x + xd, y + yd, xr, yr))`eid
  {
    Step(mover, x, y, xr, yr, xd, yd, mayPass, inRect(BoundsAt(x, y, xr, yr)), inRect(BoundsAt(x + xd, y + yd, xr, yr)))
  }

  /** move2: try to shift the actor by (xd, yd); the shift is committed only
      when the step succeeds. The lists the level hands out are lists of
      existing actors (the second requires). */
  method Move2(e: Entity, xd: int, yd: int, mayPass: (int, int) -> bool, inRect: Rect -> seq<Entity>)
    returns (ok: bool, events: seq<Event>)
    requires (xd == 0 && yd == 0) || e.level.Some?
    requires forall r :: allocated(inRect(r))
    modifies e`x, e`y
    ensures StepResult(ok, events) == old(StepIn(e, e.x, e.y, e.xr, e.yr, xd, yd, mayPass, inRect))
    ensures ok ==> e.x == old(e.x) + xd && e.y == old(e.y) + yd
    ensures !ok ==> e.x == old(e.x) && e.y == old(e.y)
  {
    if xd == 0 && yd == 0 {
      return true, [];
    }
    ghost var spec := StepIn(e, e.x, e.y, e.xr, e.yr, xd, yd, mayPass, inRect);
    var tilesOk, bumped := CheckTiles(CoveredCells(e.x + xd, e.y + yd, e.xr, e.yr), CoveredCells(e.x, e.y, e.xr, e.yr), mayPass);
    events := Bumps(bumped);
    if !tilesOk {
      assert StepResult(false, events) == spec;
      return false, events;
    }
    var wasIn := inRect(e.Bounds());
    var isIn := inRect(BoundsAt(e.x + xd, e.y + yd, e.xr, e.yr));
    assert spec == Step(e, e.x, e.y, e.xr, e.yr, xd, yd, mayPass, wasIn, isIn);
    var touches := ProcessInteractions(e, isIn);
    events := events + touches;
    var newcomers := RemoveAll(isIn, wasIn);
    var free := CheckBlockages(e, newcomers);
    if !free {
      assert StepResult(false, events) == spec;
      return false, events;
    }
    assert StepResult(true, events) == spec;
    e.x := e.x + xd;
    e.y := e.y + yd;
    ok := true;
  }

  datatype MoveResult = MoveResult(moved: bool, events: seq<Event>, x: int, y: int)

  /** The outcome of a move from (x, y) whose x step answered `sx` and whose
      y step answered `sy`: steppedOn on the final cell when either step
      succeeded. */
  function Combine(x: int, y: int, xd: int, yd: int, sx: StepResult, sy: StepResult): MoveResult {
    var x1 := if sx.ok then x + xd else x;
    var y1 := if sy.ok then y + yd else y;
    var moved := sx.ok || sy.ok;
    MoveResult(moved, sx.events + sy.events + (if moved then [SteppedOn(Shr4(x1), Shr4(y1))] else []), x1, y1)
  }

  /** move: the x step, then the y step from wherever the x step left the
      actor. */
  function MoveSpec(mover: Entity, x: int, y: int, xr: int, yr: int, xd: int, yd: int, saving: bool,
                    mayPass: (int, int) -> bool, inRectX: Rect -> seq<Entity>,
                    inRectY: Rect -> seq<Entity>): MoveResult
    reads inRectX(BoundsAt(x, y, xr, yr))`eid, inRectX(BoundsAt(x + xd, y, xr, yr))`eid
    reads inRectY(BoundsAt(x, y, xr, yr))`eid, inRectY(BoundsAt(x + xd, y, xr, yr))`eid
    reads inRectY(BoundsAt(x, y + yd, xr, yr))`eid, inRectY(BoundsAt(x + xd, y + yd, xr, yr))`eid
  {
    if saving || (xd == 0 && yd == 0) then MoveResult(true, [], x, y)
    else
      var sx := StepIn(mover, x, y, xr, yr, xd, 0, mayPass, inRectX);
      var x1 := if sx.ok then x + xd else x;
      Combine(x, y, xd, yd, sx, StepIn(mover, x1, y, xr, yr, 0, yd, mayPass, inRectY))
  }

  /** move(xd, yd): `saving` is the game's saving flag. */
  method Move(e: Entity, xd: int, yd: int, saving: bool, mayPass: (int, int) -> bool,
              inRectX: Rect -> seq<Entity>, inRectY: Rect -> seq<Entity>)
    returns (moved: bool, events: seq<Event>)
    requires saving || (xd == 0 && yd == 0) || e.level.Some?
    requires forall r :: allocated(inRectX(r))
    requires forall r :: allocated(inRectY(r))
    modifies e`x, e`y
    ensures MoveResult(moved, events, e.x, e.y) == old(MoveSpec(e, e.x, e.y, e.xr, e.yr, xd, yd, saving, mayPass, inRectX, inRectY))
    ensures saving || (xd == 0 && yd == 0) ==> moved && events == [] && e.x == old(e.x) && e.y == old(e.y)
  {
    if saving || (xd == 0 && yd == 0) {
      return true, [];
    }
    // the outcome, unfolded before the move; the steps change positions
    // only, never the ids the level's lists are read by, so the y step
    // answers as it would have before the move
    ghost var x0, y0, xr, yr := e.x, e.y, e.xr, e.yr;
    ghost var sx := StepIn(e, x0, y0, xr, yr, xd, 0, mayPass, inRectX);
    ghost var x1 := if sx.ok then x0 + xd else x0;
    ghost var sy := StepIn(e, x1, y0, xr, yr, 0, yd, mayPass, inRectY);
    assert MoveSpec(e, x0, y0, xr, yr, xd, yd, saving, mayPass, inRectX, inRectY) == Combine(x0, y0, xd, yd, sx, sy);
    var xOk, xEvents := Move2(e, xd, 0, mayPass, inRectX);
    assert StepResult(xOk, xEvents) == sx;
    var stopped := !xOk;
    assert e.x == x1;
    assert StepIn(e, x1, y0, xr, yr, 0, yd, mayPass, inRectY) == old(StepIn(e, x1, y0, xr, yr, 0, yd, mayPass, inRectY));
    var yOk, yEvents := Move2(e, 0, yd, mayPass, inRectY);
    assert StepResult(yOk, yEvents) == sy;
    if yOk {
      stopped := false;
    }
    events := xEvents + yEvents;
    assert events == sx.events + sy.events;
    if !stopped {
      events := events + [SteppedOn(Shr4(e.x), Shr4(e.y))];
    }
    moved := !stopped;
    assert moved == (sx.ok || sy.ok);
    assert e.y == (if sy.ok then y0 + yd else y0);
    assert MoveResult(moved, events, e.x, e.y) == Combine(x0, y0, xd, yd, sx, sy);
  }

  // ---------------------------------------------------------------------
  // Properties of the actor phase and of a whole move

  /** removeAll keeps exactly the listed actors whose id no actor of `wasIn`
      has, and never adds one. */
  lemma {:induction false} NewcomersSpec(isIn: seq<Entity>, wasIn: seq<Entity>)
    ensures forall e :: e in Newcomers(isIn, wasIn) <==> e in isIn && !ContainsEqual(wasIn, e)
    ensures |Newcomers(isIn, wasIn)| <= |isIn|
  {
    if isIn != [] {
      var init := isIn[..|isIn| - 1];
      NewcomersSpec(init, wasIn);
      assert isIn == init + [isIn[|isIn| - 1]];
    }
  }

  /** processInteractions notifies once per listed actor other than the mover
      (twice for an actor listed twice), always involving the mover and that actor. */
  lemma {:induction false} TouchesSpec(mover: Entity, isIn: seq<Entity>)
    ensures forall e :: e in isIn && e != mover ==> MoveTouch(mover, e) in Touches(mover, isIn)
    ensures forall ev :: ev in Touches(mover, isIn) ==>
      ev.Touched? && ev.touched != ev.toucher
      && (ev.touched == mover || ev.toucher == mover)
      && exists e :: e in isIn && e != mover && ev == MoveTouch(mover, e)
    ensures |Touches(mover, isIn)| <= |isIn|
  {
    if isIn != [] {
      var init := isIn[..|isIn| - 1];
      TouchesSpec(mover, init);
      assert isIn == init + [isIn[|isIn| - 1]];
    }
  }

  /** The touch rule of processInteractions agrees with handleTouch except
      for two players, where handleTouch notifies nobody and
      processInteractions notifies the listed player. */
  lemma MoveTouchVersusHandleTouch(mover: Entity, e: Entity)
    requires e != mover
    ensures !(mover.kind.IsPlayer() && e.kind.IsPlayer()) ==>
      var t := Interaction.HandleTouch(mover, e);
      t.Some? && MoveTouch(mover, e) == Touched(t.value.touched, t.value.toucher)
    ensures mover.kind.IsPlayer() && e.kind.IsPlayer() ==>
      Interaction.HandleTouch(mover, e) == None && MoveTouch(mover, e) == Touched(e, mover)
  {
  }

  /** An axis step succeeds exactly when it is a null step, or when every
      newly covered cell lets the mover pass and no newly overlapped actor
      (one whose id was not in the old hitbox) other than the mover blocks it. */
  lemma StepOkIff(mover: Entity, x: int, y: int, xr: int, yr: int, xd: int, yd: int,
                  mayPass: (int, int) -> bool, wasIn: seq<Entity>, isIn: seq<Entity>)
    ensures var nw := CoveredCells(x + xd, y + yd, xr, yr);
      var od := CoveredCells(x, y, xr, yr);
      Step(mover, x, y, xr, yr, xd, yd, mayPass, wasIn, isIn).ok <==>
        (xd == 0 && yd == 0)
        || ((forall c, d :: nw.Covers(c, d) && !od.Covers(c, d) ==> mayPass(c, d))
            && forall e :: e in isIn && e != mover && !ContainsEqual(wasIn, e) ==> !e.Blocks(mover))
  {
    var nw := CoveredCells(x + xd, y + yd, xr, yr);
    var od := CoveredCells(x, y, xr, yr);
    TileScanSpec(nw, od, mayPass);
    NewcomersSpec(isIn, wasIn);
    var news := Newcomers(isIn, wasIn);
    if Blocked(mover, news) {
      var i :| 0 <= i < |news| && news[i] != mover && news[i].Blocks(mover);
      assert news[i] in news;
    }
    forall e | e in isIn && e != mover && !ContainsEqual(wasIn, e) && e.Blocks(mover)
      ensures Blocked(mover, news)
    {
      assert e in news;
      var i :| 0 <= i < |news| && news[i] == e;
    }
  }

  /** An axis step never reports steppedOn; it bumps the cells of the tile
      phase first, and when the tile phase passes it notifies every listed
      actor other than the mover, whether or not a newcomer then blocks the
      step; when the tile phase fails it notifies no actor. */
  lemma StepEvents(mover: Entity, x: int, y: int, xr: int, yr: int, xd: int, yd: int,
                   mayPass: (int, int) -> bool, wasIn: seq<Entity>, isIn: seq<Entity>)
    ensures var s := Step(mover, x, y, xr, yr, xd, yd, mayPass, wasIn, isIn);
      var scan := TileScan(CoveredCells(x + xd, y + yd, xr, yr), CoveredCells(x, y, xr, yr), mayPass);
      && (forall ev :: ev in s.events ==> !ev.SteppedOn?)
      && ((xd != 0 || yd != 0) ==> |scan.1| <= |s.events| && s.events[..|scan.1|] == Bumps(scan.1))
      && ((xd != 0 || yd != 0) && scan.0 ==> forall e :: e in isIn && e != mover ==> MoveTouch(mover, e) in s.events)
      && ((exists ev :: ev in s.events && ev.Touched?) ==> (xd != 0 || yd != 0) && scan.0)
  {
    var s := Step(mover, x, y, xr, yr, xd, yd, mayPass, wasIn, isIn);
    var scan := TileScan(CoveredCells(x + xd, y + yd, xr, yr), CoveredCells(x, y, xr, yr), mayPass);
    TouchesSpec(mover, isIn);
    if xd != 0 || yd != 0 {
      var b := Bumps(scan.1);
      if scan.0 {
        assert s.events == b + Touches(mover, isIn);
        assert s.events[..|scan.1|] == b;
        forall e | e in isIn && e != mover
          ensures MoveTouch(mover, e) in s.events
        {
          assert MoveTouch(mover, e) in Touches(mover, isIn);
        }
      }
      forall ev | ev in s.events
        ensures !ev.SteppedOn?
        ensures ev.Touched? ==> scan.0
      {
        if ev in b {
          var i :| 0 <= i < |b| && b[i] == ev;
        }
      }
    }
  }

  /** A move ends either where it began or shifted on each axis by that
      axis's delta; it reports steppedOn only when it reports success, once,
      as its last notification and on the final cell. */
  lemma MoveSpecShape(mover: Entity, x: int, y: int, xr: int, yr: int, xd: int, yd: int, saving: bool,
                      mayPass: (int, int) -> bool,
                      inRectX: Rect -> seq<Entity>, inRectY: Rect -> seq<Entity>)
    ensures var m := MoveSpec(mover, x, y, xr, yr, xd, yd, saving, mayPass, inRectX, inRectY);
      && (m.x == x || m.x == x + xd) && (m.y == y || m.y == y + yd)
      && ((exists ev :: ev in m.events && ev.SteppedOn?) <==> m.moved && !saving && (xd != 0 || yd != 0))
      && (m.moved && !saving && (xd != 0 || yd != 0) ==>
            m.events[|m.events| - 1] == SteppedOn(Shr4(m.x), Shr4(m.y))
            && forall i :: 0 <= i < |m.events| - 1 ==> !m.events[i].SteppedOn?)
  {
    if !saving && (xd != 0 || yd != 0) {
      var sx := StepIn(mover, x, y, xr, yr, xd, 0, mayPass, inRectX);
      var x1 := if sx.ok then x + xd else x;
      var sy := StepIn(mover, x1, y, xr, yr, 0, yd, mayPass, inRectY);
      StepEvents(mover, x, y, xr, yr, xd, 0, mayPass, inRectX(BoundsAt(x, y, xr, yr)), inRectX(BoundsAt(x + xd, y, xr, yr)));
      StepEvents(mover, x1, y, xr, yr, 0, yd, mayPass, inRectY(BoundsAt(x1, y, xr, yr)), inRectY(BoundsAt(x1, y + yd, xr, yr)));
      CombineShape(x, y, xd, yd, sx, sy);
    }
  }

  /** Combining two steps that report no steppedOn of their own. */
  lemma CombineShape(x: int, y: int, xd: int, yd: int, sx: StepResult, sy: StepResult)
    requires forall ev :: ev in sx.events ==> !ev.SteppedOn?
    requires forall ev :: ev in sy.events ==> !ev.SteppedOn?
    ensures var m := Combine(x, y, xd, yd, sx, sy);
      && (m.x == x || m.x == x + xd) && (m.y == y || m.y == y + yd)
      && ((exists ev :: ev in m.events && ev.SteppedOn?) <==> m.moved)
      && (m.moved ==>
            m.events[|m.events| - 1] == SteppedOn(Shr4(m.x), Shr4(m.y))
            && forall i :: 0 <= i < |m.events| - 1 ==> !m.events[i].SteppedOn?)
  {
    var m := Combine(x, y, xd, yd, sx, sy);
    var steps := sx.events + sy.events;
    assert forall ev :: ev in steps ==> !ev.SteppedOn?;
    if m.moved {
      assert m.events == steps + [SteppedOn(Shr4(m.x), Shr4(m.y))];
      assert m.events[..|m.events| - 1] == steps;
      assert m.events[|m.events| - 1] in m.events;
      forall i | 0 <= i < |m.events| - 1
        ensures !m.events[i].SteppedOn?
      {
        assert m.events[i] == steps[i];
        assert steps[i] in steps;
      }
    } else {
      assert m.events == steps;
    }
  }

  /** As written, a move with no vertical component reports success even
      when the horizontal step is refused: the second step is a null step,
      which always succeeds, and it clears `stopped`. */
  lemma MoveWithoutVerticalDeltaAlwaysSucceeds(mover: Entity, x: int, y: int, xr: int, yr: int, xd: int,
                                               saving: bool, mayPass: (int, int) -> bool,
                                               inRectX: Rect -> seq<Entity>, inRectY: Rect -> seq<Entity>)
    ensures MoveSpec(mover, x, y, xr, yr, xd, 0, saving, mayPass, inRectX, inRectY).moved
  {
  }

  /** Likewise a move with no horizontal component reports success even
      when the vertical step is refused: the first step is the null step,
      which always succeeds and leaves `stopped` false. */
  lemma MoveWithoutHorizontalDeltaAlwaysSucceeds(mover: Entity, x: int, y: int, xr: int, yr: int, yd: int,
                                                 saving: bool, mayPass: (int, int) -> bool,
                                                 inRectX: Rect -> seq<Entity>, inRectY: Rect -> seq<Entity>)
    ensures MoveSpec(mover, x, y, xr, yr, 0, yd, saving, mayPass, inRectX, inRectY).moved
  {
  }

  /** A concrete case: an actor at (88, 88) with radii (4, 3) moving 16
      pixels right into a wall bumps cell (6, 5), stays where it is, and yet
      reports success and steps on its own cell (5, 5). */
  lemma MoveIntoWallReportsSuccess(mover: Entity)
    ensures MoveSpec(mover, 88, 88, 4, 3, 16, 0, false, (xt, yt) => false, r => [], r => [])
         == MoveResult(true, [Bumped(6, 5), SteppedOn(5, 5)], 88, 88)
  {
    var od := CoveredCells(88, 88, 4, 3);
    var nw := CoveredCells(104, 88, 4, 3);
    assert od == TileBox(5, 5, 5, 5);
    assert nw == TileBox(6, 5, 6, 5);
    assert ScanRow(5, 6, 6, od, (xt, yt) => false) == (false, [(6, 5)]);
    assert Bumps([(6, 5)]) == [Bumped(6, 5)];
  }

  /** move as evidently intended: a step along an axis with no delta is not
      attempted and does not count as movement. */
  function GuardedMoveSpec(mover: Entity, x: int, y: int, xr: int, yr: int, xd: int, yd: int, saving: bool,
                           mayPass: (int, int) -> bool, inRectX: Rect -> seq<Entity>,
                           inRectY: Rect -> seq<Entity>): MoveResult
    reads inRectX(BoundsAt(x, y, xr, yr))`eid, inRectX(BoundsAt(x + xd, y, xr, yr))`eid
    reads inRectY(BoundsAt(x, y, xr, yr))`eid, inRectY(BoundsAt(x + xd, y, xr, yr))`eid
    reads inRectY(BoundsAt(x, y + yd, xr, yr))`eid, inRectY(BoundsAt(x + xd, y + yd, xr, yr))`eid
  {
    if saving || (xd == 0 && yd == 0) then MoveResult(true, [], x, y)
    else
      var sx := if xd != 0 then StepIn(mover, x, y, xr, yr, xd, 0, mayPass, inRectX) else StepResult(false, []);
      var x1 := if sx.ok then x + xd else x;
      Combine(x, y, xd, yd, sx, if yd != 0 then StepIn(mover, x1, y, xr, yr, 0, yd, mayPass, inRectY) else StepResult(false, []))
  }

  /** With the guards, a move that is attempted reports success exactly when
      the actor's position changed, and it agrees with the code as written
      whenever both deltas are non-zero. */
  lemma GuardedMoveReportsRealMoves(mover: Entity, x: int, y: int, xr: int, yr: int, xd: int, yd: int,
                                    mayPass: (int, int) -> bool,
                                    inRectX: Rect -> seq<Entity>, inRectY: Rect -> seq<Entity>)
    requires xd != 0 || yd != 0
    ensures var m := GuardedMoveSpec(mover, x, y, xr, yr, xd, yd, false, mayPass, inRectX, inRectY);
      m.moved <==> (m.x, m.y) != (x, y)
    ensures xd != 0 && yd != 0 ==>
      GuardedMoveSpec(mover, x, y, xr, yr, xd, yd, false, mayPass, inRectX, inRectY)
        == MoveSpec(mover, x, y, xr, yr, xd, yd, false, mayPass, inRectX, inRectY)
  {
  }
}
