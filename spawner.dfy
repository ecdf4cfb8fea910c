/** Spawner: furniture that every 200 to 400 ticks may spawn a copy of its
    mob on a free tile next to it, that tools wear down, and whose mob level
    a Creative player cycles. */
module Spawners {
  import opened Common
  import opened Entities
  import opened Items
  import opened Levels

  /** Eight tiles, in pixels: the spawner only works with a player this close. */
  const ActiveRadius: int := 8 * 16
  const MinSpawnInterval: int := 200
  const MaxSpawnInterval: int := 400
  const InitialHealth: int := 100
  /** The score a player earns for destroying a spawner. */
  const DestroyScore: int := 500

  /** The mob a spawner copies: its kind, whether it is an EnemyMob, and for
      an enemy its level and getMaxLevel(). */
  datatype Mob = Mob(kind: Kind, enemy: bool, lvl: int, maxLevel: int)

  /** initMob's levels (lvl, maxMobLevel): an enemy's own level, cut down to
      its maximum; 1 and 1 for any other mob. */
  function MobLevels(m: Mob): (r: (int, int))
    ensures r.0 <= r.1
    ensures !m.enemy ==> r == (1, 1)
    ensures m.enemy ==> r.1 == m.maxLevel && r.0 <= m.lvl && (r.0 == m.lvl || r.0 == m.maxLevel)
  {
    if !m.enemy then (1, 1)
    else if m.lvl > m.maxLevel then (m.maxLevel, m.maxLevel)
    else (m.lvl, m.maxLevel)
  }

  /** The level after a Creative use: one up, back to 1 past the maximum. */
  function NextLvl(l: int, max: int): (r: int)
    ensures 1 <= l <= max ==> 1 <= r <= max
    ensures r == l + 1 || r == 1
  {
    if l + 1 > max then 1 else l + 1
  }

  function NextLvlTimes(l: int, max: int, n: nat): int {
    if n == 0 then l else NextLvl(NextLvlTimes(l, max, n - 1), max)
  }

  lemma {:induction false} NextLvlTimesAdd(l: int, max: int, a: nat, b: nat)
    ensures NextLvlTimes(l, max, a + b) == NextLvlTimes(NextLvlTimes(l, max, a), max, b)
  {
    if b > 0 {
      NextLvlTimesAdd(l, max, a, b - 1);
    }
  }

  lemma {:induction false} NextLvlClimbs(l: int, max: int, n: nat)
    requires l + n <= max
    ensures NextLvlTimes(l, max, n) == l + n
  {
    if n > 0 {
      NextLvlClimbs(l, max, n - 1);
    }
  }

  /** Creative uses cycle through every level: `max` uses from any level
      in 1..max come back to it. */
  lemma LevelsCycle(l: int, max: int)
    requires 1 <= l <= max
    ensures NextLvlTimes(l, max, max) == l
  {
    NextLvlClimbs(l, max, max - l);
    assert NextLvlTimes(l, max, max - l + 1) == 1;
    NextLvlTimesAdd(l, max, max - l + 1, l - 1);
    NextLvlClimbs(1, max, l - 1);
  }

  /** A spawn position passes the filter of trySpawn: the new mob may stand
      there and, for an enemy, the tile gives no light. */
  predicate FreeFor(p: Pos, enemy: bool, mayPass: Pos -> bool, light: Pos -> int) {
    mayPass(p) && !(enemy && light(p) > 0)
  }

  /** The positions of `area` that pass the filter, in order. */
  function Candidates(area: seq<Pos>, enemy: bool, mayPass: Pos -> bool, light: Pos -> int): seq<Pos> {
    if area == [] then []
    else
      var last := area[|area| - 1];
      Candidates(area[..|area| - 1], enemy, mayPass, light) + if FreeFor(last, enemy, mayPass, light) then [last] else []
  }

  /** The candidates are exactly the free positions of the area. */
  lemma {:induction false} CandidatesAreFree(area: seq<Pos>, enemy: bool, mayPass: Pos -> bool, light: Pos -> int)
    ensures var c := Candidates(area, enemy, mayPass, light);
      && |c| <= |area|
      && forall p :: p in c <==> p in area && FreeFor(p, enemy, mayPass, light)
  {
    if area != [] {
      var init := area[..|area| - 1];
      CandidatesAreFree(init, enemy, mayPass, light);
      assert area == init + [area[|area| - 1]];
    }
  }

  /** What the level is asked to add: the new mob's level and pixel position. */
  datatype Spawn = Spawn(level: LevelRef, x: int, y: int)

  /** The outcome of trySpawn for a spawner on level `at` at pixel (x, y):
      no spawn without a level, on a full level, without a closest player,
      with that player farther than 128 pixels, when the mob cannot be built
      (`built`), or when no position of `area` is free; otherwise a spawn on
      the free position drawn by `choose` (random.nextInt). */
  function SpawnOutcome(at: Option<LevelRef>, x: int, y: int, enemy: bool, mobCount: int, maxMobCount: int,
                        player: Option<Entity>, built: bool, area: seq<Pos>, mayPass: Pos -> bool,
                        light: Pos -> int, choose: int -> int): (r: Option<Spawn>)
    requires forall n :: n > 0 ==> 0 <= choose(n) < n
    reads if player.Some? then {player.value} else {}
    ensures r.None? <==>
      || at == None || mobCount >= maxMobCount || player == None
      || (player.value.x - x) * (player.value.x - x) + (player.value.y - y) * (player.value.y - y)
         > ActiveRadius * ActiveRadius
      || !built
      || forall p :: p in area ==> !FreeFor(p, enemy, mayPass, light)
    ensures r.Some? ==>
      && r.value.level == at.value
      && (Shr4(r.value.x), Shr4(r.value.y)) in area
      && FreeFor((Shr4(r.value.x), Shr4(r.value.y)), enemy, mayPass, light)
  {
    if at == None || mobCount >= maxMobCount || player == None then None
    else if (player.value.x - x) * (player.value.x - x) + (player.value.y - y) * (player.value.y - y)
            > ActiveRadius * ActiveRadius then None
    else if !built then None
    else
      var c := Candidates(area, enemy, mayPass, light);
      CandidatesAreFree(area, enemy, mayPass, light);
      if c == [] then
        assert forall p :: p in area ==> !FreeFor(p, enemy, mayPass, light);
        None
      else
        var p := c[choose(|c|)];
        assert p in c;
        Some(Spawn(at.value, Shl4(p.0), Shl4(p.1)))
  }

  /** The outcome of use() for a spawner holding mob `m` at level `l` with
      maximum `max`: (answer, mob, lvl, maxMobLevel) afterwards. In Creative
      mode an enemy spawner moves to the next level; when the new mob can be
      built (`built`) initMob takes it over, otherwise the old mob stays. */
  function UseOutcome(creative: bool, built: bool, m: Mob, l: int, max: int): (r: (bool, Mob, int, int))
    ensures r.0 <==> creative && m.enemy
    ensures !r.0 ==> r == (false, m, l, max)
    ensures r.0 && !built ==> r == (true, m, NextLvl(l, max), max)
    ensures r.0 && built ==> r.1 == m.(lvl := NextLvl(l, max), maxLevel := max) && r.3 == max
    ensures r.0 && built && max >= 1 ==> r.2 == NextLvl(l, max)
    ensures r.0 && built ==> r.2 <= max && (r.2 == NextLvl(l, max) || r.2 == max)
    ensures 1 <= l <= max ==> 1 <= r.2 <= r.3
  {
    if !(creative && m.enemy) then (false, m, l, max)
    else
      var next := if l + 1 > max then 1 else l + 1;
      if !built then (true, m, next, max)
      else
        var newmob := m.(lvl := next, maxLevel := max);
        var levels := MobLevels(newmob);
        (true, newmob, levels.0, levels.1)
  }

  /** damage dealt by one tool hit: all of the spawner's health in Creative
      mode; otherwise the tool level plus `d2` (random.nextInt(2)), plus
      `d5` + 2 (random.nextInt(5) + 2) for a pickaxe, doubled under haste. */
  function ToolDamage(kind: ToolType, level: int, health: int, creative: bool, haste: bool, d2: int, d5: int): (r: int)
    requires 0 <= d2 < 2 && 0 <= d5 < 5
    ensures creative ==> r == health
    ensures !creative ==> var m := if haste then 2 else 1;
      m * level <= r <= m * (level + (if kind == Pickaxe then 7 else 1))
    ensures !creative && kind == Pickaxe ==> r >= (if haste then 2 else 1) * (level + 2)
  {
    if creative then health
    else
      var base := level + d2 + (if kind == Pickaxe then d5 + 2 else 0);
      if haste then base * 2 else base
  }

  /** In Creative mode a tool hit always destroys the spawner. */
  lemma CreativeHitDestroys(kind: ToolType, level: int, health: int, haste: bool, d2: int, d5: int)
    requires 0 <= d2 < 2 && 0 <= d5 < 5
    ensures health - ToolDamage(kind, level, health, true, haste, d2, d5) <= 0
  {
  }

  class Spawner {
    /** The spawner's own actor record (its position and level). */
    const body: Entity
    var mob: Mob
    var health: int
    var lvl: int
    var maxMobLevel: int
    var spawnTick: int
    var tickTime: int

    /** Spawner(m): full health, the mob's levels, and a first interval;
        `draw201` is random.nextInt(201). */
    constructor (body: Entity, m: Mob, draw201: int)
      requires 0 <= draw201 <= 200
      ensures this.body == body && mob == m && health == InitialHealth && tickTime == 0
      ensures (lvl, maxMobLevel) == MobLevels(m)
      ensures spawnTick == MinSpawnInterval + draw201
      ensures Valid()
    {
      this.body := body;
      mob := m;
      health := InitialHealth;
      lvl := MobLevels(m).0;
      maxMobLevel := MobLevels(m).1;
      spawnTick := MinSpawnInterval + draw201;
      tickTime := 0;
    }

    /** The countdown stays in 1..400 and the level at most the maximum. */
    predicate Valid()
      reads `spawnTick, `lvl, `maxMobLevel
    {
      1 <= spawnTick <= MaxSpawnInterval && lvl <= maxMobLevel
    }

    /** initMob(m). */
    method InitMob(m: Mob)
      modifies `mob, `lvl, `maxMobLevel
      ensures mob == m && (lvl, maxMobLevel) == MobLevels(m)
      ensures lvl <= maxMobLevel
    {
      mob := m;
      if m.enemy {
        lvl := m.lvl;
        maxMobLevel := m.maxLevel;
      } else {
        lvl := 1;
        maxMobLevel := 1;
      }
      if lvl > maxMobLevel {
        lvl := maxMobLevel;
      }
    }

    /** resetSpawnInterval(): a new countdown in 200..400. */
    method ResetSpawnInterval(draw201: int)
      requires 0 <= draw201 <= 200
      modifies `spawnTick
      ensures spawnTick == MinSpawnInterval + draw201
      ensures MinSpawnInterval <= spawnTick <= MaxSpawnInterval
    {
      spawnTick := draw201 + MinSpawnInterval;
    }

    /** trySpawn(): nothing without a level, on a full level, without a
        player, with the player farther than 128 pixels or when the mob
        cannot be built; otherwise a random free position of `area` (the
        level's tiles around the spawner), or nothing when none is free.
        `levelAnswer` is the level's closest player, `built` whether the mob
        could be constructed, and `choose(n)` the draw random.nextInt(n). */
    method TrySpawn(mobCount: int, maxMobCount: int, levelAnswer: Option<Entity>, built: bool,
                    area: seq<Pos>, mayPass: Pos -> bool, light: Pos -> int, choose: int -> int)
      returns (spawned: Option<Spawn>)
      requires forall n :: n > 0 ==> 0 <= choose(n) < n
      ensures spawned == SpawnOutcome(body.level, body.x, body.y, mob.enemy, mobCount, maxMobCount,
                                      body.GetClosestPlayer(true, levelAnswer), built, area, mayPass, light, choose)
      ensures var player := body.GetClosestPlayer(true, levelAnswer);
        var c := Candidates(area, mob.enemy, mayPass, light);
        spawned.Some? <==>
          && body.level.Some? && mobCount < maxMobCount && player.Some?
          && (player.value.x - body.x) * (player.value.x - body.x) + (player.value.y - body.y) * (player.value.y - body.y)
             <= ActiveRadius * ActiveRadius
          && built && c != []
      ensures spawned.Some? ==>
        var c := Candidates(area, mob.enemy, mayPass, light);
        var p := c[choose(|c|)];
        && spawned.value == Spawn(body.level.value, Shl4(p.0), Shl4(p.1))
        && p in area && FreeFor(p, mob.enemy, mayPass, light)
    {
      if body.level == None {
        return None;
      }
      if mobCount >= maxMobCount {
        return None;
      }
      var player := body.GetClosestPlayer(true, levelAnswer);
      if player == None {
        return None;
      }
      var xd := player.value.x - body.x;
      var yd := player.value.y - body.y;
      if xd * xd + yd * yd > ActiveRadius * ActiveRadius {
        return None;
      }
      if !built {
        return None;
      }
      var valid: seq<Pos> := [];
      for i := 0 to |area|
        invariant valid == Candidates(area[..i], mob.enemy, mayPass, light)
      {
        assert area[..i + 1][..i] == area[..i];
        var p := area[i];
        if mayPass(p) && !(mob.enemy && light(p) > 0) {
          valid := valid + [p];
        }
      }
      assert area[..|area|] == area;
      if |valid| == 0 {
        return None;
      }
      var spawnPos := valid[choose(|valid|)];
      CandidatesAreFree(area, mob.enemy, mayPass, light);
      return Some(Spawn(body.level.value, Shl4(spawnPos.0), Shl4(spawnPos.1)));
    }

    /** tick(): counts the tick and the countdown; at zero a spawn is tried
        when `attempt` allows it (the draw against the chance
        10 · mobCount² / maxMobCount², computed in floating point) and the
        countdown restarts with `draw201`; on Peaceful it restarts with
        `peacefulDraw` on every tick. When the countdown reaches zero on a
        spawner that is on no level, reading the level's mob count throws
        before the draw: `ok` is false, and the tick stops with the tick
        counted and the countdown at zero, nothing spawned. */
    method Tick(attempt: bool, draw201: int, peaceful: bool, peacefulDraw: int,
                mobCount: int, maxMobCount: int, levelAnswer: Option<Entity>, built: bool,
                area: seq<Pos>, mayPass: Pos -> bool, light: Pos -> int, choose: int -> int)
      returns (ok: bool, spawned: Option<Spawn>)
      requires Valid()
      requires 0 <= draw201 <= 200 && 0 <= peacefulDraw <= 200
      requires forall n :: n > 0 ==> 0 <= choose(n) < n
      modifies `spawnTick, `tickTime
      ensures ok <==> !(old(spawnTick) <= 1 && body.level.None?)
      ensures tickTime == old(tickTime) + 1
      ensures !ok ==> spawnTick == old(spawnTick) - 1 == 0 && spawned == None
      ensures ok ==> Valid()
      ensures ok ==> spawnTick == if peaceful then MinSpawnInterval + peacefulDraw
                                  else if old(spawnTick) <= 1 then MinSpawnInterval + draw201
                                  else old(spawnTick) - 1
      ensures spawned == if old(spawnTick) <= 1 && attempt
                         then SpawnOutcome(body.level, body.x, body.y, mob.enemy, mobCount, maxMobCount,
                                           body.GetClosestPlayer(true, levelAnswer), built, area, mayPass, light, choose)
                         else None
    {
      tickTime := tickTime + 1;
      spawnTick := spawnTick - 1;
      spawned := None;
      ok := true;
      if spawnTick <= 0 {
        if body.level.None? {
          ok := false;
          return;
        }
        if attempt {
          spawned := TrySpawn(mobCount, maxMobCount, levelAnswer, built, area, mayPass, light, choose);
        }
        ResetSpawnInterval(draw201);
      }
      if peaceful {
        ResetSpawnInterval(peacefulDraw);
      }
    }

    /** use(): in Creative mode an enemy spawner moves to the next mob level
        and answers true; otherwise it answers false and nothing changes.
        `built` says whether the mob of the new level could be constructed. */
    method Use(creative: bool, built: bool) returns (r: bool)
      modifies `mob, `lvl, `maxMobLevel
      ensures (r, mob, lvl, maxMobLevel) == UseOutcome(creative, built, old(mob), old(lvl), old(maxMobLevel))
    {
      if creative && mob.enemy {
        lvl := lvl + 1;
        if lvl > maxMobLevel {
          lvl := 1;
        }
        if built {
          InitMob(mob.(lvl := lvl, maxLevel := maxMobLevel));
        }
        return true;
      }
      return false;
    }

    /** interact(player, item): a tool hits the spawner for ToolDamage and a
        spawner brought to 0 or below is taken off the level, scoring 500;
        a power glove in Creative mode picks it up; an empty hand uses it.
        `destroyed` says whether the level was asked to remove it. */
    method Interact(held: Option<Item>, creative: bool, haste: bool, d2: int, d5: int, built: bool)
      returns (handled: bool, destroyed: bool, score: int)
      requires 0 <= d2 < 2 && 0 <= d5 < 5
      modifies `health, `mob, `lvl, `maxMobLevel
      ensures held.Some? && held.value.Tool? ==>
        && handled
        && health == old(health) - ToolDamage(held.value.kind, held.value.level, old(health), creative, haste, d2, d5)
        && (destroyed <==> health <= 0)
        && score == (if destroyed then DestroyScore else 0)
        && mob == old(mob) && lvl == old(lvl) && maxMobLevel == old(maxMobLevel)
      ensures held == Some(PowerGlove) ==>
        && handled == creative && destroyed == creative && score == 0
        && health == old(health) && mob == old(mob) && lvl == old(lvl) && maxMobLevel == old(maxMobLevel)
      ensures held == None ==>
        && !destroyed && score == 0 && health == old(health)
        && (handled, mob, lvl, maxMobLevel) == UseOutcome(creative, built, old(mob), old(lvl), old(maxMobLevel))
      ensures held == Some(OtherItem) ==>
        && !handled && !destroyed && score == 0
        && health == old(health) && mob == old(mob) && lvl == old(lvl) && maxMobLevel == old(maxMobLevel)
    {
      if held.Some? && held.value.Tool? {
        var damage := ToolDamage(held.value.kind, held.value.level, health, creative, haste, d2, d5);
        health := health - damage;
        destroyed := health <= 0;
        score := if destroyed then DestroyScore else 0;
        return true, destroyed, score;
      }
      if held == Some(PowerGlove) && creative {
        return true, true, 0;
      }
      if held == None {
        handled := Use(creative, built);
        return handled, false, 0;
      }
      return false, false, 0;
    }
  }
}
