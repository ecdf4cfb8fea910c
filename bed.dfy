/** Bed: the sleeping players shared by every bed, and the flag saying
    whether anyone is awake. Players are told apart by their entity id,
    since Entity.equals and Entity.hashCode both use it. */
module Beds {
  import opened Common
  import opened Entities
  import Lifecycle

  /** A player: its actor record and its spawn point in tile coordinates. */
  class Player {
    const body: Entity
    var spawnx: int
    var spawny: int

    constructor (body: Entity)
      ensures this.body == body && spawnx == 0 && spawny == 0
    {
      this.body := body;
      spawnx := 0;
      spawny := 0;
    }
  }

  /** An entry of the sleeping-players map: the player and the bed it lies
      in (the bed's actor record). */
  datatype Sleeper = Sleeper(player: Player, bed: Entity)

  /** The game clock as the bed reads it (Updater's fields). */
  datatype Clock = Clock(tickCount: int, sleepStartTime: int, sleepEndTime: int, pastDay1: bool)

  /** Late enough to sleep: at or past the start of the night, or before
      its end once the first day is over. */
  predicate NightTime(c: Clock): (r: bool)
    ensures c.tickCount >= c.sleepStartTime ==> r
    ensures !c.pastDay1 ==> (r <==> c.tickCount >= c.sleepStartTime)
    ensures c.pastDay1 && c.tickCount < c.sleepEndTime ==> r
  {
    c.tickCount >= c.sleepStartTime || (c.tickCount < c.sleepEndTime && c.pastDay1)
  }

  /** A level that one player is re-added to on waking. */
  datatype Readd = Readd(player: Player, level: LevelRef)

  /** The static state of the Bed class. */
  class BedState {
    /** sleepingPlayers, keyed by the player's id. */
    var sleeping: map<int, Sleeper>
    var playersAwake: int

    constructor ()
      ensures sleeping == map[] && playersAwake == 1
    {
      sleeping := map[];
      playersAwake := 1;
    }

    /** sleeping(): nobody is awake. */
    predicate Sleeping()
      reads `playersAwake
    {
      playersAwake == 0
    }

    /** inBed(player): the player's id is in the map. */
    predicate InBed(p: Player)
      reads `sleeping, p.body`eid
    {
      p.body.eid in sleeping
    }

    /** checkCanSleep(player), without the "too early" notification: a player
        already in bed cannot sleep, and otherwise it must be night time. */
    predicate CheckCanSleep(p: Player, c: Clock): (r: bool)
      reads `sleeping, p.body`eid
      ensures InBed(p) ==> !r
      ensures r ==> NightTime(c)
    {
      !InBed(p) && NightTime(c)
    }

    /** use(player) on `bed`: when the player can sleep, its spawn point
        becomes the tile it stands on, it goes into the map, it is removed
        (`dropFrom` names the level asked to drop it) and nobody is awake any
        more. The answer is true whether or not the player could sleep. */
    method Use(bed: Entity, p: Player, c: Clock) returns (r: bool, dropFrom: Option<LevelRef>)
      modifies `sleeping, `playersAwake, p`spawnx, p`spawny, p.body`removed
      ensures r
      ensures old(CheckCanSleep(p, c)) ==>
        && p.spawnx == Shr4(p.body.x) && p.spawny == Shr4(p.body.y)
        && sleeping == old(sleeping)[p.body.eid := Sleeper(p, bed)]
        && p.body.removed && dropFrom == p.body.level
        && playersAwake == 0
      ensures !old(CheckCanSleep(p, c)) ==>
        && unchanged(this, p, p.body) && dropFrom == None
    {
      dropFrom := None;
      if CheckCanSleep(p, c) {
        p.spawnx := Shr4(p.body.x);
        p.spawny := Shr4(p.body.y);
        sleeping := sleeping[p.body.eid := Sleeper(p, bed)];
        dropFrom := Lifecycle.Remove(p.body);
        playersAwake := 0;
      }
      r := true;
    }

    /** removePlayer(player): drops the entry, leaving the flag alone. */
    method RemovePlayer(p: Player)
      modifies `sleeping
      ensures sleeping == old(sleeping) - {p.body.eid}
      ensures !InBed(p)
    {
      sleeping := sleeping - {p.body.eid};
    }

    /** removePlayers(): empties the map. */
    method RemovePlayers()
      modifies `sleeping
      ensures sleeping == map[]
    {
      sleeping := map[];
    }

    /** restorePlayer(player): a player in bed (found by its id) leaves the
        map and is re-added, as the object passed in, to its bed's level, or
        to the current level when the bed has none, and everyone counts as
        awake; a player not in bed changes nothing. */
    method RestorePlayer(p: Player, currentLevel: LevelRef) returns (readd: Option<Readd>)
      modifies `sleeping, `playersAwake
      ensures old(InBed(p)) ==>
        var bed := old(sleeping)[p.body.eid].bed;
        && sleeping == old(sleeping) - {p.body.eid}
        && playersAwake == 1
        && readd == Some(Readd(p, if bed.level.Some? then bed.level.value else currentLevel))
      ensures !old(InBed(p)) ==> sleeping == old(sleeping) && playersAwake == old(playersAwake) && readd == None
    {
      if p.body.eid !in sleeping {
        return None;
      }
      var s := sleeping[p.body.eid];
      sleeping := sleeping - {p.body.eid};
      var level := if s.bed.level.Some? then s.bed.level.value else currentLevel;
      readd := Some(Readd(p, level));
      playersAwake := 1;
    }

    /** The keys of the map in iteration order: each exactly once. */
    predicate Lists(order: seq<int>)
      reads `sleeping
    {
      (forall i :: 0 <= i < |order| ==> order[i] in sleeping)
      && (forall k :: k in sleeping ==> k in order)
      && (forall i, j :: 0 <= i < j < |order| ==> order[i] != order[j])
    }

    /** restorePlayers(), walking the keys in the map's iteration order
        `order`: every sleeper is re-added to its bed's level, then the map
        is emptied and everyone counts as awake. A bed with no level stops
        the walk with a null dereference (`ok` false): the players before it
        have been re-added and the map and the flag are left as they were. */
    method RestorePlayers(order: seq<int>) returns (ok: bool, readds: seq<Readd>)
      requires Lists(order)
      modifies `sleeping, `playersAwake
      ensures ok <==> forall k :: k in old(sleeping) ==> old(sleeping)[k].bed.level.Some?
      ensures ok ==> sleeping == map[] && playersAwake == 1 && |readds| == |order|
      ensures !ok ==> sleeping == old(sleeping) && playersAwake == old(playersAwake) && |readds| < |order|
      ensures !ok ==> old(sleeping)[order[|readds|]].bed.level == None
      ensures forall i :: 0 <= i < |readds| ==>
        readds[i].player == old(sleeping)[order[i]].player && old(sleeping)[order[i]].bed.level == Some(readds[i].level)
    {
      readds := [];
      var i := 0;
      while i < |order|
        invariant 0 <= i <= |order| && |readds| == i
        invariant sleeping == old(sleeping) && playersAwake == old(playersAwake)
        invariant forall j :: 0 <= j < i ==> sleeping[order[j]].bed.level.Some?
        invariant forall j :: 0 <= j < i ==>
          readds[j] == Readd(sleeping[order[j]].player, sleeping[order[j]].bed.level.value)
      {
        var s := sleeping[order[i]];
        if s.bed.level == None {
          assert order[i] in old(sleeping) && old(sleeping)[order[i]].bed.level == None;
          assert !(forall k :: k in old(sleeping) ==> old(sleeping)[k].bed.level.Some?);
          return false, readds;
        }
        readds := readds + [Readd(s.player, s.bed.level.value)];
        i := i + 1;
      }
      forall k | k in sleeping
        ensures sleeping[k].bed.level.Some?
      {
        var j :| 0 <= j < |order| && order[j] == k;
      }
      sleeping := map[];
      playersAwake := 1;
      return true, readds;
    }

    /** A player who could sleep and is then restored is out of bed, awake,
        back at the level its bed stands on, and the map is as before. */
    method SleepThenWake(bed: Entity, p: Player, c: Clock, currentLevel: LevelRef) returns (readd: Option<Readd>)
      requires CheckCanSleep(p, c)
      modifies `sleeping, `playersAwake, p`spawnx, p`spawny, p.body`removed
      ensures sleeping == old(sleeping) && !Sleeping() && !InBed(p)
      ensures readd == Some(Readd(p, if bed.level.Some? then bed.level.value else currentLevel))
    {
      var _, _ := Use(bed, p, c);
      assert Sleeping() && InBed(p);
      readd := RestorePlayer(p, currentLevel);
    }
  }
}
