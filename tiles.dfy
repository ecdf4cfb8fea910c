/** The tile registry (the static state of Tiles): tile singletons under
    short ids, looked up by id or by name, with the torch variants created
    on first use (TorchTile.getTorchTile, which needs the registry and the
    registry needs, so it lives here). */
module Tiles {
  import opened Common

  /** The connection flags a tile carries (connectsToSand, ...). */
  datatype Connection =
    | ToSand | ToGrass | ToSkyGrass | ToSkyHighGrass | ToSkyDirt | ToFerrosite | ToSnow | ToFluid
    | ToIce | ToJungleGrass | ToMycelium

  /** The flags a torch variant copies from the tile it stands on. */
  const TorchCopied: set<Connection> :=
    {ToSand, ToGrass, ToSkyGrass, ToSkyHighGrass, ToSkyDirt, ToFerrosite, ToSnow, ToFluid}

  /** String.toUpperCase on one character (ASCII letters only). */
  function UpperChar(c: char): (u: char)
    ensures 'a' <= c <= 'z' ==> u as int == c as int - 32
    ensures !('a' <= c <= 'z') ==> u == c
  {
    if 'a' <= c <= 'z' then (c as int - 32) as char else c
  }

  function Upper(s: string): (u: string)
    ensures |u| == |s|
    ensures forall i :: 0 <= i < |s| ==> u[i] == UpperChar(s[i])
  {
    seq(|s|, i requires 0 <= i < |s| => UpperChar(s[i]))
  }

  /** Upper-casing twice is upper-casing once, and it distributes over
      concatenation. */
  lemma UpperFacts(s: string, t: string)
    ensures Upper(Upper(s)) == Upper(s)
    ensures Upper(s + t) == Upper(s) + Upper(t)
  {
    assert forall i :: 0 <= i < |s| ==> Upper(Upper(s))[i] == Upper(s)[i];
  }

  /** A tile singleton. The Tile base class is not part of this model: its
      constructor is taken to store the name upper-cased and the id to start
      at 0. `onType` is set exactly for torch variants, and the last three
      fields are the TorchTile instance fields. */
  class Tile {
    var id: int
    const name: string
    const connects: set<Connection>
    const onType: Tile?
    var tickTime: int
    var spawnX: int
    var spawnY: int

    constructor (name: string, connects: set<Connection>)
      ensures this.name == Upper(name) && this.connects == connects
      ensures onType == null && id == 0
      ensures tickTime == 0 && spawnX == 0 && spawnY == 0
    {
      this.name := Upper(name);
      this.connects := connects;
      this.onType := null;
      id := 0;
      tickTime := 0;
      spawnX := 0;
      spawnY := 0;
    }

    /** The TorchTile constructor: named "Torch " + the base name, standing
        on `onType`, and copying eight of its connection flags. */
    constructor Torch(onType: Tile)
      ensures name == Upper("Torch " + onType.name)
      ensures connects == onType.connects * TorchCopied
      ensures this.onType == onType && id == 0
      ensures tickTime == 0 && spawnX == 0 && spawnY == 0
    {
      this.name := Upper("Torch " + onType.name);
      this.connects := onType.connects * TorchCopied;
      this.onType := onType;
      id := 0;
      tickTime := 0;
      spawnX := 0;
      spawnY := 0;
    }
  }

  /** A torch variant of a tile whose name is already upper case is named
      "TORCH " followed by that name, and connects to nothing the base does not. */
  lemma TorchNameAndFlags(base: Tile, torch: Tile)
    requires Upper(base.name) == base.name
    requires torch.name == Upper("Torch " + base.name)
    requires torch.connects == base.connects * TorchCopied
    ensures torch.name == "TORCH " + base.name
    ensures torch.connects <= base.connects
    ensures forall c :: c in TorchCopied ==> (c in torch.connects <==> c in base.connects)
  {
    UpperFacts("Torch ", base.name);
    assert Upper("Torch ") == "TORCH ";
  }

  predicate IsShort(k: int) {
    -32768 <= k < 32768
  }

  /** The keys under which only torch variants are registered. */
  predicate IsTorchKey(k: int) {
    k >= 16384 || k < 0
  }

  /** getTorchTile's id: the base id's low 16 bits, moved up by 16384 when
      below it (a tile that is already a torch keeps its id). */
  function VariantId(baseId: int): int {
    var id := Low16(baseId);
    if id < 16384 then id + 16384 else id
  }

  /** The short key the variant is registered under. */
  function TorchKey(baseId: int): int {
    ToShort(VariantId(baseId))
  }

  /** For a short base id: ids 0..16383 move up by 16384, every other id is
      kept; the key is a torch key, and a torch's own key maps to itself. */
  lemma TorchKeySpec(b: int)
    requires IsShort(b)
    ensures TorchKey(b) == if 0 <= b < 16384 then b + 16384 else b
    ensures IsTorchKey(TorchKey(b)) && IsShort(TorchKey(b))
    ensures TorchKey(TorchKey(b)) == TorchKey(b)
  {
    if b < 0 {
      assert Low16(b) == b + 65536;
      assert ToShort(b + 65536) == b;
    }
    var k := TorchKey(b);
    if k < 0 {
      assert Low16(k) == k + 65536;
      assert ToShort(k + 65536) == k;
    }
  }

  /** The key get(int) ends up answering for an id already shifted into
      range: the registered key, else the torch key of what id - 32767
      resolves to when id >= 32767, else 0. */
  function ResolvedKey(keys: set<int>, i: int): int
    decreases if i < 0 then 0 else i
  {
    if ToShort(i) in keys then ToShort(i)
    else if i >= 32767 then TorchKey(ResolvedKey(keys, i - 32767))
    else 0
  }

  /** The result of get(String). */
  datatype NameLookup =
    | Found(tile: Tile)
    | Exited       // the overflow guard called System.exit
    | IndexError   // substring(6) on a name shorter than six characters

  datatype Normalised = Normalised(torch: bool, name: string)

  function StartsWith(s: string, prefix: string): bool {
    |prefix| <= |s| && s[..|prefix|] == prefix
  }

  /** name.substring(0, name.indexOf("_")) when the name contains '_'. */
  function CutAtUnderscore(s: string): (r: string)
    ensures '_' !in r
    ensures r <= s
    ensures |r| < |s| ==> s[|r|] == '_'
  {
    if s == [] || s[0] == '_' then [] else [s[0]] + CutAtUnderscore(s[1..])
  }

  /** The name get(String) searches for: upper-cased, with a "TORCH" prefix
      and the character after it cut off (noting the torch), and everything
      from the first '_' dropped. None when the cut would throw. */
  function Normalise(name: string): (r: Option<Normalised>)
    ensures r == None <==> StartsWith(Upper(name), "TORCH") && |name| < 6
    ensures r.Some? ==> '_' !in r.value.name
    ensures r.Some? ==> (r.value.torch <==> StartsWith(Upper(name), "TORCH"))
    ensures r.Some? && !r.value.torch ==> r.value.name <= Upper(name)
    ensures r.Some? && r.value.torch ==> r.value.name <= Upper(name)[6..]
  {
    var u := Upper(name);
    if StartsWith(u, "TORCH") then
      if |u| < 6 then None else Some(Normalised(true, CutAtUnderscore(u[6..])))
    else Some(Normalised(false, CutAtUnderscore(u)))
  }

  /** A name made of "torch " and a name without '_' reads back through
      get(String) as a torch variant of that name, upper-cased. */
  lemma TorchNameReadsBack(s: string)
    requires |s| >= 6 && s[..6] == "torch " && '_' !in s
    ensures Normalise(s) == Some(Normalised(true, Upper(s[6..])))
  {
    assert Upper(s)[..5] == "TORCH";
    assert Upper(s)[6..] == Upper(s[6..]);
    assert '_' !in Upper(s)[6..] by {
      forall i | 0 <= i < |s| - 6 ensures Upper(s)[6..][i] != '_' {
        assert s[6 + i] in s;
      }
    }
    NoUnderscoreCut(Upper(s)[6..]);
  }

  /** Some tile registered in `m` carries the name. */
  predicate Named(m: map<int, Tile>, n: string) {
    exists k :: k in m && m[k].name == n
  }

  /** Map m2 keeps every entry of m1. */
  predicate Extends<K, V(==)>(m1: map<K, V>, m2: map<K, V>) {
    forall k :: k in m1 ==> k in m2 && m2[k] == m1[k]
  }

  /** Key k holds the tile get(String) settles on for `name` in map m walked
      in iteration order `order`: the first key holding a tile of that name,
      or key 0 when no tile has it. */
  ghost predicate FirstKey(m: map<int, Tile>, order: seq<int>, name: string, k: int) {
    && k in m
    && (if Named(m, name)
        then exists i :: 0 <= i < |order| && order[i] == k && m[k].name == name
               && forall j :: 0 <= j < i ==> order[j] in m && m[order[j]].name != name
        else k == 0)
  }

  /** Tile t is what get(String) answers for the normalised name n: the tile
      it settles on, or for a torch request the torch variant of it. */
  ghost predicate NameAnswer(m: map<int, Tile>, order: seq<int>, n: Normalised, t: Tile)
    reads t
  {
    exists k :: FirstKey(m, order, n.name, k)
      && (if n.torch then t.onType != null && t.id == TorchKey(k) else t == m[k])
  }

  /** The static state of Tiles: the id table and the recursion counter of get(String). */
  class Registry {
    var tiles: map<int, Tile>
    var overflowCheck: int

    /** Tile 0 is registered; every key is a short and the id of the tile it
        holds; torch keys hold torch variants. */
    predicate Valid()
      reads this, tiles.Values
    {
      && 0 in tiles
      && (forall k :: k in tiles ==> IsShort(k) && tiles[k].id == k)
      && (forall k :: k in tiles && IsTorchKey(k) ==> tiles[k].onType != null)
    }

    /** initTileList: the tiles it creates, under ids 0..255, each then
        stamped with its own id. */
    constructor (initial: map<int, Tile>)
      requires 0 in initial
      requires forall k :: k in initial ==> 0 <= k < 256 && initial[k].onType == null
      requires forall a, b :: a in initial && b in initial && a != b ==> initial[a] != initial[b]
      modifies set k | k in initial :: initial[k]
      ensures Valid()
      ensures tiles == initial && overflowCheck == 0
      ensures forall k :: k in initial ==> initial[k].id == k
    {
      tiles := initial;
      overflowCheck := 0;
      new;
      for i := 0 to 256
        invariant tiles == initial && overflowCheck == 0
        invariant forall k :: k in initial && k < i ==> initial[k].id == k
      {
        if i in tiles {
          tiles[i].id := i;
        }
      }
    }

    /** A registered tile sits under its own id. */
    predicate Registered(t: Tile)
      reads this, t
    {
      t.id in tiles && tiles[t.id] == t
    }

    /** containsTile(id): some registered tile carries the id. */
    predicate ContainsTile(id: int)
      requires Valid()
      reads this, tiles.Values
      ensures ContainsTile(id) <==> exists k :: k in tiles && tiles[k].id == ToShort(id)
    {
      ToShort(id) in tiles
    }

    /** add(id, tile): registers the tile under the short id and stamps it. */
    method Add(id: int, tile: Tile)
      modifies `tiles, tile`id
      ensures tiles == old(tiles)[ToShort(id) := tile]
      ensures tile.id == ToShort(id)
    {
      tiles := tiles[ToShort(id) := tile];
      tile.id := ToShort(id);
    }

    /** getTorchTile(onTile): the variant registered at the torch key, or a
        new one registered there. */
    method GetTorchTile(onTile: Tile) returns (t: Tile)
      requires Valid() && IsShort(onTile.id)
      modifies `tiles
      ensures Valid() && Extends(old(tiles), tiles)
      ensures t.id == TorchKey(onTile.id) && t.onType != null && Registered(t)
      ensures TorchKey(onTile.id) in old(tiles) ==> t == old(tiles)[TorchKey(onTile.id)] && tiles == old(tiles)
      ensures TorchKey(onTile.id) !in old(tiles) ==>
        fresh(t) && t.onType == onTile && tiles == old(tiles)[t.id := t]
        && t.name == Upper("Torch " + onTile.name) && t.connects == onTile.connects * TorchCopied
    {
      TorchKeySpec(onTile.id);
      var id := VariantId(onTile.id);
      if ContainsTile(id) {
        // Tiles.get(id) answers the registered tile, which is a torch.
        t := tiles[ToShort(id)];
      } else {
        t := new Tile.Torch(onTile);
        Add(id, t);
      }
    }

    /** get(int) once the id is non-negative or left as it is. */
    method Lookup(i: int) returns (t: Tile)
      requires Valid()
      modifies `tiles
      ensures Valid() && Extends(old(tiles), tiles)
      ensures Registered(t) && t.id == ResolvedKey(old(tiles).Keys, i)
      ensures ToShort(i) in old(tiles) ==> t == old(tiles)[ToShort(i)] && tiles == old(tiles)
      ensures ToShort(i) !in old(tiles) && i < 32767 ==> t == old(tiles)[0] && tiles == old(tiles)
      ensures ToShort(i) !in old(tiles) && i >= 32767 ==> t.onType != null
      decreases if i < 0 then 0 else i
    {
      if ToShort(i) in tiles {
        t := tiles[ToShort(i)];
      } else if i >= 32767 {
        var base := Lookup(i - 32767);
        t := GetTorchTile(base);
      } else {
        t := tiles[0];
      }
    }

    /** get(int): a negative id is first moved up by 32768. */
    method Get(id: int) returns (t: Tile)
      requires Valid()
      modifies `tiles
      ensures Valid() && Extends(old(tiles), tiles)
      ensures Registered(t)
      ensures t.id == ResolvedKey(old(tiles).Keys, if id < 0 then id + 32768 else id)
    {
      var i := if id < 0 then id + 32768 else id;
      t := Lookup(i);
    }

    /** The name scan of get(String): the first registered tile with that
        name, in `order`, the iteration order of the map's values (given as
        the keys they are stored under), or null. */
    method FindNamed(n: string, order: seq<int>) returns (found: Tile?)
      requires Valid()
      requires Lists(order)
      ensures found != null ==> Registered(found) && found.name == n
      ensures found != null ==> exists i :: 0 <= i < |order| && tiles[order[i]] == found && FirstNamed(n, order, i)
      ensures found == null <==> !Named(tiles, n)
    {
      found := null;
      var i := 0;
      while i < |order|
        invariant 0 <= i <= |order|
        invariant forall j :: 0 <= j < i ==> tiles[order[j]].name != n
      {
        if tiles[order[i]].name == n {
          found := tiles[order[i]];
          assert found.id == order[i];
          return;
        }
        i := i + 1;
      }
      forall k | k in tiles ensures tiles[k].name != n {
        assert k in order;
        var j :| 0 <= j < |order| && order[j] == k;
      }
    }

    /** `order` lists the keys of the map (an iteration order of its values). */
    predicate Lists(order: seq<int>)
      reads this
    {
      && (forall k :: k in tiles ==> k in order)
      && (forall i :: 0 <= i < |order| ==> order[i] in tiles)
    }

    /** No key before position i of `order` holds a tile named n. */
    predicate FirstNamed(n: string, order: seq<int>, i: int)
      requires Lists(order) && 0 <= i <= |order|
      reads this
    {
      forall j :: 0 <= j < i ==> tiles[order[j]].name != n
    }

    /** get(String). */
    method GetByName(name: string, order: seq<int>) returns (r: NameLookup)
      requires Valid()
      requires Lists(order)
      modifies `tiles, `overflowCheck
      ensures Valid() && Extends(old(tiles), tiles)
      ensures old(overflowCheck) + 1 > 50 ==> r == Exited && overflowCheck == old(overflowCheck) + 1 && tiles == old(tiles)
      ensures old(overflowCheck) + 1 <= 50 && Normalise(name) == None ==>
        r == IndexError && overflowCheck == old(overflowCheck) + 1 && tiles == old(tiles)
      ensures old(overflowCheck) + 1 <= 50 && Normalise(name).Some? ==>
        r.Found? && overflowCheck == 0 && Registered(r.tile)
      ensures r.Found? ==> NameAnswer(old(tiles), order, Normalise(name).value, r.tile)
      ensures r.Found? ==> tiles.Keys <= old(tiles).Keys + {r.tile.id}
      ensures r.Found? && !Normalise(name).value.torch ==> tiles == old(tiles)
    {
      var u := Upper(name);
      overflowCheck := overflowCheck + 1;
      if overflowCheck > 50 {
        return Exited;
      }
      var isTorch := false;
      if StartsWith(u, "TORCH") {
        isTorch := true;
        if |u| < 6 {
          return IndexError;
        }
        u := u[6..];
      }
      u := CutAtUnderscore(u);
      var getting := FindNamed(u, order);
      ghost var k: int;
      if getting == null {
        getting := tiles[0];
        k := 0;
      } else {
        ghost var i :| 0 <= i < |order| && tiles[order[i]] == getting && FirstNamed(u, order, i);
        k := order[i];
      }
      assert FirstKey(tiles, order, u, k) && getting == tiles[k];
      var t: Tile := getting;
      if isTorch {
        t := GetTorchTile(getting);
      }
      overflowCheck := 0;
      assert Normalise(name) == Some(Normalised(isTorch, u));
      return Found(t);
    }

    /** getName(descriptName): a name without '_' is answered as it is;
        otherwise the tile named by the first part describes the data given
        by the second. */
    method GetName(descriptName: string, order: seq<int>) returns (r: NameResult)
      requires Valid()
      requires Lists(order)
      modifies `tiles, `overflowCheck
      ensures Valid() && Extends(old(tiles), tiles)
      ensures '_' !in descriptName <==> r == Plain(descriptName)
      ensures r.Described? ==>
        var parts := JavaSplit(descriptName);
        && |parts| >= 2 && ParseInt(parts[1]) == Some(r.data) && Normalise(parts[0]).Some?
        && NameAnswer(old(tiles), order, Normalise(parts[0]).value, r.tile)
      ensures r == Failed(GuardExit) <==>
        && '_' in descriptName && |JavaSplit(descriptName)| >= 2 && ParseInt(JavaSplit(descriptName)[1]).Some?
        && old(overflowCheck) + 1 > 50
      ensures r == Failed(BadName) <==>
        && '_' in descriptName && |JavaSplit(descriptName)| >= 2 && ParseInt(JavaSplit(descriptName)[1]).Some?
        && old(overflowCheck) + 1 <= 50 && Normalise(JavaSplit(descriptName)[0]) == None
      ensures '_' in descriptName && |JavaSplit(descriptName)| < 2 ==> r == Failed(MissingPart)
      ensures '_' in descriptName && |JavaSplit(descriptName)| >= 2 && ParseInt(JavaSplit(descriptName)[1]) == None ==>
        r == Failed(BadNumber)
    {
      if '_' !in descriptName {
        return Plain(descriptName);
      }
      var parts := JavaSplit(descriptName);
      if |parts| < 2 {
        return Failed(MissingPart);
      }
      var data := ParseInt(parts[1]);
      if data == None {
        return Failed(BadNumber);
      }
      var got := GetByName(parts[0], order);
      match got
      case Found(t) => r := Described(t, data.value);
      case Exited => r := Failed(GuardExit);
      case IndexError => r := Failed(BadName);
    }
  }

  datatype NameError = MissingPart | BadNumber | GuardExit | BadName

  /** The result of getName: `Described(t, d)` stands for t.getName(d), a
      method of the Tile base class, which is not part of this model. */
  datatype NameResult =
    | Plain(name: string)
    | Described(tile: Tile, data: int)
    | Failed(error: NameError)

  /** The pieces of s between the '_' characters, empty ones included. */
  function Segments(s: string): (parts: seq<string>)
    ensures |parts| >= 1
    ensures forall i :: 0 <= i < |parts| ==> '_' !in parts[i]
    ensures parts[0] == CutAtUnderscore(s)
    decreases |s|
  {
    if s == [] then [[]]
    else if s[0] == '_' then [[]] + Segments(s[1..])
    else
      var rest := Segments(s[1..]);
      [[s[0]] + rest[0]] + rest[1..]
  }

  /** The pieces joined back with '_'. */
  function Join(parts: seq<string>): string
    requires |parts| >= 1
  {
    if |parts| == 1 then parts[0] else parts[0] + "_" + Join(parts[1..])
  }

  /** Splitting on '_' and joining back gives the string again. */
  lemma {:induction false} JoinSegments(s: string)
    ensures Join(Segments(s)) == s
    decreases |s|
  {
    if s == [] {
    } else if s[0] == '_' {
      JoinSegments(s[1..]);
      assert Segments(s)[1..] == Segments(s[1..]);
      assert s == [] + "_" + s[1..];
    } else {
      JoinSegments(s[1..]);
      var rest := Segments(s[1..]);
      var parts := Segments(s);
      assert parts[1..] == rest[1..];
      if |rest| == 1 {
        assert s == [s[0]] + rest[0];
      } else {
        assert Join(rest) == rest[0] + "_" + Join(rest[1..]);
        assert s == [s[0]] + s[1..];
      }
    }
  }

  /** String.split("_"): the segments without the trailing empty ones. */
  function JavaSplit(s: string): (parts: seq<string>)
    ensures |parts| <= |Segments(s)|
    ensures parts == Segments(s)[..|parts|]
    ensures |parts| > 0 ==> parts[|parts| - 1] != []
    ensures forall i :: |parts| <= i < |Segments(s)| ==> Segments(s)[i] == []
  {
    DropTrailingEmpty(Segments(s))
  }

  function DropTrailingEmpty(parts: seq<string>): (r: seq<string>)
    ensures |r| <= |parts| && r == parts[..|r|]
    ensures |r| > 0 ==> r[|r| - 1] != []
    ensures forall i :: |r| <= i < |parts| ==> parts[i] == []
  {
    if parts == [] then []
    else if parts[|parts| - 1] == [] then DropTrailingEmpty(parts[..|parts| - 1])
    else parts
  }

  predicate IsDigit(c: char) {
    '0' as int <= c as int <= '9' as int
  }

  /** The value of a string of decimal digits. */
  function DigitsValue(s: string): (v: int)
    requires forall i :: 0 <= i < |s| ==> IsDigit(s[i])
    ensures v >= 0
  {
    if s == [] then 0
    else
      assert IsDigit(s[|s| - 1]);
      DigitsValue(s[..|s| - 1]) * 10 + (s[|s| - 1] as int - '0' as int)
  }

  /** Integer.parseInt(s): an optional sign and at least one ASCII digit, with
      a value that fits an int. */
  function ParseInt(s: string): (r: Option<int>)
    ensures r.Some? ==> -0x8000_0000 <= r.value < 0x8000_0000
  {
    var neg := |s| > 0 && s[0] == '-';
    var body := if |s| > 0 && (s[0] == '-' || s[0] == '+') then s[1..] else s;
    if body == [] || exists i :: 0 <= i < |body| && !IsDigit(body[i]) then None
    else
      var v := if neg then -DigitsValue(body) else DigitsValue(body);
      if -0x8000_0000 <= v < 0x8000_0000 then Some(v) else None
  }

  /** What parseInt reads back from the digits of a non-negative int. */
  function Digits(n: nat): (s: string)
    ensures |s| > 0 && forall i :: 0 <= i < |s| ==> IsDigit(s[i])
  {
    if n < 10 then [('0' as int + n) as char] else Digits(n / 10) + [('0' as int + n % 10) as char]
  }

  /** Integer.toString followed by parseInt gives the number back, for every
      non-negative int. */
  lemma {:induction false} ParseDigits(n: nat)
    requires n < 0x8000_0000
    ensures DigitsValue(Digits(n)) == n
    ensures ParseInt(Digits(n)) == Some(n)
    ensures ParseInt("-" + Digits(n)) == Some(-(n as int))
  {
    if n >= 10 {
      ParseDigits(n / 10);
      var s := Digits(n);
      assert s[..|s| - 1] == Digits(n / 10);
    }
    var s := Digits(n);
    assert ("-" + s)[1..] == s;
  }

  /** A string without '_' is not cut. */
  lemma {:induction false} NoUnderscoreCut(s: string)
    requires '_' !in s
    ensures CutAtUnderscore(s) == s
  {
    if s != [] {
      NoUnderscoreCut(s[1..]);
    }
  }
}
