/** ExplodedTile: the tile a cell shows while it is exploding. It lets
    everything through and lights a radius of 3 from its first tick on. */
module ExplodedRules {

  /** The one exploded tile, whose light flag and radius every exploding
      cell shares. */
  class Exploded {
    var light: bool
    var r: int

    constructor ()
      ensures light && r == 0
    {
      light := true;
      r := 0;
    }

    /** The flag is never cleared and the radius is 0 or 3. */
    predicate Valid()
      reads `light, `r
    {
      light && (r == 0 || r == 3)
    }

    /** tick: a lit tile sets its radius to 3 and answers true. */
    method Tick() returns (changed: bool)
      requires Valid()
      modifies `r
      ensures Valid() && changed
      ensures r == 3
    {
      if light {
        r := 3;
        return true;
      }
      return false;
    }

    /** getLightRadius: 0 before the first tick, 3 after. */
    function LightRadius(): (radius: int)
      reads `r, `light
      ensures Valid() ==> radius == 0 || radius == 3
    {
      r
    }

    /** mayPass: every entity passes. */
    function MayPass(): (pass: bool)
      ensures pass
    {
      true
    }
  }
}
