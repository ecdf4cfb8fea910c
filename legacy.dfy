/** The legacy id table of Tiles (oldids), which maps the numeric tile ids
    of old saves to tile names. */
module LegacyIds {
  import opened Common

  /** The legacy id table (oldids) used to read saves from before named
      tiles: a 32768-entry list with these entries set and all others null. */
  function OldId(i: int): (name: Option<string>)
    ensures name.Some? ==> 0 <= i < 32768
  {
    match i
    case 0 => Some("grass")
    case 1 => Some("rock")
    case 2 => Some("water")
    case 3 => Some("flower")
    case 4 => Some("oak tree")
    case 5 => Some("dirt")
    case 41 => Some("wool")
    case 42 => Some("red wool")
    case 43 => Some("blue wool")
    case 45 => Some("green wool")
    case 127 => Some("yellow wool")
    case 56 => Some("black wool")
    case 6 => Some("sand")
    case 7 => Some("cactus")
    case 8 => Some("hole")
    case 9 => Some("oak Sapling")
    case 10 => Some("cactus Sapling")
    case 11 => Some("farmland")
    case 12 => Some("wheat")
    case 13 => Some("lava")
    case 14 => Some("stairs Down")
    case 15 => Some("stairs Up")
    case 17 => Some("cloud")
    case 30 => Some("explode")
    case 31 => Some("Wood Planks")
    case 33 => Some("plank wall")
    case 34 => Some("stone wall")
    case 35 => Some("wood door")
    case 36 => Some("wood door")
    case 37 => Some("stone door")
    case 38 => Some("stone door")
    case 39 => Some("lava brick")
    case 32 => Some("Stone Bricks")
    case 120 => Some("Obsidian")
    case 121 => Some("Obsidian wall")
    case 122 => Some("Obsidian door")
    case 123 => Some("Obsidian door")
    case 18 => Some("hard Rock")
    case 19 => Some("iron Ore")
    case 24 => Some("Lapis")
    case 20 => Some("gold Ore")
    case 21 => Some("gem Ore")
    case 22 => Some("cloud Cactus")
    case 16 => Some("infinite Fall")
    case 100 => Some("grass")
    case 101 => Some("sand")
    case 102 => Some("oak tree")
    case 103 => Some("cactus")
    case 104 => Some("water")
    case 105 => Some("dirt")
    case 107 => Some("flower")
    case 108 => Some("stairs Up")
    case 109 => Some("stairs Down")
    case 110 => Some("Wood Planks")
    case 111 => Some("Stone Bricks")
    case 112 => Some("wood door")
    case 113 => Some("wood door")
    case 114 => Some("stone door")
    case 115 => Some("stone door")
    case 116 => Some("Obsidian door")
    case 117 => Some("Obsidian door")
    case 119 => Some("hole")
    case 57 => Some("wool")
    case 58 => Some("red wool")
    case 59 => Some("blue wool")
    case 60 => Some("green wool")
    case 61 => Some("yellow wool")
    case 62 => Some("black wool")
    case 63 => Some("Obsidian")
    case 64 => Some("oak Sapling")
    case 65 => Some("cactus Sapling")
    case 44 => Some("torch grass")
    case 40 => Some("torch sand")
    case 46 => Some("torch dirt")
    case 47 => Some("torch wood planks")
    case 48 => Some("torch stone bricks")
    case 49 => Some("torch Obsidian")
    case 50 => Some("torch wool")
    case 51 => Some("torch red wool")
    case 52 => Some("torch blue wool")
    case 53 => Some("torch green wool")
    case 54 => Some("torch yellow wool")
    case 55 => Some("torch black wool")
    case _ => None
  }
}
