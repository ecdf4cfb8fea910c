/** Small helpers shared by every module: an Option type and the integer
    conversions the game applies to coordinates and tile identifiers. */
module Common {

  datatype Option<+T> = None | Some(value: T)

  /** Size of a tile cell in entity pixels. */
  const CellSize: int := 16

  /** `v >> 4` on a Java int: an arithmetic shift, which is floor division by 16
      (also for negative coordinates). */
  function Shr4(v: int): (t: int)
    ensures CellSize * t <= v < CellSize * t + CellSize
  {
    v / 16
  }

  /** `t << 4`: the first entity pixel of tile column or row `t`. */
  function Shl4(t: int): (v: int)
    ensures Shr4(v) == t
  {
    t * 16
  }

  /** The cell index of a pixel only grows with the pixel. */
  lemma Shr4Monotone(a: int, b: int)
    requires a <= b
    ensures Shr4(a) <= Shr4(b)
  {
  }

  /** The Java cast `(short) v`: keeps the low 16 bits as a signed value. */
  function ToShort(v: int): (s: int)
    ensures -32768 <= s < 32768
    ensures (s - v) % 65536 == 0
  {
    (v + 32768) % 65536 - 32768
  }

  /** `v & 0xFFFF` on a Java int: the low 16 bits as an unsigned value. */
  function Low16(v: int): (u: int)
    ensures 0 <= u < 65536
    ensures (u - v) % 65536 == 0
  {
    v % 65536
  }

  /** A value that already fits in a short survives the cast unchanged. */
  lemma ToShortInRange(v: int)
    requires -32768 <= v < 32768
    ensures ToShort(v) == v
  {
  }
}
