/**
 * Screen coordinates (src/api/display/coord.rs). The fields are C `int`s
 * and the shifts use Rust's `+=`/`-=`, which wrap around in release builds.
 */
module Coords {
  import opened CTypes

  datatype Coord = Coord(x: I32, y: I32)

  /** `Coord::new`. */
  function New(x: I32, y: I32): (c: Coord)
    ensures c.x == x && c.y == y
  {
    Coord(x, y)
  }

  /** `Default`: the origin. */
  function Default(): (c: Coord)
    ensures c.x == 0 && c.y == 0
  {
    Coord(0, 0)
  }

  /** `x`: replaces x only. */
  function WithX(c: Coord, value: I32): (r: Coord)
    ensures r.x == value && r.y == c.y
  {
    c.(x := value)
  }

  /** `y`: replaces y only. */
  function WithY(c: Coord, value: I32): (r: Coord)
    ensures r.y == value && r.x == c.x
  {
    c.(y := value)
  }

  /** `shift_left`: x decreases by `value`, y stays. */
  function ShiftLeft(c: Coord, value: I32): (r: Coord)
    ensures r.y == c.y
    ensures IsI32(c.x - value) ==> r.x == c.x - value
  {
    c.(x := Wrap32(c.x - value))
  }

  /** `shift_right`: x increases by `value`, y stays. */
  function ShiftRight(c: Coord, value: I32): (r: Coord)
    ensures r.y == c.y
    ensures IsI32(c.x + value) ==> r.x == c.x + value
  {
    c.(x := Wrap32(c.x + value))
  }

  /** `shift_top`: y increases by `value`, x stays. */
  function ShiftTop(c: Coord, value: I32): (r: Coord)
    ensures r.x == c.x
    ensures IsI32(c.y + value) ==> r.y == c.y + value
  {
    c.(y := Wrap32(c.y + value))
  }

  /** `shift_bottom`: y decreases by `value`, x stays. */
  function ShiftBottom(c: Coord, value: I32): (r: Coord)
    ensures r.x == c.x
    ensures IsI32(c.y - value) ==> r.y == c.y - value
  {
    c.(y := Wrap32(c.y - value))
  }

  /** Adding `value` back to a wrapped difference gives the start again. */
  lemma {:induction false} WrapSubAdd(a: I32, value: I32)
    ensures Wrap32(Wrap32(a - value) + value) == a
    ensures Wrap32(Wrap32(a + value) - value) == a
  {
    var d := Wrap32(a - value);
    Wrap32Congruent(d + value, a, (d - (a - value)) / TWO_POW_32);
    var s := Wrap32(a + value);
    Wrap32Congruent(s - value, a, (s - (a + value)) / TWO_POW_32);
  }

  /** Shifting left and then right by the same amount restores the coordinate, overflow or not. */
  lemma ShiftLeftRight(c: Coord, value: I32)
    ensures ShiftRight(ShiftLeft(c, value), value) == c
    ensures ShiftLeft(ShiftRight(c, value), value) == c
  {
    WrapSubAdd(c.x, value);
  }

  /** Shifting up and then down by the same amount restores the coordinate, overflow or not. */
  lemma ShiftTopBottom(c: Coord, value: I32)
    ensures ShiftBottom(ShiftTop(c, value), value) == c
    ensures ShiftTop(ShiftBottom(c, value), value) == c
  {
    WrapSubAdd(c.y, value);
  }
}
