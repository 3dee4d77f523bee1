/** The 3×3×3 integer grid on which the cubies sit, the order in which the
    lattice builder visits it (x outermost, then y, then z), and the world
    position a grid cell is placed at. */
module Grid {

  /** A grid coordinate (x, y, z); on the lattice every component is -1, 0 or 1. */
  datatype Coord = Coord(x: int, y: int, z: int)

  /** A world-space position, as the scene graph holds it. */
  datatype Point = Point(x: real, y: real, z: real)

  /** Number of cells in the lattice. */
  const CellCount: nat := 27

  /** Distance between neighbouring cubie centres (`spacing`). */
  const Spacing: real := 1.0

  /** Edge length of one cubie (`cubeSize`), a little under the spacing. */
  const CubeSize: real := 0.95

  predicate InRange(v: int) { -1 <= v <= 1 }

  predicate InCube(c: Coord) { InRange(c.x) && InRange(c.y) && InRange(c.z) }

  /** The coordinate the loop nest visits at step k (counting from 0):
      x changes slowest, z fastest. */
  function CoordOf(k: nat): (c: Coord)
    requires k < CellCount
    ensures InCube(c)
  {
    Coord(k / 9 - 1, (k / 3) % 3 - 1, k % 3 - 1)
  }

  /** The step at which the loop nest visits c: the inverse of CoordOf. */
  function IndexOf(c: Coord): (k: nat)
    requires InCube(c)
    ensures k < CellCount
  {
    (c.x + 1) * 9 + (c.y + 1) * 3 + (c.z + 1)
  }

  /** Visiting step k and reading back its coordinate's index gives k again. */
  lemma IndexOfCoordOf(k: nat)
    requires k < CellCount
    ensures IndexOf(CoordOf(k)) == k
  {
  }

  /** Every cell of the cube is visited at the step IndexOf names. */
  lemma CoordOfIndexOf(c: Coord)
    requires InCube(c)
    ensures CoordOf(IndexOf(c)) == c
  {
  }

  /** Distinct cells are visited at distinct steps. */
  lemma IndexOfInjective(a: Coord, b: Coord)
    requires InCube(a) && InCube(b) && IndexOf(a) == IndexOf(b)
    ensures a == b
  {
  }

  /** The 27 steps of the loop nest visit every cell of {-1, 0, 1}³ exactly once. */
  lemma {:induction false} EveryCellOnce()
    ensures forall c :: InCube(c) ==> exists k :: 0 <= k < CellCount && CoordOf(k) == c
    ensures forall j, k :: 0 <= j < CellCount && 0 <= k < CellCount && CoordOf(j) == CoordOf(k) ==> j == k
  {
    forall c | InCube(c)
      ensures exists k :: 0 <= k < CellCount && CoordOf(k) == c
    {
      CoordOfIndexOf(c);
    }
    forall j, k | 0 <= j < CellCount && 0 <= k < CellCount && CoordOf(j) == CoordOf(k)
      ensures j == k
    {
      IndexOfCoordOf(j);
      IndexOfCoordOf(k);
    }
  }

  /** Lexicographic order on coordinates, x first, then y, then z. */
  predicate LexLess(a: Coord, b: Coord)
  {
    a.x < b.x || (a.x == b.x && (a.y < b.y || (a.y == b.y && a.z < b.z)))
  }

  /** The loop nest visits cells in increasing lexicographic (x, y, z) order. */
  lemma LoopOrderIsLexicographic(j: nat, k: nat)
    requires j < k < CellCount
    ensures LexLess(CoordOf(j), CoordOf(k))
  {
  }

  /** World position of the cubie at grid cell c: the coordinate scaled by the spacing. */
  function PositionOf(c: Coord): (p: Point)
    ensures p == Point(c.x as real, c.y as real, c.z as real)
  {
    Point(c.x as real * Spacing, c.y as real * Spacing, c.z as real * Spacing)
  }

  function Abs(r: real): (a: real)
    ensures a >= 0.0 && (a == r || a == -r)
  {
    if r < 0.0 then -r else r
  }

  /** Distinct cells have centres at least one spacing apart along some axis,
      and a cubie is narrower than the spacing, so the boxes of distinct cells
      are separated by a gap of Spacing - CubeSize along that axis. */
  lemma PositionsSeparated(a: Coord, b: Coord)
    requires a != b
    ensures PositionOf(a) != PositionOf(b)
    ensures Abs(PositionOf(a).x - PositionOf(b).x) >= Spacing
         || Abs(PositionOf(a).y - PositionOf(b).y) >= Spacing
         || Abs(PositionOf(a).z - PositionOf(b).z) >= Spacing
    ensures 0.0 < CubeSize < Spacing
  {
  }
}
