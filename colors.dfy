/** The colour table and the rule that colours a cubie's six faces from its
    grid coordinate. Colours are 24-bit RGB values; a cubie's faces are a
    six-slot sequence in the order Right, Left, Top, Bottom, Front, Back. */
module ColorScheme {
  import opened Grid

  /** Colour every face starts with, the interior colour. */
  const Neutral: int := 0x222222

  /** The standard exterior colours of the colour table. */
  const White: int := 0xffffff
  const Yellow: int := 0xffd700
  const Red: int := 0xff0000
  const Orange: int := 0xff4500
  const Blue: int := 0x0066ff
  const Green: int := 0x00cc00

  /** Face slots of a cubie's material array. */
  const Right: nat := 0
  const Left: nat := 1
  const Top: nat := 2
  const Bottom: nat := 3
  const Front: nat := 4
  const Back: nat := 5
  const FaceCount: nat := 6

  predicate IsRgb(c: int) { 0 <= c <= 0xffffff }

  /** Exterior colour that slot s receives when its test holds. */
  function SlotColor(s: nat): (c: int)
    requires s < FaceCount
    ensures IsRgb(c) && c != Neutral
  {
    match s
    case 0 => Blue
    case 1 => Green
    case 2 => White
    case 3 => Yellow
    case 4 => Red
    case 5 => Orange
  }

  /** The component of c along axis 0 (x), 1 (y) or 2 (z). */
  function Component(c: Coord, axis: nat): int
    requires axis < 3
  {
    if axis == 0 then c.x else if axis == 1 then c.y else c.z
  }

  /** Slot s lies on the face pointing along axis s / 2, towards + for even s
      and towards - for odd s; it is on the outside of the cube exactly when
      the cubie's component along that axis equals that sign. */
  predicate SlotTest(s: nat, c: Coord)
    requires s < FaceCount
  {
    Component(c, s / 2) == (if s % 2 == 0 then 1 else -1)
  }

  /** The six slots of a freshly made cubie. */
  function NeutralFaces(): (f: seq<int>)
    ensures |f| == FaceCount
    ensures forall i :: 0 <= i < |f| ==> f[i] == Neutral
  {
    [Neutral, Neutral, Neutral, Neutral, Neutral, Neutral]
  }

  /** The six independent tests of the colouring rule applied, in order, to the
      slots `faces`: each test that holds overwrites its own slot. */
  function Recolor(faces: seq<int>, c: Coord): (r: seq<int>)
    requires |faces| == FaceCount
    ensures |r| == FaceCount
    ensures forall i :: 0 <= i < FaceCount ==>
              r[i] == if SlotTest(i, c) then SlotColor(i) else faces[i]
  {
    var f0 := if c.x == 1 then faces[Right := Blue] else faces;
    var f1 := if c.x == -1 then f0[Left := Green] else f0;
    var f2 := if c.y == 1 then f1[Top := White] else f1;
    var f3 := if c.y == -1 then f2[Bottom := Yellow] else f2;
    var f4 := if c.z == 1 then f3[Front := Red] else f3;
    if c.z == -1 then f4[Back := Orange] else f4
  }

  /** The faces of the cubie at c once the lattice builder has coloured it. */
  function Painted(c: Coord): (r: seq<int>)
    ensures |r| == FaceCount
    ensures forall i :: 0 <= i < FaceCount ==>
              r[i] == if SlotTest(i, c) then SlotColor(i) else Neutral
  {
    Recolor(NeutralFaces(), c)
  }

  /** 1 when the slot colour is not the interior colour. */
  function Mark(colour: int): nat
  {
    if colour != Neutral then 1 else 0
  }

  /** Number of slots of `faces` that carry an exterior colour. */
  function ColouredSlots(faces: seq<int>): (n: nat)
    ensures n <= |faces|
  {
    if faces == [] then 0 else Mark(faces[0]) + ColouredSlots(faces[1..])
  }

  /** Number of components of c with magnitude 1. */
  function UnitComponents(c: Coord): (n: nat)
  {
    (if c.x == 1 || c.x == -1 then 1 else 0)
    + (if c.y == 1 || c.y == -1 then 1 else 0)
    + (if c.z == 1 || c.z == -1 then 1 else 0)
  }

  /** The six exterior colours are pairwise distinct and none is the interior colour. */
  lemma ColoursDistinct()
    ensures forall i, j :: 0 <= i < j < FaceCount ==> SlotColor(i) != SlotColor(j)
    ensures forall i :: 0 <= i < FaceCount ==> SlotColor(i) != Neutral
  {
  }

  /** The colouring invariant of a cubie: slot i is exterior-coloured if and only
      if its own test holds, and then it has that slot's colour. */
  lemma PaintedIff(c: Coord, i: nat)
    requires i < FaceCount
    ensures Painted(c)[i] != Neutral <==> SlotTest(i, c)
    ensures Painted(c)[i] == if SlotTest(i, c) then SlotColor(i) else Neutral
  {
  }

  /** The two slots of an axis are never both exterior-coloured. */
  lemma OppositeNeverBoth(c: Coord, axis: nat)
    requires axis < 3
    ensures Painted(c)[2 * axis] == Neutral || Painted(c)[2 * axis + 1] == Neutral
  {
  }

  /** The count over six slots, written out slot by slot. */
  lemma {:induction false} ColouredSlotsOfSix(f: seq<int>)
    requires |f| == FaceCount
    ensures ColouredSlots(f) == Mark(f[0]) + Mark(f[1]) + Mark(f[2]) + Mark(f[3]) + Mark(f[4]) + Mark(f[5])
  {
    assert ColouredSlots(f[5..]) == Mark(f[5]) by { assert f[5..][1..] == []; }
    assert ColouredSlots(f[4..]) == Mark(f[4]) + ColouredSlots(f[5..]) by { assert f[4..][1..] == f[5..]; }
    assert ColouredSlots(f[3..]) == Mark(f[3]) + ColouredSlots(f[4..]) by { assert f[3..][1..] == f[4..]; }
    assert ColouredSlots(f[2..]) == Mark(f[2]) + ColouredSlots(f[3..]) by { assert f[2..][1..] == f[3..]; }
    assert ColouredSlots(f[1..]) == Mark(f[1]) + ColouredSlots(f[2..]) by { assert f[1..][1..] == f[2..]; }
  }

  /** A cubie gets one exterior colour per coordinate component of magnitude 1. */
  lemma {:induction false} ColouredCountMatchesUnitComponents(c: Coord)
    ensures ColouredSlots(Painted(c)) == UnitComponents(c)
  {
    var p := Painted(c);
    ColouredSlotsOfSix(p);
    forall i | 0 <= i < FaceCount ensures Mark(p[i]) == if SlotTest(i, c) then 1 else 0 {
      PaintedIff(c, i);
    }
  }

  /** The centre cubie keeps all six faces neutral. */
  lemma CentreAllNeutral()
    ensures Painted(Coord(0, 0, 0)) == NeutralFaces()
    ensures ColouredSlots(Painted(Coord(0, 0, 0))) == 0
  {
  }

  /** The corner (1, 1, 1) is blue on the right, white on top and red in front,
      and neutral elsewhere. */
  lemma CornerColours()
    ensures Painted(Coord(1, 1, 1)) == [Blue, Neutral, White, Neutral, Red, Neutral]
    ensures ColouredSlots(Painted(Coord(1, 1, 1))) == 3
  {
  }

  /** On the lattice, a centre cubie has no exterior colours, a face centre one,
      an edge two and a corner three. */
  lemma ColouredCountOnLattice(c: Coord)
    requires InCube(c)
    ensures ColouredSlots(Painted(c)) == (if c.x == 0 then 0 else 1) + (if c.y == 0 then 0 else 1) + (if c.z == 0 then 0 else 1)
  {
  }
}
