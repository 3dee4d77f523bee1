/** The lattice builder: a group holding the 27 cubies, filled by a triple
    nested loop over x, y and z in {-1, 0, 1}. */
module Lattice {
  import opened Grid
  import opened ColorScheme
  import opened Cubies

  /** The scene-graph group the cubies are added to, in insertion order. */
  class Group {
    var children: seq<Cubie>

    constructor ()
      ensures children == []
    {
      children := [];
    }

    /** Adds a cubie that is not yet a child; the builder only adds new ones. */
    method Add(cubie: Cubie)
      requires cubie !in children
      modifies this
      ensures children == old(children) + [cubie]
    {
      children := children + [cubie];
    }
  }

  /** The cubie `c` has been built for grid cell g: made with the cube size,
      placed at g's position and coloured by the rule. */
  ghost predicate Placed(c: Cubie, g: Coord)
    reads c, c.faces
  {
    c.size == CubeSize && c.position == PositionOf(g) && c.faces[..] == Painted(g)
  }

  /** The group holds exactly the cubies of the first n steps of the loop nest,
      each placed and coloured for its cell, each a distinct object with its own
      face array. */
  ghost predicate BuiltUpTo(cube: Group, n: nat)
    reads cube, cube.children, set c | c in cube.children :: c.faces
  {
    |cube.children| == n && n <= CellCount &&
    (forall k :: 0 <= k < n ==> Placed(cube.children[k], CoordOf(k))) &&
    (forall j, k :: 0 <= j < k < n ==>
       cube.children[j] != cube.children[k] && cube.children[j].faces != cube.children[k].faces)
  }

  /** The body of the loop nest for cell (x, y, z): a new cubie, moved to the
      cell's position and coloured by the rule. */
  method NewCubieAt(x: int, y: int, z: int) returns (cubie: Cubie)
    ensures fresh(cubie) && fresh(cubie.faces)
    ensures Placed(cubie, Coord(x, y, z))
  {
    cubie := new Cubie(CubeSize);
    cubie.position := Point(x as real * Spacing, y as real * Spacing, z as real * Spacing);
    ApplyCubieColors(cubie, x, y, z);
  }

  /** Builds the cube: 27 cubies in x-major, then y, then z order, cubie k at
      CoordOf(k), placed and coloured. */
  method CreateRubiksCube() returns (cube: Group)
    ensures fresh(cube)
    ensures BuiltUpTo(cube, CellCount)
    ensures forall k :: 0 <= k < CellCount ==> fresh(cube.children[k]) && fresh(cube.children[k].faces)
  {
    cube := new Group();
    for x := -1 to 2
      invariant |cube.children| == (x + 1) * 9
      invariant forall c :: InCube(c) && IndexOf(c) < |cube.children| ==> Placed(cube.children[IndexOf(c)], c)
      invariant forall j, k :: 0 <= j < k < |cube.children| ==>
                  cube.children[j] != cube.children[k] && cube.children[j].faces != cube.children[k].faces
      invariant forall k :: 0 <= k < |cube.children| ==> fresh(cube.children[k]) && fresh(cube.children[k].faces)
    {
      for y := -1 to 2
        invariant |cube.children| == (x + 1) * 9 + (y + 1) * 3
        invariant forall c :: InCube(c) && IndexOf(c) < |cube.children| ==> Placed(cube.children[IndexOf(c)], c)
        invariant forall j, k :: 0 <= j < k < |cube.children| ==>
                    cube.children[j] != cube.children[k] && cube.children[j].faces != cube.children[k].faces
        invariant forall k :: 0 <= k < |cube.children| ==> fresh(cube.children[k]) && fresh(cube.children[k].faces)
      {
        for z := -1 to 2
          invariant |cube.children| == (x + 1) * 9 + (y + 1) * 3 + (z + 1)
          invariant forall c :: InCube(c) && IndexOf(c) < |cube.children| ==> Placed(cube.children[IndexOf(c)], c)
          invariant forall j, k :: 0 <= j < k < |cube.children| ==>
                      cube.children[j] != cube.children[k] && cube.children[j].faces != cube.children[k].faces
          invariant forall k :: 0 <= k < |cube.children| ==> fresh(cube.children[k]) && fresh(cube.children[k].faces)
        {
          ghost var built := cube.children;
          var cubie := NewCubieAt(x, y, z);
          cube.Add(cubie);
          assert cube.children == built + [cubie];
          forall c | InCube(c) && IndexOf(c) < |cube.children|
            ensures Placed(cube.children[IndexOf(c)], c)
          {
            if IndexOf(c) == |built| {
              IndexOfInjective(c, Coord(x, y, z));
            }
          }
        }
      }
    }
    forall k | 0 <= k < CellCount
      ensures Placed(cube.children[k], CoordOf(k))
    {
      IndexOfCoordOf(k);
    }
  }

  /** In a fully built group every cell of {-1, 0, 1}³ has exactly one cubie:
      one placed and coloured for it, and no other cubie at its position. */
  lemma {:induction false} EveryCellHasOneCubie(cube: Group)
    requires BuiltUpTo(cube, CellCount)
    ensures forall c :: InCube(c) ==>
              exists k :: 0 <= k < CellCount && Placed(cube.children[k], c)
    ensures forall j, k :: 0 <= j < k < CellCount ==>
              cube.children[j].position != cube.children[k].position
  {
    forall c | InCube(c)
      ensures exists k :: 0 <= k < CellCount && Placed(cube.children[k], c)
    {
      CoordOfIndexOf(c);
      assert Placed(cube.children[IndexOf(c)], c);
    }
    forall j, k | 0 <= j < k < CellCount
      ensures cube.children[j].position != cube.children[k].position
    {
      IndexOfCoordOf(j);
      IndexOfCoordOf(k);
      PositionsSeparated(CoordOf(j), CoordOf(k));
    }
  }
}
