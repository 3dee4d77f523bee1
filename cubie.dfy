/** One cubie: a box whose six face materials can be recoloured in place, and
    the colouring step the lattice builder applies to it. Geometry, edge
    overlay and shadow flags are scene-engine objects and are not modelled. */
module Cubies {
  import opened Grid
  import opened ColorScheme

  class Cubie {
    /** Edge length the cubie was made with. */
    const size: real
    /** Colour of each face material, in slot order Right, Left, Top, Bottom, Front, Back. */
    const faces: array<int>
    /** World position; a new mesh sits at the origin until it is placed. */
    var position: Point

    /** A new cubie of the given size with six neutral faces. */
    constructor (size: real)
      ensures this.size == size
      ensures fresh(faces) && faces.Length == FaceCount
      ensures faces[..] == NeutralFaces()
      ensures position == Point(0.0, 0.0, 0.0)
    {
      this.size := size;
      faces := new int[FaceCount](_ => Neutral);
      position := Point(0.0, 0.0, 0.0);
    }
  }

  /** Overwrites the face colours of `cubie` in place, one independent test per
      slot; a slot whose test fails keeps the colour it had. */
  method ApplyCubieColors(cubie: Cubie, x: int, y: int, z: int)
    requires cubie.faces.Length == FaceCount
    modifies cubie.faces
    ensures cubie.faces[..] == Recolor(old(cubie.faces[..]), Coord(x, y, z))
  {
    var materials := cubie.faces;
    if x == 1 {
      materials[Right] := Blue;
    }
    if x == -1 {
      materials[Left] := Green;
    }
    if y == 1 {
      materials[Top] := White;
    }
    if y == -1 {
      materials[Bottom] := Yellow;
    }
    if z == 1 {
      materials[Front] := Red;
    }
    if z == -1 {
      materials[Back] := Orange;
    }
  }
}
