# Rubik's cube lattice: a Dafny model

The application draws a static 3×3×3 Rubik's cube made of 27 small cubes
("cubies"). This project models the part of it that is discrete logic:

- the lattice builder, a triple nested loop over x, y, z in {-1, 0, 1}
  that creates one cubie per cell, places it at the cell's coordinate
  times the spacing 1.0, colours it and appends it to a group;
- the cubie factory, which gives each cubie six face materials in slot
  order Right, Left, Top, Bottom, Front, Back, all the neutral colour
  0x222222;
- the colouring rule, which overwrites a cubie's slots in place under six
  independent tests, one per (axis, sign) pair, with the colours of the
  colour table (white 0xffffff, yellow 0xffd700, red 0xff0000, orange
  0xff4500, blue 0x0066ff, green 0x00cc00);
- the configuration of the orbit controls (damping 0.05, distance limits
  3 and 15, auto-rotation on at speed 0.5) and the keydown handler, where
  KeyR resets the camera and Space flips auto-rotation, each only when the
  application and its controls exist.

Modules, one per component: `Grid` (coordinates, the loop-nest order,
world positions), `ColorScheme` (the colour table and the colouring rule
as a function on the six slots), `Cubies` (the `Cubie` class, whose
`faces` array is recoloured in place), `Lattice` (the `Group` class and the
builder), `Controls` (the orbit-controls state, the application object and
the keydown handler).

The loop-nest order is captured by `Grid.CoordOf(k)`, the cell visited at
step k, which is `(k / 9 - 1, (k / 3) % 3 - 1, k % 3 - 1)`. Its inverse
`Grid.IndexOf` is proved to be a two-sided inverse. The builder is
proved to leave cubie k at `CoordOf(k)`, placed and coloured as
`ColorScheme.Painted(CoordOf(k))`. The colouring rule `ColorScheme.Recolor`
mirrors the source's six `if`s. Each of its slots is tied to
`ColorScheme.SlotTest`, an independent statement of the table: slot s
faces axis s / 2, towards + for even s and towards - for odd s.

## Model

| member | source | states |
|---|---|---|
| `Grid.CoordOf` | rubiks-cube.js:98-100 | the cell visited at loop step k, x slowest and z fastest, always lies in {-1, 0, 1}³ |
| `Grid.IndexOf` | rubiks-cube.js:98-100 | every cell of {-1, 0, 1}³ is visited at a step below 27 |
| `Grid.IndexOfCoordOf` | rubiks-cube.js:98-110 | the step of the cell visited at step k is k: step numbers are recovered from cells |
| `Grid.CoordOfIndexOf` | rubiks-cube.js:98-110 | the cell visited at the step of cell c is c: every cell is reached |
| `Grid.IndexOfInjective` | rubiks-cube.js:98-110 | two cells visited at the same step are the same cell |
| `Grid.EveryCellOnce` | rubiks-cube.js:98-110 | the 27 steps visit every cell of {-1, 0, 1}³, and no cell twice |
| `Grid.LoopOrderIsLexicographic` | rubiks-cube.js:98-110 | an earlier step visits a lexicographically smaller (x, y, z), so cubies are appended x-major, then y, then z |
| `Grid.PositionOf` | rubiks-cube.js:95-102 | a cubie's position, its coordinate times the spacing 1.0, equals the coordinate itself |
| `Grid.PositionsSeparated` | rubiks-cube.js:95-102 | distinct cells get distinct positions whose centres are at least one spacing apart along some axis; with the cube size 0.95 below the spacing 1.0, the boxes of distinct cubies are separated by a gap |
| `ColorScheme.SlotColor` | rubiks-cube.js:11-18 | each slot's exterior colour is a 24-bit RGB value different from the neutral 0x222222 |
| `ColorScheme.ColoursDistinct` | rubiks-cube.js:11-18 | the six exterior colours are pairwise distinct and all differ from the neutral colour |
| `ColorScheme.NeutralFaces` | rubiks-cube.js:119-126 | a new cubie has six slots, all 0x222222 |
| `ColorScheme.Recolor` | rubiks-cube.js:141-173 | after the six tests, slot i holds its exterior colour if its own (axis, sign) test holds and its previous colour otherwise; no slot depends on another test |
| `ColorScheme.Painted` | rubiks-cube.js:101-105 | the faces of a cubie made and then coloured for cell c: six slots, slot i holding its exterior colour when its own test holds and the neutral 0x222222 otherwise |
| `ColorScheme.PaintedIff` | rubiks-cube.js:141-173 | on a built cubie, slot i is non-neutral if and only if its test holds (blue iff x = 1, green iff x = -1, white iff y = 1, yellow iff y = -1, red iff z = 1, orange iff z = -1) |
| `ColorScheme.OppositeNeverBoth` | rubiks-cube.js:145-171 | the two slots of an axis (0/1, 2/3, 4/5) are never both non-neutral |
| `ColorScheme.ColouredCountMatchesUnitComponents` | rubiks-cube.js:145-171 | the number of non-neutral slots equals the number of coordinates equal to 1 or -1, for every integer coordinate |
| `ColorScheme.ColouredCountOnLattice` | rubiks-cube.js:141-173 | on the lattice that is the number of non-zero coordinates: 0 for the centre, 1 face centre, 2 edge, 3 corner |
| `ColorScheme.CentreAllNeutral` | rubiks-cube.js:141-173 | the centre cubie (0, 0, 0) keeps all six slots neutral |
| `ColorScheme.CornerColours` | rubiks-cube.js:145-167 | the corner (1, 1, 1) is blue, white and red in slots 0, 2 and 4 and neutral elsewhere: three colours |
| `Cubies.Cubie.constructor` | rubiks-cube.js:115-126 | a new cubie has its size, a fresh six-slot face array all 0x222222, and sits at the origin |
| `Cubies.ApplyCubieColors` | rubiks-cube.js:141-173 | the face array, changed in place, becomes `Recolor` of its previous contents |
| `Lattice.Group.constructor` | rubiks-cube.js:92 | a new group has no children |
| `Lattice.Group.Add` | rubiks-cube.js:107 | adding a cubie that is not yet in the group appends it after the children already there, keeping their order |
| `Lattice.NewCubieAt` | rubiks-cube.js:101-105 | one loop iteration yields a new cubie of size 0.95 at the cell's position, coloured as `Painted` says |
| `Lattice.CreateRubiksCube` | rubiks-cube.js:91-113 | the group holds exactly 27 new cubies, cubie k at `CoordOf(k)` with its position and colours, pairwise distinct objects with distinct face arrays |
| `Lattice.EveryCellHasOneCubie` | rubiks-cube.js:98-110 | in the built group every cell of {-1, 0, 1}³ has a cubie placed and coloured for it, and no two cubies share a position |
| `Controls.OrbitControls.constructor` | rubiks-cube.js:176 | new controls hold the camera's position and zoom with the target at the origin, and save that pose as the one reset returns to |
| `Controls.OrbitControls.Reset` | rubiks-cube.js:229-234 | the camera position, target and zoom return to the saved pose; the configuration and auto-rotate flag are unchanged |
| `Controls.CreateControls` | rubiks-cube.js:175-193 | new controls with damping on at 0.05, no screen-space panning, distances 3 and 15, auto-rotation on at 0.5, camera at (5, 5, 5) looking at the origin |
| `Controls.StartWithinDistanceLimits` | rubiks-cube.js:184-185 | 0 < 3 < 15, and the start camera (5, 5, 5) lies within the distance limits of the origin |
| `Controls.RubiksCube.constructor` | rubiks-cube.js:3-31 | a new application, before its first animation frame, has a built 27-cubie lattice and configured controls with auto-rotation on, the camera at (5, 5, 5) looking at the origin |
| `Controls.OnKeyDown` | rubiks-cube.js:227-245 | Space flips auto-rotation and KeyR resets the camera, each only when the application and its controls exist; nothing else changes; the default is prevented exactly for Space |
| `Controls.SpaceTwiceRestoresAutoRotate` | rubiks-cube.js:236-241 | two Space presses leave the auto-rotate flag as it was |

## Left out

- Scene, renderer, lights, geometry, mesh, edge overlay and shadow flags (rubiks-cube.js:36-39, 49-89, 116-117, 127-136): these are graphics-engine objects. A cubie keeps only its size, its six face colours and its position.
- Adding the lattice group to the scene (rubiks-cube.js:112) is left out with the scene.
- Camera creation and `onWindowResize` (rubiks-cube.js:41-47, 209-218): they read the page's size and compute a floating-point aspect ratio. The camera's start position and zoom appear only as the pose the controls save.
- The render loop (rubiks-cube.js:195-207): each frame calls `controls.update()`, which steps the auto-rotation and the damping and so moves the camera, and then draws. Neither the per-frame update nor the drawing is modelled.
- Controls.RubiksCube.constructor: its camera-pose ensures describes the application before the first animation frame. The source runs that first frame synchronously inside the constructor (rubiks-cube.js:30, 206), so by the time the constructor returns its `controls.update()` has already moved the camera away from (5, 5, 5).
- Page-load wiring and the global `window.rubiksCube` (rubiks-cube.js:222-224): the handler takes the application as a parameter, null when it does not exist yet.
- Orbit-controls internals (damping, clamping to the distance limits, `update()`): that library's code is not part of this model. Its object is reduced to the fields the application sets, plus the pose saved when the controls are made.
- Controls.OrbitControls.constructor: stands in for the library's constructor, assuming (as the library documents, not as shown here) that the target starts at the origin and that position, target and zoom are saved on construction.
- Controls.OrbitControls.Reset: models only the restoration of the saved position, target and zoom; the update pass and change event the library runs inside reset are not modelled.
- `event.preventDefault()` is modelled as a returned flag, not as an effect on a browser event.
- Colours are integers, as the source passes them to the engine. The engine's conversion of a material colour to floating-point channels is not modelled.
