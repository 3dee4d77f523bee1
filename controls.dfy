/** The application object, the orbit-controls state it configures, and the
    keyboard handler that resets the camera (KeyR) or toggles auto-rotation
    (Space). The orbit-controls library itself is not modelled: its object is
    reduced to the fields the application sets plus the camera pose it saved
    when it was made, which its reset restores. */
module Controls {
  import opened Grid
  import opened Lattice

  /** Where the camera is put when it is created, and where it looks. */
  const CameraStart: Point := Point(5.0, 5.0, 5.0)
  const Origin: Point := Point(0.0, 0.0, 0.0)

  /** Configuration the application gives the controls. */
  const DampingFactor: real := 0.05
  const MinDistance: real := 3.0
  const MaxDistance: real := 15.0
  const AutoRotateSpeed: real := 0.5

  class OrbitControls {
    /** Camera pose driven by the controls. */
    var position: Point
    var target: Point
    var zoom: real
    /** Pose saved when the controls were made; reset returns to it. */
    const position0: Point
    const target0: Point
    const zoom0: real

    var enableDamping: bool
    var dampingFactor: real
    var screenSpacePanning: bool
    var minDistance: real
    var maxDistance: real
    var autoRotate: bool
    var autoRotateSpeed: real

    /** Controls attached to a camera at `position` with zoom `zoom`, looking at
        the origin; the current pose is saved. */
    constructor (position: Point, zoom: real)
      ensures this.position == position && target == Origin && this.zoom == zoom
      ensures position0 == position && target0 == Origin && zoom0 == zoom
    {
      this.position := position;
      target := Origin;
      this.zoom := zoom;
      position0 := position;
      target0 := Origin;
      zoom0 := zoom;
    }

    /** Returns the camera to the saved pose; the configuration is untouched. */
    method Reset()
      modifies this
      ensures position == position0 && target == target0 && zoom == zoom0
      ensures enableDamping == old(enableDamping) && dampingFactor == old(dampingFactor)
      ensures screenSpacePanning == old(screenSpacePanning)
      ensures minDistance == old(minDistance) && maxDistance == old(maxDistance)
      ensures autoRotate == old(autoRotate) && autoRotateSpeed == old(autoRotateSpeed)
    {
      position := position0;
      target := target0;
      zoom := zoom0;
    }
  }

  /** The controls are configured as the application sets them up. */
  ghost predicate Configured(c: OrbitControls)
    reads c
  {
    c.enableDamping && c.dampingFactor == DampingFactor && !c.screenSpacePanning
    && c.minDistance == MinDistance && c.maxDistance == MaxDistance
    && c.autoRotateSpeed == AutoRotateSpeed
  }

  /** Makes the controls for a camera at the start pose and configures them:
      damping on, panning not in screen space, distance limits 3 and 15, and
      auto-rotation on at speed 0.5. */
  method CreateControls() returns (controls: OrbitControls)
    ensures fresh(controls)
    ensures Configured(controls) && controls.autoRotate
    ensures controls.position == controls.position0 == CameraStart
    ensures controls.target == controls.target0 == Origin
    ensures controls.zoom == controls.zoom0 == 1.0
  {
    controls := new OrbitControls(CameraStart, 1.0);
    controls.enableDamping := true;
    controls.dampingFactor := DampingFactor;
    controls.screenSpacePanning := false;
    controls.minDistance := MinDistance;
    controls.maxDistance := MaxDistance;
    controls.autoRotate := true;
    controls.autoRotateSpeed := AutoRotateSpeed;
  }

  function SquaredDistance(a: Point, b: Point): (d: real)
    ensures d >= 0.0
  {
    (a.x - b.x) * (a.x - b.x) + (a.y - b.y) * (a.y - b.y) + (a.z - b.z) * (a.z - b.z)
  }

  /** The distance limits form a non-empty range, and the start pose already
      lies inside it (squared distance 75 between 3² and 15²). */
  lemma StartWithinDistanceLimits()
    ensures 0.0 < MinDistance < MaxDistance
    ensures MinDistance * MinDistance <= SquaredDistance(CameraStart, Origin) <= MaxDistance * MaxDistance
  {
  }

  /** The application: its lattice and its controls. Either may be absent while
      the application is being set up. */
  class RubiksCube {
    var cube: Group?
    var controls: OrbitControls?

    /** Builds the lattice, then the controls. The state described is the one
        before the first animation frame, whose controls update already moves
        the camera. */
    constructor ()
      ensures cube != null && fresh(cube) && BuiltUpTo(cube, CellCount)
      ensures controls != null && fresh(controls)
      ensures Configured(controls) && controls.autoRotate
      ensures controls.position == CameraStart && controls.target == Origin
    {
      var group := CreateRubiksCube();
      var orbit := CreateControls();
      cube := group;
      controls := orbit;
    }
  }

  /** The keydown handler. `app` is the application, or null before it exists.
      Returns whether the event's default action was prevented (for every
      Space press). KeyR resets the camera and Space flips auto-rotation, each
      only when the application and its controls exist; nothing else changes. */
  method OnKeyDown(app: RubiksCube?, code: string) returns (preventDefault: bool)
    modifies if app != null && app.controls != null then {app.controls} else {}
    ensures preventDefault <==> code == "Space"
    ensures app != null && app.controls != null ==>
      var c := app.controls;
      c.enableDamping == old(c.enableDamping) && c.dampingFactor == old(c.dampingFactor)
      && c.screenSpacePanning == old(c.screenSpacePanning)
      && c.minDistance == old(c.minDistance) && c.maxDistance == old(c.maxDistance)
      && c.autoRotateSpeed == old(c.autoRotateSpeed)
      && c.autoRotate == (if code == "Space" then !old(c.autoRotate) else old(c.autoRotate))
      && (if code == "KeyR" then c.position == c.position0 && c.target == c.target0 && c.zoom == c.zoom0
          else c.position == old(c.position) && c.target == old(c.target) && c.zoom == old(c.zoom))
  {
    preventDefault := false;
    if code == "KeyR" {
      if app != null && app.controls != null {
        app.controls.Reset();
      }
    } else if code == "Space" {
      if app != null && app.controls != null {
        app.controls.autoRotate := !app.controls.autoRotate;
      }
      preventDefault := true;
    }
  }

  /** Pressing Space twice leaves the auto-rotate flag as it was. */
  method SpaceTwiceRestoresAutoRotate(app: RubiksCube)
    requires app.controls != null
    modifies app.controls
    ensures app.controls.autoRotate == old(app.controls.autoRotate)
  {
    var _ := OnKeyDown(app, "Space");
    var _ := OnKeyDown(app, "Space");
  }
}
