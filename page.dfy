/** The route under construction (src/app/page.tsx): two parallel sequences,
    the points as placed ("arbitrary") and the same points divided by half the
    model's bounding-box size ("normalized"), appended in lock-step; and the
    guard that enables "add route". */
module Page {
  import opened Three

  datatype Mode = View | Create | Edit

  /** What a qualifying click in "create" mode places. */
  datatype DotType = RouteEntity | RingEntity | InfoEntity

  /** A normalized coordinate: each axis is the result of a JavaScript division. */
  datatype NVec = NVec(x: Number, y: Number, z: Number)

  datatype Route = Route(normalized: seq<NVec>, arbitrary: seq<Vec3>)

  /** The route state's initial value: both sequences empty. */
  const EmptyRoute := Route([], [])

  /** Every axis of the box has a nonzero extent. */
  predicate NonDegenerate(box: Box3) {
    var s := Size(box);
    s.x != 0.0 && s.y != 0.0 && s.z != 0.0
  }

  /** The normalized form of `v` against `box`: each axis of `v` divided by half
      the box's size on that axis. The division is not guarded; a zero extent
      yields an infinity or NaN on that axis. */
  function Normalize(v: Vec3, box: Box3): (n: NVec)
    ensures NonDegenerate(box) <==> n.x.Finite? && n.y.Finite? && n.z.Finite?
    ensures n.x.Finite? <==> Size(box).x != 0.0
    ensures n.y.Finite? <==> Size(box).y != 0.0
    ensures n.z.Finite? <==> Size(box).z != 0.0
    ensures n.x.Finite? ==> n.x.value * (Size(box).x / 2.0) == v.x
    ensures n.y.Finite? ==> n.y.value * (Size(box).y / 2.0) == v.y
    ensures n.z.Finite? ==> n.z.value * (Size(box).z / 2.0) == v.z
    ensures Size(box).x == 0.0 ==>
      (n.x == PosInfinity <==> v.x > 0.0) && (n.x == NegInfinity <==> v.x < 0.0) && (n.x == NaN <==> v.x == 0.0)
    ensures Size(box).y == 0.0 ==>
      (n.y == PosInfinity <==> v.y > 0.0) && (n.y == NegInfinity <==> v.y < 0.0) && (n.y == NaN <==> v.y == 0.0)
    ensures Size(box).z == 0.0 ==>
      (n.z == PosInfinity <==> v.z > 0.0) && (n.z == NegInfinity <==> v.z < 0.0) && (n.z == NaN <==> v.z == 0.0)
  {
    var size := Size(box);
    NVec(Divide(v.x, size.x / 2.0), Divide(v.y, size.y / 2.0), Divide(v.z, size.z / 2.0))
  }

  /** Scales a finite normalized coordinate back by the box's half extents. */
  function Denormalize(n: NVec, box: Box3): Vec3
    requires n.x.Finite? && n.y.Finite? && n.z.Finite?
  {
    var size := Size(box);
    Vec3(n.x.value * (size.x / 2.0), n.y.value * (size.y / 2.0), n.z.value * (size.z / 2.0))
  }

  /** Normalizing against a box with nonzero extents loses nothing: scaling
      back by the same box gives the raw point. */
  lemma NormalizeRoundTrip(v: Vec3, box: Box3)
    requires NonDegenerate(box)
    ensures var n := Normalize(v, box);
      n.x.Finite? && n.y.Finite? && n.z.Finite? && Denormalize(n, box) == v
  {
  }

  /** The box is read afresh for every capture: the same raw point normalized
      against two boxes whose x extents differ gets different x coordinates
      unless it lies on the x = 0 plane. */
  lemma NormalizeFollowsBox(v: Vec3, b1: Box3, b2: Box3)
    requires NonDegenerate(b1) && NonDegenerate(b2)
    requires Size(b1).x != Size(b2).x && v.x != 0.0
    ensures Normalize(v, b1).x != Normalize(v, b2).x
  {
  }

  /** The two sequences have equal length, so an index names the same point in both. */
  predicate LockStep(r: Route) {
    |r.arbitrary| == |r.normalized|
  }

  /** The updater of handleAddPoint: the raw point and its normalized form,
      computed with the box passed in for this call, go on the end of the two
      sequences; every earlier element keeps its value and index. */
  function AppendPoint(r: Route, v: Vec3, box: Box3): (r': Route)
    ensures |r'.arbitrary| == |r.arbitrary| + 1 && |r'.normalized| == |r.normalized| + 1
    ensures r'.arbitrary[|r.arbitrary|] == v
    ensures r'.normalized[|r.normalized|] == Normalize(v, box)
    ensures forall i :: 0 <= i < |r.arbitrary| ==> r'.arbitrary[i] == r.arbitrary[i]
    ensures forall i :: 0 <= i < |r.normalized| ==> r'.normalized[i] == r.normalized[i]
    ensures LockStep(r) ==> LockStep(r')
  {
    Route(r.normalized + [Normalize(v, box)], r.arbitrary + [v])
  }

  /** One capture: the hit point and the bounding box computed at that moment. */
  datatype Placement = Placement(point: Vec3, box: Box3)

  /** The route after the captures `ps`, in order, starting from `r`. */
  function CaptureAll(r: Route, ps: seq<Placement>): Route
    decreases |ps|
  {
    if ps == [] then r
    else CaptureAll(AppendPoint(r, ps[0].point, ps[0].box), ps[1..])
  }

  /** After a series of captures the raw sequence is the old one followed by
      the captured points, and each new normalized entry is its raw point
      normalized against the box of its own capture. */
  lemma {:induction false} CaptureAllSpec(r: Route, ps: seq<Placement>)
    ensures var r' := CaptureAll(r, ps);
      r'.arbitrary == r.arbitrary + seq(|ps|, i requires 0 <= i < |ps| => ps[i].point) &&
      r'.normalized == r.normalized + seq(|ps|, i requires 0 <= i < |ps| => Normalize(ps[i].point, ps[i].box))
    decreases |ps|
  {
    if ps != [] {
      var r1 := AppendPoint(r, ps[0].point, ps[0].box);
      CaptureAllSpec(r1, ps[1..]);
      assert r1.arbitrary == r.arbitrary + [ps[0].point];
      assert r1.normalized == r.normalized + [Normalize(ps[0].point, ps[0].box)];
      assert seq(|ps|, i requires 0 <= i < |ps| => ps[i].point)
          == [ps[0].point] + seq(|ps[1..]|, i requires 0 <= i < |ps[1..]| => ps[1..][i].point);
      assert seq(|ps|, i requires 0 <= i < |ps| => Normalize(ps[i].point, ps[i].box))
          == [Normalize(ps[0].point, ps[0].box)]
             + seq(|ps[1..]|, i requires 0 <= i < |ps[1..]| => Normalize(ps[1..][i].point, ps[1..][i].box));
    }
  }

  /** A route built by captures alone keeps both sequences in lock-step, and
      entry i of the normalized sequence is entry i of the raw sequence
      normalized against the box of its capture. */
  lemma CapturedRouteConsistent(ps: seq<Placement>, i: nat)
    requires i < |ps|
    ensures var r := CaptureAll(EmptyRoute, ps);
      LockStep(r) && |r.arbitrary| == |ps| &&
      r.arbitrary[i] == ps[i].point && r.normalized[i] == Normalize(ps[i].point, ps[i].box)
  {
    CaptureAllSpec(EmptyRoute, ps);
  }

  /** The "add route" button is enabled: a non-empty name and at least four
      points. It is disabled exactly when the name is empty or fewer than four
      points have been placed. */
  function CanAddRoute(name: string, r: Route): (enabled: bool)
    ensures !enabled <==> |name| == 0 || |r.arbitrary| < 4
  {
    name != [] && |r.arbitrary| >= 4
  }

  /** Starting from the empty route, "add route" becomes enabled exactly when
      a name has been typed and at least four points have been captured. */
  lemma CanAddRouteAfterCaptures(name: string, ps: seq<Placement>)
    ensures CanAddRoute(name, CaptureAll(EmptyRoute, ps)) <==> name != [] && |ps| >= 4
  {
    CaptureAllSpec(EmptyRoute, ps);
  }

  /** The box from (-1,-1,-1) to (1,1,1), whose half extents are all 1. */
  const UnitBox := Box3(Vec3(-1.0, -1.0, -1.0), Vec3(1.0, 1.0, 1.0))

  /** Against the unit box every point normalizes to itself. */
  lemma NormalizeUnitBox(v: Vec3)
    ensures Normalize(v, UnitBox) == NVec(Finite(v.x), Finite(v.y), Finite(v.z))
  {
    assert Size(UnitBox) == Vec3(2.0, 2.0, 2.0);
  }

  /** Four points around the origin, and their captures against the unit box. */
  const LoopPoints := [Vec3(1.0, 0.0, 0.0), Vec3(0.0, 1.0, 0.0), Vec3(0.0, 0.0, 1.0), Vec3(-1.0, 0.0, 0.0)]
  const LoopPlacements := [Placement(LoopPoints[0], UnitBox), Placement(LoopPoints[1], UnitBox),
                           Placement(LoopPoints[2], UnitBox), Placement(LoopPoints[3], UnitBox)]

  /** The points (1,0,0), (0,1,0), (0,0,1), (-1,0,0) captured against the
      unit box: each normalized point equals its raw point; with the name
      "loop" typed, three points do not enable "add route" and four do. */
  lemma LoopScenario()
    ensures var route := CaptureAll(EmptyRoute, LoopPlacements);
      route.arbitrary == LoopPoints && |route.normalized| == 4 &&
      route.normalized[0] == NVec(Finite(1.0), Finite(0.0), Finite(0.0)) &&
      route.normalized[1] == NVec(Finite(0.0), Finite(1.0), Finite(0.0)) &&
      route.normalized[2] == NVec(Finite(0.0), Finite(0.0), Finite(1.0)) &&
      route.normalized[3] == NVec(Finite(-1.0), Finite(0.0), Finite(0.0)) &&
      !CanAddRoute("loop", CaptureAll(EmptyRoute, LoopPlacements[..3])) &&
      CanAddRoute("loop", route)
  {
    var ps := LoopPlacements;
    CaptureAllSpec(EmptyRoute, ps);
    CaptureAllSpec(EmptyRoute, ps[..3]);
    NormalizeUnitBox(LoopPoints[0]);
    NormalizeUnitBox(LoopPoints[1]);
    NormalizeUnitBox(LoopPoints[2]);
    NormalizeUnitBox(LoopPoints[3]);
  }

  /** The state of the page's Scene component that the core reads and writes. */
  class Scene {
    var route: Route
    var newRouteName: string

    constructor ()
      ensures route == EmptyRoute && newRouteName == ""
    {
      route := EmptyRoute;
      newRouteName := "";
    }

    /** handleAddPoint: append `v` and its normalization against `box`. */
    method HandleAddPoint(v: Vec3, box: Box3)
      modifies this`route
      ensures route == AppendPoint(old(route), v, box)
    {
      route := AppendPoint(route, v, box);
    }

    /** handleSetRoute: replace the current route wholesale. */
    method HandleSetRoute(points: Route)
      modifies this`route
      ensures route == points
    {
      route := points;
    }

    /** The route-name input's change handler. */
    method SetNewRouteName(name: string)
      modifies this`newRouteName
      ensures newRouteName == name
    {
      newRouteName := name;
    }

    /** Whether the "add route" button is enabled. */
    method AddRouteEnabled() returns (enabled: bool)
      ensures enabled == CanAddRoute(newRouteName, route)
    {
      enabled := !(|newRouteName| == 0 || |route.arbitrary| < 4);
    }
  }
}
