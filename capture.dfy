/** The pointer handlers of the Model component (src/componenets/POC/Model.tsx).
    A pointer-up on the model is filtered in a fixed order (one-shot
    suppression set by the context menu, self-intersection with an existing
    dot or the helper dot, more than 15 pixels of travel since the press) and
    then either appends a ring marker or hands the hit point and the model's
    bounding box to the page as a new route point. Pointer leave and enter
    hide and show the helper dot and its connector; pointer move places them.
    The handlers are attached only in "create" mode. */
module Capture {
  import opened Optional
  import opened Three
  import opened Page

  /** A pointer position in client (screen) pixels. */
  datatype ScreenPoint = ScreenPoint(x: int, y: int)

  /** A pointer-up over the model: where the pointer was released on screen,
      the surface point the ray hit, and the names of every object the ray
      intersected. */
  datatype Release = Release(client: ScreenPoint, point: Vec3, hits: seq<string>)

  /** The arguments of one onAddPoint call. */
  datatype AddPointCall = AddPointCall(v: Vec3, box: Box3)

  /** The arguments of one onPointEdit call. */
  datatype PointEditCall = PointEditCall(v: Vec3, box: Box3, id: int)

  /** What a pointer-up does. */
  datatype Outcome = Ignored | RingAdded(ring: Vec3) | PointAdded(call: AddPointCall)

  /** The travel, in pixels, beyond which a press-and-release is a drag. */
  const TravelLimit := 15

  function SquaredDistance(a: ScreenPoint, b: ScreenPoint): (d: int)
    ensures d >= 0
    ensures d == 0 <==> a == b
  {
    (a.x - b.x) * (a.x - b.x) + (a.y - b.y) * (a.y - b.y)
  }

  /** `dist(press, release) > 15`, with `dist` the Euclidean distance, compared
      squared so that no square root is needed. */
  predicate MovedTooFar(press: ScreenPoint, release: ScreenPoint) {
    SquaredDistance(press, release) > TravelLimit * TravelLimit
  }

  /** The names the self-intersection check looks for: a placed route dot and
      the helper dot, spelt as the check spells them. */
  predicate IsMarkerName(name: string) {
    name == "dot" || name == "helperDOt"
  }

  /** `intersections.some(...)`: some intersected object is a marker. */
  function HitsMarker(hits: seq<string>): (r: bool)
    ensures r <==> exists i :: 0 <= i < |hits| && IsMarkerName(hits[i])
  {
    if hits == [] then false
    else IsMarkerName(hits[0]) || HitsMarker(hits[1..])
  }

  /** handlePointerUp's decision, given the suppression flag and the press
      position as they stand, the entity being placed, whether the route
      group exists in the scene, and the model's box. */
  function Classify(suppressed: bool, press: ScreenPoint, e: Release, entity: DotType,
                    routePresent: bool, box: Box3): (o: Outcome)
    ensures suppressed ==> o == Ignored
    ensures HitsMarker(e.hits) ==> o == Ignored
    ensures MovedTooFar(press, e.client) ==> o == Ignored
    ensures o.RingAdded? <==>
      !suppressed && !HitsMarker(e.hits) && !MovedTooFar(press, e.client) && entity == RingEntity
    ensures o.RingAdded? ==> o.ring == e.point
    ensures o.PointAdded? <==>
      !suppressed && !HitsMarker(e.hits) && !MovedTooFar(press, e.client) &&
      entity != RingEntity && routePresent
    ensures o.PointAdded? ==> o.call == AddPointCall(e.point, box)
  {
    if suppressed then Ignored
    else if HitsMarker(e.hits) then Ignored
    else if MovedTooFar(press, e.client) then Ignored
    else if entity == RingEntity then RingAdded(e.point)
    else if !routePresent then Ignored
    else PointAdded(AddPointCall(e.point, box))
  }

  /** The travel limit is inclusive, for every press and release: with no
      suppression pending and no marker hit, a release at most 15 pixels from
      the press places what the entity calls for, and one further away places
      nothing. */
  lemma TravelBoundary(press: ScreenPoint, e: Release, entity: DotType, routePresent: bool, box: Box3)
    ensures SquaredDistance(press, e.client) > 225 ==>
      Classify(false, press, e, entity, routePresent, box) == Ignored
    ensures SquaredDistance(press, e.client) <= 225 && !HitsMarker(e.hits) ==>
      Classify(false, press, e, entity, routePresent, box) ==
        if entity == RingEntity then RingAdded(e.point)
        else if routePresent then PointAdded(AddPointCall(e.point, box))
        else Ignored
  {
  }

  /** Travel of exactly 15 pixels is still a click, 16 is not, whatever the direction. */
  lemma TravelExamples()
    ensures !MovedTooFar(ScreenPoint(0, 0), ScreenPoint(15, 0))
    ensures !MovedTooFar(ScreenPoint(100, 100), ScreenPoint(91, 112))
    ensures MovedTooFar(ScreenPoint(0, 0), ScreenPoint(0, -16))
    ensures MovedTooFar(ScreenPoint(0, 0), ScreenPoint(11, 11))
  {
  }

  /** The gesture state the handlers keep: the remembered press position, the
      one-shot suppression flag and the rings placed so far. */
  datatype Gesture = Gesture(press: ScreenPoint, suppressed: bool, rings: seq<Vec3>)

  const InitialGesture := Gesture(ScreenPoint(0, 0), false, [])

  /** The pointer events the model mesh listens to. */
  datatype Event =
    | PointerDown(client: ScreenPoint)
    | PointerUp(release: Release)
    | ContextMenu
    | PointerMove(hit: Option<Vec3>)
    | PointerLeave
    | PointerEnter

  /** One event together with what the handlers read beside it: the mode and
      entity props, whether the route group exists, and the model's box. */
  datatype Input = Input(mode: Mode, entity: DotType, routePresent: bool, box: Box3, event: Event)

  datatype Step = Step(next: Gesture, outcome: Outcome)

  /** The effect of one event on the gesture state. Outside "create" mode no
      handler is attached and nothing happens. */
  function StepOf(g: Gesture, i: Input): (s: Step)
    ensures i.mode != Create ==> s == Step(g, Ignored)
    ensures s.outcome != Ignored ==> IsRelease(i)
    ensures IsRelease(i) ==>
      s.outcome == Classify(g.suppressed, g.press, i.event.release, i.entity, i.routePresent, i.box)
    ensures s.next.press == if i.mode == Create && i.event.PointerDown? then i.event.client else g.press
    ensures s.next.suppressed == if IsContextMenu(i) then true else if IsRelease(i) then false else g.suppressed
    ensures s.next.rings == if s.outcome.RingAdded? then g.rings + [s.outcome.ring] else g.rings
  {
    if i.mode != Create then Step(g, Ignored)
    else match i.event
      case PointerDown(c) => Step(g.(press := c), Ignored)
      case ContextMenu => Step(g.(suppressed := true), Ignored)
      case PointerUp(e) =>
        var o := Classify(g.suppressed, g.press, e, i.entity, i.routePresent, i.box);
        Step(g.(suppressed := false, rings := if o.RingAdded? then g.rings + [o.ring] else g.rings), o)
      case _ => Step(g, Ignored)
  }

  datatype Trace = Trace(final: Gesture, outcomes: seq<Outcome>)

  /** The events `ins` handled in arrival order. */
  function Run(g: Gesture, ins: seq<Input>): (t: Trace)
    ensures |t.outcomes| == |ins|
    decreases |ins|
  {
    if ins == [] then Trace(g, [])
    else
      var s := StepOf(g, ins[0]);
      var rest := Run(s.next, ins[1..]);
      Trace(rest.final, [s.outcome] + rest.outcomes)
  }

  /** The rings among some outcomes, in order. */
  function RingsOf(os: seq<Outcome>): seq<Vec3> {
    if os == [] then []
    else (if os[0].RingAdded? then [os[0].ring] else []) + RingsOf(os[1..])
  }

  /** Rings are only ever appended: after any series of events the ring list
      is the old list followed by the rings the releases added, in order. */
  lemma {:induction false} RunAppendsRings(g: Gesture, ins: seq<Input>)
    ensures Run(g, ins).final.rings == g.rings + RingsOf(Run(g, ins).outcomes)
    decreases |ins|
  {
    if ins != [] {
      var s := StepOf(g, ins[0]);
      RunAppendsRings(s.next, ins[1..]);
      var t := Run(g, ins);
      assert t.outcomes == [s.outcome] + Run(s.next, ins[1..]).outcomes;
      assert RingsOf(t.outcomes)
          == (if s.outcome.RingAdded? then [s.outcome.ring] else []) + RingsOf(Run(s.next, ins[1..]).outcomes);
    }
  }

  /** Outside "create" mode the handlers are not attached: any series of such
      events leaves the state as it was and places nothing. */
  lemma {:induction false} RunOutsideCreate(g: Gesture, ins: seq<Input>)
    requires forall i :: 0 <= i < |ins| ==> ins[i].mode != Create
    ensures Run(g, ins).final == g
    ensures forall i :: 0 <= i < |ins| ==> Run(g, ins).outcomes[i] == Ignored
    decreases |ins|
  {
    if ins != [] {
      RunOutsideCreate(g, ins[1..]);
    }
  }

  /** What a release decides does not depend on the rings already placed. */
  lemma {:induction false} OutcomesIgnoreRings(g: Gesture, h: Gesture, ins: seq<Input>)
    requires g.press == h.press && g.suppressed == h.suppressed
    ensures Run(g, ins).outcomes == Run(h, ins).outcomes
    ensures Run(g, ins).final.press == Run(h, ins).final.press
    ensures Run(g, ins).final.suppressed == Run(h, ins).final.suppressed
    decreases |ins|
  {
    if ins != [] {
      OutcomesIgnoreRings(StepOf(g, ins[0]).next, StepOf(h, ins[0]).next, ins[1..]);
    }
  }

  /** A release the handlers act on. */
  predicate IsRelease(i: Input) {
    i.mode == Create && i.event.PointerUp?
  }

  /** A context-menu event the handlers act on. */
  predicate IsContextMenu(i: Input) {
    i.mode == Create && i.event.ContextMenu?
  }

  /** The suppression flag is consumed by the first release after it and never
      leaks further: with no new context-menu event, a run that starts
      suppressed ignores its first release (at index k, whatever that release
      would otherwise have done) and then decides every event exactly as a run
      that starts unsuppressed does. */
  lemma {:induction false} SuppressionIsOneShot(g: Gesture, ins: seq<Input>, k: nat)
    requires forall i :: 0 <= i < |ins| ==> !IsContextMenu(ins[i])
    requires k < |ins| && IsRelease(ins[k])
    requires forall j :: 0 <= j < k ==> !IsRelease(ins[j])
    ensures Run(g.(suppressed := true), ins).outcomes[k] == Ignored
    ensures forall i :: 0 <= i < |ins| && i != k ==>
      Run(g.(suppressed := true), ins).outcomes[i] == Run(g.(suppressed := false), ins).outcomes[i]
    ensures !Run(g.(suppressed := true), ins).final.suppressed
    decreases |ins|
  {
    var gs, gu := g.(suppressed := true), g.(suppressed := false);
    var ss, su := StepOf(gs, ins[0]), StepOf(gu, ins[0]);
    var ts, tu := Run(gs, ins), Run(gu, ins);
    if k == 0 {
      SuppressedReleaseFirst(g, ins);
    } else {
      assert !IsRelease(ins[0]) && !IsContextMenu(ins[0]);
      assert ss.next == gs.(press := ss.next.press) && su.next == gu.(press := ss.next.press);
      assert ss.outcome == su.outcome;
      SuppressionIsOneShot(gs.(press := ss.next.press), ins[1..], k - 1);
      forall i | 0 <= i < |ins| && i != k
        ensures ts.outcomes[i] == tu.outcomes[i]
      {
        if i > 0 {
          assert ts.outcomes[i] == Run(ss.next, ins[1..]).outcomes[i - 1];
          assert tu.outcomes[i] == Run(su.next, ins[1..]).outcomes[i - 1];
        }
      }
    }
  }

  /** The first case of SuppressionIsOneShot: the pending suppression meets
      a release straight away. */
  lemma {:induction false} SuppressedReleaseFirst(g: Gesture, ins: seq<Input>)
    requires forall i :: 0 <= i < |ins| ==> !IsContextMenu(ins[i])
    requires ins != [] && IsRelease(ins[0])
    ensures Run(g.(suppressed := true), ins).outcomes[0] == Ignored
    ensures forall i :: 1 <= i < |ins| ==>
      Run(g.(suppressed := true), ins).outcomes[i] == Run(g.(suppressed := false), ins).outcomes[i]
    ensures !Run(g.(suppressed := true), ins).final.suppressed
  {
    var ss, su := StepOf(g.(suppressed := true), ins[0]), StepOf(g.(suppressed := false), ins[0]);
    var ts, tu := Run(g.(suppressed := true), ins), Run(g.(suppressed := false), ins);
    OutcomesIgnoreRings(ss.next, su.next, ins[1..]);
    SuppressionStaysOff(ss.next, ins[1..]);
    forall i | 1 <= i < |ins|
      ensures ts.outcomes[i] == tu.outcomes[i]
    {
      assert ts.outcomes[i] == Run(ss.next, ins[1..]).outcomes[i - 1];
      assert tu.outcomes[i] == Run(su.next, ins[1..]).outcomes[i - 1];
    }
  }

  /** Without a context-menu event, an unsuppressed state stays unsuppressed. */
  lemma {:induction false} SuppressionStaysOff(g: Gesture, ins: seq<Input>)
    requires !g.suppressed
    requires forall i :: 0 <= i < |ins| ==> !IsContextMenu(ins[i])
    ensures !Run(g, ins).final.suppressed
    decreases |ins|
  {
    if ins != [] {
      SuppressionStaysOff(StepOf(g, ins[0]).next, ins[1..]);
    }
  }

  /** The scene objects the handlers find by name; `null` where the lookup
      finds nothing (or, for the pivot and the connector, an object of the
      wrong kind). */
  class SceneGraph {
    var route: Object3D?
    var helperDot: Object3D?
    var helperConnection: Object3D?
    var helperPivot: Object3D?
    var lastDot: Object3D?

    /** Objects found under different names are different objects. */
    predicate Distinct()
      reads this
    {
      (helperDot != null && helperPivot != null ==> helperDot != helperPivot) &&
      (helperDot != null && helperConnection != null ==> helperDot != helperConnection) &&
      (helperPivot != null && helperConnection != null ==> helperPivot != helperConnection) &&
      (helperPivot != null && lastDot != null ==> helperPivot != lastDot) &&
      (helperDot != null && lastDot != null ==> helperDot != lastDot)
    }
  }

  /** The Model component's mutable state and its pointer handlers. */
  class Model {
    const scene: SceneGraph
    var press: ScreenPoint
    var suppressed: bool
    var rings: seq<Vec3>

    function State(): Gesture
      reads this
    {
      Gesture(press, suppressed, rings)
    }

    constructor (scene: SceneGraph)
      ensures this.scene == scene && State() == InitialGesture
    {
      this.scene := scene;
      press := ScreenPoint(0, 0);
      suppressed := false;
      rings := [];
    }

    /** addRing: the hit point goes on the end of the ring list. */
    method AddRing(p: Vec3)
      modifies this`rings
      ensures rings == old(rings) + [p]
    {
      rings := rings + [p];
    }

    /** handlePointerDown: remember where the press happened. */
    method HandlePointerDown(client: ScreenPoint)
      modifies this`press
      ensures press == client
    {
      press := client;
    }

    /** The model's onContextMenu: suppress the next release. */
    method HandleContextMenu()
      modifies this`suppressed
      ensures suppressed
    {
      suppressed := true;
    }

    /** handlePointerUp, returning the onAddPoint call it makes, if any. */
    method HandlePointerUp(e: Release, entity: DotType, box: Box3) returns (call: Option<AddPointCall>)
      modifies this`suppressed, this`rings
      ensures !suppressed
      ensures var o := Classify(old(suppressed), press, e, entity, scene.route != null, box);
        rings == (if o.RingAdded? then old(rings) + [o.ring] else old(rings)) &&
        call == (if o.PointAdded? then Some(o.call) else None)
    {
      call := None;
      if suppressed {
        suppressed := false;
        return;
      }
      if HitsMarker(e.hits) {
        return;
      }
      if MovedTooFar(press, e.client) {
        return;
      }
      if entity == RingEntity {
        AddRing(e.point);
        return;
      }
      if scene.route == null {
        return;
      }
      call := Some(AddPointCall(e.point, box));
    }

    /** handleEditPoint: pass a dragged dot's final position on with the
        model's current box. */
    method HandleEditPoint(pos: Vec3, id: int, box: Box3) returns (call: PointEditCall)
      ensures call.v == pos && call.id == id && call.box == box
    {
      call := PointEditCall(pos, box, id);
    }

    /** handlePointerMove: the helper dot follows the pointer over the model;
        when the last dot, the pivot and the connector all exist, the pivot
        moves to the midpoint between the helper dot and the last dot. */
    method HandlePointerMove(hit: Option<Vec3>)
      requires scene.Distinct()
      modifies scene.helperDot, scene.helperPivot
      ensures hit.Some? && scene.helperDot != null ==> scene.helperDot.position == hit.value
      ensures hit.None? || scene.helperDot == null ==> unchanged(Present(scene.helperDot), Present(scene.helperPivot))
      ensures scene.helperDot != null ==> scene.helperDot.visible == old(scene.helperDot.visible)
      ensures ConnectorReady(hit) ==>
        scene.helperPivot.position == Midpoint(hit.value, scene.lastDot.position) &&
        scene.helperPivot.visible == old(scene.helperPivot.visible)
      ensures !ConnectorReady(hit) ==> unchanged(Present(scene.helperPivot))
    {
      if hit.None? {
        return;
      }
      var helperDot := scene.helperDot;
      if helperDot == null {
        return;
      }
      helperDot.position := hit.value;
      var lastDot := scene.lastDot;
      if lastDot == null {
        return;
      }
      var helperPivot := scene.helperPivot;
      if helperPivot == null {
        return;
      }
      if scene.helperConnection == null {
        return;
      }
      helperPivot.position := Midpoint(helperDot.position, lastDot.position);
    }

    /** A move over the model can redraw the connector: every object it
        needs exists. */
    predicate ConnectorReady(hit: Option<Vec3>)
      reads this, scene
    {
      hit.Some? && scene.helperDot != null && scene.lastDot != null &&
      scene.helperPivot != null && scene.helperConnection != null
    }

    /** handlePointerOut: hide the helper dot, then the connector. */
    method HandlePointerOut()
      modifies scene.helperDot, scene.helperConnection
      ensures scene.helperDot != null ==>
        !scene.helperDot.visible &&
        (scene.helperConnection != null ==> !scene.helperConnection.visible)
      ensures scene.helperDot == null ==> unchanged(Present(scene.helperConnection))
      ensures scene.helperDot != null ==> scene.helperDot.position == old(scene.helperDot.position)
      ensures scene.helperConnection != null ==>
        scene.helperConnection.position == old(scene.helperConnection.position)
    {
      var helperDot := scene.helperDot;
      if helperDot == null {
        return;
      }
      helperDot.visible := false;
      var helperConnection := scene.helperConnection;
      if helperConnection == null {
        return;
      }
      helperConnection.visible := false;
    }

    /** handlePointerEnter: show the helper dot, then the connector. */
    method HandlePointerEnter()
      modifies scene.helperDot, scene.helperConnection
      ensures scene.helperDot != null ==>
        scene.helperDot.visible &&
        (scene.helperConnection != null ==> scene.helperConnection.visible)
      ensures scene.helperDot == null ==> unchanged(Present(scene.helperConnection))
      ensures scene.helperDot != null ==> scene.helperDot.position == old(scene.helperDot.position)
      ensures scene.helperConnection != null ==>
        scene.helperConnection.position == old(scene.helperConnection.position)
    {
      var helperDot := scene.helperDot;
      if helperDot == null {
        return;
      }
      helperDot.visible := true;
      var helperConnection := scene.helperConnection;
      if helperConnection == null {
        return;
      }
      helperConnection.visible := true;
    }

    /** The model mesh's event props: in "create" mode each event reaches its
        handler, in any other mode none is attached. The gesture state moves
        exactly as StepOf says; a leave hides the helper dot and the
        connector, an enter shows them, a move places the helper dot and the
        pivot, and the other events leave the helper objects alone. */
    method Dispatch(mode: Mode, entity: DotType, box: Box3, ev: Event) returns (call: Option<AddPointCall>)
      requires scene.Distinct()
      modifies this`press, this`suppressed, this`rings
      modifies scene.helperDot, scene.helperConnection, scene.helperPivot
      ensures var s := StepOf(old(State()), Input(mode, entity, old(scene.route) != null, box, ev));
        State() == s.next && call == (if s.outcome.PointAdded? then Some(s.outcome.call) else None)
      ensures mode != Create || ev.PointerDown? || ev.PointerUp? || ev.ContextMenu? ==>
        unchanged(Present(scene.helperDot), Present(scene.helperConnection), Present(scene.helperPivot))
      ensures mode == Create && ev.PointerLeave? && scene.helperDot != null ==>
        !scene.helperDot.visible && (scene.helperConnection != null ==> !scene.helperConnection.visible)
      ensures mode == Create && ev.PointerEnter? && scene.helperDot != null ==>
        scene.helperDot.visible && (scene.helperConnection != null ==> scene.helperConnection.visible)
      ensures mode == Create && (ev.PointerLeave? || ev.PointerEnter?) ==>
        unchanged(Present(scene.helperPivot)) &&
        (scene.helperDot == null ==> unchanged(Present(scene.helperConnection))) &&
        (scene.helperDot != null ==> scene.helperDot.position == old(scene.helperDot.position)) &&
        (scene.helperConnection != null ==> scene.helperConnection.position == old(scene.helperConnection.position))
      ensures mode == Create && ev.PointerMove? ==>
        unchanged(Present(scene.helperConnection)) &&
        (ev.hit.Some? && scene.helperDot != null ==> scene.helperDot.position == ev.hit.value) &&
        (ev.hit.None? || scene.helperDot == null ==> unchanged(Present(scene.helperDot))) &&
        (scene.helperDot != null ==> scene.helperDot.visible == old(scene.helperDot.visible)) &&
        (ConnectorReady(ev.hit) ==>
          scene.helperPivot.position == Midpoint(ev.hit.value, scene.lastDot.position) &&
          scene.helperPivot.visible == old(scene.helperPivot.visible)) &&
        (!ConnectorReady(ev.hit) ==> unchanged(Present(scene.helperPivot)))
    {
      call := None;
      if mode != Create {
        return;
      }
      match ev {
        case PointerDown(c) => HandlePointerDown(c);
        case PointerUp(e) => call := HandlePointerUp(e, entity, box);
        case ContextMenu => HandleContextMenu();
        case PointerMove(hit) => HandlePointerMove(hit);
        case PointerLeave => HandlePointerOut();
        case PointerEnter => HandlePointerEnter();
      }
    }
  }
}
