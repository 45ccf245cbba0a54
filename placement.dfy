/** The coordinate math of `buildBridge3D` (src/SimulationMode.js): how the
    2D joints of the editor are laid out in the 3D scene, and which shapes
    each member is drawn as.

    The layout maps a joint's x onto the bridge's length (the scene's z
    axis), its y onto a height above the map, and doubles it onto two x
    planes, one per side of the bridge.  The map's box (its centre and top)
    is a parameter, as are the joints, members and anchor points the
    layout is computed from. */
module Placement {
  import opened Utils
  import opened Bridge

  const PlaneLeft: real := -0.35
  const PlaneRight: real := 0.6
  const DefaultZStart: real := -1.3
  const DefaultZEnd: real := 1.0
  /** `BUILD_MODE_Y_TO_3D_HEIGHT_SCALE`. */
  const HeightScale: real := 0.03
  /** `BRIDGE_PLACEMENT_OFFSET_Y_ON_MAP`. */
  const BaseOffsetY: real := -0.87
  /** The tolerance under which a span or a plane distance counts as zero. */
  const Slack: real := 0.001

  datatype Vec3 = Vec3(x: real, y: real, z: real)

  /** The x planes the two sides of the bridge are drawn in. */
  datatype Planes = Planes(left: real, right: real)

  const WidthPlanes: Planes := Planes(PlaneLeft, PlaneRight)

  /** The map's box: its centre in x and z, and its top. */
  datatype Frame = Frame(centerX: real, centerZ: real, topY: real)

  /** The stretch of z the bridge's length is mapped onto. */
  datatype Span = Span(start: real, end: real)

  /** `calculatedBridgeExtents`: the box the car is later placed in. */
  datatype Extents = Extents(minX: real, maxX: real, minZ: real, maxZ: real)

  /** The 3D positions of one joint, one per side. */
  datatype JointPos = JointPos(left: Vec3, right: Vec3)

  datatype Side = LeftSide | RightSide

  /** A tube between two joint positions (a column), or the quadrilateral
      of a deck member spanning both sides. */
  datatype Shape =
    | Column(member: Id, side: Side, from: Vec3, to: Vec3)
    | Deck(member: Id, a: Vec3, b: Vec3, c: Vec3, d: Vec3)

  datatype Layout = Layout(
    positions: map<Id, JointPos>,
    shapes: seq<Shape>,
    extents: Extents,
    baseY: real,
    referenceY: real)

  // ----- aggregates over the inputs -----

  function JointXs(js: seq<Joint>): (xs: seq<real>)
    ensures |xs| == |js| && forall k :: 0 <= k < |js| ==> xs[k] == js[k].x
  {
    seq(|js|, k requires 0 <= k < |js| => js[k].x)
  }

  datatype Axis = X | Y

  function Coord(p: Point, axis: Axis): real {
    if axis == X then p.x else p.y
  }

  /** The anchor points' coordinates along one axis. */
  function Along(ps: seq<Point>, axis: Axis): (cs: seq<real>)
    ensures |cs| == |ps| && forall k :: 0 <= k < |ps| ==> cs[k] == Coord(ps[k], axis)
  {
    seq(|ps|, k requires 0 <= k < |ps| => Coord(ps[k], axis))
  }

  /** The running `Math.min` from +infinity over a non-empty list. */
  function MinOf(xs: seq<real>): (r: real)
    requires |xs| > 0
    ensures r in xs && forall k :: 0 <= k < |xs| ==> r <= xs[k]
  {
    if |xs| == 1 then xs[0] else Min(MinOf(xs[..|xs| - 1]), xs[|xs| - 1])
  }

  /** The running `Math.max` from -infinity over a non-empty list. */
  function MaxOf(xs: seq<real>): (r: real)
    requires |xs| > 0
    ensures r in xs && forall k :: 0 <= k < |xs| ==> xs[k] <= r
  {
    if |xs| == 1 then xs[0] else Max(MaxOf(xs[..|xs| - 1]), xs[|xs| - 1])
  }

  function Sum(xs: seq<real>): real {
    if xs == [] then 0.0 else Sum(xs[..|xs| - 1]) + xs[|xs| - 1]
  }

  /** The anchors' x range when there are anchors, the default span otherwise. */
  function LengthSpan(anchors: seq<Point>): (s: Span)
    ensures |anchors| == 0 ==> s == Span(DefaultZStart, DefaultZEnd)
    ensures |anchors| > 0 ==> (s.start <= s.end &&
      (forall k :: 0 <= k < |anchors| ==> s.start <= anchors[k].x <= s.end) &&
      s.start in Along(anchors, X) && s.end in Along(anchors, X))
  {
    if |anchors| > 0 then Span(MinOf(Along(anchors, X)), MaxOf(Along(anchors, X)))
    else Span(DefaultZStart, DefaultZEnd)
  }

  /** `referenceAnchorBuildModeY_`: the anchors' mean y, or 0 without anchors. */
  function ReferenceY(anchors: seq<Point>): real {
    if |anchors| > 0 then Sum(Along(anchors, Y)) / (|anchors| as real) else 0.0
  }

  // ----- per-joint coordinates -----

  /** `canScaleBuildModeXToSimZ`: both the target span and the joints' x
      range exceed the tolerance. */
  predicate CanScale(span: Span, lo: real, hi: real) {
    span.end - span.start > Slack && hi - lo > Slack
  }

  /** A joint's z relative to the bridge: the joints' x range `[lo, hi]`
      stretched onto the span when it can be, shifted to its start otherwise. */
  function LocalZ(x: real, lo: real, hi: real, span: Span): real {
    if CanScale(span, lo, hi) then span.start + ((x - lo) / (hi - lo)) * (span.end - span.start)
    else span.start + (x - lo)
  }

  /** A joint's height: the map top lowered by the placement offset plus its
      height above the anchors, scaled down. */
  function JointHeight(y: real, referenceY: real, baseY: real): real {
    baseY + (y - referenceY) * HeightScale
  }

  function PlacedJoint(j: Joint, lo: real, hi: real, span: Span, referenceY: real,
                       baseY: real, planes: Planes, frame: Frame): JointPos
  {
    var z := frame.centerZ + LocalZ(j.x, lo, hi, span);
    var y := JointHeight(j.y, referenceY, baseY);
    var left := Vec3(frame.centerX + planes.left, y, z);
    var right := if Abs(planes.left - planes.right) > Slack then Vec3(frame.centerX + planes.right, y, z) else left;
    JointPos(left, right)
  }

  /** `jointWorldPositions`, filled joint by joint: a later joint with the
      same id overwrites an earlier one. */
  function Positions(js: seq<Joint>, lo: real, hi: real, span: Span, referenceY: real,
                     baseY: real, planes: Planes, frame: Frame): (pos: map<Id, JointPos>)
    ensures pos.Keys == JointIds(js)
  {
    if js == [] then map[]
    else
      var last := js[|js| - 1];
      assert JointIds(js) == JointIds(js[..|js| - 1]) + {last.id} by {
        assert js == js[..|js| - 1] + [last];
      }
      Positions(js[..|js| - 1], lo, hi, span, referenceY, baseY, planes, frame)[
        last.id := PlacedJoint(last, lo, hi, span, referenceY, baseY, planes, frame)]
  }

  // ----- member shapes -----

  function LeftOf(pos: map<Id, JointPos>, id: Id): Option<Vec3> {
    if id in pos then Some(pos[id].left) else None
  }

  function RightOf(pos: map<Id, JointPos>, id: Id): Option<Vec3> {
    if id in pos then Some(pos[id].right) else None
  }

  /** `createTubeMember`: nothing unless both ends exist and differ. */
  function Tube(member: Id, side: Side, p1: Option<Vec3>, p2: Option<Vec3>): seq<Shape> {
    if p1.Some? && p2.Some? && p1.value != p2.value then [Column(member, side, p1.value, p2.value)] else []
  }

  predicate SidesApart(planes: Planes) {
    Abs(planes.left - planes.right) > Slack
  }

  /** The column branch: a tube on the left side and, when the sides are
      apart, one on the right. */
  function ColumnShapes(m: Member, pos: map<Id, JointPos>, planes: Planes): seq<Shape> {
    Tube(m.id, LeftSide, LeftOf(pos, m.joint1), LeftOf(pos, m.joint2)) +
    (if SidesApart(planes) then Tube(m.id, RightSide, RightOf(pos, m.joint1), RightOf(pos, m.joint2)) else [])
  }

  /** The deck branch: one quadrilateral when both ends are placed and the
      sides are apart, nothing otherwise. */
  function DeckShapes(m: Member, pos: map<Id, JointPos>, planes: Planes): seq<Shape> {
    if m.joint1 in pos && m.joint2 in pos && SidesApart(planes) then
      [Deck(m.id, pos[m.joint1].left, pos[m.joint2].left, pos[m.joint2].right, pos[m.joint1].right)]
    else []
  }

  /** The `materialKey` property of a snapshot element: the snapshot's
      elements carry `materialType` and no `materialKey`. */
  function MaterialKey(m: Member): Option<string> {
    None
  }

  /** The branch as written: it tests `materialKey`, which no element has. */
  function MemberShapesAsWritten(m: Member, pos: map<Id, JointPos>, planes: Planes): seq<Shape> {
    if MaterialKey(m) == Some("yellow") then ColumnShapes(m, pos, planes) else DeckShapes(m, pos, planes)
  }

  /** The branch as intended: yellow members are columns, the rest decks. */
  function MemberShapes(m: Member, pos: map<Id, JointPos>, planes: Planes): seq<Shape> {
    if m.materialType == Yellow then ColumnShapes(m, pos, planes) else DeckShapes(m, pos, planes)
  }

  function AllShapes(es: seq<Member>, pos: map<Id, JointPos>, planes: Planes): seq<Shape> {
    if es == [] then [] else AllShapes(es[..|es| - 1], pos, planes) + MemberShapes(es[|es| - 1], pos, planes)
  }

  function AllShapesAsWritten(es: seq<Member>, pos: map<Id, JointPos>, planes: Planes): seq<Shape> {
    if es == [] then [] else AllShapesAsWritten(es[..|es| - 1], pos, planes) + MemberShapesAsWritten(es[|es| - 1], pos, planes)
  }

  // ----- the whole layout -----

  /** `buildBridge3D` on the snapshot's joints and members: nothing when
      there are no joints. */
  function Bridge3D(joints: seq<Joint>, elements: seq<Member>, anchors: seq<Point>,
                    planes: Planes, frame: Frame): (r: Option<Layout>)
    ensures r.Some? <==> |joints| > 0
    ensures r.Some? ==> r.value.positions.Keys == JointIds(joints)
  {
    if |joints| == 0 then None
    else
      var span := LengthSpan(anchors);
      var lo, hi := MinOf(JointXs(joints)), MaxOf(JointXs(joints));
      var baseY := frame.topY + BaseOffsetY;
      var referenceY := ReferenceY(anchors);
      var pos := Positions(joints, lo, hi, span, referenceY, baseY, planes, frame);
      Some(Layout(
        pos,
        AllShapes(elements, pos, planes),
        Extents(frame.centerX + planes.left, frame.centerX + planes.right,
                frame.centerZ + span.start, frame.centerZ + span.end),
        baseY,
        referenceY))
  }

  // ----- what the layout promises -----

  lemma ScaledFraction(x: real, lo: real, hi: real)
    requires lo <= x <= hi && hi - lo > 0.0
    ensures 0.0 <= (x - lo) / (hi - lo) <= 1.0
  {
    var d := hi - lo;
    var t := (x - lo) / d;
    assert t * d == x - lo;
    if t > 1.0 {
      MulPositive(t - 1.0, d);
      assert (t - 1.0) * d == t * d - d;
    }
  }

  lemma MulPositive(a: real, b: real)
    requires a > 0.0 && b > 0.0
    ensures a * b > 0.0
  {
  }

  lemma MulMonotone(a: real, b: real, c: real)
    requires a <= b && c > 0.0
    ensures a * c <= b * c
  {
    if a < b {
      assert (b - a) * c > 0.0;
    }
  }

  /** When the layout can scale, the joints' x range is stretched exactly
      onto the span: the leftmost joint lands at its start, the rightmost at
      its end, every joint in between, and the order of joints is kept. */
  lemma ScaledLengthFits(x: real, x2: real, lo: real, hi: real, span: Span)
    requires CanScale(span, lo, hi) && lo <= x <= hi && lo <= x2 <= hi
    ensures LocalZ(lo, lo, hi, span) == span.start && LocalZ(hi, lo, hi, span) == span.end
    ensures span.start <= LocalZ(x, lo, hi, span) <= span.end
    ensures x <= x2 ==> LocalZ(x, lo, hi, span) <= LocalZ(x2, lo, hi, span)
  {
    ScaledEnds(lo, hi, span);
    ScaledWithin(x, lo, hi, span);
    if x <= x2 {
      ScaledMonotone(x, x2, lo, hi, span);
    }
  }

  lemma ScaledEnds(lo: real, hi: real, span: Span)
    requires CanScale(span, lo, hi)
    ensures LocalZ(lo, lo, hi, span) == span.start && LocalZ(hi, lo, hi, span) == span.end
  {
    var d, s := hi - lo, span.end - span.start;
    assert (lo - lo) / d == 0.0;
    assert (hi - lo) / d == 1.0;
    assert LocalZ(hi, lo, hi, span) == span.start + 1.0 * s;
  }

  lemma ScaledWithin(x: real, lo: real, hi: real, span: Span)
    requires CanScale(span, lo, hi) && lo <= x <= hi
    ensures span.start <= LocalZ(x, lo, hi, span) <= span.end
  {
    var d, s := hi - lo, span.end - span.start;
    var t := (x - lo) / d;
    ScaledFraction(x, lo, hi);
    MulMonotone(0.0, t, s);
    MulMonotone(t, 1.0, s);
    assert LocalZ(x, lo, hi, span) == span.start + t * s;
  }

  lemma ScaledMonotone(x: real, x2: real, lo: real, hi: real, span: Span)
    requires CanScale(span, lo, hi) && x <= x2
    ensures LocalZ(x, lo, hi, span) <= LocalZ(x2, lo, hi, span)
  {
    var d, s := hi - lo, span.end - span.start;
    var t, t2 := (x - lo) / d, (x2 - lo) / d;
    assert t2 - t == (x2 - x) / d;
    MulMonotone(t, t2, s);
    assert LocalZ(x, lo, hi, span) == span.start + t * s;
    assert LocalZ(x2, lo, hi, span) == span.start + t2 * s;
  }

  /** Otherwise the joints are only shifted: distances along the bridge are
      the editor's distances. */
  lemma UnscaledLengthShifts(x1: real, x2: real, lo: real, hi: real, span: Span)
    requires !CanScale(span, lo, hi)
    ensures LocalZ(x1, lo, hi, span) - LocalZ(x2, lo, hi, span) == x1 - x2
    ensures LocalZ(lo, lo, hi, span) == span.start
  {
  }

  /** Heights keep the editor's vertical order, and a joint level with the
      anchors' mean sits exactly at the base height. */
  lemma HeightsKeepOrder(y1: real, y2: real, referenceY: real, baseY: real)
    ensures y1 < y2 ==> JointHeight(y1, referenceY, baseY) < JointHeight(y2, referenceY, baseY)
    ensures JointHeight(referenceY, referenceY, baseY) == baseY
    ensures JointHeight(y1, referenceY, baseY) - JointHeight(y2, referenceY, baseY) == (y1 - y2) * HeightScale
  {
  }

  /** A joint's two positions coincide exactly when the planes are within the
      tolerance of each other; otherwise they differ only in x. */
  lemma SidesCoincide(j: Joint, lo: real, hi: real, span: Span, referenceY: real,
                      baseY: real, planes: Planes, frame: Frame)
    ensures var p := PlacedJoint(j, lo, hi, span, referenceY, baseY, planes, frame);
      (p.left == p.right <==> Abs(planes.left - planes.right) <= Slack) &&
      p.left.y == p.right.y && p.left.z == p.right.z &&
      p.left.x == frame.centerX + planes.left
  {
  }

  /** With the shipped planes the two sides are 0.95 apart. */
  lemma ShippedSidesApart()
    ensures SidesApart(WidthPlanes) && WidthPlanes.right - WidthPlanes.left == 0.95
  {
  }

  lemma {:induction false} PositionsOfJoint(js: seq<Joint>, j: Joint, lo: real, hi: real, span: Span,
                                            referenceY: real, baseY: real, planes: Planes, frame: Frame)
    requires Pairwise(js, JointBefore) && j in js
    ensures j.id in Positions(js, lo, hi, span, referenceY, baseY, planes, frame)
    ensures Positions(js, lo, hi, span, referenceY, baseY, planes, frame)[j.id] ==
            PlacedJoint(j, lo, hi, span, referenceY, baseY, planes, frame)
  {
    var last := js[|js| - 1];
    var init := js[..|js| - 1];
    if j != last {
      assert j in init by {
        assert js == init + [last];
      }
      assert Pairwise(init, JointBefore);
      PositionsOfJoint(init, j, lo, hi, span, referenceY, baseY, planes, frame);
      var k :| 0 <= k < |init| && init[k] == j;
      assert JointBefore(js[k], js[|js| - 1]);
    }
  }

  /** Every joint of a store with distinct ids is laid out at exactly its
      own position; with scaling, all of them lie inside the extents' z
      range. */
  lemma Bridge3DPlacesJoints(joints: seq<Joint>, elements: seq<Member>, anchors: seq<Point>,
                             planes: Planes, frame: Frame, j: Joint)
    requires Pairwise(joints, JointBefore) && j in joints
    ensures var r := Bridge3D(joints, elements, anchors, planes, frame);
      r.Some? && j.id in r.value.positions &&
      r.value.positions[j.id].left.x == r.value.extents.minX &&
      r.value.positions[j.id].left.y == JointHeight(j.y, r.value.referenceY, r.value.baseY) &&
      (CanScale(LengthSpan(anchors), MinOf(JointXs(joints)), MaxOf(JointXs(joints))) ==>
        r.value.extents.minZ <= r.value.positions[j.id].left.z <= r.value.extents.maxZ)
  {
    var span := LengthSpan(anchors);
    var lo, hi := MinOf(JointXs(joints)), MaxOf(JointXs(joints));
    var baseY := frame.topY + BaseOffsetY;
    var referenceY := ReferenceY(anchors);
    var pos := Positions(joints, lo, hi, span, referenceY, baseY, planes, frame);
    var r := Bridge3D(joints, elements, anchors, planes, frame);
    assert r.value.positions == pos && r.value.baseY == baseY && r.value.referenceY == referenceY;
    assert r.value.extents == Extents(frame.centerX + planes.left, frame.centerX + planes.right,
                                      frame.centerZ + span.start, frame.centerZ + span.end);
    PositionsOfJoint(joints, j, lo, hi, span, referenceY, baseY, planes, frame);
    var p := PlacedJoint(j, lo, hi, span, referenceY, baseY, planes, frame);
    assert pos[j.id] == p;
    assert p.left.z == frame.centerZ + LocalZ(j.x, lo, hi, span);
    if CanScale(span, lo, hi) {
      var k :| 0 <= k < |joints| && joints[k] == j;
      assert JointXs(joints)[k] == j.x;
      ScaledWithin(j.x, lo, hi, span);
    }
  }

  /** Without anchor points the layout uses the default length span and
      measures heights from y = 0. */
  lemma Bridge3DWithoutAnchors(joints: seq<Joint>, elements: seq<Member>, planes: Planes, frame: Frame)
    requires |joints| > 0
    ensures var r := Bridge3D(joints, elements, [], planes, frame);
      r.Some? && r.value.referenceY == 0.0 &&
      r.value.extents.minZ == frame.centerZ + DefaultZStart &&
      r.value.extents.maxZ == frame.centerZ + DefaultZEnd
  {
  }

  /** A member between two placed joints: a yellow one becomes a column on
      each side whose ends differ, any other one deck quadrilateral when
      the sides are apart. */
  lemma MemberShapesSpec(m: Member, pos: map<Id, JointPos>, planes: Planes)
    requires m.joint1 in pos && m.joint2 in pos
    ensures m.materialType == Yellow ==>
      (forall s :: s in MemberShapes(m, pos, planes) ==> s.Column? && s.member == m.id) &&
      (pos[m.joint1].left != pos[m.joint2].left <==>
         Column(m.id, LeftSide, pos[m.joint1].left, pos[m.joint2].left) in MemberShapes(m, pos, planes)) &&
      (SidesApart(planes) && pos[m.joint1].right != pos[m.joint2].right <==>
         Column(m.id, RightSide, pos[m.joint1].right, pos[m.joint2].right) in MemberShapes(m, pos, planes)) &&
      (!SidesApart(planes) ==> forall s :: s in MemberShapes(m, pos, planes) ==> s.side == LeftSide)
    ensures m.materialType != Yellow ==>
      MemberShapes(m, pos, planes) ==
        (if SidesApart(planes)
         then [Deck(m.id, pos[m.joint1].left, pos[m.joint2].left, pos[m.joint2].right, pos[m.joint1].right)]
         else [])
  {
  }

  /** A member with an endpoint that has no position is not drawn. */
  lemma MissingEndpointNotDrawn(m: Member, pos: map<Id, JointPos>, planes: Planes)
    requires m.joint1 !in pos || m.joint2 !in pos
    ensures MemberShapes(m, pos, planes) == [] && MemberShapesAsWritten(m, pos, planes) == []
  {
  }

  /** As written, no member is ever drawn as a column. */
  lemma {:induction false} AsWrittenOnlyDecks(es: seq<Member>, pos: map<Id, JointPos>, planes: Planes)
    ensures forall s :: s in AllShapesAsWritten(es, pos, planes) ==> s.Deck?
  {
    if es != [] {
      AsWrittenOnlyDecks(es[..|es| - 1], pos, planes);
    }
  }

  /** A yellow member between two joints at different places: drawn as a
      deck as written, as columns as intended. */
  lemma YellowMemberDrawnAsDeck()
    ensures var m := Member(2, 0, 1, Yellow);
      var pos := map[0 := JointPos(Vec3(0.0, 0.0, 0.0), Vec3(1.0, 0.0, 0.0)),
                     1 := JointPos(Vec3(0.0, 1.0, 0.0), Vec3(1.0, 1.0, 0.0))];
      MemberShapesAsWritten(m, pos, WidthPlanes)[0].Deck? &&
      MemberShapes(m, pos, WidthPlanes) ==
        [Column(2, LeftSide, Vec3(0.0, 0.0, 0.0), Vec3(0.0, 1.0, 0.0)),
         Column(2, RightSide, Vec3(1.0, 0.0, 0.0), Vec3(1.0, 1.0, 0.0))]
  {
  }
}
