/** The editing state machine (src/BuildMode.js): the current tool, an
    optional first joint of a member under construction, and the rules by
    which clicks change the shared graph store.

    Each handler's effect is given by a function on `Editor`, a value view
    of the mode and its store; the methods of `BuildMode` are proved to
    change their objects exactly as those functions say, and the lemmas
    state what the source promises about them.  The picking of scene
    meshes is modelled on the store's joints: every joint mesh is added to
    the scene together with its joint and removed with it, so the meshes
    appear in the same order as `bridgeData.joints`. */
module Build {
  import opened Utils
  import opened Bridge

  /** `currentTool`: the tool names the toolbar sets; any other name falls
      through the dispatch in `onMouseDown`. */
  datatype Tool = NoTool | AddJoint | AddMemberBlue | AddMemberYellow | Delete | Other(name: string)

  const AnchorRadius: real := 1.0
  const JointRadius: real := 0.7
  const GridCellSize: real := 10.0
  const ViewReferenceHeight: real := 70.0
  const PickSensitivityFactor: real := 1.5
  const JointEpsilon: real := 0.001

  /** The two default anchors `initScene` seeds: a reference width of
      1.2 view heights, 40% of it, snapped to the grid. */
  function SeedAnchors(): seq<Point> {
    var anchorX := SnapToGrid(ViewReferenceHeight * 1.2 * 0.4, GridCellSize);
    [Point(-anchorX, 0.0), Point(anchorX, 0.0)]
  }

  lemma SeedAnchorsAt30()
    ensures SeedAnchors() == [Point(-30.0, 0.0), Point(30.0, 0.0)]
  {
    assert ViewReferenceHeight * 1.2 * 0.4 / GridCellSize == 3.36;
    assert Round(3.36) == 3;
  }

  // ----- picking -----

  function DistSq(j: Joint, p: Point): real {
    (p.x - j.x) * (p.x - j.x) + (p.y - j.y) * (p.y - j.y)
  }

  /** A joint can be picked when the click lies strictly inside its radius
      (1 for anchors, 0.7 otherwise) times the sensitivity factor. */
  predicate Eligible(j: Joint, p: Point) {
    var radius := if j.isAnchor then AnchorRadius else JointRadius;
    DistSq(j, p) < (radius * PickSensitivityFactor) * (radius * PickSensitivityFactor)
  }

  /** The index `pickObject`'s scan over the first `n` joints settles on:
      an eligible joint strictly closer than every one seen before. */
  function Nearest(js: seq<Joint>, p: Point, n: nat): (r: Option<nat>)
    requires n <= |js|
    ensures r.Some? ==> r.value < n && Eligible(js[r.value], p)
    ensures r.Some? ==> forall k :: 0 <= k < n && Eligible(js[k], p) ==> DistSq(js[r.value], p) <= DistSq(js[k], p)
    ensures r.Some? ==> forall k :: 0 <= k < r.value && Eligible(js[k], p) ==> DistSq(js[r.value], p) < DistSq(js[k], p)
    ensures r.None? <==> forall k :: 0 <= k < n ==> !Eligible(js[k], p)
  {
    if n == 0 then None
    else
      var prev := Nearest(js, p, n - 1);
      if Eligible(js[n - 1], p) && (prev.None? || DistSq(js[n - 1], p) < DistSq(js[prev.value], p))
      then Some(n - 1)
      else prev
  }

  /** `pickObject(p)`: the nearest eligible joint, the earliest on a tie,
      or nothing.  It never yields a member. */
  function PickJoint(js: seq<Joint>, p: Point): (r: Option<Joint>)
    ensures r.Some? ==> r.value in js && Eligible(r.value, p)
    ensures r.Some? ==> forall j :: j in js && Eligible(j, p) ==> DistSq(r.value, p) <= DistSq(j, p)
    ensures r.None? <==> forall j :: j in js ==> !Eligible(j, p)
  {
    match Nearest(js, p, |js|)
    case None => None
    case Some(i) => Some(js[i])
  }

  // ----- the editor as a value -----

  datatype Editor = Editor(
    tool: Tool,
    selected: Option<Id>,
    isActive: bool,
    joints: seq<Joint>,
    members: seq<Member>,
    anchorPoints: seq<Point>,
    next: nat)

  /** The store's invariant plus the one the editor maintains for it. */
  ghost predicate Wf(e: Editor) {
    IdsFromCounter(e.joints, e.members, e.next) && SimpleGraph(e.members) && EndpointsPresent(e.joints, e.members)
  }

  predicate Near(j: Joint, x: real, y: real) {
    Abs(j.x - x) < JointEpsilon && Abs(j.y - y) < JointEpsilon
  }

  predicate Occupied(js: seq<Joint>, x: real, y: real) {
    exists j :: j in js && Near(j, x, y)
  }

  /** `handleAddJoint(x, y)`. */
  function AddJointAt(e: Editor, x: real, y: real): Editor {
    if Occupied(e.joints, x, y) then e
    else e.(joints := e.joints + [Joint(e.next, x, y, false)], next := e.next + 1)
  }

  /** `bridgeData.addMember(a, b, material)`. */
  function TryAddMember(e: Editor, a: Id, b: Id, material: Material): Editor {
    if a == b || FindMember(e.members, a, b).Some? then e
    else e.(members := e.members + [Member(e.next, a, b, material)], next := e.next + 1)
  }

  /** `handleAddMemberClick(p, material)`: the two-click protocol. */
  function MemberClick(e: Editor, p: Point, material: Material): Editor {
    SelectOrJoin(e, PickJoint(e.joints, p), material)
  }

  /** The protocol once the click has been resolved to a joint or nothing. */
  function SelectOrJoin(e: Editor, picked: Option<Joint>, material: Material): Editor {
    match picked
    case None => e.(selected := None)
    case Some(clicked) =>
      if e.selected.None? then e.(selected := Some(clicked.id))
      else if e.selected.value == clicked.id then e
      else if GetJointById(e.joints, e.selected.value).None? || GetJointById(e.joints, clicked.id).None?
      then e.(selected := None)
      else TryAddMember(e, e.selected.value, clicked.id, material).(selected := None)
  }

  /** `bridgeData.removeJoint(id)`. */
  function RemoveJointFrom(e: Editor, id: Id): Editor {
    var found := GetJointById(e.joints, id);
    if found.None? || found.value.isAnchor then e
    else e.(joints := WithoutJoint(e.joints, id), members := Detach(e.members, id))
  }

  /** `handleDeleteClick(p)`: only joints can be picked, so the member
      branch of the source never runs. */
  function DeleteClick(e: Editor, p: Point): Editor {
    match PickJoint(e.joints, p)
    case None => e
    case Some(clicked) =>
      var found := GetJointById(e.joints, clicked.id);
      if found.Some? && found.value.isAnchor then e else RemoveJointFrom(e, clicked.id)
  }

  /** `onMouseDown`: `world` is what the camera unprojection returned. */
  function MouseDown(e: Editor, button: int, world: Option<Point>): Editor {
    if !e.isActive || button != 0 || world.None? then e
    else
      var p := world.value;
      match e.tool
      case AddJoint => AddJointAt(e, SnapToGrid(p.x, GridCellSize), SnapToGrid(p.y, GridCellSize))
      case AddMemberBlue => MemberClick(e, p, Blue)
      case AddMemberYellow => MemberClick(e, p, Yellow)
      case Delete => DeleteClick(e, p)
      case _ => e
  }

  function AnchorAt(j: Joint, p: Point): bool {
    j.x == p.x && j.y == p.y && j.isAnchor
  }

  predicate HasAnchorAt(js: seq<Joint>, p: Point) {
    exists j :: j in js && AnchorAt(j, p)
  }

  /** Positions `drawAnchorPoints` adds anchors at, scanning the anchor
      points in order: each one that has no anchor joint exactly there,
      neither before nor added by the scan itself. */
  function NewAnchors(js: seq<Joint>, aps: seq<Point>): seq<Point> {
    if aps == [] then []
    else
      var prev := NewAnchors(js, aps[..|aps| - 1]);
      var last := aps[|aps| - 1];
      if HasAnchorAt(js, last) || last in prev then prev else prev + [last]
  }

  /** The anchor joints created for `ps`, with consecutive ids from `n`. */
  function AnchorJoints(n: nat, ps: seq<Point>): (r: seq<Joint>)
    ensures |r| == |ps|
  {
    seq(|ps|, k requires 0 <= k < |ps| => Joint(n + k, ps[k].x, ps[k].y, true))
  }

  /** `drawAnchorPoints()`. */
  function DrawAnchors(e: Editor): Editor {
    var added := NewAnchors(e.joints, e.anchorPoints);
    e.(joints := e.joints + AnchorJoints(e.next, added), next := e.next + |added|)
  }

  /** `resetBridge()`. */
  function Reset(e: Editor): Editor {
    DrawAnchors(e.(joints := [], members := [])).(selected := None)
  }

  // ----- what the handlers promise -----

  /** A joint is added only where none lies within the epsilon in both
      coordinates, and then exactly one non-anchor joint at that point. */
  lemma AddJointAtSpec(e: Editor, x: real, y: real)
    ensures Occupied(e.joints, x, y) ==> AddJointAt(e, x, y) == e
    ensures !Occupied(e.joints, x, y) ==>
      AddJointAt(e, x, y).joints == e.joints + [Joint(e.next, x, y, false)] &&
      AddJointAt(e, x, y).members == e.members
  {
  }

  /** Clicking twice at the same place adds a single joint. */
  lemma AddJointAtIdempotent(e: Editor, x: real, y: real)
    ensures AddJointAt(AddJointAt(e, x, y), x, y) == AddJointAt(e, x, y)
  {
    var e1 := AddJointAt(e, x, y);
    if !Occupied(e.joints, x, y) {
      var j := Joint(e.next, x, y, false);
      assert j in e1.joints && Near(j, x, y);
    }
  }

  /** The add-joint tool only ever creates joints on the 10-unit grid. */
  lemma MouseDownJointsOnGrid(e: Editor, button: int, world: Option<Point>)
    requires e.tool == AddJoint
    ensures forall j :: j in MouseDown(e, button, world).joints && j !in e.joints ==>
      OnGrid(j.x, GridCellSize) && OnGrid(j.y, GridCellSize) && !j.isAnchor
  {
    if e.isActive && button == 0 && world.Some? {
      SnapOnGrid(world.value.x, GridCellSize);
      SnapOnGrid(world.value.y, GridCellSize);
    }
  }

  /** The first half of the two-click protocol. */
  lemma MemberClickFirstHalf(e: Editor, p: Point, material: Material)
    ensures PickJoint(e.joints, p).None? ==> MemberClick(e, p, material) == e.(selected := None)
    ensures PickJoint(e.joints, p).Some? && e.selected.None? ==>
      MemberClick(e, p, material) == e.(selected := Some(PickJoint(e.joints, p).value.id))
    ensures PickJoint(e.joints, p).Some? && e.selected == Some(PickJoint(e.joints, p).value.id) ==>
      MemberClick(e, p, material) == e
  {
  }

  /** The second click on a different joint: the selection is always
      cleared, and a member is added exactly when both joints exist and the
      pair is not yet joined. */
  lemma MemberClickSecondHalf(e: Editor, p: Point, material: Material)
    requires PickJoint(e.joints, p).Some? && e.selected.Some?
    requires e.selected.value != PickJoint(e.joints, p).value.id
    ensures MemberClick(e, p, material).selected.None?
    ensures MemberClick(e, p, material).joints == e.joints
    ensures var a, b := e.selected.value, PickJoint(e.joints, p).value.id;
            if a in JointIds(e.joints) && FindMember(e.members, a, b).None?
            then MemberClick(e, p, material).members == e.members + [Member(e.next, a, b, material)]
            else MemberClick(e, p, material).members == e.members
  {
    var clicked := PickJoint(e.joints, p).value;
    assert GetJointById(e.joints, clicked.id).Some? by {
      assert clicked.id in JointIds(e.joints);
    }
  }

  /** Delete: anchors are refused, any other picked joint goes together
      with its members, and a miss changes nothing. */
  lemma DeleteClickSpec(e: Editor, p: Point)
    requires Wf(e)
    ensures PickJoint(e.joints, p).None? ==> DeleteClick(e, p) == e
    ensures PickJoint(e.joints, p).Some? && PickJoint(e.joints, p).value.isAnchor ==> DeleteClick(e, p) == e
    ensures PickJoint(e.joints, p).Some? && !PickJoint(e.joints, p).value.isAnchor ==>
      var id := PickJoint(e.joints, p).value.id;
      DeleteClick(e, p).joints == WithoutJoint(e.joints, id) &&
      DeleteClick(e, p).members == Detach(e.members, id) &&
      id !in JointIds(DeleteClick(e, p).joints) &&
      forall m :: m in DeleteClick(e, p).members ==> !Touches(m, id)
  {
    var pick := PickJoint(e.joints, p);
    if pick.Some? {
      GetJointByIdUnique(e.joints, pick.value);
    }
  }

  /** No anchor joint is ever removed by a click. */
  lemma MouseDownKeepsAnchors(e: Editor, button: int, world: Option<Point>)
    requires Wf(e)
    ensures forall j :: j in e.joints && j.isAnchor ==> j in MouseDown(e, button, world).joints
  {
    if e.isActive && button == 0 && world.Some? && e.tool == Delete {
      var pick := PickJoint(e.joints, world.value);
      if pick.Some? {
        GetJointByIdUnique(e.joints, pick.value);
      }
    }
  }

  // ----- the invariant every handler keeps -----

  lemma TryAddMemberWf(e: Editor, a: Id, b: Id, material: Material)
    requires Wf(e)
    requires a in JointIds(e.joints) && b in JointIds(e.joints)
    ensures Wf(TryAddMember(e, a, b, material))
  {
    if a != b && FindMember(e.members, a, b).None? {
      var m := Member(e.next, a, b, material);
      AppendFreshId(e.members, m, MemberBefore);
      AppendDistinctPair(e.members, m);
      EndpointsPresentAddMember(e.joints, e.members, m);
    }
  }

  lemma RemoveJointFromWf(e: Editor, id: Id)
    requires Wf(e)
    ensures Wf(RemoveJointFrom(e, id))
  {
    FilterPairwise(e.joints, (j: Joint) => j.id != id, JointBefore);
    FilterPairwise(e.members, (m: Member) => !Touches(m, id), MemberBefore);
    FilterPairwise(e.members, (m: Member) => !Touches(m, id), DistinctPair);
    EndpointsPresentRemoveJoint(e.joints, e.members, id);
  }

  lemma AddJointAtWf(e: Editor, x: real, y: real)
    requires Wf(e)
    ensures Wf(AddJointAt(e, x, y))
  {
    if !Occupied(e.joints, x, y) {
      var j := Joint(e.next, x, y, false);
      AppendFreshId(e.joints, j, JointBefore);
      EndpointsPresentAddJoint(e.joints, e.members, j);
    }
  }

  lemma SelectOrJoinWf(e: Editor, picked: Option<Joint>, material: Material)
    requires Wf(e)
    ensures Wf(SelectOrJoin(e, picked, material))
  {
    if picked.Some? && e.selected.Some? && e.selected.value != picked.value.id {
      var a, b := e.selected.value, picked.value.id;
      if GetJointById(e.joints, a).Some? && GetJointById(e.joints, b).Some? {
        TryAddMemberWf(e, a, b, material);
      }
    }
  }

  /** Every click keeps ids unique, the graph simple and every member's
      endpoints present: the property the store itself does not check. */
  lemma MouseDownWf(e: Editor, button: int, world: Option<Point>)
    requires Wf(e)
    ensures Wf(MouseDown(e, button, world))
  {
    if e.isActive && button == 0 && world.Some? {
      var p := world.value;
      match e.tool
      case AddJoint => AddJointAtWf(e, SnapToGrid(p.x, GridCellSize), SnapToGrid(p.y, GridCellSize));
      case AddMemberBlue => SelectOrJoinWf(e, PickJoint(e.joints, p), Blue);
      case AddMemberYellow => SelectOrJoinWf(e, PickJoint(e.joints, p), Yellow);
      case Delete =>
        var pick := PickJoint(e.joints, p);
        if pick.Some? {
          RemoveJointFromWf(e, pick.value.id);
        }
      case _ =>
    }
  }

  // ----- anchors and reset -----

  lemma {:induction false} NewAnchorsSpec(js: seq<Joint>, aps: seq<Point>)
    ensures forall q :: q in NewAnchors(js, aps) ==> q in aps && !HasAnchorAt(js, q)
    ensures forall q :: q in aps ==> HasAnchorAt(js, q) || q in NewAnchors(js, aps)
    ensures forall a, b :: 0 <= a < b < |NewAnchors(js, aps)| ==> NewAnchors(js, aps)[a] != NewAnchors(js, aps)[b]
  {
    if aps != [] {
      var init := aps[..|aps| - 1];
      NewAnchorsSpec(js, init);
      assert aps == init + [aps[|aps| - 1]];
    }
  }

  /** With no anchors yet and distinct anchor points, one anchor is added
      per anchor point, in order. */
  lemma {:induction false} NewAnchorsAll(js: seq<Joint>, aps: seq<Point>)
    requires forall j :: j in js ==> !j.isAnchor
    requires forall a, b :: 0 <= a < b < |aps| ==> aps[a] != aps[b]
    ensures NewAnchors(js, aps) == aps
  {
    if aps != [] {
      var init := aps[..|aps| - 1];
      NewAnchorsAll(js, init);
      assert aps[|aps| - 1] !in init;
      assert init + [aps[|aps| - 1]] == aps;
    }
  }

  lemma AnchorJointsAt(n: nat, ps: seq<Point>, q: Point)
    ensures HasAnchorAt(AnchorJoints(n, ps), q) <==> q in ps
  {
    if q in ps {
      var k :| 0 <= k < |ps| && ps[k] == q;
      assert AnchorAt(AnchorJoints(n, ps)[k], q);
    }
  }

  /** `drawAnchorPoints` never places an anchor where an anchor joint
      already sits at exactly that position, and afterwards every anchor
      point has one. */
  lemma DrawAnchorsSpec(e: Editor)
    ensures DrawAnchors(e).members == e.members
    ensures forall q :: q in e.anchorPoints ==> HasAnchorAt(DrawAnchors(e).joints, q)
    ensures forall j :: j in DrawAnchors(e).joints && j !in e.joints ==>
      j.isAnchor && Point(j.x, j.y) in e.anchorPoints && !HasAnchorAt(e.joints, Point(j.x, j.y))
  {
    var added := NewAnchors(e.joints, e.anchorPoints);
    var aj := AnchorJoints(e.next, added);
    NewAnchorsSpec(e.joints, e.anchorPoints);
    forall q | q in e.anchorPoints ensures HasAnchorAt(DrawAnchors(e).joints, q) {
      if HasAnchorAt(e.joints, q) {
        var j :| j in e.joints && AnchorAt(j, q);
        assert j in DrawAnchors(e).joints;
      } else {
        AnchorJointsAt(e.next, added, q);
        var j :| j in aj && AnchorAt(j, q);
        assert j in DrawAnchors(e).joints;
      }
    }
    forall j | j in DrawAnchors(e).joints && j !in e.joints
      ensures j.isAnchor && Point(j.x, j.y) in e.anchorPoints && !HasAnchorAt(e.joints, Point(j.x, j.y))
    {
      assert j in aj;
      var k :| 0 <= k < |aj| && aj[k] == j;
      assert Point(j.x, j.y) == added[k];
    }
  }

  lemma DrawAnchorsWf(e: Editor)
    requires Wf(e)
    ensures Wf(DrawAnchors(e))
  {
    var aj := AnchorJoints(e.next, NewAnchors(e.joints, e.anchorPoints));
    var r := e.joints + aj;
    forall a, b | 0 <= a < b < |r| ensures JointBefore(r[a], r[b]) {
      if b >= |e.joints| && a < |e.joints| {
        assert r[a] in e.joints;
      }
    }
    EndpointsPresentMoreJoints(e.joints, aj, e.members);
  }

  /** After a reset there are no members, no selection, and exactly the
      anchor joints the level's anchor points call for: every joint is an
      anchor at one of the points and every point has one. */
  lemma ResetBridgeSpec(e: Editor)
    ensures Reset(e).members == [] && Reset(e).selected.None?
    ensures Reset(e).anchorPoints == e.anchorPoints
    ensures forall j :: j in Reset(e).joints ==> j.isAnchor && Point(j.x, j.y) in e.anchorPoints
    ensures forall q :: q in e.anchorPoints ==> HasAnchorAt(Reset(e).joints, q)
  {
    DrawAnchorsSpec(e.(joints := [], members := []));
  }

  /** With distinct anchor points a reset makes one anchor joint per point,
      in order, with consecutive fresh ids. */
  lemma ResetBridgeDistinct(e: Editor)
    requires forall a, b :: 0 <= a < b < |e.anchorPoints| ==> e.anchorPoints[a] != e.anchorPoints[b]
    ensures Reset(e).joints == AnchorJoints(e.next, e.anchorPoints)
  {
    NewAnchorsAll([], e.anchorPoints);
  }

  lemma ResetBridgeWf(e: Editor)
    ensures Wf(Reset(e))
  {
    DrawAnchorsWf(e.(joints := [], members := []));
  }

  // ----- the mode object -----

  class BuildMode {
    var currentTool: Tool
    /** `selectedJoint1ForMember`: the id of the first joint picked. */
    var selected: Option<Id>
    var isActive: bool
    const bridgeData: BridgeData
    /** Whether the constructor was given a render target to listen on. */
    const hasRenderTarget: bool

    function State(): Editor
      reads this, bridgeData, bridgeData.ids
    {
      Editor(currentTool, selected, isActive, bridgeData.joints, bridgeData.members,
             bridgeData.anchorPoints, bridgeData.ids.next)
    }

    ghost predicate Valid()
      reads this, bridgeData, bridgeData.ids
    {
      bridgeData.Valid() && Wf(State())
    }

    /** The constructor and `initScene`: the two seeded level anchors,
        each drawn as an anchor joint; no tool, no selection, inactive. */
    constructor (renderTarget: bool, ids: IdGenerator)
      ensures Valid() && fresh(bridgeData) && bridgeData.ids == ids
      ensures currentTool == NoTool && selected.None? && !isActive && hasRenderTarget == renderTarget
      ensures bridgeData.anchorPoints == SeedAnchors() && bridgeData.members == []
      ensures bridgeData.joints == AnchorJoints(old(ids.next), SeedAnchors())
      modifies ids
    {
      currentTool := NoTool;
      selected := None;
      isActive := false;
      hasRenderTarget := renderTarget;
      bridgeData := new BridgeData(ids);
      new;
      bridgeData.LoadLevelAnchors(SeedAnchors());
      DrawAnchorPoints();
      SeedAnchorsAt30();
      NewAnchorsAll([], SeedAnchors());
    }

    /** `activate`: starts listening when there is a render target. */
    method Activate()
      modifies this
      ensures isActive == (old(isActive) || hasRenderTarget)
      ensures currentTool == old(currentTool) && selected == old(selected)
    {
      if isActive {
        return;
      }
      if hasRenderTarget {
        isActive := true;
      }
    }

    method Deactivate()
      modifies this
      ensures !isActive
      ensures currentTool == old(currentTool) && selected == old(selected)
    {
      if !isActive {
        return;
      }
      isActive := false;
    }

    /** `setCurrentTool`: always discards a half-made member. */
    method SetCurrentTool(toolName: Tool)
      modifies this
      ensures currentTool == toolName && selected.None? && isActive == old(isActive)
    {
      currentTool := toolName;
      selected := None;
    }

    /** `pickObject`: the scan over the scene's joint meshes. */
    method PickObject(p: Point) returns (picked: Option<Joint>)
      ensures picked == PickJoint(bridgeData.joints, p)
    {
      var js := bridgeData.joints;
      var closest: Option<nat> := None;
      var minDistanceSq := 0.0;
      var i := 0;
      while i < |js|
        invariant 0 <= i <= |js|
        invariant closest == Nearest(js, p, i)
        invariant closest.Some? ==> minDistanceSq == DistSq(js[closest.value], p)
      {
        var distSq := DistSq(js[i], p);
        var radius := if js[i].isAnchor then AnchorRadius else JointRadius;
        var effective := (radius * PickSensitivityFactor) * (radius * PickSensitivityFactor);
        if distSq < effective && (closest.None? || distSq < minDistanceSq) {
          minDistanceSq := distSq;
          closest := Some(i);
        }
        i := i + 1;
      }
      picked := if closest.Some? then Some(js[closest.value]) else None;
    }

    method DrawAnchorPoints()
      requires Valid()
      modifies bridgeData, bridgeData.ids
      ensures Valid() && State() == DrawAnchors(old(State()))
    {
      ghost var e0 := State();
      var aps := bridgeData.anchorPoints;
      ghost var added: seq<Point> := [];
      var i := 0;
      while i < |aps|
        invariant 0 <= i <= |aps|
        invariant bridgeData.Valid()
        invariant added == NewAnchors(e0.joints, aps[..i])
        invariant bridgeData.joints == e0.joints + AnchorJoints(e0.next, added)
        invariant bridgeData.ids.next == e0.next + |added|
        invariant bridgeData.members == e0.members && bridgeData.anchorPoints == aps
      {
        DrawAnchorStep(e0.joints, e0.next, aps, i, added);
        var existing := FindAnchorAt(bridgeData.joints, aps[i]);
        if existing.None? {
          var j := bridgeData.AddJoint(aps[i].x, aps[i].y, true);
          added := added + [aps[i]];
        }
        i := i + 1;
      }
      assert aps[..i] == aps;
      DrawAnchorsWf(e0);
    }

    /** `resetBridge`. */
    method ResetBridge()
      requires Valid()
      modifies this, bridgeData, bridgeData.ids
      ensures Valid() && State() == Reset(old(State()))
    {
      bridgeData.ClearAll();
      DrawAnchorPoints();
      selected := None;
    }

    method HandleAddJoint(x: real, y: real)
      requires Valid()
      modifies bridgeData, bridgeData.ids
      ensures Valid() && State() == AddJointAt(old(State()), x, y)
    {
      AddJointAtWf(State(), x, y);
      var existing := FindNear(bridgeData.joints, x, y);
      if existing.Some? {
        return;
      }
      var j := bridgeData.AddJoint(x, y, false);
    }

    method HandleAddMemberClick(worldCoords: Point, materialKey: Material)
      requires Valid()
      modifies this, bridgeData, bridgeData.ids
      ensures Valid() && State() == MemberClick(old(State()), worldCoords, materialKey)
    {
      var clicked := PickObject(worldCoords);
      SelectOrJoinAt(clicked, materialKey);
    }

    /** The part of `handleAddMemberClick` after picking: `clicked` is the
        joint under the pointer. */
    method SelectOrJoinAt(clicked: Option<Joint>, materialKey: Material)
      requires Valid()
      modifies this, bridgeData, bridgeData.ids
      ensures Valid() && State() == SelectOrJoin(old(State()), clicked, materialKey)
    {
      ghost var e0 := State();
      SelectOrJoinWf(e0, clicked, materialKey);
      ghost var e1 := SelectOrJoin(e0, clicked, materialKey);
      if clicked.None? {
        selected := None;
        assert State() == e1;
        return;
      }
      if selected.None? {
        selected := Some(clicked.value.id);
        assert State() == e1;
        return;
      }
      var joint1 := selected.value;
      var joint2 := clicked.value.id;
      if joint1 == joint2 {
        return;
      }
      var j1Data := GetJointById(bridgeData.joints, joint1);
      var j2Data := GetJointById(bridgeData.joints, joint2);
      if j1Data.None? || j2Data.None? {
        selected := None;
        assert State() == e1;
        return;
      }
      assert e1 == TryAddMember(e0, joint1, joint2, materialKey).(selected := None);
      JoinSelected(joint1, joint2, materialKey);
    }

    /** The join at the end of `handleAddMemberClick`: the member is added
        (unless it is already there) and the selection cleared. */
    method JoinSelected(joint1: Id, joint2: Id, materialKey: Material)
      requires Valid() && joint1 in JointIds(bridgeData.joints) && joint2 in JointIds(bridgeData.joints)
      modifies this, bridgeData, bridgeData.ids
      ensures Valid() && State() == TryAddMember(old(State()), joint1, joint2, materialKey).(selected := None)
    {
      TryAddMemberWf(State(), joint1, joint2, materialKey);
      var memberData := bridgeData.AddMember(joint1, joint2, materialKey);
      selected := None;
    }

    method HandleDeleteClick(worldCoords: Point)
      requires Valid()
      modifies bridgeData
      ensures Valid() && State() == DeleteClick(old(State()), worldCoords)
    {
      ghost var e0 := State();
      var clicked := PickObject(worldCoords);
      if clicked.Some? {
        var id := clicked.value.id;
        var joint := GetJointById(bridgeData.joints, id);
        if joint.Some? && joint.value.isAnchor {
          return;
        }
        RemoveJointFromWf(e0, id);
        var ok := bridgeData.RemoveJoint(id);
      }
    }

    /** `onMouseDown`: `button` is the event's button and `worldCoords` the
        unprojected pointer position, absent when unprojection fails. */
    method OnMouseDown(button: int, worldCoords: Option<Point>)
      requires Valid()
      modifies this, bridgeData, bridgeData.ids
      ensures Valid() && State() == MouseDown(old(State()), button, worldCoords)
    {
      if !isActive || button != 0 {
        return;
      }
      if worldCoords.None? {
        return;
      }
      var p := worldCoords.value;
      var snappedX := SnapToGrid(p.x, GridCellSize);
      var snappedY := SnapToGrid(p.y, GridCellSize);
      match currentTool
      case AddJoint => HandleAddJoint(snappedX, snappedY);
      case AddMemberBlue => HandleAddMemberClick(p, Blue);
      case AddMemberYellow => HandleAddMemberClick(p, Yellow);
      case Delete => HandleDeleteClick(p);
      case _ =>
    }
  }

  /** One iteration of the scan in `drawAnchorPoints`. */
  lemma DrawAnchorStep(js: seq<Joint>, n: nat, aps: seq<Point>, i: nat, added: seq<Point>)
    requires i < |aps| && added == NewAnchors(js, aps[..i])
    ensures HasAnchorAt(js + AnchorJoints(n, added), aps[i]) <==> HasAnchorAt(js, aps[i]) || aps[i] in added
    ensures NewAnchors(js, aps[..i + 1]) ==
      if HasAnchorAt(js, aps[i]) || aps[i] in added then added else added + [aps[i]]
    ensures AnchorJoints(n, added + [aps[i]]) == AnchorJoints(n, added) + [Joint(n + |added|, aps[i].x, aps[i].y, true)]
  {
    assert aps[..i + 1][..i] == aps[..i];
    HasAnchorAtConcat(js, AnchorJoints(n, added), aps[i]);
    AnchorJointsAt(n, added, aps[i]);
  }

  lemma HasAnchorAtConcat(a: seq<Joint>, b: seq<Joint>, q: Point)
    ensures HasAnchorAt(a + b, q) <==> HasAnchorAt(a, q) || HasAnchorAt(b, q)
  {
    if HasAnchorAt(a + b, q) {
      var j :| j in a + b && AnchorAt(j, q);
      assert j in a || j in b;
    }
    if HasAnchorAt(a, q) {
      var j :| j in a && AnchorAt(j, q);
      assert j in a + b;
    }
    if HasAnchorAt(b, q) {
      var j :| j in b && AnchorAt(j, q);
      assert j in a + b;
    }
  }

  /** The `find` in `drawAnchorPoints`: an anchor joint exactly at `p`. */
  function FindAnchorAt(js: seq<Joint>, p: Point): (r: Option<Joint>)
    ensures r.Some? ==> r.value in js && AnchorAt(r.value, p)
    ensures r.None? <==> !HasAnchorAt(js, p)
  {
    if js == [] then None
    else if AnchorAt(js[0], p) then Some(js[0])
    else FindAnchorAt(js[1..], p)
  }

  /** The `find` in `handleAddJoint`: a joint within the epsilon of (x, y). */
  function FindNear(js: seq<Joint>, x: real, y: real): (r: Option<Joint>)
    ensures r.Some? ==> r.value in js && Near(r.value, x, y)
    ensures r.None? <==> !Occupied(js, x, y)
  {
    if js == [] then None
    else if Near(js[0], x, y) then Some(js[0])
    else FindNear(js[1..], x, y)
  }
}
