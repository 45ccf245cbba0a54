/** The editor's graph store (src/BridgeData.js): joints, members and the
    level's anchor positions.

    The store itself only refuses self-loops, duplicate pairs and anchor
    removal; it never checks that a member's endpoints exist.  That
    property, `EndpointsPresent`, holds because every caller checks first
    and `RemoveJoint` cascades; the lemmas at the end of this module show
    that each operation preserves it under the caller's check. */
module Bridge {
  import opened Utils

  /** The material key the editor passes (`'blue'`, `'yellow'`), or the
      store's default `'wood'`. */
  datatype Material = Wood | Blue | Yellow

  datatype Point = Point(x: real, y: real)

  datatype Joint = Joint(id: Id, x: real, y: real, isAnchor: bool)

  datatype Member = Member(id: Id, joint1: Id, joint2: Id, materialType: Material)

  /** What `getBridgeDataForSimulation` hands to the simulation: members
      are called elements there. */
  datatype SimData = SimData(joints: seq<Joint>, elements: seq<Member>)

  // ----- sequences filtered the way Array.prototype.filter does -----

  function Filter<T(!new)>(s: seq<T>, keep: T -> bool): (r: seq<T>)
    ensures |r| <= |s|
    ensures forall x :: x in r <==> x in s && keep(x)
  {
    if s == [] then [] else (if keep(s[0]) then [s[0]] else []) + Filter(s[1..], keep)
  }

  /** Filtering keeps the survivors in their original order: it commutes
      with concatenation. */
  lemma {:induction false} FilterConcat<T(!new)>(a: seq<T>, b: seq<T>, keep: T -> bool)
    ensures Filter(a + b, keep) == Filter(a, keep) + Filter(b, keep)
  {
    if a == [] {
      assert a + b == b;
    } else {
      assert (a + b)[1..] == a[1..] + b;
      FilterConcat(a[1..], b, keep);
    }
  }

  /** Filtering with nothing to drop is the identity. */
  lemma {:induction false} FilterKeepsAll<T(!new)>(s: seq<T>, keep: T -> bool)
    requires forall x :: x in s ==> keep(x)
    ensures Filter(s, keep) == s
  {
    if s != [] {
      FilterKeepsAll(s[1..], keep);
    }
  }

  ghost predicate Pairwise<T>(s: seq<T>, rel: (T, T) -> bool) {
    forall i, j :: 0 <= i < j < |s| ==> rel(s[i], s[j])
  }

  /** A relation that holds between every earlier and later element still
      holds after filtering. */
  lemma {:induction false} FilterPairwise<T(!new)>(s: seq<T>, keep: T -> bool, rel: (T, T) -> bool)
    requires Pairwise(s, rel)
    ensures Pairwise(Filter(s, keep), rel)
  {
    if s != [] {
      var tail := Filter(s[1..], keep);
      assert Pairwise(s[1..], rel) by {
        forall i, j | 0 <= i < j < |s[1..]| ensures rel(s[1..][i], s[1..][j]) {
          assert rel(s[i + 1], s[j + 1]);
        }
      }
      FilterPairwise(s[1..], keep, rel);
      if keep(s[0]) {
        var r := [s[0]] + tail;
        forall i, j | 0 <= i < j < |r| ensures rel(r[i], r[j]) {
          if i == 0 {
            assert r[j] in s[1..];
            var k :| 0 <= k < |s[1..]| && s[1..][k] == r[j];
            assert rel(s[0], s[k + 1]);
          } else {
            assert r[i] == tail[i - 1] && r[j] == tail[j - 1];
          }
        }
      }
    }
  }

  // ----- queries (pure, read-only in the source) -----

  /** `m` joins `a` and `b`, in either order. */
  predicate Joins(m: Member, a: Id, b: Id) {
    (m.joint1 == a && m.joint2 == b) || (m.joint1 == b && m.joint2 == a)
  }

  predicate Touches(m: Member, id: Id) {
    m.joint1 == id || m.joint2 == id
  }

  /** `findMember(a, b)`: a member joining `a` and `b` in either order. */
  function FindMember(ms: seq<Member>, a: Id, b: Id): (r: Option<Member>)
    ensures r.Some? ==> r.value in ms && Joins(r.value, a, b)
    ensures r.None? <==> forall m :: m in ms ==> !Joins(m, a, b)
  {
    if ms == [] then None
    else if Joins(ms[0], a, b) then Some(ms[0])
    else FindMember(ms[1..], a, b)
  }

  /** The lookup is unordered: asking for (a, b) and for (b, a) gives the
      same member. */
  lemma {:induction false} FindMemberSymmetric(ms: seq<Member>, a: Id, b: Id)
    ensures FindMember(ms, a, b) == FindMember(ms, b, a)
  {
    if ms != [] {
      assert Joins(ms[0], a, b) == Joins(ms[0], b, a);
      FindMemberSymmetric(ms[1..], a, b);
    }
  }

  /** `getJointById(id)`: a joint with that id (the first one, which
      `GetJointByIdUnique` shows is the only one in a valid store). */
  function GetJointById(js: seq<Joint>, id: Id): (r: Option<Joint>)
    ensures r.Some? ==> r.value in js && r.value.id == id
    ensures r.None? <==> id !in JointIds(js)
  {
    if js == [] then None
    else if js[0].id == id then Some(js[0])
    else GetJointById(js[1..], id)
  }

  /** `getMemberById(id)`: a member with that id. */
  function GetMemberById(ms: seq<Member>, id: Id): (r: Option<Member>)
    ensures r.Some? ==> r.value in ms && r.value.id == id
    ensures r.None? <==> forall m :: m in ms ==> m.id != id
  {
    if ms == [] then None
    else if ms[0].id == id then Some(ms[0])
    else GetMemberById(ms[1..], id)
  }

  function JointIds(js: seq<Joint>): set<Id> {
    set j | j in js :: j.id
  }

  /** Joints left by `removeJoint(id)`'s filter. */
  function WithoutJoint(js: seq<Joint>, id: Id): (r: seq<Joint>)
    ensures forall j :: j in r <==> j in js && j.id != id
    ensures JointIds(r) == JointIds(js) - {id}
  {
    Filter(js, (j: Joint) => j.id != id)
  }

  /** Members left by `removeJoint(id)`'s cascade: those not touching `id`. */
  function Detach(ms: seq<Member>, id: Id): (r: seq<Member>)
    ensures forall m :: m in r <==> m in ms && !Touches(m, id)
  {
    Filter(ms, (m: Member) => !Touches(m, id))
  }

  /** Members left by `removeMember(id)`'s filter. */
  function WithoutMember(ms: seq<Member>, id: Id): (r: seq<Member>)
    ensures forall m :: m in r <==> m in ms && m.id != id
  {
    Filter(ms, (m: Member) => m.id != id)
  }

  // ----- the store's own invariant -----

  predicate JointBefore(a: Joint, b: Joint) { a.id < b.id }

  predicate MemberBefore(a: Member, b: Member) { a.id < b.id }

  /** Two members that join the same unordered pair. */
  predicate SamePair(a: Member, b: Member) { Joins(b, a.joint1, a.joint2) }

  predicate DistinctPair(a: Member, b: Member) { !SamePair(a, b) }

  /** Ids come from one counter: all below it, increasing along each list
      (so distinct) and never shared between a joint and a member. */
  ghost predicate IdsFromCounter(js: seq<Joint>, ms: seq<Member>, next: nat) {
    && (forall j :: j in js ==> j.id < next)
    && (forall m :: m in ms ==> m.id < next)
    && Pairwise(js, JointBefore)
    && Pairwise(ms, MemberBefore)
    && (forall j, m :: j in js && m in ms ==> j.id != m.id)
  }

  /** No member is a self-loop and no two members join the same pair. */
  ghost predicate SimpleGraph(ms: seq<Member>) {
    && (forall m :: m in ms ==> m.joint1 != m.joint2)
    && Pairwise(ms, DistinctPair)
  }

  /** The invariant the editor relies on and the store does not check. */
  ghost predicate EndpointsPresent(js: seq<Joint>, ms: seq<Member>) {
    forall m :: m in ms ==> m.joint1 in JointIds(js) && m.joint2 in JointIds(js)
  }

  /** Appending a member that `FindMember` did not find keeps the pairs
      distinct. */
  lemma AppendDistinctPair(ms: seq<Member>, m: Member)
    requires Pairwise(ms, DistinctPair)
    requires FindMember(ms, m.joint1, m.joint2).None?
    ensures Pairwise(ms + [m], DistinctPair)
  {
    var r := ms + [m];
    forall i, j | 0 <= i < j < |r| ensures DistinctPair(r[i], r[j]) {
      if j == |ms| {
        assert r[i] in ms && r[j] == m;
        assert !Joins(r[i], m.joint1, m.joint2);
      } else {
        assert r[i] == ms[i] && r[j] == ms[j];
      }
    }
  }

  lemma AppendFreshId<T>(s: seq<T>, x: T, before: (T, T) -> bool)
    requires Pairwise(s, before)
    requires forall y :: y in s ==> before(y, x)
    ensures Pairwise(s + [x], before)
  {
    var r := s + [x];
    forall i, j | 0 <= i < j < |r| ensures before(r[i], r[j]) {
      if j == |s| {
        assert r[i] in s;
      } else {
        assert r[i] == s[i] && r[j] == s[j];
      }
    }
  }

  class BridgeData {
    var joints: seq<Joint>
    var members: seq<Member>
    var anchorPoints: seq<Point>
    /** The module-level id counter every `generateId` call advances. */
    const ids: IdGenerator

    ghost predicate Valid()
      reads this, ids
    {
      IdsFromCounter(joints, members, ids.next) && SimpleGraph(members)
    }

    constructor (ids: IdGenerator)
      ensures Valid() && this.ids == ids
      ensures joints == [] && members == [] && anchorPoints == []
    {
      this.ids := ids;
      joints, members, anchorPoints := [], [], [];
    }

    /** `addJoint`: appends one joint with a fresh id and changes nothing else. */
    method AddJoint(x: real, y: real, isAnchor: bool := false) returns (j: Joint)
      requires Valid()
      modifies this, ids
      ensures Valid()
      ensures j == Joint(old(ids.next), x, y, isAnchor)
      ensures j.id !in JointIds(old(joints)) && forall m :: m in members ==> m.id != j.id
      ensures joints == old(joints) + [j]
      ensures members == old(members) && anchorPoints == old(anchorPoints)
      ensures ids.next == old(ids.next) + 1
    {
      var id := ids.GenerateId();
      j := Joint(id, x, y, isAnchor);
      AppendFreshId(joints, j, JointBefore);
      joints := joints + [j];
    }

    /** `addMember`: refuses a self-loop and a pair already joined in either
        order, otherwise appends one member with a fresh id. */
    method AddMember(joint1: Id, joint2: Id, materialType: Material := Wood) returns (r: Option<Member>)
      requires Valid()
      modifies this, ids
      ensures Valid()
      ensures r.Some? <==> joint1 != joint2 && FindMember(old(members), joint1, joint2).None?
      ensures r.Some? ==> (r.value == Member(old(ids.next), joint1, joint2, materialType)
                           && members == old(members) + [r.value]
                           && ids.next == old(ids.next) + 1)
      ensures r.None? ==> members == old(members) && ids.next == old(ids.next)
      ensures joints == old(joints) && anchorPoints == old(anchorPoints)
    {
      if joint1 == joint2 {
        return None;
      }
      if FindMember(members, joint1, joint2).Some? {
        return None;
      }
      var id := ids.GenerateId();
      var m := Member(id, joint1, joint2, materialType);
      AppendFreshId(members, m, MemberBefore);
      AppendDistinctPair(members, m);
      members := members + [m];
      r := Some(m);
    }

    /** `removeJoint`: refuses an absent id or an anchor; otherwise removes
        the joint and every member touching it, keeping the rest in order. */
    method RemoveJoint(jointId: Id) returns (ok: bool)
      requires Valid()
      modifies this
      ensures Valid()
      ensures ok <==> GetJointById(old(joints), jointId).Some? && !GetJointById(old(joints), jointId).value.isAnchor
      ensures ok ==> joints == WithoutJoint(old(joints), jointId) && members == Detach(old(members), jointId)
      ensures !ok ==> joints == old(joints) && members == old(members)
      ensures anchorPoints == old(anchorPoints)
    {
      var found := GetJointById(joints, jointId);
      if found.None? {
        return false;
      }
      if found.value.isAnchor {
        return false;
      }
      FilterPairwise(members, (m: Member) => !Touches(m, jointId), MemberBefore);
      FilterPairwise(members, (m: Member) => !Touches(m, jointId), DistinctPair);
      members := Detach(members, jointId);
      FilterPairwise(joints, (j: Joint) => j.id != jointId, JointBefore);
      joints := WithoutJoint(joints, jointId);
      ok := true;
    }

    /** `removeMember`: removes exactly the member with that id, or reports
        that there is none. */
    method RemoveMember(memberId: Id) returns (ok: bool)
      requires Valid()
      modifies this
      ensures Valid()
      ensures ok <==> GetMemberById(old(members), memberId).Some?
      ensures ok ==> members == WithoutMember(old(members), memberId)
      ensures !ok ==> members == old(members)
      ensures joints == old(joints) && anchorPoints == old(anchorPoints)
    {
      if GetMemberById(members, memberId).None? {
        return false;
      }
      FilterPairwise(members, (m: Member) => m.id != memberId, MemberBefore);
      FilterPairwise(members, (m: Member) => m.id != memberId, DistinctPair);
      members := WithoutMember(members, memberId);
      ok := true;
    }

    /** `clearAll`: empties joints and members; the level's anchor
        positions are kept. */
    method ClearAll()
      requires Valid()
      modifies this
      ensures Valid()
      ensures joints == [] && members == [] && anchorPoints == old(anchorPoints)
    {
      joints, members := [], [];
    }

    /** `loadLevelAnchors`: replaces the level's anchor positions. */
    method LoadLevelAnchors(anchorData: seq<Point>)
      requires Valid()
      modifies this
      ensures Valid()
      ensures anchorPoints == anchorData && joints == old(joints) && members == old(members)
    {
      anchorPoints := anchorData;
    }

    /** `getBridgeDataForSimulation`: a plain copy of every joint and member,
        field for field and in order.  Being a value, it cannot see later
        edits to the store. */
    method GetBridgeDataForSimulation() returns (d: SimData)
      ensures |d.joints| == |joints| && |d.elements| == |members|
      ensures forall i :: 0 <= i < |joints| ==> d.joints[i] == joints[i]
      ensures forall i :: 0 <= i < |members| ==> d.elements[i] == members[i]
    {
      d := SimData(joints, members);
    }
  }

  // ----- EndpointsPresent under every operation, given the caller's check -----

  lemma EndpointsPresentAddJoint(js: seq<Joint>, ms: seq<Member>, j: Joint)
    requires EndpointsPresent(js, ms)
    ensures EndpointsPresent(js + [j], ms)
  {
    forall m | m in ms ensures m.joint1 in JointIds(js + [j]) && m.joint2 in JointIds(js + [j]) {
      JointIdsGrow(js, j);
    }
  }

  lemma JointIdsGrow(js: seq<Joint>, j: Joint)
    ensures JointIds(js + [j]) == JointIds(js) + {j.id}
  {
    assert forall k :: k in js + [j] <==> k in js || k == j;
  }

  /** A member added between two present joints keeps the graph closed. */
  lemma EndpointsPresentAddMember(js: seq<Joint>, ms: seq<Member>, m: Member)
    requires EndpointsPresent(js, ms)
    requires m.joint1 in JointIds(js) && m.joint2 in JointIds(js)
    ensures EndpointsPresent(js, ms + [m])
  {
  }

  /** The cascade of `removeJoint` keeps the graph closed: every surviving
      member's endpoints are still present, and none is the removed joint. */
  lemma EndpointsPresentRemoveJoint(js: seq<Joint>, ms: seq<Member>, id: Id)
    requires EndpointsPresent(js, ms)
    ensures EndpointsPresent(WithoutJoint(js, id), Detach(ms, id))
    ensures forall m :: m in Detach(ms, id) ==> !Touches(m, id)
    ensures id !in JointIds(WithoutJoint(js, id))
  {
  }

  lemma EndpointsPresentRemoveMember(js: seq<Joint>, ms: seq<Member>, id: Id)
    requires EndpointsPresent(js, ms)
    ensures EndpointsPresent(js, WithoutMember(ms, id))
  {
  }

  /** Order preservation of the cascade: on the joints before and after
      any split point, removal acts independently. */
  lemma RemoveJointKeepsOrder(js1: seq<Joint>, js2: seq<Joint>, ms1: seq<Member>, ms2: seq<Member>, id: Id)
    ensures WithoutJoint(js1 + js2, id) == WithoutJoint(js1, id) + WithoutJoint(js2, id)
    ensures Detach(ms1 + ms2, id) == Detach(ms1, id) + Detach(ms2, id)
  {
    FilterConcat(js1, js2, (j: Joint) => j.id != id);
    FilterConcat(ms1, ms2, (m: Member) => !Touches(m, id));
  }

  /** Removing a joint no member touches leaves the members exactly as
      they were. */
  lemma DetachUntouched(ms: seq<Member>, id: Id)
    requires forall m :: m in ms ==> !Touches(m, id)
    ensures Detach(ms, id) == ms
  {
    FilterKeepsAll(ms, (m: Member) => !Touches(m, id));
  }

  /** Uniqueness of pairs: once a pair has a member, adding it again in
      either order is refused. */
  lemma DuplicateRefused(ms: seq<Member>, m: Member)
    requires m in ms
    ensures FindMember(ms, m.joint1, m.joint2).Some?
    ensures FindMember(ms, m.joint2, m.joint1).Some?
  {
    assert Joins(m, m.joint1, m.joint2) && Joins(m, m.joint2, m.joint1);
  }

  /** Ids are unique, so looking a stored joint up by its id finds that
      very joint. */
  lemma GetJointByIdUnique(js: seq<Joint>, j: Joint)
    requires Pairwise(js, JointBefore)
    requires j in js
    ensures GetJointById(js, j.id) == Some(j)
  {
    var r := GetJointById(js, j.id);
    var a :| 0 <= a < |js| && js[a] == r.value;
    var b :| 0 <= b < |js| && js[b] == j;
    assert a < b ==> JointBefore(js[a], js[b]);
    assert b < a ==> JointBefore(js[b], js[a]);
  }

  /** At most one member per unordered pair: two members joining the same
      two joints, in whatever order, are the same member. */
  lemma AtMostOneMemberPerPair(ms: seq<Member>, m1: Member, m2: Member, a: Id, b: Id)
    requires SimpleGraph(ms)
    requires m1 in ms && m2 in ms && Joins(m1, a, b) && Joins(m2, a, b)
    ensures m1 == m2
  {
    var i :| 0 <= i < |ms| && ms[i] == m1;
    var j :| 0 <= j < |ms| && ms[j] == m2;
    assert i < j ==> DistinctPair(ms[i], ms[j]);
    assert j < i ==> DistinctPair(ms[j], ms[i]);
  }

  /** More joints never break closure. */
  lemma EndpointsPresentMoreJoints(js: seq<Joint>, more: seq<Joint>, ms: seq<Member>)
    requires EndpointsPresent(js, ms)
    ensures EndpointsPresent(js + more, ms)
  {
    assert JointIds(js) <= JointIds(js + more) by {
      forall id | id in JointIds(js) ensures id in JointIds(js + more) {
        var j :| j in js && j.id == id;
        assert j in js + more;
      }
    }
  }
}
