/**
 * The mechanical coupling of the joints. The belt transmission makes the shoulder drag
 * the elbow, the elbow the wrist and the wrist the hand rotation (the latter the opposite
 * way). `_apply_coupling` adds to each joint of a relative set point the moves of the
 * joints upstream of it; `_global_to_local` takes the upstream angle away again.
 */
module Coupling {
  import opened Wrappers
  import opened Settings

  /** `JOINT_CHILDREN`: the signed link from a joint to the joint it drags. */
  function ChildLink(m: Motor): (link: Option<int>)
    ensures link.Some? <==> SHOULDER <= m <= WRIST
    ensures link.Some? ==> LinkJoint(link.value) == m + 1
  {
    match m
    case 1 => Some(ELBOW)
    case 2 => Some(WRIST)
    case 3 => Some(-(HAND_ROT as int))
    case _ => None
  }

  /** `JOINT_PARENTS`: the signed link from a joint to the joint that drags it. */
  function ParentLink(m: Motor): (link: Option<int>)
    ensures link.Some? <==> ELBOW <= m <= HAND_ROT
    ensures link.Some? ==> LinkJoint(link.value) == m - 1
  {
    match m
    case 2 => Some(SHOULDER)
    case 3 => Some(ELBOW)
    case 4 => Some(-(WRIST as int))
    case _ => None
  }

  /** The direction carried by a link: a negative link reverses the motion. */
  function LinkSign(link: int): int
  {
    if link < 0 then -1 else 1
  }

  /** The joint a link points to. */
  function LinkJoint(link: int): nat
  {
    if link < 0 then -link else link
  }

  /** The dictionary of joint angles a caller passes to the arm. It is a mutable object
      because `_apply_coupling` updates it in place, and the caller sees the update. */
  class AngleSet {
    var angles: map<Motor, real>

    constructor (angles: map<Motor, real>)
      ensures this.angles == angles
    {
      this.angles := angles;
    }
  }

  /** `angles.get(j, 0)` */
  function Get0(d: map<Motor, real>, j: Motor): real
  {
    if j in d then d[j] else 0.0
  }

  /** Joint `a` drags joint `j`: `a` is upstream of `j` in the chain shoulder, elbow, wrist, hand. */
  predicate Drags(a: Motor, j: Motor)
  {
    SHOULDER <= a < j <= HAND_ROT
  }

  /** The motion `x` of the joints upstream of `j`, in the direction in which `j` follows
      them: the hand rotation follows the other way. */
  function Follow(j: Motor, x: real): real
  {
    if j == HAND_ROT then -x else x
  }

  /** The part of joint `j`'s coupled value that comes from upstream joint `a`. */
  function Dragging(d: map<Motor, real>, a: Motor, j: Motor): real
  {
    if a in d && Drags(a, j) then d[a] else 0.0
  }

  /** Some joint upstream of `j` has a set point. */
  predicate DraggedIn(d: map<Motor, real>, j: Motor)
  {
    (SHOULDER in d && Drags(SHOULDER, j)) || (ELBOW in d && Drags(ELBOW, j)) || (WRIST in d && Drags(WRIST, j))
  }

  /** The coupled set points: every joint keeps its own value (0 when absent) plus the
      values of the joints upstream of it, with the sign of its link; a joint appears as
      soon as it or a joint upstream of it has a set point. */
  function Coupled(d: map<Motor, real>): map<Motor, real>
  {
    map j: Motor | j in d || DraggedIn(d, j) ::
      Get0(d, j) + Follow(j, Dragging(d, SHOULDER, j) + Dragging(d, ELBOW, j) + Dragging(d, WRIST, j))
  }

  /** The joints of the coupled set points: those of the caller, plus every joint dragged
      by a joint of the caller. */
  lemma CoupledKeys(d: map<Motor, real>)
    ensures d.Keys <= Coupled(d).Keys
    ensures BASE in Coupled(d) <==> BASE in d
    ensures SHOULDER in Coupled(d) <==> SHOULDER in d
    ensures GRIPPER in Coupled(d) <==> GRIPPER in d
    ensures ELBOW in Coupled(d) <==> ELBOW in d || SHOULDER in d
    ensures WRIST in Coupled(d) <==> WRIST in d || ELBOW in d || SHOULDER in d
    ensures HAND_ROT in Coupled(d) <==> HAND_ROT in d || WRIST in d || ELBOW in d || SHOULDER in d
  {}

  /** The coupled values joint by joint: base, shoulder and gripper are dragged by nothing;
      elbow and wrist follow the joints upstream of them, the hand rotation follows them
      the other way. */
  lemma CoupledValues(d: map<Motor, real>)
    ensures forall j :: j in d && (j == BASE || j == SHOULDER || j == GRIPPER) ==> Coupled(d)[j] == d[j]
    ensures ELBOW in Coupled(d) ==> Coupled(d)[ELBOW] == Get0(d, ELBOW) + Get0(d, SHOULDER)
    ensures WRIST in Coupled(d) ==> Coupled(d)[WRIST] == Get0(d, WRIST) + Get0(d, ELBOW) + Get0(d, SHOULDER)
    ensures HAND_ROT in Coupled(d) ==>
      Coupled(d)[HAND_ROT] == Get0(d, HAND_ROT) - Get0(d, WRIST) - Get0(d, ELBOW) - Get0(d, SHOULDER)
  {
    var s, e, w := Get0(d, SHOULDER), Get0(d, ELBOW), Get0(d, WRIST);
    assert Dragging(d, SHOULDER, ELBOW) == s && Dragging(d, ELBOW, ELBOW) == 0.0 && Dragging(d, WRIST, ELBOW) == 0.0;
    assert Dragging(d, SHOULDER, WRIST) == s && Dragging(d, ELBOW, WRIST) == e && Dragging(d, WRIST, WRIST) == 0.0;
    assert Dragging(d, SHOULDER, HAND_ROT) == s && Dragging(d, ELBOW, HAND_ROT) == e && Dragging(d, WRIST, HAND_ROT) == w;
  }

  /** Adds `x` to the set point of joint `c`, which reads 0 when absent. */
  function AddTo(s: map<Motor, real>, c: Motor, x: real): (t: map<Motor, real>)
    ensures t.Keys == s.Keys + {c} && t[c] == Get0(s, c) + x
    ensures forall j :: j in s && j != c ==> t[j] == s[j]
  {
    s[c := if c in s then s[c] + x else x]
  }

  // ---- intermediate states of the `_apply_coupling` loops ----

  /** `a` has already been propagated to `j` once the outer loop has handled every joint
      above `m` and the inner loop has walked joint `m`'s chain up to (not including) `upto`. */
  predicate Propagated(d: map<Motor, real>, m: int, upto: int, a: Motor, j: Motor)
  {
    a in d && Drags(a, j) && (a > m || (a == m && j < upto))
  }

  function Partial(d: map<Motor, real>, m: int, upto: int, a: Motor, j: Motor): real
  {
    if Propagated(d, m, upto, a, j) then d[a] else 0.0
  }

  /** The upstream motion already added to joint `j`. */
  function Upstream(d: map<Motor, real>, m: int, upto: int, j: Motor): real
  {
    Partial(d, m, upto, SHOULDER, j) + Partial(d, m, upto, ELBOW, j) + Partial(d, m, upto, WRIST, j)
  }

  /** Joint `j` already holds a value. */
  predicate Reached(d: map<Motor, real>, m: int, upto: int, j: Motor)
  {
    j in d || Propagated(d, m, upto, SHOULDER, j) || Propagated(d, m, upto, ELBOW, j) || Propagated(d, m, upto, WRIST, j)
  }

  ghost function Stage(d: map<Motor, real>, m: int, upto: int): map<Motor, real>
  {
    map j: Motor | Reached(d, m, upto, j) :: Get0(d, j) + Follow(j, Upstream(d, m, upto, j))
  }

  lemma StageStart(d: map<Motor, real>)
    ensures Stage(d, GRIPPER, 6) == d
  {
    assert forall j :: j in Stage(d, GRIPPER, 6) ==> j in d;
  }

  lemma StageEnd(d: map<Motor, real>)
    ensures Stage(d, -1, 0) == Coupled(d)
  {
    var s, c := Stage(d, -1, 0), Coupled(d);
    assert forall j :: j in s <==> j in c;
    assert forall j :: j in s ==> s[j] == c[j];
  }

  /** A joint without a coupled child has nothing to propagate. */
  lemma StageNoChild(d: map<Motor, real>, m: Motor)
    requires ChildLink(m).None?
    ensures Stage(d, m, m + 1) == Stage(d, m, 5)
  {
    forall a: Motor, j: Motor
      ensures Propagated(d, m, m + 1, a, j) == Propagated(d, m, 5, a, j)
    {}
    StageSame(d, m, m + 1, m, 5);
  }

  lemma UpstreamStep(d: map<Motor, real>, m: Motor, c: Motor, j: Motor)
    requires m in d && SHOULDER <= m < c <= HAND_ROT
    ensures Reached(d, m, c + 1, j) <==> Reached(d, m, c, j) || j == c
    ensures Upstream(d, m, c + 1, j) == Upstream(d, m, c, j) + (if j == c then d[m] else 0.0)
  {
    assert Propagated(d, m, c + 1, m, c);
  }

  lemma StageStepAt(d: map<Motor, real>, m: Motor, c: Motor, j: Motor)
    requires m in d && SHOULDER <= m < c <= HAND_ROT
    ensures var s, t := Stage(d, m, c), Stage(d, m, c + 1);
      var u := AddTo(s, c, Follow(c, d[m]));
      (j in u <==> j in t) && (j in u ==> u[j] == t[j])
  {
    UpstreamStep(d, m, c, j);
    if j == c {
      UpstreamStep(d, m, c, c);
    }
  }

  /** One pass of the inner loop: joint `c` receives joint `m`'s set point. */
  lemma StageStep(d: map<Motor, real>, m: Motor, c: Motor)
    requires m in d && SHOULDER <= m < c <= HAND_ROT
    ensures var s := Stage(d, m, c);
      AddTo(s, c, Follow(c, d[m])) == Stage(d, m, c + 1)
  {
    var s, t := Stage(d, m, c), Stage(d, m, c + 1);
    var u := AddTo(s, c, Follow(c, d[m]));
    forall j: Motor
      ensures (j in u <==> j in t) && (j in u ==> u[j] == t[j])
    {
      StageStepAt(d, m, c, j);
    }
  }

  /** Two stages agree when they have propagated the same joints. */
  lemma StageSame(d: map<Motor, real>, m1: int, u1: int, m2: int, u2: int)
    requires forall a: Motor, j: Motor :: Propagated(d, m1, u1, a, j) == Propagated(d, m2, u2, a, j)
    ensures Stage(d, m1, u1) == Stage(d, m2, u2)
  {
    var s, t := Stage(d, m1, u1), Stage(d, m2, u2);
    forall j: Motor
      ensures (j in s <==> j in t) && (j in s ==> s[j] == t[j])
    {
      assert Propagated(d, m1, u1, SHOULDER, j) == Propagated(d, m2, u2, SHOULDER, j);
      assert Propagated(d, m1, u1, ELBOW, j) == Propagated(d, m2, u2, ELBOW, j);
      assert Propagated(d, m1, u1, WRIST, j) == Propagated(d, m2, u2, WRIST, j);
    }
  }

  /** Once joint `m`'s chain is walked, the outer loop moves on to joint `m - 1`. */
  lemma StageDone(d: map<Motor, real>, m: Motor)
    ensures Stage(d, m, 5) == Stage(d, m - 1, m)
  {
    forall a: Motor, j: Motor
      ensures Propagated(d, m, 5, a, j) == Propagated(d, m - 1, m, a, j)
    {}
    StageSame(d, m, 5, m - 1, m);
  }

  /** A joint without a set point is skipped. */
  lemma StageSkip(d: map<Motor, real>, m: Motor)
    requires m !in d
    ensures Stage(d, m, m + 1) == Stage(d, m - 1, m)
  {
    forall a: Motor, j: Motor {:trigger Propagated(d, m, m + 1, a, j)}
      ensures Propagated(d, m, m + 1, a, j) == Propagated(d, m - 1, m, a, j)
    {}
    StageSame(d, m, m + 1, m - 1, m);
  }

  /** A link scales a motion by its sign. */
  lemma LinkScales(c: Motor, x: real)
    requires c == ELBOW || c == WRIST || c == HAND_ROT
    ensures LinkSign(ChildLink(c - 1).value) as real * x == Follow(c, x)
  {
    if c == HAND_ROT {
      assert LinkSign(ChildLink(c - 1).value) == -1;
    }
  }

  /** `_apply_coupling`: updates the caller's set points in place, visiting the joints in
      descending order and walking each one's chain of dragged joints. */
  method ApplyCoupling(angles: AngleSet)
    modifies angles
    ensures angles.angles == Coupled(old(angles.angles))
  {
    ghost var d := angles.angles;
    StageStart(d);
    var i := MOTORS_COUNT;
    while i > 0
      invariant 0 <= i <= MOTORS_COUNT
      invariant angles.angles == Stage(d, i - 1, i)
    {
      i := i - 1;
      var m: Motor := MOTORS_ALL[i];
      assert m == i;
      assert m in angles.angles <==> m in d;
      if m in angles.angles {
        var mAngle := angles.angles[m];
        assert mAngle == d[m];
        var child := ChildLink(m);
        ghost var next: int := if child.Some? then m + 1 else 5;
        if child.None? {
          StageNoChild(d, m);
        }
        while child.Some?
          invariant next <= 5
          invariant child.Some? ==> SHOULDER <= m && next <= HAND_ROT && child == ChildLink(next - 1)
          invariant child.None? ==> next == 5
          invariant angles.angles == Stage(d, m, next)
          decreases 5 - next
        {
          var cDir := LinkSign(child.value);
          var c: Motor := LinkJoint(child.value);
          var moved := cDir as real * mAngle;
          assert c == next;
          LinkScales(c, mAngle);
          assert moved == Follow(c, d[m]);
          StageStep(d, m, c);
          angles.angles := AddTo(angles.angles, c, moved);
          assert angles.angles == Stage(d, m, c + 1);
          child := ChildLink(c);
          next := next + 1;
        }
        StageDone(d, m);
      } else {
        StageSkip(d, m);
      }
    }
    StageEnd(d);
  }

  /** The local angles: every joint that has a parent loses the parent's angle, with the
      sign of the link; the others keep their value. */
  function LocalAngles(g: seq<real>): (l: seq<real>)
    requires |g| <= MOTORS_COUNT
    ensures |l| == |g|
  {
    seq(|g|, j requires 0 <= j < |g| =>
      match ParentLink(j)
      case None => g[j]
      case Some(p) => g[j] - g[LinkJoint(p)] * LinkSign(p) as real)
  }

  /** `_global_to_local`: computes the local angles in a copy of the list. */
  method GlobalToLocal(angles: seq<real>) returns (local: seq<real>)
    requires |angles| <= MOTORS_COUNT
    ensures local == LocalAngles(angles)
  {
    local := angles;
    for j := 0 to |angles|
      invariant |local| == |angles|
      invariant forall k :: 0 <= k < j ==> local[k] == LocalAngles(angles)[k]
      invariant forall k :: j <= k < |angles| ==> local[k] == angles[k]
    {
      var parent := ParentLink(j);
      if parent.Some? {
        var cDir := LinkSign(parent.value);
        var p := LinkJoint(parent.value);
        local := local[j := angles[j] - angles[p] * cDir as real];
      }
    }
  }

  /** The six joint angles of a set point dictionary, 0 for the absent ones. */
  function AsList(d: map<Motor, real>): (g: seq<real>)
    ensures |g| == MOTORS_COUNT
    ensures forall j: Motor :: g[j] == Get0(d, j)
  {
    seq(MOTORS_COUNT, j requires 0 <= j < MOTORS_COUNT => Get0(d, j))
  }

  /** The dictionary holding all six angles of a list. */
  function AsDict(g: seq<real>): (d: map<Motor, real>)
    requires |g| == MOTORS_COUNT
    ensures forall j: Motor :: j in d && d[j] == g[j]
  {
    map j: Motor | true :: g[j]
  }

  lemma LocalAnglesAt(g: seq<real>)
    requires |g| == MOTORS_COUNT
    ensures var l := LocalAngles(g);
      l[BASE] == g[BASE] && l[SHOULDER] == g[SHOULDER] && l[GRIPPER] == g[GRIPPER] &&
      l[ELBOW] == g[ELBOW] - g[SHOULDER] && l[WRIST] == g[WRIST] - g[ELBOW] &&
      l[HAND_ROT] == g[HAND_ROT] + g[WRIST]
  {}

  /** Taking the upstream angles away from the coupled set points gives back the set points
      (missing joints reading 0): `_global_to_local` undoes `_apply_coupling`. */
  lemma {:induction false} LocalUndoesCoupling(d: map<Motor, real>)
    ensures LocalAngles(AsList(Coupled(d))) == AsList(d)
  {
    var c := Coupled(d);
    CoupledKeys(d);
    CoupledValues(d);
    var g := AsList(c);
    LocalAnglesAt(g);
    assert g[SHOULDER] == Get0(d, SHOULDER);
    assert g[ELBOW] == Get0(d, ELBOW) + Get0(d, SHOULDER);
    assert g[WRIST] == Get0(d, WRIST) + Get0(d, ELBOW) + Get0(d, SHOULDER);
    assert g[HAND_ROT] == Get0(d, HAND_ROT) - Get0(d, WRIST) - Get0(d, ELBOW) - Get0(d, SHOULDER);
    var l := LocalAngles(g);
    assert forall j: Motor :: l[j] == AsList(d)[j];
  }

  /** And the other way round: coupling the local angles of a full list of joint angles
      gives back the list. */
  lemma {:induction false} CouplingUndoesLocal(g: seq<real>)
    requires |g| == MOTORS_COUNT
    ensures Coupled(AsDict(LocalAngles(g))) == AsDict(g)
  {
    var l := LocalAngles(g);
    LocalAnglesAt(g);
    var d := AsDict(l);
    CoupledKeys(d);
    CoupledValues(d);
    var c := Coupled(d);
    assert forall j: Motor :: j in c && c[j] == g[j];
  }

  /** A 10 degree shoulder move drags elbow and wrist by 10 and the hand rotation by -10. */
  lemma ShoulderMoveExample()
    ensures Coupled(map[BASE := 0.0, SHOULDER := 10.0, ELBOW := 0.0, WRIST := 0.0, HAND_ROT := 0.0])
         == map[BASE := 0.0, SHOULDER := 10.0, ELBOW := 10.0, WRIST := 10.0, HAND_ROT := -10.0]
  {
    var d := map[BASE := 0.0, SHOULDER := 10.0, ELBOW := 0.0, WRIST := 0.0, HAND_ROT := 0.0];
    var e := map[BASE := 0.0, SHOULDER := 10.0, ELBOW := 10.0, WRIST := 10.0, HAND_ROT := -10.0];
    CoupledKeys(d);
    CoupledValues(d);
    assert Coupled(d).Keys == e.Keys;
  }

  /** A base move drags nothing. */
  lemma BaseMoveExample()
    ensures Coupled(map[BASE := 10.0]) == map[BASE := 10.0]
  {
    CoupledKeys(map[BASE := 10.0]);
    CoupledValues(map[BASE := 10.0]);
    assert Coupled(map[BASE := 10.0]).Keys == {BASE};
  }

  /** The local angles of a few arm positions. */
  lemma LocalAnglesExamples()
    ensures LocalAngles([10.0, 0.0, 0.0, 0.0, 0.0, 0.0]) == [10.0, 0.0, 0.0, 0.0, 0.0, 0.0]
    ensures LocalAngles([0.0, 10.0, 10.0, 10.0, -10.0, 0.0]) == [0.0, 10.0, 0.0, 0.0, 0.0, 0.0]
    ensures LocalAngles([0.0, 10.0, 20.0, 30.0, -50.0, 0.0]) == [0.0, 10.0, 10.0, 10.0, -20.0, 0.0]
  {
    LocalAnglesAt([10.0, 0.0, 0.0, 0.0, 0.0, 0.0]);
    LocalAnglesAt([0.0, 10.0, 10.0, 10.0, -10.0, 0.0]);
    LocalAnglesAt([0.0, 10.0, 20.0, 30.0, -50.0, 0.0]);
  }
}
