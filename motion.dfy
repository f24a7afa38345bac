/**
 * The motion operations of the arm: joint moves and gotos guarded by the limit check, the
 * hand rotation, and the gripper commands. Both arm classes carry the same text for these
 * operations (the older one without the timeout argument), so both use this module.
 */
module Motion {
  import opened Wrappers
  import opened Settings
  import opened Coupling
  import opened DaisyChain

  // ---- the angles argument ----

  /** What a caller may pass as joint angles: the dictionary itself, a list of
      (joint, angle) pairs, or anything else. */
  datatype AnglesArg = DictArg(d: AngleSet) | PairsArg(pairs: seq<(Motor, real)>) | Unsupported

  /** Pair `i` is the last one that names its joint. */
  predicate LastFor(pairs: seq<(Motor, real)>, i: int)
    requires 0 <= i < |pairs|
  {
    forall k :: i < k < |pairs| ==> pairs[k].0 != pairs[i].0
  }

  /** `dict(pairs)`: the pairs entered one after the other. */
  function PairsToDict(pairs: seq<(Motor, real)>): map<Motor, real>
  {
    if pairs == [] then map[]
    else PairsToDict(pairs[..|pairs| - 1])[pairs[|pairs| - 1].0 := pairs[|pairs| - 1].1]
  }

  /** The dictionary holds exactly the joints the pairs name... */
  lemma {:induction false} PairsToDictKeys(pairs: seq<(Motor, real)>)
    ensures PairsToDict(pairs).Keys == set i | 0 <= i < |pairs| :: pairs[i].0
  {
    if pairs != [] {
      var n := |pairs| - 1;
      var front := pairs[..n];
      PairsToDictKeys(front);
      var keys := set i | 0 <= i < |pairs| :: pairs[i].0;
      var frontKeys := set i | 0 <= i < n :: front[i].0;
      forall j | j in keys ensures j in frontKeys + {pairs[n].0} {
        var i :| 0 <= i < |pairs| && pairs[i].0 == j;
        if i < n { assert front[i].0 == j; }
      }
      forall j | j in frontKeys ensures j in keys {
        var i :| 0 <= i < n && front[i].0 == j;
        assert pairs[i].0 == j;
      }
    }
  }

  /** ... each with the angle of the last pair that names it. */
  lemma {:induction false} PairsToDictValues(pairs: seq<(Motor, real)>, i: int)
    requires 0 <= i < |pairs| && LastFor(pairs, i)
    ensures pairs[i].0 in PairsToDict(pairs) && PairsToDict(pairs)[pairs[i].0] == pairs[i].1
  {
    var n := |pairs| - 1;
    if i < n {
      var front := pairs[..n];
      assert front[i] == pairs[i];
      assert pairs[n].0 != pairs[i].0;
      PairsToDictValues(front, i);
    }
  }

  /** The set points the argument stands for, before any coupling. */
  function ArgAngles(arg: AnglesArg): map<Motor, real>
    requires !arg.Unsupported?
    reads if arg.DictArg? then {arg.d} else {}
  {
    if arg.DictArg? then arg.d.angles else PairsToDict(arg.pairs)
  }

  /** `_normalize_angles_parameter`: a dictionary is used as it is (so that the caller sees
      the coupling applied to it), a list of pairs becomes a new dictionary, anything else is
      a TypeError. */
  method NormalizeAngles(arg: AnglesArg) returns (r: Option<AngleSet>)
    ensures r.None? <==> arg.Unsupported?
    ensures arg.DictArg? ==> r == Some(arg.d)
    ensures arg.PairsArg? ==> r.Some? && fresh(r.value) && r.value.angles == PairsToDict(arg.pairs)
  {
    match arg
    case DictArg(d) => r := Some(d);
    case PairsArg(pairs) =>
      var d := new AngleSet(PairsToDict(pairs));
      r := Some(d);
    case Unsupported => r := None;
  }

  /** The set points actually commanded: coupled or as given. */
  function Requested(d: map<Motor, real>, coupled: bool): map<Motor, real>
  {
    if coupled then Coupled(d) else d
  }

  // ---- the limit check ----

  /** The position of every joint, in degrees, from the position registers. */
  function JointPositions(regs: Positions): (g: seq<real>)
    ensures |g| == MOTORS_COUNT
    ensures forall j: Motor :: g[j] == StepsToDegrees(j, regs[j])
  {
    seq(MOTORS_COUNT, j requires 0 <= j < MOTORS_COUNT => StepsToDegrees(j, regs[j]))
  }

  /** The goal angles of a move: the current positions plus the requested angles for a
      relative move, the targets replacing the current positions for an absolute one. */
  function Goals(d: map<Motor, real>, relMove: bool, regs: Positions): (g: seq<real>)
    ensures |g| == MOTORS_COUNT
  {
    var here := JointPositions(regs);
    seq(MOTORS_COUNT, j requires 0 <= j < MOTORS_COUNT =>
      if !relMove && j in d then d[j] else here[j] + Get0(d, j))
  }

  /** The decision of the limit check on the local goal angles: joints base to wrist are
      checked in order, the hand rotation and the gripper are not. */
  function LimitsVerdict(local: seq<real>): (r: Outcome<ArmError>)
    requires |local| == MOTORS_COUNT
    ensures r.Pass? <==> forall j: Motor :: j < HAND_ROT ==> WithinLimits(j, local[j])
    ensures r.Fail? ==>
      && r.error.OutOfBound? && r.error.motor < HAND_ROT
      && r.error.angle == local[r.error.motor] && !WithinLimits(r.error.motor, r.error.angle)
      && forall j: Motor :: j < r.error.motor ==> WithinLimits(j, local[j])
  {
    if !WithinLimits(BASE, local[BASE]) then Fail(OutOfBound(BASE, local[BASE]))
    else if !WithinLimits(SHOULDER, local[SHOULDER]) then Fail(OutOfBound(SHOULDER, local[SHOULDER]))
    else if !WithinLimits(ELBOW, local[ELBOW]) then Fail(OutOfBound(ELBOW, local[ELBOW]))
    else if !WithinLimits(WRIST, local[WRIST]) then Fail(OutOfBound(WRIST, local[WRIST]))
    else Pass
  }

  /** The checking loop of `_check_limits`: raises at the first joint out of its bounds. */
  method CheckGoals(local: seq<real>) returns (r: Outcome<ArmError>)
    requires |local| == MOTORS_COUNT
    ensures r == LimitsVerdict(local)
  {
    var motor := BASE as nat;
    while motor < HAND_ROT as nat
      invariant motor <= HAND_ROT as nat
      invariant forall j: Motor :: j < motor ==> WithinLimits(j, local[j])
    {
      var s := SettingsOf(motor);
      var angle := local[motor];
      if !(s.minPosDeg.value as real <= angle <= s.maxPosDeg.value as real) {
        return Fail(OutOfBound(motor, angle));
      }
      motor := motor + 1;
    }
    return Pass;
  }

  /** The goal computation of `_check_limits`: the current positions plus the requested
      angles, then, for an absolute move, every requested target put in place. */
  method ComputeGoals(d: map<Motor, real>, relMove: bool, regs: Positions) returns (goals: seq<real>)
    ensures goals == Goals(d, relMove, regs)
  {
    var here := JointPositions(regs);
    goals := seq(MOTORS_COUNT, j requires 0 <= j < MOTORS_COUNT => here[j] + Get0(d, j));
    if !relMove {
      for j := 0 to MOTORS_COUNT
        invariant |goals| == MOTORS_COUNT
        invariant forall k :: 0 <= k < MOTORS_COUNT ==> goals[k] == if k < j && k in d then d[k] else here[k] + Get0(d, k)
      {
        if j in d {
          goals := goals[j := d[j]];
        }
      }
    }
  }


  /** `_check_limits`: reads the position registers, builds the goals, converts them to
      local angles and checks them. */
  method CheckLimits(chain: Chain, d: map<Motor, real>, relMove: bool) returns (r: Outcome<ArmError>)
    modifies chain
    ensures r == LimitsVerdict(LocalAngles(Goals(d, relMove, chain.positionsAt(old(chain.regReads)))))
    ensures chain.regReads == old(chain.regReads) + 1
    ensures chain.trace == old(chain.trace)
    ensures chain.switchReads == old(chain.switchReads) && chain.waits == old(chain.waits)
  {
    var regs := chain.ReadPositions();
    var goals := ComputeGoals(d, relMove, regs);
    var local := GlobalToLocal(goals);
    r := CheckGoals(local);
  }

  /** A relative move that requests nothing checks the joints where they stand. */
  lemma StillGoals(regs: Positions)
    ensures Goals(map[], true, regs) == JointPositions(regs)
    ensures Goals(map[], false, regs) == JointPositions(regs)
  {
    assert forall j: Motor :: Goals(map[], true, regs)[j] == JointPositions(regs)[j];
    assert forall j: Motor :: Goals(map[], false, regs)[j] == JointPositions(regs)[j];
  }

  /** An absolute move with a target for every joint does not depend on where the joints are. */
  lemma AbsoluteGoalsIgnorePositions(d: map<Motor, real>, regs1: Positions, regs2: Positions)
    requires forall j: Motor :: j in d
    ensures Goals(d, false, regs1) == Goals(d, false, regs2)
  {
    assert forall j: Motor :: Goals(d, false, regs1)[j] == d[j] == Goals(d, false, regs2)[j];
  }

  /** The goal of one joint: its position plus its set point (0 when absent) for a relative
      move, its target for an absolute move that has one. */
  lemma RelativeGoalsAt(d: map<Motor, real>, regs: Positions, j: Motor)
    ensures j !in d ==> Goals(d, true, regs)[j] == StepsToDegrees(j, regs[j])
    ensures j in d ==> Goals(d, true, regs)[j] == StepsToDegrees(j, regs[j]) + d[j]
    ensures j in d ==> Goals(d, false, regs)[j] == d[j]
  {}

  /** The hand rotation and the gripper never stop a move: only the local angles of joints
      base to wrist decide. */
  lemma LimitsIgnoreHandAndGripper(l1: seq<real>, l2: seq<real>)
    requires |l1| == |l2| == MOTORS_COUNT
    requires l1[..HAND_ROT] == l2[..HAND_ROT]
    ensures LimitsVerdict(l1) == LimitsVerdict(l2)
  {
    assert forall j: Motor :: j < HAND_ROT ==> l1[j] == l1[..HAND_ROT][j] == l2[..HAND_ROT][j] == l2[j];
  }

  // ---- the commands of a move ----

  /** The `move` parameters of a relative joint move: forward for a positive angle,
      reverse otherwise, with the step count of the angle. */
  function MoveParams(d: map<Motor, real>): (p: map<Motor, StepMove>)
    ensures p.Keys == d.Keys
    ensures forall m :: m in p ==> (p[m].dir == FWD <==> d[m] > 0.0)
  {
    map m | m in d :: StepMove(if d[m] > 0.0 then FWD else REV, DegreesToSteps(m, d[m]))
  }

  /** The `goto` parameters of an absolute joint move: the step position of each target. */
  function GotoParams(d: map<Motor, real>): (p: map<Motor, int>)
    ensures p.Keys == d.Keys
  {
    map m | m in d :: DegreesToSteps(m, d[m])
  }

  /** The step count of a move agrees with its direction, and converted back it lies less
      than one step short of the requested angle. */
  lemma MoveParamsConsistent(d: map<Motor, real>, m: Motor)
    requires m in d
    ensures var s := MoveParams(d)[m];
      (s.dir == FWD ==> s.steps >= 0) && (s.dir == REV ==> s.steps <= 0) &&
      (d[m] >= 0.0 ==> d[m] - StepDegrees(m) < StepsToDegrees(m, s.steps) <= d[m]) &&
      (d[m] <= 0.0 ==> d[m] <= StepsToDegrees(m, s.steps) < d[m] + StepDegrees(m))
  {
    DegreesToStepsSign(m, d[m]);
    StepsRoundTrip(m, d[m]);
  }

  /** A goto target converted back lies within one step of the requested angle. */
  lemma GotoParamsAccurate(d: map<Motor, real>, m: Motor)
    requires m in d
    ensures var back := StepsToDegrees(m, GotoParams(d)[m]);
      d[m] - StepDegrees(m) < back < d[m] + StepDegrees(m)
  {
    StepsRoundTrip(m, d[m]);
  }

  // ---- joint moves ----

  /** `joints_move`: normalises the angles, couples them if asked (in the caller's
      dictionary), checks the limits of the resulting goals and only then issues the
      single multi-motor move. */
  method JointsMove(chain: Chain, arg: AnglesArg, wait: bool, coupled: bool) returns (r: Outcome<ArmError>)
    modifies chain, if arg.DictArg? then {arg.d} else {}
    ensures arg.Unsupported? ==>
      && r == Fail(AnglesTypeError) && chain.trace == old(chain.trace)
      && chain.regReads == old(chain.regReads) && chain.waits == old(chain.waits)
    ensures !arg.Unsupported? ==>
      var d := Requested(old(ArgAngles(arg)), coupled);
      var verdict := LimitsVerdict(LocalAngles(Goals(d, true, chain.positionsAt(old(chain.regReads)))));
      && (arg.DictArg? ==> arg.d.angles == d)
      && chain.regReads == old(chain.regReads) + 1
      && (verdict.Fail? ==> r == verdict && chain.trace == old(chain.trace) && chain.waits == old(chain.waits))
      && (verdict.Pass? ==> chain.trace == old(chain.trace) + [Move(MoveParams(d))]
                            && r == WaitOutcome(chain.completesAt, old(chain.waits), wait))
    ensures chain.switchReads == old(chain.switchReads)
  {
    var n := NormalizeAngles(arg);
    if n.None? {
      return Fail(AnglesTypeError);
    }
    var angles := n.value;
    if coupled {
      ApplyCoupling(angles);
    }
    r := CheckLimits(chain, angles.angles, true);
    if r.Fail? {
      return;
    }
    r := chain.Perform(Move(MoveParams(angles.angles)), wait);
  }

  /** `joints_goto`: the same as `joints_move` for absolute targets. */
  method JointsGoto(chain: Chain, arg: AnglesArg, wait: bool, coupled: bool) returns (r: Outcome<ArmError>)
    modifies chain, if arg.DictArg? then {arg.d} else {}
    ensures arg.Unsupported? ==>
      && r == Fail(AnglesTypeError) && chain.trace == old(chain.trace)
      && chain.regReads == old(chain.regReads) && chain.waits == old(chain.waits)
    ensures !arg.Unsupported? ==>
      var d := Requested(old(ArgAngles(arg)), coupled);
      var verdict := LimitsVerdict(LocalAngles(Goals(d, false, chain.positionsAt(old(chain.regReads)))));
      && (arg.DictArg? ==> arg.d.angles == d)
      && chain.regReads == old(chain.regReads) + 1
      && (verdict.Fail? ==> r == verdict && chain.trace == old(chain.trace) && chain.waits == old(chain.waits))
      && (verdict.Pass? ==> chain.trace == old(chain.trace) + [GoTo(GotoParams(d))]
                            && r == WaitOutcome(chain.completesAt, old(chain.waits), wait))
    ensures chain.switchReads == old(chain.switchReads)
  {
    var n := NormalizeAngles(arg);
    if n.None? {
      return Fail(AnglesTypeError);
    }
    var angles := n.value;
    if coupled {
      ApplyCoupling(angles);
    }
    r := CheckLimits(chain, angles.angles, false);
    if r.Fail? {
      return;
    }
    r := chain.Perform(GoTo(GotoParams(angles.angles)), wait);
  }

  // ---- hand rotation ----

  /** `rotate_hand`: a relative move of the hand rotation alone, not limit checked. */
  method RotateHand(chain: Chain, angle: real, wait: bool) returns (r: Outcome<ArmError>)
    modifies chain
    ensures chain.trace == old(chain.trace) + [Move(MoveParams(map[HAND_ROT := angle]))]
    ensures r == WaitOutcome(chain.completesAt, old(chain.waits), wait)
    ensures chain.waits == old(chain.waits) + (if wait then 1 else 0)
    ensures chain.switchReads == old(chain.switchReads) && chain.regReads == old(chain.regReads)
  {
    var move := StepMove(if angle > 0.0 then FWD else REV, DegreesToSteps(HAND_ROT, angle));
    assert map[HAND_ROT := move] == MoveParams(map[HAND_ROT := angle]);
    r := chain.Perform(Move(map[HAND_ROT := move]), wait);
  }

  /** `rotate_hand_to`: an absolute move of the hand rotation alone, not limit checked. */
  method RotateHandTo(chain: Chain, angle: real, wait: bool) returns (r: Outcome<ArmError>)
    modifies chain
    ensures chain.trace == old(chain.trace) + [GoTo(GotoParams(map[HAND_ROT := angle]))]
    ensures r == WaitOutcome(chain.completesAt, old(chain.waits), wait)
    ensures chain.waits == old(chain.waits) + (if wait then 1 else 0)
    ensures chain.switchReads == old(chain.switchReads) && chain.regReads == old(chain.regReads)
  {
    assert map[HAND_ROT := DegreesToSteps(HAND_ROT, angle)] == GotoParams(map[HAND_ROT := angle]);
    r := chain.Perform(GoTo(map[HAND_ROT := DegreesToSteps(HAND_ROT, angle)]), wait);
  }

  // ---- gripper ----

  /** The full opening move of the gripper, from closed to open. */
  function OpeningMove(): (c: Command)
    ensures c.Move? && c.moves.Keys == {GRIPPER}
    ensures c.moves[GRIPPER] == StepMove(FWD, GRIPPER_TURNS * SettingsOf(GRIPPER).stepsPerTurn * SettingsOf(GRIPPER).microSteps)
  {
    Move(map[GRIPPER := StepMove(FWD, GripperOpenSteps())])
  }

  /** `open_gripper`: sends the gripper home. */
  method OpenGripper(chain: Chain, wait: bool) returns (r: Outcome<ArmError>)
    modifies chain
    ensures chain.trace == old(chain.trace) + [GoHome(GRIPPER)]
    ensures r == WaitOutcome(chain.completesAt, old(chain.waits), wait)
    ensures chain.waits == old(chain.waits) + (if wait then 1 else 0)
    ensures chain.switchReads == old(chain.switchReads) && chain.regReads == old(chain.regReads)
  {
    r := chain.Perform(GoHome(GRIPPER), wait);
  }

  /** `close_gripper`: does nothing when the gripper switch already reads closed, and
      otherwise runs the gripper in reverse at its closing speed until the switch closes. */
  method CloseGripper(chain: Chain, wait: bool) returns (r: Outcome<ArmError>)
    modifies chain
    ensures chain.switchReads == old(chain.switchReads) + 1
    ensures chain.switchAt(old(chain.switchReads), GRIPPER) ==>
      r == Pass && chain.trace == old(chain.trace) && chain.waits == old(chain.waits)
    ensures !chain.switchAt(old(chain.switchReads), GRIPPER) ==>
      chain.waits == old(chain.waits) + (if wait then 1 else 0)
    ensures !chain.switchAt(old(chain.switchReads), GRIPPER) ==>
      chain.trace == old(chain.trace) + [GoUntil(GRIPPER, REV, GRIPPER_CLOSE_SPEED)]
      && r == WaitOutcome(chain.completesAt, old(chain.waits), wait)
    ensures chain.regReads == old(chain.regReads)
  {
    var closed := chain.SwitchIsClosed(GRIPPER);
    if closed {
      return Pass;
    }
    r := chain.Perform(GoUntil(GRIPPER, REV, GRIPPER_CLOSE_SPEED), wait);
  }

  /** `calibrate_gripper`: closes the gripper (waiting for it), opens it by the full step
      count and resets its position register; a timeout ends the sequence where it occurs. */
  method CalibrateGripper(chain: Chain, wait: bool) returns (r: Outcome<ArmError>)
    modifies chain
    ensures var closing := if chain.switchAt(old(chain.switchReads), GRIPPER) then []
                           else [GoUntil(GRIPPER, REV, GRIPPER_CLOSE_SPEED)];
      var closeFailed := closing != [] && !chain.completesAt(old(chain.waits));
      var w := old(chain.waits) + |closing|;
      && (closeFailed ==> r == Fail(MotionTimeOut) && chain.trace == old(chain.trace) + closing)
      && (!closeFailed ==>
            && r == WaitOutcome(chain.completesAt, w, wait)
            && chain.trace == old(chain.trace) + closing + [OpeningMove()] +
                              (if r.Pass? then [ResetPos(GRIPPER)] else []))
      && chain.waits == w + (if !closeFailed && wait then 1 else 0)
    ensures chain.switchReads == old(chain.switchReads) + 1 && chain.regReads == old(chain.regReads)
  {
    r := CloseGripper(chain, true);
    if r.Fail? {
      return;
    }
    r := chain.Perform(OpeningMove(), wait);
    if r.Fail? {
      return;
    }
    chain.Send(ResetPos(GRIPPER));
  }
}
