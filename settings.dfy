/**
 * The per-joint motor settings table of the arm (class MotorSettings and its six
 * subclasses) and the conversion between joint degrees and motor steps.
 *
 * The source computes with Python floats; the model uses exact `real` arithmetic,
 * keeping the truncation toward zero done by `int(...)`.
 */
module Settings {
  import opened Wrappers

  /** Motor (and joint) identifiers, in daisy chain order. */
  type Motor = m: int | 0 <= m < 6

  const BASE: Motor := 0
  const SHOULDER: Motor := 1
  const ELBOW: Motor := 2
  const WRIST: Motor := 3
  const HAND_ROT: Motor := 4
  const GRIPPER: Motor := 5
  const MOTORS_COUNT: nat := 6

  /** The motors in index order (`MOTORS_ALL`). */
  const MOTORS_ALL: seq<Motor> := [BASE, SHOULDER, ELBOW, WRIST, HAND_ROT, GRIPPER]

  /** The settings attributes of one motor. The register encoding of the speed and
      current settings belongs to the daisy chain layer; here they are kept raw. */
  datatype MotorSettings = MotorSettings(
    stepsPerTurn: nat,
    gearRatio: nat,
    minPosDeg: Option<int>,
    maxPosDeg: Option<int>,
    microSteps: nat,
    maxSpeed: nat,
    minSpeed: nat,
    fsSpd: nat,
    acc: nat,
    dec: nat,
    kvalRun: nat,
    kvalAcc: nat,
    kvalDec: nat,
    kvalHold: nat
  )

  /** The class attributes of MotorSettings, used by every motor unless overridden. */
  const DEFAULTS: MotorSettings := MotorSettings(
    stepsPerTurn := 200, gearRatio := 32, minPosDeg := None, maxPosDeg := None,
    microSteps := 128, maxSpeed := 750, minSpeed := 100, fsSpd := 200,
    acc := 0x7f, dec := 0x7f, kvalRun := 0x7f, kvalAcc := 0x7f, kvalDec := 0x7f, kvalHold := 0x0f)

  /** Gripper specific attributes. */
  const GRIPPER_TURNS: nat := 28
  const GRIPPER_CLOSE_SPEED: nat := 800

  /** The gripper settings as the subclass declares them: its `fs_speed = max_speed / 2`
      does not override the `fs_spd` attribute, so the inherited 200 remains in force. */
  const GRIPPER_AS_WRITTEN: MotorSettings :=
    DEFAULTS.(gearRatio := 1, microSteps := 1, maxSpeed := 2000,
              kvalHold := 0, kvalAcc := 0xff, kvalDec := 0x4f, kvalRun := 0xff,
              acc := 0x7ff, dec := 0xfff)

  /** The gripper settings with the full/micro step threshold at half the maximum speed,
      as the subclass evidently intends. */
  const GRIPPER_SETTINGS: MotorSettings := GRIPPER_AS_WRITTEN.(fsSpd := GRIPPER_AS_WRITTEN.maxSpeed / 2)

  /** The `settings` table of the arm, indexed by motor. */
  function SettingsOf(m: Motor): (s: MotorSettings)
    ensures s.stepsPerTurn > 0 && s.gearRatio > 0 && s.microSteps > 0
    ensures s.minPosDeg.Some? <==> s.maxPosDeg.Some?
    ensures s.minPosDeg.Some? ==> s.minPosDeg.value <= s.maxPosDeg.value
    ensures m != GRIPPER <==> s.minPosDeg.Some?
    ensures s.minSpeed < s.maxSpeed
    ensures m == GRIPPER ==> s.fsSpd == s.maxSpeed / 2
  {
    match m
    case 0 => DEFAULTS.(gearRatio := 27, minPosDeg := Some(-180), maxPosDeg := Some(175), maxSpeed := 600)
    case 1 => DEFAULTS.(maxSpeed := 500, minPosDeg := Some(-75), maxPosDeg := Some(115))
    case 2 => DEFAULTS.(maxSpeed := 500, minPosDeg := Some(-85), maxPosDeg := Some(125))
    case 3 => DEFAULTS.(maxSpeed := 600, minPosDeg := Some(-90), maxPosDeg := Some(115))
    case 4 => DEFAULTS.(maxSpeed := 800, minPosDeg := Some(-180), maxPosDeg := Some(180))
    case 5 => GRIPPER_SETTINGS
  }

  /** The number of steps the gripper motor makes from fully closed to fully open (`open_steps`). */
  function GripperOpenSteps(): (n: nat)
    ensures n == GRIPPER_TURNS * SettingsOf(GRIPPER).stepsPerTurn * SettingsOf(GRIPPER).microSteps
    ensures n == 5600
  {
    var s := SettingsOf(GRIPPER);
    GRIPPER_TURNS * s.stepsPerTurn * s.microSteps
  }

  /** Motor steps per full turn of the joint: micro-stepping times steps per turn times gear ratio. */
  function StepsPerJointTurn(m: Motor): (k: nat)
    ensures k > 0
  {
    var s := SettingsOf(m);
    s.microSteps * s.stepsPerTurn * s.gearRatio
  }

  /** Python's `int(x)` on a float: truncation toward zero. */
  function Trunc(x: real): (n: int)
    ensures x >= 0.0 ==> 0.0 <= n as real <= x < n as real + 1.0
    ensures x <= 0.0 ==> n as real - 1.0 < x <= n as real <= 0.0
  {
    if x >= 0.0 then x.Floor else -((-x).Floor)
  }

  /** `degrees_to_steps`: joint degrees to motor steps, truncated toward zero. */
  function DegreesToSteps(m: Motor, deg: real): int
  {
    var s := SettingsOf(m);
    Trunc(deg * s.microSteps as real * s.stepsPerTurn as real * s.gearRatio as real / 360.0)
  }

  /** `steps_to_degrees`: motor steps to joint degrees. */
  function StepsToDegrees(m: Motor, steps: int): real
  {
    var s := SettingsOf(m);
    steps as real * 360.0 / s.microSteps as real / s.stepsPerTurn as real / s.gearRatio as real
  }

  /** The angle of one motor step, in joint degrees. */
  function StepDegrees(m: Motor): (d: real)
    ensures d > 0.0
  {
    360.0 / StepsPerJointTurn(m) as real
  }

  /** Both conversions scale by the same factor: degrees times the steps per degree. */
  lemma ConversionFactors(m: Motor, deg: real, steps: int)
    ensures DegreesToSteps(m, deg) == Trunc(deg * StepsPerJointTurn(m) as real / 360.0)
    ensures StepsToDegrees(m, steps) == steps as real * StepDegrees(m)
  {
    // with the settings of one motor the factors are constants and the arithmetic is linear
    if m == BASE {
      assert StepsPerJointTurn(m) == 691200;
    } else if m == GRIPPER {
      assert StepsPerJointTurn(m) == 200;
    } else {
      assert StepsPerJointTurn(m) == 819200;
    }
  }

  lemma TruncOdd(x: real)
    ensures Trunc(-x) == -Trunc(x)
  {}

  /** Conversion is odd-symmetric: reversing the angle reverses the step count, and 0 gives 0. */
  lemma DegreesToStepsOdd(m: Motor, deg: real)
    ensures DegreesToSteps(m, -deg) == -DegreesToSteps(m, deg)
    ensures DegreesToSteps(m, 0.0) == 0
  {
    var k := StepsPerJointTurn(m) as real;
    ConversionFactors(m, deg, 0);
    ConversionFactors(m, -deg, 0);
    assert -deg * k / 360.0 == -(deg * k / 360.0);
    TruncOdd(deg * k / 360.0);
    ConversionFactors(m, 0.0, 0);
  }

  /** The sign of the step count follows the sign of the angle. */
  lemma DegreesToStepsSign(m: Motor, deg: real)
    ensures deg >= 0.0 ==> DegreesToSteps(m, deg) >= 0
    ensures deg <= 0.0 ==> DegreesToSteps(m, deg) <= 0
  {
    var k := StepsPerJointTurn(m) as real;
    ConversionFactors(m, deg, 0);
    assert deg >= 0.0 ==> deg * k / 360.0 >= 0.0;
    assert deg <= 0.0 ==> deg * k / 360.0 <= 0.0;
  }

  /** Converting degrees to steps and back loses less than one step, toward zero. */
  lemma StepsRoundTrip(m: Motor, deg: real)
    ensures var back := StepsToDegrees(m, DegreesToSteps(m, deg));
      (deg >= 0.0 ==> deg - StepDegrees(m) < back <= deg) &&
      (deg <= 0.0 ==> deg <= back < deg + StepDegrees(m))
  {
    var n := DegreesToSteps(m, deg);
    ConversionFactors(m, deg, n);
    if m == BASE {
      assert StepsPerJointTurn(m) == 691200;
    } else if m == GRIPPER {
      assert StepsPerJointTurn(m) == 200;
    } else {
      assert StepsPerJointTurn(m) == 819200;
    }
  }

  /** Converting a whole number of steps to degrees and back is exact. */
  lemma DegreesRoundTrip(m: Motor, steps: int)
    ensures DegreesToSteps(m, StepsToDegrees(m, steps)) == steps
  {
    var k := StepsPerJointTurn(m) as real;
    var deg := StepsToDegrees(m, steps);
    ConversionFactors(m, deg, steps);
    assert StepDegrees(m) * k == 360.0;
    assert deg * k / 360.0 == steps as real;
  }

  /** The base motor makes exactly 1920 steps per joint degree. */
  lemma BaseStepsPerDegree(deg: int)
    ensures DegreesToSteps(BASE, deg as real) == 1920 * deg
    ensures StepsToDegrees(BASE, 1920 * deg) == deg as real
  {
    ConversionFactors(BASE, deg as real, 1920 * deg);
    assert StepsPerJointTurn(BASE) == 691200;
  }

  /** Joint position limits as a predicate: bounded joints must lie within [min, max];
      an unbounded joint accepts any angle. */
  predicate WithinLimits(m: Motor, angle: real)
  {
    var s := SettingsOf(m);
    (s.minPosDeg.Some? ==> s.minPosDeg.value as real <= angle) &&
    (s.maxPosDeg.Some? ==> angle <= s.maxPosDeg.value as real)
  }

  /** The gripper subclass as written leaves the full-step threshold at the inherited 200
      although it computes half its maximum speed, 1000, under another name; the table
      used by the model applies the intended value. */
  lemma GripperFullStepThreshold()
    ensures GRIPPER_AS_WRITTEN.fsSpd == 200
    ensures GRIPPER_AS_WRITTEN.fsSpd != GRIPPER_AS_WRITTEN.maxSpeed / 2
    ensures SettingsOf(GRIPPER).fsSpd == SettingsOf(GRIPPER).maxSpeed / 2 == 1000
    ensures SettingsOf(GRIPPER) == GRIPPER_AS_WRITTEN.(fsSpd := 1000)
  {}
}
