/**
 * The arm (class `YoupiArm`): a daisy chain of six motors with its settings, its
 * initialisation and shutdown, and the homing of its joints with timeouts. A timeout of
 * `t` seconds allows about `10 * t` sleeps of the polling loops (`budget`).
 */
module Arm {
  import opened Wrappers
  import opened Settings
  import opened DaisyChain
  import opened Motion
  import opened Homing

  /** The settings of the six motors, in chain order. */
  function SettingsTable(): (t: seq<MotorSettings>)
    ensures |t| == MOTORS_COUNT
    ensures forall m: Motor :: t[m] == SettingsOf(m)
  {
    seq(MOTORS_COUNT, m requires 0 <= m < MOTORS_COUNT => SettingsOf(m))
  }

  /** What the arm pushes to the chain once the chain is initialised: the settings of every
      motor, the configuration (no shutdown on over-current, user switch mode) and the
      low speed optimisation. */
  function SetupCommands(): (s: seq<Command>)
    ensures |s| == 3 && s[0].ApplySettings? && |s[0].table| == MOTORS_COUNT
    ensures forall m: Motor :: s[0].table[m] == SettingsOf(m)
    ensures s[1] == SetConfig(Configuration(false, true)) && s[2] == LowSpeedOpt(true)
  {
    [ApplySettings(SettingsTable()), SetConfig(Configuration(false, true)), LowSpeedOpt(true)]
  }

  /** The polling loop of a homing phase: reads the switch until it shows `until`, sleeping
      between readings, and gives up when the budget of sleeps is spent. */
  method PollSwitch(chain: Chain, m: Motor, until: bool, budget: nat) returns (found: bool)
    modifies chain
    ensures var p := PollFor(chain.switchAt, m, old(chain.switchReads), until, budget);
      found == p.found && chain.switchReads == old(chain.switchReads) + p.readings
    ensures chain.trace == old(chain.trace) && chain.waits == old(chain.waits) && chain.regReads == old(chain.regReads)
  {
    ghost var at := chain.switchReads;
    var slept: nat := 0;
    while true
      invariant slept <= budget
      invariant chain.switchReads == at + slept
      invariant chain.trace == old(chain.trace) && chain.waits == old(chain.waits) && chain.regReads == old(chain.regReads)
      invariant var p, q := PollFor(chain.switchAt, m, at, until, budget), PollFor(chain.switchAt, m, at + slept, until, budget - slept);
        p.found == q.found && p.readings == q.readings + slept
      decreases budget - slept
    {
      var closed := chain.SwitchIsClosed(m);
      if closed == until {
        return true;
      }
      if slept >= budget {
        return false;
      }
      slept := slept + 1;
    }
  }

  class YoupiArm {
    /** The daisy chain the arm is made of. */
    const chain: Chain
    /** Set by a successful initialisation; nothing else in the class reads or clears it
        (callers such as the local demo check it before offering a motion). */
    var ready: bool

    constructor (chain: Chain)
      ensures this.chain == chain && !ready
    {
      this.chain := chain;
      ready := false;
    }

    /** `initialize`: initialises the chain, then pushes the settings and the configuration
        and becomes ready. A refusal or an IOError of the chain is a YoupiArmError, and the
        arm stays as it was. */
    method Initialize() returns (r: Outcome<ArmError>)
      modifies this, chain
      ensures chain.handshake == Accepted ==>
        r == Pass && ready && chain.trace == old(chain.trace) + [ChainInit] + SetupCommands()
      ensures chain.handshake == Refused ==>
        r == Fail(InitializationFailed) && ready == old(ready) && chain.trace == old(chain.trace) + [ChainInit]
      ensures chain.handshake == SpiFailure ==>
        r == Fail(ConnectionLost) && ready == old(ready) && chain.trace == old(chain.trace) + [ChainInit]
      ensures chain.switchReads == old(chain.switchReads) && chain.waits == old(chain.waits)
      ensures chain.regReads == old(chain.regReads)
    {
      var h := chain.Initialize();
      if h == SpiFailure {
        return Fail(ConnectionLost);
      }
      if h == Refused {
        return Fail(InitializationFailed);
      }
      chain.Send(ApplySettings(SettingsTable()));
      chain.Send(SetConfig(Configuration(false, true)));
      chain.Send(LowSpeedOpt(true));
      ready := true;
      r := Pass;
    }

    /** `shutdown`: unless in emergency, opens the gripper first, a timeout of the opening
        being only logged; then shuts the chain down. */
    method Shutdown(emergency: bool)
      modifies chain
      ensures chain.trace == old(chain.trace) + (if emergency then [] else [GoHome(GRIPPER)]) + [ChainShutdown]
      ensures chain.waits == old(chain.waits) + (if emergency then 0 else 1)
      ensures chain.switchReads == old(chain.switchReads) && chain.regReads == old(chain.regReads)
    {
      if !emergency {
        var opening := OpenGripper(chain, true);
        // a CommandTimeOut of the opening is caught and logged
      }
      chain.Send(ChainShutdown);
    }

    /** `seek_origin`, as `SeekOriginRun` describes it. */
    method SeekOrigin(m: Motor, budget: nat) returns (r: Outcome<ArmError>, ghost run: SeekRun)
      modifies chain
      ensures run == SeekOriginRun(chain.switchAt, m, old(chain.switchReads), budget)
      ensures r == run.outcome
      ensures chain.trace == old(chain.trace) + run.commands
      ensures chain.switchReads == old(chain.switchReads) + run.readings
      ensures chain.waits == old(chain.waits) && chain.regReads == old(chain.regReads)
    {
      run := SeekOriginRun(chain.switchAt, m, chain.switchReads, budget);
      if m == GRIPPER {
        return Pass, run;
      }
      var initial := chain.SwitchIsClosed(m);
      var direction := SeekDirection(initial);
      chain.Send(Run(m, direction, SettingsOf(m).maxSpeed));
      var found := PollSwitch(chain, m, !initial, budget);
      chain.Send(SoftStop(m));
      if !found {
        return Fail(SeekTimeOut(Seeking, m)), run;
      }
      chain.Send(Run(m, Invert(direction), SettingsOf(m).minSpeed));
      found := PollSwitch(chain, m, initial, budget);
      chain.Send(HardStop(m));
      if !found {
        return Fail(SeekTimeOut(AdjustingTo, m)), run;
      }
      chain.Send(ResetPos(m));
      r := Pass;
    }

    /** `seek_origins`: homes the joints in the given order (all of them when none is
        given), stopping at the first timeout. */
    method SeekOrigins(joints: seq<Motor>, budget: nat) returns (r: Outcome<ArmError>)
      modifies chain
      ensures var run := SeekAllRun(chain.switchAt, JointSequence(joints), old(chain.switchReads), budget);
        && r == run.outcome
        && chain.trace == old(chain.trace) + run.commands
        && chain.switchReads == old(chain.switchReads) + run.readings
      ensures chain.waits == old(chain.waits) && chain.regReads == old(chain.regReads)
    {
      r := HomeJoints(JointSequence(joints), budget);
    }

    /** The loop of `seek_origins` over the joints to home. */
    method HomeJoints(js: seq<Motor>, budget: nat) returns (r: Outcome<ArmError>)
      modifies chain
      ensures var run := SeekAllRun(chain.switchAt, js, old(chain.switchReads), budget);
        && r == run.outcome
        && chain.trace == old(chain.trace) + run.commands
        && chain.switchReads == old(chain.switchReads) + run.readings
      ensures chain.waits == old(chain.waits) && chain.regReads == old(chain.regReads)
    {
      ghost var sw := chain.switchAt;
      ghost var at := chain.switchReads;
      ghost var t0 := chain.trace;
      ghost var done := SeekRun([], 0, Pass);
      var i := 0;
      r := Pass;
      while i < |js|
        invariant i <= |js| && r == Pass
        invariant done == SeekAllUpTo(sw, js, i, at, budget)
        invariant done.outcome.Pass?
        invariant chain.trace == t0 + done.commands
        invariant chain.switchReads == at + done.readings
        invariant chain.waits == old(chain.waits) && chain.regReads == old(chain.regReads)
      {
        ghost var last;
        r, last := SeekOrigin(js[i], budget);
        SeekAllAfter(sw, js, i, at, budget, last);
        AppendAssoc(t0, done.commands, last.commands);
        done := SeekRun(done.commands + last.commands, done.readings + last.readings, last.outcome);
        if r.Fail? {
          return;
        }
        i := i + 1;
      }
    }

    /** `get_joint_positions`: the joint angles of the position registers. */
    method GetJointPositions() returns (positions: seq<real>)
      modifies chain
      ensures positions == JointPositions(chain.positionsAt(old(chain.regReads)))
      ensures forall m: Motor :: DegreesToSteps(m, positions[m]) == chain.positionsAt(old(chain.regReads))[m]
      ensures chain.regReads == old(chain.regReads) + 1
      ensures chain.trace == old(chain.trace) && chain.switchReads == old(chain.switchReads)
      ensures chain.waits == old(chain.waits)
    {
      var regs := chain.ReadPositions();
      positions := seq(MOTORS_COUNT, m requires 0 <= m < MOTORS_COUNT => StepsToDegrees(m, regs[m]));
      forall m: Motor ensures DegreesToSteps(m, positions[m]) == regs[m] {
        DegreesRoundTrip(m, regs[m]);
      }
    }
  }
}
