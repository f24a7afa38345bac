/**
 * The daisy chain of motor drivers as the arm sees it: a transport that accepts motor
 * commands and answers readings. Every command the arm issues is appended to a trace; the
 * switch states, the position registers and the outcome of every blocking wait are
 * supplied by the environment, one observation after the other.
 */
module DaisyChain {
  import opened Wrappers
  import opened Settings

  datatype Direction = FWD | REV

  /** `Direction.invert` */
  function Invert(d: Direction): (e: Direction)
    ensures e != d
  {
    if d == FWD then REV else FWD
  }

  /** One motor's part of a `move` command: a direction and a step count. */
  datatype StepMove = StepMove(dir: Direction, steps: int)

  /** The CONFIG register fields the arm sets at initialisation: shutdown on over-current
      (the arm disables it) and the switch mode (the arm selects the user mode). */
  datatype Configuration = Configuration(overCurrentShutdown: bool, userSwitchMode: bool)

  /** The commands the arm sends down the chain. */
  datatype Command =
    | ChainInit                              // handshake of the chain (`DaisyChain.initialize`)
    | ApplySettings(table: seq<MotorSettings>)  // step mode, speeds, accelerations, currents of every motor
    | SetConfig(config: Configuration)
    | LowSpeedOpt(on: bool)
    | Run(motor: Motor, dir: Direction, speed: nat)
    | Move(moves: map<Motor, StepMove>)
    | GoTo(targets: map<Motor, int>)
    | GoUntil(motor: Motor, dir: Direction, speed: nat)   // with the COPY action
    | GoHome(motor: Motor)
    | SoftStop(motor: Motor)
    | HardStop(motor: Motor)
    | ResetPos(motor: Motor)
    | ChainShutdown                          // `DaisyChain.shutdown`

  /** What the chain's own initialisation reports: success, a `False` return, or an IOError. */
  datatype Handshake = Accepted | Refused | SpiFailure

  /** The ABS_POS registers of the six motors. */
  type Positions = s: seq<int> | |s| == 6 witness [0, 0, 0, 0, 0, 0]

  /** The errors of the arm layer. */
  datatype SeekPhase = Seeking | AdjustingTo
  datatype ArmError =
    | OutOfBound(motor: Motor, angle: real)   // OutOfBoundError
    | SeekTimeOut(phase: SeekPhase, motor: Motor)  // CommandTimeOut raised by seek_origin
    | MotionTimeOut                           // CommandTimeOut raised by a blocking wait
    | InitializationFailed                    // the chain refused to initialise
    | ConnectionLost                          // YoupiArmError wrapping an IOError
    | IOError                                 // the IOError itself, not wrapped
    | AnglesTypeError                         // TypeError of `_normalize_angles_parameter`

  class Chain {
    /** The commands issued so far, oldest first. */
    var trace: seq<Command>
    /** Switch readings, blocking waits and register readings consumed so far. */
    var switchReads: nat
    var waits: nat
    var regReads: nat

    /** The switch state of a motor at a given reading. */
    const switchAt: (nat, Motor) -> bool
    /** Whether a given blocking wait completes before its timeout. */
    const completesAt: nat -> bool
    /** The position registers at a given reading. */
    const positionsAt: nat -> Positions
    /** What the chain's initialisation reports. */
    const handshake: Handshake

    constructor (switchAt: (nat, Motor) -> bool, completesAt: nat -> bool,
                 positionsAt: nat -> Positions, handshake: Handshake)
      ensures trace == [] && switchReads == 0 && waits == 0 && regReads == 0
      ensures this.switchAt == switchAt && this.completesAt == completesAt
      ensures this.positionsAt == positionsAt && this.handshake == handshake
    {
      trace, switchReads, waits, regReads := [], 0, 0, 0;
      this.switchAt, this.completesAt := switchAt, completesAt;
      this.positionsAt, this.handshake := positionsAt, handshake;
    }

    /** Sends a command that needs no waiting. */
    method Send(c: Command)
      modifies this
      ensures trace == old(trace) + [c]
      ensures switchReads == old(switchReads) && waits == old(waits) && regReads == old(regReads)
    {
      trace := trace + [c];
    }

    /** Sends a motion command and, when `wait` is set, blocks until the chain is no longer
        busy or the timeout elapses (CommandTimeOut). */
    method Perform(c: Command, wait: bool) returns (r: Outcome<ArmError>)
      modifies this
      ensures trace == old(trace) + [c]
      ensures r == WaitOutcome(completesAt, old(waits), wait)
      ensures waits == old(waits) + (if wait then 1 else 0)
      ensures switchReads == old(switchReads) && regReads == old(regReads)
    {
      trace := trace + [c];
      r := Pass;
      if wait {
        if !completesAt(waits) {
          r := Fail(MotionTimeOut);
        }
        waits := waits + 1;
      }
    }

    /** `switch_is_closed[motor]` */
    method SwitchIsClosed(m: Motor) returns (closed: bool)
      modifies this
      ensures closed == switchAt(old(switchReads), m)
      ensures switchReads == old(switchReads) + 1
      ensures trace == old(trace) && waits == old(waits) && regReads == old(regReads)
    {
      closed := switchAt(switchReads, m);
      switchReads := switchReads + 1;
    }

    /** `read_register(Register.ABS_POS)` */
    method ReadPositions() returns (p: Positions)
      modifies this
      ensures p == positionsAt(old(regReads))
      ensures regReads == old(regReads) + 1
      ensures trace == old(trace) && switchReads == old(switchReads) && waits == old(waits)
    {
      p := positionsAt(regReads);
      regReads := regReads + 1;
    }

    /** `DaisyChain.initialize`: the handshake, recorded in the trace. */
    method Initialize() returns (h: Handshake)
      modifies this
      ensures h == handshake
      ensures trace == old(trace) + [ChainInit]
      ensures switchReads == old(switchReads) && waits == old(waits) && regReads == old(regReads)
    {
      trace := trace + [ChainInit];
      h := handshake;
    }
  }

  /** The outcome of a command: without waiting it is accepted at once; with waiting it
      fails with a timeout when the wait does not complete. */
  function WaitOutcome(completesAt: nat -> bool, w: nat, wait: bool): (r: Outcome<ArmError>)
    ensures r.Fail? <==> wait && !completesAt(w)
    ensures r.Fail? ==> r.error == MotionTimeOut
  {
    if wait && !completesAt(w) then Fail(MotionTimeOut) else Pass
  }
}
