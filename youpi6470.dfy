/**
 * The earlier arm class `Youpi`: the same chain, settings, motions and gripper handling
 * as `YoupiArm`, but homing polls its switches without any timeout, a timeout of the
 * gripper opening at shutdown is not caught, and an IOError of the chain initialisation
 * is not wrapped.
 */
module Youpi6470 {
  import opened Wrappers
  import opened Settings
  import opened DaisyChain
  import opened Motion
  import opened Homing
  import Arm

  /** The switch of motor `m` changes state again after any reading. */
  ghost predicate Toggles(sw: (nat, Motor) -> bool, m: Motor)
  {
    forall n: nat :: ChangesAfter(sw, m, n)
  }

  /** Some reading after reading `n` differs from it. */
  ghost predicate ChangesAfter(sw: (nat, Motor) -> bool, m: Motor, n: nat)
  {
    exists k: nat :: n < k && sw(k, m) != sw(n, m)
  }

  /** Readings `from` to `to` (excluded) of the switch of motor `m` all show `state`: the
      readings before the last one do, and so does the last one. */
  ghost predicate ReadsOnly(sw: (nat, Motor) -> bool, m: Motor, from: nat, to: int, state: bool)
    decreases to - from
  {
    to <= from || (ReadsOnly(sw, m, from, to - 1, state) && sw(to - 1, m) == state)
  }

  /** `ReadsOnly` reads every reading of the range. */
  lemma {:induction false} ReadsOnlyAll(sw: (nat, Motor) -> bool, m: Motor, from: nat, to: int, state: bool)
    ensures ReadsOnly(sw, m, from, to, state) <==> (forall k :: from <= k < to ==> sw(k, m) == state)
    decreases if to > from then to - from else 0
  {
    if to > from {
      ReadsOnlyAll(sw, m, from, to - 1, state);
    }
  }

  /** After the initial reading `at`, the switch of motor `m` differs from its initial state
      at some reading `w1` and is back in it at some later reading `w2`: exactly what the two polling loops
      of a homing with no timeout need to end. */
  ghost predicate HomingEnds(sw: (nat, Motor) -> bool, m: Motor, at: nat)
  {
    exists w1: nat, w2: nat :: at < w1 < w2 && sw(w1, m) != sw(at, m) && sw(w2, m) == sw(at, m)
  }

  /** What the two polling loops of a homing read, the initial reading being `at`: the first
      one stopped at reading `seekEnd - 1`, the first to differ from the initial state; the
      second one stopped at reading `end - 1`, the first after it back in the initial state. */
  ghost predicate AwaitedBoth(sw: (nat, Motor) -> bool, m: Motor, at: nat, seekEnd: nat, end: nat)
  {
    && at + 1 < seekEnd < end
    && ReadsOnly(sw, m, at + 1, seekEnd - 1, sw(at, m)) && sw(seekEnd - 1, m) != sw(at, m)
    && ReadsOnly(sw, m, seekEnd, end - 1, !sw(at, m)) && sw(end - 1, m) == sw(at, m)
  }

  /** A polling loop with no timeout: reads the switch until it shows `until`, which it
      does at reading `w` at the latest. It ends at the first such reading. */
  method AwaitSwitch(chain: Chain, m: Motor, until: bool, ghost w: nat)
    requires chain.switchReads <= w && chain.switchAt(w, m) == until
    modifies chain
    ensures old(chain.switchReads) < chain.switchReads <= w + 1
    ensures chain.switchAt(chain.switchReads - 1, m) == until
    ensures ReadsOnly(chain.switchAt, m, old(chain.switchReads), chain.switchReads - 1, !until)
    ensures chain.trace == old(chain.trace) && chain.waits == old(chain.waits) && chain.regReads == old(chain.regReads)
  {
    var closed := chain.SwitchIsClosed(m);
    while closed != until
      invariant old(chain.switchReads) < chain.switchReads <= w + 1
      invariant closed == chain.switchAt(chain.switchReads - 1, m)
      invariant ReadsOnly(chain.switchAt, m, old(chain.switchReads), chain.switchReads - 1, !until)
      invariant chain.trace == old(chain.trace) && chain.waits == old(chain.waits) && chain.regReads == old(chain.regReads)
      decreases w + 1 - chain.switchReads
    {
      closed := chain.SwitchIsClosed(m);
    }
  }

  /** The readings of the two polling loops with no timeout make the run of a complete
      homing with a budget as large as the readings made. */
  lemma AwaitedHoming(sw: (nat, Motor) -> bool, m: Motor, at: nat, seekEnd: nat, end: nat)
    requires m != GRIPPER && AwaitedBoth(sw, m, at, seekEnd, end)
    ensures SeekOriginRun(sw, m, at, end - at) == SeekRun(FullHoming(m, sw(at, m)), end - at, Pass)
  {
    ReadsOnlyAll(sw, m, at + 1, seekEnd - 1, sw(at, m));
    ReadsOnlyAll(sw, m, seekEnd, end - 1, !sw(at, m));
    SeekOriginSucceeds(sw, m, at, end - at, seekEnd - at - 2, end - seekEnd - 1);
  }

  /** When the homing completes within a timeout, the homing with no timeout does the same:
      the full homing, with the same readings. */
  lemma UntimedHomingIsTimed(sw: (nat, Motor) -> bool, m: Motor, at: nat, budget: nat, seekEnd: nat, end: nat)
    requires m != GRIPPER && SeekOriginRun(sw, m, at, budget).outcome.Pass?
    requires AwaitedBoth(sw, m, at, seekEnd, end)
    ensures SeekOriginRun(sw, m, at, budget) == SeekRun(FullHoming(m, sw(at, m)), end - at, Pass)
  {
    AwaitedHoming(sw, m, at, seekEnd, end);
    var more := if budget < end - at then end - at else budget;
    SeekOriginMoreBudget(sw, m, at, budget, more);
    SeekOriginMoreBudget(sw, m, at, end - at, more);
  }

  /** A homing that completes within a timeout reads its switch changed, then back. */
  lemma CompletedHomingEnds(sw: (nat, Motor) -> bool, m: Motor, at: nat, budget: nat)
    requires m != GRIPPER && SeekOriginRun(sw, m, at, budget).outcome.Pass?
    ensures HomingEnds(sw, m, at)
  {
    var initial := sw(at, m);
    var seeking := PollFor(sw, m, at + 1, !initial, budget);
    var adjusting := PollFor(sw, m, at + 1 + seeking.readings, initial, budget);
    assert SeekOriginRun(sw, m, at, budget) == SeekPhases(m, initial, seeking, adjusting);
    PollForSpec(sw, m, at + 1, !initial, budget);
    PollForSpec(sw, m, at + 1 + seeking.readings, initial, budget);
    var w1 := at + seeking.readings;
    var w2 := w1 + adjusting.readings;
    assert at < w1 < w2 && sw(w1, m) != sw(at, m) && sw(w2, m) == sw(at, m);
  }

  /** A polling loop whose awaited state shows at reading `w` finds it within the budget
      that reaches `w`, at `w` at the latest. */
  lemma PollWithin(sw: (nat, Motor) -> bool, m: Motor, from: nat, until: bool, w: nat)
    requires from <= w && sw(w, m) == until
    ensures var p := PollFor(sw, m, from, until, w - from); p.found && from + p.readings <= w + 1
  {
    PollForSpec(sw, m, from, until, w - from);
  }

  /** A homing whose two polling loops both find what they wait for completes. */
  lemma BothPollsFound(sw: (nat, Motor) -> bool, m: Motor, at: nat, budget: nat)
    requires m != GRIPPER
    requires var seeking := PollFor(sw, m, at + 1, !sw(at, m), budget);
      seeking.found && PollFor(sw, m, at + 1 + seeking.readings, sw(at, m), budget).found
    ensures SeekOriginRun(sw, m, at, budget).outcome.Pass?
  {
  }

  /** A switch that leaves its initial state and comes back lets the homing complete within
      some timeout. */
  lemma HomingEndsCompletes(sw: (nat, Motor) -> bool, m: Motor, at: nat)
    requires m != GRIPPER && HomingEnds(sw, m, at)
    ensures exists budget: nat :: SeekOriginRun(sw, m, at, budget).outcome.Pass?
  {
    var initial := sw(at, m);
    var w1: nat, w2: nat :| at < w1 < w2 && sw(w1, m) != initial && sw(w2, m) == initial;
    var b1 := w1 - (at + 1);
    PollWithin(sw, m, at + 1, !initial, w1);
    var back := at + 1 + PollFor(sw, m, at + 1, !initial, b1).readings;
    var b2 := w2 - back;
    PollWithin(sw, m, back, initial, w2);
    var budget := if b1 < b2 then b2 else b1;
    PollForMoreBudget(sw, m, at + 1, !initial, b1, budget);
    PollForMoreBudget(sw, m, back, initial, b2, budget);
    BothPollsFound(sw, m, at, budget);
  }

  /** A switch that keeps changing lets the polling loops of a homing end. */
  lemma TogglingSwitchHomes(sw: (nat, Motor) -> bool, m: Motor, at: nat)
    requires Toggles(sw, m)
    ensures HomingEnds(sw, m, at)
  {
    assert ChangesAfter(sw, m, at);
    var w1: nat :| at < w1 && sw(w1, m) != sw(at, m);
    assert ChangesAfter(sw, m, w1);
    var w2: nat :| w1 < w2 && sw(w2, m) != sw(w1, m);
    assert at < w1 < w2 && sw(w1, m) != sw(at, m) && sw(w2, m) == sw(at, m);
  }

  /** Before homing joint `js[i]` in a sequence that completes within `budget`: the homing
      of that joint completes too. */
  lemma NextJointCompletes(sw: (nat, Motor) -> bool, js: seq<Motor>, i: nat, at: nat, budget: nat)
    requires i < |js| && SeekAllRun(sw, js, at, budget).outcome.Pass?
    requires SeekAllUpTo(sw, js, i, at, budget).outcome.Pass?
    ensures SeekOriginRun(sw, js[i], at + SeekAllUpTo(sw, js, i, at, budget).readings, budget).outcome.Pass?
  {
    var last := SeekOriginRun(sw, js[i], at + SeekAllUpTo(sw, js, i, at, budget).readings, budget);
    SeekAllAfter(sw, js, i, at, budget, last);
  }

  /** Before homing joint `js[i]` in a sequence that completes within `budget`: the joint
      is not the gripper only if its switch leaves its initial state and comes back. */
  lemma NextJointHomes(sw: (nat, Motor) -> bool, js: seq<Motor>, i: nat, at: nat, budget: nat)
    requires i < |js| && SeekAllRun(sw, js, at, budget).outcome.Pass?
    requires SeekAllUpTo(sw, js, i, at, budget).outcome.Pass?
    ensures js[i] != GRIPPER ==> HomingEnds(sw, js[i], at + SeekAllUpTo(sw, js, i, at, budget).readings)
  {
    NextJointCompletes(sw, js, i, at, budget);
    if js[i] != GRIPPER {
      CompletedHomingEnds(sw, js[i], at + SeekAllUpTo(sw, js, i, at, budget).readings, budget);
    }
  }

  /** Homing joint `js[i]` with no timeout, from reading `from` where the joints before it
      stopped, extends the run of the sequence by exactly what its homing did. */
  lemma NextJointHomed(sw: (nat, Motor) -> bool, js: seq<Motor>, i: nat, at: nat, budget: nat,
                       t0: seq<Command>, t1: seq<Command>, t2: seq<Command>, from: nat, seekEnd: nat, end: nat)
    requires i < |js| && SeekAllRun(sw, js, at, budget).outcome.Pass?
    requires SeekAllUpTo(sw, js, i, at, budget).outcome.Pass?
    requires t1 == t0 + SeekAllUpTo(sw, js, i, at, budget).commands
    requires from == at + SeekAllUpTo(sw, js, i, at, budget).readings
    requires js[i] == GRIPPER ==> t2 == t1 && end == from
    requires js[i] != GRIPPER ==> t2 == t1 + FullHoming(js[i], sw(from, js[i])) && AwaitedBoth(sw, js[i], from, seekEnd, end)
    ensures var after := SeekAllUpTo(sw, js, i + 1, at, budget);
      after.outcome.Pass? && t2 == t0 + after.commands && end == at + after.readings
  {
    var before := SeekAllUpTo(sw, js, i, at, budget);
    var last := SeekOriginRun(sw, js[i], from, budget);
    NextJointCompletes(sw, js, i, at, budget);
    UntimedJointIsTimed(sw, js[i], from, budget, seekEnd, end);
    SeekAllAfter(sw, js, i, at, budget, last);
    AppendAssoc(t0, before.commands, last.commands);
  }

  /** A joint homed with no timeout, its homing completing within `budget` too: the
      gripper does nothing, any other joint its full homing with the readings it made. */
  lemma UntimedJointIsTimed(sw: (nat, Motor) -> bool, m: Motor, from: nat, budget: nat, seekEnd: nat, end: nat)
    requires SeekOriginRun(sw, m, from, budget).outcome.Pass?
    requires m == GRIPPER ==> end == from
    requires m != GRIPPER ==> AwaitedBoth(sw, m, from, seekEnd, end)
    ensures SeekOriginRun(sw, m, from, budget) ==
      SeekRun(if m == GRIPPER then [] else FullHoming(m, sw(from, m)), end - from, Pass)
  {
    if m != GRIPPER {
      UntimedHomingIsTimed(sw, m, from, budget, seekEnd, end);
    }
  }

  /** The homing of a motor other than the gripper with no timeout, the switch differing
      from its initial state at reading `w1` and back in it at reading `w2`. */
  method Home(chain: Chain, m: Motor, ghost w1: nat, ghost w2: nat) returns (ghost seekEnd: nat)
    requires m != GRIPPER && chain.switchReads < w1 < w2
    requires chain.switchAt(w1, m) != chain.switchAt(chain.switchReads, m)
    requires chain.switchAt(w2, m) == chain.switchAt(chain.switchReads, m)
    modifies chain
    ensures chain.trace == old(chain.trace) + FullHoming(m, chain.switchAt(old(chain.switchReads), m))
    ensures AwaitedBoth(chain.switchAt, m, old(chain.switchReads), seekEnd, chain.switchReads)
    ensures chain.waits == old(chain.waits) && chain.regReads == old(chain.regReads)
  {
    ghost var sw := chain.switchAt;
    ghost var at := chain.switchReads;
    var initial := chain.SwitchIsClosed(m);
    var direction := SeekDirection(initial);
    chain.Send(Run(m, direction, SettingsOf(m).maxSpeed));
    AwaitSwitch(chain, m, !initial, w1);
    seekEnd := chain.switchReads;
    assert ReadsOnly(sw, m, at + 1, seekEnd - 1, sw(at, m));
    chain.Send(SoftStop(m));
    chain.Send(Run(m, Invert(direction), SettingsOf(m).minSpeed));
    AwaitSwitch(chain, m, initial, w2);
    assert ReadsOnly(sw, m, seekEnd, chain.switchReads - 1, !sw(at, m));
    chain.Send(HardStop(m));
    chain.Send(ResetPos(m));
  }

  class Youpi {
    /** The daisy chain the arm is made of. */
    const chain: Chain
    /** Set by a successful initialisation; nothing else in the class reads or clears it
        (callers such as the local demo check it before offering a motion). */
    var ready: bool

    constructor (chain: Chain)
      ensures this.chain == chain && !ready
    {
      this.chain := chain;
      ready := false;
    }

    /** `initialize`: as `YoupiArm.Initialize`, except that an IOError of the chain
        propagates as it is. */
    method Initialize() returns (r: Outcome<ArmError>)
      modifies this, chain
      ensures chain.handshake == Accepted ==>
        r == Pass && ready && chain.trace == old(chain.trace) + [ChainInit] + Arm.SetupCommands()
      ensures chain.handshake == Refused ==>
        r == Fail(InitializationFailed) && ready == old(ready) && chain.trace == old(chain.trace) + [ChainInit]
      ensures chain.handshake == SpiFailure ==>
        r == Fail(IOError) && ready == old(ready) && chain.trace == old(chain.trace) + [ChainInit]
      ensures chain.switchReads == old(chain.switchReads) && chain.waits == old(chain.waits)
      ensures chain.regReads == old(chain.regReads)
    {
      var h := chain.Initialize();
      if h == SpiFailure {
        return Fail(IOError);
      }
      if h == Refused {
        return Fail(InitializationFailed);
      }
      chain.Send(ApplySettings(Arm.SettingsTable()));
      chain.Send(SetConfig(Configuration(false, true)));
      chain.Send(LowSpeedOpt(true));
      ready := true;
      r := Pass;
    }

    /** `shutdown`: unless in emergency, opens the gripper first; a timeout of the opening
        propagates and the chain is then not shut down. */
    method Shutdown(emergency: bool) returns (r: Outcome<ArmError>)
      modifies chain
      ensures emergency ==> r == Pass && chain.trace == old(chain.trace) + [ChainShutdown]
      ensures !emergency ==>
        && r == WaitOutcome(chain.completesAt, old(chain.waits), true)
        && chain.trace == old(chain.trace) + [GoHome(GRIPPER)] + (if r.Pass? then [ChainShutdown] else [])
      ensures chain.waits == old(chain.waits) + (if emergency then 0 else 1)
      ensures chain.switchReads == old(chain.switchReads) && chain.regReads == old(chain.regReads)
    {
      r := Pass;
      if !emergency {
        r := OpenGripper(chain, true);
        if r.Fail? {
          return;
        }
      }
      chain.Send(ChainShutdown);
    }

    /** `seek_origin` with no timeout: the gripper is skipped; any other motor does the
        full homing, each polling loop ending at the first reading it waits for. The loops
        end when the switch leaves its initial state and comes back (`HomingEnds`). */
    method SeekOrigin(m: Motor) returns (ghost seekEnd: nat)
      requires m != GRIPPER ==> HomingEnds(chain.switchAt, m, chain.switchReads)
      modifies chain
      ensures m == GRIPPER ==> chain.trace == old(chain.trace) && chain.switchReads == old(chain.switchReads)
      ensures m != GRIPPER ==>
        && chain.trace == old(chain.trace) + FullHoming(m, chain.switchAt(old(chain.switchReads), m))
        && AwaitedBoth(chain.switchAt, m, old(chain.switchReads), seekEnd, chain.switchReads)
      ensures chain.waits == old(chain.waits) && chain.regReads == old(chain.regReads)
    {
      if m == GRIPPER {
        return 0;
      }
      ghost var at := chain.switchReads;
      ghost var w1: nat, w2: nat :| at < w1 < w2 && chain.switchAt(w1, m) != chain.switchAt(at, m) && chain.switchAt(w2, m) == chain.switchAt(at, m);
      seekEnd := Home(chain, m, w1, w2);
    }

    /** `seek_origins` with no timeout: when the sequence completes within some timeout,
        every joint of the sequence is homed in turn, as `SeekAllRun` describes. */
    method SeekOrigins(joints: seq<Motor>, ghost budget: nat)
      requires SeekAllRun(chain.switchAt, JointSequence(joints), chain.switchReads, budget).outcome.Pass?
      modifies chain
      ensures var run := SeekAllRun(chain.switchAt, JointSequence(joints), old(chain.switchReads), budget);
        && run.outcome == Pass
        && chain.trace == old(chain.trace) + run.commands
        && chain.switchReads == old(chain.switchReads) + run.readings
      ensures chain.waits == old(chain.waits) && chain.regReads == old(chain.regReads)
    {
      HomeJoints(JointSequence(joints), budget);
    }

    /** The loop of `seek_origins` over the joints to home. */
    method HomeJoints(js: seq<Motor>, ghost budget: nat)
      requires SeekAllRun(chain.switchAt, js, chain.switchReads, budget).outcome.Pass?
      modifies chain
      ensures var run := SeekAllRun(chain.switchAt, js, old(chain.switchReads), budget);
        && run.outcome == Pass
        && chain.trace == old(chain.trace) + run.commands
        && chain.switchReads == old(chain.switchReads) + run.readings
      ensures chain.waits == old(chain.waits) && chain.regReads == old(chain.regReads)
    {
      ghost var sw := chain.switchAt;
      ghost var at := chain.switchReads;
      ghost var t0 := chain.trace;
      ghost var done := SeekRun([], 0, Pass);
      var i := 0;
      while i < |js|
        invariant i <= |js|
        invariant done == SeekAllUpTo(sw, js, i, at, budget)
        invariant done.outcome.Pass?
        invariant chain.trace == t0 + done.commands
        invariant chain.switchReads == at + done.readings
        invariant chain.waits == old(chain.waits) && chain.regReads == old(chain.regReads)
      {
        NextJointHomes(sw, js, i, at, budget);
        ghost var from, t1 := chain.switchReads, chain.trace;
        ghost var seekEnd := SeekOrigin(js[i]);
        NextJointHomed(sw, js, i, at, budget, t0, t1, chain.trace, from, seekEnd, chain.switchReads);
        done := SeekAllUpTo(sw, js, i + 1, at, budget);
        i := i + 1;
      }
    }
  }
}
