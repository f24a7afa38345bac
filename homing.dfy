/**
 * The homing protocol of a joint (`seek_origin`) and of a sequence of joints
 * (`seek_origins`) as functions of the switch readings: which commands they issue, how many
 * readings they take and how they end. A timeout is a budget of sleeps between two
 * readings of the switch.
 */
module Homing {
  import opened Wrappers
  import opened Settings
  import opened DaisyChain

  /** The end of a polling loop: whether the awaited switch state was read, and how many
      readings it took. */
  datatype Poll = Poll(found: bool, readings: nat)

  /** Reads the switch of motor `m` from reading `at` on until it reads `until`, sleeping
      between two readings at most `budget` times. */
  function PollFor(sw: (nat, Motor) -> bool, m: Motor, at: nat, until: bool, budget: nat): (p: Poll)
    ensures 1 <= p.readings <= budget + 1
    ensures !p.found ==> p.readings == budget + 1
    decreases budget
  {
    if sw(at, m) == until then Poll(true, 1)
    else if budget == 0 then Poll(false, 1)
    else
      var p := PollFor(sw, m, at + 1, until, budget - 1);
      Poll(p.found, p.readings + 1)
  }

  /** The polling loop stops at the first reading of the awaited state, or after the
      budget when no reading shows it. */
  lemma {:induction false} PollForSpec(sw: (nat, Motor) -> bool, m: Motor, at: nat, until: bool, budget: nat)
    ensures var p := PollFor(sw, m, at, until, budget);
      && (forall k :: at <= k < at + p.readings - 1 ==> sw(k, m) != until)
      && (p.found ==> sw(at + p.readings - 1, m) == until)
      && (!p.found ==> sw(at + budget, m) != until)
    decreases budget
  {
    if sw(at, m) != until && budget > 0 {
      PollForSpec(sw, m, at + 1, until, budget - 1);
    }
  }

  /** A switch that reaches the awaited state within the budget is found, at its first
      such reading. */
  lemma {:induction false} PollForFinds(sw: (nat, Motor) -> bool, m: Motor, at: nat, until: bool, budget: nat, k: nat)
    requires k <= budget && sw(at + k, m) == until
    requires forall i :: at <= i < at + k ==> sw(i, m) != until
    ensures PollFor(sw, m, at, until, budget) == Poll(true, k + 1)
    decreases k
  {
    if k > 0 {
      assert sw(at, m) != until;
      PollForFinds(sw, m, at + 1, until, budget - 1, k - 1);
    }
  }

  /** Once the awaited state is found, a longer budget changes nothing. */
  lemma {:induction false} PollForMoreBudget(sw: (nat, Motor) -> bool, m: Motor, at: nat, until: bool, budget: nat, more: nat)
    requires PollFor(sw, m, at, until, budget).found && budget <= more
    ensures PollFor(sw, m, at, until, more) == PollFor(sw, m, at, until, budget)
    decreases budget
  {
    if sw(at, m) != until {
      PollForMoreBudget(sw, m, at + 1, until, budget - 1, more - 1);
    }
  }

  /** What a homing run did: its commands, the switch readings it took, its outcome. */
  datatype SeekRun = SeekRun(commands: seq<Command>, readings: nat, outcome: Outcome<ArmError>)

  /** The direction toward the origin: reverse when the switch starts closed. */
  function SeekDirection(initial: bool): Direction
  {
    if initial then REV else FWD
  }

  /** The commands of a complete homing: the fast run toward the switch, the soft stop past
      it, the slow run back, the hard stop on it and the position reset. */
  function FullHoming(m: Motor, initial: bool): seq<Command>
  {
    [Run(m, SeekDirection(initial), SettingsOf(m).maxSpeed), SoftStop(m),
     Run(m, Invert(SeekDirection(initial)), SettingsOf(m).minSpeed), HardStop(m), ResetPos(m)]
  }

  /** `seek_origin` with the switch readings starting at `at`: the gripper is skipped; any
      other motor runs at full speed until its switch leaves its initial state (phase
      "seeking"), soft stops, runs back at low speed until the switch returns to its initial
      state (phase "adjusting to"), hard stops and resets its position. A phase that runs out
      of budget raises a timeout; the soft stop of the first phase is issued anyway. */
  function SeekOriginRun(sw: (nat, Motor) -> bool, m: Motor, at: nat, budget: nat): SeekRun
  {
    if m == GRIPPER then SeekRun([], 0, Pass)
    else
      var initial := sw(at, m);
      var seeking := PollFor(sw, m, at + 1, !initial, budget);
      SeekPhases(m, initial, seeking, PollFor(sw, m, at + 1 + seeking.readings, initial, budget))
  }

  /** The two phases of a homing run, given how each polling loop ended (the second one
      only counts when the first found the switch). */
  function SeekPhases(m: Motor, initial: bool, seeking: Poll, adjusting: Poll): SeekRun
  {
    var direction := SeekDirection(initial);
    var fast := [Run(m, direction, SettingsOf(m).maxSpeed), SoftStop(m)];
    var slow := [Run(m, Invert(direction), SettingsOf(m).minSpeed), HardStop(m)];
    if !seeking.found then SeekRun(fast, 1 + seeking.readings, Fail(SeekTimeOut(Seeking, m)))
    else if !adjusting.found then
      SeekRun(fast + slow, 1 + seeking.readings + adjusting.readings, Fail(SeekTimeOut(AdjustingTo, m)))
    else SeekRun(fast + slow + [ResetPos(m)], 1 + seeking.readings + adjusting.readings, Pass)
  }

  /** The three ways a homing run ends: skipped for the gripper, complete, or cut short by
      a timeout after the stop of the phase that timed out, never with a position reset. */
  lemma SeekOriginShape(sw: (nat, Motor) -> bool, m: Motor, at: nat, budget: nat)
    ensures var r := SeekOriginRun(sw, m, at, budget);
      var h := FullHoming(m, sw(at, m));
      && (m == GRIPPER ==> r == SeekRun([], 0, Pass))
      && (m != GRIPPER && r.outcome.Pass? ==> r.commands == h)
      && (r.outcome.Fail? ==> m != GRIPPER && r.outcome.error.SeekTimeOut? && r.outcome.error.motor == m)
      && (r.outcome == Fail(SeekTimeOut(Seeking, m)) ==> r.commands == h[..2])
      && (r.outcome == Fail(SeekTimeOut(AdjustingTo, m)) ==> r.commands == h[..4])
      && (r.outcome.Fail? ==> ResetPos(m) !in r.commands)
  {
    var r := SeekOriginRun(sw, m, at, budget);
    if m != GRIPPER {
      var h := FullHoming(m, sw(at, m));
      assert h[..2] == [h[0], h[1]] && h[..4] == [h[0], h[1], h[2], h[3]];
    }
  }

  /** Every homing run leaves its motor stopped: each run command is followed by a stop. */
  lemma SeekOriginStops(sw: (nat, Motor) -> bool, m: Motor, at: nat, budget: nat)
    ensures var c := SeekOriginRun(sw, m, at, budget).commands;
      forall i :: 0 <= i < |c| && c[i].Run? ==> i + 1 < |c| && (c[i + 1] == SoftStop(m) || c[i + 1] == HardStop(m))
  {
    SeekOriginShape(sw, m, at, budget);
  }

  /** A homing whose switch changes within the budget in both phases succeeds. */
  lemma {:induction false} SeekOriginSucceeds(sw: (nat, Motor) -> bool, m: Motor, at: nat, budget: nat, k1: nat, k2: nat)
    requires m != GRIPPER && k1 <= budget && k2 <= budget
    requires forall i :: at + 1 <= i < at + 1 + k1 ==> sw(i, m) == sw(at, m)
    requires sw(at + 1 + k1, m) != sw(at, m)
    requires forall i :: at + 2 + k1 <= i < at + 2 + k1 + k2 ==> sw(i, m) != sw(at, m)
    requires sw(at + 2 + k1 + k2, m) == sw(at, m)
    ensures SeekOriginRun(sw, m, at, budget) == SeekRun(FullHoming(m, sw(at, m)), 3 + k1 + k2, Pass)
  {
    var initial := sw(at, m);
    PollForFinds(sw, m, at + 1, !initial, budget, k1);
    PollForFinds(sw, m, at + 2 + k1, initial, budget, k2);
  }

  /** A successful homing stays the same with a longer budget. */
  lemma SeekOriginMoreBudget(sw: (nat, Motor) -> bool, m: Motor, at: nat, budget: nat, more: nat)
    requires SeekOriginRun(sw, m, at, budget).outcome.Pass? && budget <= more
    ensures SeekOriginRun(sw, m, at, more) == SeekOriginRun(sw, m, at, budget)
  {
    if m != GRIPPER {
      var initial := sw(at, m);
      var seeking := PollFor(sw, m, at + 1, !initial, budget);
      var adjusting := PollFor(sw, m, at + 1 + seeking.readings, initial, budget);
      assert SeekOriginRun(sw, m, at, budget) == SeekPhases(m, initial, seeking, adjusting);
      assert seeking.found && adjusting.found;
      PollForMoreBudget(sw, m, at + 1, !initial, budget, more);
      PollForMoreBudget(sw, m, at + 1 + seeking.readings, initial, budget, more);
      assert SeekOriginRun(sw, m, at, more) == SeekPhases(m, initial, seeking, adjusting);
    }
  }

  /** The joints of `seek_origins`: all six motors when the sequence is empty or missing. */
  function JointSequence(joints: seq<Motor>): (js: seq<Motor>)
    ensures joints != [] ==> js == joints
    ensures joints == [] ==> js == MOTORS_ALL
  {
    if joints == [] then MOTORS_ALL else joints
  }

  /** The first `n` homings of a sequence, each run by `step` from the reading where the
      previous one stopped, ending at the first failure: the `n - 1` before the last one
      first, then the last one unless one of them failed. */
  function HomeAll(step: (Motor, nat) -> SeekRun, joints: seq<Motor>, n: nat, at: nat): SeekRun
    requires n <= |joints|
    decreases n
  {
    if n == 0 then SeekRun([], 0, Pass)
    else
      var before := HomeAll(step, joints, n - 1, at);
      if before.outcome.Fail? then before
      else
        var last := step(joints[n - 1], at + before.readings);
        SeekRun(before.commands + last.commands, before.readings + last.readings, last.outcome)
  }

  /** `seek_origin` as the step of a sequence of homings. */
  function SeekStep(sw: (nat, Motor) -> bool, budget: nat): (Motor, nat) -> SeekRun
  {
    (m: Motor, a: nat) => SeekOriginRun(sw, m, a, budget)
  }

  /** The first `n` joints of `seek_origins`. */
  function SeekAllUpTo(sw: (nat, Motor) -> bool, joints: seq<Motor>, n: nat, at: nat, budget: nat): SeekRun
    requires n <= |joints|
  {
    HomeAll(SeekStep(sw, budget), joints, n, at)
  }

  /** `seek_origins`: the joints homed one after the other by `seek_origin`, stopping at the
      first failure. */
  function SeekAllRun(sw: (nat, Motor) -> bool, joints: seq<Motor>, at: nat, budget: nat): SeekRun
  {
    SeekAllUpTo(sw, joints, |joints|, at, budget)
  }

  lemma SeekStepApplies(sw: (nat, Motor) -> bool, budget: nat, m: Motor, a: nat)
    ensures SeekStep(sw, budget)(m, a) == SeekOriginRun(sw, m, a, budget)
  {
  }

  /** A homing command: a run, a stop or a position reset of motor `m`. */
  predicate HomingCommandOf(c: Command, m: Motor)
  {
    (c.Run? || c.SoftStop? || c.HardStop? || c.ResetPos?) && c.motor == m
  }

  /** When every step only acts on its own joint and names it when it fails, the first `n`
      homings only act on the first `n` joints and a failure names one of them. */
  lemma {:induction false} HomeAllTouchesOnlyItsJoints(step: (Motor, nat) -> SeekRun, joints: seq<Motor>, n: nat, at: nat)
    requires n <= |joints|
    requires forall m, a :: (forall c :: c in step(m, a).commands ==> HomingCommandOf(c, m))
    requires forall m, a :: step(m, a).outcome.Fail? ==> step(m, a).outcome.error.SeekTimeOut? && step(m, a).outcome.error.motor == m
    ensures var r := HomeAll(step, joints, n, at);
      (forall c :: c in r.commands ==> exists k :: 0 <= k < n && HomingCommandOf(c, joints[k])) &&
      (r.outcome.Fail? ==> r.outcome.error.SeekTimeOut? && exists k :: 0 <= k < n && joints[k] == r.outcome.error.motor)
    decreases n
  {
    if n > 0 {
      HomeAllTouchesOnlyItsJoints(step, joints, n - 1, at);
    }
  }

  /** Two step functions that agree on every successful homing agree on every successful
      sequence. */
  lemma {:induction false} HomeAllSameSteps(step: (Motor, nat) -> SeekRun, other: (Motor, nat) -> SeekRun, joints: seq<Motor>, n: nat, at: nat)
    requires n <= |joints|
    requires forall m, a :: step(m, a).outcome.Pass? ==> other(m, a) == step(m, a)
    requires HomeAll(step, joints, n, at).outcome.Pass?
    ensures HomeAll(other, joints, n, at) == HomeAll(step, joints, n, at)
    decreases n
  {
    if n > 0 {
      HomeAllSameSteps(step, other, joints, n - 1, at);
    }
  }

  /** A sequence of homings stops at its first failure: the joints after a failing prefix
      are not homed. */
  lemma {:induction false} HomeAllStopsAtFailure(step: (Motor, nat) -> SeekRun, joints: seq<Motor>, k: nat, n: nat, at: nat)
    requires k <= n <= |joints| && HomeAll(step, joints, k, at).outcome.Fail?
    ensures HomeAll(step, joints, n, at) == HomeAll(step, joints, k, at)
    decreases n
  {
    if k < n {
      HomeAllStopsAtFailure(step, joints, k, n - 1, at);
    }
  }

  /** The commands of `seek_origins` act only on the joints of the sequence, and a failure
      names one of them. */
  lemma SeekAllTouchesOnlyItsJoints(sw: (nat, Motor) -> bool, joints: seq<Motor>, at: nat, budget: nat)
    ensures var r := SeekAllRun(sw, joints, at, budget);
      (forall c :: c in r.commands ==> exists m :: m in joints && HomingCommandOf(c, m)) &&
      (r.outcome.Fail? ==> r.outcome.error.SeekTimeOut? && r.outcome.error.motor in joints)
  {
    var step := SeekStep(sw, budget);
    forall m, a ensures (forall c :: c in step(m, a).commands ==> HomingCommandOf(c, m)) {
      SeekStepApplies(sw, budget, m, a);
      SeekOriginShape(sw, m, a, budget);
    }
    forall m, a ensures step(m, a).outcome.Fail? ==> step(m, a).outcome.error.SeekTimeOut? && step(m, a).outcome.error.motor == m {
      SeekStepApplies(sw, budget, m, a);
      SeekOriginShape(sw, m, a, budget);
    }
    HomeAllTouchesOnlyItsJoints(step, joints, |joints|, at);
  }

  /** A successful `seek_origins` stays the same with a longer budget. */
  lemma SeekAllMoreBudget(sw: (nat, Motor) -> bool, joints: seq<Motor>, at: nat, budget: nat, more: nat)
    requires SeekAllRun(sw, joints, at, budget).outcome.Pass? && budget <= more
    ensures SeekAllRun(sw, joints, at, more) == SeekAllRun(sw, joints, at, budget)
  {
    var step, other := SeekStep(sw, budget), SeekStep(sw, more);
    forall m, a | step(m, a).outcome.Pass? ensures other(m, a) == step(m, a) {
      SeekStepApplies(sw, budget, m, a);
      SeekStepApplies(sw, more, m, a);
      SeekOriginMoreBudget(sw, m, a, budget, more);
    }
    HomeAllSameSteps(step, other, joints, |joints|, at);
  }

  /** `seek_origins` after the joint at position `i` of its sequence, when every joint
      before it was homed: that joint's `seek_origin` continues where the others stopped. */
  lemma SeekAllNext(sw: (nat, Motor) -> bool, js: seq<Motor>, i: nat, at: nat, budget: nat)
    requires i < |js| && SeekAllUpTo(sw, js, i, at, budget).outcome.Pass?
    ensures var before := SeekAllUpTo(sw, js, i, at, budget);
      var last := SeekOriginRun(sw, js[i], at + before.readings, budget);
      SeekAllUpTo(sw, js, i + 1, at, budget) == SeekRun(before.commands + last.commands, before.readings + last.readings, last.outcome)
  {
    SeekStepApplies(sw, budget, js[i], at + SeekAllUpTo(sw, js, i, at, budget).readings);
  }

  /** `seek_origins` ends with the first joint whose homing times out. */
  lemma SeekAllStopsAtFailure(sw: (nat, Motor) -> bool, js: seq<Motor>, k: nat, at: nat, budget: nat)
    requires k <= |js| && SeekAllUpTo(sw, js, k, at, budget).outcome.Fail?
    ensures SeekAllRun(sw, js, at, budget) == SeekAllUpTo(sw, js, k, at, budget)
  {
    HomeAllStopsAtFailure(SeekStep(sw, budget), js, k, |js|, at);
  }

  /** One more joint of `seek_origins`, given the run `last` of its `seek_origin`: the
      first `i + 1` joints did what the first `i` did followed by `last`, and when `last`
      timed out the whole sequence ends there. */
  lemma SeekAllAfter(sw: (nat, Motor) -> bool, js: seq<Motor>, i: nat, at: nat, budget: nat, last: SeekRun)
    requires i < |js| && SeekAllUpTo(sw, js, i, at, budget).outcome.Pass?
    requires last == SeekOriginRun(sw, js[i], at + SeekAllUpTo(sw, js, i, at, budget).readings, budget)
    ensures var before := SeekAllUpTo(sw, js, i, at, budget);
      SeekAllUpTo(sw, js, i + 1, at, budget) == SeekRun(before.commands + last.commands, before.readings + last.readings, last.outcome)
    ensures last.outcome.Fail? ==> SeekAllRun(sw, js, at, budget) == SeekAllUpTo(sw, js, i + 1, at, budget)
  {
    SeekAllNext(sw, js, i, at, budget);
    if last.outcome.Fail? {
      SeekAllStopsAtFailure(sw, js, i + 1, at, budget);
    }
  }
}
