# Youpi arm and control panel, modelled in Dafny

This project models the core of the pybot-youpi2 package, which drives a six-joint
Youpi robot arm and its control panel.

## The arm

The arm is driven over a daisy chain of L6470 stepper drivers. The model covers:

- **Motor settings.** The table of the six motors and the conversion between joint
  degrees and motor steps (`settings.dfy`).
- **The chain.** Seen as a transport (`chain.dfy`). It records every command the arm
  sends. It supplies the switch readings, the position registers and the outcome of
  each blocking wait, one observation after the other.
- **Coupling.** The mechanical coupling of the joints, `_apply_coupling` and
  `_global_to_local` (`coupling.dfy`).
- **Motions.** Joint moves and gotos behind the limit check, the hand rotation and the
  gripper commands (`motion.dfy`). The two arm classes share these.
- **Homing.** The homing protocol of one joint and of a sequence of joints, as
  functions of the switch readings (`homing.dfy`).
- **`YoupiArm`** (`arm.dfy`). Initialisation, shutdown, homing with timeouts, and the
  joint positions.
- **`Youpi`** (`youpi6470.dfy`). The earlier class, whose homing has no timeout. It is
  proved to do what `YoupiArm`'s homing does whenever that homing would complete.

## The control panel

The panel is an LCD with a 3x4 keypad. Its keys `1`, `2`, `4` and `5` are the four
panel keys. It also has four LEDs and a lock switch. The model covers:

- **The LED mask** (`keys.dfy`). `Keys.mask` over four-bit vectors.
- **`ControlPanel`** (`panel.dfy`):
  - decoding the keypad state;
  - the LEDs;
  - the lock latch of the exit messages;
  - `wait_for_key` and `countdown`;
  - the checks of the constructor.

## Time and the environment

- **Time.** Time is counted in polling periods. A timeout of `t` seconds is a budget of
  sleeps between switch readings. The countdown and the key wait count keypad scan
  periods of a tenth of a second. A signal handler's `terminate` is the scan period
  during which it happens.
- **Python floats.** Degrees are `real`. The truncation of `int(...)` is kept
  explicitly.
- **Behaviour kept as the code has it.**
  - A timeout in the first homing phase still issues the soft stop of the `finally`
    clause (model.py:379-381); the motor is hard-stopped only after the second phase.
  - The limit check raises at the first joint out of bounds, in joint order, and
    reports that joint alone (model.py:525-529).
  - The `ready` flag is set by `initialize` (model.py:187, 247). Nothing in `YoupiArm`
    or `Youpi` reads it, so no motion of the arm depends on it. Callers check it before
    offering any motion: local_demo.py:444-452 replaces every menu action but
    terminate when it is false.
- **Corrected values.** Two slips in the code are recorded under "## Findings". The
  operations use the intended values, and each member that does so is named under
  "## Left out".
- **Undefined key names.** `ControlPanel` reads `Keys.ESC`, `Keys.OK`, `Keys.PREVIOUS`
  and `Keys.NEXT` when its class body is evaluated (api.py:19-24). `keys.py` defines
  none of them. With that `keys.py` the class cannot be defined at all. The panel is
  modelled as if those names existed.

## Model

| member | source | states |
|---|---|---|
| Settings.SettingsOf | src/pybot/youpi2/model.py:27-154 | every motor has positive steps per turn, gear ratio and micro-stepping; exactly the five joints other than the gripper have both position limits, with min <= max; min speed < max speed; the gripper's full-step threshold is half its maximum speed |
| Settings.GripperOpenSteps | src/pybot/youpi2/model.py:127-133 | the full opening of the gripper is turns x steps per turn x micro-steps = 5600 steps |
| Settings.StepsPerJointTurn | src/pybot/youpi2/model.py:52-60 | the steps of one joint turn are a positive count |
| Settings.Trunc | src/pybot/youpi2/model.py:56 | `int()` on a float truncates toward zero: the result lies within one of `x`, between `x` and 0 |
| Settings.StepDegrees | src/pybot/youpi2/model.py:58-60 | one motor step is a positive joint angle |
| Settings.ConversionFactors | src/pybot/youpi2/model.py:52-60 | both conversions scale by the same steps-per-turn factor, one multiplying and the other dividing |
| Settings.TruncOdd | src/pybot/youpi2/model.py:56 | truncation toward zero is odd |
| Settings.DegreesToStepsOdd | src/pybot/youpi2/model.py:52-56 | reversing the angle reverses the step count, and 0 degrees is 0 steps |
| Settings.DegreesToStepsSign | src/pybot/youpi2/model.py:52-56 | the step count has the sign of the angle |
| Settings.StepsRoundTrip | src/pybot/youpi2/model.py:52-60 | degrees to steps and back loses less than one step, toward zero |
| Settings.DegreesRoundTrip | src/pybot/youpi2/model.py:58-60 | steps to degrees and back is exact, so steps_to_degrees is the inverse its docstring announces |
| Settings.BaseStepsPerDegree | src/pybot/youpi2/model.py:56-67 | the base makes exactly 1920 steps per degree, both ways |
| Settings.GripperFullStepThreshold | src/pybot/youpi2/model.py:107-122 | as written the gripper keeps the inherited full-step threshold 200, which differs from max_speed / 2; the table the model uses has 1000 = max_speed / 2 |
| DaisyChain.Invert | src/pybot/youpi2/model.py:385-389 | the inverted direction differs from the direction |
| DaisyChain.WaitOutcome | src/pybot/youpi2/model.py:567 | a command fails exactly when it waits and the wait does not complete, and then with a timeout |
| Coupling.ChildLink | src/pybot/youpi2/model.py:162 | exactly the shoulder, elbow and wrist drag a child, and the child is the next joint |
| Coupling.ParentLink | src/pybot/youpi2/model.py:163 | exactly the elbow, wrist and hand rotation have a parent, and the parent is the previous joint |
| Coupling.AddTo | src/pybot/youpi2/model.py:473 | adding to a joint's set point creates it when absent (from 0) and changes no other joint |
| Coupling.CoupledKeys | src/pybot/youpi2/model.py:466-474 | after coupling, a joint has a set point iff it or a joint upstream of it had one; the caller's joints are kept |
| Coupling.CoupledValues | src/pybot/youpi2/model.py:466-474 | base, shoulder and gripper keep their value; the elbow and wrist get the sum of the set points upstream; the hand rotation gets that sum with the opposite sign |
| Coupling.ApplyCoupling | src/pybot/youpi2/model.py:452-474 | the two nested loops update the caller's dictionary in place to the coupled set points |
| Coupling.LocalAngles | src/pybot/youpi2/model.py:477-492 | the local angles have as many entries as the global ones |
| Coupling.GlobalToLocal | src/pybot/youpi2/model.py:477-492 | the loop over a copy of the list computes the local angles |
| Coupling.AsList | src/pybot/youpi2/model.py:509 | a set point dictionary as six angles, 0 for the absent joints (`angles.get(j, 0)`) |
| Coupling.AsDict | src/pybot/youpi2/model.py:517-518 | a full list of angles as a dictionary holding every joint |
| Coupling.LocalAnglesAt | src/pybot/youpi2/model.py:484-490 | elbow and wrist lose the angle of their parent, the hand rotation gains the wrist's, and the others are unchanged |
| Coupling.LocalUndoesCoupling | src/pybot/youpi2/model.py:452-492 | the local angles of the coupled set points are the set points: `_global_to_local` undoes `_apply_coupling` |
| Coupling.CouplingUndoesLocal | src/pybot/youpi2/model.py:452-492 | coupling the local angles of a full list gives the list back |
| Coupling.ShoulderMoveExample | test/test_coupling.py:17-34 | a 10 degree shoulder set point drags the elbow and wrist by 10 and the hand rotation by -10 |
| Coupling.BaseMoveExample | test/test_coupling.py:7-15 | a base set point drags nothing |
| Coupling.LocalAnglesExamples | test/test_coupling.py:83-97 | the local angles of the three positions of the global-to-local cases |
| Motion.PairsToDictKeys | src/pybot/youpi2/model.py:445-446 | `dict(pairs)` holds exactly the joints named by the pairs |
| Motion.PairsToDictValues | src/pybot/youpi2/model.py:445-446 | each joint of `dict(pairs)` gets the angle of the last pair naming it |
| Motion.NormalizeAngles | src/pybot/youpi2/model.py:439-449 | a dictionary is returned as it is, a list of pairs becomes a new dictionary, anything else is a TypeError |
| Motion.JointPositions | src/pybot/youpi2/model.py:508-511 | joint j's position is its register converted to degrees |
| Motion.Goals | src/pybot/youpi2/model.py:507-518 | there is one goal per joint |
| Motion.LimitsVerdict | src/pybot/youpi2/model.py:524-529 | the check passes iff joints base to wrist are within their limits; otherwise it names the first joint out of bounds and its angle |
| Motion.CheckGoals | src/pybot/youpi2/model.py:524-529 | the checking loop decides as `LimitsVerdict` does |
| Motion.ComputeGoals | src/pybot/youpi2/model.py:507-518 | the goal loops compute `Goals` |
| Motion.CheckLimits | src/pybot/youpi2/model.py:494-529 | one register read; the verdict is that of the local angles of the goals; nothing is sent |
| Motion.StillGoals | src/pybot/youpi2/model.py:507-518 | with no set points, the goals are the current positions |
| Motion.AbsoluteGoalsIgnorePositions | src/pybot/youpi2/model.py:513-518 | an absolute move targeting every joint does not depend on the registers |
| Motion.RelativeGoalsAt | src/pybot/youpi2/model.py:507-518 | a relative goal is the position plus the set point (0 when absent); an absolute goal is the target |
| Motion.LimitsIgnoreHandAndGripper | src/pybot/youpi2/model.py:525 | the hand rotation and gripper angles never change the verdict |
| Motion.MoveParams | src/pybot/youpi2/model.py:559-565 | one motor entry per set point, forward exactly for a positive angle |
| Motion.GotoParams | src/pybot/youpi2/model.py:581-584 | one motor entry per target |
| Motion.MoveParamsConsistent | src/pybot/youpi2/model.py:559-565 | the step count agrees with the direction and, converted back, is less than one step short of the angle |
| Motion.GotoParamsAccurate | src/pybot/youpi2/model.py:581-584 | a goto target converted back lies within one step of the requested angle |
| Motion.JointsMove | src/pybot/youpi2/model.py:531-567 | a bad argument is a TypeError with nothing sent; coupling is applied to the caller's dictionary; out of bounds means no move is sent; otherwise one move of the requested set points, with the outcome of its wait |
| Motion.JointsGoto | src/pybot/youpi2/model.py:574-585 | the same for an absolute move, with a goto |
| Motion.RotateHand | src/pybot/youpi2/model.py:407-421 | one move of the hand rotation alone, with no limit check |
| Motion.RotateHandTo | src/pybot/youpi2/model.py:423-436 | one goto of the hand rotation alone, with no limit check |
| Motion.OpeningMove | src/pybot/youpi2/model.py:322-327 | the opening moves the gripper alone, forward, by its full step count |
| Motion.OpenGripper | src/pybot/youpi2/model.py:267-280 | sends the gripper home, with the outcome of the wait |
| Motion.CloseGripper | src/pybot/youpi2/model.py:282-304 | nothing if the gripper switch reads closed; otherwise a go-until in reverse at the closing speed |
| Motion.CalibrateGripper | src/pybot/youpi2/model.py:306-329 | close, then open by the full step count, then reset the position; a timeout ends the sequence where it occurs |
| Homing.PollFor | src/pybot/youpi2/model.py:373-378 | a polling loop reads at least once and at most budget + 1 times, and budget + 1 times when it fails |
| Homing.PollForSpec | src/pybot/youpi2/model.py:373-378 | the loop stops at the first reading of the awaited state; no earlier reading shows it |
| Homing.PollForFinds | src/pybot/youpi2/model.py:393-398 | a state reached within the budget is found at its first reading |
| Homing.PollForMoreBudget | src/pybot/youpi2/model.py:373-378 | once found, a longer timeout changes nothing |
| Homing.SeekOriginShape | src/pybot/youpi2/model.py:342-405 | the gripper is skipped; a success issues the full homing; a timeout names its phase and motor, ends after the stop of that phase, and never resets the position |
| Homing.SeekOriginStops | src/pybot/youpi2/model.py:379-404 | every run command of a homing is followed by a stop of the motor |
| Homing.SeekOriginSucceeds | src/pybot/youpi2/model.py:357-405 | a switch that changes within the budget in both phases gives a complete homing with 3 + k1 + k2 readings |
| Homing.SeekOriginMoreBudget | src/pybot/youpi2/model.py:373-398 | a successful homing is unchanged by a longer timeout |
| Homing.JointSequence | src/pybot/youpi2/model.py:339 | an empty or missing sequence means the six motors in index order, once each (`range(MOTORS_COUNT)`); a given sequence is used as it is |
| Homing.HomeAllTouchesOnlyItsJoints | src/pybot/youpi2/model.py:339-340 | a sequence of homings acts only on its joints, and a failure names one of them |
| Homing.HomeAllSameSteps | src/pybot/youpi2/model.py:339-340 | step functions that agree on successes agree on successful sequences |
| Homing.HomeAllStopsAtFailure | src/pybot/youpi2/model.py:339-340 | a sequence stops at its first failure: later joints are not homed |
| Homing.SeekAllTouchesOnlyItsJoints | src/pybot/youpi2/model.py:331-340 | `seek_origins` acts only on the given joints, and a timeout names one of them |
| Homing.SeekAllMoreBudget | src/pybot/youpi2/model.py:331-340 | a successful `seek_origins` is unchanged by a longer timeout |
| Homing.SeekAllNext | src/pybot/youpi2/model.py:339-340 | the next joint's `seek_origin` starts at the reading where the previous one stopped |
| Homing.SeekAllStopsAtFailure | src/pybot/youpi2/model.py:339-340 | the first timeout ends `seek_origins` |
| Homing.SeekAllAfter | src/pybot/youpi2/model.py:339-340 | one more joint extends the run by its homing; a timeout there is the end |
| Arm.SettingsTable | src/pybot/youpi2/model.py:147-154 | the table holds the settings of every motor, in chain order |
| Arm.SetupCommands | src/pybot/youpi2/model.py:218-244 | the settings of all six motors, then the configuration (no over-current shutdown, user switch mode), then the low speed optimisation |
| Arm.PollSwitch | src/pybot/youpi2/model.py:373-378 | the polling loop with a timeout ends as `PollFor` says and reads nothing else |
| Arm.YoupiArm.constructor | src/pybot/youpi2/model.py:174-187 | a new arm is not ready |
| Arm.YoupiArm.Initialize | src/pybot/youpi2/model.py:203-248 | a handshake that is accepted sends the setup and makes the arm ready; a refusal or an IOError is a YoupiArmError with nothing else sent |
| Arm.YoupiArm.Shutdown | src/pybot/youpi2/model.py:250-265 | unless in emergency, the gripper is opened first (a timeout only logged); then the chain shuts down |
| Arm.YoupiArm.SeekOrigin | src/pybot/youpi2/model.py:342-405 | the commands, readings and outcome are those of `SeekOriginRun` |
| Arm.YoupiArm.SeekOrigins | src/pybot/youpi2/model.py:331-340 | the commands, readings and outcome are those of `SeekAllRun` on the joint sequence |
| Arm.YoupiArm.HomeJoints | src/pybot/youpi2/model.py:339-340 | homing any given joints in turn issues the commands, makes the readings and ends with the outcome of `SeekAllRun` on them: the first timeout stops the loop |
| Arm.YoupiArm.GetJointPositions | src/pybot/youpi2/model.py:595-603 | one register read; each position converts back to exactly its register |
| Youpi6470.ReadsOnlyAll | src/pybot/youpi2/youpi6470.py:264-275 | the readings of a range all show a state iff each one does |
| Youpi6470.AwaitSwitch | src/pybot/youpi2/youpi6470.py:264-265 | the loop with no timeout ends at the first reading of the awaited state, no later than a reading known to show it |
| Youpi6470.AwaitedHoming | src/pybot/youpi2/youpi6470.py:256-278 | the readings of the two loops with no timeout make a complete homing with a timeout as long as they took |
| Youpi6470.UntimedHomingIsTimed | src/pybot/youpi2/youpi6470.py:248-278 | when the homing with a timeout completes, the homing with no timeout does the same |
| Youpi6470.CompletedHomingEnds | src/pybot/youpi2/youpi6470.py:264-275 | a homing that completes reads its switch change, then change back |
| Youpi6470.PollWithin | src/pybot/youpi2/youpi6470.py:264-265 | a state shown at reading w is found within the budget reaching w |
| Youpi6470.BothPollsFound | src/pybot/youpi2/youpi6470.py:256-278 | both loops finding their state means the homing completes |
| Youpi6470.HomingEndsCompletes | src/pybot/youpi2/youpi6470.py:256-278 | a switch that leaves its initial state and comes back lets the homing complete within some timeout |
| Youpi6470.TogglingSwitchHomes | src/pybot/youpi2/youpi6470.py:264-275 | a switch that keeps changing lets both loops end |
| Youpi6470.NextJointCompletes | src/pybot/youpi2/youpi6470.py:244-246 | in a sequence that completes, each joint's homing completes |
| Youpi6470.NextJointHomes | src/pybot/youpi2/youpi6470.py:244-246 | in a sequence that completes, the switch of each joint other than the gripper changes and comes back |
| Youpi6470.NextJointHomed | src/pybot/youpi2/youpi6470.py:244-246 | homing the next joint with no timeout extends the sequence's run by exactly its homing |
| Youpi6470.UntimedJointIsTimed | src/pybot/youpi2/youpi6470.py:248-278 | the gripper does nothing; any other joint does its full homing, with the readings it made |
| Youpi6470.Home | src/pybot/youpi2/youpi6470.py:256-278 | the full homing of a motor whose switch changes and comes back |
| Youpi6470.Youpi.constructor | src/pybot/youpi2/youpi6470.py:133-141 | a new arm is not ready |
| Youpi6470.Youpi.Initialize | src/pybot/youpi2/youpi6470.py:153-192 | as `YoupiArm.Initialize`, except that the chain's IOError propagates as it is |
| Youpi6470.Youpi.Shutdown | src/pybot/youpi2/youpi6470.py:194-202 | a timeout of the gripper opening propagates and the chain is then not shut down |
| Youpi6470.Youpi.SeekOrigin | src/pybot/youpi2/youpi6470.py:248-278 | the gripper is skipped; any other motor does the full homing, each loop stopping at the first reading it awaits |
| Youpi6470.Youpi.SeekOrigins | src/pybot/youpi2/youpi6470.py:244-246 | when the sequence would complete within a timeout, the commands and readings are those of `YoupiArm.seek_origins` |
| Youpi6470.Youpi.HomeJoints | src/pybot/youpi2/youpi6470.py:245-246 | for any joints whose homing would complete within a timeout, the commands and readings are those of `SeekAllRun` on them |
| Keys.KeyBit | src/pybot/youpi2/ctlpanel/keys.py:38 | a key's bit is a single bit, and an identifier above the keys has no bit in the low four |
| Keys.KeyBitsDistinct | src/pybot/youpi2/ctlpanel/keys.py:38 | two keys' bits overlap iff the keys are equal |
| Keys.KeyBitsHas | src/pybot/youpi2/ctlpanel/keys.py:38 | the OR of a list's bits has a key's bit iff the key is in the list |
| Keys.MaskBits | src/pybot/youpi2/ctlpanel/keys.py:16-40 | `mask` raises iff some key is below 1; otherwise bit k - 1 is clear iff key k is given |
| Keys.SameKeyBits | src/pybot/youpi2/ctlpanel/keys.py:38-40 | four bits are determined by the bits of the four keys |
| Keys.MaskOfSameKeys | src/pybot/youpi2/ctlpanel/keys.py:38 | order and repetition of the keys do not change the mask |
| Keys.OneIsMany | src/pybot/youpi2/ctlpanel/keys.py:33-37 | a single key gives the mask of the list of it, except the falsy key 0 |
| Keys.MaskExamples | src/pybot/youpi2/ctlpanel/keys.py:10-40 | nothing gives 0x0f, all keys give 0, a key above 4 is ignored |
| Panel.ShiftedStep | src/pybot/youpi2/ctlpanel/api.py:267 | shifting once more halves the shifted state, as `state >>= 1` does |
| Panel.StateToKeys | src/pybot/youpi2/ctlpanel/api.py:259-268 | the loop collects the characters of the set bits |
| Panel.KeysOfStateBits | src/pybot/youpi2/ctlpanel/api.py:259-268 | character i of `123456789*0#` is in the keys iff bit i is set, and no other character is |
| Panel.Pow2 | src/pybot/youpi2/ctlpanel/api.py:264-267 | a power of two is at least 1 |
| Panel.ShiftedHigh | src/pybot/youpi2/ctlpanel/api.py:264-267 | adding a multiple of 2^j adds a multiple of 2^(j-i) to the state shifted by i <= j |
| Panel.LowBitKept | src/pybot/youpi2/ctlpanel/api.py:264-267 | adding a multiple of 2^j keeps the bits below j |
| Panel.HighBitsIgnored | src/pybot/youpi2/ctlpanel/api.py:264-267 | the bits above the twelfth do not change the keys |
| Panel.IndexOf | src/pybot/youpi2/ctlpanel/api.py:287 | `index` gives the first position of the element |
| Panel.PanelKeysOfState | src/pybot/youpi2/ctlpanel/api.py:285-289 | the panel keys of a state are keys 1-4 only, from bits 0, 1, 3 and 4 |
| Panel.LedStateBits | src/pybot/youpi2/ctlpanel/api.py:90-95 | `set_leds` lights exactly the given keys (none when omitted) and raises iff `mask` does |
| Panel.LatchSettles | src/pybot/youpi2/ctlpanel/api.py:297-305 | the latch fires iff the recorded state is not the current one, so a recorded state does not fire again until the switch changes |
| Panel.FirstMissing | src/pybot/youpi2/ctlpanel/api.py:70-72 | nothing is missing iff every required attribute is present; a missing one is required and absent |
| Panel.CheckDeviceSpec | src/pybot/youpi2/ctlpanel/api.py:31-34 | the check passes iff the device is truthy and has every attribute the panel uses; a falsy device is a ValueError; otherwise the TypeError names the first attribute missing |
| Panel.CorrectedCheckIsStricter | src/pybot/youpi2/ctlpanel/api.py:58-72 | every device the corrected checks accept passes the checks as written |
| Panel.FirstMissingIsFirst | src/pybot/youpi2/ctlpanel/api.py:70-72 | every required attribute before the missing one is present |
| Panel.AsWrittenAcceptsNoLedSetter | src/pybot/youpi2/ctlpanel/api.py:60-72 | the check as written accepts a device without `set_leds_state`, which the corrected check rejects |
| Panel.AllBut | src/pybot/youpi2/ctlpanel/api.py:60-69 | the attribute left out is absent |
| Panel.FindMissing | src/pybot/youpi2/ctlpanel/api.py:70-72 | the loop finds the first missing attribute |
| Panel.CheckDeviceType | src/pybot/youpi2/ctlpanel/api.py:58-72 | the checking of a truthy device decides as `CheckDevice` does |
| Panel.Spaces | src/pybot/youpi2/ctlpanel/api.py:299 | a blank line is as wide as the display |
| Panel.CountdownTextsCount | src/pybot/youpi2/ctlpanel/api.py:215-218 | the countdown shows every second from the delay down to 1, once each, on line 2 |
| Panel.ControlPanel.constructor | src/pybot/youpi2/ctlpanel/api.py:26-47 | a panel on a device that passes the constructor's checks as written starts active, with `was_locked` false |
| Panel.ControlPanel.Terminate | src/pybot/youpi2/ctlpanel/api.py:49-56 | clears the active flag |
| Panel.ControlPanel.Sleep | src/pybot/youpi2/ctlpanel/api.py:220 | one scan period; a due `terminate` clears the active flag |
| Panel.ControlPanel.SetLeds | src/pybot/youpi2/ctlpanel/api.py:90-95 | writes the LED state of the keys; when `mask` raises, nothing is written |
| Panel.ControlPanel.LedsOff | src/pybot/youpi2/ctlpanel/api.py:97-99 | writes 0 |
| Panel.ControlPanel.IsLocked | src/pybot/youpi2/ctlpanel/api.py:101-104 | one lock switch reading |
| Panel.ControlPanel.GetKeys | src/pybot/youpi2/ctlpanel/api.py:270-289 | no keys while locked, without reading the keypad; otherwise the panel keys of one keypad reading; always keys 1-4 only |
| Panel.ControlPanel.CenterTextAt | src/pybot/youpi2/ctlpanel/api.py:149-156 | one centred text on the given line |
| Panel.ControlPanel.AnyKeyToExitMessage | src/pybot/youpi2/ctlpanel/api.py:294-305 | no change unless the latch fires; then locked means a blank line with LEDs off, unlocked means the message with every LED on; the lock state is recorded |
| Panel.ControlPanel.ExitKeyMessage | src/pybot/youpi2/ctlpanel/api.py:307-321 | the same, lighting the given keys; when `mask` raises, the message is shown and the state is not recorded |
| Panel.ControlPanel.UpdateLeds | src/pybot/youpi2/ctlpanel/api.py:237-244 | when the lock state differs from the recorded one: off while locked, the valid keys lit while unlocked, then the lock state recorded; otherwise nothing changes; when `mask` raises nothing is written or recorded |
| Panel.ControlPanel.ScanKeys | src/pybot/youpi2/ctlpanel/api.py:237-252 | one scan: a key is returned only if it is valid and was read from the keypad on this scan while unlocked; the LEDs keep following the lock state |
| Panel.ControlPanel.WaitForKey | src/pybot/youpi2/ctlpanel/api.py:225-254 | a returned key is one of `valid` (all keys when empty), read from the keypad while unlocked; the LEDs are off while locked and light the valid keys while unlocked; `None` only once terminated; an error only for a key below 1 |
| Panel.LedStateFailsOnBadKey | src/pybot/youpi2/ctlpanel/api.py:90-95 | `set_leds` raises only for a list holding a key below 1 |
| Panel.ControlPanel.Countdown | src/pybot/youpi2/ctlpanel/api.py:180-223 | a delay <= 0 returns False and touches nothing; otherwise the LEDs end off; True iff the panel stays active for delay seconds, with the message, each second and "NOW" shown; `None` once terminated, with the screen cleared, the message shown and the seconds shown up to then |
| Panel.Open | src/pybot/youpi2/ctlpanel/api.py:26-34 | the constructor fails iff the device check fails, with its error; otherwise a fresh active panel with `was_locked` false |

## Left out

- Settings.SettingsOf: the gripper entry has the full-step threshold `max_speed / 2`
  (1000). The subclass as written leaves the inherited 200 in force (model.py:120, see
  "## Findings"). `GripperFullStepThreshold` states both values.
- Arm.SettingsTable: holds that corrected gripper entry, where model.py:147-154
  instantiates the one with 200.
- Arm.SetupCommands: pushes the corrected gripper entry, where model.py:229 pushes 200.
- Arm.YoupiArm.Initialize: sends the corrected gripper settings, where model.py:229
  sends 200.
- Youpi6470.Youpi.Initialize: sends the corrected gripper settings, where
  youpi6470.py:95 and 173 send 200.
- Panel.CheckDeviceType: decides with the corrected attribute list. A truthy device
  lacking only `set_leds_state` fails here, but the list as written (api.py:60-72)
  accepts it. `CheckDeviceAsWritten` and `AsWrittenAcceptsNoLedSetter` give the
  as-written decision.
- Panel.Open: fails whenever the corrected check fails. So it refuses the device lacking
  only `set_leds_state` that api.py:26-34 accepts. The constructor itself requires only
  the checks as written.
- Joint identifiers outside 0..5 are not modelled: `Motor` is the range 0..5. In the
  source, a key of 6 raises IndexError (model.py:518, 562), and a key of -1 silently
  stands for the gripper (`goals[-1]`, `settings[-1]`).

- The `real_raspi` bypass: every operation is modelled as on the real board.
- Logging and the `wait_cb` callbacks. The register encoding of the settings (`step_sel`,
  `max_spd_calc`, ...) and the SPI transport belong to the daisy chain library, which is
  not part of this model.
- `configure` raises NotImplementedError and is not modelled.
- `coupled_joints_move` and `coupled_joints_goto` are `JointsMove` and `JointsGoto` with
  `coupled` set.
- The `Youpi` class repeats the text of the motions, the coupling, the limit check, the
  gripper operations and the hand rotation, without a timeout argument. `Youpi6470`
  reuses `Motion` and `Coupling` for them.
- Python floats are modelled as exact reals. Float rounding before the truncation of
  `int(...)` is not modelled.
- Arm.PollSwitch: a timeout is a budget of sleeps. The time the chain commands take
  between two readings is not modelled.
- Youpi6470.Youpi.SeekOrigins: stated only for a sequence that would complete within
  some timeout. Without one, the source loops forever, and a method that never returns
  states nothing.
- Youpi6470.Youpi.HomeJoints: stated under the same condition as SeekOrigins, for the
  same reason.
- Youpi6470.Youpi.SeekOrigin: requires that the switch leaves its initial state and
  comes back. Otherwise the source never returns.
- The evdev input device: `get_keys` reads the keypad state only, and the constructor
  does not look for an input device. Both are calls into a foreign library.
- Panel.ControlPanel.Countdown: the abort key is left out. `Keys.ESC` is undefined in
  `keys.py`, so api.py:198 raises on every call with a positive delay, whatever
  `can_abort` is. The model counts down as if the name existed.
- Panel.ControlPanel.ExitKeyMessage: `msg` is taken with the key names already filled
  in. `Keys.names` is not defined in `keys.py`.
- Panel.ControlPanel.CenterTextAt: the padding of `string.center` is not computed. The
  display records the text and its line.
- Panel.ControlPanel.Countdown: the wall clock is counted in scan periods. Each second
  is 10 periods, and the time the panel operations take is ignored.
- Panel.ControlPanel.WaitForKey: `set.pop` takes any key of the set. The model makes
  the same choice. In the source, `wait_for_key` never returns when no valid key is
  pressed and no `terminate` arrives. The model fixes the scan at which `terminate`
  arrives (`terminateAt`), so every wait ends, and states nothing about a wait that
  never does.
- The other panel operations (`display_splash`, `display_progress`, `backlight`, `reset`,
  `clear`, `write`) are direct device calls. Only the ones the modelled operations use
  are kept.

## Findings

| source | as written | input that shows it | evidently intended | confidence | as-written member | corrected member |
|---|---|---|---|---|---|---|
| src/pybot/youpi2/ctlpanel/api.py:60-69 | the required attributes list `get_leds_state` twice and never `set_leds_state`, which the `leds` setter calls | a truthy device with every attribute but `set_leds_state` passes the constructor check | the second entry is `set_leds_state` | high, not executed | Panel.AsWrittenAcceptsNoLedSetter | Panel.CheckDeviceSpec |
| src/pybot/youpi2/model.py:120 | the gripper settings assign `fs_speed`, a name nothing reads, so `fs_spd` stays at the inherited 200 | `GripperMotorSettings().fs_spd` is 200 where `max_speed / 2` is 1000 | `fs_spd = max_speed / 2` | high, not executed | Settings.GripperFullStepThreshold | Settings.SettingsOf |
