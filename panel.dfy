/**
 * The control panel of the arm (class `ControlPanel`): an LCD with a 3x4 keypad whose
 * keys 1, 2, 4 and 5 are the four panel keys, four LEDs beside them and a lock switch
 * that inhibits the keys. The device is seen through what the panel writes to it (LED
 * state, display operations) and through the readings it takes (lock switch, keypad
 * state), supplied one after the other. The `terminate` call of a signal handler is the
 * scan period at which it happens.
 */
module Panel {
  import opened Wrappers
  import opened Keys

  /** The keypad characters, in the order of the bits of the keypad state. */
  const KEYPAD_CHARS: string := "123456789*0#"
  /** The keypad characters of the four panel keys, in key order. */
  const KEYPAD_3X4_KEYS: string := "1245"
  /** `KEYPAD_SCAN_PERIOD` is a tenth of a second. */
  const SCANS_PER_SECOND: nat := 10

  // ----- keypad state decoding -----

  /** `state >> i`, shifting with the floor division that Python uses (Dafny's division
      by 2 rounds down too, for negative states as well). */
  function Shifted(state: int, i: nat): int
    decreases i
  {
    if i == 0 then state else Shifted(state / 2, i - 1)
  }

  /** Bit `i` of the state, `state >> i & 1` (the remainder by 2 is 0 or 1 in both
      languages). */
  predicate BitSet(state: int, i: nat)
  {
    Shifted(state, i) % 2 == 1
  }

  lemma {:induction false} ShiftedStep(state: int, i: nat)
    ensures Shifted(state, i + 1) == Shifted(state, i) / 2
    decreases i
  {
    if i > 0 {
      ShiftedStep(state / 2, i - 1);
    }
  }

  /** The characters of the keypad whose bits are set in the state. */
  function KeysOfState(state: int): set<char>
  {
    set i | 0 <= i < |KEYPAD_CHARS| && BitSet(state, i) :: KEYPAD_CHARS[i]
  }

  /** `state_to_keys`: scans the twelve low bits of the state, adding the character of
      each set bit. */
  method StateToKeys(state: int) returns (keys: set<char>)
    ensures keys == KeysOfState(state)
  {
    keys := {};
    var rest := state;
    for i := 0 to |KEYPAD_CHARS|
      invariant rest == Shifted(state, i)
      invariant keys == set j | 0 <= j < i && BitSet(state, j) :: KEYPAD_CHARS[j]
    {
      if rest % 2 == 1 {
        keys := keys + {KEYPAD_CHARS[i]};
      }
      ShiftedStep(state, i);
      rest := rest / 2;
    }
  }

  /** Each keypad character stands for one bit: the character is in the keys of the state
      exactly when its bit is set, and nothing else is. */
  lemma KeysOfStateBits(state: int)
    ensures forall i :: 0 <= i < |KEYPAD_CHARS| ==> (KEYPAD_CHARS[i] in KeysOfState(state) <==> BitSet(state, i))
    ensures forall c :: c in KeysOfState(state) ==> c in KEYPAD_CHARS
  {
    forall i | 0 <= i < |KEYPAD_CHARS| && KEYPAD_CHARS[i] in KeysOfState(state) ensures BitSet(state, i) {
      var j :| 0 <= j < |KEYPAD_CHARS| && BitSet(state, j) && KEYPAD_CHARS[j] == KEYPAD_CHARS[i];
      assert i == j;
    }
  }

  function Pow2(n: nat): (p: nat)
    ensures p >= 1
  {
    if n == 0 then 1 else 2 * Pow2(n - 1)
  }

  /** Adding a multiple of `2^j` to the state adds a multiple of `2^(j - i)` to the state
      shifted by `i <= j`. */
  lemma {:induction false} ShiftedHigh(state: int, n: int, j: nat, i: nat)
    requires i <= j
    ensures Shifted(state + Pow2(j) * n, i) == Shifted(state, i) + Pow2(j - i) * n
    decreases i
  {
    if i > 0 {
      var x := Pow2(j - 1) * n;
      assert Pow2(j) * n == 2 * x;
      HalveEven(state, x);
      ShiftedHigh(state / 2, n, j - 1, i - 1);
    }
  }

  lemma HalveEven(a: int, x: int)
    ensures (a + 2 * x) / 2 == a / 2 + x
  {
  }

  /** Adding a multiple of `2^j` leaves the bits below `j` as they are. */
  lemma LowBitKept(state: int, n: int, j: nat, i: nat)
    requires i < j
    ensures BitSet(state + Pow2(j) * n, i) == BitSet(state, i)
  {
    ShiftedHigh(state, n, j, i);
    var y := Pow2(j - i - 1) * n;
    assert Pow2(j - i) * n == 2 * y;
    ParityOfEvenSum(Shifted(state, i), y);
  }

  lemma ParityOfEvenSum(a: int, y: int)
    ensures (a + 2 * y) % 2 == a % 2
  {
  }

  /** The bits above the twelfth are ignored. */
  lemma HighBitsIgnored(state: int, n: int)
    ensures KeysOfState(state + Pow2(|KEYPAD_CHARS|) * n) == KeysOfState(state)
  {
    var high := state + Pow2(|KEYPAD_CHARS|) * n;
    forall i | 0 <= i < |KEYPAD_CHARS| ensures BitSet(high, i) == BitSet(state, i) {
      LowBitKept(state, n, |KEYPAD_CHARS|, i);
    }
  }

  // ----- panel keys -----

  /** `index` of a string or a list: the first position of an element. */
  function IndexOf<T(==)>(s: seq<T>, x: T): (i: nat)
    requires x in s
    ensures i < |s| && s[i] == x && x !in s[..i]
  {
    if s[0] == x then 0 else 1 + IndexOf(s[1..], x)
  }

  /** The panel keys of a set of keypad characters: the characters `1245` give the keys 1 to
      4, every other character is dropped. */
  function PanelKeys(chars: set<char>): set<int>
  {
    set c | c in chars && c in KEYPAD_3X4_KEYS :: IndexOf(KEYPAD_3X4_KEYS, c) + FIRST
  }

  /** The panel keys read from a keypad state: the four keys are the bits 0, 1, 3 and 4 of
      the state (characters `1`, `2`, `4`, `5`), and no other key is ever reported. */
  lemma PanelKeysOfState(state: int)
    ensures var ks := PanelKeys(KeysOfState(state));
      && (forall k :: k in ks ==> IsKey(k))
      && (TL in ks <==> BitSet(state, 0)) && (TR in ks <==> BitSet(state, 1))
      && (BL in ks <==> BitSet(state, 3)) && (BR in ks <==> BitSet(state, 4))
  {
    KeysOfStateBits(state);
    var chars := KeysOfState(state);
    assert IndexOf(KEYPAD_3X4_KEYS, '1') == 0 && IndexOf(KEYPAD_3X4_KEYS, '2') == 1;
    assert IndexOf(KEYPAD_3X4_KEYS, '4') == 2 && IndexOf(KEYPAD_3X4_KEYS, '5') == 3;
    assert KEYPAD_CHARS[0] == '1' && KEYPAD_CHARS[1] == '2' && KEYPAD_CHARS[3] == '4' && KEYPAD_CHARS[4] == '5';
    assert TL in PanelKeys(chars) <==> '1' in chars;
    assert TR in PanelKeys(chars) <==> '2' in chars;
    assert BL in PanelKeys(chars) <==> '4' in chars;
    assert BR in PanelKeys(chars) <==> '5' in chars;
  }

  // ----- LEDs -----

  /** The LED state `set_leds` writes: the complement of the mask, so bit `k - 1` is set
      for each LED to turn on. */
  function LedState(arg: KeysArg): Result<bv4, MaskError>
  {
    match Mask(arg)
    case Ok(m) => Ok(!m)
    case Err(e) => Err(e)
  }

  /** `set_leds` turns on exactly the LEDs of the given keys (none when omitted) and raises
      when `mask` does. */
  lemma LedStateBits(arg: KeysArg)
    ensures LedState(arg).Err? <==> Mask(arg).Err?
    ensures LedState(arg).Ok? ==> forall k :: IsKey(k) ==> (LedState(arg).value & KeyBit(k) != 0 <==> k in KeyList(arg))
    ensures LedState(Omitted) == Ok(0)
  {
    MaskBits(arg);
  }

  // ----- the lock latch -----

  /** `set_leds` raises only for a list holding a key below 1. */
  lemma LedStateFailsOnBadKey(v: seq<int>)
    requires LedState(Many(v)).Err?
    ensures exists i :: 0 <= i < |v| && v[i] < 1
  {
    LedStateBits(Many(v));
    MaskBits(Many(v));
  }

  /** The exit messages redraw the bottom line when the lock state was never recorded or
      differs from the one recorded. */
  predicate LatchFires(wasLocked: Option<bool>, isLocked: bool)
  {
    wasLocked.None? || wasLocked.value != isLocked
  }

  /** The latch fires exactly when the recorded state is not the current one, so once the
      current state is recorded it does not fire again until the lock switch changes. */
  lemma LatchSettles(wasLocked: Option<bool>, isLocked: bool, next: bool)
    ensures LatchFires(wasLocked, isLocked) <==> wasLocked != Some(isLocked)
    ensures LatchFires(Some(isLocked), next) <==> next != isLocked
  {
  }

  // ----- the device and its check -----

  /** The device attributes the panel constructor looks for. */
  datatype Attribute =
    | Width | Height | GetLedsState | SetLedsState | IsLockedAttr | GetBacklight
    | SetBacklight | ClearAttr | Write | WriteAt | GetKeypadState | Reset

  /** The errors of the panel constructor: a missing device (ValueError) and a device
      lacking an attribute (TypeError naming it). */
  datatype PanelError = MissingDevice | MissingAttribute(attribute: Attribute)

  /** The device given to the panel: whether it is truthy, the attributes it has, its
      display width, its LED state, and the successive readings of its lock switch and of
      its keypad state. */
  datatype Device = Device(truthy: bool, attributes: set<Attribute>, width: nat, leds: bv4,
                           lockedAt: nat -> bool, keypadAt: nat -> int)

  /** The attributes the constructor checks, as written: `get_leds_state` twice. */
  const REQUIRED_AS_WRITTEN: seq<Attribute> :=
    [Width, Height, GetLedsState, GetLedsState, IsLockedAttr, GetBacklight,
     SetBacklight, ClearAttr, Write, WriteAt, GetKeypadState, Reset]

  /** The attributes of the device the panel uses: the LED state is read by
      `get_leds_state` and written by `set_leds_state`. */
  const REQUIRED_ATTRS: seq<Attribute> :=
    [Width, Height, GetLedsState, SetLedsState, IsLockedAttr, GetBacklight,
     SetBacklight, ClearAttr, Write, WriteAt, GetKeypadState, Reset]

  /** The first of `required` the device lacks, if any. */
  function FirstMissing(attributes: set<Attribute>, required: seq<Attribute>): (r: Option<Attribute>)
    ensures r.None? <==> forall i :: 0 <= i < |required| ==> required[i] in attributes
    ensures r.Some? ==> r.value in required && r.value !in attributes
  {
    if required == [] then None
    else if required[0] !in attributes then Some(required[0])
    else FirstMissing(attributes, required[1..])
  }

  /** The constructor's checks against a list of required attributes. */
  function CheckAgainst(d: Device, required: seq<Attribute>): Outcome<PanelError>
  {
    if !d.truthy then Fail(MissingDevice)
    else match FirstMissing(d.attributes, required)
      case None => Pass
      case Some(a) => Fail(MissingAttribute(a))
  }

  /** The checks of the constructor as written. */
  function CheckDeviceAsWritten(d: Device): Outcome<PanelError>
  {
    CheckAgainst(d, REQUIRED_AS_WRITTEN)
  }

  /** The checks of the constructor, every attribute the panel uses included. */
  function CheckDevice(d: Device): Outcome<PanelError>
  {
    CheckAgainst(d, REQUIRED_ATTRS)
  }

  /** Every device the corrected checks accept passes the checks as written; the converse
      fails for a device lacking only `set_leds_state` (`AsWrittenAcceptsNoLedSetter`). */
  lemma CorrectedCheckIsStricter(d: Device)
    requires CheckDevice(d) == Pass
    ensures CheckDeviceAsWritten(d) == Pass
  {
    assert forall i :: 0 <= i < |REQUIRED_AS_WRITTEN| ==> REQUIRED_AS_WRITTEN[i] in REQUIRED_ATTRS;
  }

  /** A device passes the checks exactly when it is truthy and has every attribute the
      panel uses; otherwise the error is a missing device or names the first attribute it
      lacks. */
  lemma CheckDeviceSpec(d: Device)
    ensures CheckDevice(d) == Pass <==> d.truthy && forall a :: a in REQUIRED_ATTRS ==> a in d.attributes
    ensures CheckDevice(d) == Fail(MissingDevice) <==> !d.truthy
    ensures CheckDevice(d).Fail? && CheckDevice(d).error.MissingAttribute? ==>
      var a := CheckDevice(d).error.attribute;
      a in REQUIRED_ATTRS && a !in d.attributes && forall i :: 0 <= i < IndexOf(REQUIRED_ATTRS, a) ==> REQUIRED_ATTRS[i] in d.attributes
  {
    if d.truthy && CheckDevice(d).Fail? {
      FirstMissingIsFirst(d.attributes, REQUIRED_ATTRS);
    }
  }

  lemma {:induction false} FirstMissingIsFirst(attributes: set<Attribute>, required: seq<Attribute>)
    requires FirstMissing(attributes, required).Some?
    ensures var a := FirstMissing(attributes, required).value;
      a in required && forall i :: 0 <= i < IndexOf(required, a) ==> required[i] in attributes
  {
    if required[0] in attributes {
      FirstMissingIsFirst(attributes, required[1..]);
      var a := FirstMissing(attributes, required).value;
      assert IndexOf(required, a) == 1 + IndexOf(required[1..], a);
      forall i | 0 < i < IndexOf(required, a) ensures required[i] in attributes {
        assert required[i] == required[1..][i - 1];
      }
    }
  }

  /** The check as written lets through a device that cannot set its LEDs. */
  lemma AsWrittenAcceptsNoLedSetter()
    ensures var d := Device(true, AllBut(SetLedsState), 20, 0, _ => false, _ => 0);
      && CheckDeviceAsWritten(d) == Pass
      && CheckDevice(d) == Fail(MissingAttribute(SetLedsState))
  {
    var d := Device(true, AllBut(SetLedsState), 20, 0, _ => false, _ => 0);
    assert forall i :: 0 <= i < |REQUIRED_AS_WRITTEN| ==> REQUIRED_AS_WRITTEN[i] in d.attributes;
    assert REQUIRED_ATTRS[3..][1..] == REQUIRED_ATTRS[4..];
  }

  /** Every attribute but one. */
  function AllBut(a: Attribute): (s: set<Attribute>)
    ensures a !in s
  {
    {Width, Height, GetLedsState, SetLedsState, IsLockedAttr, GetBacklight,
     SetBacklight, ClearAttr, Write, WriteAt, GetKeypadState, Reset} - {a}
  }

  /** The loop of `_check_device_type`: the required attributes in order, stopping at the
      first the device lacks. */
  method FindMissing(attributes: set<Attribute>, required: seq<Attribute>) returns (r: Option<Attribute>)
    ensures r == FirstMissing(attributes, required)
  {
    for i := 0 to |required|
      invariant FirstMissing(attributes, required) == FirstMissing(attributes, required[i..])
    {
      assert required[i..][0] == required[i] && required[i..][1..] == required[i + 1..];
      if required[i] !in attributes {
        return Some(required[i]);
      }
    }
    assert required[|required|..] == [];
    r := None;
  }

  /** `_check_device_type` */
  method CheckDeviceType(d: Device) returns (r: Outcome<PanelError>)
    requires d.truthy
    ensures r == CheckDevice(d)
  {
    var missing := FindMissing(d.attributes, REQUIRED_ATTRS);
    r := if missing.Some? then Fail(MissingAttribute(missing.value)) else Pass;
  }

  // ----- the panel -----

  /** What the panel writes on the display: a clear, a text at a position, a text centred
      on a line (padded to the display width), and the countdown's "in N seconds..." line. */
  datatype ScreenOp =
    | ClearScreen
    | TextAt(text: string, line: int, col: int)
    | CenteredAt(text: string, line: int)
    | SecondsLeft(seconds: int, line: int)

  /** `' ' * n` */
  function Spaces(n: nat): (s: string)
    ensures |s| == n && forall i :: 0 <= i < n ==> s[i] == ' '
  {
    seq(n, _ => ' ')
  }

  /** The lines a countdown of `delay` seconds shows, one a second before "NOW". */
  function CountdownTexts(delay: nat): seq<ScreenOp>
  {
    seq(delay, i => SecondsLeft(delay - i, 2))
  }

  /** The countdown shows every second from `delay` down to 1, each once, on line 2. */
  lemma CountdownTextsCount(delay: nat)
    ensures var t := CountdownTexts(delay);
      && |t| == delay
      && (forall i :: 0 <= i < |t| ==> t[i].SecondsLeft? && t[i].line == 2 && 1 <= t[i].seconds <= delay)
      && (delay > 0 ==> t[0].seconds == delay && t[|t| - 1].seconds == 1)
      && (forall i :: 0 < i < |t| ==> t[i].seconds == t[i - 1].seconds - 1)
  {
  }

  /** The keypad panel: the device and the panel's own state. */
  class ControlPanel {
    const device: Device
    /** The signal handler's `terminate` happens during this scan period. */
    const terminateAt: nat

    /** The LED state last written to the device (bit `k - 1` lights key `k`). */
    var leds: bv4
    /** The display operations so far, oldest first. */
    var screen: seq<ScreenOp>
    /** The lock switch and keypad state readings consumed so far. */
    var lockReads: nat
    var keypadReads: nat
    /** `was_locked`: the lock state the exit messages last acted on (`None` once cleared). */
    var wasLocked: Option<bool>
    /** `_active`, cleared by `terminate`. */
    var active: bool
    /** The scan periods slept so far. */
    var scans: nat

    /** `__init__`, once the device has passed its checks as written. */
    constructor (device: Device, terminateAt: nat)
      requires CheckDeviceAsWritten(device) == Pass
      ensures this.device == device && this.terminateAt == terminateAt
      ensures leds == device.leds && screen == [] && lockReads == 0 && keypadReads == 0
      ensures wasLocked == Some(false) && active && scans == 0
    {
      this.device, this.terminateAt := device, terminateAt;
      leds, screen, lockReads, keypadReads := device.leds, [], 0, 0;
      wasLocked, active, scans := Some(false), true, 0;
    }

    /** `terminate` */
    method Terminate()
      modifies this`active
      ensures !active
    {
      active := false;
    }

    /** One `time.sleep(KEYPAD_SCAN_PERIOD)`; a `terminate` due during it takes effect. */
    method Sleep()
      modifies this`scans, this`active
      ensures scans == old(scans) + 1
      ensures active == (old(active) && scans < terminateAt)
    {
      scans := scans + 1;
      if scans >= terminateAt {
        active := false;
      }
    }

    /** `set_leds`: lights the LEDs of the given keys; when `mask` raises, nothing is
        written. */
    method SetLeds(arg: KeysArg) returns (r: Outcome<MaskError>)
      modifies this`leds
      ensures LedState(arg).Ok? ==> r == Pass && leds == LedState(arg).value
      ensures LedState(arg).Err? ==> r == Fail(LedState(arg).error) && leds == old(leds)
    {
      var state := LedState(arg);
      if state.Err? {
        return Fail(state.error);
      }
      leds := state.value;
      r := Pass;
    }

    /** `leds_off` */
    method LedsOff()
      modifies this`leds
      ensures leds == 0
    {
      leds := 0;
    }

    /** `is_locked` */
    method IsLocked() returns (locked: bool)
      modifies this`lockReads
      ensures locked == device.lockedAt(old(lockReads)) && lockReads == old(lockReads) + 1
    {
      locked := device.lockedAt(lockReads);
      lockReads := lockReads + 1;
    }

    /** `get_keys`, keypad path: nothing while locked, otherwise the panel keys of the
        keypad state. */
    method GetKeys() returns (keys: set<int>)
      modifies this`lockReads, this`keypadReads
      ensures lockReads == old(lockReads) + 1
      ensures device.lockedAt(old(lockReads)) ==> keys == {} && keypadReads == old(keypadReads)
      ensures !device.lockedAt(old(lockReads)) ==>
        keys == PanelKeys(KeysOfState(device.keypadAt(old(keypadReads)))) && keypadReads == old(keypadReads) + 1
      ensures forall k :: k in keys ==> IsKey(k)
    {
      var locked := IsLocked();
      if locked {
        return {};
      }
      var state := device.keypadAt(keypadReads);
      keypadReads := keypadReads + 1;
      PanelKeysOfState(state);
      var chars := StateToKeys(state);
      keys := if chars != {} then PanelKeys(chars) else {};
    }

    /** `center_text_at` */
    method CenterTextAt(text: string, line: int)
      modifies this`screen
      ensures screen == old(screen) + [CenteredAt(text, line)]
    {
      screen := screen + [CenteredAt(text, line)];
    }

    /** `any_key_to_exit_message`: when the lock state differs from the recorded one, blanks
        the line and switches the LEDs off if locked, or shows the message and lights every
        key if not, then records the lock state. */
    method AnyKeyToExitMessage(msg: string, line: int)
      modifies this`lockReads, this`screen, this`leds, this`wasLocked
      ensures lockReads == old(lockReads) + 1
      ensures var locked := device.lockedAt(old(lockReads));
        if !LatchFires(old(wasLocked), locked) then
          screen == old(screen) && leds == old(leds) && wasLocked == old(wasLocked)
        else if locked then
          screen == old(screen) + [TextAt(Spaces(device.width), line, 1)] && leds == 0 && wasLocked == Some(true)
        else
          screen == old(screen) + [CenteredAt(msg, line)] && leds == 0xf && wasLocked == Some(false)
    {
      var locked := IsLocked();
      if LatchFires(wasLocked, locked) {
        if locked {
          screen := screen + [TextAt(Spaces(device.width), line, 1)];
          LedsOff();
        } else {
          CenterTextAt(msg, line);
          var lit := SetLeds(Many(ALL));
          MaskExamples();
        }
        wasLocked := Some(locked);
      }
    }

    /** `exit_key_message`: as `AnyKeyToExitMessage`, lighting the given keys only (a single
        key is passed as a one-element list); `msg` is the message with the key names filled
        in. When `mask` raises, the message is shown and nothing else changes. */
    method ExitKeyMessage(msg: string, line: int, keys: seq<int>) returns (r: Outcome<MaskError>)
      modifies this`lockReads, this`screen, this`leds, this`wasLocked
      ensures lockReads == old(lockReads) + 1
      ensures var locked := device.lockedAt(old(lockReads));
        if !LatchFires(old(wasLocked), locked) then
          r == Pass && screen == old(screen) && leds == old(leds) && wasLocked == old(wasLocked)
        else if locked then
          r == Pass && screen == old(screen) + [TextAt(Spaces(device.width), line, 1)] && leds == 0 && wasLocked == Some(true)
        else
          screen == old(screen) + [CenteredAt(msg, line)]
          && (LedState(Many(keys)).Ok? ==> r == Pass && leds == LedState(Many(keys)).value && wasLocked == Some(false))
          && (LedState(Many(keys)).Err? ==> r.Fail? && leds == old(leds) && wasLocked == old(wasLocked))
    {
      r := Pass;
      var locked := IsLocked();
      if LatchFires(wasLocked, locked) {
        if locked {
          screen := screen + [TextAt(Spaces(device.width), line, 1)];
          LedsOff();
        } else {
          CenterTextAt(msg, line);
          r := SetLeds(Many(keys));
          if r.Fail? {
            return;
          }
        }
        wasLocked := Some(locked);
      }
    }

    /** The LEDs as `wait_for_key` keeps them: off while the recorded lock state is locked,
        lighting the keys of `v` while it is unlocked. */
    predicate LedsFollowLock(v: seq<int>)
      reads this`leds, this`wasLocked
    {
      && (wasLocked == Some(true) ==> leds == 0)
      && (wasLocked == Some(false) ==> LedState(Many(v)).Ok? && leds == LedState(Many(v)).value)
    }

    /** The LED upkeep of `wait_for_key`: when the lock state differs from the recorded
        one, turns the LEDs off while locked and lights the keys of `v` while unlocked, then
        records the lock state; when `mask` raises, nothing is written or recorded. */
    method UpdateLeds(v: seq<int>) returns (r: Outcome<MaskError>)
      modifies this`lockReads, this`leds, this`wasLocked
      ensures lockReads == old(lockReads) + 1
      ensures var locked := device.lockedAt(old(lockReads));
        if !LatchFires(old(wasLocked), locked) then
          r == Pass && leds == old(leds) && wasLocked == old(wasLocked)
        else if locked then
          r == Pass && leds == 0 && wasLocked == Some(true)
        else if LedState(Many(v)).Ok? then
          r == Pass && leds == LedState(Many(v)).value && wasLocked == Some(false)
        else
          r == Fail(LedState(Many(v)).error) && leds == old(leds) && wasLocked == old(wasLocked)
    {
      var locked := IsLocked();
      if LatchFires(wasLocked, locked) {
        if locked {
          LedsOff();
        } else {
          r := SetLeds(Many(v));
          if r.Fail? {
            return;
          }
        }
        wasLocked := Some(locked);
      }
      r := Pass;
    }

    /** One scan of `wait_for_key`: the LED upkeep, then the keys pressed; a pressed key
        is taken (`set.pop`) and returned when it is one of `v`. */
    method ScanKeys(v: seq<int>) returns (r: Result<Option<int>, MaskError>)
      requires LedsFollowLock(v)
      modifies this`leds, this`wasLocked, this`lockReads, this`keypadReads
      ensures keypadReads >= old(keypadReads) && lockReads > old(lockReads)
      ensures r.Err? ==> exists i :: 0 <= i < |v| && v[i] < 1
      ensures r.Ok? ==> LedsFollowLock(v)
      ensures r.Ok? && r.value.Some? ==>
        && r.value.value in v && IsKey(r.value.value)
        && keypadReads == old(keypadReads) + 1 && lockReads == old(lockReads) + 2
        && !device.lockedAt(lockReads - 1)
        && r.value.value in PanelKeys(KeysOfState(device.keypadAt(keypadReads - 1)))
    {
      var lit := UpdateLeds(v);
      if lit.Fail? {
        LedStateFailsOnBadKey(v);
        return Err(lit.error);
      }
      var keys := GetKeys();
      r := Ok(None);
      if keys != {} {
        var k :| k in keys;
        if k in v {
          r := Ok(Some(k));
        }
      }
    }

    /** `wait_for_key`: scans the keypad until a key of `valid` (every key when empty) is
        pressed, keeping the LEDs of the valid keys lit while unlocked and off while locked;
        the key returned was read from the keypad while the panel was unlocked; `None` once
        the panel is terminated. */
    method WaitForKey(valid: seq<int>) returns (r: Result<Option<int>, MaskError>)
      modifies this`leds, this`wasLocked, this`lockReads, this`keypadReads, this`scans, this`active
      ensures var v := if valid == [] then ALL else valid;
        && (r.Ok? && r.value.Some? ==> r.value.value in v && IsKey(r.value.value))
        && (r.Err? ==> exists i :: 0 <= i < |v| && v[i] < 1)
        && (r.Ok? ==> LedsFollowLock(v))
      ensures r.Ok? && r.value.Some? ==>
        && keypadReads > old(keypadReads) && lockReads > old(lockReads)
        && !device.lockedAt(lockReads - 1)
        && r.value.value in PanelKeys(KeysOfState(device.keypadAt(keypadReads - 1)))
      ensures r == Ok(None) ==> !active
      ensures !old(active) ==> r == Ok(None) && wasLocked == None && scans == old(scans)
    {
      var v := if valid == [] then ALL else valid;
      wasLocked := None;
      r := Ok(None);
      while active
        invariant !old(active) ==> !active && wasLocked == None && scans == old(scans)
        invariant LedsFollowLock(v) && r == Ok(None)
        invariant keypadReads >= old(keypadReads) && lockReads >= old(lockReads)
        decreases (if active then 1 else 0) + (if terminateAt > scans then terminateAt - scans else 0)
      {
        r := ScanKeys(v);
        if r.Err? || r.value.Some? {
          return;
        }
        Sleep();
      }
    }

    /** `countdown` without the abort key: nothing when the delay is not positive; otherwise
        shows the message and the seconds left, one scan period at a time, and "NOW" at the
        end (true), or stops when terminated (`None`); the LEDs end off. */
    method Countdown(msg: string, delay: int) returns (r: Option<bool>)
      modifies this`screen, this`leds, this`scans, this`active
      ensures delay <= 0 ==> r == Some(false) && screen == old(screen) && leds == old(leds)
      ensures delay <= 0 ==> scans == old(scans) && active == old(active)
      ensures delay > 0 ==> leds == 0
      ensures delay > 0 ==> (r == Some(true) <==> old(active) && old(scans) + SCANS_PER_SECOND * delay < terminateAt)
      ensures delay > 0 && r != Some(true) ==> r == None && !active
      ensures r == Some(true) ==>
        screen == old(screen) + [ClearScreen, CenteredAt(msg, 1)] + CountdownTexts(delay) + [CenteredAt("NOW", 2)]
      ensures r == None ==>
        exists n :: 0 <= n <= delay && screen == old(screen) + [ClearScreen, CenteredAt(msg, 1)] + CountdownTexts(delay)[..n]
    {
      if delay <= 0 {
        return Some(false);
      }
      screen := screen + [ClearScreen];
      LedsOff();
      CenterTextAt(msg, 1);
      ghost var base := screen;
      ghost var s0 := scans;
      var end := SCANS_PER_SECOND * delay;
      var refreshAt, left := 0, delay;
      ghost var shown := 0;
      var k := 0;
      while active
        invariant 0 <= k <= end && scans == s0 + k
        invariant active == (old(active) && (k == 0 || s0 + k < terminateAt))
        invariant shown == (k + 9) / 10 && shown <= delay
        invariant refreshAt == 10 * shown && left == delay - shown
        invariant screen == base + CountdownTexts(delay)[..shown]
        invariant leds == 0
        decreases end - k
      {
        if k >= end {
          CenterTextAt("NOW", 2);
          assert CountdownTexts(delay)[..shown] == CountdownTexts(delay);
          return Some(true);
        }
        if k >= refreshAt {
          assert CountdownTexts(delay)[..shown + 1] == CountdownTexts(delay)[..shown] + [SecondsLeft(left, 2)];
          screen := screen + [SecondsLeft(left, 2)];
          refreshAt := refreshAt + SCANS_PER_SECOND;
          left := left - 1;
          shown := shown + 1;
        }
        Sleep();
        k := k + 1;
      }
      LedsOff();
      r := None;
    }
  }

  /** The constructor with its checks: a ValueError for a falsy device, a TypeError naming
      the first attribute it lacks, and otherwise a panel with `was_locked` false. */
  method Open(device: Device, terminateAt: nat) returns (r: Result<ControlPanel, PanelError>)
    ensures r.Err? <==> CheckDevice(device).Fail?
    ensures r.Err? ==> r.error == CheckDevice(device).error
    ensures r.Ok? ==> fresh(r.value) && r.value.device == device && r.value.wasLocked == Some(false)
    ensures r.Ok? ==> r.value.active && r.value.screen == [] && r.value.leds == device.leds
  {
    if !device.truthy {
      return Err(MissingDevice);
    }
    var checked := CheckDeviceType(device);
    if checked.Fail? {
      return Err(checked.error);
    }
    CorrectedCheckIsStricter(device);
    var panel := new ControlPanel(device, terminateAt);
    r := Ok(panel);
  }
}
