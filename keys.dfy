/**
 * The four keys of the control panel and the LED mask of a set of keys (`Keys.mask`). The
 * LEDs are driven by the outputs of a port expander used as current sinks, so a LED is on
 * when its output bit is 0: the mask of a set of keys has the bits of those keys cleared.
 */
module Keys {
  import opened Wrappers

  /** The key identifiers: top-left, top-right, bottom-left, bottom-right. */
  const TL: int := 1
  const TR: int := 2
  const BL: int := 3
  const BR: int := 4
  /** All the keys, in the order of the panel. */
  const ALL: seq<int> := [TL, TR, BL, BR]
  /** The first key of `ALL`. */
  const FIRST: int := ALL[0]

  /** A key of the panel. */
  predicate IsKey(k: int)
  {
    TL <= k <= BR
  }

  /** What `mask` is given: nothing (`None` or a missing argument), a single key, or a
      collection of keys. */
  datatype KeysArg = Omitted | One(key: int) | Many(keys: seq<int>)

  /** The ValueError of a shift by a negative count, raised for a key below 1. */
  datatype MaskError = NegativeShiftCount

  /** The low four bits of `1 << (k - 1)`: the output bit of key `k`, none for an
      identifier above the four keys (its bit is dropped by the final `& 0x0f`). */
  function KeyBit(k: int): (b: bv4)
    requires k >= 1
    ensures IsKey(k) ==> b != 0 && b & (b - 1) == 0
    ensures !IsKey(k) ==> b == 0
  {
    if k <= BR then (1 as bv4) << (k - 1) else 0
  }

  /** The bits of two keys overlap only when the keys are the same. */
  lemma KeyBitsDistinct(k: int, j: int)
    requires IsKey(k) && IsKey(j)
    ensures KeyBit(k) & KeyBit(j) != 0 <==> k == j
  {
  }

  /** The OR of the bits of a list of keys, folded from the left as `reduce` does; the
      empty list, which `mask` never folds, gives no bit. */
  function KeyBits(ks: seq<int>): bv4
    requires forall i :: 0 <= i < |ks| ==> ks[i] >= 1
  {
    if ks == [] then 0 else KeyBits(ks[..|ks| - 1]) | KeyBit(ks[|ks| - 1])
  }

  /** The bit of key `k` is set in the fold exactly when `k` is in the list. */
  lemma {:induction false} KeyBitsHas(ks: seq<int>, k: int)
    requires forall i :: 0 <= i < |ks| ==> ks[i] >= 1
    requires IsKey(k)
    ensures KeyBits(ks) & KeyBit(k) != 0 <==> k in ks
  {
    if ks != [] {
      var init, last := ks[..|ks| - 1], ks[|ks| - 1];
      assert ks == init + [last];
      KeyBitsHas(init, k);
      if IsKey(last) {
        KeyBitsDistinct(last, k);
      }
    }
  }

  /** `Keys.mask`: all LEDs off (`0x0f`) for no keys, the key 0 included since it is falsy;
      otherwise the complement of the OR of the key bits, four bits wide. A key below 1,
      in a collection or on its own, raises. */
  function Mask(arg: KeysArg): Result<bv4, MaskError>
  {
    match arg
    case Omitted => Ok(0xf)
    case One(k) =>
      if k == 0 then Ok(0xf)
      else if k < 1 then Err(NegativeShiftCount)
      else Ok(!KeyBits([k]))
    case Many(ks) =>
      if ks == [] then Ok(0xf)
      else if exists i :: 0 <= i < |ks| && ks[i] < 1 then Err(NegativeShiftCount)
      else Ok(!KeyBits(ks))
  }

  /** The keys of an argument, as the list `mask` folds. */
  function KeyList(arg: KeysArg): seq<int>
  {
    match arg
    case Omitted => []
    case One(k) => if k == 0 then [] else [k]
    case Many(ks) => ks
  }

  /** `mask` raises exactly when one of the keys is below 1 (the key 0 alone being no key),
      and otherwise clears the bit of key `k` exactly when `k` is one of the keys. */
  lemma MaskBits(arg: KeysArg)
    ensures Mask(arg).Err? <==> exists i :: 0 <= i < |KeyList(arg)| && KeyList(arg)[i] < 1
    ensures Mask(arg).Ok? ==> forall k :: IsKey(k) ==> (Mask(arg).value & KeyBit(k) == 0 <==> k in KeyList(arg))
  {
    var ks := KeyList(arg);
    if Mask(arg).Ok? {
      assert forall i :: 0 <= i < |ks| ==> ks[i] >= 1;
      forall k | IsKey(k) ensures Mask(arg).value & KeyBit(k) == 0 <==> k in ks {
        KeyBitsHas(ks, k);
      }
    }
  }

  /** A value of four bits is known from the bits of the four keys. */
  lemma SameKeyBits(a: bv4, b: bv4)
    requires forall k :: IsKey(k) ==> (a & KeyBit(k) == 0 <==> b & KeyBit(k) == 0)
    ensures a == b
  {
    assert a & KeyBit(1) == 0 <==> b & KeyBit(1) == 0;
    assert a & KeyBit(2) == 0 <==> b & KeyBit(2) == 0;
    assert a & KeyBit(3) == 0 <==> b & KeyBit(3) == 0;
    assert a & KeyBit(4) == 0 <==> b & KeyBit(4) == 0;
  }

  /** The mask only depends on which keys are given: neither their order nor repetitions
      change it. */
  lemma MaskOfSameKeys(a: KeysArg, b: KeysArg)
    requires Mask(a).Ok? && Mask(b).Ok?
    requires forall k :: k in KeyList(a) <==> k in KeyList(b)
    ensures Mask(a) == Mask(b)
  {
    MaskBits(a);
    MaskBits(b);
    SameKeyBits(Mask(a).value, Mask(b).value);
  }

  /** A single key is the list of that key, except the key 0, which is falsy and so turns
      every LED off where the list `[0]` raises. */
  lemma OneIsMany(k: int)
    ensures k != 0 ==> Mask(One(k)) == Mask(Many([k]))
    ensures Mask(One(0)) == Ok(0xf) && Mask(Many([0])) == Err(NegativeShiftCount)
  {
  }

  /** The masks of the extreme sets: every LED off for no keys, every LED on for all of
      them, and keys above the four are ignored. */
  lemma MaskExamples()
    ensures Mask(Omitted) == Mask(Many([])) == Ok(0xf)
    ensures Mask(Many(ALL)) == Ok(0)
    ensures Mask(Many([TR, 7])) == Mask(One(TR)) == Ok(0xd)
  {
    assert ALL[..3] == [1, 2, 3] && [1, 2, 3][..2] == [1, 2] && [1, 2][..1] == [1];
    assert KeyBits(ALL) == KeyBit(1) | KeyBit(2) | KeyBit(3) | KeyBit(4) == 0xf;
    assert [TR, 7][..1] == [TR];
  }
}
