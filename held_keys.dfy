/**
 * The array of 16 key holds that the scanner mutates on every tick (HeldKeys in
 * src/scan.rs). Each method is specified by the matching function of HeldSpec on the
 * array's contents, and keeps the invariant: active holds first, in press order,
 * no position held twice.
 */
module Tracker {
  import opened Keymap
  import opened HeldSpec

  /** What one visit of the count-down pass did to the slot under its cursor. */
  datatype Visit = Lowered | Expired | Idle

  class HeldKeys {
    const slots: array<KeyHold>

    ghost predicate Valid()
      reads this, slots
    {
      slots.Length == HeldKeysLimit && Inv(slots[..])
    }

    /** All 16 slots start free. */
    constructor ()
      ensures Valid() && fresh(slots)
      ensures slots[..] == seq(HeldKeysLimit, _ => EmptyHold)
      ensures Holds(slots[..]) == []
    {
      slots := new KeyHold[HeldKeysLimit](_ => EmptyHold);
    }

    /**
     * Record that `code` reads pressed this tick; `mapping` is what it does in the
     * currently active layer. Scans for a hold of `code` or the first free slot.
     */
    method RecordPressed(code: ScanCode, mapping: Thing)
      requires Valid()
      modifies slots
      ensures Valid()
      ensures slots[..] == Recorded(old(slots[..]), code, mapping)
    {
      ghost var s := slots[..];
      RecordPreservesInv(s, code, mapping);
      for i := 0 to slots.Length
        invariant slots[..] == s
        invariant forall j :: 0 <= j < i ==> IsActive(s[j]) && s[j].inScancode != code
      {
        if slots[i].debounceCount > 0 {
          if slots[i].inScancode == code {
            assert ActiveLen(s) > i;
            RecordRefresh(s, i, code, mapping);
            slots[i] := slots[i].(debounceCount := DefaultDebounceCount);
            return;
          }
        } else {
          assert ActiveLen(s) == i;
          RecordClaim(s, code, mapping);
          slots[i] := KeyHold(DefaultDebounceCount, code, mapping);
          return;
        }
      }
      RecordDropWhenFull(s, code, mapping);
    }

    /** The Things of the active holds, in press order (the slots up to the first free one). */
    function PressedThings(): (r: seq<Thing>)
      reads this, slots
      requires Valid()
      ensures r == Mappings(Holds(slots[..]))
    {
      assert slots[0..] == slots[..];
      PressedFrom(0)
    }

    function PressedFrom(i: nat): (r: seq<Thing>)
      reads this, slots
      requires i <= slots.Length
      ensures r == Mappings(Holds(slots[i..]))
      decreases slots.Length - i
    {
      if i == slots.Length || slots[i].debounceCount == 0 then
        []
      else
        assert slots[i..][1..] == slots[i + 1..];
        [slots[i].mapping] + PressedFrom(i + 1)
    }

    /** Nothing is held. Thanks to the invariant, looking at the first slot is enough. */
    function IsAllReleased(): (r: bool)
      reads this, slots
      requires Valid()
      ensures r <==> Holds(slots[..]) == []
      ensures r <==> forall i :: 0 <= i < slots.Length ==> !IsActive(slots[i])
    {
      InactiveTail(slots[..]);
      slots[0].debounceCount == 0
    }

    /**
     * Count every active hold down by one in a single pass. A hold that reaches 0 is
     * rotated to the end of the array, and the hold that slid into its place is
     * examined next, without moving the cursor.
     */
    method DecrementHolds()
      requires Valid()
      modifies slots
      ensures Valid()
      ensures slots[..] == Decremented(old(slots[..]))
    {
      ghost var s := slots[..];
      ghost var n := ActiveLen(s);
      InactiveTail(s);
      assert s == s[..n] + s[n..];
      CountDownPass(s[..n], s[n..]);
      DecrementPreservesInv(s);
    }

    /**
     * The count-down pass over slots holding the active holds `a` followed by the free
     * slots `t`. The cursor `keyIdx` stays put after an expiry, because the rotation
     * brings the next hold under it; the ghost `k` counts the holds of `a` visited.
     */
    method CountDownPass(ghost a: seq<KeyHold>, ghost t: seq<KeyHold>)
      requires slots.Length == HeldKeysLimit && slots[..] == a + t
      requires forall i :: 0 <= i < |a| ==> IsActive(a[i])
      requires forall i :: 0 <= i < |t| ==> !IsActive(t[i])
      modifies slots
      ensures slots[..] == Survive(a) + t + Expire(a)
    {
      ghost var k := 0;
      assert a[0..] == a && a[..0] == [];
      assert slots[..] == DecrementState(a, 0, t);
      label EachPosition:
      for keyIdx := 0 to HeldKeysLimit
        invariant k <= |a| && keyIdx == |Survive(a[..k])|
        invariant slots[..] == DecrementState(a, k, t)
      {
        while true
          invariant k <= |a| && keyIdx == |Survive(a[..k])|
          invariant slots[..] == DecrementState(a, k, t)
          decreases |a| - k
        {
          var outcome := CountDownAt(keyIdx, a, k, t);
          match outcome
          case Expired =>
            k := k + 1;
            continue;
          case Lowered =>
            k := k + 1;
            continue EachPosition;
          case Idle =>
            break EachPosition;
        }
      }
      SurviveShrinks(a[..k]);
      DecrementStateDone(a, k, t);
    }

    /**
     * One visit of the count-down pass to the slot at `keyIdx`, where the cursor of the
     * pass over the active holds `a` stands at `k`: an inactive slot ends the pass, an
     * active one is counted down and, once it reaches 0, rotated to the end.
     */
    method CountDownAt(keyIdx: nat, ghost a: seq<KeyHold>, ghost k: nat, ghost t: seq<KeyHold>)
      returns (outcome: Visit)
      requires slots.Length == |a| + |t| && k <= |a| && keyIdx == |Survive(a[..k])| < slots.Length
      requires forall i :: 0 <= i < |a| ==> IsActive(a[i])
      requires forall i :: 0 <= i < |t| ==> !IsActive(t[i])
      requires slots[..] == DecrementState(a, k, t)
      modifies slots
      ensures outcome == Idle ==> k == |a| && slots[..] == old(slots[..])
      ensures outcome != Idle ==> k < |a| && slots[..] == DecrementState(a, k + 1, t)
      ensures outcome == Lowered ==> |Survive(a[..k + 1])| == keyIdx + 1
      ensures outcome == Expired ==> |Survive(a[..k + 1])| == keyIdx
    {
      DecrementStateAt(a, k, t);
      var key := slots[keyIdx];
      if key.debounceCount == 0 {
        return Idle;
      }
      ghost var x := slots[..];
      var lowered := key.(debounceCount := key.debounceCount - 1);
      slots[keyIdx] := lowered;
      assert slots[..] == x[keyIdx := lowered];
      if lowered.debounceCount == 0 {
        DecrementStepExpired(a, k, t);
        RotateSuffixLeft(keyIdx);
        return Expired;
      }
      DecrementStepLowered(a, k, t);
      return Lowered;
    }

    /** Rotate the slots from `from` onwards left by one (the slice rotate_left(1)). */
    method RotateSuffixLeft(from: nat)
      requires from < slots.Length
      modifies slots
      ensures slots[..] == old(slots[..from]) + old(slots[from + 1..]) + [old(slots[from])]
    {
      ghost var s := slots[..];
      var first := slots[from];
      var i := from;
      while i + 1 < slots.Length
        invariant from <= i < slots.Length
        invariant forall j :: 0 <= j < from ==> slots[j] == s[j]
        invariant forall j :: from <= j < i ==> slots[j] == s[j + 1]
        invariant forall j :: i <= j < slots.Length ==> slots[j] == s[j]
      {
        slots[i] := slots[i + 1];
        i := i + 1;
      }
      slots[i] := first;
      RotatedLeft(s, slots[..], from);
    }
  }
}
