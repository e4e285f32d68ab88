/**
 * `SlotArray<T, SIZE>` (hell_core `collections/slot_array.rs`): `SIZE`
 * values beside a mask of free slots. Pushing takes the lowest free slot and
 * hands its index out as a `HellHandle`; removing only marks the slot free,
 * leaving its value in place.
 */
module SlotArrays {
  import opened Wrappers
  import opened HellErrors
  import opened CollectionErrors
  import opened Seqs

  const FULL_MSG: string := "slot array is full"

  datatype SlotState<T> = SlotState(data: seq<T>, isFree: seq<bool>)

  predicate SlotValid<T>(s: SlotState<T>)
  {
    |s.data| == |s.isFree|
  }

  function IsSet(b: bool): (r: bool)
    ensures r == b
  {
    b
  }

  /** `find_first_free_slot`: the lowest free index. */
  function FirstFree<T>(s: SlotState<T>): (r: Option<nat>)
    ensures r.None? <==> forall i | 0 <= i < |s.isFree| :: !s.isFree[i]
    ensures r.Some? ==> r.value < |s.isFree| && s.isFree[r.value]
    ensures r.Some? ==> forall i | 0 <= i < r.value :: !s.isFree[i]
  {
    var r := FindFirst(s.isFree, IsSet);
    assert r.Some? ==> IsSet(s.isFree[r.value]);
    assert forall i | 0 <= i < |s.isFree| :: IsSet(s.isFree[i]) == s.isFree[i];
    r
  }

  /** `has_free_slots`. */
  function HasFreeSlots<T>(s: SlotState<T>): (r: bool)
    ensures r <==> exists i | 0 <= i < |s.isFree| :: s.isFree[i]
  {
    FirstFree(s).Some?
  }

  /** `try_push` on a snapshot: the value goes to the lowest free slot, or an error when none is free. */
  function TryPush<T>(s: SlotState<T>, x: T): (r: (SlotState<T>, HellResult<HellHandle>))
    requires SlotValid(s)
    ensures SlotValid(r.0)
    ensures r.1.Err? <==> !HasFreeSlots(s)
    ensures r.1.Err? ==> r.0 == s && r.1.error == AddToFullMsgErr(FULL_MSG)
  {
    match FirstFree(s)
    case None => (s, Err(AddToFullMsgErr(FULL_MSG)))
    case Some(idx) => (SlotState(s.data[idx := x], s.isFree[idx := false]), Ok(HellHandle(idx)))
  }

  /** `get`: the value at an occupied slot. */
  function Get<T>(s: SlotState<T>, h: HellHandle): (r: T)
    requires SlotValid(s) && h.value < |s.data| && !s.isFree[h.value]
  {
    s.data[h.value]
  }

  /** `remove`: the slot is marked free; its value stays. */
  function Remove<T>(s: SlotState<T>, h: HellHandle): (r: SlotState<T>)
    requires SlotValid(s) && h.value < |s.data| && !s.isFree[h.value]
    ensures SlotValid(r) && r.data == s.data && r.isFree[h.value]
    ensures forall i | 0 <= i < |s.isFree| && i != h.value :: r.isFree[i] == s.isFree[i]
  {
    SlotState(s.data, s.isFree[h.value := true])
  }

  /**
   * A successful push takes the lowest free slot, occupies it with the
   * value, so that `get` on the handle returns it, and leaves every other
   * slot as it was.
   */
  lemma PushThenGet<T>(s: SlotState<T>, x: T)
    requires SlotValid(s) && HasFreeSlots(s)
    ensures var (s', r) := TryPush(s, x);
      && r.Ok? && r.value.value < |s.data| && s.isFree[r.value.value]
      && (forall i | 0 <= i < r.value.value :: !s.isFree[i])
      && !s'.isFree[r.value.value] && Get(s', r.value) == x
      && forall i | 0 <= i < |s.data| && i != r.value.value :: s'.data[i] == s.data[i] && s'.isFree[i] == s.isFree[i]
  {
  }

  /** Removing a handle frees a slot no later than it, so the next push succeeds and reuses a slot at or below it. */
  lemma RemoveThenPushReuses<T>(s: SlotState<T>, h: HellHandle, x: T)
    requires SlotValid(s) && h.value < |s.data| && !s.isFree[h.value]
    ensures HasFreeSlots(Remove(s, h))
    ensures var r := TryPush(Remove(s, h), x).1; r.Ok? && r.value.value <= h.value
  {
    var s' := Remove(s, h);
    assert s'.isFree[h.value];
  }

  /** A push onto a full array fails and changes nothing, whatever the value. */
  lemma FullRefusesPush<T>(s: SlotState<T>, x: T)
    requires SlotValid(s) && forall i | 0 <= i < |s.isFree| :: !s.isFree[i]
    ensures TryPush(s, x) == (s, Err(AddToFullMsgErr(FULL_MSG)))
  {
  }

  /** The `SlotArray` object: the value array and the free mask. */
  class SlotArray<T> {
    const data: array<T>
    const isFree: array<bool>

    function State(): (s: SlotState<T>)
      reads data, isFree
      ensures s.data == data[..] && s.isFree == isFree[..]
    {
      SlotState(data[..], isFree[..])
    }

    ghost predicate Valid()
      reads this, data, isFree
    {
      data != isFree && SlotValid(State())
    }

    /** The source declares no constructor; this one starts from given values and mask. */
    constructor (values: seq<T>, free: seq<bool>)
      requires |values| == |free|
      ensures Valid() && fresh(data) && fresh(isFree) && State() == SlotState(values, free)
    {
      data := new T[|values|](i requires 0 <= i < |values| => values[i]);
      isFree := new bool[|free|](i requires 0 <= i < |free| => free[i]);
      new;
      assert data[..] == values && isFree[..] == free;
    }

    /** `find_first_free_slot`: a scan of the mask from index 0. */
    method FindFirstFreeSlot() returns (r: Option<nat>)
      requires Valid()
      ensures r == FirstFree(State())
    {
      for idx := 0 to isFree.Length
        invariant forall i | 0 <= i < idx :: !isFree[i]
      {
        if isFree[idx] {
          return Some(idx);
        }
      }
      return None;
    }

    method HasFree() returns (r: bool)
      requires Valid()
      ensures r == HasFreeSlots(State())
    {
      var idx := FindFirstFreeSlot();
      r := idx.Some?;
    }

    method TryPushValue(x: T) returns (r: HellResult<HellHandle>)
      requires Valid()
      modifies data, isFree
      ensures Valid() && (State(), r) == TryPush(old(State()), x)
    {
      var idx := FindFirstFreeSlot();
      if idx.None? {
        return Err(AddToFullMsgErr(FULL_MSG));
      }
      data[idx.value] := x;
      isFree[idx.value] := false;
      r := Ok(HellHandle(idx.value));
    }

    /** `push`: `try_push` with a failure being the caller's error. */
    method PushValue(x: T) returns (h: HellHandle)
      requires Valid() && HasFreeSlots(State())
      modifies data, isFree
      ensures Valid() && (State(), Ok(h)) == TryPush(old(State()), x)
    {
      var r := TryPushValue(x);
      h := r.value;
    }

    method RemoveHandle(h: HellHandle)
      requires Valid() && h.value < data.Length && !isFree[h.value]
      modifies isFree
      ensures Valid() && State() == Remove(old(State()), h)
    {
      isFree[h.value] := true;
    }

    function GetValue(h: HellHandle): (r: T)
      reads this, data, isFree
      requires Valid() && h.value < data.Length && !isFree[h.value]
      ensures r == Get(State(), h)
    {
      data[h.value]
    }
  }
}
