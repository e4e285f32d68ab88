/**
 * `StackArray<T, N>` (hell_core `collections/stack_array.rs`): a stack in a
 * fixed array of `N` possibly-uninitialised slots and a length. A slot is
 * `Some` once written and `None` while uninitialised; `pop` swaps the
 * popped slot back to uninitialised.
 */
module StackArrays {
  import opened Wrappers
  import opened HellErrors
  import opened CollectionErrors

  const FULL_MSG: string := "trying to push into full StackArray"
  const EMPTY_MSG: string := "trying remove from empty StackArray"

  /** A snapshot: the `N` slots and the length. */
  datatype StackState<T> = StackState(slots: seq<Option<T>>, len: nat)

  /** The first `len` slots are initialised. */
  predicate StackValid<T>(s: StackState<T>)
  {
    s.len <= |s.slots| && forall i | 0 <= i < s.len :: s.slots[i].Some?
  }

  /** `as_slice`: the first `len` elements. */
  function AsSlice<T>(s: StackState<T>): (r: seq<T>)
    requires StackValid(s)
    ensures |r| == s.len && forall i | 0 <= i < s.len :: Some(r[i]) == s.slots[i]
  {
    seq(s.len, i requires 0 <= i < s.len => s.slots[i].value)
  }

  /** `new` and `default`: `N` uninitialised slots, length 0. */
  function EmptyStack<T>(capacity: nat): (s: StackState<T>)
    ensures StackValid(s) && |s.slots| == capacity && AsSlice(s) == []
  {
    StackState(seq(capacity, _ => None), 0)
  }

  function IsEmpty<T>(s: StackState<T>): (r: bool)
    ensures r <==> s.len == 0
  {
    s.len == 0
  }

  function IsFull<T>(s: StackState<T>): (r: bool)
    ensures r <==> s.len == |s.slots|
  {
    s.len == |s.slots|
  }

  /** `push`: the slot at `len` is written and the length grows; a full stack is the caller's error. */
  function Push<T>(s: StackState<T>, x: T): (r: StackState<T>)
    requires StackValid(s) && !IsFull(s)
    ensures StackValid(r) && |r.slots| == |s.slots|
    ensures AsSlice(r) == AsSlice(s) + [x]
  {
    StackState(s.slots[s.len := Some(x)], s.len + 1)
  }

  /** `try_push`: an error with nothing changed when full, `push` otherwise. */
  function TryPush<T>(s: StackState<T>, x: T): (r: (StackState<T>, HellResult<()>))
    requires StackValid(s)
    ensures r.1.Err? <==> IsFull(s)
    ensures r.1.Err? ==> r.0 == s && r.1.error == AddToFullMsgErr(FULL_MSG)
    ensures r.1.Ok? ==> r.0 == Push(s, x)
  {
    if IsFull(s) then (s, Err(AddToFullMsgErr(FULL_MSG)))
    else (Push(s, x), Ok(()))
  }

  /** `pop`: the length shrinks and the last element is moved out; an empty stack is the caller's error. */
  function Pop<T>(s: StackState<T>): (r: (StackState<T>, T))
    requires StackValid(s) && !IsEmpty(s)
    ensures StackValid(r.0) && |r.0.slots| == |s.slots|
    ensures AsSlice(r.0) + [r.1] == AsSlice(s)
    ensures r.0.slots[r.0.len] == None
  {
    var len := s.len - 1;
    (StackState(s.slots[len := None], len), s.slots[len].value)
  }

  /** `try_pop`: an error with nothing changed when empty, `pop` otherwise. */
  function TryPop<T>(s: StackState<T>): (r: (StackState<T>, HellResult<T>))
    requires StackValid(s)
    ensures r.1.Err? <==> IsEmpty(s)
    ensures r.1.Err? ==> r.0 == s && r.1.error == RemoveFromEmptyMsgErr(EMPTY_MSG)
    ensures r.1.Ok? ==> (r.0, r.1.value) == Pop(s)
  {
    if IsEmpty(s) then (s, Err(RemoveFromEmptyMsgErr(EMPTY_MSG)))
    else var (s', x) := Pop(s); (s', Ok(x))
  }

  /** The slots after `extend_from_slice` has written the first `k` values. */
  function Written<T>(slots: seq<Option<T>>, len: nat, values: seq<T>, k: nat): (r: seq<Option<T>>)
    requires k <= |values| && len + |values| <= |slots|
    ensures |r| == |slots|
  {
    seq(|slots|, i requires 0 <= i < |slots| => if len <= i < len + k then Some(values[i - len]) else slots[i])
  }

  /** `extend_from_slice`: the values are written after the last element, in order. */
  function Extend<T>(s: StackState<T>, values: seq<T>): (r: StackState<T>)
    requires StackValid(s) && s.len + |values| <= |s.slots|
  {
    StackState(Written(s.slots, s.len, values, |values|), s.len + |values|)
  }

  /** Extending appends the values to the elements. */
  lemma ExtendAppends<T>(s: StackState<T>, values: seq<T>)
    requires StackValid(s) && s.len + |values| <= |s.slots|
    ensures StackValid(Extend(s, values))
    ensures AsSlice(Extend(s, values)) == AsSlice(s) + values
  {
    var r := Extend(s, values);
    assert forall i | 0 <= i < r.len :: r.slots[i] == if i < s.len then s.slots[i] else Some(values[i - s.len]);
  }

  /** `From<&[T]>`: a new stack extended by the slice holds exactly the slice. */
  function FromSlice<T>(capacity: nat, values: seq<T>): (r: StackState<T>)
    requires |values| <= capacity
    ensures StackValid(r) && |r.slots| == capacity && AsSlice(r) == values
  {
    ExtendAppends(EmptyStack(capacity), values);
    Extend(EmptyStack(capacity), values)
  }

  /** Last in, first out: popping right after pushing `x` gives back `x` and the stack before the push. */
  lemma PushThenPop<T>(s: StackState<T>, x: T)
    requires StackValid(s) && !IsFull(s)
    ensures var (s', y) := Pop(Push(s, x)); y == x && AsSlice(s') == AsSlice(s) && s'.len == s.len
  {
    var (s', y) := Pop(Push(s, x));
    assert AsSlice(s') + [y] == AsSlice(s) + [x];
    assert y == (AsSlice(s') + [y])[s.len];
    assert AsSlice(s') == (AsSlice(s') + [y])[..s.len];
  }

  /** The stack test with capacity 3: three pushes fit and a fourth `try_push` fails. */
  lemma CapacityThreeTest(a: int, b: int, c: int, d: int)
    ensures var s := Push(Push(EmptyStack<int>(3), a), b);
      && s.len == 2
      && TryPush(s, c).1.Ok?
      && TryPush(TryPush(s, c).0, d).1.Err?
  {
  }

  /** The pop test with capacity 3: after three pushes and two pops one `try_pop` succeeds and the next fails. */
  lemma CapacityThreePopTest(a: int, b: int, c: int)
    ensures var s := Pop(Pop(Push(Push(Push(EmptyStack<int>(3), a), b), c)).0).0;
      && s.len == 1
      && TryPop(s).1 == Ok(a)
      && TryPop(TryPop(s).0).1.Err?
  {
  }

  /** `Index`: the element at a position below the length. */
  function At<T>(s: StackState<T>, i: nat): (r: T)
    requires StackValid(s) && i < s.len
    ensures r == AsSlice(s)[i]
  {
    s.slots[i].value
  }

  /** The `StackArray` object: a fixed array of slots and a length. */
  class StackArray<T> {
    const capacity: nat
    const data: array<Option<T>>
    var len: nat

    function State(): (s: StackState<T>)
      reads this, data
      ensures s.slots == data[..] && s.len == len
    {
      StackState(data[..], len)
    }

    ghost predicate Valid()
      reads this, data
    {
      data.Length == capacity && StackValid(State())
    }

    /** `new` / `default`. */
    constructor (capacity: nat)
      ensures Valid() && fresh(data) && State() == EmptyStack(capacity)
    {
      this.capacity := capacity;
      data := new Option<T>[capacity](_ => None);
      len := 0;
      new;
      assert data[..] == EmptyStack<T>(capacity).slots;
    }

    function Len(): (r: nat)
      reads this
      ensures r == len
    {
      len
    }

    method PushValue(x: T)
      requires Valid() && !IsFull(State())
      modifies this, data
      ensures Valid() && State() == Push(old(State()), x)
    {
      data[len] := Some(x);
      len := len + 1;
    }

    method TryPushValue(x: T) returns (r: HellResult<()>)
      requires Valid()
      modifies this, data
      ensures Valid() && (State(), r) == TryPush(old(State()), x)
    {
      if len == capacity {
        return Err(AddToFullMsgErr(FULL_MSG));
      }
      data[len] := Some(x);
      len := len + 1;
      r := Ok(());
    }

    method PopValue() returns (x: T)
      requires Valid() && !IsEmpty(State())
      modifies this, data
      ensures Valid() && (State(), x) == Pop(old(State()))
    {
      len := len - 1;
      x := data[len].value;
      data[len] := None;
    }

    method TryPopValue() returns (r: HellResult<T>)
      requires Valid()
      modifies this, data
      ensures Valid() && (State(), r) == TryPop(old(State()))
    {
      if len == 0 {
        return Err(RemoveFromEmptyMsgErr(EMPTY_MSG));
      }
      len := len - 1;
      var x := data[len].value;
      data[len] := None;
      r := Ok(x);
    }

    /** `extend_from_slice`: one slot written per loop step, then the length grows once. */
    method ExtendFromSlice(values: seq<T>)
      requires Valid() && len + |values| <= capacity
      modifies this, data
      ensures Valid() && State() == Extend(old(State()), values)
    {
      ExtendAppends(State(), values);
      for idx := 0 to |values|
        invariant len == old(len) && data.Length == capacity
        invariant data[..] == Written(old(data[..]), len, values, idx)
      {
        data[idx + len] := Some(values[idx]);
      }
      len := len + |values|;
    }

    /** `as_slice`. */
    function Slice(): (r: seq<T>)
      reads this, data
      requires Valid()
      ensures |r| == len && forall i | 0 <= i < len :: data[i] == Some(r[i])
    {
      AsSlice(State())
    }
  }

  /** `From<&[T]>`: a new stack, extended by the slice. */
  method StackFromSlice<T>(capacity: nat, values: seq<T>) returns (s: StackArray<T>)
    requires |values| <= capacity
    ensures fresh(s) && fresh(s.data) && s.Valid() && s.State() == FromSlice(capacity, values)
  {
    s := new StackArray(capacity);
    s.ExtendFromSlice(values);
  }
}
