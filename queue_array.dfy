/**
 * `QueueArray<T, N>` (hell_core `collections/queue_array.rs`): a FIFO ring
 * buffer in a fixed array of `N` slots with an optional `(head, tail)`
 * pair. `None` means empty; otherwise the queue runs from `head` to `tail`
 * inclusive, wrapping past the end of the array. Slots are `Some` while
 * initialised.
 */
module QueueArrays {
  import opened Wrappers
  import opened HellErrors
  import opened CollectionErrors

  /** Both `try_enqueue` on a full queue and `try_dequeue` on an empty one report this. */
  const FULL_MSG: string := "Queue is full"

  datatype QueueState<T> = QueueState(slots: seq<Option<T>>, headTail: Option<(nat, nat)>)

  /** The slot `k` places after `head`, wrapping once. */
  function Slot(n: nat, head: nat, k: nat): (r: nat)
    requires head < n && k < n
    ensures r < n && Offset(n, head, r) == k
  {
    if head + k < n then head + k else head + k - n
  }

  /** How many places after `head` slot `i` lies. */
  function Offset(n: nat, head: nat, i: nat): (r: nat)
    requires head < n && i < n
    ensures r < n
  {
    if i >= head then i - head else i + n - head
  }

  /** `len`, with the source's formula for the wrapped case. */
  function QLen<T>(s: QueueState<T>): (r: nat)
    requires HeadTailInRange(s)
  {
    match s.headTail
    case None => 0
    case Some((head, tail)) =>
      if tail >= head then tail - head + 1 else |s.slots| - (head - tail - 1)
  }

  predicate HeadTailInRange<T>(s: QueueState<T>)
  {
    s.headTail.Some? ==> s.headTail.value.0 < |s.slots| && s.headTail.value.1 < |s.slots|
  }

  /** Slot `i` holds an element of the queue. */
  predicate InQueue<T>(s: QueueState<T>, i: nat)
    requires HeadTailInRange(s) && i < |s.slots|
  {
    s.headTail.Some? && Offset(|s.slots|, s.headTail.value.0, i) < QLen(s)
  }

  /** Exactly the slots from head to tail are initialised. */
  predicate QueueValid<T>(s: QueueState<T>)
  {
    && HeadTailInRange(s)
    && forall i | 0 <= i < |s.slots| :: s.slots[i].Some? <==> InQueue(s, i)
  }

  /** The length never exceeds the capacity, and is zero exactly when `head_tail` is `None`. */
  lemma LenBounds<T>(s: QueueState<T>)
    requires HeadTailInRange(s)
    ensures QLen(s) <= |s.slots|
    ensures QLen(s) == 0 <==> s.headTail.None?
  {
  }

  /** The elements from head to tail, in queue order. */
  function Contents<T>(s: QueueState<T>): (r: seq<T>)
    requires QueueValid(s)
    ensures |r| == QLen(s)
  {
    if s.headTail.None? then []
    else
      var head := s.headTail.value.0;
      LenBounds(s);
      seq(QLen(s), k requires 0 <= k < QLen(s) => s.slots[Slot(|s.slots|, head, k)].value)
  }

  /** `len` depends only on the capacity and `head_tail`. */
  lemma LenOnlyHeadTail<T>(s: QueueState<T>, n: nat, head: nat, m: nat)
    requires |s.slots| == n && head < n && m < n && s.headTail == Some((head, Slot(n, head, m)))
    ensures QLen(s) == m + 1
  {
  }

  /** In a non-empty queue the tail is the slot `len - 1` places after the head. */
  lemma TailIsLastSlot<T>(s: QueueState<T>)
    requires HeadTailInRange(s) && s.headTail.Some?
    ensures Slot(|s.slots|, s.headTail.value.0, QLen(s) - 1) == s.headTail.value.1
  {
  }

  /** `try_enqueue` on a snapshot: the index written, or an error when full. */
  function Enqueue<T>(s: QueueState<T>, x: T): (r: (QueueState<T>, HellResult<nat>))
    requires QueueValid(s)
  {
    if QLen(s) == |s.slots| then (s, Err(AddToFullMsgErr(FULL_MSG)))
    else
      var (head, tail) :=
        if s.headTail.Some? then
          var (h, t) := s.headTail.value;
          (h, if t + 1 == |s.slots| then 0 else t + 1)
        else (0, 0);
      (QueueState(s.slots[tail := Some(x)], Some((head, tail))), Ok(tail))
  }

  /** `try_dequeue` on a snapshot: the head element, or an error when empty. */
  function Dequeue<T>(s: QueueState<T>): (r: (QueueState<T>, HellResult<T>))
    requires QueueValid(s)
  {
    var len := QLen(s);
    if len == 0 then (s, Err(AddToFullMsgErr(FULL_MSG)))
    else
      var (head, tail) := s.headTail.value;
      var x := s.slots[head].value;
      var head' := if head == |s.slots| - 1 then 0 else head + 1;
      (QueueState(s.slots[head := None], if len == 1 then None else Some((head', tail))), Ok(x))
  }

  /**
   * Enqueueing fails exactly when full; otherwise it writes a slot that held
   * no element, returns that slot's index and appends the value.
   */
  lemma EnqueueAppends<T>(s: QueueState<T>, x: T)
    requires QueueValid(s)
    ensures var (s', r) := Enqueue(s, x);
      && (r.Err? <==> QLen(s) == |s.slots|)
      && (r.Err? ==> s' == s && r.error == AddToFullMsgErr(FULL_MSG))
      && (r.Ok? ==> && QueueValid(s') && r.value < |s.slots| && s.slots[r.value].None?
                    && s'.headTail.Some? && s'.headTail.value.1 == r.value
                    && Contents(s') == Contents(s) + [x])
  {
    var n := |s.slots|;
    var L := QLen(s);
    LenBounds(s);
    if L < n {
      var (s', r) := Enqueue(s, x);
      var (head, tail) := s'.headTail.value;
      if s.headTail.Some? {
        TailIsLastSlot(s);
        assert tail == Slot(n, head, L);
      } else {
        assert tail == Slot(n, head, L);
      }
      LenOnlyHeadTail(s', n, head, L);
      assert !InQueue(s, tail);
      forall i | 0 <= i < n
        ensures s'.slots[i].Some? <==> InQueue(s', i)
      {
        if i != tail {
          assert Offset(n, head, i) != L;
          if s.headTail.Some? {
            assert InQueue(s', i) <==> InQueue(s, i);
          } else {
            assert !s.slots[i].Some?;
          }
        }
      }
      assert QueueValid(s');
      var c, c' := Contents(s), Contents(s');
      forall k | 0 <= k < L + 1
        ensures c'[k] == (c + [x])[k]
      {
        if k < L {
          assert Slot(n, head, k) != tail;
        }
      }
    }
  }

  /**
   * Dequeueing fails exactly when empty; otherwise it returns the front
   * element, leaves its slot uninitialised and removes it from the contents.
   */
  lemma DequeueRemovesFront<T>(s: QueueState<T>)
    requires QueueValid(s)
    ensures var (s', r) := Dequeue(s);
      && (r.Err? <==> QLen(s) == 0)
      && (r.Err? ==> s' == s && r.error == AddToFullMsgErr(FULL_MSG))
      && (r.Ok? ==> && QueueValid(s') && r.value == Contents(s)[0]
                    && Contents(s') == Contents(s)[1..])
  {
    var n := |s.slots|;
    var L := QLen(s);
    LenBounds(s);
    if L > 0 {
      var (s', r) := Dequeue(s);
      var (head, tail) := s.headTail.value;
      assert Slot(n, head, 0) == head;
      if L == 1 {
        forall i | 0 <= i < n
          ensures s'.slots[i].None?
        {
          if i != head {
            assert Offset(n, head, i) != 0;
          }
        }
      } else {
        var head' := s'.headTail.value.0;
        assert head' == Slot(n, head, 1);
        TailIsLastSlot(s);
        assert tail == Slot(n, head', L - 2);
        LenOnlyHeadTail(s', n, head', L - 2);
        forall i | 0 <= i < n
          ensures s'.slots[i].Some? <==> InQueue(s', i)
        {
          if i != head {
            assert Offset(n, head', i) + 1 == Offset(n, head, i);
          }
        }
        assert QueueValid(s');
        var c, c' := Contents(s), Contents(s');
        forall k | 0 <= k < L - 1
          ensures c'[k] == c[k + 1]
        {
          assert Slot(n, head', k) == Slot(n, head, k + 1);
        }
      }
    }
  }

  /** `head`: the front element. */
  function Head<T>(s: QueueState<T>): (r: Option<T>)
    requires QueueValid(s)
    ensures r.None? <==> Contents(s) == []
    ensures r.Some? ==> r.value == Contents(s)[0]
  {
    if s.headTail.None? then None
    else
      var head := s.headTail.value.0;
      assert Slot(|s.slots|, head, 0) == head;
      Some(s.slots[head].value)
  }

  /** `tail`: the back element. */
  function Tail<T>(s: QueueState<T>): (r: Option<T>)
    requires QueueValid(s)
    ensures r.None? <==> Contents(s) == []
    ensures r.Some? ==> r.value == Contents(s)[|Contents(s)| - 1]
  {
    if s.headTail.None? then None
    else
      TailIsLastSlot(s);
      Some(s.slots[s.headTail.value.1].value)
  }

  /** `new` / `default`: all slots uninitialised and no head or tail. */
  function EmptyQueue<T>(capacity: nat): (s: QueueState<T>)
    ensures QueueValid(s) && |s.slots| == capacity && Contents(s) == []
  {
    QueueState(seq(capacity, _ => None), None)
  }

  /** One call on the queue, for stating the source's test sequences. */
  datatype QueueOp<T> = Enq(x: T) | Deq
  datatype QueueOutcome<T> = Enqueued(slot: HellResult<nat>) | Dequeued(value: HellResult<T>)

  function Step<T>(s: QueueState<T>, op: QueueOp<T>): (r: (QueueState<T>, QueueOutcome<T>))
    requires QueueValid(s)
    ensures QueueValid(r.0)
    ensures op.Enq? ==> r.1.Enqueued? && (r.1.slot.Ok? <==> |Contents(s)| < |s.slots|)
    ensures op.Enq? && r.1.slot.Ok? ==> Contents(r.0) == Contents(s) + [op.x]
    ensures op.Deq? ==> r.1.Dequeued? && (r.1.value.Ok? <==> Contents(s) != [])
    ensures op.Deq? && r.1.value.Ok? ==> r.1.value.value == Contents(s)[0] && Contents(r.0) == Contents(s)[1..]
    ensures (r.1.Enqueued? && r.1.slot.Err?) || (r.1.Dequeued? && r.1.value.Err?) ==> r.0 == s
    ensures |r.0.slots| == |s.slots|
  {
    match op
    case Enq(x) =>
      EnqueueAppends(s, x);
      var (s', r) := Enqueue(s, x);
      (s', Enqueued(r))
    case Deq =>
      DequeueRemovesFront(s);
      var (s', r) := Dequeue(s);
      (s', Dequeued(r))
  }

  /** The outcomes of a sequence of calls, in order. */
  function Run<T>(s: QueueState<T>, ops: seq<QueueOp<T>>): (r: (QueueState<T>, seq<QueueOutcome<T>>))
    requires QueueValid(s)
    ensures QueueValid(r.0) && |r.1| == |ops| && |r.0.slots| == |s.slots|
    decreases |ops|
  {
    if ops == [] then (s, [])
    else
      var (s1, o) := Step(s, ops[0]);
      var (s2, os) := Run(s1, ops[1..]);
      (s2, [o] + os)
  }

  /** The enqueue test with capacity 5: five values fit, the sixth is refused. */
  lemma CapacityFiveTest()
    ensures var out := Run(EmptyQueue<int>(5), [Enq(1), Enq(2), Enq(3), Enq(4), Enq(5), Enq(6)]).1;
      (forall i | 0 <= i < 5 :: out[i].slot.Ok?) && out[5].slot.Err?
  {
  }

  /** The cycle test with capacity 3: the queue wraps and still hands values back in order, then reports empty. */
  lemma CapacityThreeCycleTest()
    ensures var (s3, _) := Run(EmptyQueue<int>(3), [Enq(1), Enq(2), Enq(3)]);
      var (s4, o4) := Step(s3, Deq);
      var (s5, o5) := Step(s4, Enq(4));
      var (s6, o6) := Step(s5, Deq);
      var (s7, o7) := Step(s6, Enq(5));
      var (s8, o8) := Step(s7, Deq);
      var (s9, o9) := Step(s8, Deq);
      var (s10, o10) := Step(s9, Deq);
      var (s11, o11) := Step(s10, Deq);
      && o4 == Dequeued(Ok(1)) && o6 == Dequeued(Ok(2)) && o8 == Dequeued(Ok(3))
      && o9 == Dequeued(Ok(4)) && o10 == Dequeued(Ok(5)) && o11.value.Err?
      && o5.slot.Ok? && o7.slot.Ok? && Contents(s11) == []
  {
    var (s3, _) := Run(EmptyQueue<int>(3), [Enq(1), Enq(2), Enq(3)]);
    assert Contents(s3) == [1, 2, 3];
    var (s4, o4) := Step(s3, Deq);
    assert Contents(s4) == [2, 3];
    var (s5, o5) := Step(s4, Enq(4));
    assert Contents(s5) == [2, 3, 4];
    var (s6, o6) := Step(s5, Deq);
    assert Contents(s6) == [3, 4];
    var (s7, o7) := Step(s6, Enq(5));
    assert Contents(s7) == [3, 4, 5];
    var (s8, o8) := Step(s7, Deq);
    assert Contents(s8) == [4, 5];
    var (s9, o9) := Step(s8, Deq);
    assert Contents(s9) == [5];
    var (s10, o10) := Step(s9, Deq);
    assert Contents(s10) == [];
  }

  /** The `QueueArray` object: the slot array and the optional head and tail. */
  class QueueArray<T> {
    const data: array<Option<T>>
    var headTail: Option<(nat, nat)>

    function State(): (s: QueueState<T>)
      reads this, data
      ensures s.slots == data[..] && s.headTail == headTail
    {
      QueueState(data[..], headTail)
    }

    ghost predicate Valid()
      reads this, data
    {
      QueueValid(State())
    }

    constructor (capacity: nat)
      ensures Valid() && fresh(data) && State() == EmptyQueue(capacity)
    {
      data := new Option<T>[capacity](_ => None);
      headTail := None;
      new;
      assert data[..] == EmptyQueue<T>(capacity).slots;
    }

    function Capacity(): (r: nat)
      reads this
      ensures r == data.Length
    {
      data.Length
    }

    function Len(): (r: nat)
      reads this, data
      requires Valid()
      ensures r == |Contents(State())|
    {
      QLen(State())
    }

    function IsEmpty(): (r: bool)
      reads this, data
      requires Valid()
      ensures r <==> Contents(State()) == []
    {
      headTail.None?
    }

    function IsFull(): (r: bool)
      reads this, data
      requires Valid()
      ensures r <==> |Contents(State())| == data.Length
    {
      Len() == data.Length
    }

    method TryEnqueue(x: T) returns (r: HellResult<nat>)
      requires Valid()
      modifies this, data
      ensures Valid() && (State(), r) == Enqueue(old(State()), x)
    {
      EnqueueAppends(State(), x);
      if IsFull() {
        return Err(AddToFullMsgErr(FULL_MSG));
      }
      var head: nat, tail: nat;
      if headTail.Some? {
        head, tail := headTail.value.0, headTail.value.1 + 1;
        if tail == data.Length {
          tail := 0;
        }
      } else {
        head, tail := 0, 0;
      }
      data[tail] := Some(x);
      headTail := Some((head, tail));
      r := Ok(tail);
    }

    method TryDequeue() returns (r: HellResult<T>)
      requires Valid()
      modifies this, data
      ensures Valid() && (State(), r) == Dequeue(old(State()))
    {
      DequeueRemovesFront(State());
      var len := Len();
      if len == 0 {
        return Err(AddToFullMsgErr(FULL_MSG));
      }
      var head, tail := headTail.value.0, headTail.value.1;
      var x := data[head].value;
      data[head] := None;
      if head == data.Length - 1 {
        head := 0;
      } else {
        head := head + 1;
      }
      if len == 1 {
        headTail := None;
      } else {
        headTail := Some((head, tail));
      }
      r := Ok(x);
    }
  }
}
