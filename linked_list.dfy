/**
 * The experimental doubly linked `LinkedList<T>` (hell_core
 * `collections/experimental/linked_list.rs`). The heap of leaked boxes is
 * modelled as a map from addresses to nodes; `head`, `tail`, `next` and
 * `prev` are optional addresses.
 *
 * As written, `push_back_node` stores the new node in `head` where `tail`
 * is meant, and `pop_back_node` never decrements `len`. `PushBackAsWritten`
 * and `PopBackAsWritten` model those; `PushBack` and `PopBack` are the
 * evidently intended operations, which the `LinkedList` class uses.
 */
module LinkedLists {
  import opened Wrappers

  datatype Node<T> = Node(next: Option<nat>, prev: Option<nat>, element: T)

  datatype ListState<T> = ListState(nodes: map<nat, Node<T>>, head: Option<nat>, tail: Option<nat>, len: nat)

  /** `new` / `default`: no nodes. */
  function EmptyList<T>(): (s: ListState<T>)
    ensures Linked(s, [])
  {
    ListState(map[], None, None, 0)
  }

  /**
   * `order` lists the addresses from head to tail: each is a node of the
   * map, none repeats, `len` counts them, `head` and `tail` name the ends,
   * and every `next` and `prev` names the neighbour in that order.
   */
  ghost predicate Linked<T>(s: ListState<T>, order: seq<nat>)
  {
    Chain(s, order) && EndsReady(s)
  }

  /** What popping needs of the ends: they are nodes, and so are their inner neighbours. */
  predicate EndsReady<T>(s: ListState<T>)
  {
    && (s.head.Some? ==>
          && s.head.value in s.nodes && s.len > 0
          && (s.nodes[s.head.value].next.Some? ==> s.nodes[s.head.value].next.value in s.nodes))
    && (s.tail.Some? ==>
          && s.tail.value in s.nodes && s.len > 0
          && (s.nodes[s.tail.value].prev.Some? ==> s.nodes[s.tail.value].prev.value in s.nodes))
  }

  ghost predicate Chain<T>(s: ListState<T>, order: seq<nat>)
  {
    && |order| == s.len
    && (forall i, j | 0 <= i < j < |order| :: order[i] != order[j])
    && (forall i | 0 <= i < |order| :: order[i] in s.nodes)
    && s.head == (if order == [] then None else Some(order[0]))
    && s.tail == (if order == [] then None else Some(order[|order| - 1]))
    && (forall i {:trigger s.nodes[order[i]]} | 0 <= i < |order| ::
          && s.nodes[order[i]].next == (if i + 1 < |order| then Some(order[i + 1]) else None)
          && s.nodes[order[i]].prev == (if i > 0 then Some(order[i - 1]) else None))
  }

  /** `Chain`, assembled from its parts. */
  lemma ChainOf<T>(s: ListState<T>, order: seq<nat>)
    requires |order| == s.len
    requires forall i, j | 0 <= i < j < |order| :: order[i] != order[j]
    requires s.head == (if order == [] then None else Some(order[0]))
    requires s.tail == (if order == [] then None else Some(order[|order| - 1]))
    requires forall i | 0 <= i < |order| ::
      && order[i] in s.nodes
      && s.nodes[order[i]].next == (if i + 1 < |order| then Some(order[i + 1]) else None)
      && s.nodes[order[i]].prev == (if i > 0 then Some(order[i - 1]) else None)
    ensures Chain(s, order)
  {
  }

  /** A chain has its ends ready for popping. */
  lemma ChainClosed<T>(s: ListState<T>, order: seq<nat>)
    requires Chain(s, order)
    ensures Linked(s, order)
  {
    if order != [] {
      var n := |order|;
      assert s.nodes[order[0]].next == if n > 1 then Some(order[1]) else None;
      assert s.nodes[order[n - 1]].prev == if n > 1 then Some(order[n - 2]) else None;
    }
  }

  /** The elements from head to tail. */
  ghost function Elements<T>(s: ListState<T>, order: seq<nat>): (r: seq<T>)
    requires Linked(s, order)
    ensures |r| == s.len
  {
    seq(|order|, i requires 0 <= i < |order| => s.nodes[order[i]].element)
  }

  /** `push_front_node` with the new node at address `a`. */
  function PushFront<T>(s: ListState<T>, a: nat, x: T): (r: ListState<T>)
    requires a !in s.nodes && (s.head.Some? ==> s.head.value in s.nodes)
  {
    var nodes := s.nodes[a := Node(s.head, None, x)];
    match s.head
    case None => ListState(nodes, Some(a), Some(a), s.len + 1)
    case Some(h) => ListState(nodes[h := nodes[h].(prev := Some(a))], Some(a), s.tail, s.len + 1)
  }

  /** `pop_front_node`: the head node is freed and its element returned. */
  function PopFront<T>(s: ListState<T>): (r: (ListState<T>, Option<T>))
    requires s.head.Some? ==> s.head.value in s.nodes && s.len > 0
    requires s.head.Some? && s.nodes[s.head.value].next.Some? ==> s.nodes[s.head.value].next.value in s.nodes
  {
    match s.head
    case None => (s, None)
    case Some(h) =>
      var node := s.nodes[h];
      var nodes := s.nodes - {h};
      match node.next
      case None => (ListState(nodes, None, None, s.len - 1), Some(node.element))
      case Some(n) =>
        if n == h then (ListState(nodes, Some(n), s.tail, s.len - 1), Some(node.element))
        else (ListState(nodes[n := nodes[n].(prev := None)], Some(n), s.tail, s.len - 1), Some(node.element))
  }

  /** `push_back_node` as evidently intended: the new node becomes the tail. */
  function PushBack<T>(s: ListState<T>, a: nat, x: T): (r: ListState<T>)
    requires a !in s.nodes && (s.tail.Some? ==> s.tail.value in s.nodes)
  {
    var nodes := s.nodes[a := Node(None, s.tail, x)];
    match s.tail
    case None => ListState(nodes, Some(a), Some(a), s.len + 1)
    case Some(t) => ListState(nodes[t := nodes[t].(next := Some(a))], s.head, Some(a), s.len + 1)
  }

  /** `push_back_node` as written: the new node is stored in `head`, and `tail` is left alone. */
  function PushBackAsWritten<T>(s: ListState<T>, a: nat, x: T): (r: ListState<T>)
    requires a !in s.nodes && (s.tail.Some? ==> s.tail.value in s.nodes)
  {
    var nodes := s.nodes[a := Node(None, s.tail, x)];
    match s.tail
    case None => ListState(nodes, Some(a), s.tail, s.len + 1)
    case Some(t) => ListState(nodes[t := nodes[t].(next := Some(a))], Some(a), s.tail, s.len + 1)
  }

  /** `pop_back_node` as evidently intended: the tail node is freed, its element returned, and `len` drops. */
  function PopBack<T>(s: ListState<T>): (r: (ListState<T>, Option<T>))
    requires s.tail.Some? ==> s.tail.value in s.nodes && s.len > 0
    requires s.tail.Some? && s.nodes[s.tail.value].prev.Some? ==> s.nodes[s.tail.value].prev.value in s.nodes
  {
    match s.tail
    case None => (s, None)
    case Some(t) =>
      var node := s.nodes[t];
      var nodes := s.nodes - {t};
      match node.prev
      case None => (ListState(nodes, None, None, s.len - 1), Some(node.element))
      case Some(p) =>
        if p == t then (ListState(nodes, s.head, Some(p), s.len - 1), Some(node.element))
        else (ListState(nodes[p := nodes[p].(next := None)], s.head, Some(p), s.len - 1), Some(node.element))
  }

  /** `pop_back_node` as written: as `PopBack`, but `len` is left as it was. */
  function PopBackAsWritten<T>(s: ListState<T>): (r: (ListState<T>, Option<T>))
    requires s.tail.Some? ==> s.tail.value in s.nodes
    requires s.tail.Some? && s.nodes[s.tail.value].prev.Some? ==> s.nodes[s.tail.value].prev.value in s.nodes
  {
    match s.tail
    case None => (s, None)
    case Some(t) =>
      var node := s.nodes[t];
      var nodes := s.nodes - {t};
      match node.prev
      case None => (ListState(nodes, None, None, s.len), Some(node.element))
      case Some(p) =>
        if p == t then (ListState(nodes, s.head, Some(p), s.len), Some(node.element))
        else (ListState(nodes[p := nodes[p].(next := None)], s.head, Some(p), s.len), Some(node.element))
  }

  /** One node of the list after pushing at the front: only the old head's `prev` changes. */
  lemma PushFrontNodeAt<T>(s: ListState<T>, order: seq<nat>, a: nat, x: T, i: nat)
    requires Linked(s, order) && a !in s.nodes && i < |order|
    ensures var r := PushFront(s, a, x);
      && order[i] in r.nodes && order[i] != a
      && r.nodes[order[i]].next == s.nodes[order[i]].next
      && r.nodes[order[i]].prev == (if i == 0 then Some(a) else s.nodes[order[i]].prev)
      && r.nodes[order[i]].element == s.nodes[order[i]].element
  {
    assert order[i] in s.nodes;
    assert i == 0 <==> s.head == Some(order[i]);
  }

  /** Pushing at the front keeps the chain, with the new address first. */
  lemma PushFrontChain<T>(s: ListState<T>, order: seq<nat>, a: nat, x: T)
    requires Linked(s, order) && a !in s.nodes
    ensures Chain(PushFront(s, a, x), [a] + order)
  {
    var r := PushFront(s, a, x);
    var o := [a] + order;
    assert a !in order;
    assert r.nodes[a] == Node(s.head, None, x);
    forall i | 0 <= i < |o|
      ensures o[i] in r.nodes
      ensures r.nodes[o[i]].next == (if i + 1 < |o| then Some(o[i + 1]) else None)
      ensures r.nodes[o[i]].prev == (if i > 0 then Some(o[i - 1]) else None)
    {
      if i > 0 {
        assert o[i] == order[i - 1];
        PushFrontNodeAt(s, order, a, x, i - 1);
      }
    }
  }

  /** Pushing at the front keeps the list linked and puts the element first. */
  lemma PushFrontLinks<T>(s: ListState<T>, order: seq<nat>, a: nat, x: T)
    requires Linked(s, order) && a !in s.nodes
    ensures Linked(PushFront(s, a, x), [a] + order)
    ensures Elements(PushFront(s, a, x), [a] + order) == [x] + Elements(s, order)
  {
    var r := PushFront(s, a, x);
    var o := [a] + order;
    PushFrontChain(s, order, a, x);
    ChainClosed(r, o);
    var e, e' := Elements(s, order), Elements(r, o);
    forall i | 0 <= i < |o|
      ensures e'[i] == ([x] + e)[i]
    {
      if i > 0 {
        PushFrontNodeAt(s, order, a, x, i - 1);
      }
    }
  }

  /** Popping at the front of a linked list returns the first element and keeps the rest linked. */
  lemma PopFrontUnlinks<T>(s: ListState<T>, order: seq<nat>)
    requires Linked(s, order)
    ensures order == [] ==> PopFront(s) == (s, None)
    ensures order != [] ==>
      && Linked(PopFront(s).0, order[1..])
      && PopFront(s).1 == Some(Elements(s, order)[0])
      && Elements(PopFront(s).0, order[1..]) == Elements(s, order)[1..]
  {
    if order != [] {
      var r := PopFront(s).0;
      var o := order[1..];
      PopFrontNodes(s, order);
      ChainClosed(r, o);
      var e, e' := Elements(s, order), Elements(r, o);
      assert forall i | 0 <= i < |o| :: e'[i] == e[1..][i];
    }
  }

  /** One remaining node after popping at the front: only the new head's `prev` changes. */
  lemma PopFrontNodeAt<T>(s: ListState<T>, order: seq<nat>, i: nat)
    requires Linked(s, order) && 0 < i < |order|
    ensures var r := PopFront(s).0;
      && order[i] in r.nodes
      && r.nodes[order[i]].next == s.nodes[order[i]].next
      && r.nodes[order[i]].prev == (if i == 1 then None else s.nodes[order[i]].prev)
      && r.nodes[order[i]].element == s.nodes[order[i]].element
  {
    var h := order[0];
    assert s.nodes[h].next == Some(order[1]);
    assert order[i] != h && order[1] != h;
  }

  /** The nodes that remain after popping at the front form the rest of the chain. */
  lemma PopFrontNodes<T>(s: ListState<T>, order: seq<nat>)
    requires Linked(s, order) && order != []
    ensures Chain(PopFront(s).0, order[1..])
    ensures var r, o := PopFront(s).0, order[1..];
      forall i | 0 <= i < |o| :: r.nodes[o[i]].element == s.nodes[order[i + 1]].element
  {
    var h := order[0];
    assert s.nodes[h].next == if |order| > 1 then Some(order[1]) else None;
    var r := PopFront(s).0;
    var o := order[1..];
    assert r.len == |o|;
    assert r.head == (if o == [] then None else Some(o[0]));
    assert r.tail == (if o == [] then None else Some(o[|o| - 1]));
    forall i | 0 <= i < |o|
      ensures o[i] in r.nodes
      ensures r.nodes[o[i]].next == (if i + 1 < |o| then Some(o[i + 1]) else None)
      ensures r.nodes[o[i]].prev == (if i > 0 then Some(o[i - 1]) else None)
      ensures r.nodes[o[i]].element == s.nodes[order[i + 1]].element
    {
      PopFrontNodeAt(s, order, i + 1);
    }
    ChainOf(r, o);
  }

  /** Pushing at the back, as intended, keeps the list linked and puts the element last. */
  lemma PushBackLinks<T>(s: ListState<T>, order: seq<nat>, a: nat, x: T)
    requires Linked(s, order) && a !in s.nodes
    ensures Linked(PushBack(s, a, x), order + [a])
    ensures Elements(PushBack(s, a, x), order + [a]) == Elements(s, order) + [x]
  {
    var r := PushBack(s, a, x);
    var o := order + [a];
    var n := |order|;
    assert a !in order;
    assert r.nodes[a] == Node(None, s.tail, x);
    forall i | 0 <= i < n
      ensures r.nodes[o[i]] == if i == n - 1 then s.nodes[order[n - 1]].(next := Some(a)) else s.nodes[order[i]]
    {
      assert o[i] == order[i] != a;
    }
    ChainClosed(r, o);
  }

  /** Popping at the back, as intended, returns the last element and keeps the rest linked. */
  lemma PopBackUnlinks<T>(s: ListState<T>, order: seq<nat>)
    requires Linked(s, order)
    ensures order == [] ==> PopBack(s) == (s, None)
    ensures order != [] ==>
      var n := |order|;
      && Linked(PopBack(s).0, order[..n - 1])
      && PopBack(s).1 == Some(Elements(s, order)[n - 1])
      && Elements(PopBack(s).0, order[..n - 1]) == Elements(s, order)[..n - 1]
  {
    if order != [] {
      var n := |order|;
      var r := PopBack(s).0;
      var o := order[..n - 1];
      PopBackNodes(s, order);
      ChainClosed(r, o);
      var e, e' := Elements(s, order), Elements(r, o);
      assert forall i | 0 <= i < |o| :: e'[i] == e[..n - 1][i];
    }
  }

  /** The nodes that remain after popping at the back: only the new tail's `next` changes. */
  lemma PopBackNodes<T>(s: ListState<T>, order: seq<nat>)
    requires Linked(s, order) && order != []
    ensures Chain(PopBack(s).0, order[..|order| - 1])
    ensures var r, o := PopBack(s).0, order[..|order| - 1];
      forall i | 0 <= i < |o| :: r.nodes[o[i]].element == s.nodes[order[i]].element
  {
    var n := |order|;
    var r := PopBack(s).0;
    var o := order[..n - 1];
    if n > 1 {
      var t, p := order[n - 1], order[n - 2];
      assert s.nodes[t].prev == Some(p) && p != t;
      assert r.head == Some(o[0]) && r.tail == Some(o[|o| - 1]) && r.len == |o|;
      DistinctPrefix(order, n - 1);
      forall i | 0 <= i < |o|
        ensures o[i] in r.nodes
        ensures r.nodes[o[i]].next == (if i + 1 < |o| then Some(o[i + 1]) else None)
        ensures r.nodes[o[i]].prev == (if i > 0 then Some(o[i - 1]) else None)
        ensures r.nodes[o[i]].element == s.nodes[order[i]].element
      {
        PopBackNodeAt(s, order, i);
      }
      ChainOf(r, o);
    } else {
      assert s.nodes[order[0]].prev == None;
      assert r.len == 0 && r.head == None && r.tail == None && o == [];
      ChainOf(r, o);
    }
  }

  lemma DistinctPrefix(order: seq<nat>, k: nat)
    requires k <= |order| && forall i, j | 0 <= i < j < |order| :: order[i] != order[j]
    ensures forall i, j | 0 <= i < j < k :: order[..k][i] != order[..k][j]
  {
  }

  /** One remaining node after popping at the back. */
  lemma PopBackNodeAt<T>(s: ListState<T>, order: seq<nat>, i: nat)
    requires Linked(s, order) && i + 1 < |order|
    ensures var r, o := PopBack(s).0, order[..|order| - 1];
      && o[i] == order[i] && order[i] in r.nodes
      && r.nodes[o[i]].next == (if i + 1 < |o| then Some(o[i + 1]) else None)
      && r.nodes[o[i]].prev == (if i > 0 then Some(o[i - 1]) else None)
      && r.nodes[o[i]].element == s.nodes[order[i]].element
  {
    var n := |order|;
    var t := order[n - 1];
    assert s.nodes[t].prev == Some(order[n - 2]);
    assert order[i] != t;
    assert s.nodes[order[i]].next == (if i + 1 < n then Some(order[i + 1]) else None);
  }

  /** The source's test: `push_front` then `pop_front` gives the element back and restores the elements. */
  lemma PushFrontThenPopFront<T>(s: ListState<T>, order: seq<nat>, a: nat, x: T)
    requires Linked(s, order) && a !in s.nodes
    ensures Linked(PushFront(s, a, x), [a] + order)
    ensures var (s', y) := PopFront(PushFront(s, a, x));
      y == Some(x) && Linked(s', order) && Elements(s', order) == Elements(s, order)
  {
    PushFrontLinks(s, order, a, x);
    PopFrontUnlinks(PushFront(s, a, x), [a] + order);
    assert ([a] + order)[1..] == order;
  }

  /** As written, `push_back` on a new list leaves `tail` empty with `len` 1: no order links the result. */
  lemma PushBackAsWrittenUnlinks<T>(a: nat, x: T)
    ensures var s := PushBackAsWritten(EmptyList<T>(), a, x);
      s.head == Some(a) && s.tail == None && s.len == 1 && forall o :: !Linked(s, o)
  {
  }

  /**
   * As written, `push_back` onto a one-element list makes the new node the
   * head while the old node stays the tail, so no order links the result.
   */
  lemma PushBackAsWrittenOntoOne<T>(b: nat, y: T, a: nat, x: T)
    requires a != b
    ensures var s := PushBackAsWritten(PushFront(EmptyList<T>(), b, y), a, x);
      s.head == Some(a) && s.tail == Some(b) && forall o :: !Linked(s, o)
  {
  }

  /** As written, `pop_back` on a one-element list frees the node but keeps `len` at 1. */
  lemma PopBackAsWrittenKeepsLen<T>(b: nat, y: T)
    ensures var (s, r) := PopBackAsWritten(PushFront(EmptyList<T>(), b, y));
      r == Some(y) && s.nodes == map[] && s.len == 1 && forall o :: !Linked(s, o)
  {
  }

  /**
   * The `LinkedList` object over the node heap. `nextAddr` stands in for
   * the allocator behind `Box::leak`: every address in use lies below it.
   */
  class LinkedList<T> {
    var nodes: map<nat, Node<T>>
    var head: Option<nat>
    var tail: Option<nat>
    var len: nat
    var nextAddr: nat
    ghost var order: seq<nat>

    function State(): (s: ListState<T>)
      reads this
      ensures s.nodes == nodes && s.head == head && s.tail == tail && s.len == len
    {
      ListState(nodes, head, tail, len)
    }

    ghost predicate Valid()
      reads this
    {
      Linked(State(), order) && forall a | a in nodes :: a < nextAddr
    }

    ghost function Contents(): (r: seq<T>)
      reads this
      requires Valid()
      ensures |r| == len
    {
      Elements(State(), order)
    }

    constructor ()
      ensures Valid() && Contents() == []
    {
      nodes, head, tail, len, nextAddr := map[], None, None, 0, 0;
      order := [];
    }

    method PushFrontElement(x: T)
      requires Valid()
      modifies this
      ensures Valid() && State() == PushFront(old(State()), old(nextAddr), x)
      ensures Contents() == [x] + old(Contents())
    {
      PushFrontLinks(State(), order, nextAddr, x);
      var a := nextAddr;
      nodes := nodes[a := Node(head, None, x)];
      match head {
        case None => tail := Some(a);
        case Some(h) => nodes := nodes[h := nodes[h].(prev := Some(a))];
      }
      head := Some(a);
      len := len + 1;
      nextAddr := nextAddr + 1;
      order := [a] + order;
    }

    method PopFrontElement() returns (r: Option<T>)
      requires Valid()
      modifies this
      ensures Valid() && (State(), r) == PopFront(old(State()))
      ensures old(Contents()) == [] ==> r.None? && Contents() == []
      ensures old(Contents()) != [] ==> r == Some(old(Contents())[0]) && Contents() == old(Contents())[1..]
    {
      PopFrontUnlinks(State(), order);
      if head.None? {
        return None;
      }
      var h := head.value;
      var node := nodes[h];
      nodes := nodes - {h};
      head := node.next;
      match head {
        case None => tail := None;
        case Some(n) =>
          if n != h {
            nodes := nodes[n := nodes[n].(prev := None)];
          }
      }
      len := len - 1;
      order := order[1..];
      r := Some(node.element);
    }

    method PushBackElement(x: T)
      requires Valid()
      modifies this
      ensures Valid() && State() == PushBack(old(State()), old(nextAddr), x)
      ensures Contents() == old(Contents()) + [x]
    {
      PushBackLinks(State(), order, nextAddr, x);
      var a := nextAddr;
      nodes := nodes[a := Node(None, tail, x)];
      match tail {
        case None => head := Some(a);
        case Some(t) => nodes := nodes[t := nodes[t].(next := Some(a))];
      }
      tail := Some(a);
      len := len + 1;
      nextAddr := nextAddr + 1;
      order := order + [a];
    }

    method PopBackElement() returns (r: Option<T>)
      requires Valid()
      modifies this
      ensures Valid() && (State(), r) == PopBack(old(State()))
      ensures old(Contents()) == [] ==> r.None? && Contents() == []
      ensures old(Contents()) != [] ==>
        r == Some(old(Contents())[|old(Contents())| - 1]) && Contents() == old(Contents())[..|old(Contents())| - 1]
    {
      PopBackUnlinks(State(), order);
      if tail.None? {
        return None;
      }
      var t := tail.value;
      var node := nodes[t];
      nodes := nodes - {t};
      tail := node.prev;
      match tail {
        case None => head := None;
        case Some(p) =>
          if p != t {
            nodes := nodes[p := nodes[p].(next := None)];
          }
      }
      len := len - 1;
      order := order[..|order| - 1];
      r := Some(node.element);
    }
  }
}
