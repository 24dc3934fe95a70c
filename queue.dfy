/**
 * The position-history queue: a growable backing vector plus a separate
 * logical counter. Reads are bounded by the counter but served from the
 * backing vector, and `FillWith` rewrites the vector without touching the
 * counter, so the two can drift apart.
 */
module Queues {
  import opened Geometry

  /** Capacity after a push into a full vector: the standard library at least
      doubles, and never allocates fewer than four slots for small elements. */
  function Grown(capacity: nat): (c: nat)
    ensures c > capacity
  {
    if 2 * capacity > 4 then 2 * capacity else 4
  }

  class Queue<T> {
    /** The backing vector (`queue` in the source). */
    var queue: seq<T>
    /** The logical length (`items_in_q`). */
    var itemsInQ: nat
    /** The backing vector's allocated capacity. */
    var capacity: nat

    /** The counter never runs ahead of the vector, and the vector fits its allocation. */
    ghost predicate Valid()
      reads this
    {
      itemsInQ <= |queue| <= capacity
    }

    /** The vector holds exactly the logical contents: true unless `FillWith` was used. */
    ghost predicate Exact()
      reads this
    {
      |queue| == itemsInQ
    }

    constructor (n: nat)
      ensures Valid() && Exact()
      ensures queue == [] && itemsInQ == 0 && capacity == n
    {
      queue := [];
      itemsInQ := 0;
      capacity := n;
    }

    /** Appends at the back; the counter grows by exactly one. */
    method Push(x: T)
      requires Valid()
      modifies this
      ensures Valid()
      ensures queue == old(queue) + [x]
      ensures itemsInQ == old(itemsInQ) + 1
      ensures capacity >= old(capacity)
      ensures old(|queue|) < old(capacity) ==> capacity == old(capacity)
      ensures old(Exact()) ==> Exact()
    {
      itemsInQ := itemsInQ + 1;
      if |queue| == capacity {
        capacity := Grown(capacity);
      }
      queue := queue + [x];
    }

    /** Removes and returns the front backing element. The counter is an
        unsigned integer that must not underflow, so the queue may not be empty. */
    method Pop() returns (x: T)
      requires Valid() && itemsInQ > 0
      modifies this
      ensures Valid()
      ensures x == old(queue)[0]
      ensures queue == old(queue)[1..]
      ensures itemsInQ == old(itemsInQ) - 1
      ensures capacity == old(capacity)
      ensures old(Exact()) ==> Exact()
    {
      itemsInQ := itemsInQ - 1;
      x := queue[0];
      queue := queue[1..];
    }

    function GetItemsInQ(): (n: nat)
      reads this
      ensures Valid() ==> n <= GetLength()
      ensures Exact() ==> n == GetLength()
    {
      itemsInQ
    }

    function GetLength(): (n: nat)
      reads this
      ensures Valid() ==> itemsInQ <= n <= capacity
    {
      |queue|
    }

    /** Present exactly below the logical length; the value comes from the backing vector. */
    function GetAt(i: nat): (r: Option<T>)
      reads this
      ensures Valid() ==> (r.Some? <==> i < itemsInQ)
      ensures r.Some? ==> i < |queue| && r.value == queue[i]
    {
      if i < itemsInQ then
        if i < |queue| then Some(queue[i]) else None
      else
        None
    }

    /** The first backing element, whatever the logical length says. */
    function Peek(): (r: Option<T>)
      reads this
      ensures r.Some? <==> |queue| > 0
      ensures r.Some? ==> r.value == queue[0]
    {
      if |queue| > 0 then Some(queue[0]) else None
    }

    /** Overwrites the backing vector with `capacity` copies of `v`; the counter is left alone. */
    method FillWith(v: T)
      requires Valid()
      modifies this
      ensures Valid()
      ensures |queue| == capacity == old(capacity)
      ensures forall k :: 0 <= k < |queue| ==> queue[k] == v
      ensures itemsInQ == old(itemsInQ)
    {
      queue := seq(capacity, _ => v);
    }
  }

  /** On a queue that was never pre-filled, two pushes and two pops come back
      in the order they went in. */
  method FifoOrder<T>(n: nat, a: T, b: T) returns (first: T, second: T)
    ensures first == a && second == b
  {
    var q := new Queue<T>(n);
    q.Push(a);
    q.Push(b);
    first := q.Pop();
    second := q.Pop();
  }

  /** After a fill and one push, the backing vector still starts with the filler:
      `Peek` and `GetAt(0)` return the filler, not the pushed value. */
  method FilledQueueServesFiller<T>(n: nat, filler: T, x: T) returns (front: Option<T>, at0: Option<T>, len: nat)
    requires n > 0
    ensures front == Some(filler) && at0 == Some(filler)
    ensures len == n + 1
  {
    var q := new Queue<T>(n);
    q.FillWith(filler);
    q.Push(x);
    front := q.Peek();
    at0 := q.GetAt(0);
    len := q.GetLength();
  }
}
