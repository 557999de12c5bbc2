/** The parking lot's queue: a linked list with head and tail pointers. */
module ParkingQueue {
  import opened Values

  /** A parked thread and the address it waits on. */
  datatype Waiter = Waiter(thread: nat, address: nat)

  /** The first position at or after `from` whose waiter waits on `address`. */
  function Find(q: seq<Waiter>, address: nat, from: nat): (i: nat)
    requires from <= |q|
    ensures from <= i <= |q|
    ensures i < |q| ==> q[i].address == address
    ensures forall j :: from <= j < i ==> q[j].address != address
    decreases |q| - from
  {
    if from == |q| || q[from].address == address then from else Find(q, address, from + 1)
  }

  /** What `pop` hands out. */
  function Popped(q: seq<Waiter>, address: nat): Option<nat> {
    var i := Find(q, address, 0);
    if i < |q| then Some(q[i].thread) else None
  }

  /**
   * What `pop` leaves. The search never moves its `previous` pointer off the head, so
   * unlinking a later match also unlinks everything between.
   */
  function Left(q: seq<Waiter>, address: nat): seq<Waiter> {
    var i := Find(q, address, 0);
    if i == |q| then q
    else if i == 0 then q[1..]
    else [q[0]] + q[i + 1..]
  }

  /** What removing exactly the first match would leave. */
  function Removed(q: seq<Waiter>, address: nat): seq<Waiter> {
    var i := Find(q, address, 0);
    if i == |q| then q else q[..i] + q[i + 1..]
  }

  /** `pop` removes just the popped waiter exactly when the match is among the first two. */
  lemma PopLosesNobody(q: seq<Waiter>, address: nat)
    ensures Left(q, address) == Removed(q, address) <==> (Find(q, address, 0) <= 1 || Find(q, address, 0) == |q|)
  {
    var i := Find(q, address, 0);
    if 1 < i < |q| {
      assert |Left(q, address)| == |q| - i < |Removed(q, address)|;
    } else if i == 1 && i < |q| {
      assert q[..1] == [q[0]];
    }
  }

  /** A third waiter's address drops the second waiter for good. */
  lemma PopLosesSecond()
    ensures Left([Waiter(1, 7), Waiter(2, 7), Waiter(3, 9)], 9) == [Waiter(1, 7)]
  {
    var q := [Waiter(1, 7), Waiter(2, 7), Waiter(3, 9)];
    assert Find(q, 9, 2) == 2;
    assert Find(q, 9, 1) == 2;
  }

  // ----- one queue per address -----

  datatype Op = PushOp(thread: nat) | PopOp

  /** The queue after a run of operations on one address, and what the pops handed out. */
  function Run(q: seq<Waiter>, address: nat, ops: seq<Op>): (seq<Waiter>, seq<Option<nat>>)
    decreases |ops|
  {
    if |ops| == 0 then (q, [])
    else
      match ops[0]
      case PushOp(t) => Run(q + [Waiter(t, address)], address, ops[1..])
      case PopOp =>
        var (q', out) := Run(Left(q, address), address, ops[1..]);
        (q', [Popped(q, address)] + out)
  }

  /** The same run on a plain first-in first-out queue of threads. */
  function Fifo(q: seq<nat>, ops: seq<Op>): (seq<nat>, seq<Option<nat>>)
    decreases |ops|
  {
    if |ops| == 0 then (q, [])
    else
      match ops[0]
      case PushOp(t) => Fifo(q + [t], ops[1..])
      case PopOp =>
        var (q', out) := Fifo(if |q| == 0 then q else q[1..], ops[1..]);
        (q', [if |q| == 0 then None else Some(q[0])] + out)
  }

  predicate SameAddress(q: seq<Waiter>, address: nat) {
    forall i :: 0 <= i < |q| ==> q[i].address == address
  }

  function Threads(q: seq<Waiter>): (r: seq<nat>)
    ensures |r| == |q| && forall i :: 0 <= i < |q| ==> r[i] == q[i].thread
  {
    if |q| == 0 then [] else [q[0].thread] + Threads(q[1..])
  }

  /**
   * Because the table keeps one queue per address, every entry of a queue carries that
   * address; so popping always takes the head, and every run of pushes and pops is a run
   * of a first-in first-out queue.
   */
  lemma {:induction false} RunIsFifo(q: seq<Waiter>, address: nat, ops: seq<Op>)
    requires SameAddress(q, address)
    ensures SameAddress(Run(q, address, ops).0, address)
    ensures (Threads(Run(q, address, ops).0), Run(q, address, ops).1) == Fifo(Threads(q), ops)
    decreases |ops|
  {
    if |ops| > 0 {
      if ops[0].PushOp? {
        var q1 := q + [Waiter(ops[0].thread, address)];
        RunIsFifo(q1, address, ops[1..]);
        assert Threads(q1) == Threads(q) + [ops[0].thread];
      } else {
        assert |q| > 0 ==> Find(q, address, 0) == 0;
        RunIsFifo(Left(q, address), address, ops[1..]);
        assert |q| > 0 ==> Threads(Left(q, address)) == Threads(q)[1..];
      }
    }
  }

  // ----- the linked list -----

  class QueueEntry {
    const waiter: Waiter
    var next: QueueEntry?

    constructor (w: Waiter)
      ensures waiter == w && next == null
    {
      waiter, next := w, null;
    }
  }

  function At(nodes: seq<QueueEntry>, i: nat): QueueEntry? {
    if i < |nodes| then nodes[i] else null
  }

  class ThreadQueue {
    var head: QueueEntry?
    var tail: QueueEntry?
    ghost var nodes: seq<QueueEntry>

    ghost predicate Valid()
      reads this, nodes
    {
      (forall i, j :: 0 <= i < j < |nodes| ==> nodes[i] != nodes[j]) &&
      head == At(nodes, 0) &&
      tail == (if |nodes| == 0 then null else nodes[|nodes| - 1]) &&
      (forall i :: 0 <= i < |nodes| ==> nodes[i].next == At(nodes, i + 1))
    }

    ghost function Contents(): (q: seq<Waiter>)
      reads this
      ensures |q| == |nodes| && forall i :: 0 <= i < |q| ==> q[i] == nodes[i].waiter
    {
      seq(|nodes|, i requires 0 <= i < |nodes| reads this => nodes[i].waiter)
    }

    constructor ()
      ensures Valid() && Contents() == []
    {
      head, tail, nodes := null, null, [];
    }

    method Push(thread: nat, address: nat)
      requires Valid()
      modifies this, nodes
      ensures Valid() && Contents() == old(Contents()) + [Waiter(thread, address)]
      ensures fresh(set n | n in nodes && n !in old(nodes))
    {
      var entry := new QueueEntry(Waiter(thread, address));
      if tail != null {
        tail.next := entry;
        tail := entry;
      } else {
        head := entry;
        tail := entry;
      }
      nodes := nodes + [entry];
    }

    method Pop(address: nat) returns (data: Option<nat>)
      requires Valid()
      modifies this, nodes
      ensures Valid()
      ensures data == Popped(old(Contents()), address)
      ensures Contents() == Left(old(Contents()), address)
      ensures forall n :: n in nodes ==> n in old(nodes)
    {
      if head == null {
        data := None;
      } else if head.waiter.address == address {
        data := PopHead(address);
      } else {
        data := PopLater(address);
      }
    }

    /** The head matches. */
    method PopHead(address: nat) returns (data: Option<nat>)
      requires Valid() && |nodes| > 0 && nodes[0].waiter.address == address
      modifies this
      ensures Valid()
      ensures data == Popped(old(Contents()), address)
      ensures Contents() == Left(old(Contents()), address)
      ensures nodes == old(nodes)[1..]
    {
      ghost var q, before := Contents(), nodes;
      assert Find(q, address, 0) == 0;
      var first := head;
      data := Some(first.waiter.thread);
      head := first.next;
      if head == null {
        tail := null;
      }
      nodes := nodes[1..];
      assert forall i :: 0 <= i < |nodes| ==> nodes[i] == before[i + 1];
    }

    /** The search behind the head; `previous` stays on the head throughout. */
    method PopLater(address: nat) returns (data: Option<nat>)
      requires Valid() && |nodes| > 0 && nodes[0].waiter.address != address
      modifies this, nodes
      ensures Valid()
      ensures data == Popped(old(Contents()), address)
      ensures Contents() == Left(old(Contents()), address)
      ensures forall n :: n in nodes ==> n in old(nodes)
    {
      ghost var q := Contents();
      var previous := head;
      var current := head.next;
      ghost var i := 1;
      assert Find(q, address, 0) == Find(q, address, 1);
      while current != null
        invariant 1 <= i <= |nodes| && current == At(nodes, i)
        invariant Find(q, address, 0) == Find(q, address, i)
        decreases |nodes| - i
      {
        if current.waiter.address == address {
          assert q[i].address == address && Find(q, address, 0) == i;
          data := Some(current.waiter.thread);
          Unlink(previous, current, i);
          assert Contents() == [q[0]] + q[i + 1..];
          return;
        }
        current := current.next;
        i := i + 1;
      }
      data := None;
    }

    /** Bypasses everything between the head and the matching entry, and that entry. */
    method Unlink(previous: QueueEntry, current: QueueEntry, ghost i: nat)
      requires Valid() && 1 <= i < |nodes| && previous == nodes[0] && current == nodes[i]
      modifies this, previous
      ensures Valid() && nodes == [old(nodes)[0]] + old(nodes)[i + 1..]
    {
      ghost var before := nodes;
      previous.next := current.next;
      if current == tail {
        tail := previous;
      }
      nodes := [before[0]] + before[i + 1..];
      assert forall k :: 1 <= k < |nodes| ==> nodes[k] == before[i + k];
    }

    method Empty() returns (r: bool)
      requires Valid()
      ensures r <==> Contents() == []
    {
      r := head == null && tail == null;
    }
  }
}
