/**
 * The intrusive FIFO ready queue of src/queue.c. The functions take the queue
 * (and thread) by pointer, as in C: a null argument is a `null` reference.
 * The queue's mutex is not modelled, so each locked entry point and its
 * `_locked` twin have the same effect.
 */
module LwtQueue {
  import opened LwtTypes

  /**
   * The representation invariant: `contents` lists distinct threads, each
   * linked to the next by its `next` field; `head` is the first, `tail` the
   * last with a null `next`, both null when the queue is empty; `count` is the
   * number of queued threads.
   */
  ghost predicate QueueValid(q: ReadyQueue)
    reads q, q.contents`next
  {
    var c := q.contents;
    && q.count == |c|
    && (forall i, j :: 0 <= i < j < |c| ==> c[i] != c[j])
    && (forall i :: 0 <= i < |c| - 1 ==> c[i].next == c[i + 1])
    && if c == [] then q.head == null && q.tail == null
       else q.head == c[0] && q.tail == c[|c| - 1] && q.tail.next == null
  }

  /** The thread reached from `t` by following `k` next links; null stays null. */
  ghost function Follow(t: Thread?, k: nat): Thread?
    reads *
  {
    if k == 0 || t == null then t else Follow(t.next, k - 1)
  }

  /** The queue's `i`-th thread, or null just past the end. */
  ghost function At(q: ReadyQueue, i: nat): Thread?
    reads q
    requires i <= |q.contents|
  {
    if i < |q.contents| then q.contents[i] else null
  }

  /** Following `k` links from the `i`-th queued thread reaches the `i + k`-th. */
  lemma {:induction false} FollowAt(q: ReadyQueue, i: nat, k: nat)
    requires QueueValid(q) && i + k <= |q.contents|
    ensures Follow(At(q, i), k) == At(q, i + k)
    decreases k
  {
    if k > 0 {
      assert At(q, i).next == At(q, i + 1);
      FollowAt(q, i + 1, k - 1);
    }
  }

  /**
   * `count` is the length of the chain that starts at `head`: its first
   * `count` links are the queued threads in order, and the next one is null.
   */
  lemma ChainFromHead(q: ReadyQueue)
    requires QueueValid(q)
    ensures forall k :: 0 <= k < q.count ==> Follow(q.head, k) == q.contents[k]
    ensures Follow(q.head, q.count) == null
  {
    forall k | 0 <= k <= q.count
      ensures Follow(q.head, k) == At(q, k)
    {
      FollowAt(q, 0, k);
    }
  }

  /** `head` is null exactly when `tail` is, exactly when the queue is empty. */
  lemma EmptyIff(q: ReadyQueue)
    requires QueueValid(q)
    ensures q.head == null <==> q.tail == null
    ensures q.head == null <==> q.count == 0
    ensures q.head == null <==> q.contents == []
  {
  }

  /** The thread of an optional pointer, as a frame. */
  ghost function Ref(t: Thread?): set<Thread>
  {
    if t == null then {} else {t}
  }

  /** The `next` links a push onto `q` may rewrite: the new thread's and the old tail's. */
  ghost function PushFrame(q: ReadyQueue?, t: Thread?): set<Thread>
    reads q
  {
    Ref(t) + if q == null then {} else Ref(q.tail)
  }

  /** The `next` link a pop may clear: the head's. */
  ghost function PopFrame(q: ReadyQueue?): set<Thread>
    reads q
  {
    if q == null then {} else Ref(q.head)
  }

  /** lwt_queue_init: the queue ends up empty even when the mutex cannot be created. */
  method Init(q: ReadyQueue?, mutexOk: bool) returns (r: int)
    modifies q
    ensures q == null ==> r == -1
    ensures q != null ==> r == (if mutexOk then 0 else -1)
    ensures q != null ==> q.head == null && q.tail == null && q.count == 0
    ensures q != null ==> q.contents == [] && QueueValid(q)
  {
    if q == null {
      return -1;
    }
    // zero the whole record
    q.head, q.tail, q.count := null, null, 0;
    q.contents := [];
    if !mutexOk {
      return -1;
    }
    q.head, q.tail, q.count := null, null, 0;
    return 0;
  }

  /** lwt_queue_destroy: resets the queue to empty; a null queue is ignored. */
  method Destroy(q: ReadyQueue?)
    modifies q
    ensures q != null ==> q.head == null && q.tail == null && q.count == 0
    ensures q != null ==> q.contents == [] && QueueValid(q)
  {
    if q == null {
      return;
    }
    q.head, q.tail, q.count := null, null, 0;
    q.contents := [];
  }

  /**
   * lwt_queue_push_locked: appends `t` at the tail with a null `next`; the
   * earlier threads keep their order. `t` must not be queued already (the
   * thread state machine guarantees it).
   */
  method PushLocked(q: ReadyQueue, t: Thread)
    requires QueueValid(q) && t !in q.contents
    modifies q, PushFrame(q, t)`next
    ensures QueueValid(q)
    ensures q.contents == old(q.contents) + [t]
    ensures q.count == old(q.count) + 1 && q.tail == t && t.next == null
    ensures old(q.contents) != [] ==> q.head == old(q.head)
  {
    t.next := null;
    if q.tail == null {
      q.head, q.tail := t, t;
    } else {
      q.tail.next := t;
      q.tail := t;
    }
    q.count := q.count + 1;
    q.contents := q.contents + [t];
  }

  /** lwt_queue_push: -1 and no change on a null argument, otherwise push_locked. */
  method Push(q: ReadyQueue?, t: Thread?) returns (r: int)
    requires q != null ==> QueueValid(q)
    requires q != null && t != null ==> t !in q.contents
    modifies q, PushFrame(q, t)`next
    ensures q == null || t == null ==> r == -1 && (q != null ==> unchanged(q))
    ensures q != null && t != null ==> r == 0 && QueueValid(q) && q.contents == old(q.contents) + [t]
    ensures q != null && t != null ==> q.count == old(q.count) + 1 && q.tail == t && t.next == null
    ensures q == null || t == null ==> forall u :: u in PushFrame(q, t) ==> u.next == old(u.next)
  {
    if q == null || t == null {
      return -1;
    }
    PushLocked(q, t);
    return 0;
  }

  /**
   * lwt_queue_pop_locked: on an empty queue, null and no change; otherwise
   * the old head, whose `next` is cleared, leaving the rest in order.
   */
  method PopLocked(q: ReadyQueue) returns (t: Thread?)
    requires QueueValid(q)
    modifies q, PopFrame(q)`next
    ensures QueueValid(q)
    ensures old(q.contents) == [] ==> t == null && unchanged(q)
    ensures old(q.contents) != [] ==> t == old(q.contents[0]) && t.next == null
    ensures old(q.contents) != [] ==> q.contents == old(q.contents[1..]) && q.count == old(q.count) - 1
    ensures old(q.contents) != [] && q.contents == [] ==> q.head == null && q.tail == null
  {
    if q.head == null {
      return null;
    }
    t := q.head;
    q.head := t.next;
    if q.head == null {
      q.tail := null;
    }
    t.next := null;
    q.count := q.count - 1;
    q.contents := q.contents[1..];
  }

  /** lwt_queue_pop: null and no change on a null queue, otherwise pop_locked. */
  method Pop(q: ReadyQueue?) returns (t: Thread?)
    requires q != null ==> QueueValid(q)
    modifies q, PopFrame(q)`next
    ensures q == null ==> t == null
    ensures q != null ==> QueueValid(q)
    ensures q != null && old(q.contents) == [] ==> t == null && unchanged(q)
    ensures q != null && old(q.contents) != [] ==> t == old(q.contents[0]) && t.next == null
    ensures q != null && old(q.contents) != [] ==> q.contents == old(q.contents[1..]) && q.count == old(q.count) - 1
  {
    if q == null {
      return null;
    }
    t := PopLocked(q);
  }

  /** lwt_queue_empty: 1 for a null or empty queue, 0 otherwise. */
  method Empty(q: ReadyQueue?) returns (r: int)
    requires q != null ==> QueueValid(q)
    ensures r == 0 || r == 1
    ensures r == 1 <==> q == null || q.contents == []
    ensures q != null ==> (r == 1 <==> q.head == null)
  {
    if q == null {
      return 1;
    }
    r := if q.head == null then 1 else 0;
  }

  /** lwt_queue_size: 0 for a null queue, otherwise the number of queued threads. */
  method Size(q: ReadyQueue?) returns (n: int)
    requires q != null ==> QueueValid(q)
    ensures n == if q == null then 0 else |q.contents|
  {
    if q == null {
      return 0;
    }
    n := q.count;
  }

  /** Pushing `a` then `b` onto an empty queue and popping twice yields `a` then `b`. */
  method FifoOrder(q: ReadyQueue, a: Thread, b: Thread) returns (x: Thread?, y: Thread?)
    requires QueueValid(q) && q.contents == [] && a != b
    modifies q, {a, b}`next
    ensures x == a && y == b
    ensures QueueValid(q) && q.contents == []
  {
    PushLocked(q, a);
    PushLocked(q, b);
    x := PopLocked(q);
    y := PopLocked(q);
  }
}
