/**
 * The scheduler of src/scheduler.c: initialisation, adding a thread, the
 * dispatch step of the worker loop and cleanup, with the scheduler-wide
 * invariant they keep. Locks and condition variables are not modelled: each
 * method is one critical section, and a wait on the condition variable ends
 * the step.
 */
module LwtScheduler {
  import opened LwtTypes
  import opened LwtQueue

  /** The fixed-size arrays of the struct have their declared size. */
  ghost predicate Layout(s: Scheduler)
  {
    s.running.Length == MAX_WORKERS && s.workerIds.Length == MAX_WORKERS
  }

  /** Every queued thread belongs to the scheduler and is READY. */
  ghost predicate QueuedReady(s: Scheduler)
    reads s`threads, s.readyQueue, s.threads
  {
    forall t :: t in s.readyQueue.contents ==> t in s.threads && t.state == Ready
  }

  /**
   * A thread held in a worker's running slot belongs to the scheduler, is
   * RUNNING (or FINISHED, between the finish step and its final yield), and
   * no thread is held by two workers at once.
   */
  ghost predicate SlotsHeld(s: Scheduler)
    requires Layout(s)
    reads s`threads, s.running, s.threads
  {
    && (forall i :: 0 <= i < MAX_WORKERS && s.running[i] != null ==>
          s.running[i] in s.threads && (s.running[i].state == Running || s.running[i].state == Finished))
    && (forall i, j :: 0 <= i < j < MAX_WORKERS && s.running[i] != null ==> s.running[i] != s.running[j])
  }

  /**
   * A recorded waiter belongs to the scheduler, is BLOCKED in join (not
   * asleep) and is joining that very target, so no thread waits on two
   * targets; a sleeping thread is BLOCKED.
   */
  ghost predicate WaitersBlocked(s: Scheduler)
    reads s`threads, s.threads
  {
    && (forall t :: t in s.threads && t.waiting != null ==>
          t.waiting in s.threads && t.waiting.state == Blocked && !t.waiting.asleep && t.waiting.joining == t)
    && (forall t :: t in s.threads && t.asleep ==> t.state == Blocked)
  }

  /** A thread is recorded as the waiter of at most one target. */
  lemma WaiterOfOne(s: Scheduler, t: Thread, u: Thread)
    requires WaitersBlocked(s) && t in s.threads && u in s.threads
    requires t.waiting != null && t.waiting == u.waiting
    ensures t == u
  {
  }

  /** The scheduler-wide invariant that every critical section preserves. */
  ghost predicate SchedValid(s: Scheduler)
    reads s`numWorkers, s`threads, s.readyQueue, s.readyQueue.contents`next, s.running, s.threads
  {
    && Layout(s)
    && 1 <= s.numWorkers <= MAX_WORKERS
    && QueueValid(s.readyQueue)
    && QueuedReady(s)
    && SlotsHeld(s)
    && WaitersBlocked(s)
  }

  /** The ids of `ts` are distinct, at least 1 and below `next`. */
  ghost predicate IdsBelow(ts: set<Thread>, next: int)
    reads ts
  {
    && (forall t :: t in ts ==> 1 <= t.id < next)
    && (forall t, u :: t in ts && u in ts && t != u ==> t.id != u.id)
  }

  /** Thread ids are distinct, at least 1 and below the scheduler's counter, which is positive. */
  ghost predicate UniqueIds(s: Scheduler)
    reads s`nextThreadId, s`threads, s.threads
  {
    s.nextThreadId >= 1 && IdsBelow(s.threads, s.nextThreadId)
  }

  /**
   * Handing out the counter's value as the id of a new thread and advancing
   * the counter keeps the ids distinct, and the new id exceeds every earlier
   * one, so ids increase in creation order.
   */
  lemma IdsBelowAdd(ts: set<Thread>, t: Thread, next: int)
    requires IdsBelow(ts, next) && t !in ts && t.id == next && next >= 1
    ensures IdsBelow(ts + {t}, next + 1)
    ensures forall u :: u in ts ==> u.id < t.id
  {
  }

  /** The thread state machine: NEW, READY, RUNNING, then BLOCKED or READY again, then FINISHED. */
  ghost predicate Transition(from: State, to: State)
  {
    || from == to
    || (from == New && to == Ready)
    || (from == Ready && to == Running)
    || (from == Running && (to == Ready || to == Blocked || to == Finished))
    || (from == Blocked && to == Ready)
  }

  /** Every thread of `ts` moved along the state machine (possibly not at all). */
  twostate predicate StatesAdvance(ts: set<Thread>)
    reads ts
  {
    forall t :: t in ts ==> Transition(old(t.state), t.state)
  }

  /** The scheduler of an optional pointer, as a frame. */
  ghost function SchedRef(s: Scheduler?): set<Scheduler>
  {
    if s == null then {} else {s}
  }

  /** The ready queue embedded in an optional scheduler. */
  ghost function QueueOf(s: Scheduler?): ReadyQueue?
  {
    if s == null then null else s.readyQueue
  }

  /** The memory of an optional scheduler struct, as a frame. */
  ghost function Storage(s: Scheduler?): set<object>
  {
    if s == null then {} else {s, s.readyQueue, s.running, s.workerIds}
  }

  /**
   * lwt_scheduler_init: rejects a null scheduler and a worker count outside
   * [1, MAX_WORKERS] with EINVAL; otherwise zeroes the struct, stores the
   * count with the flag cleared and the id counter at 1, empties the queue,
   * and (when the queue mutex, the mutex and the condition variable can be
   * created) numbers the workers 0 .. num_workers - 1.
   */
  method Init(s: Scheduler?, numWorkers: int, queueMutexOk: bool, mutexOk: bool, condOk: bool)
    returns (r: int, einval: bool)
    requires s != null ==> Layout(s)
    modifies Storage(s)
    ensures einval <==> s == null || numWorkers <= 0 || numWorkers > MAX_WORKERS
    ensures einval ==> r == -1 && unchanged(Storage(s))
    ensures !einval ==> r == (if queueMutexOk && mutexOk && condOk then 0 else -1)
    ensures s != null && !einval ==>
      && s.numWorkers == numWorkers && s.runningFlag == 0 && s.nextThreadId == 1
      && s.threads == {} && QueueValid(s.readyQueue) && s.readyQueue.contents == []
      && (forall i :: 0 <= i < MAX_WORKERS ==> s.running[i] == null)
    ensures s != null && !einval && r != 0 ==> forall i :: 0 <= i < MAX_WORKERS ==> s.workerIds[i] == 0
    ensures r == 0 ==> s != null && SchedValid(s) && UniqueIds(s)
    ensures r == 0 ==> forall i :: 0 <= i < numWorkers ==> s.workerIds[i] == i
    ensures r == 0 ==> forall i :: numWorkers <= i < MAX_WORKERS ==> s.workerIds[i] == 0
  {
    if s == null || numWorkers <= 0 || numWorkers > MAX_WORKERS {
      return -1, true;
    }
    einval := false;
    // zero the whole record
    forall i | 0 <= i < MAX_WORKERS {
      s.running[i] := null;
    }
    forall i | 0 <= i < MAX_WORKERS {
      s.workerIds[i] := 0;
    }
    s.threads := {};
    s.numWorkers, s.runningFlag, s.nextThreadId := numWorkers, 0, 1;

    var queued := LwtQueue.Init(s.readyQueue, queueMutexOk);
    if queued != 0 {
      return -1, false;
    }
    if !mutexOk {
      LwtQueue.Destroy(s.readyQueue);
      return -1, false;
    }
    if !condOk {
      LwtQueue.Destroy(s.readyQueue);
      return -1, false;
    }
    for i := 0 to numWorkers
      modifies s.workerIds
      invariant forall k :: 0 <= k < i ==> s.workerIds[k] == k
      invariant forall k :: i <= k < MAX_WORKERS ==> s.workerIds[k] == 0
    {
      s.workerIds[i] := i;
    }
    r := 0;
  }

  /** lwt_scheduler_cleanup: a null scheduler is ignored; otherwise the ready queue is reset. */
  method Cleanup(s: Scheduler?)
    modifies QueueOf(s)
    ensures s != null ==> QueueValid(s.readyQueue) && s.readyQueue.contents == []
    ensures s != null && old(SchedValid(s)) ==> SchedValid(s)
  {
    if s == null {
      return;
    }
    LwtQueue.Destroy(s.readyQueue);
  }

  /**
   * lwt_scheduler_add_thread: -1 with EINVAL for a null scheduler or
   * thread; otherwise the thread is marked READY, appended at the tail of the
   * ready queue and becomes one of the scheduler's threads. The thread must be
   * a new one: not yet handed to the scheduler and waited on by nobody.
   */
  method AddThread(s: Scheduler?, t: Thread?) returns (r: int, einval: bool)
    requires s != null ==> SchedValid(s)
    requires s != null && t != null ==> t !in s.threads && t.waiting == null && !t.asleep
    modifies SchedRef(s)`threads, QueueOf(s), PushFrame(QueueOf(s), t)`next, Ref(t)`state
    ensures einval <==> s == null || t == null
    ensures r == (if einval then -1 else 0)
    ensures einval && s != null ==> unchanged(s.readyQueue) && s.threads == old(s.threads)
    ensures einval ==> forall u :: u in PushFrame(QueueOf(s), t) ==> u.next == old(u.next) && u.state == old(u.state)
    ensures s != null ==> SchedValid(s) && StatesAdvance(old(s.threads))
    ensures !einval ==> t.state == Ready && s.threads == old(s.threads) + {t}
    ensures !einval ==> s.readyQueue.contents == old(s.readyQueue.contents) + [t]
  {
    if s == null || t == null {
      return -1, true;
    }
    t.state := Ready;
    var pushed := Push(s.readyQueue, t);
    if pushed != 0 {
      return -1, false;
    }
    s.threads := s.threads + {t};
    assert WaitersBlocked(s);
    r, einval := 0, false;
  }

  /** What one pass of the worker loop does. */
  datatype WorkerAction =
    | Exit               // the running flag is clear: the worker returns
    | Wait               // nothing is ready: the worker waits on the condition variable
    | Resume(thread: Thread)  // the worker switches into this thread

  /**
   * One pass of the dispatch loop of lwt_worker_function for worker `id`:
   * with the flag clear the worker exits, even with threads queued; with the
   * flag set and nothing ready it waits; otherwise it pops the head of the
   * ready queue, marks it RUNNING, records it in its running slot and as the
   * OS thread's current thread, and switches into it.
   */
  method WorkerStep(s: Scheduler, id: int, local: WorkerLocal) returns (action: WorkerAction)
    requires SchedValid(s) && 0 <= id < s.numWorkers
    modifies s.running, s.readyQueue, PopFrame(s.readyQueue)`next, PopFrame(s.readyQueue)`state
    modifies local`currentThread
    ensures SchedValid(s) && StatesAdvance(s.threads)
    ensures old(s.runningFlag) == 0 ==> action == Exit
    ensures old(s.runningFlag) != 0 && old(s.readyQueue.contents) == [] ==> action == Wait
    ensures !action.Resume? ==> unchanged(s.running, s.readyQueue, local) && unchanged(PopFrame(s.readyQueue))
    ensures old(s.runningFlag) != 0 && old(s.readyQueue.contents) != [] ==>
      && action == Resume(old(s.readyQueue.contents[0]))
      && action.thread.state == Running
      && s.running[id] == action.thread
      && local.currentThread == action.thread
      && s.readyQueue.contents == old(s.readyQueue.contents[1..])
    ensures forall i :: 0 <= i < MAX_WORKERS && i != id ==> s.running[i] == old(s.running[i])
  {
    if s.runningFlag != 0 && s.readyQueue.head == null {
      return Wait;
    }
    if s.runningFlag == 0 {
      return Exit;
    }
    var t := PopLocked(s.readyQueue);
    // The queue was not empty, so `t` is the old head (the C code's null
    // check on it never fails here).
    t.state := Running;
    s.running[id] := t;
    assert WaitersBlocked(s);
    local.SetCurrent(t);
    action := Resume(t);
  }
}
