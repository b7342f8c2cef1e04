/**
 * The public API of src/lwthread.c as the bookkeeping each call performs
 * under the scheduler's lock. The calling green thread (`current_thread`)
 * and the worker id (`current_worker_id`) are parameters, and `s` is the
 * scheduler the API reaches through the thread's back-pointer. Switching
 * context back to the worker ends the step; spawning and joining OS threads,
 * reading the clock and sleeping are not modelled.
 */
module Lwthread {
  import opened LwtTypes
  import opened LwtQueue
  import opened LwtScheduler
  import LwtThread
  import opened Timespec

  /**
   * lwt_scheduler_create: a worker count outside [1, MAX_WORKERS] is
   * rejected with EINVAL and no handle; `allocOk` says whether malloc of the
   * struct succeeds, the other flags whether init can create its mutexes and
   * condition variable. A handle is returned only when all succeed, and it is
   * an initialised, stopped scheduler with an empty ready queue.
   */
  method SchedulerCreate(numThreads: int, allocOk: bool, queueMutexOk: bool, mutexOk: bool, condOk: bool)
    returns (s: Scheduler?, einval: bool)
    ensures einval <==> numThreads <= 0 || numThreads > MAX_WORKERS
    ensures s != null <==> !einval && allocOk && queueMutexOk && mutexOk && condOk
    ensures s != null ==> fresh(s) && fresh(s.readyQueue) && fresh(s.running) && fresh(s.workerIds)
    ensures s != null ==> SchedValid(s) && UniqueIds(s)
    ensures s != null ==>
      && s.numWorkers == numThreads && s.runningFlag == 0 && s.nextThreadId == 1
      && s.readyQueue.contents == [] && s.threads == {}
      && (forall i :: 0 <= i < MAX_WORKERS ==> s.running[i] == null)
      && (forall i :: 0 <= i < numThreads ==> s.workerIds[i] == i)
  {
    if numThreads <= 0 || numThreads > MAX_WORKERS {
      return null, true;
    }
    einval := false;
    if !allocOk {
      return null, false;
    }
    s := new Scheduler();
    var r, _ := LwtScheduler.Init(s, numThreads, queueMutexOk, mutexOk, condOk);
    if r != 0 {
      return null, false;
    }
  }

  /** lwt_scheduler_start: no-op on a null or running scheduler; otherwise the flag becomes 1. */
  method SchedulerStart(s: Scheduler?)
    modifies SchedRef(s)`runningFlag
    ensures s != null ==> s.runningFlag == if old(s.runningFlag) != 0 then old(s.runningFlag) else 1
  {
    if s == null || s.runningFlag != 0 {
      return;
    }
    s.runningFlag := 1;
  }

  /** lwt_scheduler_stop: no-op on a null or stopped scheduler; otherwise the flag is cleared. */
  method SchedulerStop(s: Scheduler?)
    modifies SchedRef(s)`runningFlag
    ensures s != null ==> s.runningFlag == 0
  {
    if s == null || s.runningFlag == 0 {
      return;
    }
    s.runningFlag := 0;
  }

  /**
   * lwt_scheduler_destroy: no-op on null; otherwise stop, then cleanup,
   * which empties the ready queue. Releasing the struct is not modelled.
   */
  method SchedulerDestroy(s: Scheduler?)
    requires s != null ==> SchedValid(s)
    modifies SchedRef(s)`runningFlag, QueueOf(s)
    ensures s != null ==> s.runningFlag == 0 && s.readyQueue.contents == [] && SchedValid(s)
  {
    if s == null {
      return;
    }
    SchedulerStop(s);
    Cleanup(s);
  }

  /**
   * lwt_create: NULL with EINVAL for a null scheduler or entry function.
   * `allocOk` says whether malloc of the record succeeds, `stackBlock` is
   * what malloc returns for the stack, `contextOk` whether capturing the
   * context succeeds. On success the new thread has the default stack, the
   * scheduler's next id, state READY, and is the new tail of the ready queue;
   * on failure the scheduler is unchanged.
   */
  method Create(s: Scheduler?, func: Addr, arg: Addr, allocOk: bool, stackBlock: Addr, contextOk: bool)
    returns (t: Thread?, einval: bool)
    requires s != null ==> SchedValid(s)
    modifies SchedRef(s)`threads, SchedRef(s)`nextThreadId, QueueOf(s)
    modifies PushFrame(QueueOf(s), null)`next
    ensures einval <==> s == null || func == NULL
    ensures t != null <==> !einval && allocOk && stackBlock != NULL && contextOk
    ensures s != null ==> SchedValid(s) && StatesAdvance(old(s.threads))
    ensures s != null && old(UniqueIds(s)) ==> UniqueIds(s)
    ensures t != null ==>
      && fresh(t) && t.state == Ready && t.func == func && t.arg == arg && t.scheduler == s
      && t.stack == stackBlock && t.stackSize == LwtThread.DEFAULT_STACK_SIZE && t.waiting == null
      && t.id == old(s.nextThreadId) && s.nextThreadId == old(s.nextThreadId) + 1
      && s.threads == old(s.threads) + {t}
      && s.readyQueue.contents == old(s.readyQueue.contents) + [t]
    ensures t == null && s != null ==>
      && s.threads == old(s.threads) && s.nextThreadId == old(s.nextThreadId)
      && unchanged(s.readyQueue) && unchanged(PushFrame(s.readyQueue, null))
  {
    if s == null || func == NULL {
      return null, true;
    }
    einval := false;
    if !allocOk {
      return null, false;
    }
    var thread := new Thread();
    var ok := InitAndAdd(s, thread, func, arg, stackBlock, contextOk);
    t := if ok then thread else null;
  }

  /**
   * The part of lwt_create after the record is allocated: lwt_thread_init
   * with the default stack size and, when that succeeds, lwt_scheduler_add_thread.
   * `ok` says whether the thread was initialised and queued; if not, only
   * the (still private) record has changed.
   */
  method InitAndAdd(s: Scheduler, thread: Thread, func: Addr, arg: Addr, stackBlock: Addr, contextOk: bool)
    returns (ok: bool)
    requires SchedValid(s) && thread !in s.threads && func != NULL
    modifies thread, s`threads, s`nextThreadId, s.readyQueue, PushFrame(s.readyQueue, null)`next
    ensures ok <==> stackBlock != NULL && contextOk
    ensures SchedValid(s) && StatesAdvance(old(s.threads))
    ensures old(UniqueIds(s)) ==> UniqueIds(s)
    ensures ok ==>
      && thread.state == Ready && thread.func == func && thread.arg == arg && thread.scheduler == s
      && thread.stack == stackBlock && thread.stackSize == LwtThread.DEFAULT_STACK_SIZE && thread.waiting == null
      && thread.id == old(s.nextThreadId) && s.nextThreadId == old(s.nextThreadId) + 1
      && s.threads == old(s.threads) + {thread}
      && s.readyQueue.contents == old(s.readyQueue.contents) + [thread]
    ensures !ok ==>
      && s.threads == old(s.threads) && s.nextThreadId == old(s.nextThreadId)
      && unchanged(s.readyQueue) && unchanged(PushFrame(s.readyQueue, null))
  {
    ghost var unique := UniqueIds(s);
    var r, _, _ := LwtThread.Init(thread, func, arg, s, 0, stackBlock, contextOk);
    assert SchedValid(s);
    if r != 0 {
      return false;
    }
    assert unique ==> IdsBelow(s.threads, thread.id);
    // Both pointers are non-null, so adding the thread cannot fail here (the
    // C code's cleanup on that path is never taken).
    var _, _ := AddThread(s, thread);
    if unique {
      IdsBelowAdd(old(s.threads), thread, thread.id);
    }
    ok := true;
  }

  /**
   * lwt_yield by `cur` on worker `w`: nothing happens outside a green thread
   * or for a worker id outside [0, num_workers). Otherwise a thread that has
   * not FINISHED becomes READY and is appended to the ready queue, a FINISHED
   * one is not, and the worker's running slot is cleared in either case.
   * `s` stands for `cur->scheduler`; when `cur` is null the C code has no
   * scheduler at hand and `s` plays no part.
   */
  method Yield(s: Scheduler, cur: Thread?, w: int)
    requires SchedValid(s)
    requires cur != null ==> cur.scheduler == s
    requires cur != null && 0 <= w < s.numWorkers ==> s.running[w] == cur
    modifies s.running, s.readyQueue, PushFrame(s.readyQueue, cur)`next, Ref(cur)`state
    ensures SchedValid(s) && StatesAdvance(s.threads)
    ensures cur == null || !(0 <= w < s.numWorkers) ==>
      && unchanged(s.running, s.readyQueue) && unchanged(PushFrame(s.readyQueue, cur))
      && (cur != null ==> cur.state == old(cur.state))
    ensures cur != null && 0 <= w < s.numWorkers ==>
      && s.running[w] == null
      && (forall i :: 0 <= i < MAX_WORKERS && i != w ==> s.running[i] == old(s.running[i]))
      && if old(cur.state) == Finished
         then cur.state == Finished && unchanged(s.readyQueue)
         else cur.state == Ready && s.readyQueue.contents == old(s.readyQueue.contents) + [cur]
  {
    if cur == null {
      return;
    }
    if w < 0 || w >= s.numWorkers {
      return;
    }
    if cur.state != Finished {
      cur.state := Ready;
      PushLocked(s.readyQueue, cur);
    }
    s.running[w] := null;
    assert QueuedReady(s);
    assert SlotsHeld(s);
    assert WaitersBlocked(s);
  }

  /**
   * lwt_join of `target` by `cur` on worker `w`: nothing happens for a null
   * target, outside a green thread, for a worker id outside [0, num_workers)
   * or when the target has already FINISHED. Otherwise the caller becomes
   * BLOCKED, is recorded as the target's waiter (replacing any earlier one)
   * and leaves its worker's running slot; the ready queue is untouched. The
   * target need not belong to `s`. `s` stands for `cur->scheduler`; when
   * `cur` is null the C code has no scheduler at hand and `s` plays no part.
   */
  method Join(s: Scheduler, cur: Thread?, w: int, target: Thread?)
    requires SchedValid(s)
    requires cur != null ==> cur.scheduler == s
    requires cur != null && 0 <= w < s.numWorkers ==> s.running[w] == cur && cur.state == Running
    modifies s.running, Ref(cur)`state, Ref(cur)`joining, Ref(target)`waiting
    ensures SchedValid(s) && StatesAdvance(s.threads)
    ensures s.readyQueue.contents == old(s.readyQueue.contents)
    ensures target == null || cur == null || !(0 <= w < s.numWorkers) || old(target.state) == Finished ==>
      && unchanged(s.running)
      && (cur != null ==> cur.state == old(cur.state))
      && (target != null ==> target.waiting == old(target.waiting))
    ensures target != null && cur != null && 0 <= w < s.numWorkers && old(target.state) != Finished ==>
      && cur.state == Blocked && target.waiting == cur
      && s.running[w] == null
      && (forall i :: 0 <= i < MAX_WORKERS && i != w ==> s.running[i] == old(s.running[i]))
  {
    if target == null {
      return;
    }
    if cur == null {
      return;
    }
    if w < 0 || w >= s.numWorkers {
      return;
    }
    if target.state == Finished {
      return;
    }
    cur.state := Blocked;
    cur.joining := target;
    target.waiting := cur;
    s.running[w] := null;
    assert QueuedReady(s);
    assert SlotsHeld(s);
    assert WaitersBlocked(s);
  }

  /** lwt_current: the calling OS thread's current green thread, or null. */
  method Current(local: WorkerLocal) returns (t: Thread?)
    ensures t == local.currentThread
  {
    t := local.Self();
  }

  /** What lwt_sleep goes on to wait for once its bookkeeping is done. */
  datatype SleepWait =
    | OsSleep(duration: Timespec)   // outside a green thread: a plain relative wait
    | NoWait                        // worker id out of range: return at once
    | GreenSleep(wakeAt: Timespec)  // the thread is parked until this absolute time

  /**
   * The blocking half of lwt_sleep(ms) by `cur` on worker `w`, `now` being
   * what the clock reads. Outside a green thread it only converts `ms` into
   * a relative wait; for a worker id outside [0, num_workers) it does
   * nothing. Otherwise it computes the wake time, marks the thread BLOCKED and
   * clears the worker's running slot. `s` stands for `cur->scheduler`; when
   * `cur` is null the C code has no scheduler at hand and `s` plays no part.
   */
  method SleepBlock(s: Scheduler, cur: Thread?, w: int, ms: uint32, now: Timespec) returns (wait: SleepWait)
    requires SchedValid(s)
    requires cur != null ==> cur.scheduler == s
    requires cur != null && 0 <= w < s.numWorkers ==> s.running[w] == cur && cur.state == Running
    modifies s.running, Ref(cur)`state, Ref(cur)`asleep
    ensures SchedValid(s) && StatesAdvance(s.threads)
    ensures s.readyQueue.contents == old(s.readyQueue.contents)
    ensures cur == null ==> wait == OsSleep(FromMillis(ms)) && unchanged(s.running)
    ensures cur != null && !(0 <= w < s.numWorkers) ==>
      wait == NoWait && unchanged(s.running) && cur.state == old(cur.state) && cur.asleep == old(cur.asleep)
    ensures cur != null && 0 <= w < s.numWorkers ==>
      && wait == GreenSleep(WakeTime(now, ms))
      && cur.state == Blocked && cur.asleep
      && s.running[w] == null
      && (forall i :: 0 <= i < MAX_WORKERS && i != w ==> s.running[i] == old(s.running[i]))
  {
    if cur == null {
      return OsSleep(FromMillis(ms));
    }
    if w < 0 || w >= s.numWorkers {
      return NoWait;
    }
    var wake := WakeTime(now, ms);
    cur.state := Blocked;
    cur.asleep := true;
    s.running[w] := null;
    assert QueuedReady(s);
    assert SlotsHeld(s);
    assert WaitersBlocked(s);
    wait := GreenSleep(wake);
  }

  /**
   * The waking half of lwt_sleep, once the wait has elapsed: the sleeping
   * thread becomes READY and is appended to its own scheduler's ready queue.
   */
  method SleepWake(s: Scheduler, t: Thread)
    requires SchedValid(s) && t in s.threads && t.scheduler == s && t.asleep
    modifies t`state, t`asleep, s.readyQueue, PushFrame(s.readyQueue, t)`next
    ensures SchedValid(s) && StatesAdvance(s.threads)
    ensures t.state == Ready && !t.asleep
    ensures s.readyQueue.contents == old(s.readyQueue.contents) + [t]
  {
    t.state := Ready;
    t.asleep := false;
    PushLocked(s.readyQueue, t);
    assert QueuedReady(s);
    assert SlotsHeld(s);
    assert WaitersBlocked(s);
  }

  /**
   * The end of lwt_thread_start: the finish step, then the final lwt_yield,
   * which does not queue the FINISHED thread again but frees its worker.
   */
  method ThreadExit(s: Scheduler, t: Thread, w: int)
    requires SchedValid(s) && t.scheduler == s
    requires 0 <= w < s.numWorkers && s.running[w] == t && t.state == Running
    modifies t`state, t`waiting, Ref(t.waiting)`state, s.running
    modifies s.readyQueue, PushFrame(s.readyQueue, t)`next, PushFrame(s.readyQueue, t.waiting)`next
    ensures SchedValid(s) && StatesAdvance(s.threads)
    ensures t.state == Finished && t.waiting == null && t !in s.readyQueue.contents
    ensures s.running[w] == null
    ensures s.readyQueue.contents == old(s.readyQueue.contents) + if old(t.waiting) == null then [] else [old(t.waiting)]
  {
    LwtThread.Finish(s, t);
    Yield(s, t, w);
  }
}
