/**
 * The thread record operations of src/thread.c: initialisation, the finish
 * step of the trampoline, and cleanup. The machine context (getcontext,
 * makecontext) is not modelled; whether capturing it succeeds is an input.
 * A call to malloc is modelled by the address it returns (NULL when it
 * fails), a call to free by the address it releases.
 */
module LwtThread {
  import opened LwtTypes
  import opened LwtQueue
  import opened LwtScheduler

  /** LWT_DEFAULT_STACK_SIZE: 64 KiB. */
  const DEFAULT_STACK_SIZE: nat := 64 * 1024

  /**
   * lwt_thread_init: -1 with EINVAL for a null thread, entry function or
   * scheduler. Otherwise the record is zeroed and given its entry function,
   * argument, scheduler, state NEW and stack size (0 meaning the default);
   * `block` is what malloc returns for the stack. If the stack cannot be
   * allocated, or the context cannot be captured (the stack is then freed and
   * its pointer reset), the result is -1; otherwise the thread takes the
   * scheduler's next id and the counter rises by one.
   */
  method Init(t: Thread?, func: Addr, arg: Addr, s: Scheduler?, stackSize: nat, block: Addr, contextOk: bool)
    returns (r: int, einval: bool, released: Addr)
    modifies Ref(t), SchedRef(s)`nextThreadId
    ensures einval <==> t == null || func == NULL || s == null
    ensures einval ==> r == -1 && released == NULL
    ensures einval && t != null ==> unchanged(t)
    ensures einval && s != null ==> s.nextThreadId == old(s.nextThreadId)
    ensures !einval ==>
      && t.func == func && t.arg == arg && t.scheduler == s && t.state == New
      && t.next == null && t.waiting == null && !t.asleep
      && t.stackSize == (if stackSize == 0 then DEFAULT_STACK_SIZE else stackSize)
    ensures !einval && (block == NULL || !contextOk) ==>
      && r == -1 && t.stack == NULL && t.id == 0
      && s.nextThreadId == old(s.nextThreadId)
    ensures !einval && block == NULL ==> released == NULL
    ensures !einval && block != NULL && !contextOk ==> released == block
    ensures !einval && block != NULL && contextOk ==>
      && r == 0 && t.stack == block && released == NULL
      && t.id == old(s.nextThreadId) && s.nextThreadId == old(s.nextThreadId) + 1
  {
    if t == null || func == NULL || s == null {
      return -1, true, NULL;
    }
    einval, released := false, NULL;
    var size := stackSize;
    if size == 0 {
      size := DEFAULT_STACK_SIZE;
    }
    // zero the whole record
    t.stack, t.stackSize, t.state, t.next, t.waiting, t.id := NULL, 0, New, null, null, 0;
    t.asleep := false;
    t.func, t.arg, t.scheduler, t.state, t.stackSize := func, arg, s, New, size;
    t.stack := block;
    if t.stack == NULL {
      return -1, false, NULL;
    }
    if !contextOk {
      released := t.stack;
      t.stack := NULL;
      return -1, false, released;
    }
    t.id := s.nextThreadId;
    s.nextThreadId := s.nextThreadId + 1;
    r := 0;
  }

  /**
   * lwt_thread_cleanup: a null thread is ignored; otherwise a stack still
   * held is released and its pointer set to NULL, so that a second cleanup
   * releases nothing.
   */
  method Cleanup(t: Thread?) returns (released: Addr)
    modifies Ref(t)`stack
    ensures released == if t == null then NULL else old(t.stack)
    ensures t != null ==> t.stack == NULL
  {
    released := NULL;
    if t == null {
      return;
    }
    if t.stack != NULL {
      released := t.stack;
      t.stack := NULL;
    }
  }

  /** Cleaning a thread up twice releases its stack once: the second call releases nothing. */
  method CleanupTwice(t: Thread) returns (first: Addr, second: Addr)
    modifies t`stack
    ensures first == old(t.stack) && second == NULL && t.stack == NULL
  {
    first := Cleanup(t);
    second := Cleanup(t);
  }

  /**
   * The finish step of lwt_thread_start, run once the entry function of the
   * running thread `t` has returned: `t` becomes FINISHED; a recorded waiter
   * becomes READY and is appended to the ready queue, once; `waiting` is
   * cleared so the waiter cannot be woken again.
   */
  method Finish(s: Scheduler, t: Thread)
    requires SchedValid(s) && t in s.threads && t.state == Running && t.scheduler == s
    modifies t`state, t`waiting, Ref(t.waiting)`state
    modifies s.readyQueue, PushFrame(s.readyQueue, t.waiting)`next
    ensures SchedValid(s) && StatesAdvance(s.threads)
    ensures t.state == Finished && t.waiting == null
    ensures old(t.waiting) == null ==> unchanged(s.readyQueue)
    ensures old(t.waiting) != null ==>
      && old(t.waiting).state == Ready
      && s.readyQueue.contents == old(s.readyQueue.contents) + [old(t.waiting)]
  {
    var waiter := t.waiting;
    if waiter != null {
      assert waiter.joining == t && waiter != t && waiter !in s.readyQueue.contents;
      assert forall u :: u in s.threads && u.waiting == waiter ==> u == t;
    }
    t.state := Finished;
    if waiter != null {
      waiter.state := Ready;
      PushLocked(s.readyQueue, waiter);
      t.waiting := null;
      assert QueuedReady(s);
      assert SlotsHeld(s);
      assert WaitersBlocked(s);
    }
  }
}
