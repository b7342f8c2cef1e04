# lwthread bookkeeping, modelled in Dafny

lwthread is a C library of green threads: many lightweight threads run on a
fixed pool of worker OS threads. This project models its bookkeeping:

- the intrusive FIFO ready queue;
- the thread records and their state machine (NEW, READY, RUNNING, BLOCKED,
  FINISHED);
- the scheduler's worker slots, running flag and thread-id counter;
- the step each API call takes under the scheduler's lock.

The C structs become classes with the same fields (`types.dfy`), which point
at each other as the structs do. Each C file's functions become methods of one
module:

| file | module |
|---|---|
| src/queue.c | `LwtQueue` (`queue.dfy`) |
| src/scheduler.c | `LwtScheduler` (`scheduler.dfy`) |
| src/thread.c | `LwtThread` (`thread.dfy`) |
| src/lwthread.c | `Lwthread` (`lwthread.dfy`) |
| the timespec arithmetic of `lwt_sleep` | `Timespec` (`timespec.dfy`) |

Pointers are modelled as follows:

- A struct pointer is a nullable reference.
- A function pointer, a `void*` argument or a heap block is an `Addr`, where 0 is NULL.
- The stack `malloc` is the address it returns, given as an input. The two record mallocs (scheduler and thread) are a boolean `allocOk` input that says whether they succeed.
- A `free` is the address it releases, returned as an output.

The ready queue keeps its real `head`, `tail`, `count` and `next` links. A
ghost sequence `contents` lists the queued threads, and `QueueValid` ties that
sequence to the links.

The scheduler keeps a ghost set `threads` of the records added to it. Every
critical section preserves `SchedValid`:

- the queue is well formed;
- every queued thread belongs to the scheduler and is READY;
- a worker's running slot holds a RUNNING (or just-FINISHED) thread, and no
  thread sits in two slots;
- a recorded join waiter is BLOCKED and waits on that target alone;
- a sleeping thread is BLOCKED.

Every step also moves each thread only along the state machine
(`StatesAdvance`). Creating a thread keeps the ids distinct and increasing
(`UniqueIds`).

The thread-local variables `current_thread` and `current_worker_id` are the
`WorkerLocal` class. The API calls take the calling green thread and the
worker id as parameters. Facts about the calling context are preconditions,
for example that the calling thread is the one in its worker's running slot.
The C code never checks these facts.

`lwt_join` overwrites an earlier waiter, so the first joiner is never woken;
`Lwthread.Join` does the same.

## Model

| member | source | states |
|---|---|---|
| LwtTypes.Scheduler.constructor | src/scheduler.h:28-39 | the per-worker arrays of a scheduler record have LWT_MAX_WORKERS (64) entries |
| LwtTypes.WorkerLocal.constructor | src/scheduler.c:14 | an OS thread starts with worker id -1 and, as src/thread.c:16 initialises it, no current green thread |
| LwtTypes.WorkerLocal.Self | src/thread.c:99-101 | lwt_thread_self returns the OS thread's current green thread |
| LwtTypes.WorkerLocal.SetCurrent | src/thread.c:103-105 | after set_current, the current thread is the one given |
| LwtTypes.WorkerLocal.GetWorkerId | src/scheduler.c:120-122 | get_worker_id returns the stored id (-1 until one is set) |
| LwtTypes.WorkerLocal.SetWorkerId | src/scheduler.c:124-126 | after set_worker_id, get_worker_id returns the id set |
| LwtQueue.FollowAt | src/queue.c:49-84 | in a well-formed queue, following k `next` links from the i-th queued thread reaches the (i+k)-th, or NULL just past the tail |
| LwtQueue.ChainFromHead | src/queue.c:49-84 | `count` is the length of the chain from `head`: its first `count` links are the queued threads in order, and the next is NULL |
| LwtQueue.EmptyIff | src/queue.c:72-80 | in a well-formed queue, `head` is NULL iff `tail` is NULL iff `count` is 0 iff the queue is empty |
| LwtQueue.Init | src/queue.c:12-26 | init leaves the queue empty (head and tail NULL, count 0) and well formed; -1 on a NULL queue or when the mutex cannot be created |
| LwtQueue.Destroy | src/queue.c:28-36 | destroy resets a queue to empty; a NULL queue is ignored |
| LwtQueue.PushLocked | src/queue.c:49-58 | push_locked appends the thread after the earlier ones in order, makes it the tail with a NULL `next`, adds one to `count`, and keeps the queue well formed |
| LwtQueue.Push | src/queue.c:38-47 | push on a NULL queue or thread returns -1 and changes nothing; otherwise it returns 0 with the effect of push_locked |
| LwtQueue.PopLocked | src/queue.c:71-84 | pop_locked on an empty queue returns NULL and changes nothing; otherwise it returns the old head with `next` cleared, leaves the rest in order, lowers `count` by one, clears `tail` when the last thread leaves, and keeps the queue well formed |
| LwtQueue.Pop | src/queue.c:60-69 | pop on a NULL queue returns NULL; otherwise it has the effect of pop_locked |
| LwtQueue.Empty | src/queue.c:86-95 | empty returns 1 for a NULL or empty queue and 0 otherwise, which is the test `head == NULL` |
| LwtQueue.Size | src/queue.c:97-106 | size returns 0 for a NULL queue and otherwise the number of queued threads |
| LwtQueue.FifoOrder | src/queue.c:49-84 | pushing a then b onto an empty queue and popping twice yields a then b, and leaves the queue empty |
| LwtScheduler.IdsBelowAdd | src/thread.c:82-84 | giving a new thread the counter's value as its id and advancing the counter keeps ids distinct and below the counter; the new id exceeds every earlier one |
| LwtScheduler.WaiterOfOne | src/lwthread.c:179-180 | under the scheduler invariant, a thread is recorded as the join waiter of at most one target |
| LwtScheduler.Init | src/scheduler.c:55-85 | init fails with EINVAL on a NULL scheduler or a worker count outside [1, 64]; otherwise it zeroes the record, stores the count with the flag 0 and the id counter 1, and empties the queue; it returns -1 when the queue mutex, the mutex or the condition variable cannot be created; on success the workers are numbered 0..n-1, the remaining worker-id entries stay 0, and the scheduler invariant holds |
| LwtScheduler.Cleanup | src/scheduler.c:87-98 | cleanup empties the ready queue and keeps the scheduler invariant; NULL is ignored |
| LwtScheduler.AddThread | src/scheduler.c:100-118 | add_thread fails with EINVAL on a NULL argument and changes nothing; otherwise the thread becomes READY, becomes the new tail of the ready queue and joins the scheduler, and the invariant is kept |
| LwtScheduler.WorkerStep | src/scheduler.c:31-50 | a dispatch pass exits when the flag is clear, even with threads queued; waits when the queue is empty; otherwise it pops the head, marks it RUNNING, stores it in the worker's slot and as the current thread, and leaves the rest of the queue in order and the other slots untouched; every case keeps the invariant and follows the state machine |
| LwtThread.Init | src/thread.c:38-86 | thread init fails with EINVAL on a NULL thread, function or scheduler; otherwise it zeroes the record and stores the function, argument, scheduler, state NEW and the stack size (0 means 64 KiB); it fails without an id when the stack cannot be allocated, and when the context cannot be captured, in which case the stack is released and reset to NULL; on success it takes the counter's value as its id and advances the counter |
| LwtThread.Cleanup | src/thread.c:88-97 | cleanup releases the stack still held and sets the pointer to NULL; NULL is ignored |
| LwtThread.CleanupTwice | src/thread.c:88-97 | a second cleanup releases nothing |
| LwtThread.Finish | src/thread.c:25-33 | the finish step makes the thread FINISHED; a recorded waiter becomes READY and is appended to the ready queue exactly once; `waiting` is cleared; the invariant is kept |
| Timespec.FromMillis | src/lwthread.c:202-204 | outside a green thread, the sleep duration is normalised and equals ms milliseconds, and its nanosecond product fits in unsigned int |
| Timespec.WakeTime | src/lwthread.c:219-226 | the wake time is exactly ms milliseconds after the start; from a start with nsec in [0, 10^9), the wake time has nsec in [0, 10^9), the intermediate sum stays below 2^31, and the seconds rise by ms/1000 or one more |
| Lwthread.SchedulerCreate | src/lwthread.c:18-36 | create rejects worker counts outside [1, 64] with EINVAL and no handle; a failed allocation or init gives no handle; otherwise it returns a fresh, stopped, valid scheduler with an empty queue, the id counter at 1 and the workers numbered |
| Lwthread.SchedulerStart | src/lwthread.c:50-57 | start leaves a NULL or running scheduler alone, and otherwise sets the flag to 1 |
| Lwthread.SchedulerStop | src/lwthread.c:66-75 | stop leaves a NULL or stopped scheduler alone, and otherwise clears the flag |
| Lwthread.SchedulerDestroy | src/lwthread.c:39-47 | destroy stops the scheduler and empties its queue, keeping the invariant; NULL is ignored |
| Lwthread.Create | src/lwthread.c:84-110 | lwt_create rejects a NULL scheduler or function with EINVAL; on success it returns a fresh READY thread with the default stack and the next id, appended to the ready queue; on any failure the scheduler is unchanged; ids stay unique and the invariant is kept |
| Lwthread.InitAndAdd | src/lwthread.c:96-107 | thread init, then add_thread: it succeeds exactly when the stack can be allocated and the context captured, and then queues the thread as in Create |
| Lwthread.Yield | src/lwthread.c:113-147 | yield does nothing outside a green thread or for a worker id outside [0, num_workers); otherwise a thread that has not FINISHED becomes READY and the new tail of the queue, a FINISHED one is not queued, and the worker's slot is cleared in both cases |
| Lwthread.Join | src/lwthread.c:150-189 | join does nothing for a NULL target, outside a green thread, for an out-of-range worker, or when the target has FINISHED; otherwise the caller becomes BLOCKED, is recorded as the target's waiter (replacing any earlier one, and whichever scheduler the target was created on) and leaves its slot; the queue is untouched |
| Lwthread.Current | src/lwthread.c:192-194 | lwt_current returns the OS thread's current green thread |
| Lwthread.SleepBlock | src/lwthread.c:197-234 | sleep outside a green thread waits FromMillis(ms); for an out-of-range worker it does nothing; otherwise it computes WakeTime(now, ms), marks the thread BLOCKED and asleep, and clears its slot |
| Lwthread.SleepWake | src/lwthread.c:243-245 | after the wait, the sleeping thread becomes READY and the new tail of the queue |
| Lwthread.ThreadExit | src/thread.c:25-35 | the finish step and then the final yield leave the thread FINISHED and not queued, free its worker slot, and queue just its waiter, if any |

## Left out

- Context switching (`getcontext`, `makecontext`, `swapcontext`) is not modelled. Suspending at the end of yield, join and sleep ends the step. Handing control to a picked thread is the `Resume` action of `LwtScheduler.WorkerStep`.
- Running the user's entry function is not modelled, and neither is the trampoline's guard for a missing current thread (src/thread.c:19-24). `Lwthread.ThreadExit` starts once the function has returned.
- Mutexes, condition variables, signalling, and `pthread_create`/`pthread_join` in start and stop are not modelled. Each method is one critical section. Waiting on the condition variable is the `Wait` action.
- The worker's poll for a scheduler (src/scheduler.c:19-30) is not modelled. As written, that loop never receives a scheduler. `LwtScheduler.WorkerStep` is given the scheduler.
- The race between add_thread taking only the queue mutex and the other operations taking the scheduler mutex is not modelled, because it concerns concurrency only.
- The `else` branch after a worker's pop (src/scheduler.c:48-49) cannot be taken once the queue is known non-empty, so it is not modelled.
- The cleanup after a failed add in lwt_create (src/lwthread.c:103-107) cannot be taken, because both pointers are non-null there, so it is not modelled.
- The clock and OS sleeps are not modelled. `now` is a parameter of `Lwthread.SleepBlock`, and the wait itself is the gap between `SleepBlock` and `SleepWake`.
- How long the OS wait at src/lwthread.c:240 lasts is not modelled. That call passes the absolute wake time where a relative duration is expected; the model returns the wake time it computes.
- Redefining `CLOCK_REALTIME` (src/lwthread.c:15) is not modelled, because it only affects the clock that is read.
- Freeing the thread and scheduler records themselves is not modelled; only the release of the stack is.
- `errno` is modelled as an `einval` result only for the entry points whose callers can tell EINVAL apart from other failures (scheduler init and create, add_thread, thread init, lwt_create). The queue functions set EINVAL on a NULL queue, and push also on a NULL thread; the model gives only their return values.
- The OS worker handles, the workers' saved contexts and the machine context stored in each thread record are not modelled.
- `int` and `size_t` fields (`count`, `num_workers`, `next_thread_id`, `id`, `stack_size`) are unbounded integers. Wrap-around of the id counter after 2^31 threads is not modelled.
- `time_t` and `long` in `struct timespec` are unbounded integers. `Timespec.WakeTime` bounds the one intermediate sum that a 32-bit `long` would need.
- LwtThread.Finish: a waiter that runs on another scheduler is not modelled. `Lwthread.Join` accepts a target created on another scheduler, as lwt_join does (src/lwthread.c:173-180). After such a join the target's scheduler no longer satisfies `SchedValid`, because its recorded waiter is not among its own threads. Its later steps, including the finish step for that target (src/thread.c:28-31), which queues the foreign waiter on that scheduler, are then not covered by any contract.
- Lwthread.Create: on failure it states only that the scheduler is unchanged, not what the private, discarded record holds.
- examples/simple_threads.c (a demo driver) and include/lwthread/version.h (constants) are not modelled.
