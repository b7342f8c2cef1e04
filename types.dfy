/**
 * The runtime's records: the thread record, the intrusive ready queue, the
 * scheduler and the per-OS-thread locals (src/thread.h, src/queue.h,
 * src/scheduler.h), and the accessors of the two thread-local variables
 * (src/thread.c, src/scheduler.c). The C structs point at each other (a thread
 * points back at its scheduler, the scheduler embeds the queue of threads), so
 * they share one module; the functions of each C file live in the module named
 * after that file.
 */
module LwtTypes {

  /** Maximum number of worker OS threads (LWT_MAX_WORKERS). */
  const MAX_WORKERS: int := 64

  /** A raw machine address: a function pointer, a `void*` or a heap block. */
  type Addr = nat

  /** The null address. */
  const NULL: Addr := 0

  /** lwt_state_t, in declaration order. */
  datatype State = New | Ready | Running | Blocked | Finished

  /**
   * struct lwt_thread. The saved machine context is not modelled. A thread
   * allocated with `new Thread` has arbitrary field values, as malloc'd memory.
   */
  class Thread {
    var stack: Addr
    var stackSize: nat
    var state: State
    var func: Addr
    var arg: Addr
    /** Queue link, meaningful only while the thread is queued. */
    var next: Thread?
    /** The one thread blocked in join on this one, if any. */
    var waiting: Thread?
    var scheduler: Scheduler?
    var id: int
    /** True between the blocking half and the waking half of a sleep. */
    ghost var asleep: bool
    /** The thread this one last blocked in join on. */
    ghost var joining: Thread?

    /** The storage of a freshly allocated record, its fields not yet set. */
    constructor ()
    {
    }
  }

  /**
   * lwt_thread_queue_t: `head`, `tail` and `count` with the chain threaded
   * through the threads' `next` links. The mutex is not modelled.
   */
  class ReadyQueue {
    var head: Thread?
    var tail: Thread?
    var count: int
    /** The queued threads, head first. */
    ghost var contents: seq<Thread>
  }

  /**
   * struct lwt_scheduler. The OS worker handles, the workers' resumption
   * contexts, the mutex and the condition variable are not modelled.
   */
  class Scheduler {
    const readyQueue: ReadyQueue
    const workerIds: array<int>
    const running: array<Thread?>
    var numWorkers: int
    var runningFlag: int
    var nextThreadId: int
    /** The threads handed to this scheduler by add_thread. */
    ghost var threads: set<Thread>

    /** The storage of a freshly allocated (not yet initialised) scheduler. */
    constructor ()
      ensures fresh(readyQueue) && fresh(workerIds) && fresh(running)
      ensures workerIds.Length == MAX_WORKERS && running.Length == MAX_WORKERS
    {
      readyQueue := new ReadyQueue;
      workerIds := new int[MAX_WORKERS];
      running := new Thread?[MAX_WORKERS];
    }
  }

  /**
   * The thread-local variables of one OS thread: `current_thread`
   * (src/thread.c) and `current_worker_id` (src/scheduler.c).
   */
  class WorkerLocal {
    var currentThread: Thread?
    var workerId: int

    /** The static initialisers: no current thread, worker id -1. */
    constructor ()
      ensures currentThread == null && workerId == -1
    {
      currentThread := null;
      workerId := -1;
    }

    /** lwt_thread_self: the thread this OS thread is executing, if any. */
    method Self() returns (t: Thread?)
      ensures t == currentThread
    {
      t := currentThread;
    }

    /** lwt_thread_set_current. */
    method SetCurrent(t: Thread?)
      modifies this`currentThread
      ensures currentThread == t
    {
      currentThread := t;
    }

    /** lwt_scheduler_get_worker_id: -1 until an id is set, then the id set. */
    method GetWorkerId() returns (id: int)
      ensures id == workerId
    {
      id := workerId;
    }

    /** lwt_scheduler_set_worker_id. */
    method SetWorkerId(id: int)
      modifies this`workerId
      ensures workerId == id
    {
      workerId := id;
    }
  }
}
