/** The thread pool of src/runtime/concurrency.h: workers, submitters and stop, over all interleavings. */
module ThreadPools {
  // A region under queue_mutex is one atomic step, except that `stop` writes should_stop without the mutex. That
  // write is an event of its own, and the two regions it can fall into are split around it: submit tests the flag and
  // only then queues its task, and a worker evaluates its wait predicate and only then goes to sleep. In both gaps
  // the thread still holds the mutex, which the state records.

  import opened Counting

  type Task = nat    // the identity of a packaged_task object

  datatype Worker = Ready | Parking | Sleeping | Running(task: Task) | Exited

  /** Who holds queue_mutex between two steps. */
  datatype Mutex = Free | Submitting(task: Task) | ParkingWorker(i: nat)

  datatype State = State(
    queue: seq<Task>,
    shouldStop: bool,
    mutex: Mutex,
    workers: seq<Worker>,
    notifies: nat,           // submits that have released the mutex and not yet called notify_one
    created: set<Task>,
    accepted: seq<Task>,     // tasks ever queued, oldest first
    finished: seq<Task>)     // tasks whose call has returned

  datatype Event =
    | EnterSubmit(task: Task)    // lock, test the flag: throw, or go on holding the mutex
    | Push                       // queue it and unlock
    | NotifyOne(wake: nat)
    | StoreStop                  // not under the mutex
    | NotifyAll
    | Enter(i: nat)              // a worker locks and evaluates the wait predicate: take, exit or prepare to sleep
    | Park(i: nat)               // release the mutex and sleep
    | Spurious(i: nat)
    | Finish(i: nat)             // the call returns

  function Init(n: nat): State {
    State([], false, Free, seq(n, _ => Ready), 0, {}, [], [])
  }

  predicate Enabled(s: State, e: Event) {
    match e
    case EnterSubmit(task) => s.mutex == Free && task !in s.created
    case Push => s.mutex.Submitting?
    case NotifyOne(wake) =>
      s.notifies > 0 && ((exists i | 0 <= i < |s.workers| :: s.workers[i] == Sleeping) ==>
                           wake < |s.workers| && s.workers[wake] == Sleeping)
    case StoreStop => true
    case NotifyAll => s.shouldStop
    case Enter(i) => s.mutex == Free && i < |s.workers| && s.workers[i] == Ready
    case Park(i) => s.mutex == ParkingWorker(i) && i < |s.workers|
    case Spurious(i) => i < |s.workers| && s.workers[i] == Sleeping
    case Finish(i) => i < |s.workers| && s.workers[i].Running?
  }

  function Wake(w: Worker): Worker {
    if w == Sleeping then Ready else w
  }

  function Next(s: State, e: Event): State
    requires Enabled(s, e)
  {
    match e
    case EnterSubmit(task) =>
      var s0 := s.(created := s.created + {task});
      if s.shouldStop then s0 else s0.(mutex := Submitting(task))
    case Push =>
      s.(queue := s.queue + [s.mutex.task], accepted := s.accepted + [s.mutex.task], mutex := Free,
         notifies := s.notifies + 1)
    case NotifyOne(wake) =>
      var s0 := s.(notifies := s.notifies - 1);
      if wake < |s.workers| then s0.(workers := s.workers[wake := Wake(s.workers[wake])]) else s0
    case StoreStop => s.(shouldStop := true)
    case NotifyAll => s.(workers := seq(|s.workers|, i requires 0 <= i < |s.workers| => Wake(s.workers[i])))
    case Enter(i) =>
      if s.queue != [] then s.(workers := s.workers[i := Running(s.queue[0])], queue := s.queue[1..])
      else if s.shouldStop then s.(workers := s.workers[i := Exited])
      else s.(workers := s.workers[i := Parking], mutex := ParkingWorker(i))
    case Park(i) => s.(workers := s.workers[i := Sleeping], mutex := Free)
    case Spurious(i) => s.(workers := s.workers[i := Ready])
    case Finish(i) => s.(workers := s.workers[i := Ready], finished := s.finished + [s.workers[i].task])
  }

  predicate Legal(s: State, es: seq<Event>)
    decreases |es|
  {
    es == [] || (Enabled(s, es[0]) && Legal(Next(s, es[0]), es[1..]))
  }

  function Exec(s: State, es: seq<Event>): State
    requires Legal(s, es)
    decreases |es|
  {
    if es == [] then s else Exec(Next(s, es[0]), es[1..])
  }

  // Conservation

  /** How many workers are running task x. */
  function InFlight(ws: seq<Worker>, x: Task): nat {
    Count(ws, w => w == Running(x))
  }

  lemma {:induction false} InFlightUpdate(ws: seq<Worker>, i: nat, w: Worker, x: Task)
    requires i < |ws|
    ensures InFlight(ws[i := w], x) + (if ws[i] == Running(x) then 1 else 0)
            == InFlight(ws, x) + (if w == Running(x) then 1 else 0)
  {
    CountUpdate(ws, i, w, w => w == Running(x));
  }

  function Places(s: State, x: Task): nat {
    multiset(s.queue)[x] + InFlight(s.workers, x) + multiset(s.finished)[x]
  }

  ghost predicate Conserved(s: State) {
    forall x :: Places(s, x) == multiset(s.accepted)[x]
  }

  ghost predicate Fresh(s: State) {
    && (forall x | x in s.accepted :: x in s.created)
    && (forall i, j | 0 <= i < j < |s.accepted| :: s.accepted[i] != s.accepted[j])
    && (s.mutex.Submitting? ==> s.mutex.task in s.created && s.mutex.task !in s.accepted)
  }

  ghost predicate SomeExited(s: State) {
    Exited in s.workers
  }

  /** The mutex excludes, and after the first exit nothing is queued and nothing can be queued any more. */
  ghost predicate Locked(s: State) {
    && (forall i | 0 <= i < |s.workers| :: s.workers[i] == Parking <==> s.mutex == ParkingWorker(i))
    && (s.mutex.ParkingWorker? ==> s.mutex.i < |s.workers|)
    && (SomeExited(s) ==> s.shouldStop && s.queue == [] && !s.mutex.Submitting?)
  }

  predicate SomeSleeps(s: State) {
    exists i | 0 <= i < |s.workers| :: s.workers[i] == Sleeping
  }

  /** How many workers are on the way to the queue. */
  function Awake(s: State): nat {
    Count(s.workers, w => w == Ready)
  }

  /** While a worker sleeps, every queued task has a worker or a notification on its way. */
  ghost predicate Covered(s: State) {
    && (s.mutex.ParkingWorker? ==> s.queue == [])
    && (SomeSleeps(s) ==> Awake(s) + s.notifies >= |s.queue|)
  }

  ghost predicate Inv(s: State) {
    Conserved(s) && Fresh(s) && Locked(s) && Covered(s)
  }

  lemma {:induction false} StepConserves(s: State, e: Event, x: Task)
    requires Locked(s) && Enabled(s, e)
    requires Places(s, x) == multiset(s.accepted)[x]
    ensures Places(Next(s, e), x) == multiset(Next(s, e).accepted)[x]
  {
    hide Next, Enabled, InFlight, Submitted;
    QueueConserves(s, e, x);
    WorkersConserve(s, e, x);
    ListsConserve(s, e, x);
  }

  // Whether the step queues x, gives it to a worker, or gets it back

  predicate Submitted(s: State, e: Event, x: Task)
    requires Enabled(s, e)
  {
    e.Push? && s.mutex.task == x
  }

  predicate Taken(s: State, e: Event, x: Task) {
    e.Enter? && s.queue != [] && s.queue[0] == x
  }

  predicate Finished(s: State, e: Event, x: Task)
    requires Enabled(s, e)
  {
    e.Finish? && s.workers[e.i].task == x
  }

  lemma {:induction false} QueueConserves(s: State, e: Event, x: Task)
    requires Enabled(s, e)
    ensures multiset(Next(s, e).queue)[x] + (if Taken(s, e, x) then 1 else 0)
         == multiset(s.queue)[x] + (if Submitted(s, e, x) then 1 else 0)
  {
    hide SomeSleeps;
    if e.Enter? && s.queue != [] {
      assert s.queue == [s.queue[0]] + s.queue[1..];
    }
  }

  lemma {:induction false} ListsConserve(s: State, e: Event, x: Task)
    requires Enabled(s, e)
    ensures multiset(Next(s, e).finished)[x] == multiset(s.finished)[x] + (if Finished(s, e, x) then 1 else 0)
    ensures multiset(Next(s, e).accepted)[x] == multiset(s.accepted)[x] + (if Submitted(s, e, x) then 1 else 0)
  {
    hide SomeSleeps;
  }

  lemma {:induction false} WorkersConserve(s: State, e: Event, x: Task)
    requires Locked(s) && Enabled(s, e)
    ensures InFlight(Next(s, e).workers, x) + (if Finished(s, e, x) then 1 else 0)
         == InFlight(s.workers, x) + (if Taken(s, e, x) then 1 else 0)
  {
    hide SomeSleeps, Count;
    var s' := Next(s, e);
    match e
    case NotifyOne(wake) =>
      if wake < |s.workers| {
        InFlightUpdate(s.workers, wake, Wake(s.workers[wake]), x);
      }
    case NotifyAll =>
      CountMono(s.workers, w => w == Running(x), s'.workers, w => w == Running(x));
      CountMono(s'.workers, w => w == Running(x), s.workers, w => w == Running(x));
    case Enter(i) => InFlightUpdate(s.workers, i, s'.workers[i], x);
    case Park(i) => InFlightUpdate(s.workers, i, Sleeping, x);
    case Spurious(i) => InFlightUpdate(s.workers, i, Ready, x);
    case Finish(i) => InFlightUpdate(s.workers, i, Ready, x);
    case _ =>
      assert s'.workers == s.workers;
  }

  lemma {:induction false} StepKeepsFresh(s: State, e: Event)
    requires Fresh(s) && Enabled(s, e)
    ensures Fresh(Next(s, e))
  {
    if e.Push? {
      var a, a' := s.accepted, s.accepted + [s.mutex.task];
      forall i, j | 0 <= i < j < |a'| ensures a'[i] != a'[j] {
        assert a'[i] == a[i];
      }
    }
  }

  lemma {:induction false} StepKeepsLocked(s: State, e: Event)
    requires Locked(s) && Enabled(s, e)
    ensures Locked(Next(s, e))
    ensures SomeExited(s) ==> SomeExited(Next(s, e)) && Next(s, e).accepted == s.accepted
  {
    var s' := Next(s, e);
    forall j | 0 <= j < |s.workers| && s.workers[j] == Exited
      ensures s'.workers[j] == Exited
    {
    }
    if SomeExited(s') && !SomeExited(s) {
      var j :| 0 <= j < |s.workers| && s'.workers[j] == Exited;
      assert s.workers[j] != Exited;
      assert e == Enter(j);
    }
  }

  lemma {:induction false} StillSleeps(s: State, s': State)
    requires SomeSleeps(s')
    requires |s'.workers| == |s.workers|
    requires forall i | 0 <= i < |s.workers| :: s'.workers[i] == Sleeping ==> s.workers[i] == Sleeping
    ensures SomeSleeps(s)
  {
    var i :| 0 <= i < |s'.workers| && s'.workers[i] == Sleeping;
    assert s.workers[i] == Sleeping;
  }

  lemma {:induction false} StepKeepsCovered(s: State, e: Event)
    requires Covered(s) && Locked(s) && Enabled(s, e)
    ensures Covered(Next(s, e))
  {
    var s' := Next(s, e);
    var p := (w: Worker) => w == Ready;
    assert Awake(s) == Count(s.workers, p) && Awake(s') == Count(s'.workers, p);
    if e.Park? {
    } else if SomeSleeps(s') {
      StillSleeps(s, s');
      match e
      case NotifyOne(wake) =>
        if wake < |s.workers| {
          CountUpdate(s.workers, wake, Wake(s.workers[wake]), p);
        }
      case Enter(i) => CountUpdate(s.workers, i, s'.workers[i], p);
      case Spurious(i) => CountUpdate(s.workers, i, Ready, p);
      case Finish(i) => CountUpdate(s.workers, i, Ready, p);
      case _ =>
    }
  }

  lemma {:induction false} StepKeepsInv(s: State, e: Event)
    requires Inv(s) && Enabled(s, e)
    ensures Inv(Next(s, e))
  {
    StepKeepsCovered(s, e);
    forall x ensures Places(Next(s, e), x) == multiset(Next(s, e).accepted)[x] {
      StepConserves(s, e, x);
    }
    StepKeepsFresh(s, e);
    StepKeepsLocked(s, e);
  }

  lemma {:induction false} RunKeepsInv(s: State, es: seq<Event>)
    requires Inv(s) && Legal(s, es)
    ensures Inv(Exec(s, es)) && |Exec(s, es).workers| == |s.workers|
    decreases |es|
  {
    if es != [] {
      StepKeepsInv(s, es[0]);
      RunKeepsInv(Next(s, es[0]), es[1..]);
    }
  }

  lemma {:induction false} ReachableInv(n: nat, es: seq<Event>)
    requires Legal(Init(n), es)
    ensures Inv(Exec(Init(n), es)) && |Exec(Init(n), es).workers| == n
  {
    forall x ensures Places(Init(n), x) == 0 {
      CountZero(Init(n).workers, w => w == Running(x));
    }
    RunKeepsInv(Init(n), es);
  }

  /** In every run: while a worker sleeps, the workers on their way to the queue and the pending notifications cover the
      queued tasks; so a sleeping worker with neither means an empty queue. */
  lemma {:induction false} NoTaskForgotten(n: nat, es: seq<Event>)
    requires Legal(Init(n), es)
    ensures var s := Exec(Init(n), es);
            && (SomeSleeps(s) ==> Awake(s) + s.notifies >= |s.queue|)
            && (SomeSleeps(s) && s.notifies == 0 && (forall w | w in s.workers :: w != Ready) ==> s.queue == [])
  {
    ReachableInv(n, es);
    var s := Exec(Init(n), es);
    if forall w | w in s.workers :: w != Ready {
      forall i | 0 <= i < |s.workers| ensures s.workers[i] != Ready {
        assert s.workers[i] in s.workers;
      }
      CountZero(s.workers, w => w == Ready);
    }
  }

  /** In every run, each accepted task is in exactly one of queued, running and done, once; a task that was not
      accepted is in none. */
  lemma {:induction false} NothingLostNothingRepeated(n: nat, es: seq<Event>, x: Task)
    requires Legal(Init(n), es)
    ensures var s := Exec(Init(n), es);
            multiset(s.queue)[x] + InFlight(s.workers, x) + multiset(s.finished)[x]
              == if x in s.accepted then 1 else 0
  {
    ReachableInv(n, es);
    var s := Exec(Init(n), es);
    DistinctOccurrence(s.accepted, x);
    assert Places(s, x) == multiset(s.accepted)[x];
  }

  /** Once any worker has exited, no task is queued and no later step of any thread queues one. */
  lemma {:induction false} ExitIsFinal(n: nat, es: seq<Event>, more: seq<Event>)
    requires Legal(Init(n), es) && SomeExited(Exec(Init(n), es)) && Legal(Exec(Init(n), es), more)
    ensures var s := Exec(Init(n), es);
            var s' := Exec(s, more);
            s.queue == [] && s'.queue == [] && s'.accepted == s.accepted
  {
    ReachableInv(n, es);
    ExitedContinuation(Exec(Init(n), es), more);
  }

  lemma {:induction false} ExitedContinuation(s: State, es: seq<Event>)
    requires Inv(s) && SomeExited(s) && Legal(s, es)
    ensures Exec(s, es).queue == [] && Exec(s, es).accepted == s.accepted
    decreases |es|
  {
    if es != [] {
      StepKeepsInv(s, es[0]);
      StepKeepsLocked(s, es[0]);
      ExitedContinuation(Next(s, es[0]), es[1..]);
    }
  }

  /** With at least one worker: when all of them have exited, every accepted task has run exactly once, and nothing
      else has. */
  lemma {:induction false} AllExitedAllDone(n: nat, es: seq<Event>)
    requires n > 0 && Legal(Init(n), es)
    requires forall i | 0 <= i < |Exec(Init(n), es).workers| :: Exec(Init(n), es).workers[i] == Exited
    ensures var s := Exec(Init(n), es);
            multiset(s.finished) == multiset(s.accepted) && forall x | x in s.accepted :: multiset(s.finished)[x] == 1
  {
    ReachableInv(n, es);
    var s := Exec(Init(n), es);
    assert s.workers[0] == Exited;
    forall x
      ensures multiset(s.finished)[x] == multiset(s.accepted)[x] == if x in s.accepted then 1 else 0
    {
      CountZero(s.workers, w => w == Running(x));
      NothingLostNothingRepeated(n, es, x);
      assert Places(s, x) == multiset(s.accepted)[x];
    }
  }

  // Stopping

  /** The flag is stored outside the mutex, so stop need not return: a worker that has already found its predicate
      false can go to sleep after the notification, with nobody left to wake it. */
  lemma {:induction false} StopCanMissAWorker()
    ensures var es := [Enter(0), StoreStop, NotifyAll, Park(0)];
            && Legal(Init(1), es)
            && var s := Exec(Init(1), es); s.shouldStop && s.workers == [Sleeping] && s.notifies == 0
  {
  }

  ghost predicate OnlySleeper(s: State, m: Mutex) {
    && s.shouldStop
    && (forall i | 0 <= i < |s.workers| :: s.workers[i] == Sleeping ==> m == ParkingWorker(i))
    && (s.mutex.ParkingWorker? ==> s.mutex == m)
  }

  /** That worker is the only one at risk: after the notification of stop, whoever sleeps is the worker that was
      between its predicate and its sleep at that moment. If there was none, nobody ever sleeps again. */
  lemma {:induction false} StopMissesAtMostTheParkingWorker(n: nat, es: seq<Event>, more: seq<Event>, i: nat)
    requires Legal(Init(n), es) && Enabled(Exec(Init(n), es), NotifyAll)
    requires Legal(Next(Exec(Init(n), es), NotifyAll), more) && i < n
    ensures var s := Exec(Init(n), es);
            var s' := Exec(Next(s, NotifyAll), more);
            |s'.workers| == n && (s'.workers[i] == Sleeping ==> s.mutex == ParkingWorker(i))
  {
    ReachableInv(n, es);
    var s := Exec(Init(n), es);
    StepKeepsInv(s, NotifyAll);
    RunKeepsInv(Next(s, NotifyAll), more);
    OnlySleeperStays(Next(s, NotifyAll), more, s.mutex);
  }

  /** So a worker can be asleep after the notification of stop if and only if it was in that gap. */
  lemma {:induction false} MissedIffParking(n: nat, es: seq<Event>, i: nat)
    requires Legal(Init(n), es) && Enabled(Exec(Init(n), es), NotifyAll) && i < n
    ensures var s := Exec(Init(n), es);
            (exists more :: Legal(Next(s, NotifyAll), more) && SleepsIn(Exec(Next(s, NotifyAll), more), i))
              <==> s.mutex == ParkingWorker(i)
  {
    ReachableInv(n, es);
    var s := Exec(Init(n), es);
    var s' := Next(s, NotifyAll);
    hide Legal, Exec;
    forall more | Legal(s', more) && SleepsIn(Exec(s', more), i)
      ensures s.mutex == ParkingWorker(i)
    {
      StopMissesAtMostTheParkingWorker(n, es, more, i);
    }
    if s.mutex == ParkingWorker(i) {
      ParkingFallsAsleep(s', i);
      assert Legal(s', [Park(i)]) && SleepsIn(Exec(s', [Park(i)]), i);
    }
  }

  lemma {:induction false} ParkingFallsAsleep(s: State, i: nat)
    requires Enabled(s, Park(i))
    ensures Legal(s, [Park(i)]) && SleepsIn(Exec(s, [Park(i)]), i)
  {
    assert [Park(i)][1..] == [] && Legal(Next(s, Park(i)), []) && Exec(Next(s, Park(i)), []) == Next(s, Park(i));
  }

  predicate SleepsIn(s: State, i: nat) {
    i < |s.workers| && s.workers[i] == Sleeping
  }

  lemma {:induction false} OnlySleeperStays(s: State, es: seq<Event>, m: Mutex)
    requires Inv(s) && OnlySleeper(s, m) && Legal(s, es)
    ensures OnlySleeper(Exec(s, es), m)
    decreases |es|
  {
    if es != [] {
      StepKeepsInv(s, es[0]);
      assert OnlySleeper(Next(s, es[0]), m);
      OnlySleeperStays(Next(s, es[0]), es[1..], m);
    }
  }

  // The implementation

  /** Each method is one step of one thread. The workers' program counters and the pending notifications are fields,
      since they outlive a step. */
  class ThreadPool {
    var tasks: seq<Task>
    var shouldStop: bool
    var queueMutex: Mutex
    var workers: seq<Worker>
    var notifies: nat
    ghost var created: set<Task>
    ghost var accepted: seq<Task>
    ghost var finished: seq<Task>

    ghost function View(): State
      reads this
    {
      State(tasks, shouldStop, queueMutex, workers, notifies, created, accepted, finished)
    }

    constructor (threads: nat)
      ensures View() == Init(threads)
    {
      tasks, shouldStop, queueMutex := [], false, Free;
      workers := seq(threads, _ => Ready);
      notifies := 0;
      created, accepted, finished := {}, [], [];
    }

    method EnterSubmit(task: Task) returns (thrown: bool)
      requires Enabled(View(), Event.EnterSubmit(task))
      modifies this
      ensures View() == Next(old(View()), Event.EnterSubmit(task))
      ensures thrown == old(shouldStop)
    {
      created := created + {task};
      if shouldStop {
        return true;
      }
      queueMutex := Submitting(task);
      return false;
    }

    method Push()
      requires Enabled(View(), Event.Push)
      modifies this
      ensures View() == Next(old(View()), Event.Push)
    {
      tasks := tasks + [queueMutex.task];
      accepted := accepted + [queueMutex.task];
      queueMutex := Free;
      notifies := notifies + 1;
    }

    method StoreStop()
      modifies this
      ensures View() == Next(old(View()), Event.StoreStop)
    {
      shouldStop := true;
    }

    /** The region of the worker loop up to the point where the mutex is released or the worker is about to wait. */
    method Enter(i: nat)
      requires Enabled(View(), Event.Enter(i))
      modifies this
      ensures View() == Next(old(View()), Event.Enter(i))
    {
      if !(shouldStop || tasks != []) {
        queueMutex := ParkingWorker(i);
        workers := workers[i := Parking];
        return;
      }
      if shouldStop && tasks == [] {
        workers := workers[i := Exited];
        return;
      }
      workers := workers[i := Running(tasks[0])];
      tasks := tasks[1..];
    }

    method Park(i: nat)
      requires Enabled(View(), Event.Park(i))
      modifies this
      ensures View() == Next(old(View()), Event.Park(i))
    {
      workers := workers[i := Sleeping];
      queueMutex := Free;
    }

    method NotifyAll()
      requires Enabled(View(), Event.NotifyAll)
      modifies this
      ensures View() == Next(old(View()), Event.NotifyAll)
    {
      var i := 0;
      while i < |workers|
        invariant i <= |workers| == |old(workers)|
        invariant forall j | 0 <= j < i :: workers[j] == Wake(old(workers)[j])
        invariant forall j | i <= j < |workers| :: workers[j] == old(workers)[j]
        invariant View() == old(View()).(workers := workers)
      {
        workers := workers[i := Wake(workers[i])];
        i := i + 1;
      }
    }

    method NotifyOne() returns (ghost wake: nat)
      requires notifies > 0
      modifies this
      ensures Enabled(old(View()), Event.NotifyOne(wake))
      ensures View() == Next(old(View()), Event.NotifyOne(wake))
    {
      notifies := notifies - 1;
      wake := |workers|;
      if i: nat :| i < |workers| && workers[i] == Sleeping {
        workers := workers[i := Ready];
        wake := i;
      }
    }

    method Finish(i: nat)
      requires Enabled(View(), Event.Finish(i))
      modifies this
      ensures View() == Next(old(View()), Event.Finish(i))
    {
      finished := finished + [workers[i].task];
      workers := workers[i := Ready];
    }
  }
}
