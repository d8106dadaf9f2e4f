/** The task scheduler of src/runtime/async_system.h. */
module AsyncSchedulers {
  // Here the stop flag is written under the mutex, submit never tests it, and both submit and stopWorkers notify
  // after releasing the mutex, so a pending notification is part of the state. The callers of waitForAll sleep on the
  // workers' condition variable. Every region under queueMutex is one step.

  import opened Counting

  type Task = nat    // the identity of a task closure

  /** Woken workers have been notified (or woke by themselves) and have not yet re-entered the region. */
  datatype Worker = Ready | Sleeping | Woken | Running(task: Task) | Exited

  datatype State = State(
    queue: seq<Task>,
    stop: bool,
    notifiedAll: bool,      // stopWorkers has issued its notify_all
    workers: seq<Worker>,
    notifies: nat,          // submits that have queued their task and not yet called notify_one
    waiting: nat,           // callers asleep in waitForAll
    recalled: nat,          // callers of waitForAll that were woken and have not yet re-entered the region
    absorbed: nat,          // notifications of submit that woke such a caller
    accepted: seq<Task>,    // tasks ever queued, oldest first
    beforeStop: nat,        // how many of them were queued before the flag was set
    finished: seq<Task>)

  datatype Event =
    | Push(task: Task)
    | NotifyOne(wake: nat)
    | NotifyCaller            // the notification of a submit goes to a caller of waitForAll
    | SetStop
    | NotifyAll
    | Enter(i: nat)
    | Spurious(i: nat)
    | Finish(i: nat)
    | WaitForAll
    | Recall                  // a caller of waitForAll wakes by itself
    | Resume                  // and one that was woken tests the queue again

  function Init(n: nat): State {
    State([], false, false, seq(n, _ => Ready), 0, 0, 0, 0, [], 0, [])
  }

  predicate SomeSleeps(s: State) {
    exists i | 0 <= i < |s.workers| :: s.workers[i] == Sleeping
  }

  predicate Enabled(s: State, e: Event) {
    match e
    case Push(task) => task !in s.accepted
    case NotifyOne(wake) =>
      s.notifies > 0
      && if SomeSleeps(s) then wake < |s.workers| && s.workers[wake] == Sleeping else s.waiting == 0
    case NotifyCaller => s.notifies > 0 && s.waiting > 0
    case SetStop => true
    case NotifyAll => s.stop
    case Enter(i) => i < |s.workers| && s.workers[i] in {Ready, Woken}
    case Spurious(i) => i < |s.workers| && s.workers[i] == Sleeping
    case Finish(i) => i < |s.workers| && s.workers[i].Running?
    case WaitForAll => true
    case Recall => s.waiting > 0
    case Resume => s.recalled > 0
  }

  function Wake(w: Worker): Worker {
    if w == Sleeping then Woken else w
  }

  function Next(s: State, e: Event): State
    requires Enabled(s, e)
  {
    match e
    case Push(task) => s.(queue := s.queue + [task], accepted := s.accepted + [task], notifies := s.notifies + 1)
    case NotifyOne(wake) =>
      var s0 := s.(notifies := s.notifies - 1);
      if wake < |s.workers| then s0.(workers := s.workers[wake := Wake(s.workers[wake])]) else s0
    case NotifyCaller =>
      s.(notifies := s.notifies - 1, waiting := s.waiting - 1, recalled := s.recalled + 1, absorbed := s.absorbed + 1)
    case SetStop => if s.stop then s else s.(stop := true, beforeStop := |s.accepted|)
    case NotifyAll =>
      s.(notifiedAll := true, workers := seq(|s.workers|, i requires 0 <= i < |s.workers| => Wake(s.workers[i])),
         waiting := 0, recalled := s.recalled + s.waiting)
    case Enter(i) =>
      if s.queue != [] then s.(workers := s.workers[i := Running(s.queue[0])], queue := s.queue[1..])
      else if s.stop then s.(workers := s.workers[i := Exited])
      else s.(workers := s.workers[i := Sleeping])
    case Spurious(i) => s.(workers := s.workers[i := Woken])
    case Finish(i) => s.(workers := s.workers[i := Ready], finished := s.finished + [s.workers[i].task])
    case WaitForAll => if s.queue == [] then s else s.(waiting := s.waiting + 1)
    case Recall => s.(waiting := s.waiting - 1, recalled := s.recalled + 1)
    case Resume =>
      var s0 := s.(recalled := s.recalled - 1);
      if s.queue == [] then s0 else s0.(waiting := s.waiting + 1)
  }

  predicate Legal(s: State, es: seq<Event>)
    decreases |es|
  {
    es == [] || (Enabled(s, es[0]) && Legal(Next(s, es[0]), es[1..]))
  }

  function Exec(s: State, es: seq<Event>): State
    requires Legal(s, es)
    decreases |es|
  {
    if es == [] then s else Exec(Next(s, es[0]), es[1..])
  }

  // Invariants

  function Signalled(s: State): nat {
    Count(s.workers, w => w == Woken)
  }

  function InFlight(s: State, x: Task): nat {
    Count(s.workers, w => w == Running(x))
  }

  function Places(s: State, x: Task): nat {
    multiset(s.queue)[x] + InFlight(s, x) + multiset(s.finished)[x]
  }

  /** While a worker sleeps, every queued task has a wake-up on its way, or lost it to a caller of waitForAll. */
  ghost predicate Covered(s: State) {
    SomeSleeps(s) ==> Signalled(s) + s.notifies + s.absorbed >= |s.queue|
  }

  ghost predicate Fifo(s: State) {
    Last(s.queue, s.accepted) && Distinct(s.accepted)
  }

  ghost predicate Last(queue: seq<Task>, accepted: seq<Task>) {
    |queue| <= |accepted| && queue == accepted[|accepted| - |queue|..]
  }

  ghost predicate Distinct(xs: seq<Task>) {
    forall i, j | 0 <= i < j < |xs| :: xs[i] != xs[j]
  }

  ghost predicate Stopping(s: State) {
    && (s.stop ==> s.beforeStop <= |s.accepted|)
    && (s.notifiedAll ==> s.stop && !SomeSleeps(s))
    && (Exited in s.workers ==> s.stop && s.beforeStop + |s.queue| <= |s.accepted|)
  }

  ghost predicate Conserved(s: State) {
    forall x :: Places(s, x) == multiset(s.accepted)[x]
  }

  ghost predicate Inv(s: State) {
    Covered(s) && Fifo(s) && Stopping(s) && Conserved(s)
  }

  lemma {:induction false} StepKeepsCovered(s: State, e: Event)
    requires Covered(s) && Enabled(s, e)
    ensures Covered(Next(s, e))
  {
    var s' := Next(s, e);
    var p := (w: Worker) => w == Woken;
    assert Signalled(s) == Count(s.workers, p) && Signalled(s') == Count(s'.workers, p);
    match e
    case Push(task) =>
      assert SomeSleeps(s') ==> SomeSleeps(s);
    case NotifyOne(wake) =>
      if wake < |s.workers| {
        CountUpdate(s.workers, wake, Wake(s.workers[wake]), p);
      }
      if i :| 0 <= i < |s'.workers| && s'.workers[i] == Sleeping {
        assert s.workers[i] == Sleeping;
      }
    case SetStop =>
      assert SomeSleeps(s') ==> SomeSleeps(s);
    case NotifyAll =>
    case Enter(i) =>
      CountUpdate(s.workers, i, s'.workers[i], p);
      if s.queue != [] && SomeSleeps(s') {
        var j :| 0 <= j < |s'.workers| && s'.workers[j] == Sleeping;
        assert s.workers[j] == Sleeping;
      }
    case Spurious(i) =>
      CountUpdate(s.workers, i, Woken, p);
    case Finish(i) =>
      CountUpdate(s.workers, i, Ready, p);
      if j :| 0 <= j < |s'.workers| && s'.workers[j] == Sleeping {
        assert s.workers[j] == Sleeping;
      }
    case _ =>
      assert s'.workers == s.workers && SomeSleeps(s') == SomeSleeps(s);
  }

  lemma {:induction false} StepKeepsFifo(s: State, e: Event)
    requires Fifo(s) && Enabled(s, e)
    ensures Fifo(Next(s, e))
  {
    hide SomeSleeps, Distinct, Last;
    match e
    case Push(task) =>
      StillLast(s.queue, s.accepted, task);
      StillDistinct(s.accepted, task);
    case Enter(i) =>
      TakenLast(s.queue, s.accepted);
    case _ =>
      assert Next(s, e).queue == s.queue && Next(s, e).accepted == s.accepted;
  }

  lemma {:induction false} StillLast(queue: seq<Task>, accepted: seq<Task>, x: Task)
    requires Last(queue, accepted)
    ensures Last(queue + [x], accepted + [x])
  {
  }

  lemma {:induction false} TakenLast(queue: seq<Task>, accepted: seq<Task>)
    requires Last(queue, accepted)
    ensures queue != [] ==> Last(queue[1..], accepted)
  {
  }

  lemma {:induction false} StillDistinct(xs: seq<Task>, x: Task)
    requires Distinct(xs) && x !in xs
    ensures Distinct(xs + [x])
  {
    var more := xs + [x];
    forall i, j | 0 <= i < j < |more| ensures more[i] != more[j] {
      assert more[i] == xs[i];
    }
  }

  lemma {:induction false} StepKeepsStopping(s: State, e: Event)
    requires Stopping(s) && Fifo(s) && Enabled(s, e)
    ensures Stopping(Next(s, e))
  {
    var s' := Next(s, e);
    if Exited in s'.workers && Exited !in s.workers {
      var i :| 0 <= i < |s'.workers| && s'.workers[i] == Exited;
      assert s.workers[i] != Exited;
    }
  }

  lemma {:induction false} StepConserves(s: State, e: Event, x: Task)
    requires Enabled(s, e)
    requires Places(s, x) == multiset(s.accepted)[x]
    ensures Places(Next(s, e), x) == multiset(Next(s, e).accepted)[x]
  {
    hide Next, Enabled, InFlight;
    QueueConserves(s, e, x);
    WorkersConserve(s, e, x);
    ListsConserve(s, e, x);
  }

  /** Whether the step moves x from the queue to a worker, and from a worker to the finished tasks. */
  predicate Taken(s: State, e: Event, x: Task) {
    e.Enter? && s.queue != [] && s.queue[0] == x
  }

  predicate Finished(s: State, e: Event, x: Task)
    requires Enabled(s, e)
  {
    e.Finish? && s.workers[e.i].task == x
  }

  lemma {:induction false} QueueConserves(s: State, e: Event, x: Task)
    requires Enabled(s, e)
    ensures multiset(Next(s, e).queue)[x] + (if Taken(s, e, x) then 1 else 0)
         == multiset(s.queue)[x] + (if e == Push(x) then 1 else 0)
  {
    hide SomeSleeps;
    if e.Enter? && s.queue != [] {
      assert s.queue == [s.queue[0]] + s.queue[1..];
    }
  }

  lemma {:induction false} ListsConserve(s: State, e: Event, x: Task)
    requires Enabled(s, e)
    ensures multiset(Next(s, e).finished)[x] == multiset(s.finished)[x] + (if Finished(s, e, x) then 1 else 0)
    ensures multiset(Next(s, e).accepted)[x] == multiset(s.accepted)[x] + (if e == Push(x) then 1 else 0)
  {
    hide SomeSleeps;
  }

  lemma {:induction false} WorkersConserve(s: State, e: Event, x: Task)
    requires Enabled(s, e)
    ensures InFlight(Next(s, e), x) + (if Finished(s, e, x) then 1 else 0)
         == InFlight(s, x) + (if Taken(s, e, x) then 1 else 0)
  {
    hide SomeSleeps, Count;
    var s' := Next(s, e);
    match e
    case NotifyOne(wake) =>
      if wake < |s.workers| {
        CountUpdate(s.workers, wake, Wake(s.workers[wake]), w => w == Running(x));
      }
    case NotifyAll =>
      CountMono(s.workers, w => w == Running(x), s'.workers, w => w == Running(x));
      CountMono(s'.workers, w => w == Running(x), s.workers, w => w == Running(x));
    case Enter(i) => CountUpdate(s.workers, i, s'.workers[i], w => w == Running(x));
    case Spurious(i) => CountUpdate(s.workers, i, Woken, w => w == Running(x));
    case Finish(i) => CountUpdate(s.workers, i, Ready, w => w == Running(x));
    case _ =>
      assert s'.workers == s.workers;
  }

  lemma {:induction false} StepKeepsInv(s: State, e: Event)
    requires Inv(s) && Enabled(s, e)
    ensures Inv(Next(s, e)) && |Next(s, e).workers| == |s.workers|
  {
    StepKeepsCovered(s, e);
    StepKeepsFifo(s, e);
    StepKeepsStopping(s, e);
    forall x ensures Places(Next(s, e), x) == multiset(Next(s, e).accepted)[x] {
      StepConserves(s, e, x);
    }
  }

  lemma {:induction false} RunKeepsInv(s: State, es: seq<Event>)
    requires Inv(s) && Legal(s, es)
    ensures Inv(Exec(s, es)) && |Exec(s, es).workers| == |s.workers|
    decreases |es|
  {
    if es != [] {
      StepKeepsInv(s, es[0]);
      RunKeepsInv(Next(s, es[0]), es[1..]);
    }
  }

  lemma {:induction false} ReachableInv(n: nat, es: seq<Event>)
    requires Legal(Init(n), es)
    ensures Inv(Exec(Init(n), es)) && |Exec(Init(n), es).workers| == n
  {
    forall x ensures Places(Init(n), x) == 0 {
      CountZero(Init(n).workers, w => w == Running(x));
    }
    RunKeepsInv(Init(n), es);
  }

  // Results

  /** In every run: while a worker sleeps, the woken workers, the pending notifications and those that went to callers
      of waitForAll cover the queued tasks; so as long as none of them did, no task is forgotten. */
  lemma {:induction false} NoTaskForgotten(n: nat, es: seq<Event>)
    requires Legal(Init(n), es)
    ensures var s := Exec(Init(n), es);
            && (SomeSleeps(s) ==> Signalled(s) + s.notifies + s.absorbed >= |s.queue|)
            && (s.absorbed == 0 ==> !Forgotten(s))
  {
    ReachableInv(n, es);
    if Exec(Init(n), es).absorbed == 0 {
      CoveredNotForgotten(Exec(Init(n), es));
    }
  }

  /** A task is queued, a worker sleeps, and nothing is on its way to wake one. */
  ghost predicate Forgotten(s: State) {
    SomeSleeps(s) && s.notifies == 0 && Woken !in s.workers && s.queue != []
  }

  lemma {:induction false} CoveredNotForgotten(s: State)
    requires Covered(s) && s.absorbed == 0
    ensures !Forgotten(s)
  {
    if Woken !in s.workers {
      forall i | 0 <= i < |s.workers| ensures s.workers[i] != Woken {
        assert s.workers[i] in s.workers;
      }
      CountZero(s.workers, w => w == Woken);
    }
  }

  /** Exactly how a task is first forgotten: its notification, the only one pending, goes to a caller of waitForAll
      while a worker sleeps and none is on its way. */
  lemma {:induction false} ForgottenIffAbsorbed(n: nat, es: seq<Event>, e: Event)
    requires Legal(Init(n), es) && Enabled(Exec(Init(n), es), e) && Exec(Init(n), es).absorbed == 0
    ensures var s := Exec(Init(n), es);
            Forgotten(Next(s, e)) <==>
              e == NotifyCaller && SomeSleeps(s) && s.notifies == 1 && Woken !in s.workers && s.queue != []
  {
    ReachableInv(n, es);
    var s := Exec(Init(n), es);
    if e == NotifyCaller {
      assert Next(s, e).workers == s.workers;
    } else {
      StepKeepsInv(s, e);
      CoveredNotForgotten(Next(s, e));
    }
  }

  /** And it does happen: the worker sleeps, x is queued, and the caller that took x's notification sleeps again. */
  lemma {:induction false} WaitForAllCanForget(x: Task)
    ensures var es := [Enter(0), Push(x), WaitForAll, NotifyCaller, Resume];
            && Legal(Init(1), es) && Forgotten(Exec(Init(1), es))
            && Exec(Init(1), es).queue == [x] && Exec(Init(1), es).waiting == 1
  {
    hide Legal, Exec;
    var es := [Enter(0), Push(x), WaitForAll, NotifyCaller, Resume];
    var s1 := Next(Init(1), es[0]);
    assert s1.workers[0] == Sleeping;
    var s2 := Next(s1, es[1]);
    var s3 := Next(s2, es[2]);
    var s4 := Next(s3, es[3]);
    var s5 := Next(s4, es[4]);
    NoStep(s5, es);
    StepBack(s4, es, 4);
    StepBack(s3, es, 3);
    StepBack(s2, es, 2);
    StepBack(s1, es, 1);
    StepBack(Init(1), es, 0);
    assert es[0..] == es;
  }

  /** A task is queued or running. */
  ghost predicate Busy(s: State) {
    s.queue != [] || exists i | 0 <= i < |s.workers| :: s.workers[i].Running?
  }

  /** All tasks are complete exactly when the queue is empty, which is what waitForAll waits for, and nothing is
      running, which it does not ask. */
  lemma {:induction false} CompleteIffIdle(n: nat, es: seq<Event>)
    requires Legal(Init(n), es)
    ensures var s := Exec(Init(n), es);
            (forall x | x in s.accepted :: multiset(s.finished)[x] == 1) <==> !Busy(s)
  {
    hide Legal, Exec, Count;
    ReachableInv(n, es);
    var s := Exec(Init(n), es);
    if s.queue != [] {
      QueuedIsIncomplete(n, es, s.queue[0]);
    } else if i :| 0 <= i < |s.workers| && s.workers[i].Running? {
      RunningIsIncomplete(n, es, i);
    } else {
      forall x | x in s.accepted ensures multiset(s.finished)[x] == 1 {
        CountZero(s.workers, w => w == Running(x));
        OnePlace(n, es, x);
      }
    }
  }

  lemma {:induction false} QueuedIsIncomplete(n: nat, es: seq<Event>, x: Task)
    requires Legal(Init(n), es) && x in Exec(Init(n), es).queue
    ensures var s := Exec(Init(n), es); x in s.accepted && multiset(s.finished)[x] == 0
  {
    hide Legal, Exec, Count;
    ReachableInv(n, es);
    OnePlace(n, es, x);
    assert x in multiset(Exec(Init(n), es).queue);
  }

  lemma {:induction false} RunningIsIncomplete(n: nat, es: seq<Event>, i: nat)
    requires Legal(Init(n), es)
    requires var s := Exec(Init(n), es); i < |s.workers| && s.workers[i].Running?
    ensures var s := Exec(Init(n), es);
            var x := s.workers[i].task;
            x in s.accepted && multiset(s.finished)[x] == 0
  {
    hide Legal, Exec, Count;
    var s := Exec(Init(n), es);
    var x := s.workers[i].task;
    CountSome(s.workers, i, w => w == Running(x));
    OnePlace(n, es, x);
  }

  /** So waitForAll can return while a task is running: it finds the queue empty and does not wait. */
  lemma {:induction false} WaitForAllCanReturnEarly(x: Task)
    ensures var es := [Push(x), NotifyOne(1), Enter(0), WaitForAll];
            && Legal(Init(1), es)
            && var s := Exec(Init(1), es);
               s.queue == [] && s.waiting == 0 && s.workers == [Running(x)] && s.accepted == [x] && s.finished == []
  {
    hide Legal, Exec;
    var es := [Push(x), NotifyOne(1), Enter(0), WaitForAll];
    var s1 := Next(Init(1), es[0]);
    var s2 := Next(s1, es[1]);
    var s3 := Next(s2, es[2]);
    assert s3.workers == [Running(x)];
    var s4 := Next(s3, es[3]);
    NoStep(s4, es);
    StepBack(s3, es, 3);
    StepBack(s2, es, 2);
    StepBack(s1, es, 1);
    StepBack(Init(1), es, 0);
    assert es[0..] == es;
  }

  /** waitForAll is not told when the queue empties: it can sleep on with nothing queued, running or on its way. */
  lemma {:induction false} WaitForAllCanMissTheEnd(x: Task)
    ensures var es := [Push(x), NotifyOne(1), WaitForAll, Enter(0), Finish(0), Enter(0)];
            && Legal(Init(1), es)
            && var s := Exec(Init(1), es);
               s.queue == [] && s.workers == [Sleeping] && s.notifies == 0 && s.waiting == 1 && s.finished == [x]
  {
    hide Legal, Exec;
    var es := [Push(x), NotifyOne(1), WaitForAll, Enter(0), Finish(0), Enter(0)];
    var s1 := Next(Init(1), es[0]);
    var s2 := Next(s1, es[1]);
    var s3 := Next(s2, es[2]);
    var s4 := Next(s3, es[3]);
    assert s4.workers == [Running(x)];
    var s5 := Next(s4, es[4]);
    var s6 := Next(s5, es[5]);
    NoStep(s6, es);
    StepBack(s5, es, 5);
    StepBack(s4, es, 4);
    StepBack(s3, es, 3);
    StepBack(s2, es, 2);
    StepBack(s1, es, 1);
    StepBack(Init(1), es, 0);
    assert es[0..] == es;
  }

  /** What the workers, the callers and the notifications already pending do by themselves. */
  ghost predicate Unprompted(es: seq<Event>) {
    forall e | e in es :: !e.Push? && e != NotifyAll && e != Recall
  }

  /** With no notification pending, a caller of waitForAll sleeps until something is submitted, the scheduler is
      stopped, or the caller wakes by itself. */
  lemma {:induction false} CallerSleepsOn(s: State, es: seq<Event>)
    requires Legal(s, es) && Unprompted(es) && s.notifies == 0
    ensures Exec(s, es).waiting >= s.waiting
    decreases |es|
  {
    if es != [] {
      assert es[0] in es && Next(s, es[0]).notifies == 0 && Next(s, es[0]).waiting >= s.waiting;
      assert forall e | e in es[1..] :: e in es;
      CallerSleepsOn(Next(s, es[0]), es[1..]);
    }
  }

  /** Exactly then: one pending notification is enough to wake a caller. */
  lemma {:induction false} CallerWakesIffNotified(s: State)
    requires s.waiting > 0
    ensures (exists es :: Legal(s, es) && Unprompted(es) && Exec(s, es).waiting < s.waiting) <==> s.notifies > 0
  {
    if s.notifies > 0 {
      var es := [NotifyCaller];
      NoStep(Next(s, es[0]), es);
      StepBack(s, es, 0);
      assert es[0..] == es && Unprompted(es);
    } else {
      forall es | Legal(s, es) && Unprompted(es) ensures Exec(s, es).waiting >= s.waiting {
        CallerSleepsOn(s, es);
      }
    }
  }

  /** Those who have called waitForAll and not returned. */
  function Callers(s: State): nat {
    s.waiting + s.recalled
  }

  lemma {:induction false} NobodyReturns(s: State, es: seq<Event>)
    requires Legal(s, es) && Unprompted(es) && s.notifies == 0 && s.recalled == 0
    ensures Callers(Exec(s, es)) >= Callers(s)
    decreases |es|
  {
    if es != [] {
      var s1 := Next(s, es[0]);
      assert es[0] in es && s1.notifies == 0 && s1.recalled == 0 && Callers(s1) >= Callers(s);
      assert forall e | e in es[1..] :: e in es;
      NobodyReturns(s1, es[1..]);
    }
  }

  /** So once the queue is empty, exactly when waitForAll still returns without anything new: a caller was woken
      already, or a notification is left to wake one. */
  lemma {:induction false} CallerReturnsIffOnTheWay(s: State)
    requires s.waiting > 0 && s.queue == []
    ensures (exists es :: Legal(s, es) && Unprompted(es) && Callers(Exec(s, es)) < Callers(s))
       <==> s.notifies > 0 || s.recalled > 0
  {
    if s.recalled > 0 {
      var es := [Resume];
      NoStep(Next(s, es[0]), es);
      StepBack(s, es, 0);
      assert es[0..] == es && Unprompted(es);
    } else if s.notifies > 0 {
      var es := [NotifyCaller, Resume];
      var s1 := Next(s, es[0]);
      NoStep(Next(s1, es[1]), es);
      StepBack(s1, es, 1);
      StepBack(s, es, 0);
      assert es[0..] == es && Unprompted(es);
    } else {
      forall es | Legal(s, es) && Unprompted(es) ensures Callers(Exec(s, es)) >= Callers(s) {
        NobodyReturns(s, es);
      }
    }
  }

  lemma {:induction false} NoStep(s: State, es: seq<Event>)
    ensures Legal(s, es[|es|..]) && Exec(s, es[|es|..]) == s
  {
  }

  lemma {:induction false} StepBack(s: State, es: seq<Event>, k: nat)
    requires k < |es| && Enabled(s, es[k]) && Legal(Next(s, es[k]), es[k + 1..])
    ensures Legal(s, es[k..]) && Exec(s, es[k..]) == Exec(Next(s, es[k]), es[k + 1..])
  {
    assert es[k..][1..] == es[k + 1..];
  }

  /** After the notification of stop no worker sleeps, whatever happens next. */
  lemma {:induction false} NobodySleepsAfterStop(n: nat, es: seq<Event>, more: seq<Event>)
    requires Legal(Init(n), es) && Enabled(Exec(Init(n), es), NotifyAll)
    requires Legal(Next(Exec(Init(n), es), NotifyAll), more)
    ensures !SomeSleeps(Exec(Next(Exec(Init(n), es), NotifyAll), more))
  {
    ReachableInv(n, es);
    var s := Next(Exec(Init(n), es), NotifyAll);
    StepKeepsInv(Exec(Init(n), es), NotifyAll);
    RunKeepsInv(s, more);
    NotifiedStays(s, more);
  }

  lemma {:induction false} NotifiedStays(s: State, es: seq<Event>)
    requires s.notifiedAll && Legal(s, es)
    ensures Exec(s, es).notifiedAll
    decreases |es|
  {
    if es != [] {
      NotifiedStays(Next(s, es[0]), es[1..]);
    }
  }

  /** Each task is in exactly one place, once, in every run. */
  lemma {:induction false} OnePlace(n: nat, es: seq<Event>, x: Task)
    requires Legal(Init(n), es)
    ensures var s := Exec(Init(n), es);
            multiset(s.queue)[x] + InFlight(s, x) + multiset(s.finished)[x] == if x in s.accepted then 1 else 0
  {
    ReachableInv(n, es);
    var s := Exec(Init(n), es);
    DistinctOccurrence(s.accepted, x);
    assert Places(s, x) == multiset(s.accepted)[x];
  }

  /** Shutdown is complete: with at least one worker, when all workers have exited, every task queued before the flag
      was set has run exactly once; a task queued later has run exactly when it is not still in the queue. */
  lemma {:induction false} ShutdownComplete(n: nat, es: seq<Event>)
    requires n > 0 && Legal(Init(n), es)
    requires forall i | 0 <= i < |Exec(Init(n), es).workers| :: Exec(Init(n), es).workers[i] == Exited
    ensures var s := Exec(Init(n), es);
            && s.stop && s.beforeStop <= |s.accepted|
            && (forall k | 0 <= k < s.beforeStop :: multiset(s.finished)[s.accepted[k]] == 1)
            && (forall x | x in s.accepted :: multiset(s.finished)[x] == 1 <==> x !in s.queue)
  {
    ReachableInv(n, es);
    var s := Exec(Init(n), es);
    assert s.workers[0] == Exited;
    forall x | x in s.accepted
      ensures multiset(s.finished)[x] == 1 <==> x !in s.queue
    {
      CountZero(s.workers, w => w == Running(x));
      OnePlace(n, es, x);
    }
    forall k | 0 <= k < s.beforeStop
      ensures s.accepted[k] !in s.queue
    {
    }
  }

  ghost predicate SomeAlive(s: State) {
    exists i | 0 <= i < |s.workers| :: s.workers[i] != Exited
  }

  /** Exactly which tasks are run: when all workers have exited, a task has run, once, if and only if some worker had
      not yet exited when it was queued, before or after stop; otherwise it is still queued. */
  lemma {:induction false} RunIffSomeAlive(n: nat, es: seq<Event>, x: Task, more: seq<Event>)
    requires Legal(Init(n), es) && Enabled(Exec(Init(n), es), Push(x))
    requires Legal(Next(Exec(Init(n), es), Push(x)), more)
    requires !SomeAlive(Exec(Next(Exec(Init(n), es), Push(x)), more))
    ensures var s := Exec(Init(n), es);
            var s' := Exec(Next(s, Push(x)), more);
            && (x !in s'.queue <==> SomeAlive(s))
            && multiset(s'.finished)[x] == if SomeAlive(s) then 1 else 0
  {
    hide Legal, Exec, Count;
    ReachableInv(n, es);
    var s := Exec(Init(n), es);
    var s1 := Next(s, Push(x));
    assert s1.queue[|s.queue|] == x && s1.accepted[|s.accepted|] == x;
    StepKeepsInv(s, Push(x));
    RunKeepsInv(s1, more);
    var s' := Exec(s1, more);
    if SomeAlive(s) {
      var i :| 0 <= i < |s.workers| && s.workers[i] != Exited;
      assert s1.workers[i] != Exited;
      LeftoverStays(s1, x, more);
    } else {
      assert s1.workers == s.workers;
      StrandedStays(s1, x, more);
    }
    RunsPerTask(s1, x, more);
    CountZero(s'.workers, w => w == Running(x));
    DistinctOccurrence(s'.accepted, x);
    DistinctQueue(s', x);
    assert Places(s', x) == multiset(s'.accepted)[x] == 1;
  }

  lemma {:induction false} RunsPerTask(s: State, x: Task, es: seq<Event>)
    requires Legal(s, es) && x in s.accepted
    ensures x in Exec(s, es).accepted
    decreases |es|
  {
    if es != [] {
      RunsPerTask(Next(s, es[0]), x, es[1..]);
    }
  }

  lemma {:induction false} DistinctQueue(s: State, x: Task)
    requires Fifo(s)
    ensures multiset(s.queue)[x] == if x in s.queue then 1 else 0
  {
    forall i, j | 0 <= i < j < |s.queue| ensures s.queue[i] != s.queue[j] {
      var k := |s.accepted| - |s.queue|;
      assert s.queue[i] == s.accepted[k + i] && s.queue[j] == s.accepted[k + j];
    }
    DistinctOccurrence(s.queue, x);
  }

  /** A worker exits on an empty queue only, so the last one leaves no task behind. */
  lemma {:induction false} LeftoverStays(s: State, x: Task, es: seq<Event>)
    requires Legal(s, es) && x in s.accepted && (!SomeAlive(s) ==> x !in s.queue)
    ensures var s' := Exec(s, es); !SomeAlive(s') ==> x !in s'.queue
    decreases |es|
  {
    if es != [] {
      LeftoverStep(s, x, es[0]);
      LeftoverStays(Next(s, es[0]), x, es[1..]);
    }
  }

  lemma {:induction false} LeftoverStep(s: State, x: Task, e: Event)
    requires Enabled(s, e) && x in s.accepted && (!SomeAlive(s) ==> x !in s.queue)
    ensures x in Next(s, e).accepted && (!SomeAlive(Next(s, e)) ==> x !in Next(s, e).queue)
  {
    var s' := Next(s, e);
    if SomeAlive(s) && !SomeAlive(s') {
      var i :| 0 <= i < |s.workers| && s.workers[i] != Exited;
      assert s'.workers[i] == Exited;
      assert e == Enter(i);
    }
  }

  /** Once all workers have exited, nothing leaves the queue. */
  lemma {:induction false} StrandedStays(s: State, x: Task, es: seq<Event>)
    requires Legal(s, es) && !SomeAlive(s) && x in s.queue
    ensures x in Exec(s, es).queue
    decreases |es|
  {
    if es != [] {
      StrandedStep(s, x, es[0]);
      StrandedStays(Next(s, es[0]), x, es[1..]);
    }
  }

  lemma {:induction false} StrandedStep(s: State, x: Task, e: Event)
    requires Enabled(s, e) && !SomeAlive(s) && x in s.queue
    ensures !SomeAlive(Next(s, e)) && x in Next(s, e).queue
  {
    var s' := Next(s, e);
    forall i | 0 <= i < |s'.workers| ensures s'.workers[i] == Exited {
      assert s.workers[i] == Exited;
    }
  }

  /** A task submitted after stop can be stranded: it is accepted, and no worker is left to run it. */
  lemma {:induction false} LateTaskCanBeStranded(x: Task)
    ensures var es := [SetStop, NotifyAll, Enter(0), Push(x)];
            Legal(Init(1), es) && Exec(Init(1), es).workers == [Exited] && Exec(Init(1), es).queue == [x]
  {
    hide Legal, Exec;
    var es := [SetStop, NotifyAll, Enter(0), Push(x)];
    var s1 := Next(Init(1), es[0]);
    var s2 := Next(s1, es[1]);
    var s3 := Next(s2, es[2]);
    var s4 := Next(s3, es[3]);
    NoStep(s4, es);
    StepBack(s3, es, 3);
    StepBack(s2, es, 2);
    StepBack(s1, es, 1);
    StepBack(Init(1), es, 0);
    assert es[0..] == es;
  }

  // The implementation

  /** Each method is one region under queueMutex, or one notification. */
  class AsyncScheduler {
    var tasks: seq<Task>
    var stop: bool
    var workers: seq<Worker>
    var notifies: nat
    var waiting: nat
    var recalled: nat
    ghost var absorbed: nat
    ghost var notifiedAll: bool
    ghost var accepted: seq<Task>
    ghost var beforeStop: nat
    ghost var finished: seq<Task>

    ghost function View(): State
      reads this
    {
      State(
        tasks, stop, notifiedAll, workers, notifies, waiting, recalled, absorbed, accepted, beforeStop, finished)
    }

    constructor (workerCount: nat)
      ensures View() == Init(workerCount)
    {
      tasks, stop, notifies := [], false, 0;
      workers := seq(workerCount, _ => Ready);
      waiting, recalled, absorbed := 0, 0, 0;
      notifiedAll, accepted, beforeStop, finished := false, [], 0, [];
    }

    method Submit(task: Task)
      requires Enabled(View(), Push(task))
      modifies this
      ensures View() == Next(old(View()), Push(task))
    {
      tasks := tasks + [task];
      accepted := accepted + [task];
      notifies := notifies + 1;
    }

    /** Wakes some worker or some caller of waitForAll, if there is one asleep. */
    method NotifyOne() returns (ghost e: Event)
      requires notifies > 0
      modifies this
      ensures (e.NotifyOne? || e.NotifyCaller?) && Enabled(old(View()), e) && View() == Next(old(View()), e)
    {
      notifies := notifies - 1;
      var callerFirst: bool := *;
      if waiting > 0 && (callerFirst || Sleeping !in workers) {
        waiting, recalled, absorbed, e := waiting - 1, recalled + 1, absorbed + 1, NotifyCaller;
        return;
      }
      e := Event.NotifyOne(|workers|);
      if i: nat :| i < |workers| && workers[i] == Sleeping {
        workers := workers[i := Woken];
        e := Event.NotifyOne(i);
      }
    }

    method SetStop()
      modifies this
      ensures View() == Next(old(View()), Event.SetStop)
    {
      if !stop {
        beforeStop := |accepted|;
      }
      stop := true;
    }

    method NotifyAll()
      requires stop
      modifies this
      ensures View() == Next(old(View()), Event.NotifyAll)
    {
      notifiedAll, waiting, recalled := true, 0, recalled + waiting;
      var i := 0;
      while i < |workers|
        invariant i <= |workers| == |old(workers)|
        invariant forall j | 0 <= j < i :: workers[j] == Wake(old(workers)[j])
        invariant forall j | i <= j < |workers| :: workers[j] == old(workers)[j]
        invariant View()
               == old(View().(notifiedAll := true, waiting := 0, recalled := recalled + waiting)).(workers := workers)
      {
        workers := workers[i := Wake(workers[i])];
        i := i + 1;
      }
    }

    /** The region of waitForAll: whether the queue is empty. It asks for no running task, and sleeps if not. */
    method WaitForAll() returns (done: bool)
      modifies this
      ensures View() == Next(old(View()), Event.WaitForAll) && done == (old(tasks) == [])
    {
      done := tasks == [];
      if !done {
        waiting := waiting + 1;
      }
    }

    /** The same region after a wake-up. */
    method ResumeWaitForAll() returns (done: bool)
      requires recalled > 0
      modifies this
      ensures View() == Next(old(View()), Resume) && done == (old(tasks) == [])
    {
      recalled := recalled - 1;
      done := WaitForAll();
    }

    /** A worker's region: wait, exit or take a task. */
    method Enter(i: nat)
      requires Enabled(View(), Event.Enter(i))
      modifies this
      ensures View() == Next(old(View()), Event.Enter(i))
    {
      if !(stop || tasks != []) {
        workers := workers[i := Sleeping];
        return;
      }
      if stop && tasks == [] {
        workers := workers[i := Exited];
        return;
      }
      if tasks != [] {
        workers := workers[i := Running(tasks[0])];
        tasks := tasks[1..];
      }
    }

    method Finish(i: nat)
      requires Enabled(View(), Event.Finish(i))
      modifies this
      ensures View() == Next(old(View()), Event.Finish(i))
    {
      finished := finished + [workers[i].task];
      workers := workers[i := Ready];
    }
  }
}
