/** The blocking channel of src/runtime/concurrency.h: one mutex, two condition variables, any number of threads. */
module Channels {
  // Every region a thread runs while it holds the mutex is one atomic step. A call of send or receive is its first
  // region; when the region ends in `wait`, the thread joins the sleepers of that condition variable, and the region
  // that follows its wake-up is a step of its own. Which sleeper `notify_one` picks, and when a sleeper wakes by
  // itself, is left to the event, so a statement about all legal event lists is a statement about all schedules.

  type Tid = nat

  datatype State<T> = State(
    capacity: nat,                // 0 means unbounded
    buffer: seq<T>,
    closed: bool,
    sleepingSenders: set<Tid>,    // waiting on not_full
    wokenSenders: set<Tid>,       // notified or spuriously woken, not yet back in their region
    pending: map<Tid, T>,         // the value each waiting sender still has to push
    sleepingReceivers: set<Tid>,  // waiting on not_empty
    wokenReceivers: set<Tid>)

  /** `wake` names the sleeper that a notify_one issued by this step would pick. */
  datatype Event<T> =
    | Send(t: Tid, v: T, wake: Tid)
    | ResumeSend(t: Tid, v: T, wake: Tid)
    | Receive(t: Tid, wake: Tid)
    | ResumeReceive(t: Tid, wake: Tid)
    | Close
    | SpuriousSender(t: Tid)
    | SpuriousReceiver(t: Tid)

  /** What the calling thread has learned at the end of a step. */
  datatype Outcome<T> = Asleep | Sent(ok: bool) | Got(value: T) | Nothing | Done

  function Init<T>(capacity: nat): State<T> {
    State(capacity, [], false, {}, {}, map[], {}, {})
  }

  predicate Idle<T>(s: State<T>, t: Tid) {
    t !in s.sleepingSenders + s.wokenSenders + s.sleepingReceivers + s.wokenReceivers
  }

  predicate CanWake(sleepers: set<Tid>, wake: Tid) {
    sleepers != {} ==> wake in sleepers
  }

  predicate Enabled<T(==)>(s: State<T>, e: Event<T>) {
    match e
    case Send(t, v, wake) => Idle(s, t) && CanWake(s.sleepingReceivers, wake)
    case ResumeSend(t, v, wake) =>
      t in s.wokenSenders && t in s.pending && s.pending[t] == v && CanWake(s.sleepingReceivers, wake)
    case Receive(t, wake) => Idle(s, t) && CanWake(s.sleepingSenders, wake)
    case ResumeReceive(t, wake) => t in s.wokenReceivers && CanWake(s.sleepingSenders, wake)
    case Close => true
    case SpuriousSender(t) => t in s.sleepingSenders
    case SpuriousReceiver(t) => t in s.sleepingReceivers
  }

  function NotifyOneSender<T>(s: State<T>, wake: Tid): State<T> {
    if wake in s.sleepingSenders then
      s.(sleepingSenders := s.sleepingSenders - {wake}, wokenSenders := s.wokenSenders + {wake})
    else s
  }

  function NotifyOneReceiver<T>(s: State<T>, wake: Tid): State<T> {
    if wake in s.sleepingReceivers then
      s.(sleepingReceivers := s.sleepingReceivers - {wake}, wokenReceivers := s.wokenReceivers + {wake})
    else s
  }

  predicate MustWaitToSend<T>(s: State<T>) {
    !s.closed && s.capacity > 0 && |s.buffer| >= s.capacity
  }

  predicate MustWaitToReceive<T>(s: State<T>) {
    !s.closed && s.buffer == []
  }

  function SendRegion<T>(s: State<T>, t: Tid, v: T, wake: Tid): State<T> {
    if MustWaitToSend(s) then s.(sleepingSenders := s.sleepingSenders + {t}, pending := s.pending[t := v])
    else if s.closed then s
    else NotifyOneReceiver(s.(buffer := s.buffer + [v]), wake)
  }

  function ReceiveRegion<T>(s: State<T>, t: Tid, wake: Tid): State<T> {
    if MustWaitToReceive(s) then s.(sleepingReceivers := s.sleepingReceivers + {t})
    else if s.buffer == [] then s
    else NotifyOneSender(s.(buffer := s.buffer[1..]), wake)
  }

  function Next<T>(s: State<T>, e: Event<T>): State<T> {
    match e
    case Send(t, v, wake) => SendRegion(s, t, v, wake)
    case ResumeSend(t, v, wake) =>
      SendRegion(s.(wokenSenders := s.wokenSenders - {t}, pending := s.pending - {t}), t, v, wake)
    case Receive(t, wake) => ReceiveRegion(s, t, wake)
    case ResumeReceive(t, wake) => ReceiveRegion(s.(wokenReceivers := s.wokenReceivers - {t}), t, wake)
    case Close =>
      s.(closed := true,
         wokenSenders := s.wokenSenders + s.sleepingSenders, sleepingSenders := {},
         wokenReceivers := s.wokenReceivers + s.sleepingReceivers, sleepingReceivers := {})
    case SpuriousSender(t) => NotifyOneSender(s, t)
    case SpuriousReceiver(t) => NotifyOneReceiver(s, t)
  }

  function Result<T>(s: State<T>, e: Event<T>): Outcome<T> {
    match e
    case Send(_, _, _) => if MustWaitToSend(s) then Asleep else Sent(!s.closed)
    case ResumeSend(_, _, _) => if MustWaitToSend(s) then Asleep else Sent(!s.closed)
    case Receive(_, _) => if MustWaitToReceive(s) then Asleep else if s.buffer == [] then Nothing else Got(s.buffer[0])
    case ResumeReceive(_, _) =>
      if MustWaitToReceive(s) then Asleep else if s.buffer == [] then Nothing else Got(s.buffer[0])
    case Close => Done
    case SpuriousSender(_) => Done
    case SpuriousReceiver(_) => Done
  }

  // Runs

  predicate Legal<T(==)>(s: State<T>, es: seq<Event<T>>)
    decreases |es|
  {
    es == [] || (Enabled(s, es[0]) && Legal(Next(s, es[0]), es[1..]))
  }

  function Exec<T>(s: State<T>, es: seq<Event<T>>): State<T>
    decreases |es|
  {
    if es == [] then s else Exec(Next(s, es[0]), es[1..])
  }

  function AcceptedBy<T>(s: State<T>, e: Event<T>): seq<T> {
    if (e.Send? || e.ResumeSend?) && !MustWaitToSend(s) && !s.closed then [e.v] else []
  }

  function ReceivedBy<T>(s: State<T>, e: Event<T>): seq<T> {
    match Result(s, e)
    case Got(v) => [v]
    case _ => []
  }

  /** The values whose send returned true, in the order in which the sends succeeded. */
  function Accepted<T>(s: State<T>, es: seq<Event<T>>): seq<T>
    decreases |es|
  {
    if es == [] then [] else AcceptedBy(s, es[0]) + Accepted(Next(s, es[0]), es[1..])
  }

  /** The values handed out by receive, in order. */
  function Received<T>(s: State<T>, es: seq<Event<T>>): seq<T>
    decreases |es|
  {
    if es == [] then [] else ReceivedBy(s, es[0]) + Received(Next(s, es[0]), es[1..])
  }

  // Safety

  /** No thread is in two places and the bound holds. */
  ghost predicate Tidy<T>(s: State<T>) {
    && (s.capacity > 0 ==> |s.buffer| <= s.capacity)
    && s.sleepingSenders !! s.wokenSenders
    && s.sleepingReceivers !! s.wokenReceivers
    && s.pending.Keys !! s.sleepingReceivers
    && s.pending.Keys !! s.wokenReceivers
    && s.pending.Keys == s.sleepingSenders + s.wokenSenders
    && (s.closed ==> s.sleepingSenders == {} && s.sleepingReceivers == {})
  }

  /** As long as anybody sleeps, at least as many threads are on the way as there are free slots (buffered items) to
      be had; `senders` and `receivers` count threads that have just entered a region. */
  ghost predicate Covered<T>(s: State<T>, senders: nat, receivers: nat) {
    && (s.sleepingReceivers != {} ==> |s.wokenReceivers| + receivers >= |s.buffer|)
    && (s.sleepingSenders != {} ==> s.capacity > 0 && |s.wokenSenders| + senders + |s.buffer| >= s.capacity)
  }

  ghost predicate Inv<T>(s: State<T>) {
    Tidy(s) && Covered(s, 0, 0)
  }

  lemma {:induction false} NotifyReceiverKeepsInv<T>(s: State<T>, wake: Tid)
    requires Tidy(s) && Covered(s, 0, 1) && CanWake(s.sleepingReceivers, wake)
    ensures Inv(NotifyOneReceiver(s, wake))
  {
  }

  lemma {:induction false} NotifySenderKeepsInv<T>(s: State<T>, wake: Tid)
    requires Tidy(s) && Covered(s, 1, 0) && CanWake(s.sleepingSenders, wake)
    ensures Inv(NotifyOneSender(s, wake))
  {
    var s' := NotifyOneSender(s, wake);
    assert s'.pending.Keys == s'.sleepingSenders + s'.wokenSenders;
  }

  /** A sender that finds the buffer full goes to sleep. */
  function FallAsleep<T>(s: State<T>, t: Tid, v: T): State<T> {
    s.(sleepingSenders := s.sleepingSenders + {t}, pending := s.pending[t := v])
  }

  lemma {:induction false} SleeperIsTidy<T>(s: State<T>, t: Tid, v: T)
    requires Tidy(s) && Idle(s, t) && MustWaitToSend(s)
    ensures Tidy(FallAsleep(s, t, v))
  {
    var s' := FallAsleep(s, t, v);
    assert s'.pending.Keys == s.pending.Keys + {t};
    assert s'.sleepingSenders + s'.wokenSenders == s.sleepingSenders + s.wokenSenders + {t};
  }

  lemma {:induction false} SleeperIsCovered<T>(s: State<T>, t: Tid, v: T)
    requires Covered(s, 1, 0) && MustWaitToSend(s)
    ensures Covered(FallAsleep(s, t, v), 0, 0)
  {
  }

  /** One that does not has used up one wake-up and made the buffer longer by one. */
  lemma {:induction false} LongerBufferIsCovered<T>(s: State<T>, v: T)
    requires Tidy(s) && Covered(s, 1, 0) && !MustWaitToSend(s) && !s.closed
    ensures var s' := s.(buffer := s.buffer + [v]); Tidy(s') && Covered(s', 0, 1)
  {
  }

  lemma {:induction false} ClosedKeepsInv<T>(s: State<T>)
    requires Tidy(s) && Covered(s, 1, 0) && s.closed
    ensures Inv(s)
  {
  }

  lemma {:induction false} SendRegionKeepsInv<T>(s: State<T>, t: Tid, v: T, wake: Tid)
    requires Tidy(s) && Covered(s, 1, 0) && Idle(s, t) && CanWake(s.sleepingReceivers, wake)
    ensures Inv(SendRegion(s, t, v, wake))
  {
    hide Tidy, Covered, Idle, NotifyOneReceiver, CanWake;
    if MustWaitToSend(s) {
      SleeperIsTidy(s, t, v);
      SleeperIsCovered(s, t, v);
    } else if s.closed {
      ClosedKeepsInv(s);
    } else {
      LongerBufferIsCovered(s, v);
      NotifyReceiverKeepsInv(s.(buffer := s.buffer + [v]), wake);
    }
  }

  lemma {:induction false} ReceiveRegionKeepsInv<T>(s: State<T>, t: Tid, wake: Tid)
    requires Tidy(s) && Covered(s, 0, 1) && Idle(s, t) && CanWake(s.sleepingSenders, wake)
    ensures Inv(ReceiveRegion(s, t, wake))
  {
    if !MustWaitToReceive(s) && s.buffer != [] {
      NotifySenderKeepsInv(s.(buffer := s.buffer[1..]), wake);
    }
  }

  lemma {:induction false} ResumeSendKeepsInv<T>(s: State<T>, t: Tid, v: T, wake: Tid)
    requires Inv(s) && t in s.wokenSenders && CanWake(s.sleepingReceivers, wake)
    ensures Inv(Next(s, ResumeSend(t, v, wake)))
  {
    hide Inv, Tidy, Covered, Idle, CanWake, SendRegion, MustWaitToSend;
    ResumedIsTidy(s, t);
    ResumedIsCovered(s, t);
    SendRegionKeepsInv(Resumed(s, t), t, v, wake);
  }

  /** A woken sender before its region. */
  function Resumed<T>(s: State<T>, t: Tid): State<T> {
    s.(wokenSenders := s.wokenSenders - {t}, pending := s.pending - {t})
  }

  lemma {:induction false} ResumedIsTidy<T>(s: State<T>, t: Tid)
    requires Inv(s) && t in s.wokenSenders
    ensures Tidy(Resumed(s, t)) && Idle(Resumed(s, t), t)
  {
    hide Covered;
    var s0 := Resumed(s, t);
    assert t in s.pending.Keys;
    assert s0.pending.Keys == s.pending.Keys - {t};
    assert s0.sleepingSenders + s0.wokenSenders == s.sleepingSenders + s.wokenSenders - {t};
  }

  lemma {:induction false} ResumedIsCovered<T>(s: State<T>, t: Tid)
    requires Inv(s) && t in s.wokenSenders
    ensures Covered(Resumed(s, t), 1, 0)
  {
    hide Tidy;
    assert |s.wokenSenders| == |Resumed(s, t).wokenSenders| + 1;
  }

  lemma {:induction false} ResumeReceiveKeepsInv<T>(s: State<T>, t: Tid, wake: Tid)
    requires Inv(s) && t in s.wokenReceivers && CanWake(s.sleepingSenders, wake)
    ensures Inv(Next(s, ResumeReceive(t, wake)))
  {
    var s0 := s.(wokenReceivers := s.wokenReceivers - {t});
    assert |s.wokenReceivers| == |s0.wokenReceivers| + 1;
    assert t !in s0.sleepingSenders && t !in s0.wokenSenders by {
      assert t !in s.pending.Keys;
    }
    ReceiveRegionKeepsInv(s0, t, wake);
  }

  lemma {:induction false} CloseKeepsInv<T>(s: State<T>)
    requires Inv(s)
    ensures Inv(Next(s, Event<T>.Close))
  {
    assert s.pending.Keys == {} + (s.wokenSenders + s.sleepingSenders);
  }

  lemma {:induction false} StepKeepsInv<T>(s: State<T>, e: Event<T>)
    requires Inv(s) && Enabled(s, e)
    ensures Inv(Next(s, e))
  {
    match e
    case Send(t, v, wake) =>
      SendRegionKeepsInv(s, t, v, wake);
    case ResumeSend(t, v, wake) =>
      ResumeSendKeepsInv(s, t, v, wake);
    case Receive(t, wake) =>
      ReceiveRegionKeepsInv(s, t, wake);
    case ResumeReceive(t, wake) =>
      ResumeReceiveKeepsInv(s, t, wake);
    case Close =>
      CloseKeepsInv(s);
    case SpuriousSender(t) =>
      NotifySenderKeepsInv(s, t);
    case SpuriousReceiver(t) =>
      NotifyReceiverKeepsInv(s, t);
  }

  lemma {:induction false} RunKeepsInv<T>(s: State<T>, es: seq<Event<T>>)
    requires Inv(s) && Legal(s, es)
    ensures Inv(Exec(s, es))
    decreases |es|
  {
    if es != [] {
      StepKeepsInv(s, es[0]);
      RunKeepsInv(Next(s, es[0]), es[1..]);
    }
  }

  /** Wake-ups are never lost, in any schedule. */
  lemma {:induction false} NoLostWakeup<T>(capacity: nat, es: seq<Event<T>>)
    requires Legal(Init(capacity), es)
    ensures var s := Exec(Init<T>(capacity), es);
            && (!s.closed && s.sleepingReceivers != {} ==> |s.wokenReceivers| >= |s.buffer|)
            && (!s.closed && s.sleepingSenders != {} && capacity > 0 ==>
                  |s.wokenSenders| + |s.buffer| >= capacity)
            && (s.sleepingSenders != {} ==> capacity > 0)
            && (s.closed ==> s.sleepingSenders == {} && s.sleepingReceivers == {})
  {
    RunKeepsInv(Init<T>(capacity), es);
    CapacityFixed(Init<T>(capacity), es);
  }

  /** The channel never deadlocks: when nobody is on the way back from a wait, sleeping receivers mean that the buffer
      is empty, sleeping senders mean that it is full, and so the two kinds never sleep together. */
  lemma {:induction false} NeverAllAsleep<T>(capacity: nat, es: seq<Event<T>>)
    requires Legal(Init(capacity), es)
    requires Exec(Init<T>(capacity), es).wokenReceivers == {}
    requires Exec(Init<T>(capacity), es).wokenSenders == {}
    ensures var s := Exec(Init<T>(capacity), es);
            && (s.sleepingReceivers != {} ==> s.buffer == [])
            && (s.sleepingSenders != {} ==> |s.buffer| == capacity > 0)
            && (s.sleepingReceivers == {} || s.sleepingSenders == {})
  {
    RunKeepsInv(Init<T>(capacity), es);
    CapacityFixed(Init<T>(capacity), es);
  }

  lemma {:induction false} CapacityFixed<T>(s: State<T>, es: seq<Event<T>>)
    ensures Exec(s, es).capacity == s.capacity
    decreases |es|
  {
    if es != [] {
      CapacityFixed(Next(s, es[0]), es[1..]);
    }
  }

  // First in, first out

  lemma {:induction false} StepConserves<T>(s: State<T>, e: Event<T>)
    ensures s.buffer + AcceptedBy(s, e) == ReceivedBy(s, e) + Next(s, e).buffer
  {
    if e.Receive? || e.ResumeReceive? {
      assert s.buffer != [] ==> [s.buffer[0]] + s.buffer[1..] == s.buffer;
    }
  }

  lemma {:induction false} Regroup<T>(b: seq<T>, a: seq<T>, as': seq<T>, r: seq<T>, rs: seq<T>, b': seq<T>, end: seq<T>)
    requires b + a == r + b' && b' + as' == rs + end
    ensures b + (a + as') == (r + rs) + end
  {
    assert b + (a + as') == (b + a) + as';
    assert (r + b') + as' == r + (b' + as');
  }

  lemma {:induction false} BufferConserved<T>(s: State<T>, es: seq<Event<T>>)
    ensures s.buffer + Accepted(s, es) == Received(s, es) + Exec(s, es).buffer
    decreases |es|
  {
    hide AcceptedBy, ReceivedBy, Next;
    if es == [] {
      assert s.buffer + [] == [] + s.buffer;
    } else {
      var e, s' := es[0], Next(s, es[0]);
      StepConserves(s, e);
      BufferConserved(s', es[1..]);
      Regroup(s.buffer, AcceptedBy(s, e), Accepted(s', es[1..]), ReceivedBy(s, e), Received(s', es[1..]), s'.buffer,
              Exec(s', es[1..]).buffer);
    }
  }

  /** In every run, the accepted values are the received ones followed by the buffered ones, in the same order, and a
      bounded buffer never exceeds its bound. */
  lemma {:induction false} BoundedFifo<T>(capacity: nat, es: seq<Event<T>>)
    requires Legal(Init(capacity), es)
    ensures Accepted(Init(capacity), es) == Received(Init(capacity), es) + Exec(Init(capacity), es).buffer
    ensures capacity > 0 ==> |Exec(Init<T>(capacity), es).buffer| <= capacity
  {
    BufferConserved(Init<T>(capacity), es);
    assert [] + Accepted(Init<T>(capacity), es) == Accepted(Init<T>(capacity), es);
    RunKeepsInv(Init<T>(capacity), es);
    CapacityFixed(Init<T>(capacity), es);
  }

  /** Once closed, a channel stays closed and accepts nothing. */
  lemma {:induction false} ClosedAcceptsNothing<T>(s: State<T>, es: seq<Event<T>>)
    requires s.closed
    ensures Exec(s, es).closed
    ensures Accepted(s, es) == []
    decreases |es|
  {
    if es != [] {
      ClosedAcceptsNothing(Next(s, es[0]), es[1..]);
    }
  }

  /** A receive that completes returns nothing exactly when the channel is closed and drained, that is, when every
      value ever accepted has been received. */
  lemma {:induction false} NothingMeansDrained<T>(capacity: nat, es: seq<Event<T>>, e: Event<T>)
    requires Legal(Init(capacity), es)
    requires e.Receive? || e.ResumeReceive?
    ensures var s := Exec(Init(capacity), es);
            Result(s, e) == Nothing <==>
              s.closed && Received(Init(capacity), es) == Accepted(Init(capacity), es)
  {
    BoundedFifo(capacity, es);
  }

  // The implementation

  /** The class keeps the condition variables' wait sets as fields; each method is one region under the mutex. */
  class Channel<T(==)> {
    const capacity: nat
    var buffer: seq<T>
    var closed: bool
    var fullSleepers: set<Tid>
    var fullWoken: set<Tid>
    var pending: map<Tid, T>
    var emptySleepers: set<Tid>
    var emptyWoken: set<Tid>

    ghost function View(): State<T>
      reads this
    {
      State(capacity, buffer, closed, fullSleepers, fullWoken, pending, emptySleepers, emptyWoken)
    }

    constructor (cap: nat)
      ensures View() == Init(cap)
    {
      capacity := cap;
      buffer, closed := [], false;
      fullSleepers, fullWoken, pending := {}, {}, map[];
      emptySleepers, emptyWoken := {}, {};
    }

    /** The region of send from the wait's predicate on; the mutex is held. */
    method SendBody(t: Tid, v: T) returns (r: Outcome<T>, wake: Tid)
      modifies this
      ensures CanWake(old(emptySleepers), wake)
      ensures View() == SendRegion(old(View()), t, v, wake)
      ensures r == if MustWaitToSend(old(View())) then Asleep else Sent(!old(closed))
    {
      wake := 0;
      if emptySleepers != {} {
        wake :| wake in emptySleepers;
      }
      if capacity > 0 && !(|buffer| < capacity || closed) {
        fullSleepers, pending := fullSleepers + {t}, pending[t := v];
        return Asleep, wake;
      }
      if closed {
        return Sent(false), wake;
      }
      buffer := buffer + [v];
      if wake in emptySleepers {
        emptySleepers, emptyWoken := emptySleepers - {wake}, emptyWoken + {wake};
      }
      return Sent(true), wake;
    }

    method Send(t: Tid, v: T) returns (r: Outcome<T>, wake: Tid)
      requires Idle(View(), t)
      modifies this
      ensures Enabled(old(View()), Event.Send(t, v, wake))
      ensures View() == Next(old(View()), Event.Send(t, v, wake))
      ensures r == Result(old(View()), Event.Send(t, v, wake))
    {
      if closed {
        wake := 0;
        if emptySleepers != {} {
          wake :| wake in emptySleepers;
        }
        return Sent(false), wake;
      }
      r, wake := SendBody(t, v);
    }

    method ResumeSend(t: Tid) returns (r: Outcome<T>, wake: Tid)
      requires t in fullWoken && t in pending
      modifies this
      ensures Enabled(old(View()), Event.ResumeSend(t, old(pending[t]), wake))
      ensures View() == Next(old(View()), Event.ResumeSend(t, old(pending[t]), wake))
      ensures r == Result(old(View()), Event.ResumeSend(t, old(pending[t]), wake))
    {
      var v := pending[t];
      fullWoken, pending := fullWoken - {t}, pending - {t};
      r, wake := SendBody(t, v);
    }

    /** The region of receive from the wait's predicate on; the mutex is held. */
    method ReceiveBody(t: Tid) returns (r: Outcome<T>, wake: Tid)
      modifies this
      ensures CanWake(old(fullSleepers), wake)
      ensures View() == ReceiveRegion(old(View()), t, wake)
      ensures r == Result(old(View()), Event.Receive(t, wake))
    {
      wake := 0;
      if fullSleepers != {} {
        wake :| wake in fullSleepers;
      }
      if !(buffer != [] || closed) {
        emptySleepers := emptySleepers + {t};
        return Asleep, wake;
      }
      if buffer == [] && closed {
        return Nothing, wake;
      }
      var value := buffer[0];
      buffer := buffer[1..];
      if wake in fullSleepers {
        fullSleepers, fullWoken := fullSleepers - {wake}, fullWoken + {wake};
      }
      return Got(value), wake;
    }

    method Receive(t: Tid) returns (r: Outcome<T>, wake: Tid)
      requires Idle(View(), t)
      modifies this
      ensures Enabled(old(View()), Event.Receive(t, wake))
      ensures View() == Next(old(View()), Event.Receive(t, wake))
      ensures r == Result(old(View()), Event.Receive(t, wake))
    {
      r, wake := ReceiveBody(t);
    }

    method ResumeReceive(t: Tid) returns (r: Outcome<T>, wake: Tid)
      requires t in emptyWoken
      modifies this
      ensures Enabled(old(View()), Event.ResumeReceive(t, wake))
      ensures View() == Next(old(View()), Event.ResumeReceive(t, wake))
      ensures r == Result(old(View()), Event.ResumeReceive(t, wake))
    {
      emptyWoken := emptyWoken - {t};
      r, wake := ReceiveBody(t);
    }

    method Close()
      modifies this
      ensures View() == Next(old(View()), Event.Close)
    {
      closed := true;
      emptyWoken, emptySleepers := emptyWoken + emptySleepers, {};
      fullWoken, fullSleepers := fullWoken + fullSleepers, {};
    }
  }
}
