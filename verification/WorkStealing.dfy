/** The push and steal half of WorkStealingQueue in src/runtime/lightweight_scheduler.h. */
module WorkStealing {
  // One owner pushes and any number of thieves steal. A thief loads `top` and `bottom` without the mutex, so both
  // values can be stale when its locked region begins, and push stores `bottom` only after it has appended the item:
  // each load and each store is a step of its own.

  import opened Wrappers

  type Tid = nat

  datatype Thief = Idle | HasTop(t: nat) | Committed(t: nat)

  datatype State<T> = State(items: seq<T>, bottom: nat, top: nat, pushing: bool, thieves: map<Tid, Thief>)

  datatype Event<T> =
    | Append(x: T)          // push: lock and append
    | StoreBottom           // push: publish the new size and unlock
    | LoadTop(i: Tid)
    | LoadBottom(i: Tid)    // and give up when top has reached bottom
    | Take(i: Tid)          // the locked region of steal

  function Init<T>(): State<T> {
    State([], 0, 0, false, map[])
  }

  function ThiefOf<T>(s: State<T>, i: Tid): Thief {
    if i in s.thieves then s.thieves[i] else Idle
  }

  predicate Enabled<T>(s: State<T>, e: Event<T>) {
    match e
    case Append(x) => !s.pushing
    case StoreBottom => s.pushing
    case LoadTop(i) => ThiefOf(s, i) == Idle
    case LoadBottom(i) => ThiefOf(s, i).HasTop?
    case Take(i) => ThiefOf(s, i).Committed? && !s.pushing
  }

  /** Whether the compare-exchange of Take succeeds. */
  predicate Wins<T>(s: State<T>, i: Tid) {
    ThiefOf(s, i).Committed? && ThiefOf(s, i).t < |s.items| && s.top == ThiefOf(s, i).t
  }

  function Next<T>(s: State<T>, e: Event<T>): State<T>
    requires Enabled(s, e)
  {
    match e
    case Append(x) => s.(items := s.items + [x], pushing := true)
    case StoreBottom => s.(bottom := |s.items|, pushing := false)
    case LoadTop(i) => s.(thieves := s.thieves[i := HasTop(s.top)])
    case LoadBottom(i) =>
      var t := ThiefOf(s, i).t;
      s.(thieves := s.thieves[i := if t >= s.bottom then Idle else Committed(t)])
    case Take(i) =>
      s.(thieves := s.thieves[i := Idle], top := if Wins(s, i) then s.top + 1 else s.top)
  }

  /** What a step hands out to its thief. */
  function StolenBy<T>(s: State<T>, e: Event<T>): seq<T> {
    if e.Take? && Wins(s, e.i) then [s.items[ThiefOf(s, e.i).t]] else []
  }

  function PushedBy<T>(e: Event<T>): seq<T> {
    if e.Append? then [e.x] else []
  }

  predicate Legal<T>(s: State<T>, es: seq<Event<T>>)
    decreases |es|
  {
    es == [] || (Enabled(s, es[0]) && Legal(Next(s, es[0]), es[1..]))
  }

  function Exec<T>(s: State<T>, es: seq<Event<T>>): State<T>
    requires Legal(s, es)
    decreases |es|
  {
    if es == [] then s else Exec(Next(s, es[0]), es[1..])
  }

  /** The items handed out, in the order of the successful steals. */
  function Stolen<T>(s: State<T>, es: seq<Event<T>>): seq<T>
    requires Legal(s, es)
    decreases |es|
  {
    if es == [] then [] else StolenBy(s, es[0]) + Stolen(Next(s, es[0]), es[1..])
  }

  function Pushed<T>(es: seq<Event<T>>): seq<T> {
    if es == [] then [] else PushedBy(es[0]) + Pushed(es[1..])
  }

  ghost predicate Inv<T>(s: State<T>) {
    && s.top <= s.bottom <= |s.items|
    && (!s.pushing ==> s.bottom == |s.items|)
    && (forall i | i in s.thieves :: !s.thieves[i].Idle? ==> s.thieves[i].t <= s.top)
    && (forall i | i in s.thieves :: s.thieves[i].Committed? ==> s.thieves[i].t < s.bottom)
  }

  lemma {:induction false} StepKeepsInv<T>(s: State<T>, e: Event<T>)
    requires Inv(s) && Enabled(s, e)
    ensures Inv(Next(s, e))
    ensures Next(s, e).items == s.items + PushedBy(e)
    ensures Next(s, e).items[..Next(s, e).top] == s.items[..s.top] + StolenBy(s, e)
  {
  }

  lemma {:induction false} RunConserves<T>(s: State<T>, es: seq<Event<T>>)
    requires Inv(s) && Legal(s, es)
    ensures Inv(Exec(s, es))
    ensures Exec(s, es).items == s.items + Pushed(es)
    ensures Exec(s, es).items[..Exec(s, es).top] == s.items[..s.top] + Stolen(s, es)
    decreases |es|
  {
    hide Next, Enabled, Pushed, PushedBy, StolenBy, Wins;
    if es == [] {
      NothingPushed(es);
    } else {
      var s', rest := Next(s, es[0]), es[1..];
      StepKeepsInv(s, es[0]);
      RunConserves(s', rest);
      assert s.items + PushedBy(es[0]) + Pushed(rest) == s.items + (PushedBy(es[0]) + Pushed(rest));
      assert s.items[..s.top] + StolenBy(s, es[0]) + Stolen(s', rest)
          == s.items[..s.top] + (StolenBy(s, es[0]) + Stolen(s', rest));
      PushedCons(es);
    }
  }

  lemma {:induction false} NothingPushed<T>(es: seq<Event<T>>)
    requires es == []
    ensures Pushed(es) == []
  {
  }

  lemma {:induction false} PushedCons<T>(es: seq<Event<T>>)
    requires es != []
    ensures Pushed(es) == PushedBy(es[0]) + Pushed(es[1..])
  {
  }

  /** In every run the successful steals hand out exactly the first `top` pushed items, in push order: the k-th
      success gets the k-th item, so nothing is handed out twice or skipped, and what is not yet handed out is what
      stands from `top` on. */
  lemma {:induction false} StealsAreAPrefix<T>(es: seq<Event<T>>)
    requires Legal(Init(), es)
    ensures var s := Exec(Init(), es);
            && s.items == Pushed(es)
            && s.top <= s.bottom <= |Pushed(es)|
            && Stolen(Init(), es) == Pushed(es)[..s.top]
            && Stolen(Init(), es) + s.items[s.top..] == Pushed(es)
  {
    hide Legal, Exec, Stolen, Pushed, Next, Enabled;
    RunConserves(Init<T>(), es);
    var s := Exec(Init<T>(), es);
    assert [] + Pushed(es) == Pushed(es);
    assert [] + Stolen(Init(), es) == Stolen(Init(), es);
    assert s.items[..s.top] + s.items[s.top..] == s.items;
  }

  /** A steal that returns nothing is justified. It gives up before the lock only when everything published is handed
      out, and it loses its compare-exchange only to another thief, who got the item it was after. */
  lemma {:induction false} NothingIsJustified<T>(es: seq<Event<T>>, i: Tid)
    requires Legal(Init(), es)
    ensures var s := Exec(Init(), es);
            && (Enabled(s, LoadBottom(i)) && ThiefOf(Next(s, LoadBottom(i)), i) == Idle ==> s.top == s.bottom)
            && (Enabled(s, Take(i)) && StolenBy(s, Take(i)) == [] ==>
                  var t := ThiefOf(s, i).t;
                  t < s.top <= |Stolen(Init(), es)| && t < |s.items| && Stolen(Init(), es)[t] == s.items[t])
  {
    hide Legal, Exec, Stolen, Pushed;
    StealsAreAPrefix(es);
    RunConserves(Init<T>(), es);
  }

  /** Of two thieves that read the same `top`, the one that comes second gets nothing. */
  lemma {:induction false} OneWinnerPerTop<T>(s: State<T>, i: Tid, j: Tid)
    requires i != j && Wins(s, i) && Wins(s, j) && !s.pushing
    ensures !Wins(Next(s, Take(i)), j)
    ensures StolenBy(Next(s, Take(i)), Take(j)) == []
  {
  }

  /** What size computes from its two loads, of `bottom` and later of `top`. */
  function Difference(bottom: nat, top: nat): nat {
    if bottom > top then bottom - top else 0
  }

  /** Published and not yet handed out. */
  function Available<T>(s: State<T>): (r: seq<T>)
    requires Inv(s)
    ensures !s.pushing ==> r == s.items[s.top..]
  {
    s.items[s.top..s.bottom]
  }

  lemma {:induction false} RunAdvances<T>(s: State<T>, es: seq<Event<T>>)
    requires Inv(s) && Legal(s, es)
    ensures Inv(Exec(s, es)) && s.top <= Exec(s, es).top && s.bottom <= Exec(s, es).bottom
    decreases |es|
  {
    if es != [] {
      StepKeepsInv(s, es[0]);
      RunAdvances(Next(s, es[0]), es[1..]);
    }
  }

  /** Whatever happens between the two loads of size, it never counts too many: neither at its first load nor at its
      second were there fewer items. It is right at the first if nothing was stolen meanwhile, and at the second if
      nothing was published. */
  lemma {:induction false} SizeIsALowerBound<T>(es: seq<Event<T>>, more: seq<Event<T>>)
    requires Legal(Init(), es) && Legal(Exec(Init(), es), more)
    ensures var s := Exec(Init(), es);
            var s' := Exec(s, more);
            var n := Difference(s.bottom, s'.top);
            && Inv(s) && Inv(s') && n <= |Available(s)| && n <= |Available(s')|
            && (n == |Available(s)| <==> s'.top == s.top || s.top == s.bottom)
            && (n == |Available(s')| <==> s'.bottom == s.bottom || s'.top == s'.bottom)
  {
    hide Legal, Exec, Next, Enabled;
    RunAdvances(Init<T>(), es);
    RunAdvances(Exec(Init<T>(), es), more);
  }

  class WorkStealingQueue<T> {
    var items: seq<T>
    var bottom: nat
    var top: nat
    var pushing: bool
    var thieves: map<Tid, Thief>

    ghost function View(): State<T>
      reads this
    {
      State(items, bottom, top, pushing, thieves)
    }

    constructor ()
      ensures View() == Init()
    {
      items, bottom, top, pushing, thieves := [], 0, 0, false, map[];
    }

    method Append(x: T)
      requires !pushing
      modifies this
      ensures View() == Next(old(View()), Event.Append(x))
    {
      pushing := true;
      items := items + [x];
    }

    method StoreBottom()
      requires pushing
      modifies this
      ensures View() == Next(old(View()), Event.StoreBottom)
    {
      bottom := |items|;
      pushing := false;
    }

    method LoadTop(i: Tid)
      requires Enabled(View(), Event.LoadTop(i))
      modifies this
      ensures View() == Next(old(View()), Event.LoadTop(i))
    {
      thieves := thieves[i := HasTop(top)];
    }

    method LoadBottom(i: Tid)
      requires Enabled(View(), Event.LoadBottom(i))
      modifies this
      ensures View() == Next(old(View()), Event.LoadBottom(i))
    {
      var t := thieves[i].t;
      thieves := thieves[i := if t >= bottom then Idle else Committed(t)];
    }

    method Take(i: Tid) returns (r: Option<T>)
      requires Enabled(View(), Event.Take(i))
      modifies this
      ensures View() == Next(old(View()), Event.Take(i))
      ensures r == if Wins(old(View()), i) then Some(old(items)[old(thieves[i]).t]) else None
    {
      var t := thieves[i].t;
      thieves := thieves[i := Idle];
      if t >= |items| {
        return None;
      }
      var item := items[t];
      if top != t {
        return None;
      }
      top := t + 1;
      return Some(item);
    }

    /** The first load of size. */
    method LoadSize() returns (b: nat)
      ensures b == bottom
    {
      b := bottom;
    }

    /** The second load and the result; b was loaded at some earlier time. */
    method Size(b: nat) returns (n: nat)
      ensures n == Difference(b, top)
    {
      var t := top;
      n := if b > t then b - t else 0;
    }
  }
}
