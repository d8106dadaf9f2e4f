/** How many elements of a sequence satisfy a predicate, and how a single update changes that number. */
module Counting {

  function Count<W>(ws: seq<W>, p: W -> bool): nat {
    if ws == [] then 0 else (if p(ws[0]) then 1 else 0) + Count(ws[1..], p)
  }

  lemma {:induction false} CountUpdate<W>(ws: seq<W>, i: nat, w: W, p: W -> bool)
    requires i < |ws|
    ensures Count(ws[i := w], p) + (if p(ws[i]) then 1 else 0) == Count(ws, p) + (if p(w) then 1 else 0)
  {
    if i == 0 {
      assert ws[i := w][1..] == ws[1..];
    } else {
      CountUpdate(ws[1..], i - 1, w, p);
      assert ws[i := w][1..] == ws[1..][i - 1 := w];
    }
  }

  /** Pointwise implication of predicates, on possibly different sequences, orders the counts. */
  lemma {:induction false} CountMono<W>(ws: seq<W>, p: W -> bool, ws': seq<W>, p': W -> bool)
    requires |ws'| == |ws| && forall i | 0 <= i < |ws| :: p(ws[i]) ==> p'(ws'[i])
    ensures Count(ws, p) <= Count(ws', p')
  {
    if ws != [] {
      CountMono(ws[1..], p, ws'[1..], p');
    }
  }

  lemma {:induction false} CountZero<W>(ws: seq<W>, p: W -> bool)
    requires forall i | 0 <= i < |ws| :: !p(ws[i])
    ensures Count(ws, p) == 0
  {
    if ws != [] {
      CountZero(ws[1..], p);
    }
  }

  lemma {:induction false} CountSome<W>(ws: seq<W>, i: nat, p: W -> bool)
    requires i < |ws| && p(ws[i])
    ensures Count(ws, p) > 0
  {
    if i > 0 {
      CountSome(ws[1..], i - 1, p);
    }
  }

  /** In a sequence without repetition, nothing occurs twice. */
  lemma {:induction false} DistinctOccurrence<X>(xs: seq<X>, x: X)
    requires forall i, j | 0 <= i < j < |xs| :: xs[i] != xs[j]
    ensures multiset(xs)[x] == if x in xs then 1 else 0
  {
    if xs != [] {
      var m := |xs| - 1;
      DistinctOccurrence(xs[..m], x);
      assert xs == xs[..m] + [xs[m]];
      assert xs[m] !in xs[..m];
    }
  }
}
