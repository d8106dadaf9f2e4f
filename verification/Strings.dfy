/** The string builtins split, join and replace. */
module Strings {
  // interpreter/src/Builtins.cpp cuts the subject string with `erase`, src/compiler/stdlib.cpp walks over it with two
  // indices, and both edit a copy in place to replace. An empty delimiter or pattern makes every one of these loops
  // run for ever, so the methods demand a non-empty one.

  import opened Wrappers

  predicate MatchAt(s: string, p: string, i: nat) {
    i + |p| <= |s| && forall k | 0 <= k < |p| :: s[i + k] == p[k]
  }

  /** std::string::find: the first match at or after `start`. */
  function Find(s: string, p: string, start: nat): (r: Option<nat>)
    ensures r.Some? ==> start <= r.value <= |s| - |p| && MatchAt(s, p, r.value)
    decreases |s| - start
  {
    if start + |p| > |s| then None
    else if MatchAt(s, p, start) then Some(start)
    else Find(s, p, start + 1)
  }

  lemma {:induction false} FindIsFirst(s: string, p: string, start: nat, i: nat)
    requires start <= i && MatchAt(s, p, i)
    ensures Find(s, p, start).Some? && Find(s, p, start).value <= i
    decreases |s| - start
  {
    if !MatchAt(s, p, start) {
      FindIsFirst(s, p, start + 1, i);
    }
  }

  /** The parts of s from `start` on. */
  function SplitFrom(s: string, d: string, start: nat): (parts: seq<string>)
    requires d != "" && start <= |s|
    ensures parts != []
    decreases |s| - start
  {
    match Find(s, d, start)
    case None => [s[start..]]
    case Some(k) => [s[start..k]] + SplitFrom(s, d, k + |d|)
  }

  function Split(s: string, d: string): seq<string>
    requires d != ""
  {
    SplitFrom(s, d, 0)
  }

  function Join(parts: seq<string>, d: string): string {
    if parts == [] then ""
    else if |parts| == 1 then parts[0]
    else parts[0] + d + Join(parts[1..], d)
  }

  lemma {:induction false} JoinCons(x: string, rest: seq<string>, d: string)
    requires rest != []
    ensures Join([x] + rest, d) == x + d + Join(rest, d)
  {
    assert ([x] + rest)[1..] == rest;
  }

  lemma {:induction false} JoinOne(x: string, d: string)
    ensures Join([x], d) == x
  {
  }

  // Laws

  /** Join inverts split, for every string. */
  lemma {:induction false} JoinSplit(s: string, d: string)
    requires d != ""
    ensures Join(Split(s, d), d) == s
  {
    JoinSplitFrom(s, d, 0);
  }

  lemma {:induction false} JoinSplitFrom(s: string, d: string, start: nat)
    requires d != "" && start <= |s|
    ensures Join(SplitFrom(s, d, start), d) == s[start..]
    decreases |s| - start
  {
    hide Find, MatchAt, Join;
    match Find(s, d, start)
    case None => JoinOne(s[start..], d);
    case Some(k) =>
      JoinSplitFrom(s, d, k + |d|);
      JoinCons(s[start..k], SplitFrom(s, d, k + |d|), d);
      MatchCuts(s, d, start, k);
  }

  lemma {:induction false} MatchCuts(s: string, d: string, start: nat, k: nat)
    requires start <= k && MatchAt(s, d, k)
    ensures s[start..] == s[start..k] + d + s[k + |d|..]
  {
  }

  /** No part but the last can be cut any further: the first match in a part followed by the delimiter is that
      delimiter, and the last part has no match. */
  predicate Clean(parts: seq<string>, d: string) {
    && parts != []
    && if |parts| == 1 then Find(parts[0], d, 0) == None
       else Find(parts[0] + d, d, 0) == Some(|parts[0]|) && Clean(parts[1..], d)
  }

  lemma {:induction false} MatchInPrefix(a: string, rest: string, d: string, i: nat)
    requires i + |d| <= |a|
    ensures MatchAt(a, d, i) == MatchAt(a + rest, d, i)
  {
    assert (a + rest)[..|a|] == a;
  }

  lemma {:induction false} FirstMatchInPrefix(x: string, d: string, rest: string)
    requires d != ""
    ensures Find(x + d, d, 0).Some? && Find(x + d, d, 0).value <= |x|
    ensures Find(x + d + rest, d, 0) == Find(x + d, d, 0)
  {
    var a := x + d;
    assert MatchAt(a, d, |x|);
    MatchInPrefix(a, rest, d, |x|);
    hide MatchAt, Find;
    FindIsFirst(a, d, 0, |x|);
    FindIsFirst(a + rest, d, 0, |x|);
    var i, j := Find(a, d, 0).value, Find(a + rest, d, 0).value;
    MatchInPrefix(a, rest, d, i);
    MatchInPrefix(a, rest, d, j);
    FindIsFirst(a, d, 0, j);
    FindIsFirst(a + rest, d, 0, i);
  }

  /** Searching and splitting look only at what lies behind the start. */
  lemma {:induction false} FindSuffix(s: string, a: nat, t: string, b: nat, p: string, i: nat)
    requires a <= |s| && b <= |t| && s[a..] == t[b..]
    ensures Find(s, p, a + i) == match Find(t, p, b + i) case None => None case Some(k) => Some(k - b + a)
    decreases |s| - i
  {
    MatchSuffix(s, a, t, b, p, i);
    if a + i + |p| <= |s| && !MatchAt(s, p, a + i) {
      FindSuffix(s, a, t, b, p, i + 1);
    }
  }

  lemma {:induction false} MatchAtTail(s: string, p: string, i: nat)
    requires i <= |s|
    ensures MatchAt(s, p, i) <==> p <= s[i..]
  {
    if MatchAt(s, p, i) {
      forall k | 0 <= k < |p| ensures s[i..][k] == p[k] {
        assert s[i + k] == p[k];
      }
    } else if i + |p| <= |s| {
      var k :| 0 <= k < |p| && s[i + k] != p[k];
      assert s[i..][k] != p[k];
    }
  }

  lemma {:induction false} MatchSuffix(s: string, a: nat, t: string, b: nat, p: string, i: nat)
    requires a <= |s| && b <= |t| && s[a..] == t[b..]
    ensures MatchAt(s, p, a + i) == MatchAt(t, p, b + i)
  {
    assert |s| - a == |t| - b;
    if i <= |s| - a {
      assert s[a + i..] == s[a..][i..] == t[b..][i..] == t[b + i..];
      MatchAtTail(s, p, a + i);
      MatchAtTail(t, p, b + i);
    }
  }

  lemma {:induction false} SplitSuffix(s: string, a: nat, t: string, b: nat, d: string)
    requires d != "" && a <= |s| && b <= |t| && s[a..] == t[b..]
    ensures SplitFrom(s, d, a) == SplitFrom(t, d, b)
    decreases |t| - b
  {
    hide Find, MatchAt;
    FindSuffix(s, a, t, b, d, 0);
    match Find(t, d, b)
    case None =>
    case Some(k) =>
      var k' := k - b + a;
      assert s[a..k'] == s[a..][..k - b] == t[b..k];
      assert s[k' + |d|..] == s[a..][k - b + |d|..] == t[k + |d|..];
      SplitSuffix(s, k' + |d|, t, k + |d|, d);
  }

  /** Split inverts join exactly on the clean lists. */
  lemma {:induction false} SplitJoin(parts: seq<string>, d: string)
    requires parts != [] && d != ""
    ensures Split(Join(parts, d), d) == parts <==> Clean(parts, d)
  {
    var x, rest := parts[0], parts[1..];
    if rest == [] {
      assert parts == [x];
    } else {
      SplitJoin(rest, d);
      SplitFirst(x, d, Join(rest, d));
      assert parts == [x] + rest;
    }
  }

  lemma {:induction false} SplitFirst(x: string, d: string, tail: string)
    requires d != ""
    ensures var s := x + d + tail;
            if Find(x + d, d, 0) == Some(|x|) then Split(s, d) == [x] + Split(tail, d)
            else Split(s, d)[0] != x
  {
    hide Find, MatchAt;
    var s := x + d + tail;
    FirstMatchInPrefix(x, d, tail);
    if Find(x + d, d, 0) == Some(|x|) {
      assert s[|x| + |d|..] == tail == tail[0..] && s[0..|x|] == x;
      SplitSuffix(s, |x| + |d|, tail, 0, d);
    }
  }

  /** What split returns is the one clean list of parts that joins to the string. */
  lemma {:induction false} SplitIsTheCleanList(s: string, d: string, parts: seq<string>)
    requires d != ""
    ensures Clean(Split(s, d), d)
    ensures Clean(parts, d) && Join(parts, d) == s ==> parts == Split(s, d)
  {
    JoinSplit(s, d);
    SplitJoin(Split(s, d), d);
    if Clean(parts, d) && Join(parts, d) == s {
      SplitJoin(parts, d);
    }
  }

  // Why the delimiter must not be empty

  /** The empty pattern is found wherever the search starts. So each loop, begun on one, goes on for ever: erasing up to
      the match leaves the subject as it is, the index of the last match stays where it is, and replacing moves on by
      the replacement in a text that has become longer by the replacement. */
  lemma {:induction false} EmptyPatternNeverEnds(s: string, start: nat, r: string)
    requires start <= |s|
    ensures Find(s, "", start) == Some(start)
    ensures s[0 + |""|..] == s && start + |""| == start
    ensures var s' := s[..start] + r + s[start + |""|..];
            start + |r| <= |s'| && Find(s', "", start + |r|) == Some(start + |r|) && |s'| - (start + |r|) == |s| - start
  {
    assert MatchAt(s, "", start);
    var s' := s[..start] + r + s[start + |""|..];
    assert MatchAt(s', "", start + |r|);
  }

  // The implementations

  /** Builtins: cut the front of the subject off at each match. */
  method StrSplitErasing(text: string, delim: string) returns (result: seq<string>)
    requires delim != ""
    ensures result == Split(text, delim)
  {
    hide MatchAt, Find;
    var str := text;
    ghost var cut := 0;
    result := [];
    var pos := Find(str, delim, 0);
    while pos != None
      invariant 0 <= cut <= |text| && str == text[cut..] && pos == Find(str, delim, 0)
      invariant result + SplitFrom(text, delim, cut) == Split(text, delim)
      decreases |str|
    {
      FindSuffix(text, cut, str, 0, delim, 0);
      var token := str[..pos.value];
      assert token == text[cut..cut + pos.value];
      result := result + [token];
      str := str[pos.value + |delim|..];
      cut := cut + pos.value + |delim|;
      pos := Find(str, delim, 0);
    }
    FindSuffix(text, cut, str, 0, delim, 0);
    result := result + [str];
  }

  /** stdlib: leave the subject alone and remember where the last match ended. */
  method StrSplitIndexing(str: string, delimiter: string) returns (result: seq<string>)
    requires delimiter != ""
    ensures result == Split(str, delimiter)
  {
    hide MatchAt, Find;
    result := [];
    var prev := 0;
    var pos := Find(str, delimiter, prev);
    while pos != None
      invariant 0 <= prev <= |str| && pos == Find(str, delimiter, prev)
      invariant result + SplitFrom(str, delimiter, prev) == Split(str, delimiter)
      decreases |str| - prev
    {
      result := result + [str[prev..pos.value]];
      prev := pos.value + |delimiter|;
      pos := Find(str, delimiter, prev);
    }
    result := result + [str[prev..]];
  }

  /** What join still has to write once the first `i` parts are out. */
  function Unwritten(arr: seq<string>, i: nat, d: string): string
    requires i <= |arr|
  {
    if i == |arr| then "" else (if i > 0 then d else "") + Join(arr[i..], d)
  }

  lemma {:induction false} UnwrittenStep(arr: seq<string>, i: nat, d: string)
    requires i < |arr|
    ensures Unwritten(arr, i, d) == (if i > 0 then d else "") + arr[i] + Unwritten(arr, i + 1, d)
  {
    hide Join;
    assert arr[i..] == [arr[i]] + arr[i + 1..];
    if i + 1 < |arr| {
      JoinCons(arr[i], arr[i + 1..], d);
    } else {
      JoinOne(arr[i], d);
      assert arr[i..] == [arr[i]];
    }
  }

  lemma {:induction false} UnwrittenEnds(arr: seq<string>, d: string)
    ensures Unwritten(arr, 0, d) == Join(arr, d) && Unwritten(arr, |arr|, d) == ""
  {
    assert arr[0..] == arr;
  }

  method StrJoin(arr: seq<string>, delim: string) returns (ss: string)
    ensures ss == Join(arr, delim)
  {
    hide Unwritten, Join;
    ss := "";
    UnwrittenEnds(arr, delim);
    for i := 0 to |arr|
      invariant ss + Unwritten(arr, i, delim) == Join(arr, delim)
    {
      UnwrittenStep(arr, i, delim);
      if i > 0 {
        ss := ss + delim;
      }
      ss := ss + arr[i];
    }
  }

  /** The text that replace produces for the part of s from `start` on. */
  function ReplaceFrom(s: string, p: string, r: string, start: nat): string
    requires p != "" && start <= |s|
  {
    Join(SplitFrom(s, p, start), r)
  }

  lemma {:induction false} WholeReplaced(s: string, p: string, r: string)
    requires p != ""
    ensures ReplaceFrom(s, p, r, 0) == Join(Split(s, p), r)
  {
  }

  lemma {:induction false} ReplaceStep(s: string, p: string, r: string, start: nat)
    requires p != "" && start <= |s|
    ensures ReplaceFrom(s, p, r, start) == match Find(s, p, start)
              case None => s[start..]
              case Some(k) => s[start..k] + r + ReplaceFrom(s, p, r, k + |p|)
  {
    hide Find, MatchAt;
    match Find(s, p, start)
    case None =>
    case Some(k) => JoinCons(s[start..k], SplitFrom(s, p, k + |p|), r);
  }

  /** The in-place loop of both files. What lies behind `pos` is still a tail of the original text, so a replacement
      that contains the pattern does no harm. */
  method StrReplace(text: string, pattern: string, replacement: string) returns (str: string)
    requires pattern != ""
    ensures str == Join(Split(text, pattern), replacement)
  {
    hide MatchAt, Find, SplitFrom, Join, ReplaceFrom;
    WholeReplaced(text, pattern, replacement);
    str := text;
    ghost var done := 0;
    var pos := 0;
    var found := Find(str, pattern, pos);
    while found != None
      invariant 0 <= pos <= |str| && found == Find(str, pattern, pos)
      invariant 0 <= done <= |text| && str[pos..] == text[done..]
      invariant str[..pos] + ReplaceFrom(text, pattern, replacement, done) == Join(Split(text, pattern), replacement)
      decreases |str| - pos
    {
      FindSuffix(text, done, str, pos, pattern, 0);
      ReplaceStep(text, pattern, replacement, done);
      var at := found.value;
      ghost var cut := at - pos + done;
      ghost var rest := ReplaceFrom(text, pattern, replacement, cut + |pattern|);
      assert str[..pos] + (text[done..cut] + replacement + rest) == str[..pos] + text[done..cut] + replacement + rest;
      ReplaceAt(str, pos, at, pattern, replacement, text, done, cut);
      str := str[..at] + replacement + str[at + |pattern|..];
      pos := at + |replacement|;
      done := cut + |pattern|;
      found := Find(str, pattern, pos);
    }
    FindSuffix(text, done, str, pos, pattern, 0);
    ReplaceStep(text, pattern, replacement, done);
  }

  lemma {:induction false} ReplaceAt(s: string, pos: nat, at: nat, p: string, r: string, t: string, done: nat, cut: nat)
    requires pos <= at && at + |p| <= |s| && done <= |t| && cut == at - pos + done && s[pos..] == t[done..]
    ensures var s' := s[..at] + r + s[at + |p|..];
            && s'[..at + |r|] == s[..pos] + t[done..cut] + r
            && cut + |p| <= |t| && s'[at + |r|..] == t[cut + |p|..]
  {
    assert s[pos..at] == s[pos..][..at - pos] == t[done..cut];
    assert s[at + |p|..] == s[pos..][at - pos + |p|..] == t[cut + |p|..];
  }
}
