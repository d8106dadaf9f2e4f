/** What line breaks and indentation do to the tokens of a text, and what they do not do. */
module Whitespace {
  import opened Characters
  import opened Tokens
  import opened Lexemes
  import opened LexRoundTrip

  // What is measured

  predicate Mixed(run: string) {
    ' ' in run && '\t' in run
  }

  /** Whether the leading run of a line of the gap is measured. */
  predicate Counts(gap: string, i: nat, more: bool)
    requires i <= |gap|
  {
    var a := RunEnd(gap, i, Indentation);
    Mixed(gap[i..a]) || (if a < |gap| then gap[a] != '\n' else more)
  }

  /** The runs of spaces and tabs that count as indentation, line by line from i on, when a gap is read at the start of
      a line: that of the last line if a token follows, that of a line with a carriage return, and every run that mixes
      the two. A line of one of them alone is empty and does not count. */
  function Measured(gap: string, i: nat, more: bool): seq<string>
    requires i <= |gap|
    decreases |gap| - i
  {
    var a := RunEnd(gap, i, Indentation);
    var b := RunEnd(gap, a, Blanks);
    var run := gap[i..a];
    var first := if Counts(gap, i, more) then [run] else [];
    if b < |gap| then first + Measured(gap, b + 1, more) else first
  }

  /** One measured run: a report if it is mixed, else the change to its level. */
  function SettleOne(st: LexState, run: string, indentSize: nat): LexState
    requires indentSize > 0
  {
    if Mixed(run) then st.(errors := st.errors + 1) else st.WithLevel(Width(run, indentSize) / indentSize)
  }

  function Settle(st: LexState, runs: seq<string>, indentSize: nat): LexState
    requires indentSize > 0
    decreases |runs|
  {
    if runs == [] then st else Settle(SettleOne(st, runs[0], indentSize), runs[1..], indentSize)
  }

  lemma {:induction false} SettleFrame(st: LexState, runs: seq<string>, indentSize: nat, pos: nat, start: bool)
    requires indentSize > 0
    ensures Settle(st.(pos := pos, atLineStart := start), runs, indentSize)
         == Settle(st, runs, indentSize).(pos := pos, atLineStart := start)
    decreases |runs|
  {
    if runs != [] {
      SettleFrame(SettleOne(st, runs[0], indentSize), runs[1..], indentSize, pos, start);
    }
  }

  // A gap of any number of lines

  /** Runs in a text are runs in a slice that ends where they must end. */
  lemma {:induction false} RunSlice(s: string, p: nat, gap: string, i: nat, k: CharClass)
    requires TextAt(s, p, gap) && i <= |gap|
    requires p + |gap| < |s| ==> !InClass(s[p + |gap|], k)
    ensures i <= RunEnd(gap, i, k) <= |gap| && RunEnd(s, p + i, k) == p + RunEnd(gap, i, k)
    decreases |gap| - i
  {
    if i < |gap| {
      TextOne(s, p, gap, i);
      RunSlice(s, p, gap, i + 1, k);
    }
  }

  lemma {:induction false} RunStops(gap: string, i: nat, k: CharClass)
    requires i <= |gap|
    ensures RunEnd(gap, i, k) < |gap| ==> !InClass(gap[RunEnd(gap, i, k)], k)
    decreases |gap| - i
  {
    if i < |gap| {
      RunStops(gap, i + 1, k);
    }
  }

  lemma {:induction false} SliceOfText(s: string, p: nat, gap: string, i: nat, a: nat)
    requires TextAt(s, p, gap) && i <= a <= |gap|
    ensures s[p + i..p + a] == gap[i..a]
  {
    forall k | 0 <= k < a - i ensures s[p + i..p + a][k] == gap[i..a][k] {
      TextOne(s, p, gap, i + k);
    }
  }

  /** A gap with its text: white space, and no comment anywhere in it. */
  ghost predicate GapText(s: string, p: nat, gap: string) {
    TextAt(s, p, gap) && Gap(s, p, p + |gap|)
  }

  lemma {:induction false} GapParts(s: string, p: nat, gap: string, i: nat)
    requires GapText(s, p, gap) && i <= |gap|
    ensures CommentEnd(s, p + i) == p + i
    ensures i < |gap| ==> s[p + i] == gap[i] && IsSpace(gap[i])
    ensures p + |gap| < |s| ==> !IsSpace(s[p + |gap|])
  {
    hide RunEnd, PairStart;
    if i < |gap| {
      TextOne(s, p, gap, i);
      assert IsSpace(s[p + i]) && CommentAt(s, p + i).NoComment?;
    } else if p + i == |s| {
      NothingAtEnd(s);
    }
  }

  lemma {:induction false} SpaceClasses(c: char)
    ensures !IsSpace(c) ==> !InClass(c, Indentation) && !InClass(c, Blanks)
    ensures IsSpace(c) && !InClass(c, Blanks) ==> c == '\n'
  {
  }

  /** What the first line of a gap does to the state. */
  function FirstLine(st: LexState, gap: string, i: nat, more: bool, indentSize: nat): LexState
    requires i <= |gap| && indentSize > 0
  {
    if Counts(gap, i, more) then SettleOne(st, gap[i..RunEnd(gap, i, Indentation)], indentSize) else st
  }

  /** The two runs of a line, in the text and in the gap. */
  lemma {:induction false} LineRuns(s: string, p: nat, gap: string, i: nat)
    requires GapText(s, p, gap) && i <= |gap|
    ensures var a := RunEnd(gap, i, Indentation);
            var b := RunEnd(gap, a, Blanks);
            && p + |gap| <= |s| && i <= a <= b <= |gap|
            && RunEnd(s, p + i, Indentation) == p + a && RunEnd(s, p + a, Blanks) == p + b
            && (a < |gap| ==> s[p + a] == gap[a]) && (b < |gap| ==> gap[b] == '\n' && s[p + b] == '\n')
            && (p + |gap| < |s| ==> s[p + |gap|] != '\n')
            && CommentEnd(s, p + a) == p + a
  {
    hide RunEnd, CommentEnd, Gap, IsSpace, InClass;
    GapParts(s, p, gap, |gap|);
    if p + |gap| < |s| {
      SpaceClasses(s[p + |gap|]);
      NoBreak(s[p + |gap|]);
    }
    RunSlice(s, p, gap, i, Indentation);
    var a := RunEnd(gap, i, Indentation);
    RunSlice(s, p, gap, a, Blanks);
    var b := RunEnd(gap, a, Blanks);
    RunStops(gap, a, Blanks);
    GapParts(s, p, gap, a);
    GapParts(s, p, gap, b);
    if b < |gap| {
      SpaceClasses(gap[b]);
    }
  }

  /** One line: what is measured of it, and where it ends. */
  lemma {:induction false} LineIsMeasured(s: string, indentSize: nat, st: LexState, p: nat, gap: string, i: nat)
    requires indentSize > 0 && GapText(s, p, gap) && i <= |gap| && st.pos == p + i
    ensures var a := RunEnd(gap, i, Indentation);
            var b := RunEnd(gap, a, Blanks);
            && i <= a <= b <= |gap| && p + |gap| <= |s|
            && RunEnd(s, p + a, Blanks) == p + b && (b < |gap| <==> p + b < |s| && s[p + b] == '\n')
            && Indented(s, indentSize, st) == FirstLine(st, gap, i, p + |gap| < |s|, indentSize).(pos := p + a)
  {
    hide RunEnd, CommentEnd, Width, Gap, TextAt, InClass, IsSpace, Mixed, Indented;
    LineRuns(s, p, gap, i);
    var a := RunEnd(gap, i, Indentation);
    SliceOfText(s, p, gap, i, a);
    IndentedRun(s, indentSize, st, p + a, gap[i..a]);
  }

  lemma {:induction false} IndentedRun(s: string, indentSize: nat, st: LexState, e: nat, run: string)
    requires indentSize > 0 && st.pos <= e <= |s| && e == RunEnd(s, st.pos, Indentation) && run == s[st.pos..e]
    requires CommentEnd(s, e) == e
    ensures Indented(s, indentSize, st)
         == (if Mixed(run) || (e < |s| && s[e] != '\n') then SettleOne(st, run, indentSize) else st).(pos := e)
  {
    hide RunEnd, CommentEnd, Width;
  }

  lemma {:induction false} NoBreak(c: char)
    requires !IsSpace(c)
    ensures c != '\n'
  {
  }

  lemma {:induction false} MeasuredStep(gap: string, i: nat, more: bool)
    requires i <= |gap|
    ensures var a := RunEnd(gap, i, Indentation);
            var b := RunEnd(gap, a, Blanks);
            var rest := if b < |gap| then Measured(gap, b + 1, more) else [];
            Measured(gap, i, more) == (if Counts(gap, i, more) then [gap[i..a]] else []) + rest
  {
    hide RunEnd, Counts;
    var a := RunEnd(gap, i, Indentation);
    var first := if Counts(gap, i, more) then [gap[i..a]] else [];
    assert first + [] == first;
  }

  lemma {:induction false} MeasuredLine(st: LexState, gap: string, i: nat, more: bool, indentSize: nat)
    requires i <= |gap| && indentSize > 0
    ensures var b := RunEnd(gap, RunEnd(gap, i, Indentation), Blanks);
            var st1 := FirstLine(st, gap, i, more, indentSize);
            Settle(st, Measured(gap, i, more), indentSize)
              == if b < |gap| then Settle(st1, Measured(gap, b + 1, more), indentSize) else st1
  {
    hide RunEnd, SettleOne, Settle, Measured, Counts;
    var a := RunEnd(gap, i, Indentation);
    var b := RunEnd(gap, a, Blanks);
    MeasuredStep(gap, i, more);
    var rest := if b < |gap| then Measured(gap, b + 1, more) else [];
    OneThenRest(st, gap[i..a], rest, indentSize);
  }

  lemma {:induction false} LineIsRead(s: string, indentSize: nat, st: LexState, p: nat, gap: string, i: nat)
    requires indentSize > 0 && GapText(s, p, gap) && i <= |gap| && st.pos == p + i
    ensures var b := RunEnd(gap, RunEnd(gap, i, Indentation), Blanks);
            var st1 := FirstLine(st, gap, i, p + |gap| < |s|, indentSize);
            && (b < |gap| ==>
                  p + b + 1 <= |s| &&
                  LineStart(s, indentSize, st) == LineStart(s, indentSize, st1.(pos := p + b + 1, atLineStart := true)))
            && (b >= |gap| ==> LineStart(s, indentSize, st) == st1.(pos := p + |gap|, atLineStart := false))
  {
    hide RunEnd, GapText, Indented, SettleOne;
    LineIsMeasured(s, indentSize, st, p, gap, i);
  }

  lemma {:induction false} LinesAreMeasured(s: string, indentSize: nat, st: LexState, p: nat, gap: string, i: nat)
    requires indentSize > 0 && GapText(s, p, gap) && i <= |gap| && st.pos == p + i
    ensures LineStart(s, indentSize, st)
         == Settle(st, Measured(gap, i, p + |gap| < |s|), indentSize).(pos := p + |gap|, atLineStart := false)
    decreases |gap| - i
  {
    hide RunEnd, GapText, FirstLine, LineStart, Settle, Measured;
    LineIsRead(s, indentSize, st, p, gap, i);
    LineIsMeasured(s, indentSize, st, p, gap, i);
    var more := p + |gap| < |s|;
    MeasuredLine(st, gap, i, more, indentSize);
    var b := RunEnd(gap, RunEnd(gap, i, Indentation), Blanks);
    if b < |gap| {
      var st1 := FirstLine(st, gap, i, more, indentSize);
      LinesAreMeasured(s, indentSize, st1.(pos := p + b + 1, atLineStart := true), p, gap, b + 1);
      SettleFrame(st1, Measured(gap, b + 1, more), indentSize, p + b + 1, true);
    }
  }

  lemma {:induction false} OneThenRest(st: LexState, run: string, rest: seq<string>, indentSize: nat)
    requires indentSize > 0
    ensures Settle(st, [run] + rest, indentSize) == Settle(SettleOne(st, run, indentSize), rest, indentSize)
    ensures [] + rest == rest && Settle(st, [], indentSize) == st
    ensures Settle(st, [run], indentSize) == SettleOne(st, run, indentSize)
    ensures [run] + [] == [run]
  {
    hide SettleOne;
    assert ([run] + rest)[1..] == rest && [run][1..] == [];
  }

  /** Exactly which indents and dedents a gap emits at the start of a line: those that lead through the levels of the
      measured runs. */
  lemma {:induction false} LineStartInGap(s: string, indentSize: nat, st: LexState, gap: string)
    requires indentSize > 0 && GapText(s, st.pos, gap)
    ensures LineStart(s, indentSize, st)
         == Settle(st, Measured(gap, 0, st.pos + |gap| < |s|), indentSize)
            .(pos := st.pos + |gap|, atLineStart := false)
  {
    hide GapText, LineStart, Settle, Measured;
    LinesAreMeasured(s, indentSize, st, st.pos, gap, 0);
  }

  /** What follows the last line break. */
  function LastLine(gap: string): string {
    if '\n' !in gap then gap else LastLine(gap[1..])
  }

  /** The level that the last line of a gap of spaces asks for. */
  function LastLevel(gap: string, indentSize: nat): nat
    requires indentSize > 0
  {
    |LastLine(gap)| / indentSize
  }

  predicate SpacesAndBreaks(gap: string) {
    forall c | c in gap :: c == ' ' || c == '\n'
  }

  lemma {:induction false} MeasuredSpaces(gap: string, i: nat)
    requires i <= |gap| && SpacesAndBreaks(gap)
    ensures Measured(gap, i, true) == [LastLine(gap[i..])] && Measured(gap, i, false) == []
    decreases |gap| - i
  {
    hide RunEnd, LastLine, SpacesAndBreaks;
    var a := RunEnd(gap, i, Indentation);
    SpaceRun(gap, i);
    NotMixed(gap, i, a);
    if a < |gap| {
      LastLineSkips(gap, i, a);
      MeasuredSpaces(gap, a + 1);
    } else {
      assert gap[i..] == gap[i..a];
      OneLine(gap[i..]);
    }
  }

  lemma {:induction false} NotMixed(gap: string, i: nat, a: nat)
    requires i <= a <= |gap| && forall j | i <= j < a :: gap[j] == ' '
    ensures !Mixed(gap[i..a]) && '\n' !in gap[i..a]
  {
  }

  lemma {:induction false} OneLine(line: string)
    requires '\n' !in line
    ensures LastLine(line) == line
  {
  }

  /** Of lines of spaces only the last one is measured, and its level is its width over the indent size. */
  lemma {:induction false} SpacesAreMeasured(gap: string, st: LexState, indentSize: nat)
    requires indentSize > 0 && SpacesAndBreaks(gap)
    ensures Settle(st, Measured(gap, 0, true), indentSize) == st.WithLevel(LastLevel(gap, indentSize))
  {
    hide Width, Settle, Measured, SpacesAndBreaks, LastLine;
    MeasuredSpaces(gap, 0);
    assert gap[0..] == gap;
    var line := LastLine(gap);
    OneThenRest(st, line, [], indentSize);
    LastLineIsSpaces(gap);
    NotMixed(line, 0, |line|);
    assert line[0..|line|] == line;
    WithoutTabs(line, indentSize);
  }

  lemma {:induction false} LastLineIsSpaces(gap: string)
    requires SpacesAndBreaks(gap)
    ensures forall j | 0 <= j < |LastLine(gap)| :: LastLine(gap)[j] == ' '
    decreases |gap|
  {
    if '\n' in gap {
      forall c | c in gap[1..] ensures c in gap {
      }
      LastLineIsSpaces(gap[1..]);
    } else {
      forall j | 0 <= j < |gap| ensures gap[j] == ' ' {
        assert gap[j] in gap;
      }
    }
  }

  lemma {:induction false} SpaceRun(gap: string, i: nat)
    requires i <= |gap| && SpacesAndBreaks(gap)
    ensures var a := RunEnd(gap, i, Indentation);
            && i <= a <= |gap| && RunEnd(gap, a, Blanks) == a && (forall j | i <= j < a :: gap[j] == ' ')
            && (a < |gap| ==> gap[a] == '\n')
    decreases |gap| - i
  {
    if i < |gap| {
      assert gap[i] in gap;
      SpaceRun(gap, i + 1);
    }
  }

  lemma {:induction false} LastLineSkips(gap: string, i: nat, a: nat)
    requires i <= a < |gap| && gap[a] == '\n'
    ensures LastLine(gap[i..]) == LastLine(gap[a + 1..])
    decreases a - i
  {
    assert gap[i..][a - i] == '\n' && gap[i..][1..] == gap[i + 1..];
    if i < a {
      LastLineSkips(gap, i + 1, a);
    }
  }

  /** The width of a run without tabs is its length. */
  lemma {:induction false} WithoutTabs(run: string, indentSize: nat)
    requires forall j | 0 <= j < |run| :: run[j] == ' '
    ensures Width(run, indentSize) == |run|
    decreases |run|
  {
    if run != [] {
      WithoutTabs(run[..|run| - 1], indentSize);
    }
  }

  // One gap and the token behind it

  /** The state behind a gap; `more` says whether a token follows. */
  function Behind(st: LexState, gap: string, more: bool, indentSize: nat): LexState
    requires indentSize > 0
  {
    if st.atLineStart && st.braceDepth == 0 then
      Settle(st, Measured(gap, 0, more), indentSize).(pos := st.pos + |gap|, atLineStart := false)
    else
      st.(pos := st.pos + |gap|, atLineStart := st.atLineStart || '\n' in gap)
  }

  lemma {:induction false} GapIsRead(s: string, indentSize: nat, st: LexState, gap: string)
    requires indentSize > 0 && GapText(s, st.pos, gap)
    ensures st.pos <= |s|
    ensures (if st.atLineStart && st.braceDepth == 0 then LineStart(s, indentSize, st) else Skipped(s, st))
         == Behind(st, gap, st.pos + |gap| < |s|, indentSize)
  {
    hide LineStart, SkipEnd, Settle, Measured, CommentEnd;
    if st.atLineStart && st.braceDepth == 0 {
      LineStartInGap(s, indentSize, st, gap);
    } else {
      GapIsSkipped(s, st.pos, st.pos + |gap|);
    }
  }

  lemma {:induction false} RemainsGap(s: string, i: nat, gap: string, ts: seq<Token>, gaps: seq<string>)
    requires Remains(s, i, gap, ts, gaps)
    ensures GapText(s, i, gap) && (ts != [] <==> i + |gap| < |s|)
  {
    hide Spelling, Printable, IsSpace, CommentEnd;
    RemainsStep(s, i, gap, ts, gaps);
  }

  /** The state behind the token that follows the gap. */
  function BehindToken(st: LexState, gap: string, t: Token, indentSize: nat): LexState
    requires indentSize > 0
  {
    var st1 := Behind(st, gap, true, indentSize);
    Put(st1, Piece(st1.pos + |Spelling(t)|, [t], 0, BraceChange(t.kind)))
  }

  /** One call of scanToken, exactly: the layout tokens of the gap, and the token. */
  lemma {:induction false} TokenIsRead(
    s: string, indentSize: nat, st: LexState, gap: string, ts: seq<Token>, gaps: seq<string>)
    requires indentSize > 0 && Remains(s, st.pos, gap, ts, gaps) && ts != []
    ensures st.pos < |s| && |gaps| == |ts|
    ensures ScanToken(s, indentSize, st) == BehindToken(st, gap, ts[0], indentSize)
    ensures Remains(s, BehindToken(st, gap, ts[0], indentSize).pos, gaps[0], ts[1..], gaps[1..])
  {
    hide Remains, Spelling, Printable, Skipped, LexemeAt, LineStart, BraceChange, Settle, Measured, IsSpace, GapText;
    RemainsStep(s, st.pos, gap, ts, gaps);
    RemainsGap(s, st.pos, gap, ts, gaps);
    GapIsRead(s, indentSize, st, gap);
    var st1 := if st.atLineStart && st.braceDepth == 0 then LineStart(s, indentSize, st) else Skipped(s, st);
    TokenIsScanned(s, indentSize, st, st1, ts[0]);
  }

  lemma {:induction false} EndIsRead(s: string, indentSize: nat, st: LexState, gap: string, gaps: seq<string>)
    requires indentSize > 0 && Remains(s, st.pos, gap, [], gaps) && st.pos < |s|
    ensures ScanToken(s, indentSize, st) == Behind(st, gap, false, indentSize)
    ensures Behind(st, gap, false, indentSize).pos == |s|
  {
    hide Remains, Skipped, LexemeAt, LineStart, Settle, Measured, GapText;
    RemainsStep(s, st.pos, gap, [], gaps);
    RemainsGap(s, st.pos, gap, [], gaps);
    GapIsRead(s, indentSize, st, gap);
  }

  /** Where the indentation is not seen: inside of braces, or behind a token on the same line, a gap emits nothing,
      however far the next line is indented, because skipWhitespace consumes it; the start of a line is noted only for
      the gap behind the next token. */
  lemma {:induction false} IndentationIsSkipped(
    s: string, indentSize: nat, st: LexState, gap: string, ts: seq<Token>, gaps: seq<string>)
    requires indentSize > 0 && Remains(s, st.pos, gap, ts, gaps) && ts != []
    requires !(st.atLineStart && st.braceDepth == 0)
    ensures st.pos < |s|
    ensures ScanToken(s, indentSize, st)
         == Put(st, Piece(st.pos + |gap| + |Spelling(ts[0])|, [ts[0]], 0, BraceChange(ts[0].kind)))
            .(atLineStart := st.atLineStart || '\n' in gap)
  {
    hide Remains, Spelling, ScanToken, BraceChange;
    TokenIsRead(s, indentSize, st, gap, ts, gaps);
  }

  /** Where it is seen: at a start of a line outside of braces, the width of the last line of spaces becomes the
      level. */
  lemma {:induction false} IndentationIsSeen(
    s: string, indentSize: nat, st: LexState, gap: string, ts: seq<Token>, gaps: seq<string>)
    requires indentSize > 0 && Remains(s, st.pos, gap, ts, gaps) && ts != []
    requires st.atLineStart && st.braceDepth == 0 && SpacesAndBreaks(gap)
    ensures st.pos < |s|
    ensures ScanToken(s, indentSize, st)
         == Put(st.WithLevel(LastLevel(gap, indentSize)),
                Piece(st.pos + |gap| + |Spelling(ts[0])|, [ts[0]], 0, BraceChange(ts[0].kind)))
            .(atLineStart := false)
  {
    hide Remains, Spelling, ScanToken, BraceChange, Settle, Measured, LastLevel, SpacesAndBreaks;
    TokenIsRead(s, indentSize, st, gap, ts, gaps);
    SpacesAreMeasured(gap, st, indentSize);
  }

  // Whole texts

  /** What the lexer makes of tokens with gaps, without looking at the text. It stops at the error limit. */
  function Read(st: LexState, gap: string, ts: seq<Token>, gaps: seq<string>, indentSize: nat): LexState
    requires indentSize > 0 && |ts| == |gaps|
    decreases |ts|
  {
    if st.errors >= MAX_ERRORS || (gap == "" && ts == []) then st
    else if ts == [] then Behind(st, gap, false, indentSize)
    else Read(BehindToken(st, gap, ts[0], indentSize), gaps[0], ts[1..], gaps[1..], indentSize)
  }

  lemma {:induction false} RestIsRead(
    s: string, indentSize: nat, st: LexState, gap: string, ts: seq<Token>, gaps: seq<string>)
    requires indentSize > 0 && Remains(s, st.pos, gap, ts, gaps)
    ensures st.pos <= |s| && |ts| == |gaps|
    ensures Scan(s, indentSize, st) == Read(st, gap, ts, gaps, indentSize)
    decreases |ts|
  {
    hide Remains, ScanToken, Behind, BehindToken, GapText;
    RemainsStep(s, st.pos, gap, ts, gaps);
    RemainsGap(s, st.pos, gap, ts, gaps);
    GapBounds(s, st.pos, gap);
    if ts != [] {
      TokenIsRead(s, indentSize, st, gap, ts, gaps);
      RestIsRead(s, indentSize, BehindToken(st, gap, ts[0], indentSize), gaps[0], ts[1..], gaps[1..]);
    } else if st.pos < |s| {
      EndIsRead(s, indentSize, st, gap, gaps);
      assert Scan(s, indentSize, Behind(st, gap, false, indentSize)) == Behind(st, gap, false, indentSize);
    }
  }

  lemma {:induction false} GapBounds(s: string, i: nat, gap: string)
    requires GapText(s, i, gap)
    ensures i + |gap| <= |s|
  {
  }

  /** Lexing a text is reading its tokens and gaps: for every list of printable tokens and all white space. */
  lemma {:induction false} TextIsRead(ts: seq<Token>, gaps: seq<string>, indentSize: nat)
    requires indentSize > 0 && |ts| == |gaps| && AllPrintable(ts) && AreGaps(gaps)
    ensures Scan(RenderWith(ts, gaps), indentSize, Start()) == Read(Start(), "", ts, gaps, indentSize)
  {
    hide RenderWith, Remains, AllPrintable, AreGaps, Scan, Read;
    StartRemains(ts, gaps);
    RestIsRead(RenderWith(ts, gaps), indentSize, Start(), "", ts, gaps);
  }

  // Which gaps are measured

  /** The gap in front of token k; the text begins without one. */
  function GapBefore(gaps: seq<string>, k: nat): string
    requires k <= |gaps|
  {
    if k == 0 then "" else gaps[k - 1]
  }

  /** How many braces are open in front of token k. */
  function DepthBefore(ts: seq<Token>, k: nat): int
    requires k <= |ts|
  {
    if k == 0 then 0 else DepthBefore(ts, k - 1) + BraceChange(ts[k - 1].kind)
  }

  /** The state in front of the gap before token k. */
  function Before(ts: seq<Token>, gaps: seq<string>, k: nat, indentSize: nat): LexState
    requires k <= |ts| == |gaps| && indentSize > 0
  {
    if k == 0 then Start()
    else BehindToken(Before(ts, gaps, k - 1, indentSize), GapBefore(gaps, k - 1), ts[k - 1], indentSize)
  }

  lemma {:induction false} ReadReaches(ts: seq<Token>, gaps: seq<string>, k: nat, indentSize: nat)
    requires k <= |ts| == |gaps| && indentSize > 0
    requires forall j | 0 <= j < k :: Before(ts, gaps, j, indentSize).errors < MAX_ERRORS
    ensures Read(Start(), "", ts, gaps, indentSize)
         == Read(Before(ts, gaps, k, indentSize), GapBefore(gaps, k), ts[k..], gaps[k..], indentSize)
  {
    hide BehindToken, Behind;
    if k == 0 {
      assert ts[0..] == ts && gaps[0..] == gaps;
    } else {
      ReadReaches(ts, gaps, k - 1, indentSize);
      assert ts[k - 1..][1..] == ts[k..] && gaps[k - 1..][1..] == gaps[k..] && ts[k - 1..] != [];
      assert ts[k - 1..][0] == ts[k - 1] && gaps[k - 1..][0] == gaps[k - 1];
    }
  }

  /** Whether a line start is noted in front of the gap before token k: at the start of the text it is, a line break
      in a gap that is not measured notes one for the next gap, and a gap that is measured uses it up. */
  predicate Noted(ts: seq<Token>, gaps: seq<string>, k: nat)
    requires k <= |ts| == |gaps|
    decreases k
  {
    k == 0
    || (Noted(ts, gaps, k - 1) && DepthBefore(ts, k - 1) != 0)
    || (!Noted(ts, gaps, k - 1) && '\n' in GapBefore(gaps, k - 1))
  }

  /** The gap before token k is measured: a line start was noted, and no brace is open. */
  predicate IsMeasured(ts: seq<Token>, gaps: seq<string>, k: nat)
    requires k <= |ts| == |gaps|
  {
    Noted(ts, gaps, k) && DepthBefore(ts, k) == 0
  }

  /** Token j is the first of the text, or a line break stands in the gap before the token in front of it, which is not
      measured itself; and no gap is measured from that of token j up to that of token k. */
  predicate NotedSince(ts: seq<Token>, gaps: seq<string>, j: nat, k: nat)
    requires j <= k <= |ts| == |gaps|
  {
    && (j == 0 || ('\n' in GapBefore(gaps, j - 1) && !IsMeasured(ts, gaps, j - 1)))
    && forall i | j <= i < k :: !IsMeasured(ts, gaps, i)
  }

  lemma {:induction false} NotedFrom(ts: seq<Token>, gaps: seq<string>, k: nat)
    requires k <= |ts| == |gaps|
    ensures Noted(ts, gaps, k) <==> exists j | 0 <= j <= k :: NotedSince(ts, gaps, j, k)
  {
    hide GapBefore, DepthBefore;
    if k == 0 {
      assert NotedSince(ts, gaps, 0, 0);
    } else {
      NotedFrom(ts, gaps, k - 1);
      if j :| 0 <= j <= k && NotedSince(ts, gaps, j, k) {
        assert j < k ==> NotedSince(ts, gaps, j, k - 1) && !IsMeasured(ts, gaps, k - 1);
        assert Noted(ts, gaps, k);
      }
      if Noted(ts, gaps, k) {
        if Noted(ts, gaps, k - 1) {
          var j :| 0 <= j <= k - 1 && NotedSince(ts, gaps, j, k - 1);
          assert NotedSince(ts, gaps, j, k);
        } else {
          assert NotedSince(ts, gaps, k, k);
        }
      }
    }
  }

  lemma {:induction false} NoteIsKept(ts: seq<Token>, gaps: seq<string>, k: nat, indentSize: nat)
    requires k <= |ts| == |gaps| && indentSize > 0
    ensures var st := Before(ts, gaps, k, indentSize);
            st.braceDepth == DepthBefore(ts, k) && st.atLineStart == Noted(ts, gaps, k)
  {
    hide Settle, Measured, Spelling, BraceChange, BehindToken;
    if k > 0 {
      NoteIsKept(ts, gaps, k - 1, indentSize);
      BehindKeeps(Before(ts, gaps, k - 1, indentSize), GapBefore(gaps, k - 1), ts[k - 1], indentSize);
    }
  }

  lemma {:induction false} BehindKeeps(st: LexState, gap: string, t: Token, indentSize: nat)
    requires indentSize > 0
    ensures var r := BehindToken(st, gap, t, indentSize);
            && r.braceDepth == st.braceDepth + BraceChange(t.kind)
            && r.atLineStart == (!(st.atLineStart && st.braceDepth == 0) && (st.atLineStart || '\n' in gap))
  {
    hide Measured, Spelling, BraceChange;
    SettleKeepsDepth(st, Measured(gap, 0, true), indentSize);
  }

  lemma {:induction false} SettleKeepsDepth(st: LexState, runs: seq<string>, indentSize: nat)
    requires indentSize > 0
    ensures Settle(st, runs, indentSize).braceDepth == st.braceDepth
    decreases |runs|
  {
    hide Width, Mixed;
    if runs != [] {
      SettleKeepsDepth(SettleOne(st, runs[0], indentSize), runs[1..], indentSize);
    }
  }

  /** Exactly which gaps are measured, for every text, from its line breaks and braces alone. */
  lemma {:induction false} MeasuredExactly(ts: seq<Token>, gaps: seq<string>, k: nat, indentSize: nat)
    requires k <= |ts| == |gaps| && indentSize > 0
    ensures var st := Before(ts, gaps, k, indentSize);
            (st.atLineStart && st.braceDepth == 0)
            <==> (DepthBefore(ts, k) == 0 && exists j | 0 <= j <= k :: NotedSince(ts, gaps, j, k))
  {
    hide Before, DepthBefore, NotedSince;
    NoteIsKept(ts, gaps, k, indentSize);
    NotedFrom(ts, gaps, k);
  }

  // What is kept

  predicate IsLayout(t: Token) {
    t.kind == Indent || t.kind == Dedent
  }

  /** The tokens without indents and dedents. */
  function Erase(ts: seq<Token>): seq<Token> {
    if ts == [] then []
    else Erase(ts[..|ts| - 1]) + if IsLayout(ts[|ts| - 1]) then [] else [ts[|ts| - 1]]
  }

  lemma {:induction false} EraseOne(ts: seq<Token>, t: Token)
    ensures Erase(ts + [t]) == Erase(ts) + if IsLayout(t) then [] else [t]
  {
    assert (ts + [t])[..|ts|] == ts;
  }

  lemma {:induction false} EraseCopies(ts: seq<Token>, n: nat, t: Token)
    requires IsLayout(t)
    ensures Erase(ts + Copies(n, t)) == Erase(ts)
    decreases n
  {
    hide Erase;
    if n == 0 {
      assert ts + Copies(n, t) == ts;
    } else {
      EraseCopies(ts, n - 1, t);
      EraseOne(ts + Copies(n - 1, t), t);
      assert ts + Copies(n - 1, t) + [t] == ts + Copies(n, t);
    }
  }

  lemma {:induction false} LevelKeepsTokens(st: LexState, level: nat)
    ensures Erase(st.WithLevel(level).out) == Erase(st.out)
  {
    hide Erase;
    EraseCopies(st.out, if level > st.indentLevel then level - st.indentLevel else 0, INDENT);
    EraseCopies(st.out, if level > st.indentLevel then 0 else st.indentLevel - level, DEDENT);
  }

  lemma {:induction false} SettleKeepsTokens(st: LexState, runs: seq<string>, indentSize: nat)
    requires indentSize > 0
    ensures var r := Settle(st, runs, indentSize);
            Erase(r.out) == Erase(st.out) && r.errors >= st.errors
    decreases |runs|
  {
    hide Erase, Width;
    if runs != [] {
      LevelKeepsTokens(st, Width(runs[0], indentSize) / indentSize);
      SettleKeepsTokens(SettleOne(st, runs[0], indentSize), runs[1..], indentSize);
    }
  }

  lemma {:induction false} PrintableIsNoLayout(t: Token)
    requires Printable(t)
    ensures !IsLayout(t)
  {
    hide IsWord, IsWhole, IsFraction;
  }

  lemma {:induction false} TokenKeepsTokens(st: LexState, gap: string, t: Token, indentSize: nat)
    requires indentSize > 0 && Printable(t)
    ensures var r := BehindToken(st, gap, t, indentSize);
            Erase(r.out) == Erase(st.out) + [t] && r.errors >= st.errors
  {
    hide Erase, Printable, Settle, Measured, Spelling, BraceChange;
    SettleKeepsTokens(st, Measured(gap, 0, true), indentSize);
    PrintableIsNoLayout(t);
    EraseOne(Behind(st, gap, true, indentSize).out, t);
  }

  lemma {:induction false} EndKeepsTokens(st: LexState, gap: string, indentSize: nat)
    requires indentSize > 0
    ensures var r := Behind(st, gap, false, indentSize);
            Erase(r.out) == Erase(st.out) + [] && r.errors >= st.errors
  {
    hide Erase, Settle, Measured;
    SettleKeepsTokens(st, Measured(gap, 0, false), indentSize);
  }

  lemma {:induction false} ReadKeepsTokens(
    st: LexState, gap: string, ts: seq<Token>, gaps: seq<string>, indentSize: nat)
    requires indentSize > 0 && |ts| == |gaps| && AllPrintable(ts)
    ensures var r := Read(st, gap, ts, gaps, indentSize);
            r.errors >= st.errors && (r.errors < MAX_ERRORS ==> Erase(r.out) == Erase(st.out) + ts)
    decreases |ts|
  {
    hide Erase, Printable, Behind, BehindToken;
    if ts == [] {
      assert Erase(st.out) + [] == Erase(st.out);
      EndKeepsTokens(st, gap, indentSize);
    } else {
      assert ts[0] in ts;
      TokenKeepsTokens(st, gap, ts[0], indentSize);
      forall t | t in ts[1..] ensures t in ts {
      }
      ReadKeepsTokens(BehindToken(st, gap, ts[0], indentSize), gaps[0], ts[1..], gaps[1..], indentSize);
      assert Erase(st.out) + [ts[0]] + ts[1..] == Erase(st.out) + ts;
    }
  }

  /** Whatever white space stands between the tokens, line breaks and indentation included: apart from indents and
      dedents, lexing gives back the list and the end marker, unless a hundred lines mix spaces and tabs. */
  lemma {:induction false} LayoutKeepsTokens(ts: seq<Token>, gaps: seq<string>, indentSize: nat)
    requires indentSize > 0 && |ts| == |gaps| && AllPrintable(ts) && AreGaps(gaps)
    ensures Scan(RenderWith(ts, gaps), indentSize, Start()).errors < MAX_ERRORS ==>
              Erase(Tokenize(RenderWith(ts, gaps), indentSize)) == ts + [END]
    ensures NoTabs(gaps) ==> Scan(RenderWith(ts, gaps), indentSize, Start()).errors == 0
  {
    hide RenderWith, Scan, Erase, AllPrintable, AreGaps, Read, NoTabs;
    TextIsRead(ts, gaps, indentSize);
    ReadKeepsTokens(Start(), "", ts, gaps, indentSize);
    var r := Read(Start(), "", ts, gaps, indentSize);
    NothingErased();
    assert [] + ts == ts;
    EraseCopies(r.out, r.indentLevel, DEDENT);
    EraseOne(r.out + Copies(r.indentLevel, DEDENT), END);
    if NoTabs(gaps) {
      NoTabsNoErrors(Start(), "", ts, gaps, indentSize);
    }
  }

  lemma {:induction false} NothingErased()
    ensures Erase([]) == []
  {
  }

  ghost predicate NoTabs(gaps: seq<string>) {
    forall g | g in gaps :: '\t' !in g
  }

  lemma {:induction false} MeasuredWithoutTabs(gap: string, i: nat, more: bool)
    requires i <= |gap| && '\t' !in gap
    ensures forall run | run in Measured(gap, i, more) :: !Mixed(run)
    decreases |gap| - i
  {
    hide RunEnd;
    var a := RunEnd(gap, i, Indentation);
    var b := RunEnd(gap, a, Blanks);
    assert '\t' !in gap[i..a];
    if b < |gap| {
      MeasuredWithoutTabs(gap, b + 1, more);
    }
  }

  lemma {:induction false} SettleWithoutErrors(st: LexState, runs: seq<string>, indentSize: nat)
    requires indentSize > 0 && forall run | run in runs :: !Mixed(run)
    ensures Settle(st, runs, indentSize).errors == st.errors
    decreases |runs|
  {
    hide Width, Mixed;
    if runs != [] {
      assert runs[0] in runs;
      forall run | run in runs[1..] ensures run in runs {
      }
      SettleWithoutErrors(SettleOne(st, runs[0], indentSize), runs[1..], indentSize);
    }
  }

  lemma {:induction false} NoTabsNoErrors(
    st: LexState, gap: string, ts: seq<Token>, gaps: seq<string>, indentSize: nat)
    requires indentSize > 0 && |ts| == |gaps| && '\t' !in gap && NoTabs(gaps)
    ensures Read(st, gap, ts, gaps, indentSize).errors == st.errors
    decreases |ts|
  {
    hide Settle, Measured, Spelling, BraceChange, NoTabs;
    MeasuredWithoutTabs(gap, 0, ts != []);
    SettleWithoutErrors(st, Measured(gap, 0, ts != []), indentSize);
    if ts != [] {
      NoTabsTail(gaps);
      NoTabsNoErrors(BehindToken(st, gap, ts[0], indentSize), gaps[0], ts[1..], gaps[1..], indentSize);
    }
  }

  lemma {:induction false} NoTabsTail(gaps: seq<string>)
    requires NoTabs(gaps) && gaps != []
    ensures '\t' !in gaps[0] && NoTabs(gaps[1..])
  {
    assert gaps[0] in gaps;
    forall g | g in gaps[1..] ensures g in gaps {
    }
  }

  // Texts without layout tokens

  /** A run that asks for level 0. */
  predicate Narrow(run: string, indentSize: nat) {
    '\t' !in run && |run| < indentSize
  }

  /** Every gap that is measured asks for level 0. A gap is measured if the one before it had a line break that was
      skipped, or at the start of the text, and only outside of braces. */
  predicate Quiet(lineStart: bool, depth: int, gap: string, ts: seq<Token>, gaps: seq<string>, indentSize: nat)
    requires |ts| == |gaps|
    decreases |ts|
  {
    var measured := lineStart && depth == 0;
    && (measured ==> forall run | run in Measured(gap, 0, ts != []) :: Narrow(run, indentSize))
    && (ts != [] ==>
          Quiet(!measured && (lineStart || '\n' in gap), depth + BraceChange(ts[0].kind), gaps[0], ts[1..], gaps[1..],
                indentSize))
  }

  lemma {:induction false} WidthOf(run: string, indentSize: nat)
    requires indentSize > 0 && forall c | c in run :: c == ' ' || c == '\t'
    ensures Narrow(run, indentSize) <==> !Mixed(run) && Width(run, indentSize) / indentSize == 0
  {
    if '\t' in run {
      TabIsWide(run, indentSize);
    } else {
      forall j | 0 <= j < |run| ensures run[j] == ' ' {
        assert run[j] in run;
      }
      WithoutTabs(run, indentSize);
    }
    SmallQuotient(Width(run, indentSize), indentSize);
  }

  lemma {:induction false} SmallQuotient(n: nat, d: nat)
    requires d > 0
    ensures n / d == 0 <==> n < d
  {
  }

  lemma {:induction false} TabIsWide(run: string, indentSize: nat)
    requires '\t' in run
    ensures Width(run, indentSize) >= indentSize
    decreases |run|
  {
    if run[|run| - 1] != '\t' {
      assert run == run[..|run| - 1] + [run[|run| - 1]];
      TabIsWide(run[..|run| - 1], indentSize);
    }
  }

  lemma {:induction false} MeasuredRuns(gap: string, i: nat, more: bool)
    requires i <= |gap|
    ensures forall run, c | run in Measured(gap, i, more) && c in run :: c == ' ' || c == '\t'
    decreases |gap| - i
  {
    RunChars(gap, i);
    hide RunEnd;
    var a := RunEnd(gap, i, Indentation);
    var b := RunEnd(gap, a, Blanks);
    if b < |gap| {
      MeasuredRuns(gap, b + 1, more);
    }
  }

  lemma {:induction false} RunChars(gap: string, i: nat)
    requires i <= |gap|
    ensures forall c | c in gap[i..RunEnd(gap, i, Indentation)] :: c == ' ' || c == '\t'
    decreases |gap| - i
  {
    if i < |gap| && InClass(gap[i], Indentation) {
      RunChars(gap, i + 1);
      var a := RunEnd(gap, i, Indentation);
      assert gap[i..a] == [gap[i]] + gap[i + 1..a];
    }
  }

  ghost predicate Runs(runs: seq<string>) {
    forall run, c | run in runs && c in run :: c == ' ' || c == '\t'
  }

  /** From level 0, settling narrow runs does nothing, and any other run leaves an indent or a report. */
  lemma {:induction false} SettleNarrow(st: LexState, runs: seq<string>, indentSize: nat)
    requires indentSize > 0 && st.indentLevel == 0 && Runs(runs)
    ensures var r := Settle(st, runs, indentSize);
            && r.errors >= st.errors && |r.out| >= |st.out|
            && if forall run | run in runs :: Narrow(run, indentSize) then r == st
               else r.errors > st.errors || |r.out| > |st.out|
    decreases |runs|
  {
    hide Width, Narrow, Mixed;
    if runs != [] {
      assert runs[0] in runs;
      WidthOf(runs[0], indentSize);
      forall run | run in runs[1..] ensures run in runs {
      }
      var st1 := SettleOne(st, runs[0], indentSize);
      if Narrow(runs[0], indentSize) {
        assert st.out + Copies(0, DEDENT) == st.out;
        SettleNarrow(st, runs[1..], indentSize);
        assert runs == [runs[0]] + runs[1..];
      } else {
        SettleGrows(st1, runs[1..], indentSize);
      }
    }
  }

  lemma {:induction false} SettleGrows(st: LexState, runs: seq<string>, indentSize: nat)
    requires indentSize > 0
    ensures var r := Settle(st, runs, indentSize); r.errors >= st.errors && |r.out| >= |st.out|
    decreases |runs|
  {
    hide Width, Mixed;
    if runs != [] {
      SettleGrows(SettleOne(st, runs[0], indentSize), runs[1..], indentSize);
    }
  }

  lemma {:induction false} ReadGrows(st: LexState, gap: string, ts: seq<Token>, gaps: seq<string>, indentSize: nat)
    requires indentSize > 0 && |ts| == |gaps|
    ensures var r := Read(st, gap, ts, gaps, indentSize);
            r.errors >= st.errors && (r.errors == 0 ==> |r.out| >= |st.out| + |ts|)
    decreases |ts|
  {
    hide Settle, Measured, Spelling, BraceChange;
    SettleGrows(st, Measured(gap, 0, ts != []), indentSize);
    if ts != [] && st.errors < MAX_ERRORS {
      ReadGrows(BehindToken(st, gap, ts[0], indentSize), gaps[0], ts[1..], gaps[1..], indentSize);
    }
  }

  lemma {:induction false} QuietIsRead(st: LexState, gap: string, ts: seq<Token>, gaps: seq<string>, indentSize: nat)
    requires indentSize > 0 && |ts| == |gaps| && st.indentLevel == 0 && st.errors == 0
    ensures var r := Read(st, gap, ts, gaps, indentSize);
            if Quiet(st.atLineStart, st.braceDepth, gap, ts, gaps, indentSize) then
              r.errors == 0 && r.indentLevel == 0 && r.out == st.out + ts
            else r.errors > 0 || |r.out| > |st.out| + |ts|
    decreases |ts|
  {
    hide Settle, Measured, Spelling, BraceChange, Narrow;
    MeasuredRuns(gap, 0, ts != []);
    assert Runs(Measured(gap, 0, ts != []));
    SettleNarrow(st, Measured(gap, 0, ts != []), indentSize);
    assert st.out + [] == st.out;
    if gap == "" && ts == [] {
      NothingMeasured(gap);
    }
    if ts != [] {
      var st1 := BehindToken(st, gap, ts[0], indentSize);
      var measured := st.atLineStart && st.braceDepth == 0;
      ReadGrows(st1, gaps[0], ts[1..], gaps[1..], indentSize);
      if !measured || forall run | run in Measured(gap, 0, true) :: Narrow(run, indentSize) {
        QuietIsRead(st1, gaps[0], ts[1..], gaps[1..], indentSize);
        assert st.out + [ts[0]] + ts[1..] == st.out + ts;
      }
    }
  }

  lemma {:induction false} NothingMeasured(gap: string)
    requires gap == ""
    ensures Measured(gap, 0, false) == []
  {
  }

  /** Exactly when lexing gives back the list itself, without a layout token and without an error. */
  lemma {:induction false} QuietTexts(ts: seq<Token>, gaps: seq<string>, indentSize: nat)
    requires indentSize > 0 && |ts| == |gaps| && AllPrintable(ts) && AreGaps(gaps)
    ensures Tokenize(RenderWith(ts, gaps), indentSize) == ts + [END]
              && Scan(RenderWith(ts, gaps), indentSize, Start()).errors == 0
       <==> Quiet(true, 0, "", ts, gaps, indentSize)
  {
    hide RenderWith, Scan, AllPrintable, AreGaps, Read, Quiet;
    TextIsRead(ts, gaps, indentSize);
    QuietIsRead(Start(), "", ts, gaps, indentSize);
    assert [] + ts == ts;
    assert ts + Copies(0, DEDENT) == ts;
  }

  /** Texts on one line are quiet. */
  lemma {:induction false} OneLineIsQuiet(
    depth: int, gap: string, ts: seq<Token>, gaps: seq<string>, indentSize: nat)
    requires |ts| == |gaps| && OnOneLine(gaps) && '\n' !in gap
    ensures Quiet(false, depth, gap, ts, gaps, indentSize)
    decreases |ts|
  {
    hide Measured, BraceChange, OnOneLine;
    if ts != [] {
      OneLineTail(gaps);
      OneLineIsQuiet(depth + BraceChange(ts[0].kind), gaps[0], ts[1..], gaps[1..], indentSize);
    }
  }

  lemma {:induction false} FirstIsQuiet(ts: seq<Token>, gaps: seq<string>, indentSize: nat)
    requires indentSize > 0 && |ts| == |gaps| && OnOneLine(gaps)
    ensures Quiet(true, 0, "", ts, gaps, indentSize)
  {
    hide BraceChange, OnOneLine;
    assert Measured("", 0, true) == [""] && Measured("", 0, false) == [];
    if ts != [] {
      OneLineTail(gaps);
      OneLineIsQuiet(BraceChange(ts[0].kind), gaps[0], ts[1..], gaps[1..], indentSize);
    }
  }

  // Indentation that is lost, and indentation that is kept

  /** Three tokens, the third on a line of its own, indented at will. */
  function ThreeTokens(first: string, pad: string): seq<string> {
    [first, "\n" + pad, " "]
  }

  /** If the first two stand on one line, the indentation of the third is lost, whatever it is. */
  lemma {:induction false} IndentationIsLost(a: Token, b: Token, c: Token, pad: string, indentSize: nat)
    requires indentSize > 0 && Printable(a) && Printable(b) && Printable(c) && forall x | x in pad :: x == ' '
    ensures Tokenize(RenderWith([a, b, c], ThreeTokens(" ", pad)), indentSize) == [a, b, c, END]
  {
    hide Printable, RenderWith, Tokenize, BraceChange, Scan, Measured;
    var ts, gaps := [a, b, c], ThreeTokens(" ", pad);
    assert ts[1..] == [b, c] && ts[1..][1..] == [c] && ts[1..][1..][1..] == [];
    assert gaps[1..] == ["\n" + pad, " "] && gaps[1..][1..] == [" "] && gaps[1..][1..][1..] == [];
    MeasuredSpaces(" ", 0);
    MeasuredSpaces("", 0);
    assert "" == ""[0..];
    var d1 := BraceChange(a.kind);
    var d2 := d1 + BraceChange(b.kind);
    assert Quiet(true, d2 + BraceChange(c.kind), " ", [], [], indentSize);
    assert Quiet(false, d2, "\n" + pad, [c], [" "], indentSize);
    assert Quiet(false, d1, " ", [b, c], ["\n" + pad, " "], indentSize);
    assert Quiet(true, 0, "", ts, gaps, indentSize);
    QuietTexts(ts, gaps, indentSize);
  }

  function FullWidths(pad: string, indentSize: nat): nat
    requires indentSize > 0
  {
    |pad| / indentSize
  }

  /** If each of the first two has a line of its own, it is kept: one indent for each full width. */
  lemma {:induction false} IndentationIsKept(a: Token, b: Token, c: Token, pad: string, indentSize: nat)
    requires indentSize > 0 && Printable(a) && Printable(b) && Printable(c) && forall x | x in pad :: x == ' '
    requires BraceChange(a.kind) + BraceChange(b.kind) == 0
    ensures var n := FullWidths(pad, indentSize);
            Tokenize(RenderWith([a, b, c], ThreeTokens("\n", pad)), indentSize)
              == [a, b] + Copies(n, INDENT) + [c] + Copies(n, DEDENT) + [END]
  {
    hide Printable, RenderWith, BraceChange, Scan, Measured, Settle, Spelling;
    var ts, gaps := [a, b, c], ThreeTokens("\n", pad);
    var n := FullWidths(pad, indentSize);
    assert ts[1..] == [b, c] && ts[1..][1..] == [c] && ts[1..][1..][1..] == [];
    assert gaps[1..] == ["\n" + pad, " "] && gaps[1..][1..] == [" "] && gaps[1..][1..][1..] == [];
    TextIsRead(ts, gaps, indentSize);
    var st1 := BehindToken(Start(), "", a, indentSize);
    SpacesAreMeasured("", Start(), indentSize);
    LastLineOfPad(pad, indentSize);
    assert st1.out == [a];
    var st2 := BehindToken(st1, "\n", b, indentSize);
    assert st2.out == [a, b] && st2.braceDepth == 0 && st2.atLineStart;
    SpacesAreMeasured("\n" + pad, st2, indentSize);
    var st3 := BehindToken(st2, "\n" + pad, c, indentSize);
    assert st3.out == [a, b] + Copies(n, if n > 0 then INDENT else DEDENT) + [c];
    var r := Read(Start(), "", ts, gaps, indentSize);
    assert r == Read(st1, "\n", [b, c], ["\n" + pad, " "], indentSize)
             == Read(st2, "\n" + pad, [c], [" "], indentSize) == Read(st3, " ", [], [], indentSize);
    assert r.out == st3.out && r.indentLevel == n;
  }

  /** Two tokens on the line before do not always hide it: inside of braces the line start stays noted, and it is still
      noted behind the closing brace, as in the text of an opening brace, then b and a closing brace on the next line,
      then d indented on the third. */
  lemma {:induction false} IndentationBehindBraces(
    a: Token, b: Token, c: Token, d: Token, pad: string, indentSize: nat)
    requires indentSize > 0 && (forall t | t in [a, b, c, d] :: Printable(t)) && forall x | x in pad :: x == ' '
    requires BraceChange(a.kind) == 1 && BraceChange(b.kind) == 0 && BraceChange(c.kind) == -1
    ensures var n := FullWidths(pad, indentSize);
            Tokenize(RenderWith([a, b, c, d], ["\n", " ", "\n" + pad, "\n"]), indentSize)
              == [a, b, c] + Copies(n, INDENT) + [d] + Copies(n, DEDENT) + [END]
  {
    hide Printable, RenderWith, BraceChange, Scan, Measured, Settle, Spelling;
    var ts, gaps := [a, b, c, d], ["\n", " ", "\n" + pad, "\n"];
    var n := FullWidths(pad, indentSize);
    TextIsRead(ts, gaps, indentSize);
    LastLineOfPad(pad, indentSize);
    var st1 := BehindToken(Start(), "", a, indentSize);
    var st2 := BehindToken(st1, "\n", b, indentSize);
    var st3 := BehindToken(st2, " ", c, indentSize);
    BracesKeepTheNote(a, b, c, indentSize);
    SpacesAreMeasured("\n" + pad, st3, indentSize);
    var st4 := BehindToken(st3, "\n" + pad, d, indentSize);
    assert st4.out == [a, b, c] + Copies(n, if n > 0 then INDENT else DEDENT) + [d] && !st4.atLineStart;
    assert ts[1..] == [b, c, d] && ts[1..][1..] == [c, d] && ts[1..][1..][1..] == [d];
    assert ts[1..][1..][1..][1..] == [];
    assert gaps[1..] == [" ", "\n" + pad, "\n"] && gaps[1..][1..] == ["\n" + pad, "\n"];
    assert gaps[1..][1..][1..] == ["\n"] && gaps[1..][1..][1..][1..] == [];
    var r := Read(Start(), "", ts, gaps, indentSize);
    assert r == Read(st1, "\n", [b, c, d], gaps[1..], indentSize)
             == Read(st2, " ", [c, d], gaps[1..][1..], indentSize)
             == Read(st3, "\n" + pad, [d], ["\n"], indentSize) == Read(st4, "\n", [], [], indentSize);
    assert r.out == st4.out && r.indentLevel == n;
  }

  lemma {:induction false} BracesKeepTheNote(a: Token, b: Token, c: Token, indentSize: nat)
    requires indentSize > 0
    requires BraceChange(a.kind) == 1 && BraceChange(b.kind) == 0 && BraceChange(c.kind) == -1
    ensures var st1 := BehindToken(Start(), "", a, indentSize);
            var st2 := BehindToken(st1, "\n", b, indentSize);
            var st3 := BehindToken(st2, " ", c, indentSize);
            && st1.errors == st2.errors == st3.errors == 0
            && st3.out == [a, b, c] && st3.braceDepth == 0 && st3.atLineStart && st3.indentLevel == 0
  {
    hide BraceChange, Measured, Settle, Spelling;
    SpacesAreMeasured("", Start(), indentSize);
    var st1 := BehindToken(Start(), "", a, indentSize);
    assert st1.out == [a] && st1.braceDepth == 1 && !st1.atLineStart && st1.indentLevel == 0 && st1.errors == 0;
    var st2 := BehindToken(st1, "\n", b, indentSize);
    assert st2.out == [a, b] && st2.braceDepth == 1 && st2.atLineStart;
  }

  lemma {:induction false} LastLineOfPad(pad: string, indentSize: nat)
    requires indentSize > 0 && forall x | x in pad :: x == ' '
    ensures LastLevel("\n" + pad, indentSize) == FullWidths(pad, indentSize) && LastLevel("", indentSize) == 0
  {
    assert ("\n" + pad)[1..] == pad && ("\n" + pad)[0] == '\n';
    OneLine(pad);
    assert LastLine("\n" + pad) == LastLine(pad);
  }
}
