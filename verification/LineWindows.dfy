/** Overlapping line windows for files without usable functions (createLineBasedChunks). */
module LineWindows {
  import opened Text

  datatype Window = Window(startLine: nat, endLine: nat, tokens: nat)

  const OVERLAP := 50

  function Max(a: int, b: int): int { if a >= b then a else b }
  function Min(a: int, b: int): int { if a <= b then a else b }

  /** `Math.ceil(a / b)`. */
  function CeilDiv(a: nat, b: nat): (q: nat)
    requires b > 0
    ensures (q - 1) * b < a <= q * b
  {
    var q := (a + b - 1) / b;
    assert a + b - 1 == q * b + (a + b - 1) % b;
    q
  }

  /** The number of windows for a text with this many tokens. */
  function WindowCount(totalTokens: nat, tokenLimit: int): (count: nat)
    ensures count >= 1
  {
    Max(1, CeilDiv(totalTokens, Max(tokenLimit - PROMPT_OVERHEAD, 500)))
  }

  /** The line range of window i when each window advances by `step` in a file of n lines. */
  function WindowRange(n: nat, step: nat, i: nat): (range: (nat, nat))
    ensures 1 <= range.0 && range.1 <= n
  {
    (Max(1, i * step - OVERLAP + 1), Min(n, (i + 1) * step + OVERLAP))
  }

  /** The windows of a file: their count, their ranges and the tokens of each range's text. */
  ghost predicate AreWindows(windows: seq<Window>, lines: seq<string>, count: nat) {
    && |windows| == count >= 1
    && forall i :: 0 <= i < count ==>
        && (windows[i].startLine, windows[i].endLine) == WindowRange(|lines|, CeilDiv(|lines|, count), i)
        && windows[i].tokens == Tokens(Join(Slice(lines, windows[i].startLine, windows[i].endLine)))
  }

  method CreateLineBasedChunks(content: string, tokenLimit: int) returns (windows: seq<Window>)
    ensures AreWindows(windows, Split(content), WindowCount(Tokens(content), tokenLimit))
    ensures forall w :: w in windows ==> Measured(w, Split(content))
  {
    var lines := Split(content);
    var totalTokens := Tokens(content);
    var effectiveLimit := Max(tokenLimit - PROMPT_OVERHEAD, 500);
    var numChunks := Max(1, CeilDiv(totalTokens, effectiveLimit));
    var linesPerChunk := CeilDiv(|lines|, numChunks);
    windows := [];
    for i := 0 to numChunks
      invariant |windows| == i
      invariant forall j :: 0 <= j < i ==>
        && (windows[j].startLine, windows[j].endLine) == WindowRange(|lines|, linesPerChunk, j)
        && windows[j].tokens == Tokens(Join(Slice(lines, windows[j].startLine, windows[j].endLine)))
    {
      var startLine := Max(1, i * linesPerChunk - OVERLAP + 1);
      var endLine := Min(|lines|, (i + 1) * linesPerChunk + OVERLAP);
      var chunkText := Join(Slice(lines, startLine, endLine));
      windows := windows + [Window(startLine, endLine, Tokens(chunkText))];
    }
    WindowsMeasured(windows, lines, numChunks);
  }

  /** A window's tokens are those of its own lines; an empty window has none. */
  ghost predicate Measured(w: Window, lines: seq<string>) {
    if 1 <= w.startLine <= w.endLine <= |lines| then Measures(w.tokens, Span(lines, w.startLine, w.endLine))
    else w.startLine > w.endLine && w.tokens == 0
  }

  lemma WindowsMeasured(windows: seq<Window>, lines: seq<string>, count: nat)
    requires AreWindows(windows, lines, count)
    ensures forall w :: w in windows ==> Measured(w, lines)
  {
    forall i | 0 <= i < |windows| ensures Measured(windows[i], lines) {
      if windows[i].startLine <= windows[i].endLine {
        SliceSpans(lines, windows[i].startLine, windows[i].endLine);
      }
    }
  }

  /** The count is the least that gives each window a share of the tokens within the limit less 2000, or 500. */
  lemma CountByBudget(totalTokens: nat, tokenLimit: int)
    ensures var share := if tokenLimit >= 2500 then tokenLimit - 2000 else 500;
            var count := WindowCount(totalTokens, tokenLimit);
            && count >= 1 && totalTokens <= count * share
            && (count > 1 ==> (count - 1) * share < totalTokens)
  {}

  /**
    Any run a..b of at most 101 consecutive lines lies inside one window; in particular
    every line does.  The window is the one whose own block contains line a + 49.
   */
  lemma RunInOneWindow(windows: seq<Window>, lines: seq<string>, count: nat, a: nat, b: nat)
    requires AreWindows(windows, lines, count)
    requires 1 <= a <= b <= |lines| && b <= a + 100
    ensures exists i :: 0 <= i < |windows| && windows[i].startLine <= a && b <= windows[i].endLine
  {
    var step := CeilDiv(|lines|, count);
    assert step > 0 by { CountReaches(|lines|, count); }
    var i := BlockOf(a + OVERLAP - 1, step, count, |lines|);
    assert WindowRange(|lines|, step, i).0 <= a && b <= WindowRange(|lines|, step, i).1;
  }

  /** The block of `step` lines that holds offset p, or the last one if p is beyond. */
  lemma BlockOf(p: nat, step: nat, count: nat, n: nat) returns (i: nat)
    requires step > 0 && count > 0 && step * count >= n
    ensures i < count && i * step <= p
    ensures p < (i + 1) * step || (i + 1) * step >= n
  {
    i := p / step;
    assert p == i * step + p % step;
    assert (i + 1) * step == i * step + step;
    if i >= count {
      MulMonotone(count - 1, i, step);
      i := count - 1;
    }
  }

  lemma MulMonotone(a: nat, b: nat, c: nat)
    requires a <= b
    ensures a * c <= b * c
  {}

  lemma CountReaches(n: nat, count: nat)
    requires count > 0 && n > 0
    ensures CeilDiv(n, count) > 0 && CeilDiv(n, count) * count >= n
  {}

  ghost predicate Inside(w: Window, a: nat, b: nat) {
    w.startLine <= a && b <= w.endLine
  }

  /**
    101 cannot be raised: a run of 102 lines from `a` on fits no window exactly when a block
    ends 50 lines on, that is, when its two middle lines belong to different blocks.
   */
  lemma LongerRunSplit(windows: seq<Window>, lines: seq<string>, count: nat, a: nat)
    requires AreWindows(windows, lines, count)
    requires 1 <= a && a + 101 <= |lines|
    ensures CeilDiv(|lines|, count) > 0
    ensures (forall i :: 0 <= i < |windows| ==> !Inside(windows[i], a, a + 101)) <==>
            (a + 50) % CeilDiv(|lines|, count) == 0
  {
    var step := CeilDiv(|lines|, count);
    CountReaches(|lines|, count);
    var q, r := (a + 50) / step, (a + 50) % step;
    assert a + 50 == q * step + r;
    if r == 0 {
      forall i | 0 <= i < |windows| ensures !Inside(windows[i], a, a + 101) {
        OutsideBlocks(a, step, q, i);
      }
    } else {
      InsideBlock(a, step, q, r, count, |lines|);
      assert Inside(windows[q], a, a + 101);
    }
  }

  lemma InsideBlock(a: nat, step: nat, q: nat, r: nat, count: nat, n: nat)
    requires a + 50 == q * step + r && 0 < r < step
    requires a + 101 <= n <= count * step
    ensures q < count && q * step - OVERLAP + 1 <= a && a + 101 <= (q + 1) * step + OVERLAP
  {
    assert (q + 1) * step == q * step + step;
    if q >= count {
      MulMonotone(count, q, step);
    }
  }

  lemma OutsideBlocks(a: nat, step: nat, q: nat, i: nat)
    requires step > 0 && a + 50 == q * step
    ensures i * step - OVERLAP + 1 > a || (i + 1) * step + OVERLAP < a + 101
  {
    if i < q {
      MulMonotone(i + 1, q, step);
    } else {
      MulMonotone(q, i, step);
    }
  }

  /** A late window is empty exactly when its start, less the overlap, is past the last line. */
  lemma EmptyWindow(windows: seq<Window>, lines: seq<string>, count: nat, i: nat)
    requires AreWindows(windows, lines, count) && lines != []
    requires i < |windows|
    ensures windows[i].startLine > windows[i].endLine <==> i * CeilDiv(|lines|, count) >= |lines| + 50
  {
    var step := CeilDiv(|lines|, count);
    assert (i + 1) * step == i * step + step;
  }

  /** Some window of a text is empty exactly when its last one is. */
  lemma SomeWindowEmpty(windows: seq<Window>, lines: seq<string>, count: nat)
    requires AreWindows(windows, lines, count) && lines != []
    ensures (exists i :: 0 <= i < |windows| && windows[i].startLine > windows[i].endLine) <==>
            (count - 1) * CeilDiv(|lines|, count) >= |lines| + OVERLAP
  {
    var step := CeilDiv(|lines|, count);
    EmptyWindow(windows, lines, count, count - 1);
    forall i | 0 <= i < |windows| && windows[i].startLine > windows[i].endLine
      ensures (count - 1) * step >= |lines| + OVERLAP
    {
      EmptyWindow(windows, lines, count, i);
      MulMonotone(i, count - 1, step);
    }
  }

  /** One very long line under a small limit is split into 52 windows of which the last is empty. */
  lemma LongLineEmptyWindow(content: string, windows: seq<Window>)
    requires content == seq(104000, _ => 'x')
    requires AreWindows(windows, Split(content), WindowCount(Tokens(content), 2500))
    ensures |windows| == 52 && windows[51].startLine > windows[51].endLine
  {
    SplitPrepend(content, "");
    assert content + "" == content;
    assert |Split(content)| == 1;
    EmptyWindow(windows, Split(content), 52, 51);
  }
}
