/** The chunks of one file under each strategy (generateReviewChunks). */
module ReviewChunks {
  import opened Text
  import opened FunctionScan
  import FunctionGroups
  import LineWindows

  datatype ReviewChunk = ReviewChunk(startLine: nat, endLine: nat, tokens: nat, functions: seq<string>)

  datatype Strategy = WholeFile | FunctionBased | Hybrid | LineBased

  datatype ReviewPlan = ReviewPlan(strategy: Strategy, totalTokens: nat, totalLines: nat, chunks: seq<ReviewChunk>)

  /** Lines a..b are reviewed together, in one chunk. */
  ghost predicate InOneChunk(chunks: seq<ReviewChunk>, a: nat, b: nat) {
    exists k :: 0 <= k < |chunks| && chunks[k].startLine <= a && b <= chunks[k].endLine
  }

  /** Every run of at most 101 of the lines lo..hi is reviewed together. */
  ghost predicate RunsReviewed(chunks: seq<ReviewChunk>, lo: nat, hi: nat) {
    forall a, b :: lo <= a <= b <= hi && b <= a + 2 * LineWindows.OVERLAP ==> InOneChunk(chunks, a, b)
  }

  /**
    What the chunks owe a function: all of it in one chunk, or, when it had to be split,
    every run of at most 101 of its lines.
   */
  ghost predicate Reviewed(chunks: seq<ReviewChunk>, f: Func, limit: int, tokens: nat) {
    if tokens <= limit then InOneChunk(chunks, f.startLine, f.endLine)
    else RunsReviewed(chunks, f.startLine, f.endLine)
  }

  ghost predicate InFile(chunks: seq<ReviewChunk>, n: nat) {
    forall k :: 0 <= k < |chunks| ==> 1 <= chunks[k].startLine && chunks[k].endLine <= n
  }

  function FuncNames(fs: seq<Func>): (names: seq<string>)
    ensures |names| == |fs| && forall i :: 0 <= i < |fs| ==> names[i] == fs[i].name
  {
    seq(|fs|, i requires 0 <= i < |fs| => fs[i].name)
  }

  lemma {:induction false} MemberGroup(groups: seq<seq<Func>>, f: Func) returns (i: nat)
    requires f in FunctionGroups.Flatten(groups)
    ensures i < |groups| && f in groups[i]
  {
    if f in groups[0] {
      i := 0;
    } else {
      i := MemberGroup(groups[1..], f);
      i := i + 1;
    }
  }

  lemma {:induction false} GroupMember(groups: seq<seq<Func>>, i: nat) returns (at: nat)
    requires i < |groups|
    ensures at + |groups[i]| <= |FunctionGroups.Flatten(groups)|
    ensures FunctionGroups.Flatten(groups)[at..at + |groups[i]|] == groups[i]
  {
    if i == 0 {
      at := 0;
    } else {
      var k := GroupMember(groups[1..], i - 1);
      at := k + |groups[0]|;
    }
  }

  /** A window over the lines from `first` on, in the numbering of the whole file. */
  ghost function Shifted(first: nat, w: LineWindows.Window): ReviewChunk
    requires 1 <= first && 1 <= w.startLine
  {
    ReviewChunk(first + w.startLine - 1, first + w.endLine - 1, w.tokens, [])
  }

  ghost predicate AllShifted(first: nat, windows: seq<LineWindows.Window>, chunks: seq<ReviewChunk>) {
    && 1 <= first
    && |chunks| == |windows|
    && forall i :: 0 <= i < |chunks| ==> 1 <= windows[i].startLine && chunks[i] == Shifted(first, windows[i])
  }

  /** The chunks are the windows of a text whose lines are numbered from `first` on. */
  ghost predicate FromWindows(first: nat, content: string, tokenLimit: int, chunks: seq<ReviewChunk>) {
    exists windows ::
      && LineWindows.AreWindows(windows, Split(content), LineWindows.WindowCount(Tokens(content), tokenLimit))
      && AllShifted(first, windows, chunks)
  }

  /** `more` is what chunk c of the grouping turns into. */
  ghost predicate Expands(c: FunctionGroups.Chunk, lines: seq<string>, tokenLimit: int, more: seq<ReviewChunk>) {
    if c.needsLineSplit then
      1 <= c.startLine && FromWindows(c.startLine, Join(Slice(lines, c.startLine, c.endLine)), tokenLimit, more)
    else
      more == [ReviewChunk(c.startLine, c.endLine, c.tokens, FuncNames(c.functions))]
  }

  /** The chunks are the expansions of the groups, in order. */
  ghost predicate ExpandAll(groups: seq<FunctionGroups.Chunk>, lines: seq<string>, tokenLimit: int,
      chunks: seq<ReviewChunk>) {
    if groups == [] then chunks == []
    else
      exists before, more :: chunks == before + more &&
        ExpandAll(groups[..|groups| - 1], lines, tokenLimit, before) &&
        Expands(groups[|groups| - 1], lines, tokenLimit, more)
  }

  /** Some packed (hence smallest) grouping of the functions expands to these chunks. */
  ghost predicate FromGroups(functions: seq<Func>, lines: seq<string>, tokenLimit: int, chunks: seq<ReviewChunk>) {
    exists groups: seq<FunctionGroups.Chunk> ::
      && FunctionGroups.Made(FunctionGroups.FuncTokens(lines), tokenLimit - PROMPT_OVERHEAD, groups, functions)
      && ExpandAll(groups, lines, tokenLimit, chunks)
  }

  /** The windows of some lines, numbered from `first` on. */
  method WindowsFrom(first: nat, content: string, tokenLimit: int) returns (chunks: seq<ReviewChunk>)
    requires 1 <= first
    ensures FromWindows(first, content, tokenLimit, chunks)
  {
    var windows := LineWindows.CreateLineBasedChunks(content, tokenLimit);
    StartsPositive(windows, Split(content), LineWindows.WindowCount(Tokens(content), tokenLimit));
    chunks := ShiftAll(first, windows);
  }

  lemma StartsPositive(windows: seq<LineWindows.Window>, lines: seq<string>, count: nat)
    requires LineWindows.AreWindows(windows, lines, count)
    ensures forall i :: 0 <= i < |windows| ==> 1 <= windows[i].startLine
  {}

  method ShiftAll(first: nat, windows: seq<LineWindows.Window>) returns (chunks: seq<ReviewChunk>)
    requires 1 <= first && forall i :: 0 <= i < |windows| ==> 1 <= windows[i].startLine
    ensures AllShifted(first, windows, chunks)
  {
    chunks := [];
    for i := 0 to |windows|
      invariant |chunks| == i
      invariant forall j :: 0 <= j < i ==> chunks[j] == Shifted(first, windows[j])
    {
      var w := windows[i];
      chunks := chunks + [ReviewChunk(first + w.startLine - 1, first + w.endLine - 1, w.tokens, [])];
    }
  }

  /** One function chunk becomes one review chunk, or the windows of its only function. */
  method Expand(c: FunctionGroups.Chunk, lines: seq<string>, tokenLimit: int) returns (chunks: seq<ReviewChunk>)
    requires 1 <= c.startLine
    ensures Expands(c, lines, tokenLimit, chunks)
  {
    if c.needsLineSplit {
      var funcLines := Slice(lines, c.startLine, c.endLine);
      chunks := WindowsFrom(c.startLine, Join(funcLines), tokenLimit);
    } else {
      chunks := [ReviewChunk(c.startLine, c.endLine, c.tokens, FuncNames(c.functions))];
    }
  }

  lemma ExpandMore(groups: seq<FunctionGroups.Chunk>, i: nat, lines: seq<string>, tokenLimit: int,
      chunks: seq<ReviewChunk>, more: seq<ReviewChunk>)
    requires i < |groups|
    requires ExpandAll(groups[..i], lines, tokenLimit, chunks) && Expands(groups[i], lines, tokenLimit, more)
    ensures ExpandAll(groups[..i + 1], lines, tokenLimit, chunks + more)
  {
    assert groups[..i + 1][..i] == groups[..i];
  }

  /** The windows of some lines stay among them and hold every run of at most 101 of them. */
  lemma WindowsCover(first: nat, text: seq<string>, count: nat, windows: seq<LineWindows.Window>,
      chunks: seq<ReviewChunk>)
    requires text != []
    requires LineWindows.AreWindows(windows, text, count) && AllShifted(first, windows, chunks)
    ensures forall k :: 0 <= k < |chunks| ==> first <= chunks[k].startLine && chunks[k].endLine <= first + |text| - 1
    ensures RunsReviewed(chunks, first, first + |text| - 1)
  {
    forall a, b | first <= a <= b < first + |text| && b <= a + 2 * LineWindows.OVERLAP
      ensures InOneChunk(chunks, a, b) {
      LineWindows.RunInOneWindow(windows, text, count, a - first + 1, b - first + 1);
      var i :| 0 <= i < |windows| && windows[i].startLine <= a - first + 1 && b - first + 1 <= windows[i].endLine;
      assert chunks[i].startLine <= a && b <= chunks[i].endLine;
    }
  }

  /** The same for the windows of joined lines, which are split again. */
  lemma FromWindowsCover(first: nat, text: seq<string>, tokenLimit: int, chunks: seq<ReviewChunk>)
    requires text != [] && forall i :: 0 <= i < |text| ==> '\n' !in text[i]
    requires FromWindows(first, Join(text), tokenLimit, chunks)
    ensures forall k :: 0 <= k < |chunks| ==> first <= chunks[k].startLine && chunks[k].endLine <= first + |text| - 1
    ensures RunsReviewed(chunks, first, first + |text| - 1)
  {
    SplitOfJoin(text);
    var count := LineWindows.WindowCount(Tokens(Join(text)), tokenLimit);
    var windows: seq<LineWindows.Window> :|
      LineWindows.AreWindows(windows, text, count) && AllShifted(first, windows, chunks);
    WindowsCover(first, text, count, windows, chunks);
  }

  /** The chunks of one group stay in its lines and review what it spans. */
  lemma ExpansionCovers(c: FunctionGroups.Chunk, lines: seq<string>, tokenLimit: int, more: seq<ReviewChunk>)
    requires forall i :: 0 <= i < |lines| ==> '\n' !in lines[i]
    requires Expands(c, lines, tokenLimit, more)
    requires 1 <= c.startLine <= c.endLine <= |lines|
    ensures InFile(more, |lines|)
    ensures !c.needsLineSplit ==> InOneChunk(more, c.startLine, c.endLine)
    ensures c.needsLineSplit ==> RunsReviewed(more, c.startLine, c.endLine)
  {
    if c.needsLineSplit {
      SliceLines(lines, c.startLine, c.endLine);
      FromWindowsCover(c.startLine, Slice(lines, c.startLine, c.endLine), tokenLimit, more);
    } else {
      assert more[0].startLine <= c.startLine && c.endLine <= more[0].endLine;
    }
  }

  lemma SliceLines(lines: seq<string>, first: nat, last: nat)
    requires forall i :: 0 <= i < |lines| ==> '\n' !in lines[i]
    requires 1 <= first <= last <= |lines|
    ensures |Slice(lines, first, last)| == last - first + 1
    ensures forall i :: 0 <= i <= last - first ==> '\n' !in Slice(lines, first, last)[i]
  {}

  lemma ReviewedMore(chunks: seq<ReviewChunk>, more: seq<ReviewChunk>, f: Func, limit: int, tokens: nat)
    requires Reviewed(chunks, f, limit, tokens) || Reviewed(more, f, limit, tokens)
    ensures Reviewed(chunks + more, f, limit, tokens)
  {
    forall a: nat, b: nat | InOneChunk(chunks, a, b) || InOneChunk(more, a, b) ensures InOneChunk(chunks + more, a, b) {
      if k :| 0 <= k < |chunks| && chunks[k].startLine <= a && b <= chunks[k].endLine {
        assert (chunks + more)[k] == chunks[k];
      } else {
        var k :| 0 <= k < |more| && more[k].startLine <= a && b <= more[k].endLine;
        assert (chunks + more)[|chunks| + k] == more[k];
      }
    }
  }

  /** The functions of one group lie between its first start and its last end. */
  lemma GroupSpans(groups: seq<seq<Func>>, i: nat, functions: seq<Func>, n: nat)
    requires FunctionGroups.Flatten(groups) == functions && WellPlaced(functions, n)
    requires i < |groups| && groups[i] != []
    ensures 1 <= groups[i][0].startLine <= groups[i][|groups[i]| - 1].endLine <= n
    ensures forall f :: f in groups[i] ==>
              groups[i][0].startLine <= f.startLine && f.endLine <= groups[i][|groups[i]| - 1].endLine
  {
    var at := GroupMember(groups, i);
    var g := groups[i];
    assert forall k :: 0 <= k < |g| ==> g[k] == functions[at + k];
    forall k | 0 <= k < |g| ensures g[0].startLine <= g[k].startLine && g[k].endLine <= g[|g| - 1].endLine {
      assert k == 0 || functions[at].endLine < functions[at + k].startLine;
      assert k == |g| - 1 || functions[at + k].endLine < functions[at + |g| - 1].startLine;
    }
  }

  /** Expanding a chunk reviews each of its functions. */
  lemma GroupReviewed(w: Func -> nat, limit: int, c: FunctionGroups.Chunk, chunks: seq<ReviewChunk>, f: Func)
    requires FunctionGroups.Describes(w, limit, c) && f in c.functions
    requires c.startLine <= f.startLine && f.endLine <= c.endLine
    requires !c.needsLineSplit ==> InOneChunk(chunks, c.startLine, c.endLine)
    requires c.needsLineSplit ==> RunsReviewed(chunks, c.startLine, c.endLine)
    ensures Reviewed(chunks, f, limit, w(f))
    ensures c.needsLineSplit <==> w(f) > limit
  {
    assert c.needsLineSplit <==> FunctionGroups.Oversized(w, limit, f);
    if !c.needsLineSplit {
      var k :| 0 <= k < |chunks| && chunks[k].startLine <= c.startLine && c.endLine <= chunks[k].endLine;
      assert chunks[k].startLine <= f.startLine;
    }
  }

  /** Windows over a whole text stay in it and review every run of at most 101 lines. */
  lemma WindowsReview(content: string, tokenLimit: int, chunks: seq<ReviewChunk>)
    requires FromWindows(1, content, tokenLimit, chunks)
    ensures InFile(chunks, |Split(content)|)
    ensures RunsReviewed(chunks, 1, |Split(content)|)
  {
    JoinOfSplit(content);
    FromWindowsCover(1, Split(content), tokenLimit, chunks);
  }

  method ByFunctions(functions: seq<Func>, lines: seq<string>, tokenLimit: int)
    returns (chunks: seq<ReviewChunk>, needsLineSplit: bool)
    requires WellPlaced(functions, |lines|)
    requires forall i :: 0 <= i < |lines| ==> '\n' !in lines[i]
    ensures FromGroups(functions, lines, tokenLimit, chunks)
    ensures needsLineSplit <==> SomeOver(functions, lines, tokenLimit - PROMPT_OVERHEAD)
  {
    ghost var limit := tokenLimit - PROMPT_OVERHEAD;
    ghost var w := FunctionGroups.FuncTokens(lines);
    var functionChunks := FunctionGroups.GroupFunctionsIntoChunks(functions, lines, tokenLimit);
    assert FunctionGroups.Made(w, limit, functionChunks, functions);
    MadeSpanned(w, limit, functionChunks, functions, |lines|);
    needsLineSplit := exists j :: 0 <= j < |functionChunks| && functionChunks[j].needsLineSplit;
    chunks := ExpandGroups(functionChunks, lines, tokenLimit);
    SplitIffOversized(w, limit, functionChunks, functions);
  }

  method ExpandGroups(groups: seq<FunctionGroups.Chunk>, lines: seq<string>, tokenLimit: int)
    returns (chunks: seq<ReviewChunk>)
    requires Spanned(groups, |lines|)
    ensures ExpandAll(groups, lines, tokenLimit, chunks)
  {
    chunks := [];
    for i := 0 to |groups|
      invariant ExpandAll(groups[..i], lines, tokenLimit, chunks)
    {
      var more := Expand(groups[i], lines, tokenLimit);
      ExpandMore(groups, i, lines, tokenLimit, chunks, more);
      chunks := chunks + more;
    }
    assert groups[..|groups|] == groups;
  }

  lemma SplitIffOversized(w: Func -> nat, limit: int, groups: seq<FunctionGroups.Chunk>, functions: seq<Func>)
    requires FunctionGroups.Made(w, limit, groups, functions)
    ensures (exists j :: 0 <= j < |groups| && groups[j].needsLineSplit) <==>
            (exists f :: f in functions && w(f) > limit)
  {
    var inner := FunctionGroups.GroupsOf(groups);
    if j :| 0 <= j < |groups| && groups[j].needsLineSplit {
      assert FunctionGroups.Describes(w, limit, groups[j]);
      var at := GroupMember(inner, j);
      assert inner[j][0] == functions[at..at + |inner[j]|][0] == functions[at];
    }
    if f :| f in functions && w(f) > limit {
      var j := MemberGroup(inner, f);
      assert FunctionGroups.Describes(w, limit, groups[j]) && FunctionGroups.Oversized(w, limit, f);
    }
  }

  /** Every group lies in the file and its functions lie between its first and last line. */
  ghost predicate Spanned(groups: seq<FunctionGroups.Chunk>, n: nat) {
    forall i :: 0 <= i < |groups| ==>
      && 1 <= groups[i].startLine <= groups[i].endLine <= n
      && forall f :: f in groups[i].functions ==> groups[i].startLine <= f.startLine && f.endLine <= groups[i].endLine
  }

  lemma MadeSpanned(w: Func -> nat, limit: int, groups: seq<FunctionGroups.Chunk>, functions: seq<Func>, n: nat)
    requires FunctionGroups.Made(w, limit, groups, functions) && WellPlaced(functions, n)
    ensures Spanned(groups, n)
  {
    forall i | 0 <= i < |groups|
      ensures 1 <= groups[i].startLine <= groups[i].endLine <= n
      ensures forall f :: f in groups[i].functions ==>
                groups[i].startLine <= f.startLine && f.endLine <= groups[i].endLine
    {
      assert FunctionGroups.Describes(w, limit, groups[i]);
      GroupSpans(FunctionGroups.GroupsOf(groups), i, functions, n);
    }
  }

  /** The chunks before the last group's, and the last group's. */
  lemma SplitLast(groups: seq<FunctionGroups.Chunk>, lines: seq<string>, tokenLimit: int, chunks: seq<ReviewChunk>)
    returns (before: seq<ReviewChunk>, more: seq<ReviewChunk>)
    requires groups != [] && ExpandAll(groups, lines, tokenLimit, chunks)
    ensures chunks == before + more
    ensures ExpandAll(groups[..|groups| - 1], lines, tokenLimit, before)
    ensures Expands(groups[|groups| - 1], lines, tokenLimit, more)
  {
    before, more :| chunks == before + more &&
      ExpandAll(groups[..|groups| - 1], lines, tokenLimit, before) &&
      Expands(groups[|groups| - 1], lines, tokenLimit, more);
  }

  lemma {:induction false} ExpansionsInFile(groups: seq<FunctionGroups.Chunk>, lines: seq<string>, tokenLimit: int,
      chunks: seq<ReviewChunk>)
    requires forall i :: 0 <= i < |lines| ==> '\n' !in lines[i]
    requires Spanned(groups, |lines|) && ExpandAll(groups, lines, tokenLimit, chunks)
    ensures InFile(chunks, |lines|)
  {
    if groups != [] {
      var before, more := SplitLast(groups, lines, tokenLimit, chunks);
      ExpansionsInFile(groups[..|groups| - 1], lines, tokenLimit, before);
      ExpansionCovers(groups[|groups| - 1], lines, tokenLimit, more);
    }
  }

  lemma {:induction false} ExpansionsReview(w: Func -> nat, limit: int, groups: seq<FunctionGroups.Chunk>,
      lines: seq<string>, tokenLimit: int, chunks: seq<ReviewChunk>, i: nat, f: Func)
    requires forall k :: 0 <= k < |lines| ==> '\n' !in lines[k]
    requires Spanned(groups, |lines|) && ExpandAll(groups, lines, tokenLimit, chunks)
    requires i < |groups| && FunctionGroups.Describes(w, limit, groups[i]) && f in groups[i].functions
    ensures Reviewed(chunks, f, limit, w(f))
  {
    var m := |groups| - 1;
    var before, more := SplitLast(groups, lines, tokenLimit, chunks);
    if i == m {
      ExpansionCovers(groups[m], lines, tokenLimit, more);
      GroupReviewed(w, limit, groups[m], more, f);
    } else {
      assert groups[i] == groups[..m][i];
      ExpansionsReview(w, limit, groups[..m], lines, tokenLimit, before, i, f);
    }
    ReviewedMore(before, more, f, limit, w(f));
  }

  /** Chunks made from the groups of well-placed functions stay in the file and review every function. */
  lemma FunctionsReviewed(functions: seq<Func>, lines: seq<string>, tokenLimit: int, chunks: seq<ReviewChunk>)
    requires forall i :: 0 <= i < |lines| ==> '\n' !in lines[i]
    requires WellPlaced(functions, |lines|)
    requires FromGroups(functions, lines, tokenLimit, chunks)
    ensures InFile(chunks, |lines|)
    ensures forall f :: f in functions ==>
              Reviewed(chunks, f, tokenLimit - PROMPT_OVERHEAD, FunctionGroups.FuncTokens(lines)(f))
  {
    var w, limit := FunctionGroups.FuncTokens(lines), tokenLimit - PROMPT_OVERHEAD;
    var groups: seq<FunctionGroups.Chunk> :|
      FunctionGroups.Made(w, limit, groups, functions) && ExpandAll(groups, lines, tokenLimit, chunks);
    var inner := FunctionGroups.GroupsOf(groups);
    MadeSpanned(w, limit, groups, functions, |lines|);
    ExpansionsInFile(groups, lines, tokenLimit, chunks);
    forall f | f in functions ensures Reviewed(chunks, f, limit, w(f)) {
      var j := MemberGroup(inner, f);
      ExpansionsReview(w, limit, groups, lines, tokenLimit, chunks, j, f);
    }
  }

  /** The strategy, and the chunks it makes of the text and its functions. */
  ghost predicate PlanOf(content: string, functions: seq<Func>, tokenLimit: int, plan: ReviewPlan) {
    var lines, limit := Split(content), tokenLimit - PROMPT_OVERHEAD;
    && plan.totalLines == |lines| && plan.totalTokens == Tokens(content)
    && (plan.strategy.WholeFile? <==> Tokens(content) <= limit)
    && (plan.strategy.LineBased? <==> !plan.strategy.WholeFile? && functions == [])
    && (plan.strategy.Hybrid? <==> !plan.strategy.WholeFile? && SomeOver(functions, lines, limit))
    && match plan.strategy
       case WholeFile => plan.chunks == [ReviewChunk(1, plan.totalLines, plan.totalTokens, [])]
       case LineBased => FromWindows(1, content, tokenLimit, plan.chunks)
       case FunctionBased => FromGroups(functions, lines, tokenLimit, plan.chunks)
       case Hybrid => FromGroups(functions, lines, tokenLimit, plan.chunks)
  }

  ghost predicate SomeOver(functions: seq<Func>, lines: seq<string>, limit: int) {
    exists f :: f in functions && FunctionGroups.FuncTokens(lines)(f) > limit
  }

  method GenerateReviewChunks(content: string, functions: seq<Func>, tokenLimit: int) returns (plan: ReviewPlan)
    requires WellPlaced(functions, |Split(content)|)
    ensures PlanOf(content, functions, tokenLimit, plan)
  {
    var lines := Split(content);
    var totalTokens := Tokens(content);
    if totalTokens + PROMPT_OVERHEAD <= tokenLimit {
      var all := ReviewChunk(1, |lines|, totalTokens, []);
      return ReviewPlan(WholeFile, totalTokens, |lines|, [all]);
    }
    if |functions| == 0 {
      var chunks := WindowsFrom(1, content, tokenLimit);
      return ReviewPlan(LineBased, totalTokens, |lines|, chunks);
    }
    var chunks, needsLineSplit := ByFunctions(functions, lines, tokenLimit);
    return ReviewPlan(if needsLineSplit then Hybrid else FunctionBased, totalTokens, |lines|, chunks);
  }

  /**
    Whatever the strategy, the chunks stay in the file and review every function; without
    functions every run of at most 101 lines of the file is reviewed.
   */
  lemma PlanReviews(content: string, functions: seq<Func>, tokenLimit: int, plan: ReviewPlan)
    requires WellPlaced(functions, |Split(content)|) && PlanOf(content, functions, tokenLimit, plan)
    ensures InFile(plan.chunks, |Split(content)|)
    ensures functions == [] ==> RunsReviewed(plan.chunks, 1, |Split(content)|)
    ensures forall f :: f in functions ==>
              Reviewed(plan.chunks, f, tokenLimit - PROMPT_OVERHEAD, FunctionGroups.FuncTokens(Split(content))(f))
  {
    match plan.strategy
    case WholeFile => WholeReviews(plan.chunks, functions, Split(content), tokenLimit - PROMPT_OVERHEAD);
    case LineBased => WindowsReview(content, tokenLimit, plan.chunks);
    case _ => FunctionsReviewed(functions, Split(content), tokenLimit, plan.chunks);
  }

  lemma WholeReviews(chunks: seq<ReviewChunk>, functions: seq<Func>, lines: seq<string>, limit: int)
    requires WellPlaced(functions, |lines|)
    requires |chunks| == 1 && chunks[0].startLine == 1 && chunks[0].endLine == |lines|
    ensures InFile(chunks, |lines|)
    ensures forall a: nat, b: nat :: 1 <= a && b <= |lines| ==> InOneChunk(chunks, a, b)
    ensures forall f :: f in functions ==> Reviewed(chunks, f, limit, FunctionGroups.FuncTokens(lines)(f))
  {
    forall a: nat, b: nat | 1 <= a && b <= |lines| ensures InOneChunk(chunks, a, b) {
      assert chunks[0].startLine <= a && b <= chunks[0].endLine;
    }
  }

  /**
    What a chunk says of itself: with functions, their names and the tokens of the group it came
    from; without, the tokens of its own lines of the file.
   */
  ghost predicate Stated(c: ReviewChunk, lines: seq<string>, tokenLimit: int) {
    if c.functions == [] then
      if 1 <= c.startLine <= c.endLine <= |lines| then Measures(c.tokens, Span(lines, c.startLine, c.endLine))
      else c.startLine > c.endLine && c.tokens == 0
    else
      exists g: FunctionGroups.Chunk, tokens: seq<nat> ::
        IsGroup(c, g) && FunctionGroups.Recorded(g, tokens, lines, tokenLimit)
  }

  ghost predicate IsGroup(c: ReviewChunk, g: FunctionGroups.Chunk) {
    && !g.needsLineSplit && g.functions != []
    && c.startLine == g.functions[0].startLine && c.endLine == g.functions[|g.functions| - 1].endLine
    && c.tokens == g.tokens
    && |c.functions| == |g.functions| && forall i :: 0 <= i < |c.functions| ==> c.functions[i] == g.functions[i].name
  }

  ghost predicate AllStated(chunks: seq<ReviewChunk>, lines: seq<string>, tokenLimit: int) {
    forall k :: 0 <= k < |chunks| ==> Stated(chunks[k], lines, tokenLimit)
  }

  /** Windows over a range of the file's lines are measured on the file. */
  lemma WindowsStated(first: nat, last: nat, lines: seq<string>, tokenLimit: int, chunks: seq<ReviewChunk>)
    requires 1 <= first <= last <= |lines| && forall i :: 0 <= i < |lines| ==> '\n' !in lines[i]
    requires FromWindows(first, Join(Slice(lines, first, last)), tokenLimit, chunks)
    ensures AllStated(chunks, lines, tokenLimit)
  {
    var text := Slice(lines, first, last);
    SliceAt(lines, first, last);
    SplitOfJoin(text);
    var count := LineWindows.WindowCount(Tokens(Join(text)), tokenLimit);
    var windows: seq<LineWindows.Window> :|
      LineWindows.AreWindows(windows, text, count) && AllShifted(first, windows, chunks);
    LineWindows.WindowsMeasured(windows, text, count);
    forall k | 0 <= k < |chunks| ensures Stated(chunks[k], lines, tokenLimit) {
      assert windows[k] in windows;
      WindowStated(first, last, lines, tokenLimit, windows[k]);
    }
  }

  lemma WindowStated(first: nat, last: nat, lines: seq<string>, tokenLimit: int, w: LineWindows.Window)
    requires 1 <= first <= last <= |lines| && 1 <= w.startLine
    requires LineWindows.Measured(w, Slice(lines, first, last))
    ensures Stated(Shifted(first, w), lines, tokenLimit)
  {
    SliceAt(lines, first, last);
    if w.startLine <= w.endLine {
      SpanOfSlice(lines, first, last, w.startLine, w.endLine);
    }
  }

  lemma ExpansionStated(c: FunctionGroups.Chunk, lines: seq<string>, tokenLimit: int, more: seq<ReviewChunk>)
    requires forall i :: 0 <= i < |lines| ==> '\n' !in lines[i]
    requires FunctionGroups.Describes(FunctionGroups.FuncTokens(lines), tokenLimit - PROMPT_OVERHEAD, c)
    requires 1 <= c.startLine <= c.endLine <= |lines| && Expands(c, lines, tokenLimit, more)
    ensures AllStated(more, lines, tokenLimit)
  {
    if c.needsLineSplit {
      WindowsStated(c.startLine, c.endLine, lines, tokenLimit, more);
    } else {
      var tokens := FunctionGroups.DescribedTokens(lines, tokenLimit, c);
      assert IsGroup(more[0], c);
    }
  }

  lemma {:induction false} ExpansionsStated(groups: seq<FunctionGroups.Chunk>, lines: seq<string>, tokenLimit: int,
      chunks: seq<ReviewChunk>)
    requires forall i :: 0 <= i < |lines| ==> '\n' !in lines[i]
    requires forall i :: 0 <= i < |groups| ==>
               FunctionGroups.Describes(FunctionGroups.FuncTokens(lines), tokenLimit - PROMPT_OVERHEAD, groups[i])
    requires Spanned(groups, |lines|) && ExpandAll(groups, lines, tokenLimit, chunks)
    ensures AllStated(chunks, lines, tokenLimit)
  {
    if groups != [] {
      var before, more := SplitLast(groups, lines, tokenLimit, chunks);
      ExpansionsStated(groups[..|groups| - 1], lines, tokenLimit, before);
      ExpansionStated(groups[|groups| - 1], lines, tokenLimit, more);
    }
  }

  /** Whatever the strategy, every chunk of a plan states its names and tokens rightly. */
  lemma PlanStated(content: string, functions: seq<Func>, tokenLimit: int, plan: ReviewPlan)
    requires WellPlaced(functions, |Split(content)|) && PlanOf(content, functions, tokenLimit, plan)
    ensures AllStated(plan.chunks, Split(content), tokenLimit)
  {
    var lines := Split(content);
    match plan.strategy
    case WholeFile =>
      WholeSlice(content);
      SliceSpans(lines, 1, |lines|);
    case LineBased =>
      WholeSlice(content);
      WindowsStated(1, |lines|, lines, tokenLimit, plan.chunks);
    case _ =>
      var w, limit := FunctionGroups.FuncTokens(lines), tokenLimit - PROMPT_OVERHEAD;
      var groups: seq<FunctionGroups.Chunk> :|
        FunctionGroups.Made(w, limit, groups, functions) && ExpandAll(groups, lines, tokenLimit, plan.chunks);
      MadeSpanned(w, limit, groups, functions, |lines|);
      ExpansionsStated(groups, lines, tokenLimit, plan.chunks);
  }

  lemma WholeSlice(content: string)
    ensures Join(Slice(Split(content), 1, |Split(content)|)) == content
  {
    JoinOfSplit(content);
    assert Slice(Split(content), 1, |Split(content)|) == Split(content);
  }

  /** Every line of every detected function is in some chunk. */
  lemma LinesReviewed(content: string, functions: seq<Func>, tokenLimit: int, plan: ReviewPlan, f: Func, line: nat)
    requires WellPlaced(functions, |Split(content)|) && PlanOf(content, functions, tokenLimit, plan)
    requires f in functions && Contains(f, line)
    ensures InOneChunk(plan.chunks, line, line)
  {
    PlanReviews(content, functions, tokenLimit, plan);
    var tokens := FunctionGroups.FuncTokens(Split(content))(f);
    LineReviewed(plan.chunks, f, tokenLimit - PROMPT_OVERHEAD, tokens, line);
  }

  lemma LineReviewed(chunks: seq<ReviewChunk>, f: Func, limit: int, tokens: nat, line: nat)
    requires Reviewed(chunks, f, limit, tokens) && Contains(f, line)
    ensures InOneChunk(chunks, line, line)
  {
    if tokens <= limit {
      var k :| 0 <= k < |chunks| && chunks[k].startLine <= f.startLine && f.endLine <= chunks[k].endLine;
      assert chunks[k].startLine <= line && line <= chunks[k].endLine;
    }
  }

  /**
    A JavaScript or C# file from its scanned lines to its chunks: whatever the strategy, every
    line of every detected function, and every line with a declaration, is in some chunk.
   */
  method ReviewBraced(lang: Lang, content: string, scanned: seq<BraceLine>, tokenLimit: int)
    returns (functions: seq<Func>, plan: ReviewPlan)
    requires |scanned| == |Split(content)|
    ensures IsExtraction(lang, scanned, functions) && PlanOf(content, functions, tokenLimit, plan)
    ensures forall f, line :: f in functions && Contains(f, line) ==> InOneChunk(plan.chunks, line, line)
    ensures forall i :: 0 <= i < |scanned| && scanned[i].declares.Some? ==> InOneChunk(plan.chunks, i + 1, i + 1)
  {
    functions := ExtractBraced(lang, scanned);
    ExtractionWellPlaced(lang, scanned, functions);
    plan := GenerateReviewChunks(content, functions, tokenLimit);
    forall f, line: nat | f in functions && Contains(f, line) ensures InOneChunk(plan.chunks, line, line) {
      LinesReviewed(content, functions, tokenLimit, plan, f, line);
    }
    forall i | 0 <= i < |scanned| && scanned[i].declares.Some? ensures InOneChunk(plan.chunks, i + 1, i + 1) {
      NoDeclarationMissed(lang, scanned, functions, i);
      var k :| 0 <= k < |functions| && Contains(functions[k], i + 1);
    }
  }

  /**
    The same for a Python file: every line of every function, and every declaration that is
    kept, is in some chunk.
   */
  method ReviewPython(content: string, scanned: seq<IndentLine>, tokenLimit: int)
    returns (functions: seq<Func>, plan: ReviewPlan)
    requires |scanned| == |Split(content)|
    ensures functions == KeptFuncs(scanned, |scanned|) && PlanOf(content, functions, tokenLimit, plan)
    ensures forall f, line :: f in functions && Contains(f, line) ==> InOneChunk(plan.chunks, line, line)
    ensures forall i: nat :: Kept(scanned, i) ==> InOneChunk(plan.chunks, i + 1, i + 1)
  {
    functions := ExtractPython(scanned);
    PythonWellPlaced(scanned, |scanned|);
    plan := GenerateReviewChunks(content, functions, tokenLimit);
    forall f, line: nat | f in functions && Contains(f, line) ensures InOneChunk(plan.chunks, line, line) {
      LinesReviewed(content, functions, tokenLimit, plan, f, line);
    }
    forall i: nat | Kept(scanned, i) ensures InOneChunk(plan.chunks, i + 1, i + 1) {
      DeclarationCovered(scanned, i, i);
      var f :| f in KeptFuncs(scanned, |scanned|) && Contains(f, i + 1);
    }
  }
}
