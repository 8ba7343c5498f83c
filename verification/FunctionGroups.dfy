/** Packing functions into chunks under a token budget (groupFunctionsIntoChunks). */
module FunctionGroups {
  import opened Text
  import opened FunctionScan

  datatype Chunk = Chunk(functions: seq<Func>, startLine: nat, endLine: nat, tokens: nat, needsLineSplit: bool)

  /** The estimated tokens of each function's text in the file with these lines. */
  function FuncTokens(lines: seq<string>): Func -> nat {
    (f: Func) => if 1 <= f.startLine then Tokens(Join(Slice(lines, f.startLine, f.endLine))) else 0
  }

  ghost function GroupTokens(w: Func -> nat, fs: seq<Func>): nat
  {
    if fs == [] then 0 else GroupTokens(w, fs[..|fs| - 1]) + w(fs[|fs| - 1])
  }

  ghost function Flatten(groups: seq<seq<Func>>): seq<Func> {
    if groups == [] then [] else groups[0] + Flatten(groups[1..])
  }

  ghost function GroupsOf(chunks: seq<Chunk>): (groups: seq<seq<Func>>)
    ensures |groups| == |chunks|
    ensures forall i :: 0 <= i < |chunks| ==> groups[i] == chunks[i].functions
  {
    if chunks == [] then [] else GroupsOf(chunks[..|chunks| - 1]) + [chunks[|chunks| - 1].functions]
  }

  ghost predicate Oversized(w: Func -> nat, limit: int, f: Func) {
    w(f) > limit
  }

  /** A group a chunk may hold: one oversized function alone, or functions that fit together. */
  ghost predicate ValidGroup(w: Func -> nat, limit: int, g: seq<Func>) {
    && g != []
    && (|| (|g| == 1 && Oversized(w, limit, g[0]))
        || ((forall k :: 0 <= k < |g| ==> !Oversized(w, limit, g[k])) && GroupTokens(w, g) <= limit))
  }

  /** An order-preserving grouping of fs into valid groups. */
  ghost predicate ValidGrouping(w: Func -> nat, limit: int, groups: seq<seq<Func>>, fs: seq<Func>) {
    && Flatten(groups) == fs
    && forall i :: 0 <= i < |groups| ==> ValidGroup(w, limit, groups[i])
  }

  /** No group leaves out a first function of the next group that would still have fitted. */
  ghost predicate Packed(w: Func -> nat, limit: int, groups: seq<seq<Func>>) {
    forall i, j :: 0 <= i && j == i + 1 && j < |groups| ==> FullBefore(w, limit, groups[i], groups[j])
  }

  ghost predicate FullBefore(w: Func -> nat, limit: int, g: seq<Func>, next: seq<Func>) {
    && g != [] && next != []
    && (|| Oversized(w, limit, g[0])
        || Oversized(w, limit, next[0])
        || GroupTokens(w, g) + w(next[0]) > limit)
  }

  /** What a chunk records about its functions. */
  ghost predicate Describes(w: Func -> nat, limit: int, c: Chunk) {
    && ValidGroup(w, limit, c.functions)
    && c.startLine == c.functions[0].startLine
    && c.endLine == c.functions[|c.functions| - 1].endLine
    && c.tokens == GroupTokens(w, c.functions)
    && (c.needsLineSplit <==> Oversized(w, limit, c.functions[0]))
  }

  lemma {:induction false} FlattenAppend(groups: seq<seq<Func>>, g: seq<Func>)
    ensures Flatten(groups + [g]) == Flatten(groups) + g
  {
    if groups != [] {
      FlattenAppend(groups[1..], g);
      assert (groups + [g])[1..] == groups[1..] + [g];
    }
  }

  lemma {:induction false} TokensAppend(w: Func -> nat, a: seq<Func>, b: seq<Func>)
    ensures GroupTokens(w, a + b) == GroupTokens(w, a) + GroupTokens(w, b)
  {
    if b == [] {
      assert a + b == a;
    } else {
      var m := |b| - 1;
      TokensAppend(w, a, b[..m]);
      assert (a + b)[..|a + b| - 1] == a + b[..m];
    }
  }

  /** The chunks made so far group the functions in `done`. */
  ghost predicate Made(w: Func -> nat, limit: int, chunks: seq<Chunk>, done: seq<Func>) {
    && (forall i :: 0 <= i < |chunks| ==> Describes(w, limit, chunks[i]))
    && Flatten(GroupsOf(chunks)) == done
    && Packed(w, limit, GroupsOf(chunks))
  }

  /** The chunk c, still open, may follow the chunks made so far; an empty one follows a split only. */
  ghost predicate Follows(w: Func -> nat, limit: int, chunks: seq<Chunk>, c: Chunk) {
    if c.functions == [] then
      c.tokens == 0 && (chunks == [] || chunks[|chunks| - 1].needsLineSplit)
    else
      && Describes(w, limit, c)
      && !c.needsLineSplit
      && (chunks == [] || FullBefore(w, limit, chunks[|chunks| - 1].functions, c.functions))
  }

  lemma Close(w: Func -> nat, limit: int, chunks: seq<Chunk>, c: Chunk, done: seq<Func>)
    requires Made(w, limit, chunks, done)
    requires Describes(w, limit, c)
    requires chunks == [] || FullBefore(w, limit, chunks[|chunks| - 1].functions, c.functions)
    ensures Made(w, limit, chunks + [c], done + c.functions)
  {
    assert GroupsOf(chunks + [c]) == GroupsOf(chunks) + [c.functions];
    FlattenAppend(GroupsOf(chunks), c.functions);
    forall i, j | 0 <= i && j == i + 1 && j < |chunks| + 1
      ensures FullBefore(w, limit, GroupsOf(chunks + [c])[i], GroupsOf(chunks + [c])[j])
    {
      if j < |chunks| {
        assert FullBefore(w, limit, GroupsOf(chunks)[i], GroupsOf(chunks)[j]);
      }
    }
  }

  lemma Alone(w: Func -> nat, limit: int, f: Func, needsLineSplit: bool)
    requires (needsLineSplit <==> Oversized(w, limit, f))
    ensures Describes(w, limit, Chunk([f], f.startLine, f.endLine, w(f), needsLineSplit))
  {
    assert GroupTokens(w, [f]) == w(f);
  }

  lemma Grow(w: Func -> nat, limit: int, c: Chunk, f: Func)
    requires Describes(w, limit, c) && !c.needsLineSplit
    requires c.tokens + w(f) <= limit
    ensures Describes(w, limit,
              Chunk(c.functions + [f], c.startLine, f.endLine, c.tokens + w(f), false))
  {
    TokensAppend(w, c.functions, [f]);
    assert GroupTokens(w, [f]) == w(f);
  }

  const EMPTY := Chunk([], 0, 0, 0, false)

  /** `if (currentChunk.functions.length > 0) chunks.push(currentChunk)` */
  method Flush(ghost w: Func -> nat, ghost limit: int, chunks: seq<Chunk>, current: Chunk, ghost done: seq<Func>)
    returns (chunks': seq<Chunk>)
    requires Made(w, limit, chunks, done) && Follows(w, limit, chunks, current)
    ensures Made(w, limit, chunks', done + current.functions)
    ensures chunks' != [] ==> chunks'[|chunks'| - 1].functions != []
    ensures current.functions != [] ==> chunks' != [] && chunks'[|chunks'| - 1] == current
  {
    chunks' := chunks;
    if |current.functions| > 0 {
      Close(w, limit, chunks, current, done);
      chunks' := chunks + [current];
    } else {
      assert done + current.functions == done;
    }
  }

  /** The next function, which is not oversized, opens a chunk of its own. */
  lemma Opens(w: Func -> nat, limit: int, chunks: seq<Chunk>, f: Func)
    requires w(f) <= limit
    requires chunks == [] || FullBefore(w, limit, chunks[|chunks| - 1].functions, [f])
    ensures Follows(w, limit, chunks, Chunk([f], f.startLine, f.endLine, w(f), false))
  {
    Alone(w, limit, f, false);
  }

  /** A function that alone exceeds the limit becomes a chunk that needs splitting. */
  method AddSplit(ghost w: Func -> nat, ghost limit: int, chunks: seq<Chunk>, current: Chunk,
      func: Func, funcTokens: nat, ghost done: seq<Func>)
    returns (chunks': seq<Chunk>)
    requires Made(w, limit, chunks, done) && Follows(w, limit, chunks, current)
    requires funcTokens == w(func) && funcTokens > limit
    ensures Made(w, limit, chunks', done + current.functions + [func])
    ensures chunks' != [] && chunks'[|chunks'| - 1].needsLineSplit
  {
    chunks' := Flush(w, limit, chunks, current, done);
    var split := Chunk([func], func.startLine, func.endLine, funcTokens, true);
    Alone(w, limit, func, true);
    Close(w, limit, chunks', split, done + current.functions);
    chunks' := chunks' + [split];
  }

  /** The open chunk is full; the function starts the next one. */
  method CloseAndOpen(ghost w: Func -> nat, ghost limit: int, chunks: seq<Chunk>, current: Chunk,
      func: Func, funcTokens: nat, ghost done: seq<Func>)
    returns (chunks': seq<Chunk>, current': Chunk)
    requires Made(w, limit, chunks, done) && Follows(w, limit, chunks, current)
    requires funcTokens == w(func) && funcTokens <= limit && current.tokens + funcTokens > limit
    requires current.functions != []
    ensures Made(w, limit, chunks', done + current.functions) && Follows(w, limit, chunks', current')
    ensures current'.functions == [func]
  {
    chunks' := Flush(w, limit, chunks, current, done);
    current' := Chunk([func], func.startLine, func.endLine, funcTokens, false);
    Opens(w, limit, chunks', func);
  }

  /** The body of the loop for one function, on the chunks made so far and the open chunk. */
  method AddFunction(ghost w: Func -> nat, effectiveLimit: int, chunks: seq<Chunk>, current: Chunk,
      func: Func, funcTokens: nat, ghost done: seq<Func>)
    returns (chunks': seq<Chunk>, current': Chunk, ghost done': seq<Func>)
    requires Made(w, effectiveLimit, chunks, done) && Follows(w, effectiveLimit, chunks, current)
    requires funcTokens == w(func)
    ensures Made(w, effectiveLimit, chunks', done') && Follows(w, effectiveLimit, chunks', current')
    ensures done' + current'.functions == done + current.functions + [func]
  {
    if funcTokens > effectiveLimit {
      chunks' := AddSplit(w, effectiveLimit, chunks, current, func, funcTokens, done);
      current', done' := EMPTY, done + current.functions + [func];
    } else if current.tokens + funcTokens > effectiveLimit && |current.functions| > 0 {
      chunks', current' := CloseAndOpen(w, effectiveLimit, chunks, current, func, funcTokens, done);
      done' := done + current.functions;
    } else {
      chunks', done' := chunks, done;
      current' := Chunk(current.functions + [func],
                        if |current.functions| == 0 then func.startLine else current.startLine,
                        func.endLine, current.tokens + funcTokens, false);
      Extends(w, effectiveLimit, chunks, current, func);
    }
  }

  /** A function that still fits joins the open chunk. */
  lemma Extends(w: Func -> nat, limit: int, chunks: seq<Chunk>, c: Chunk, f: Func)
    requires forall i :: 0 <= i < |chunks| ==> Describes(w, limit, chunks[i])
    requires Follows(w, limit, chunks, c) && w(f) <= limit
    requires c.functions == [] || c.tokens + w(f) <= limit
    ensures Follows(w, limit, chunks, Chunk(c.functions + [f], if |c.functions| == 0 then f.startLine else c.startLine,
                                            f.endLine, c.tokens + w(f), false))
  {
    if c.functions == [] {
      assert c.functions + [f] == [f];
      assert chunks == [] || Describes(w, limit, chunks[|chunks| - 1]);
      Opens(w, limit, chunks, f);
    } else {
      Grow(w, limit, c, f);
    }
  }

  /** The estimated tokens of each function, in order. */
  method FuncTokensOf(functions: seq<Func>, lines: seq<string>) returns (tokens: seq<nat>)
    requires forall k :: 0 <= k < |functions| ==> 1 <= functions[k].startLine
    ensures |tokens| == |functions|
    ensures forall k :: 0 <= k < |functions| ==> tokens[k] == FuncTokens(lines)(functions[k])
  {
    tokens := [];
    for i := 0 to |functions|
      invariant |tokens| == i
      invariant forall k :: 0 <= k < i ==> tokens[k] == FuncTokens(lines)(functions[k])
    {
      var funcText := Join(Slice(lines, functions[i].startLine, functions[i].endLine));
      tokens := tokens + [Tokens(funcText)];
    }
  }

  lemma OneMore(functions: seq<Func>, i: nat)
    requires i < |functions|
    ensures functions[..i + 1] == functions[..i] + [functions[i]]
  {}

  /** The loop over the functions. */
  method Pack(ghost w: Func -> nat, effectiveLimit: int, functions: seq<Func>, tokens: seq<nat>)
    returns (chunks: seq<Chunk>)
    requires |tokens| == |functions| && forall k :: 0 <= k < |functions| ==> tokens[k] == w(functions[k])
    ensures Made(w, effectiveLimit, chunks, functions)
  {
    chunks := [];
    var current := EMPTY;
    ghost var done: seq<Func> := [];
    for i := 0 to |functions|
      invariant Made(w, effectiveLimit, chunks, done)
      invariant Follows(w, effectiveLimit, chunks, current)
      invariant done + current.functions == functions[..i]
    {
      OneMore(functions, i);
      chunks, current, done := AddFunction(w, effectiveLimit, chunks, current, functions[i], tokens[i], done);
    }
    assert functions[..|functions|] == functions;
    chunks := Flush(w, effectiveLimit, chunks, current, done);
  }

  method GroupFunctionsIntoChunks(functions: seq<Func>, lines: seq<string>, tokenLimit: int)
    returns (chunks: seq<Chunk>)
    requires forall k :: 0 <= k < |functions| ==> 1 <= functions[k].startLine
    ensures Made(FuncTokens(lines), tokenLimit - PROMPT_OVERHEAD, chunks, functions)
    ensures forall c :: c in chunks ==> exists tokens :: Recorded(c, tokens, lines, tokenLimit)
  {
    var tokens := FuncTokensOf(functions, lines);
    chunks := Pack(FuncTokens(lines), tokenLimit - PROMPT_OVERHEAD, functions, tokens);
    forall c | c in chunks ensures exists tokens :: Recorded(c, tokens, lines, tokenLimit) {
      var ts := DescribedTokens(lines, tokenLimit, c);
    }
  }

  ghost function Total(tokens: seq<nat>): nat {
    if tokens == [] then 0 else Total(tokens[..|tokens| - 1]) + tokens[|tokens| - 1]
  }

  /**
    The chunk's tokens are the sum of its functions', each measured on its own lines; it is to be
    split exactly if it is one function that alone exceeds the limit less 2000.
   */
  ghost predicate Recorded(c: Chunk, tokens: seq<nat>, lines: seq<string>, tokenLimit: int) {
    && |tokens| == |c.functions| > 0 && c.tokens == Total(tokens)
    && (forall k :: 0 <= k < |tokens| ==> MeasuredOn(tokens[k], c.functions[k], lines))
    && (if c.needsLineSplit then |tokens| == 1 && tokens[0] > tokenLimit - 2000 else c.tokens <= tokenLimit - 2000)
  }

  ghost predicate MeasuredOn(tokens: nat, f: Func, lines: seq<string>) {
    1 <= f.startLine <= f.endLine <= |lines| ==> Measures(tokens, Span(lines, f.startLine, f.endLine))
  }

  lemma FuncTokensMeasured(lines: seq<string>, f: Func)
    ensures MeasuredOn(FuncTokens(lines)(f), f, lines)
  {
    if 1 <= f.startLine <= f.endLine <= |lines| {
      SliceSpans(lines, f.startLine, f.endLine);
    }
  }

  ghost function TokensEach(w: Func -> nat, fs: seq<Func>): seq<nat> {
    seq(|fs|, k requires 0 <= k < |fs| => w(fs[k]))
  }

  lemma {:induction false} TotalTokens(w: Func -> nat, fs: seq<Func>)
    ensures Total(TokensEach(w, fs)) == GroupTokens(w, fs)
  {
    if fs != [] {
      var m := |fs| - 1;
      TotalTokens(w, fs[..m]);
      assert TokensEach(w, fs)[..m] == TokensEach(w, fs[..m]);
    }
  }

  lemma DescribedTokens(lines: seq<string>, tokenLimit: int, c: Chunk) returns (tokens: seq<nat>)
    requires Describes(FuncTokens(lines), tokenLimit - PROMPT_OVERHEAD, c)
    ensures Recorded(c, tokens, lines, tokenLimit)
  {
    var w := FuncTokens(lines);
    tokens := TokensEach(w, c.functions);
    TotalTokens(w, c.functions);
    forall k | 0 <= k < |tokens| ensures MeasuredOn(tokens[k], c.functions[k], lines) {
      FuncTokensMeasured(lines, c.functions[k]);
    }
  }

  /** What the chunks of a finished grouping amount to. */
  lemma MadeIsPackedGrouping(w: Func -> nat, limit: int, chunks: seq<Chunk>, fs: seq<Func>)
    requires Made(w, limit, chunks, fs)
    ensures ValidGrouping(w, limit, GroupsOf(chunks), fs) && Packed(w, limit, GroupsOf(chunks))
  {
    forall i | 0 <= i < |chunks| ensures ValidGroup(w, limit, GroupsOf(chunks)[i]) {
      assert Describes(w, limit, chunks[i]);
    }
  }

  /**
    A packed grouping of a suffix of some list of functions never needs more groups than
    any valid grouping of the whole list.
   */
  lemma {:induction false} PackedIsFewest(w: Func -> nat, limit: int,
      packed: seq<seq<Func>>, xs: seq<Func>, other: seq<seq<Func>>, before: seq<Func>)
    requires ValidGrouping(w, limit, packed, xs) && Packed(w, limit, packed)
    requires ValidGrouping(w, limit, other, before + xs)
    ensures |packed| <= |other|
    decreases |other|
  {
    if packed != [] {
      var g := other[0];
      var rest := Flatten(other[1..]);
      assert before + xs == g + rest;
      if |g| <= |before| {
        assert before[|g|..] + xs == rest by {
          assert (before + xs)[|g|..] == before[|g|..] + xs;
          assert (g + rest)[|g|..] == rest;
        }
        PackedIsFewest(w, limit, packed, xs, other[1..], before[|g|..]);
      } else {
        var m := |packed[0]|;
        FirstReaches(w, limit, packed, xs, g, before, rest);
        var skipped := |before| + m - |g|;
        assert xs[m..] == Flatten(packed[1..]);
        assert rest == rest[..skipped] + xs[m..] by {
          assert (before + xs)[|before| + m..] == xs[m..];
          assert (g + rest)[|before| + m..] == rest[skipped..];
        }
        PackedRest(w, limit, packed);
        PackedIsFewest(w, limit, packed[1..], xs[m..], other[1..], rest[..skipped]);
      }
    }
  }

  lemma PackedRest(w: Func -> nat, limit: int, groups: seq<seq<Func>>)
    requires groups != []
    requires Packed(w, limit, groups)
    ensures Packed(w, limit, groups[1..])
  {
    forall i, j | 0 <= i && j == i + 1 && j < |groups[1..]|
      ensures FullBefore(w, limit, groups[1..][i], groups[1..][j]) {
      assert FullBefore(w, limit, groups[i + 1], groups[j + 1]);
    }
  }

  /** The first packed group reaches at least as far as a valid group g that ends beyond `before`. */
  lemma FirstReaches(w: Func -> nat, limit: int, packed: seq<seq<Func>>, xs: seq<Func>,
      g: seq<Func>, before: seq<Func>, rest: seq<Func>)
    requires ValidGrouping(w, limit, packed, xs) && Packed(w, limit, packed) && packed != []
    requires ValidGroup(w, limit, g)
    requires before + xs == g + rest && |before| < |g|
    ensures |packed[0]| >= |g| - |before|
  {
    var d, m := |before|, |packed[0]|;
    var first, tail := packed[0], Flatten(packed[1..]);
    assert xs == first + tail;
    if m < |g| - d {
      Aligned(before, xs, g, rest, m + 1);
      assert xs[..m + 1] == first + [xs[m]];
      var next := packed[1];
      assert next == packed[1..][0];
      assert next[0] == tail[0] == xs[m];
      StillFits(w, limit, g, d, first, next);
      assert false;
    }
  }

  /** Two neighbouring groups that continue inside a larger valid group were closed too early. */
  lemma StillFits(w: Func -> nat, limit: int, g: seq<Func>, d: nat, first: seq<Func>, next: seq<Func>)
    requires ValidGroup(w, limit, g)
    requires first != [] && next != [] && d + |first| < |g|
    requires first + [next[0]] == g[d..d + |first| + 1]
    ensures !FullBefore(w, limit, first, next)
  {
    var m := |first|;
    var both := first + [next[0]];
    assert both[0] == g[d] && both[m] == g[d + m];
    forall k | 0 <= k < m ensures first[k] == g[d + k] {
      assert both[k] == g[d + k];
    }
    PartTokens(w, g, d, d + m + 1);
    TokensAppend(w, first, [next[0]]);
    assert GroupTokens(w, [next[0]]) == w(next[0]);
  }

  lemma Aligned(before: seq<Func>, xs: seq<Func>, g: seq<Func>, rest: seq<Func>, k: nat)
    requires before + xs == g + rest && |before| + k <= |g|
    ensures k <= |xs|
    ensures xs[..k] == g[|before|..|before| + k]
  {
    assert |before| + |xs| == |before + xs| == |g| + |rest|;
    var d := |before|;
    forall i | 0 <= i < k ensures xs[i] == g[d + i] {
      assert (before + xs)[d + i] == (g + rest)[d + i];
    }
  }

  lemma PartTokens(w: Func -> nat, g: seq<Func>, lo: nat, hi: nat)
    requires lo <= hi <= |g|
    ensures GroupTokens(w, g[lo..hi]) <= GroupTokens(w, g)
  {
    assert g == g[..lo] + g[lo..hi] + g[hi..];
    TokensAppend(w, g[..lo], g[lo..hi]);
    TokensAppend(w, g[..lo] + g[lo..hi], g[hi..]);
  }

  /** Greedy grouping is optimal: no valid order-preserving grouping has fewer groups. */
  lemma GroupingOptimal(w: Func -> nat, limit: int, chunks: seq<Chunk>, other: seq<seq<Func>>, fs: seq<Func>)
    requires Made(w, limit, chunks, fs)
    requires ValidGrouping(w, limit, other, fs)
    ensures |chunks| <= |other|
  {
    MadeIsPackedGrouping(w, limit, chunks, fs);
    assert [] + fs == fs;
    PackedIsFewest(w, limit, GroupsOf(chunks), fs, other, []);
  }

  /** Only one grouping is both valid and packed, so the contract determines the chunks. */
  lemma {:induction false} PackedUnique(w: Func -> nat, limit: int, a: seq<seq<Func>>, b: seq<seq<Func>>, fs: seq<Func>)
    requires ValidGrouping(w, limit, a, fs) && Packed(w, limit, a)
    requires ValidGrouping(w, limit, b, fs) && Packed(w, limit, b)
    ensures a == b
  {
    if a != [] && b != [] {
      var rest := SameFirst(w, limit, a, b, fs);
      PackedRest(w, limit, a);
      PackedRest(w, limit, b);
      PackedUnique(w, limit, a[1..], b[1..], rest);
      assert a == [a[0]] + a[1..] && b == [b[0]] + b[1..];
    }
  }

  lemma SameFirst(w: Func -> nat, limit: int, a: seq<seq<Func>>, b: seq<seq<Func>>, fs: seq<Func>)
    returns (rest: seq<Func>)
    requires ValidGrouping(w, limit, a, fs) && Packed(w, limit, a) && a != []
    requires ValidGrouping(w, limit, b, fs) && Packed(w, limit, b) && b != []
    ensures a[0] == b[0]
    ensures ValidGrouping(w, limit, a[1..], rest) && ValidGrouping(w, limit, b[1..], rest)
  {
    var n := |a[0]|;
    assert [] + fs == fs;
    FirstReaches(w, limit, a, fs, b[0], [], Flatten(b[1..]));
    FirstReaches(w, limit, b, fs, a[0], [], Flatten(a[1..]));
    assert fs[..n] == a[0] && fs[..n] == b[0];
    rest := fs[n..];
    assert rest == Flatten(a[1..]) && rest == Flatten(b[1..]);
  }
}
