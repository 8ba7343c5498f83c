/**
  Function boundaries found by scanning lines (server/chunked-review.js).  The regular
  expressions are taken as given: each line arrives with what they matched on it.
 */
module FunctionScan {
  import opened Wrappers

  /** A detected function or class; lines are 1-based and inclusive. */
  datatype Func = Func(name: string, startLine: nat, endLine: nat)

  /** What the patterns found on one line of a language with braces. */
  datatype BraceLine = BraceLine(declares: Option<string>, opens: nat, closes: nat)

  /** What the patterns found on one line of Python. */
  datatype IndentLine = IndentLine(declares: Option<string>, indent: nat)

  datatype Lang = JavaScript | CSharp

  /** The functions lie in a file of n lines, in order and without overlap. */
  ghost predicate WellPlaced(fs: seq<Func>, n: nat) {
    && (forall k :: 0 <= k < |fs| ==> 1 <= fs[k].startLine <= fs[k].endLine <= n)
    && (forall k, l :: 0 <= k < l < |fs| ==> fs[k].endLine < fs[l].startLine)
  }

  ghost predicate Contains(f: Func, line: nat) {
    f.startLine <= line <= f.endLine
  }

  // ----- JavaScript and C# -----

  /** Brace depth before the line with 0-based index i. */
  function Depth(lines: seq<BraceLine>, i: nat): int
    requires i <= |lines|
  {
    if i == 0 then 0 else Depth(lines, i - 1) + lines[i - 1].opens - lines[i - 1].closes
  }

  /** The depths at which a declaration replaces a function that is still open. */
  predicate AtTop(lang: Lang, depth: int) {
    match lang
    case JavaScript => depth == 0
    case CSharp => depth <= 1
  }

  /** A declaration on line i would end a function still open above it. */
  ghost predicate Cuts(lang: Lang, lines: seq<BraceLine>, i: nat) {
    i < |lines| && lines[i].declares.Some? && AtTop(lang, Depth(lines, i))
  }

  /** Line e closes a brace and leaves the depth at zero. */
  ghost predicate Closes(lines: seq<BraceLine>, e: nat) {
    e < |lines| && lines[e].closes > 0 && Depth(lines, e + 1) == 0
  }

  /** A function open on line e has e as its last line. */
  ghost predicate LastLine(lang: Lang, lines: seq<BraceLine>, e: nat) {
    Closes(lines, e) || Cuts(lang, lines, e + 1) || e + 1 == |lines|
  }

  /** The last line of the function before fs[k], or 0. */
  ghost function EndBefore(fs: seq<Func>, k: nat): nat
    requires k <= |fs|
  {
    if k == 0 then 0 else fs[k - 1].endLine
  }

  ghost predicate NoneDeclared(lines: seq<BraceLine>, lo: nat, hi: nat)
    requires hi <= |lines|
  {
    forall i :: lo <= i < hi ==> lines[i].declares.None?
  }

  /**
    What fs[k] has to be, without reference to a scanner's state: it starts at the first
    declaration after its predecessor and stops at the first line that can be its last.
   */
  ghost predicate Detected(lang: Lang, lines: seq<BraceLine>, fs: seq<Func>, k: nat)
    requires k < |fs|
  {
    var f := fs[k];
    && EndBefore(fs, k) < f.startLine <= f.endLine <= |lines|
    && lines[f.startLine - 1].declares == Some(f.name)
    && NoneDeclared(lines, EndBefore(fs, k), f.startLine - 1)
    && LastLine(lang, lines, f.endLine - 1)
    && (forall e {:trigger LastLine(lang, lines, e)} ::
          f.startLine - 1 <= e < f.endLine - 1 ==> !LastLine(lang, lines, e))
  }

  ghost predicate IsExtraction(lang: Lang, lines: seq<BraceLine>, fs: seq<Func>) {
    && (forall k :: 0 <= k < |fs| ==> Detected(lang, lines, fs, k))
    && EndBefore(fs, |fs|) <= |lines|
    && NoneDeclared(lines, EndBefore(fs, |fs|), |lines|)
  }

  lemma Extend(lang: Lang, lines: seq<BraceLine>, fs: seq<Func>, f: Func)
    requires forall k :: 0 <= k < |fs| ==> Detected(lang, lines, fs, k)
    requires Detected(lang, lines, fs + [f], |fs|)
    ensures forall k :: 0 <= k < |fs| + 1 ==> Detected(lang, lines, fs + [f], k)
  {
    forall k | 0 <= k < |fs| ensures Detected(lang, lines, fs + [f], k) {
      assert Detected(lang, lines, fs, k);
      assert (fs + [f])[k] == fs[k] && EndBefore(fs + [f], k) == EndBefore(fs, k);
    }
  }

  /** The functions closed so far are the first ones of the extraction, and end by line index `upTo`. */
  ghost predicate Closed(lang: Lang, lines: seq<BraceLine>, fs: seq<Func>, upTo: nat) {
    && (forall k :: 0 <= k < |fs| ==> Detected(lang, lines, fs, k))
    && EndBefore(fs, |fs|) <= upTo <= |lines|
  }

  /** An open function starts at the first declaration after them, and no line before `upTo` ends it. */
  ghost predicate IsOpen(lang: Lang, lines: seq<BraceLine>, fs: seq<Func>, name: string, start: nat, upTo: nat) {
    && EndBefore(fs, |fs|) < start <= |lines|
    && lines[start - 1].declares == Some(name)
    && NoneDeclared(lines, EndBefore(fs, |fs|), start - 1)
    && (forall e {:trigger LastLine(lang, lines, e)} :: start - 1 <= e < upTo ==> !LastLine(lang, lines, e))
  }

  /** Before line i is looked at. */
  ghost predicate AtLine(lang: Lang, lines: seq<BraceLine>, fs: seq<Func>, current: Option<(string, nat)>, i: nat) {
    && Closed(lang, lines, fs, i)
    && match current
       case None => NoneDeclared(lines, EndBefore(fs, |fs|), i)
       case Some((name, start)) =>
         1 <= start <= i && IsOpen(lang, lines, fs, name, start, i - 1) && !Closes(lines, i - 1)
  }

  /** After line i's declaration, before its braces. */
  ghost predicate InLine(lang: Lang, lines: seq<BraceLine>, fs: seq<Func>, current: Option<(string, nat)>, i: nat) {
    && i < |lines| && Closed(lang, lines, fs, i)
    && match current
       case None => NoneDeclared(lines, EndBefore(fs, |fs|), i + 1)
       case Some((name, start)) => start <= i + 1 && IsOpen(lang, lines, fs, name, start, i)
  }

  /** Closing the open function at a line that can be its last. */
  lemma CloseOpen(lang: Lang, lines: seq<BraceLine>, fs: seq<Func>, name: string, start: nat, end: nat)
    requires forall k :: 0 <= k < |fs| ==> Detected(lang, lines, fs, k)
    requires 1 <= start <= end <= |lines| && IsOpen(lang, lines, fs, name, start, end - 1)
    requires LastLine(lang, lines, end - 1)
    ensures Closed(lang, lines, fs + [Func(name, start, end)], end)
    ensures EndBefore(fs + [Func(name, start, end)], |fs| + 1) == end
  {
    Extend(lang, lines, fs, Func(name, start, end));
  }

  /** The first half of the loop body: a declaration on line i. */
  method Declaration(lang: Lang, lines: seq<BraceLine>, fs: seq<Func>,
      current: Option<(string, nat)>, i: nat, braceDepth: int)
    returns (fs': seq<Func>, current': Option<(string, nat)>)
    requires i < |lines| && braceDepth == Depth(lines, i) && AtLine(lang, lines, fs, current, i)
    ensures InLine(lang, lines, fs', current', i)
  {
    fs', current' := fs, current;
    var line := lines[i];
    assert current.Some? ==> (LastLine(lang, lines, i - 1) <==> Cuts(lang, lines, i));
    if current.None? || AtTop(lang, braceDepth) {
      if line.declares.Some? {
        if current.Some? {
          var f := Func(current.value.0, current.value.1, i);
          if lang.CSharp? || f.endLine >= f.startLine {
            CloseOpen(lang, lines, fs, f.name, f.startLine, i);
            fs' := fs + [f];
          }
        }
        current' := Some((line.declares.value, i + 1));
      }
    }
  }

  /** The second half: the braces of line i. */
  method Braces(lang: Lang, lines: seq<BraceLine>, fs: seq<Func>,
      current: Option<(string, nat)>, i: nat, braceDepth: int)
    returns (fs': seq<Func>, current': Option<(string, nat)>)
    requires InLine(lang, lines, fs, current, i) && braceDepth == Depth(lines, i + 1)
    ensures AtLine(lang, lines, fs', current', i + 1)
  {
    fs', current' := fs, current;
    if current.Some? && braceDepth == 0 && lines[i].closes > 0 {
      assert LastLine(lang, lines, i);
      CloseOpen(lang, lines, fs, current.value.0, current.value.1, i + 1);
      fs' := fs + [Func(current.value.0, current.value.1, i + 1)];
      current' := None;
    }
  }

  /** The scan of extractJSFunctions and extractCSharpFunctions, which differ in AtTop only. */
  method ExtractBraced(lang: Lang, lines: seq<BraceLine>) returns (fs: seq<Func>)
    ensures IsExtraction(lang, lines, fs)
  {
    fs := [];
    var braceDepth := 0;
    var current: Option<(string, nat)> := None;
    for i := 0 to |lines|
      invariant braceDepth == Depth(lines, i)
      invariant AtLine(lang, lines, fs, current, i)
    {
      fs, current := Declaration(lang, lines, fs, current, i, braceDepth);
      braceDepth := braceDepth + lines[i].opens - lines[i].closes;
      fs, current := Braces(lang, lines, fs, current, i, braceDepth);
    }
    if current.Some? {
      assert LastLine(lang, lines, |lines| - 1);
      CloseOpen(lang, lines, fs, current.value.0, current.value.1, |lines|);
      fs := fs + [Func(current.value.0, current.value.1, |lines|)];
    }
  }

  /** fs[..k] keeps its order and bounds. */
  lemma {:induction false} ExtractionOrdered(lang: Lang, lines: seq<BraceLine>, fs: seq<Func>, k: nat, l: nat)
    requires IsExtraction(lang, lines, fs)
    requires k < l < |fs|
    ensures fs[k].endLine < fs[l].startLine
  {
    assert Detected(lang, lines, fs, l);
    if k + 1 < l {
      ExtractionOrdered(lang, lines, fs, k, l - 1);
      assert Detected(lang, lines, fs, l - 1);
    }
  }

  /** Every extraction consists of in-range, ordered, disjoint intervals. */
  lemma ExtractionWellPlaced(lang: Lang, lines: seq<BraceLine>, fs: seq<Func>)
    requires IsExtraction(lang, lines, fs)
    ensures WellPlaced(fs, |lines|)
  {
    forall k | 0 <= k < |fs| ensures 1 <= fs[k].startLine <= fs[k].endLine <= |lines| {
      assert Detected(lang, lines, fs, k);
    }
    forall k, l | 0 <= k < l < |fs| ensures fs[k].endLine < fs[l].startLine {
      ExtractionOrdered(lang, lines, fs, k, l);
    }
  }

  /** Every line on which a declaration was matched lies in some detected function. */
  lemma {:induction false} NoDeclarationMissed(lang: Lang, lines: seq<BraceLine>, fs: seq<Func>, i: nat)
    requires IsExtraction(lang, lines, fs)
    requires i < |lines| && lines[i].declares.Some?
    ensures exists k :: 0 <= k < |fs| && Contains(fs[k], i + 1)
  {
    var k := FirstEndAfter(fs, i);
    if k < |fs| {
      assert Detected(lang, lines, fs, k);
      assert Contains(fs[k], i + 1);
    }
  }

  lemma {:induction false} FirstEndAfter(fs: seq<Func>, i: nat) returns (k: nat)
    ensures k <= |fs|
    ensures EndBefore(fs, k) <= i
    ensures k < |fs| ==> i < fs[k].endLine
  {
    if fs == [] || fs[|fs| - 1].endLine <= i {
      k := |fs|;
    } else {
      var m := |fs| - 1;
      k := FirstEndAfter(fs[..m], i);
      assert EndBefore(fs, k) == EndBefore(fs[..m], k);
    }
  }

  /** The conditions of IsExtraction leave no choice: one file has one extraction. */
  lemma {:induction false} ExtractionUnique(lang: Lang, lines: seq<BraceLine>, fs: seq<Func>, gs: seq<Func>)
    requires IsExtraction(lang, lines, fs) && IsExtraction(lang, lines, gs)
    ensures fs == gs
  {
    SamePrefix(lang, lines, fs, gs, if |fs| <= |gs| then |fs| else |gs|);
    if |fs| <= |gs| {
      NoLonger(lang, lines, fs, gs);
    } else {
      NoLonger(lang, lines, gs, fs);
    }
  }

  /** Line l, counted from 1, closes a brace at depth zero, or the next line's declaration stands far enough out. */
  ghost predicate EndsAt(lang: Lang, lines: seq<BraceLine>, l: nat)
    requires 1 <= l <= |lines|
  {
    || l == |lines|
    || (lines[l - 1].closes > 0 && Depth(lines, l) == 0)
    || (lines[l].declares.Some? && (Depth(lines, l) == 0 || (lang.CSharp? && Depth(lines, l) <= 1)))
  }

  /**
    A function's last line is the first one from its start on where a brace closes at depth zero,
    where the file ends, or after which there is a declaration at depth zero (in C#, at most one).
   */
  lemma EndsFirst(lang: Lang, lines: seq<BraceLine>, fs: seq<Func>, k: nat)
    requires IsExtraction(lang, lines, fs) && k < |fs|
    ensures 1 <= fs[k].startLine <= fs[k].endLine <= |lines|
    ensures forall l :: fs[k].startLine <= l <= fs[k].endLine ==> (EndsAt(lang, lines, l) <==> l == fs[k].endLine)
  {
    assert Detected(lang, lines, fs, k);
    forall l | fs[k].startLine <= l <= fs[k].endLine ensures EndsAt(lang, lines, l) <==> l == fs[k].endLine {
      assert LastLine(lang, lines, l - 1) <==> EndsAt(lang, lines, l);
    }
  }

  lemma NoLonger(lang: Lang, lines: seq<BraceLine>, fs: seq<Func>, gs: seq<Func>)
    requires IsExtraction(lang, lines, fs) && IsExtraction(lang, lines, gs)
    requires |fs| <= |gs| && gs[..|fs|] == fs
    ensures fs == gs
  {
    forall k {:trigger EndBefore(gs, k)} | 0 <= k < |gs|
      ensures EndBefore(gs, k) < gs[k].startLine <= |lines| && lines[gs[k].startLine - 1].declares.Some?
    {
      assert Detected(lang, lines, gs, k);
    }
    assert EndBefore(gs, |fs|) == EndBefore(fs, |fs|);
  }

  lemma {:induction false} SamePrefix(lang: Lang, lines: seq<BraceLine>, fs: seq<Func>, gs: seq<Func>, m: nat)
    requires IsExtraction(lang, lines, fs) && IsExtraction(lang, lines, gs)
    requires m <= |fs| && m <= |gs|
    ensures fs[..m] == gs[..m]
  {
    if m > 0 {
      SamePrefix(lang, lines, fs, gs, m - 1);
      var k := m - 1;
      assert Detected(lang, lines, fs, k) && Detected(lang, lines, gs, k);
      if k > 0 {
        assert fs[k - 1] == fs[..k][k - 1] == gs[..k][k - 1];
      }
      assert fs[k].startLine == gs[k].startLine;
      assert fs[..m] == fs[..k] + [fs[k]] && gs[..m] == gs[..k] + [gs[k]];
    }
  }

  // ----- Python -----

  /** The first declaration at or after line index i, or the number of lines. */
  function NextDeclaration(lines: seq<IndentLine>, i: nat): (next: nat)
    requires i <= |lines|
    ensures i <= next <= |lines|
    ensures next < |lines| ==> lines[next].declares.Some?
    ensures forall j :: i <= j < next ==> lines[j].declares.None?
    decreases |lines| - i
  {
    if i == |lines| || lines[i].declares.Some? then i else NextDeclaration(lines, i + 1)
  }

  /**
    The declaration on line i becomes a function of its own: a declaration whose next
    one is indented deeper (a class before its first method) is replaced, not closed.
   */
  ghost predicate Kept(lines: seq<IndentLine>, i: nat) {
    && i < |lines|
    && lines[i].declares.Some?
    && var next := NextDeclaration(lines, i + 1);
       next == |lines| || lines[next].indent <= lines[i].indent
  }

  /** The interval of the declaration on line i: up to the next declaration. */
  ghost function PythonFunc(lines: seq<IndentLine>, i: nat): Func
    requires i < |lines| && lines[i].declares.Some?
  {
    Func(lines[i].declares.value, i + 1, NextDeclaration(lines, i + 1))
  }

  /** The functions of the kept declarations among the first hi lines, in order. */
  ghost function KeptFuncs(lines: seq<IndentLine>, hi: nat): seq<Func>
    requires hi <= |lines|
  {
    if hi == 0 then []
    else KeptFuncs(lines, hi - 1) + if Kept(lines, hi - 1) then [PythonFunc(lines, hi - 1)] else []
  }

  lemma {:induction false} KeptUntilNext(lines: seq<IndentLine>, i: nat, next: nat)
    requires i <= next <= |lines| && next <= NextDeclaration(lines, i)
    ensures KeptFuncs(lines, next) == KeptFuncs(lines, i)
    decreases next
  {
    if i < next {
      KeptUntilNext(lines, i, next - 1);
    }
  }

  lemma {:induction false} NextIs(lines: seq<IndentLine>, i: nat, next: nat)
    requires i <= next <= |lines| && next <= NextDeclaration(lines, i)
    requires next < |lines| ==> lines[next].declares.Some?
    ensures NextDeclaration(lines, i) == next
  {}

  /** Before line i is looked at: the open declaration, its indent, and the functions before it. */
  ghost predicate Scanned(lines: seq<IndentLine>, fs: seq<Func>, current: Option<(string, nat)>, indent: nat, i: nat) {
    i <= |lines| &&
    match current
    case None => fs == [] && NextDeclaration(lines, 0) >= i
    case Some((name, start)) =>
      && 1 <= start <= i
      && lines[start - 1] == IndentLine(Some(name), indent)
      && NextDeclaration(lines, start) >= i
      && fs == KeptFuncs(lines, start - 1)
  }

  /** The declaration on line i, or the end of the file, is the next one after the open one. */
  lemma OpenEnds(lines: seq<IndentLine>, fs: seq<Func>, current: Option<(string, nat)>, indent: nat, i: nat)
    requires Scanned(lines, fs, current, indent, i) && (i < |lines| ==> lines[i].declares.Some?)
    ensures KeptFuncs(lines, i) == fs +
            if current.Some? && (i == |lines| || lines[i].indent <= indent)
            then [Func(current.value.0, current.value.1, i)] else []
  {
    var start := if current.Some? then current.value.1 else 0;
    NextIs(lines, start, i);
    KeptUntilNext(lines, start, i);
  }

  method ExtractPython(lines: seq<IndentLine>) returns (fs: seq<Func>)
    ensures fs == KeptFuncs(lines, |lines|)
  {
    fs := [];
    var current: Option<(string, nat)> := None;
    var currentIndent := 0;
    for i := 0 to |lines|
      invariant Scanned(lines, fs, current, currentIndent, i)
    {
      var line := lines[i];
      if line.declares.Some? {
        OpenEnds(lines, fs, current, currentIndent, i);
        if current.Some? && line.indent <= currentIndent {
          fs := fs + [Func(current.value.0, current.value.1, i)];
        }
        current := Some((line.declares.value, i + 1));
        currentIndent := line.indent;
      }
    }
    OpenEnds(lines, fs, current, currentIndent, |lines|);
    if current.Some? {
      fs := fs + [Func(current.value.0, current.value.1, |lines|)];
    }
  }

  /** Line l belongs to the declaration on line i: no other one comes in between. */
  ghost predicate Under(lines: seq<IndentLine>, i: nat, l: nat) {
    i <= l < |lines| && lines[i].declares.Some? && l < NextDeclaration(lines, i + 1)
  }

  /** A line lies in a detected function exactly when it belongs to a declaration that is kept. */
  lemma LineCovered(lines: seq<IndentLine>, l: nat)
    ensures (exists f :: f in KeptFuncs(lines, |lines|) && Contains(f, l + 1)) <==>
            exists i: nat :: Under(lines, i, l) && Kept(lines, i)
  {
    if f :| f in KeptFuncs(lines, |lines|) && Contains(f, l + 1) {
      var i := OfKept(lines, |lines|, f);
      assert Under(lines, i, l);
    }
    if i: nat :| Under(lines, i, l) && Kept(lines, i) {
      HoldsKept(lines, |lines|, i);
      assert Contains(PythonFunc(lines, i), l + 1);
    }
  }

  /** So a declaration's lines are all lost, or none of them is. */
  lemma DeclarationCovered(lines: seq<IndentLine>, i: nat, l: nat)
    requires Under(lines, i, l)
    ensures (exists f :: f in KeptFuncs(lines, |lines|) && Contains(f, l + 1)) <==> Kept(lines, i)
  {
    LineCovered(lines, l);
    forall j: nat | Under(lines, j, l) ensures j == i {
    }
  }

  lemma {:induction false} HoldsKept(lines: seq<IndentLine>, hi: nat, i: nat)
    requires i < hi <= |lines| && Kept(lines, i)
    ensures PythonFunc(lines, i) in KeptFuncs(lines, hi)
  {
    if i < hi - 1 {
      HoldsKept(lines, hi - 1, i);
    }
  }

  lemma {:induction false} OfKept(lines: seq<IndentLine>, hi: nat, f: Func) returns (i: nat)
    requires hi <= |lines| && f in KeptFuncs(lines, hi)
    ensures i < hi && Kept(lines, i) && f == PythonFunc(lines, i)
  {
    if Kept(lines, hi - 1) && f == PythonFunc(lines, hi - 1) {
      i := hi - 1;
    } else {
      i := OfKept(lines, hi - 1, f);
    }
  }

  /** The kept declarations' functions are in range, ordered and disjoint. */
  lemma {:induction false} PythonWellPlaced(lines: seq<IndentLine>, hi: nat)
    requires hi <= |lines|
    ensures WellPlaced(KeptFuncs(lines, hi), |lines|)
  {
    if hi > 0 {
      PythonWellPlaced(lines, hi - 1);
      if Kept(lines, hi - 1) {
        var fs := KeptFuncs(lines, hi - 1);
        forall k | 0 <= k < |fs| ensures fs[k].endLine < hi {
          var i := OfKept(lines, hi - 1, fs[k]);
        }
      }
    }
  }

  /** A class directly followed by an indented method: the class line is in no detected function. */
  lemma ClassLineDropped(lines: seq<IndentLine>)
    requires lines == [IndentLine(Some("Store"), 0), IndentLine(Some("load"), 4)]
    ensures KeptFuncs(lines, 2) == [Func("load", 2, 2)]
    ensures !exists f :: f in KeptFuncs(lines, 2) && Contains(f, 1)
  {
    assert NextDeclaration(lines, 1) == 1 && NextDeclaration(lines, 2) == 2;
    assert KeptFuncs(lines, 1) == KeptFuncs(lines, 0) == [];
    DeclarationCovered(lines, 0, 0);
  }
}
