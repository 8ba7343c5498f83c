/** Text as server/chunked-review.js handles it: lines, joined text and estimated tokens. */
module Text {

  /** `s.split('\n')`: never empty, since "" splits into one empty line. */
  function Split(s: string): (lines: seq<string>)
    ensures |lines| >= 1
    ensures forall i :: 0 <= i < |lines| ==> '\n' !in lines[i]
  {
    if s == "" then [""]
    else
      var rest := Split(s[1..]);
      if s[0] == '\n' then [""] + rest else [[s[0]] + rest[0]] + rest[1..]
  }

  /** `parts.join(sep)`. */
  function JoinWith(parts: seq<string>, sep: string): string {
    if parts == [] then ""
    else if |parts| == 1 then parts[0]
    else parts[0] + sep + JoinWith(parts[1..], sep)
  }

  function Join(lines: seq<string>): string {
    JoinWith(lines, "\n")
  }

  /** `lines.slice(first - 1, last)` for a 1-based line range; empty when the range is. */
  function Slice(lines: seq<string>, first: nat, last: nat): seq<string>
    requires 1 <= first
  {
    var hi := if last <= |lines| then last else |lines|;
    if first <= hi then lines[first - 1..hi] else []
  }

  /** Tokens set aside for the prompt around a reviewed text. */
  const PROMPT_OVERHEAD := 2000

  /** `Math.ceil(text.length / 4)`, which is 0 for the empty text. */
  function Tokens(text: string): (tokens: nat)
    ensures 4 * tokens - 4 < |text| <= 4 * tokens
  {
    (|text| + 3) / 4
  }

  lemma {:induction false} SplitPrepend(line: string, s: string)
    requires '\n' !in line
    ensures Split(line + s) == [line + Split(s)[0]] + Split(s)[1..]
  {
    if line == "" {
      assert line + s == s && line + Split(s)[0] == Split(s)[0];
    } else {
      SplitPrepend(line[1..], s);
      assert line + s == [line[0]] + (line[1..] + s);
      SplitCons(line[0], line[1..] + s);
      assert [line[0]] + (line[1..] + Split(s)[0]) == line + Split(s)[0];
    }
  }

  lemma SplitCons(c: char, rest: string)
    requires c != '\n'
    ensures Split([c] + rest) == [[c] + Split(rest)[0]] + Split(rest)[1..]
  {
    assert ([c] + rest)[1..] == rest;
  }

  /** Splitting undoes joining, for any nonempty list of lines. */
  lemma {:induction false} SplitOfJoin(lines: seq<string>)
    requires lines != []
    requires forall i :: 0 <= i < |lines| ==> '\n' !in lines[i]
    ensures Split(Join(lines)) == lines
  {
    if |lines| == 1 {
      SplitPrepend(lines[0], "");
      assert lines[0] + "" == lines[0];
    } else {
      var rest := "\n" + Join(lines[1..]);
      assert Join(lines) == lines[0] + rest;
      SplitPrepend(lines[0], rest);
      SplitOfJoin(lines[1..]);
      assert rest[1..] == Join(lines[1..]);
      assert lines[0] + "" == lines[0];
    }
  }

  /** Joining undoes splitting, for every text. */
  lemma {:induction false} JoinOfSplit(s: string)
    ensures Join(Split(s)) == s
  {
    if s != "" {
      JoinOfSplit(s[1..]);
      var rest := Split(s[1..]);
      if s[0] == '\n' {
        assert ([""] + rest)[1..] == rest;
      } else {
        assert ([[s[0]] + rest[0]] + rest[1..])[1..] == rest[1..];
        assert s == [s[0]] + s[1..];
      }
    }
  }

  // ----- What a range of lines measures -----

  /** The characters of lines first..last, with a line break between neighbours. */
  ghost function Span(lines: seq<string>, first: nat, last: nat): nat
    requires 1 <= first <= last <= |lines|
  {
    if first == last then |lines[first - 1]| else Span(lines, first, last - 1) + 1 + |lines[last - 1]|
  }

  /** The number of tokens of a text of this length: four characters each, the last one perhaps fewer. */
  ghost predicate Measures(tokens: nat, length: nat) {
    4 * tokens - 4 < length <= 4 * tokens
  }

  lemma SliceAt(lines: seq<string>, first: nat, last: nat)
    requires 1 <= first <= last <= |lines|
    ensures |Slice(lines, first, last)| == last - first + 1
    ensures forall i :: 0 <= i <= last - first ==> Slice(lines, first, last)[i] == lines[first - 1 + i]
  {}

  lemma JoinCons(head: string, tail: seq<string>)
    requires tail != []
    ensures Join([head] + tail) == head + "\n" + Join(tail)
  {
    assert ([head] + tail)[1..] == tail;
  }

  lemma {:induction false} JoinLength(lines: seq<string>, line: string)
    requires lines != []
    ensures |Join(lines + [line])| == |Join(lines)| + 1 + |line|
  {
    assert (lines + [line])[1..] == lines[1..] + [line];
    if |lines| > 1 {
      JoinLength(lines[1..], line);
    } else {
      assert Join([line]) == line;
    }
  }

  /** The text of a range of lines is as long as the range. */
  lemma {:induction false} SliceSpans(lines: seq<string>, first: nat, last: nat)
    requires 1 <= first <= last <= |lines|
    ensures |Join(Slice(lines, first, last))| == Span(lines, first, last)
    decreases last
  {
    if first < last {
      SliceSpans(lines, first, last - 1);
      SliceGrows(lines, first, last);
      JoinLength(Slice(lines, first, last - 1), lines[last - 1]);
    } else {
      assert Slice(lines, first, last) == [lines[first - 1]];
    }
  }

  lemma SliceGrows(lines: seq<string>, first: nat, last: nat)
    requires 1 <= first < last <= |lines|
    ensures Slice(lines, first, last - 1) != []
    ensures Slice(lines, first, last) == Slice(lines, first, last - 1) + [lines[last - 1]]
  {
    SliceAt(lines, first, last);
    SliceAt(lines, first, last - 1);
  }

  /** A range of a range, in the numbering of the whole. */
  lemma {:induction false} SpanOfSlice(lines: seq<string>, first: nat, last: nat, a: nat, b: nat)
    requires 1 <= first <= last <= |lines| && 1 <= a <= b <= last - first + 1
    ensures |Slice(lines, first, last)| == last - first + 1
    ensures Span(Slice(lines, first, last), a, b) == Span(lines, first + a - 1, first + b - 1)
    decreases b
  {
    SliceAt(lines, first, last);
    if a < b {
      SpanOfSlice(lines, first, last, a, b - 1);
    }
  }
}
