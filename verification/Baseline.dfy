/** The audit's baseline of known violations (scripts/audit-db-queries.js). */
module Baseline {
  import opened Sorting
  import opened Text
  import opened Sequences

  /** A full-scan finding; `file` is already relative to the repository and slash-separated. */
  datatype Violation = Violation(file: string, line: nat, table: string, cols: seq<string>)

  /** A row of the baseline file; the source reads absent fields as empty. */
  datatype Row = Row(file: string, table: string, cols: seq<string>)

  /** Identity of a finding: file, table and the set of columns; the line does not count. */
  function Fingerprint(file: string, table: string, cols: seq<string>): string {
    file + "::" + table + "::" + JoinWith(UniqSorted(cols), ",")
  }

  function FingerprintViolation(v: Violation): string { Fingerprint(v.file, v.table, v.cols) }

  function FingerprintRow(r: Row): string { Fingerprint(r.file, r.table, r.cols) }

  /** Moves, order and repetition of columns do not change a violation's identity. */
  lemma FingerprintStable(v: Violation, w: Violation)
    requires v.file == w.file && v.table == w.table && (forall c :: c in v.cols <==> c in w.cols)
    ensures FingerprintViolation(v) == FingerprintViolation(w)
  {
    UniqSortedBySet(v.cols, w.cols);
  }

  /** What precedes the first separator is determined when it holds no character of it. */
  lemma FirstField(a: string, x: string, b: string, y: string, sep: string)
    requires sep != "" && sep[0] !in a && sep[0] !in b && a + sep + x == b + sep + y
    ensures a == b && x == y
  {
    var s := a + sep + x;
    assert s[|a|] == sep[0] && s[|b|] == sep[0];
    assert forall i :: 0 <= i < |a| ==> s[i] == a[i] && a[i] in a;
    assert forall i :: 0 <= i < |b| ==> s[i] == b[i] && b[i] in b;
    assert |a| == |b|;
    assert a == s[..|a|] && b == s[..|b|];
    assert x == s[|a| + |sep|..] && y == s[|b| + |sep|..];
  }

  ghost predicate PlainColumns(cols: seq<string>) {
    forall c :: c in cols ==> c != "" && ',' !in c
  }

  lemma JoinShape(cols: seq<string>)
    requires PlainColumns(cols)
    ensures JoinWith(cols, ",") == "" <==> cols == []
    ensures ',' in JoinWith(cols, ",") <==> |cols| > 1
  {
    if cols != [] {
      assert cols[0] in cols;
      if |cols| > 1 {
        assert JoinWith(cols, ",")[|cols[0]|] == ',';
      }
    }
  }

  lemma {:induction false} JoinDetermines(a: seq<string>, b: seq<string>)
    requires PlainColumns(a) && PlainColumns(b) && JoinWith(a, ",") == JoinWith(b, ",")
    ensures a == b
  {
    JoinShape(a);
    JoinShape(b);
    if |a| > 1 {
      assert a[0] in a && b[0] in b;
      assert forall c :: (c in a[1..] ==> c in a) && (c in b[1..] ==> c in b);
      FirstField(a[0], JoinWith(a[1..], ","), b[0], JoinWith(b[1..], ","), ",");
      JoinDetermines(a[1..], b[1..]);
      assert a == [a[0]] + a[1..] && b == [b[0]] + b[1..];
    }
  }

  /**
    Different findings have different identities, as long as no colon is in their files and
    tables and no comma in their columns' names.
   */
  lemma FingerprintDistinct(v: Violation, w: Violation)
    requires ':' !in v.file && ':' !in v.table && PlainColumns(v.cols)
    requires ':' !in w.file && ':' !in w.table && PlainColumns(w.cols)
    ensures FingerprintViolation(v) == FingerprintViolation(w) <==>
            v.file == w.file && v.table == w.table && forall c :: c in v.cols <==> c in w.cols
  {
    if FingerprintViolation(v) == FingerprintViolation(w) {
      FieldsDetermined(v.file, v.table, UniqSorted(v.cols), w.file, w.table, UniqSorted(w.cols));
      UniqSortedBySet(v.cols, w.cols);
    } else if v.file == w.file && v.table == w.table && forall c :: c in v.cols <==> c in w.cols {
      FingerprintStable(v, w);
    }
  }

  lemma Regroup(a: string, b: string, c: string, d: string)
    ensures a + b + c + d == a + (b + c + d)
  {}

  lemma FieldsDetermined(f: string, t: string, cols: seq<string>, f': string, t': string, cols': seq<string>)
    requires ':' !in f && ':' !in t && ':' !in f' && ':' !in t' && PlainColumns(cols) && PlainColumns(cols')
    requires f + "::" + t + "::" + JoinWith(cols, ",") == f' + "::" + t' + "::" + JoinWith(cols', ",")
    ensures f == f' && t == t' && cols == cols'
  {
    var x, y := t + "::" + JoinWith(cols, ","), t' + "::" + JoinWith(cols', ",");
    Regroup(f + "::", t, "::", JoinWith(cols, ","));
    Regroup(f' + "::", t', "::", JoinWith(cols', ","));
    assert f + "::" + x == f' + "::" + y;
    FirstField(f, x, f', y, "::");
    FirstField(t, JoinWith(cols, ","), t', JoinWith(cols', ","), "::");
    JoinDetermines(cols, cols');
  }

  /** With a separator in a name two findings can share an identity. */
  lemma SharedIdentity(v: Violation, w: Violation)
    requires v == Violation("a::b", 1, "c", []) && w == Violation("a", 1, "b::c", [])
    ensures v != w && FingerprintViolation(v) == FingerprintViolation(w) == "a::b::c::"
  {}

  // ----- Counting -----

  /** How many elements have this identity. */
  ghost function Count<T>(id: T -> string, s: seq<T>, fp: string): nat {
    if s == [] then 0 else Count(id, s[..|s| - 1], fp) + if id(s[|s| - 1]) == fp then 1 else 0
  }

  lemma CountMore<T>(id: T -> string, s: seq<T>, x: T, fp: string)
    ensures Count(id, s + [x], fp) == Count(id, s, fp) + if id(x) == fp then 1 else 0
  {
    assert (s + [x])[..|s|] == s;
  }

  ghost function CountOf(vs: seq<Violation>, fp: string): nat { Count(FingerprintViolation, vs, fp) }

  ghost function RowCount(rows: seq<Row>, fp: string): nat { Count(FingerprintRow, rows, fp) }

  ghost function RowCounts(rows: seq<Row>): string -> nat { fp => RowCount(rows, fp) }

  /** a - b, but not below zero. */
  function Minus(a: nat, b: nat): nat { if a >= b then a - b else 0 }

  function Get(m: map<string, nat>, fp: string): nat { if fp in m then m[fp] else 0 }

  method CountRows(rows: seq<Row>) returns (remaining: map<string, nat>)
    ensures forall fp :: Get(remaining, fp) == RowCount(rows, fp)
  {
    remaining := map[];
    for i := 0 to |rows|
      invariant forall fp :: Get(remaining, fp) == Count(FingerprintRow, rows[..i], fp)
    {
      assert rows[..i + 1][..i] == rows[..i];
      var fp := FingerprintRow(rows[i]);
      remaining := remaining[fp := Get(remaining, fp) + 1];
    }
    assert rows[..|rows|] == rows;
  }

  /** The elements preceded by at least as many of their identity as are allowed. */
  ghost function Excess<T>(id: T -> string, s: seq<T>, allowed: string -> nat): seq<T> {
    if s == [] then []
    else
      var before, x := s[..|s| - 1], s[|s| - 1];
      Excess(id, before, allowed) + if Count(id, before, id(x)) >= allowed(id(x)) then [x] else []
  }

  lemma ExcessMore<T>(id: T -> string, s: seq<T>, x: T, allowed: string -> nat)
    ensures Excess(id, s + [x], allowed) ==
            if Count(id, s, id(x)) >= allowed(id(x)) then Excess(id, s, allowed) + [x] else Excess(id, s, allowed)
  {
    assert (s + [x])[..|s|] == s;
    assert Excess(id, s, allowed) + [] == Excess(id, s, allowed);
  }

  /** What is left of each identity's allowance after these elements. */
  ghost predicate Left<T>(id: T -> string, remaining: map<string, nat>, allowed: string -> nat, seen: seq<T>) {
    forall fp :: Get(remaining, fp) == Minus(allowed(fp), Count(id, seen, fp))
  }

  /** The next element takes up one of its identity's allowance if any is left, and is in excess otherwise. */
  lemma TakeOne<T>(id: T -> string, remaining: map<string, nat>, allowed: string -> nat, seen: seq<T>, x: T)
    requires Left(id, remaining, allowed, seen)
    ensures var c := Get(remaining, id(x));
            && Left(id, if c > 0 then remaining[id(x) := c - 1] else remaining, allowed, seen + [x])
            && Excess(id, seen + [x], allowed) ==
                 if c > 0 then Excess(id, seen, allowed) else Excess(id, seen, allowed) + [x]
  {
    ExcessMore(id, seen, x, allowed);
    var c := Get(remaining, id(x));
    assert c == Minus(allowed(id(x)), Count(id, seen, id(x)));
    var next := if c > 0 then remaining[id(x) := c - 1] else remaining;
    forall fp ensures Get(next, fp) == Minus(allowed(fp), Count(id, seen + [x], fp)) {
      CountMore(id, seen, x, fp);
      assert Get(remaining, fp) == Minus(allowed(fp), Count(id, seen, fp));
    }
  }

  method SubtractBaseline(current: seq<Violation>, rows: seq<Row>) returns (newOnes: seq<Violation>)
    ensures newOnes == Excess(FingerprintViolation, current, RowCounts(rows))
  {
    ghost var id, allowed := FingerprintViolation, RowCounts(rows);
    var remaining := CountRows(rows);
    newOnes := [];
    for i := 0 to |current|
      invariant newOnes == Excess(id, current[..i], allowed)
      invariant Left(id, remaining, allowed, current[..i])
    {
      assert current[..i + 1] == current[..i] + [current[i]];
      var known: bool;
      TakeOne(id, remaining, allowed, current[..i], current[i]);
      remaining, known := TakeRow(remaining, FingerprintViolation(current[i]));
      if !known {
        newOnes := newOnes + [current[i]];
      }
    }
    assert current[..|current|] == current;
  }

  /** Use up a row of this identity, if one is left. */
  method TakeRow(remaining: map<string, nat>, fp: string) returns (remaining': map<string, nat>, known: bool)
    ensures known <==> Get(remaining, fp) > 0
    ensures remaining' == if known then remaining[fp := Get(remaining, fp) - 1] else remaining
  {
    remaining' := remaining;
    var c := Get(remaining, fp);
    known := c > 0;
    if known {
      remaining' := remaining[fp := c - 1];
    }
  }

  /** Multiset subtraction: each identity is left as often as it exceeds its allowance. */
  lemma {:induction false} ExcessCount<T>(id: T -> string, s: seq<T>, allowed: string -> nat, fp: string)
    ensures Count(id, Excess(id, s, allowed), fp) == Minus(Count(id, s, fp), allowed(fp))
  {
    if s != [] {
      var before, x := s[..|s| - 1], s[|s| - 1];
      ExcessCount(id, before, allowed, fp);
      CountMore(id, Excess(id, before, allowed), x, fp);
      assert s == before + [x];
      ExcessMore(id, before, x, allowed);
    }
  }

  /** What is left keeps the order in which it was found. */
  lemma {:induction false} ExcessPicks<T>(id: T -> string, s: seq<T>, allowed: string -> nat)
    returns (positions: seq<nat>)
    ensures PicksFrom(Excess(id, s, allowed), positions, s)
  {
    if s == [] {
      positions := [];
    } else {
      var m := |s| - 1;
      positions := ExcessPicks(id, s[..m], allowed);
      PicksMore(Excess(id, s[..m], allowed), positions, s);
      if Excess(id, s, allowed) != Excess(id, s[..m], allowed) {
        positions := positions + [m];
      }
    }
  }

  // ----- Writing a baseline -----

  function RowOf(v: Violation): Row {
    Row(v.file, v.table, UniqSorted(v.cols))
  }

  /** The order of the written rows: by file, then table, then joined columns. */
  predicate RowBefore(a: Row, b: Row) {
    if a.file != b.file then Before(a.file, b.file)
    else if a.table != b.table then Before(a.table, b.table)
    else Before(JoinWith(a.cols, ","), JoinWith(b.cols, ","))
  }

  /** Insertion keeps the elements; used for the library sort, whose steps are not the point. */
  function InsertRow(rows: seq<Row>, r: Row): (result: seq<Row>)
    ensures multiset(result) == multiset(rows) + multiset{r}
  {
    if rows == [] || RowBefore(r, rows[0]) then [r] + rows
    else
      assert rows == [rows[0]] + rows[1..];
      [rows[0]] + InsertRow(rows[1..], r)
  }

  function SortRows(rows: seq<Row>): (result: seq<Row>)
    ensures multiset(result) == multiset(rows)
  {
    if rows == [] then []
    else
      assert rows == rows[..|rows| - 1] + [rows[|rows| - 1]];
      InsertRow(SortRows(rows[..|rows| - 1]), rows[|rows| - 1])
  }

  /** b may follow a in a written baseline: by file, within a file by table, within a table by columns. */
  ghost predicate MayFollow(a: Row, b: Row) {
    || Before(a.file, b.file)
    || (a.file == b.file && Before(a.table, b.table))
    || (a.file == b.file && a.table == b.table && !Before(JoinWith(b.cols, ","), JoinWith(a.cols, ",")))
  }

  ghost predicate RowsOrdered(rows: seq<Row>) {
    forall i, j :: 0 <= i < j < |rows| ==> MayFollow(rows[i], rows[j])
  }

  lemma OneOrTheOther(a: Row, b: Row)
    ensures RowBefore(a, b) <==> !MayFollow(b, a)
    ensures RowBefore(a, b) ==> MayFollow(a, b)
  {
    BeforeTrichotomy(a.file, b.file);
    BeforeTrichotomy(a.table, b.table);
    BeforeTrichotomy(JoinWith(a.cols, ","), JoinWith(b.cols, ","));
  }

  /** For strings: a not after b, b not after c. */
  lemma NotAfterTransitive(a: string, b: string, c: string)
    requires !Before(b, a) && !Before(c, b)
    ensures !Before(c, a)
  {
    BeforeTrichotomy(a, b);
    BeforeTrichotomy(b, c);
    BeforeTrichotomy(a, c);
    if Before(a, b) && Before(b, c) {
      BeforeTransitive(a, b, c);
    }
  }

  lemma FollowTransitive(a: Row, b: Row, c: Row)
    requires MayFollow(a, b) && MayFollow(b, c)
    ensures MayFollow(a, c)
  {
    if Before(a.file, b.file) && Before(b.file, c.file) {
      BeforeTransitive(a.file, b.file, c.file);
    } else if a.file == b.file == c.file {
      if Before(a.table, b.table) && Before(b.table, c.table) {
        BeforeTransitive(a.table, b.table, c.table);
      } else if a.table == b.table == c.table {
        BeforeTrichotomy(a.file, a.file);
        BeforeTrichotomy(a.table, a.table);
        NotAfterTransitive(JoinWith(a.cols, ","), JoinWith(b.cols, ","), JoinWith(c.cols, ","));
      }
    }
  }

  lemma {:induction false} InsertOrdered(rows: seq<Row>, r: Row)
    requires RowsOrdered(rows)
    ensures RowsOrdered(InsertRow(rows, r))
  {
    if rows != [] {
      OneOrTheOther(r, rows[0]);
      if RowBefore(r, rows[0]) {
        forall j | 0 < j < |rows| ensures MayFollow(r, rows[j]) {
          FollowTransitive(r, rows[0], rows[j]);
        }
      } else {
        InsertOrdered(rows[1..], r);
        var rest := InsertRow(rows[1..], r);
        forall j | 0 <= j < |rest| ensures MayFollow(rows[0], rest[j]) {
          assert rest[j] in multiset(rest);
          assert rest[j] in rows[1..] || rest[j] == r;
        }
      }
    }
  }

  lemma {:induction false} SortOrders(rows: seq<Row>)
    ensures RowsOrdered(SortRows(rows))
  {
    if rows != [] {
      SortOrders(rows[..|rows| - 1]);
      InsertOrdered(SortRows(rows[..|rows| - 1]), rows[|rows| - 1]);
    }
  }

  /** A row for each violation, with its columns sorted and without repetitions, in order. */
  method ViolationsToBaselineRows(violations: seq<Violation>) returns (rows: seq<Row>)
    ensures RowsOrdered(rows) && multiset(rows) == multiset(RowsOf(violations))
    ensures forall i :: 0 <= i < |violations| ==> RowFor(RowsOf(violations)[i], violations[i])
  {
    rows := SortRows(RowsOf(violations));
    SortOrders(RowsOf(violations));
  }

  ghost predicate RowFor(r: Row, v: Violation) {
    r.file == v.file && r.table == v.table && Increasing(r.cols) && forall c :: c in r.cols <==> c in v.cols
  }

  /** Counts depend on the multiset only. */
  lemma {:induction false} CountOfMultiset<T>(id: T -> string, a: seq<T>, b: seq<T>, fp: string)
    requires multiset(a) == multiset(b)
    ensures Count(id, a, fp) == Count(id, b, fp)
  {
    if a == [] {
      assert |multiset(b)| == 0;
      assert b == [];
    } else {
      var m := |a| - 1;
      assert a == a[..m] + [a[m]];
      assert a[m] in multiset(b);
      var k :| 0 <= k < |b| && b[k] == a[m];
      MultisetWithout(b, k);
      CountOfMultiset(id, a[..m], b[..k] + b[k + 1..], fp);
      CountWithout(id, b, k, fp);
    }
  }

  lemma MultisetWithout<T>(b: seq<T>, k: nat)
    requires k < |b|
    ensures multiset(b[..k] + b[k + 1..]) == multiset(b) - multiset{b[k]}
  {
    assert b == b[..k] + [b[k]] + b[k + 1..];
  }

  lemma {:induction false} CountAppend<T>(id: T -> string, a: seq<T>, b: seq<T>, fp: string)
    ensures Count(id, a + b, fp) == Count(id, a, fp) + Count(id, b, fp)
  {
    if b == [] {
      assert a + b == a;
    } else {
      var m := |b| - 1;
      CountAppend(id, a, b[..m], fp);
      CountMore(id, a + b[..m], b[m], fp);
      assert a + b == a + b[..m] + [b[m]];
    }
  }

  lemma CountWithout<T>(id: T -> string, b: seq<T>, k: nat, fp: string)
    requires k < |b|
    ensures Count(id, b, fp) == Count(id, b[..k] + b[k + 1..], fp) + if id(b[k]) == fp then 1 else 0
  {
    assert b == b[..k] + [b[k]] + b[k + 1..];
    CountMore(id, b[..k], b[k], fp);
    CountAppend(id, b[..k] + [b[k]], b[k + 1..], fp);
    CountAppend(id, b[..k], b[k + 1..], fp);
  }

  /** A written row has the identity of its violation. */
  lemma RowKeepsFingerprint(v: Violation)
    ensures FingerprintRow(RowOf(v)) == FingerprintViolation(v)
  {
    UniqSortedBySet(UniqSorted(v.cols), v.cols);
  }

  function RowsOf(vs: seq<Violation>): seq<Row> {
    seq(|vs|, i requires 0 <= i < |vs| => RowOf(vs[i]))
  }

  lemma {:induction false} MappedCount(vs: seq<Violation>, fp: string)
    ensures RowCount(RowsOf(vs), fp) == CountOf(vs, fp)
  {
    if vs != [] {
      var m := |vs| - 1;
      MappedCount(vs[..m], fp);
      RowKeepsFingerprint(vs[m]);
      assert RowsOf(vs)[..m] == RowsOf(vs[..m]);
    }
  }

  lemma NothingCounted<T>(id: T -> string, s: seq<T>)
    requires forall fp :: Count(id, s, fp) == 0
    ensures s == []
  {
    if s != [] {
      assert Count(id, s, id(s[|s| - 1])) > 0;
    }
  }

  /**
    A freshly written baseline absorbs the findings it was written from, in whatever order they
    are found the next time and wherever their lines have moved; anything beyond them is new.
   */
  method WriteThenAudit(written: seq<Violation>, found: seq<Violation>) returns (newOnes: seq<Violation>)
    ensures forall fp :: CountOf(newOnes, fp) == Minus(CountOf(found, fp), CountOf(written, fp))
    ensures (forall fp :: CountOf(found, fp) <= CountOf(written, fp)) <==> newOnes == []
  {
    var rows := ViolationsToBaselineRows(written);
    newOnes := SubtractBaseline(found, rows);
    forall fp ensures CountOf(newOnes, fp) == Minus(CountOf(found, fp), CountOf(written, fp)) {
      CountOfMultiset(FingerprintRow, rows, RowsOf(written), fp);
      MappedCount(written, fp);
      ExcessCount(FingerprintViolation, found, RowCounts(rows), fp);
    }
    if forall fp :: CountOf(found, fp) <= CountOf(written, fp) {
      forall fp ensures Count(FingerprintViolation, newOnes, fp) == 0 {
        assert CountOf(newOnes, fp) == 0;
      }
      NothingCounted(FingerprintViolation, newOnes);
    } else {
      var fp :| CountOf(found, fp) > CountOf(written, fp);
      assert CountOf(newOnes, fp) > 0;
    }
  }
}
