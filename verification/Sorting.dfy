/** `Array.from(new Set(values)).sort()` on strings, ordered character by character. */
module Sorting {

  /** a comes strictly before b. */
  predicate Before(a: string, b: string) {
    if b == "" then false
    else if a == "" then true
    else if a[0] != b[0] then a[0] < b[0]
    else Before(a[1..], b[1..])
  }

  lemma {:induction false} BeforeTrichotomy(a: string, b: string)
    ensures (if Before(a, b) then 1 else 0) + (if Before(b, a) then 1 else 0) + (if a == b then 1 else 0) == 1
  {
    if a != "" && b != "" && a[0] == b[0] {
      BeforeTrichotomy(a[1..], b[1..]);
      assert a == [a[0]] + a[1..] && b == [b[0]] + b[1..];
    }
  }

  /** a and b agree up to position k, where a ends first or has the smaller character. */
  ghost predicate DiffersAt(a: string, b: string, k: nat) {
    && k <= |a| && k < |b| && a[..k] == b[..k]
    && (k < |a| ==> a[k] < b[k])
  }

  lemma {:induction false} BeforeMeans(a: string, b: string)
    ensures Before(a, b) <==> exists k: nat :: DiffersAt(a, b, k)
  {
    if a != "" && b != "" && a[0] == b[0] {
      BeforeMeans(a[1..], b[1..]);
      if k: nat :| DiffersAt(a[1..], b[1..], k) {
        assert a[..k + 1] == [a[0]] + a[1..][..k] && b[..k + 1] == [b[0]] + b[1..][..k];
        assert DiffersAt(a, b, k + 1);
      }
      if k: nat :| DiffersAt(a, b, k) {
        assert k > 0 && a[1..][..k - 1] == a[..k][1..] && b[1..][..k - 1] == b[..k][1..];
        assert DiffersAt(a[1..], b[1..], k - 1);
      }
    } else if b != "" && (a == "" || a[0] < b[0]) {
      assert a[..0] == b[..0] && DiffersAt(a, b, 0);
    } else if k: nat :| DiffersAt(a, b, k) {
      DiffersHead(a, b, k);
    }
  }

  lemma DiffersHead(a: string, b: string, k: nat)
    requires DiffersAt(a, b, k)
    ensures b != "" && (a == "" || a[0] <= b[0])
  {
    if k > 0 {
      assert a[..k][0] == b[..k][0];
    }
  }

  lemma {:induction false} BeforeTransitive(a: string, b: string, c: string)
    requires Before(a, b) && Before(b, c)
    ensures Before(a, c)
  {
    if a != "" && a[0] == b[0] && b[0] == c[0] {
      BeforeTransitive(a[1..], b[1..], c[1..]);
    }
  }

  /** Strictly increasing, hence without repetitions. */
  ghost predicate Increasing(s: seq<string>) {
    forall i, j :: 0 <= i < j < |s| ==> Before(s[i], s[j])
  }

  /** s with x put in its place, unless it is there already. */
  function Insert(s: seq<string>, x: string): (r: seq<string>)
    requires Increasing(s)
    ensures Increasing(r)
    ensures forall y :: y in r <==> y in s || y == x
  {
    if s == [] then [x]
    else if x == s[0] then s
    else if Before(x, s[0]) then
      assert forall j :: 0 <= j < |s| ==> Before(x, s[j]) by {
        forall j | 0 < j < |s| ensures Before(x, s[j]) { BeforeTransitive(x, s[0], s[j]); }
      }
      [x] + s
    else
      BeforeTrichotomy(x, s[0]);
      var rest := Insert(s[1..], x);
      assert forall j :: 0 <= j < |rest| ==> rest[j] in rest && (rest[j] in s[1..] || rest[j] == x);
      [s[0]] + rest
  }

  function UniqSorted(values: seq<string>): (r: seq<string>)
    ensures Increasing(r)
    ensures forall y :: y in r <==> y in values
  {
    if values == [] then [] else Insert(UniqSorted(values[1..]), values[0])
  }

  lemma FirstOnlyOnce(s: seq<string>)
    requires s != [] && Increasing(s)
    ensures s[0] !in s[1..]
  {
    BeforeTrichotomy(s[0], s[0]);
  }

  lemma HeadLeast(s: seq<string>, y: string)
    requires Increasing(s) && y in s
    ensures y == s[0] || Before(s[0], y)
  {}

  lemma HeadIn(s: seq<string>)
    ensures s != [] ==> s[0] in s
  {}

  /** An increasing list is determined by its elements. */
  lemma {:induction false} IncreasingUnique(a: seq<string>, b: seq<string>)
    requires Increasing(a) && Increasing(b)
    requires forall y :: y in a <==> y in b
    ensures a == b
  {
    HeadIn(a);
    HeadIn(b);
    if a != [] {
      assert b != [] && b[0] in a;
      BeforeTrichotomy(a[0], b[0]);
      HeadLeast(b, a[0]);
      HeadLeast(a, b[0]);
      assert a[0] == b[0];
      FirstOnlyOnce(a);
      FirstOnlyOnce(b);
      assert a == [a[0]] + a[1..] && b == [b[0]] + b[1..];
      forall y ensures y in a[1..] <==> y in b[1..] {
        assert y in a <==> y in b;
      }
      IncreasingUnique(a[1..], b[1..]);
    }
  }

  /** Sorting forgets order and repetitions, and nothing else. */
  lemma UniqSortedBySet(a: seq<string>, b: seq<string>)
    ensures UniqSorted(a) == UniqSorted(b) <==> forall y :: y in a <==> y in b
  {
    if forall y :: y in a <==> y in b {
      IncreasingUnique(UniqSorted(a), UniqSorted(b));
    } else {
      assert UniqSorted(a) == UniqSorted(b) ==> forall y :: y in UniqSorted(a) <==> y in UniqSorted(b);
    }
  }
}
