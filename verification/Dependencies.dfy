/** Dependency graphs: paths, cycles and dependency-first orders. */
module Dependencies {

  type Name = string

  /** Services in registration order with the names each depends on; a list may repeat a name. */
  datatype Graph = Graph(names: seq<Name>, deps: map<Name, seq<Name>>) {
    ghost predicate Valid() {
      && (forall n :: n in deps <==> n in names)
      && (forall i, j :: 0 <= i < j < |names| ==> names[i] != names[j])
    }

    ghost predicate Complete() {
      forall n, d :: n in deps && d in deps[n] ==> d in deps
    }
  }

  ghost predicate DependsOn(g: Graph, n: Name, d: Name) {
    n in g.deps && d in g.deps[n]
  }

  /** Each name on the path depends on the next one. */
  ghost predicate IsPath(g: Graph, path: seq<Name>) {
    forall i, j :: 0 <= i && j == i + 1 && j < |path| ==> DependsOn(g, path[i], path[j])
  }

  ghost predicate IsCycle(g: Graph, path: seq<Name>) {
    |path| >= 2 && path[0] == path[|path| - 1] && IsPath(g, path)
  }

  ghost predicate Acyclic(g: Graph) {
    forall path :: !IsCycle(g, path)
  }

  /** Every service is listed after everything it depends on. */
  ghost predicate DepsFirst(g: Graph, order: seq<Name>) {
    forall i, d :: 0 <= i < |order| && DependsOn(g, order[i], d) ==> d in order[..i]
  }

  ghost predicate NoDuplicates(s: seq<Name>) {
    forall i, j :: 0 <= i < j < |s| ==> s[i] != s[j]
  }

  /** A dependency-first listing of all services, each once. */
  ghost predicate TopoOrder(g: Graph, order: seq<Name>) {
    && NoDuplicates(order)
    && (forall n :: n in order <==> n in g.deps)
    && DepsFirst(g, order)
  }

  /** Each of these services depends on one of them. */
  ghost predicate Stuck(g: Graph, names: seq<Name>) {
    names != [] && forall n :: n in names ==> Waits(g, n, names)
  }

  ghost predicate Waits(g: Graph, n: Name, names: seq<Name>) {
    exists d :: d in names && DependsOn(g, n, d)
  }

  lemma SubPath(g: Graph, path: seq<Name>, lo: nat, hi: nat)
    requires IsPath(g, path) && lo <= hi <= |path|
    ensures IsPath(g, path[lo..hi])
  {
    forall a, b | 0 <= a && b == a + 1 && b < hi - lo ensures DependsOn(g, path[lo..hi][a], path[lo..hi][b]) {
      assert DependsOn(g, path[lo + a], path[lo + b]);
    }
  }

  /** Following dependencies leads to names listed earlier. */
  lemma {:induction false} PathDescends(g: Graph, order: seq<Name>, path: seq<Name>, i: nat, at: nat)
    requires NoDuplicates(order) && DepsFirst(g, order)
    requires path != [] && IsPath(g, path)
    requires i < |order| && order[i] == path[0]
    requires 0 < at < |path|
    ensures path[at] in order[..i]
  {
    assert DependsOn(g, path[0], path[1]);
    assert path[1] in order[..i];
    if at > 1 {
      var j :| 0 <= j < i && order[j] == path[1];
      SubPath(g, path, 1, |path|);
      assert path[1..] == path[1..|path|];
      PathDescends(g, order, path[1..], j, at - 1);
    }
  }

  /** A graph with a dependency-first order has no cycle. */
  lemma OrderedIsAcyclic(g: Graph, order: seq<Name>)
    requires TopoOrder(g, order)
    ensures Acyclic(g)
  {
    forall path ensures !IsCycle(g, path) {
      if IsCycle(g, path) {
        assert DependsOn(g, path[0], path[1]);
        var i :| 0 <= i < |order| && order[i] == path[0];
        PathDescends(g, order, path, i, |path| - 1);
        assert false;
      }
    }
  }

  /** A walk of any length inside a stuck set of names. */
  lemma {:induction false} Walk(g: Graph, names: seq<Name>, len: nat) returns (path: seq<Name>)
    requires Stuck(g, names) && len >= 1
    ensures |path| == len && IsPath(g, path)
    ensures forall i :: 0 <= i < len ==> path[i] in names
  {
    if len == 1 {
      path := [names[0]];
    } else {
      var p := Walk(g, names, len - 1);
      assert p[|p| - 1] in names && Waits(g, p[|p| - 1], names);
      var d :| d in names && DependsOn(g, p[|p| - 1], d);
      path := p + [d];
      LongerPath(g, p, d);
      forall i | 0 <= i < len ensures path[i] in names {
        assert i < len - 1 ==> path[i] == p[i];
      }
    }
  }

  lemma LongerPath(g: Graph, p: seq<Name>, d: Name)
    requires p != [] && IsPath(g, p) && DependsOn(g, p[|p| - 1], d)
    ensures IsPath(g, p + [d])
  {
    var path := p + [d];
    forall i, j | 0 <= i && j == i + 1 && j < |path| ensures DependsOn(g, path[i], path[j]) {
      assert j < |p| ==> DependsOn(g, p[i], p[j]);
    }
  }

  /** A list of names longer than a list it draws from repeats one. */
  lemma {:induction false} Pigeonhole(path: seq<Name>, names: seq<Name>) returns (i: nat, j: nat)
    requires |path| > |names|
    requires forall k :: 0 <= k < |path| ==> path[k] in names
    ensures i < j < |path| && path[i] == path[j]
  {
    var last := path[|path| - 1];
    if k :| 0 <= k < |path| - 1 && path[k] == last {
      i, j := k, |path| - 1;
    } else {
      var m :| 0 <= m < |names| && names[m] == last;
      var fewer := names[..m] + names[m + 1..];
      forall k | 0 <= k < |path| - 1 ensures path[k] in fewer {
        var q :| 0 <= q < |names| && names[q] == path[k];
        assert fewer[if q < m then q else q - 1] == path[k];
      }
      i, j := Pigeonhole(path[..|path| - 1], fewer);
    }
  }

  /** Services that each wait for one another contain a cycle. */
  lemma StuckHasCycle(g: Graph, names: seq<Name>)
    requires Stuck(g, names)
    ensures !Acyclic(g)
  {
    var path := Walk(g, names, |names| + 1);
    var i, j := Pigeonhole(path, names);
    SubPath(g, path, i, j + 1);
    assert IsCycle(g, path[i..j + 1]);
  }
}
