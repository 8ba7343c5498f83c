/** Kahn's algorithm as server/container.js runs it, with its error reports. */
module KahnSort {
  import opened Dependencies
  import opened Sequences

  datatype SortResult =
    | Sorted(order: seq<Name>)
    | NotRegistered(service: Name, dep: Name)
    | Circular(remaining: seq<Name>)

  /** How many entries of a dependency list are not yet sorted, counting repeats. */
  ghost function Pending(deps: seq<Name>, sorted: seq<Name>): nat {
    if deps == [] then 0
    else Pending(deps[..|deps| - 1], sorted) + if deps[|deps| - 1] in sorted then 0 else 1
  }

  /** How often x occurs in s. */
  ghost function Count(s: seq<Name>, x: Name): nat {
    if s == [] then 0 else Count(s[..|s| - 1], x) + if s[|s| - 1] == x then 1 else 0
  }

  lemma CountMore(s: seq<Name>, y: Name, x: Name)
    ensures Count(s + [y], x) == Count(s, x) + if x == y then 1 else 0
  {
    assert (s + [y])[..|s|] == s;
  }

  lemma {:induction false} CountPrefix(s: seq<Name>, k: nat, x: Name)
    requires k <= |s|
    ensures Count(s[..k], x) <= Count(s, x)
  {
    if k == |s| {
      assert s[..k] == s;
    } else {
      CountPrefix(s[..|s| - 1], k, x);
      assert s[..|s| - 1][..k] == s[..k];
    }
  }

  lemma {:induction false} PendingZero(deps: seq<Name>, sorted: seq<Name>)
    ensures Pending(deps, sorted) == 0 <==> forall d :: d in deps ==> d in sorted
  {
    if deps != [] {
      var m := |deps| - 1;
      PendingZero(deps[..m], sorted);
      assert deps == deps[..m] + [deps[m]];
    }
  }

  lemma {:induction false} PendingNone(deps: seq<Name>)
    ensures Pending(deps, []) == |deps|
  {
    if deps != [] {
      PendingNone(deps[..|deps| - 1]);
    }
  }

  lemma {:induction false} PendingStep(deps: seq<Name>, sorted: seq<Name>, c: Name)
    requires c !in sorted
    ensures Pending(deps, sorted) == Pending(deps, sorted + [c]) + Count(deps, c)
  {
    if deps != [] {
      var m := |deps| - 1;
      PendingStep(deps[..m], sorted, c);
      assert deps == deps[..m] + [deps[m]];
    }
  }

  /** For each service, who depends on it, once per mention. */
  ghost predicate Reverses(g: Graph, dependents: map<Name, seq<Name>>) {
    && dependents.Keys == g.deps.Keys
    && (forall d, n {:trigger n in dependents[d]} :: d in g.deps && n in dependents[d] ==> n in g.deps)
    && forall d, n {:trigger Count(dependents[d], n)} ::
         d in g.deps && n in g.deps ==> Count(dependents[d], n) == Count(g.deps[n], d)
  }

  method FindUnregistered(g: Graph) returns (r: SortResult)
    requires g.Valid()
    ensures r.NotRegistered? || r == Sorted([])
    ensures r.NotRegistered? ==> DependsOn(g, r.service, r.dep) && r.dep !in g.deps
    ensures r.Sorted? ==> g.Complete()
  {
    for i := 0 to |g.names|
      invariant forall k, d :: 0 <= k < i && d in g.deps[g.names[k]] ==> d in g.deps
    {
      var deps := g.deps[g.names[i]];
      for j := 0 to |deps|
        invariant forall k :: 0 <= k < j ==> deps[k] in g.deps
      {
        if deps[j] !in g.deps {
          return NotRegistered(g.names[i], deps[j]);
        }
      }
    }
    forall n, d | n in g.deps && d in g.deps[n] ensures d in g.deps {
      assert n in g.names;
    }
    return Sorted([]);
  }

  /** Which (d, n) entries are made once the services in `done` and the deps `part` of `name` are. */
  ghost predicate Entered(g: Graph, done: seq<Name>, name: Name, part: seq<Name>, dependents: map<Name, seq<Name>>) {
    && dependents.Keys == g.deps.Keys
    && (forall d, n {:trigger n in dependents[d]} :: d in g.deps && n in dependents[d] ==> n in g.deps)
    && (forall d, n {:trigger Count(dependents[d], n)} ::
          d in g.deps && n in g.deps ==> Count(dependents[d], n) == EntriesFor(g, done, name, part, d, n))
  }

  ghost function EntriesFor(g: Graph, done: seq<Name>, name: Name, part: seq<Name>, d: Name, n: Name): nat
    requires n in g.deps
  {
    if n in done then Count(g.deps[n], d) else if n == name then Count(part, d) else 0
  }

  method ReverseEdges(g: Graph) returns (dependents: map<Name, seq<Name>>)
    requires g.Valid() && g.Complete()
    ensures Reverses(g, dependents)
  {
    dependents := map n | n in g.deps :: [];
    for i := 0 to |g.names|
      invariant Entered(g, g.names[..i], "", [], dependents)
    {
      dependents := AddService(g, i, dependents);
    }
    assert g.names[..|g.names|] == g.names;
  }

  method AddService(g: Graph, i: nat, dependents: map<Name, seq<Name>>) returns (dependents': map<Name, seq<Name>>)
    requires g.Valid() && g.Complete() && i < |g.names|
    requires Entered(g, g.names[..i], "", [], dependents)
    ensures Entered(g, g.names[..i + 1], "", [], dependents')
  {
    dependents' := dependents;
    var name := g.names[i];
    var deps := g.deps[name];
    for j := 0 to |deps|
      invariant Entered(g, g.names[..i], name, deps[..j], dependents')
    {
      dependents' := AddEdge(g, g.names[..i], name, deps, j, dependents');
    }
    assert deps[..|deps|] == deps;
    assert g.names[..i + 1] == g.names[..i] + [name];
  }

  method AddEdge(g: Graph, ghost done: seq<Name>, name: Name, deps: seq<Name>, j: nat, dependents: map<Name, seq<Name>>)
    returns (dependents': map<Name, seq<Name>>)
    requires g.Complete() && name in g.deps && name !in done
    requires deps == g.deps[name] && j < |deps|
    requires Entered(g, done, name, deps[..j], dependents)
    ensures Entered(g, done, name, deps[..j + 1], dependents')
  {
    assert DependsOn(g, name, deps[j]);
    dependents' := dependents[deps[j] := dependents[deps[j]] + [name]];
    forall d, n | d in g.deps && n in g.deps
      ensures Count(dependents'[d], n) == EntriesFor(g, done, name, deps[..j + 1], d, n)
    {
      assert deps[..j + 1] == deps[..j] + [deps[j]];
      CountMore(deps[..j], deps[j], d);
      CountMore(dependents[deps[j]], name, n);
    }
  }

  /**
    What holds whenever Kahn's loop is inspected.  `found` is everything that was ever queued,
    of which the first h have been sorted; `seen` counts the decrements not yet due to them.
   */
  ghost predicate Progress(g: Graph, found: seq<Name>, h: nat, inDeg: map<Name, int>, seen: seq<Name>) {
    && h <= |found|
    && NoDuplicates(found)
    && (forall n :: n in found ==> n in g.deps)
    && inDeg.Keys == g.deps.Keys
    && (forall n :: n in g.deps ==> inDeg[n] == Pending(g.deps[n], found[..h]) - Count(seen, n))
    && (forall n :: n in g.deps ==> (inDeg[n] == 0 <==> n in found))
    && DepsFirst(g, found[..h])
  }

  /** One pass through the body of Kahn's loop. */
  method Step(g: Graph, sorted: seq<Name>, queue: seq<Name>, inDeg: map<Name, int>, dependents: map<Name, seq<Name>>)
    returns (sorted': seq<Name>, queue': seq<Name>, inDeg': map<Name, int>)
    requires g.Valid() && Reverses(g, dependents)
    requires queue != [] && Progress(g, sorted + queue, |sorted|, inDeg, [])
    ensures Progress(g, sorted' + queue', |sorted'|, inDeg', [])
    ensures sorted' == sorted + [queue[0]]
  {
    var current := queue[0];
    Parts(sorted, queue);
    NextReady(g, sorted + queue, |sorted|, inDeg);
    ghost var found;
    queue', inDeg', found := Relax(g, sorted, current, queue[1..], inDeg, dependents, sorted + queue);
    sorted' := sorted + [current];
    Advance(g, found, |sorted|, inDeg', dependents);
    assert found == sorted' + queue' by { Whole(found, |sorted|); }
  }

  /** The service sorted next waits for nothing. */
  lemma NextReady(g: Graph, found: seq<Name>, h: nat, inDeg: map<Name, int>)
    requires h < |found| && Progress(g, found, h, inDeg, [])
    ensures found[h] in g.deps && Pending(g.deps[found[h]], found[..h]) == 0
  {
    assert found[h] in found;
  }

  /** The loop over the dependents of `current`. */
  method Relax(g: Graph, ghost sorted: seq<Name>, current: Name, queue: seq<Name>, inDeg: map<Name, int>,
      dependents: map<Name, seq<Name>>, ghost found: seq<Name>)
    returns (queue': seq<Name>, inDeg': map<Name, int>, ghost found': seq<Name>)
    requires Reverses(g, dependents) && Progress(g, found, |sorted|, inDeg, [])
    requires |sorted| < |found| && found[..|sorted|] == sorted && found[|sorted|] == current
    requires found[|sorted| + 1..] == queue
    ensures |sorted| < |found'| && found'[..|sorted|] == sorted && found'[|sorted|] == current
    ensures found'[|sorted| + 1..] == queue'
    ensures Progress(g, found', |sorted|, inDeg', dependents[current])
  {
    queue', inDeg', found' := queue, inDeg, found;
    var list := dependents[current];
    assert list[..0] == [];
    for k := 0 to |list|
      invariant |sorted| < |found'| && found'[..|sorted|] == sorted && found'[|sorted|] == current
      invariant found'[|sorted| + 1..] == queue'
      invariant Progress(g, found', |sorted|, inDeg', list[..k])
    {
      StillWaits(g, sorted, current, dependents, k);
      queue', inDeg', found' := RelaxOne(g, |sorted|, queue', inDeg', found', list, k);
    }
    assert list[..|list|] == list;
  }

  /** One entry of the list of dependents: one dependency less, and queued when it was the last. */
  method RelaxOne(g: Graph, ghost h: nat, queue: seq<Name>, inDeg: map<Name, int>, ghost found: seq<Name>,
      list: seq<Name>, k: nat)
    returns (queue': seq<Name>, inDeg': map<Name, int>, ghost found': seq<Name>)
    requires k < |list| && h < |found| && found[h + 1..] == queue
    requires Progress(g, found, h, inDeg, list[..k])
    requires list[k] in g.deps && inDeg[list[k]] > 0
    ensures h < |found'| && found'[..h] == found[..h] && found'[h] == found[h] && found'[h + 1..] == queue'
    ensures Progress(g, found', h, inDeg', list[..k + 1])
  {
    var dependent := list[k];
    var newDeg := inDeg[dependent] - 1;
    Decrement(g, found, h, inDeg, list, k);
    Push(found, h + 1, dependent);
    inDeg' := inDeg[dependent := newDeg];
    queue', found' := queue, found;
    if newDeg == 0 {
      queue', found' := queue + [dependent], found + [dependent];
    }
  }

  lemma Parts(sorted: seq<Name>, queue: seq<Name>)
    requires queue != []
    ensures var found := sorted + queue;
            found[..|sorted|] == sorted && found[|sorted|] == queue[0] && found[|sorted| + 1..] == queue[1..]
  {}

  lemma Whole(found: seq<Name>, h: nat)
    requires h < |found|
    ensures found == found[..h] + [found[h]] + found[h + 1..]
  {}

  lemma Push(found: seq<Name>, m: nat, n: Name)
    requires 0 < m <= |found|
    ensures (found + [n])[..m] == found[..m] && (found + [n])[m - 1] == found[m - 1]
    ensures (found + [n])[..m - 1] == found[..m - 1] && (found + [n])[m..] == found[m..] + [n]
  {}

  /** Handling one entry of the dependents list. */
  lemma Decrement(g: Graph, found: seq<Name>, h: nat, inDeg: map<Name, int>, list: seq<Name>, k: nat)
    requires k < |list| && Progress(g, found, h, inDeg, list[..k])
    requires list[k] in g.deps && inDeg[list[k]] > 0
    ensures var n := list[k];
            Progress(g, if inDeg[n] == 1 then found + [n] else found, h, inDeg[n := inDeg[n] - 1], list[..k + 1])
  {
    assert (found + [list[k]])[..h] == found[..h];
    assert list[..k + 1] == list[..k] + [list[k]];
    forall n | n in g.deps ensures Count(list[..k + 1], n) == Count(list[..k], n) + if n == list[k] then 1 else 0 {
      CountMore(list[..k], list[k], n);
    }
  }

  /** When all dependents of the next sorted service are handled, it counts as sorted. */
  lemma Advance(g: Graph, found: seq<Name>, h: nat, inDeg: map<Name, int>, dependents: map<Name, seq<Name>>)
    requires h < |found| && found[h] in g.deps && Reverses(g, dependents)
    requires Progress(g, found, h, inDeg, dependents[found[h]])
    requires Pending(g.deps[found[h]], found[..h]) == 0
    ensures Progress(g, found, h + 1, inDeg, [])
  {
    var current, sorted := found[h], found[..h];
    assert found[..h + 1] == sorted + [current];
    forall n | n in g.deps ensures inDeg[n] == Pending(g.deps[n], found[..h + 1]) {
      PendingStep(g.deps[n], sorted, current);
    }
    PendingZero(g.deps[current], sorted);
    Listed(g, sorted, current);
  }

  /** The dependent handled next still waits for `current`. */
  lemma StillWaits(g: Graph, sorted: seq<Name>, current: Name, dependents: map<Name, seq<Name>>, k: nat)
    requires Reverses(g, dependents) && current in g.deps && current !in sorted
    requires k < |dependents[current]|
    ensures var n := dependents[current][k];
            n in g.deps && Pending(g.deps[n], sorted) > Count(dependents[current][..k], n)
  {
    var list := dependents[current];
    var n := list[k];
    assert n in dependents[current];
    PendingStep(g.deps[n], sorted, current);
    CountMore(list[..k], n, n);
    assert list[..k + 1] == list[..k] + [n];
    CountPrefix(list, k + 1, n);
  }

  lemma Listed(g: Graph, sorted: seq<Name>, c: Name)
    requires DepsFirst(g, sorted) && c in g.deps
    requires forall d :: d in g.deps[c] ==> d in sorted
    ensures DepsFirst(g, sorted + [c])
  {
    var order := sorted + [c];
    forall i, d | 0 <= i < |order| && DependsOn(g, order[i], d) ensures d in order[..i] {
      if i < |sorted| {
        assert order[..i] == sorted[..i];
      } else {
        assert order[..i] == sorted;
      }
    }
  }

  /** At the start nothing is sorted and the services without dependencies are queued. */
  method Start(g: Graph) returns (queue: seq<Name>, inDeg: map<Name, int>)
    requires g.Valid()
    ensures Progress(g, queue, 0, inDeg, [])
  {
    inDeg := map n | n in g.deps :: |g.deps[n]|;
    queue := [];
    for i := 0 to |g.names|
      invariant NoDuplicates(queue)
      invariant forall n :: n in queue <==> n in g.names[..i] && inDeg[n] == 0
    {
      assert g.names[..i + 1] == g.names[..i] + [g.names[i]];
      if inDeg[g.names[i]] == 0 {
        queue := queue + [g.names[i]];
      }
    }
    assert g.names[..|g.names|] == g.names;
    NothingSorted(g, queue, inDeg);
  }

  lemma NothingSorted(g: Graph, queue: seq<Name>, inDeg: map<Name, int>)
    requires g.Valid() && NoDuplicates(queue)
    requires inDeg == map n | n in g.deps :: |g.deps[n]|
    requires forall n :: n in queue <==> n in g.names && inDeg[n] == 0
    ensures Progress(g, queue, 0, inDeg, [])
  {
    assert queue[..0] == [];
    forall n | n in g.deps ensures inDeg[n] == Pending(g.deps[n], queue[..0]) - Count([], n) {
      PendingNone(g.deps[n]);
    }
  }

  /** The registered names that were not sorted, in registration order. */
  function Remaining(names: seq<Name>, sorted: seq<Name>): (remaining: seq<Name>)
    ensures forall n :: n in remaining <==> n in names && n !in sorted
  {
    if names == [] then []
    else Remaining(names[..|names| - 1], sorted) + if names[|names| - 1] in sorted then [] else [names[|names| - 1]]
  }

  lemma {:induction false} RemainingInOrder(names: seq<Name>, sorted: seq<Name>) returns (positions: seq<nat>)
    ensures PicksFrom(Remaining(names, sorted), positions, names)
  {
    if names == [] {
      positions := [];
    } else {
      var m := |names| - 1;
      positions := RemainingInOrder(names[..m], sorted);
      PicksMore(Remaining(names[..m], sorted), positions, names);
      if names[m] !in sorted {
        positions := positions + [m];
      }
    }
  }

  /** Once the queue is empty, every service left over waits for another one left over. */
  lemma LeftOverWait(g: Graph, sorted: seq<Name>, inDeg: map<Name, int>)
    requires g.Valid() && g.Complete()
    requires Progress(g, sorted, |sorted|, inDeg, [])
    ensures forall n :: n in Remaining(g.names, sorted) ==> Waits(g, n, Remaining(g.names, sorted))
  {
    assert sorted[..|sorted|] == sorted;
    forall n | n in Remaining(g.names, sorted) ensures Waits(g, n, Remaining(g.names, sorted)) {
      PendingZero(g.deps[n], sorted);
      var d :| d in g.deps[n] && d !in sorted;
      assert DependsOn(g, n, d) && d in g.names;
    }
  }

  lemma NotLonger(s: seq<Name>, names: seq<Name>)
    requires NoDuplicates(s)
    requires forall k :: 0 <= k < |s| ==> s[k] in names
    ensures |s| <= |names|
  {
    if |s| > |names| {
      var i, j := Pigeonhole(s, names);
      assert false;
    }
  }

  /** A repetition-free selection from the names misses none of them iff it is as long. */
  lemma AllSorted(names: seq<Name>, sorted: seq<Name>)
    requires NoDuplicates(names) && NoDuplicates(sorted)
    requires forall k :: 0 <= k < |sorted| ==> sorted[k] in names
    ensures |sorted| <= |names|
    ensures |sorted| == |names| <==> Remaining(names, sorted) == []
  {
    NotLonger(sorted, names);
    if Remaining(names, sorted) == [] {
      forall k | 0 <= k < |names| ensures names[k] in sorted {
        assert names[k] !in Remaining(names, sorted);
      }
      NotLonger(names, sorted);
    } else {
      var n := Remaining(names, sorted)[0];
      assert n in Remaining(names, sorted);
      NotLonger(sorted + [n], names);
    }
  }

  /** No stuck set of services meets a dependency-first list. */
  lemma {:induction false} SortedNotStuck(g: Graph, sorted: seq<Name>, names: seq<Name>, i: nat)
    requires DepsFirst(g, sorted) && Stuck(g, names) && i < |sorted|
    ensures sorted[i] !in names
  {
    if sorted[i] in names {
      assert Waits(g, sorted[i], names);
      var d :| d in names && DependsOn(g, sorted[i], d);
      assert d in sorted[..i];
      var j :| 0 <= j < i && sorted[j] == d;
      SortedNotStuck(g, sorted, names, j);
      assert false;
    }
  }

  /** These services each wait for another one among them, and no such service is missing. */
  ghost predicate LargestStuck(g: Graph, remaining: seq<Name>) {
    && Stuck(g, remaining)
    && forall names, n :: Stuck(g, names) && n in names && n in g.deps ==> n in remaining
  }

  lemma LeftOverIsLargest(g: Graph, sorted: seq<Name>)
    requires g.Valid() && DepsFirst(g, sorted)
    ensures forall names, n :: Stuck(g, names) && n in names && n in g.deps ==> n in Remaining(g.names, sorted)
  {
    forall names, n | Stuck(g, names) && n in names && n in g.deps ensures n in Remaining(g.names, sorted) {
      if n in sorted {
        var i :| 0 <= i < |sorted| && sorted[i] == n;
        SortedNotStuck(g, sorted, names, i);
      }
    }
  }

  /** The queue ran empty before every service was sorted. */
  lemma CircularReport(g: Graph, sorted: seq<Name>, inDeg: map<Name, int>)
    requires g.Valid() && g.Complete() && Progress(g, sorted, |sorted|, inDeg, [])
    requires |sorted| != |g.names|
    ensures LargestStuck(g, Remaining(g.names, sorted)) && !Acyclic(g)
  {
    assert sorted[..|sorted|] == sorted;
    AllSorted(g.names, sorted);
    LeftOverWait(g, sorted, inDeg);
    LeftOverIsLargest(g, sorted);
    StuckHasCycle(g, Remaining(g.names, sorted));
  }

  /** Every service was sorted. */
  lemma SortedReport(g: Graph, sorted: seq<Name>, inDeg: map<Name, int>)
    requires g.Valid() && g.Complete() && Progress(g, sorted, |sorted|, inDeg, [])
    requires |sorted| == |g.names|
    ensures TopoOrder(g, sorted) && Acyclic(g)
  {
    assert sorted[..|sorted|] == sorted;
    AllSorted(g.names, sorted);
    forall n | n in g.deps ensures n in sorted {
      assert n in g.names && n !in Remaining(g.names, sorted);
    }
    OrderedIsAcyclic(g, sorted);
  }

  /** What the sort has to answer for this graph. */
  ghost predicate SortOf(g: Graph, r: SortResult) {
    match r
    case NotRegistered(service, dep) => DependsOn(g, service, dep) && dep !in g.deps
    case Circular(remaining) =>
      && g.Complete() && !Acyclic(g) && LargestStuck(g, remaining)
      && exists positions :: PicksFrom(remaining, positions, g.names)
    case Sorted(order) => g.Complete() && Acyclic(g) && TopoOrder(g, order)
  }

  /** Kahn's loop. */
  method Drain(g: Graph, queue0: seq<Name>, inDeg0: map<Name, int>, dependents: map<Name, seq<Name>>)
    returns (sorted: seq<Name>, ghost inDeg: map<Name, int>)
    requires g.Valid() && Reverses(g, dependents) && Progress(g, queue0, 0, inDeg0, [])
    ensures Progress(g, sorted, |sorted|, inDeg, [])
  {
    var queue, degrees := queue0, inDeg0;
    sorted := [];
    assert sorted + queue == queue;
    while |queue| > 0
      invariant Progress(g, sorted + queue, |sorted|, degrees, [])
      decreases |g.names| - |sorted|
    {
      AllSorted(g.names, sorted + queue);
      sorted, queue, degrees := Step(g, sorted, queue, degrees, dependents);
    }
    assert sorted + queue == sorted;
    inDeg := degrees;
  }

  method TopoSort(g: Graph) returns (r: SortResult)
    requires g.Valid()
    ensures SortOf(g, r)
  {
    r := FindUnregistered(g);
    if r.NotRegistered? {
      return;
    }
    var queue, inDeg := Start(g);
    var dependents := ReverseEdges(g);
    var sorted;
    ghost var degrees;
    sorted, degrees := Drain(g, queue, inDeg, dependents);
    if |sorted| != |g.names| {
      CircularReport(g, sorted, degrees);
      ghost var positions := RemainingInOrder(g.names, sorted);
      return Circular(Remaining(g.names, sorted));
    }
    SortedReport(g, sorted, degrees);
    return Sorted(sorted);
  }
}
