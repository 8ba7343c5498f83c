/** The dependency-injection container of server/container.js: boot, freeze, override, dispose. */
module DiContainer {
  import opened Dependencies
  import opened KahnSort

  datatype Disposer = NoDisposer | Disposes | DisposeThrows

  datatype Value = Undefined | Service(id: int, disposer: Disposer)

  datatype Outcome = Made(value: Value) | Threw

  /** A registration: a factory over its dependencies' instances, or a value. */
  datatype Entry = Factory(deps: seq<Name>, make: map<Name, Value> -> Outcome) | Fixed(value: Value)

  datatype Call = Call(name: Name, deps: map<Name, Value>)

  datatype Status = Ok | IsFrozen | IsBooted | NotBooted

  datatype BootResult =
    | Booted(failed: seq<Name>)
    | Unresolved(report: SortResult)
    | Aborted(name: Name)

  function EntryDeps(e: Entry): seq<Name> {
    if e.Factory? then e.deps else []
  }

  function EntryOf(entries: map<Name, Entry>, n: Name): Entry {
    if n in entries then entries[n] else Fixed(Undefined)
  }

  function GraphOf(names: seq<Name>, entries: map<Name, Entry>): Graph {
    Graph(names, map n | n in entries :: EntryDeps(entries[n]))
  }

  function Lookup(instances: map<Name, Value>, n: Name): Value {
    if n in instances then instances[n] else Undefined
  }

  /** The argument of a factory: each dependency's instance, or undefined. */
  function DepView(instances: map<Name, Value>, deps: seq<Name>): map<Name, Value> {
    map d | d in deps :: Lookup(instances, d)
  }

  ghost predicate SameAt(a: map<Name, Value>, b: map<Name, Value>, n: Name) {
    (n in a <==> n in b) && (n in a ==> a[n] == b[n])
  }

  ghost function OutcomeOf(e: Entry, instances: map<Name, Value>): Outcome {
    match e
    case Fixed(v) => Made(v)
    case Factory(deps, make) => make(DepView(instances, deps))
  }

  /**
    n's instance is what its registration yields on the instances of its dependencies; a
    factory that threw leaves n as it was before.
   */
  ghost predicate Decided(e: Entry, before: map<Name, Value>, after: map<Name, Value>, n: Name) {
    match OutcomeOf(e, after)
    case Made(v) => n in after && after[n] == v
    case Threw => SameAt(before, after, n)
  }

  /** The services of `order` are decided and nothing else has changed. */
  ghost predicate DecidedAll(entries: map<Name, Entry>, before: map<Name, Value>,
    after: map<Name, Value>, order: seq<Name>)
  {
    && (forall n :: n in order ==> Decided(EntryOf(entries, n), before, after, n))
    && (forall n :: n !in order ==> SameAt(before, after, n))
  }

  /** The call a registration makes on these instances, if it is a factory. */
  ghost function NewCalls(entries: map<Name, Entry>, instances: map<Name, Value>, n: Name): seq<Call> {
    var e := EntryOf(entries, n);
    if e.Factory? then [Call(n, DepView(instances, e.deps))] else []
  }

  /** n, if its factory throws on these instances. */
  ghost function NewFailed(entries: map<Name, Entry>, instances: map<Name, Value>, n: Name): seq<Name> {
    if OutcomeOf(EntryOf(entries, n), instances).Threw? then [n] else []
  }

  /** The instances after running or copying n's registration. */
  ghost function Put(entries: map<Name, Entry>, instances: map<Name, Value>, n: Name): map<Name, Value> {
    match OutcomeOf(EntryOf(entries, n), instances)
    case Made(v) => instances[n := v]
    case Threw => instances
  }

  /** The services of `order` whose factory throws on these instances, in order. */
  ghost function FailedOf(entries: map<Name, Entry>, instances: map<Name, Value>, order: seq<Name>): (failed: seq<Name>)
    ensures forall n :: n in failed <==> n in order && OutcomeOf(EntryOf(entries, n), instances).Threw?
  {
    if order == [] then []
    else
      var last := order[|order| - 1];
      FailedOf(entries, instances, order[..|order| - 1]) + NewFailed(entries, instances, last)
  }

  /** One call per factory of `order`, in order, each with the instances its dependencies have. */
  ghost function CallsOf(entries: map<Name, Entry>, instances: map<Name, Value>, order: seq<Name>): seq<Call>
  {
    if order == [] then []
    else
      var last := order[|order| - 1];
      CallsOf(entries, instances, order[..|order| - 1]) + NewCalls(entries, instances, last)
  }

  /** The calls go to different factories of the order, and every factory of the order gets one. */
  ghost predicate OnceEach(calls: seq<Call>, entries: map<Name, Entry>, instances: map<Name, Value>, order: seq<Name>) {
    && (forall i :: 0 <= i < |calls| ==> CallOf(calls[i], entries, instances, order))
    && (forall i, j :: 0 <= i < j < |calls| ==> calls[i].name != calls[j].name)
    && (forall n :: n in order && EntryOf(entries, n).Factory? ==> exists i :: 0 <= i < |calls| && calls[i].name == n)
  }

  ghost predicate CallOf(c: Call, entries: map<Name, Entry>, instances: map<Name, Value>, order: seq<Name>) {
    && c.name in order && EntryOf(entries, c.name).Factory?
    && c.deps == DepView(instances, EntryOf(entries, c.name).deps)
  }

  /** A boot calls every factory exactly once, with the instances its dependencies end up with. */
  lemma {:induction false} CallsOncePerFactory(entries: map<Name, Entry>, instances: map<Name, Value>, order: seq<Name>)
    requires NoDuplicates(order)
    ensures OnceEach(CallsOf(entries, instances, order), entries, instances, order)
  {
    if order != [] {
      var m := |order| - 1;
      CallsOncePerFactory(entries, instances, order[..m]);
      OnceMore(CallsOf(entries, instances, order[..m]), entries, instances, order);
    }
  }

  lemma OnceMore(before: seq<Call>, entries: map<Name, Entry>, instances: map<Name, Value>, order: seq<Name>)
    requires order != [] && NoDuplicates(order)
    requires OnceEach(before, entries, instances, order[..|order| - 1])
    ensures var last := order[|order| - 1];
            OnceEach(before + NewCalls(entries, instances, last), entries, instances, order)
  {
    var last := order[|order| - 1];
    assert order == order[..|order| - 1] + [last];
    assert before + [] == before;
    forall i | 0 <= i < |before| ensures CallOf(before[i], entries, instances, order) && before[i].name != last {
      assert CallOf(before[i], entries, instances, order[..|order| - 1]);
    }
    if EntryOf(entries, last).Factory? {
      var calls := before + [Call(last, DepView(instances, EntryOf(entries, last).deps))];
      assert calls[|before|].name == last;
      forall n | n in order && EntryOf(entries, n).Factory? ensures exists i :: 0 <= i < |calls| && calls[i].name == n {
        if n != last {
          var i :| 0 <= i < |before| && before[i].name == n;
          assert calls[i].name == n;
        }
      }
    }
  }

  lemma SameOutcome(e: Entry, a: map<Name, Value>, b: map<Name, Value>)
    requires forall d :: d in EntryDeps(e) ==> Lookup(a, d) == Lookup(b, d)
    ensures OutcomeOf(e, a) == OutcomeOf(e, b)
    ensures DepView(a, EntryDeps(e)) == DepView(b, EntryDeps(e))
  {
    assert DepView(a, EntryDeps(e)) == DepView(b, EntryDeps(e));
  }

  /** The graph lists the registrations' dependencies. */
  ghost predicate Describes(g: Graph, entries: map<Name, Entry>) {
    g.deps.Keys == entries.Keys && forall n :: n in entries ==> g.deps[n] == EntryDeps(EntryOf(entries, n))
  }

  /** The service order[i] sees no difference between instances that agree on the list. */
  lemma SameFor(g: Graph, entries: map<Name, Entry>, a: map<Name, Value>, b: map<Name, Value>, order: seq<Name>, i: nat)
    requires Describes(g, entries) && DepsFirst(g, order) && i < |order| && order[i] in entries
    requires forall n :: n in order ==> SameAt(a, b, n)
    ensures OutcomeOf(EntryOf(entries, order[i]), a) == OutcomeOf(EntryOf(entries, order[i]), b)
    ensures DepView(a, EntryDeps(EntryOf(entries, order[i]))) == DepView(b, EntryDeps(EntryOf(entries, order[i])))
  {
    var e := EntryOf(entries, order[i]);
    forall d | d in EntryDeps(e) ensures Lookup(a, d) == Lookup(b, d) {
      assert DependsOn(g, order[i], d);
      assert d in order[..i];
      assert SameAt(a, b, d);
    }
    SameOutcome(e, a, b);
  }

  lemma {:induction false} SameLists(entries: map<Name, Entry>, a: map<Name, Value>, b: map<Name, Value>,
      order: seq<Name>)
    requires forall i :: 0 <= i < |order| ==>
               OutcomeOf(EntryOf(entries, order[i]), a) == OutcomeOf(EntryOf(entries, order[i]), b)
    requires forall i :: 0 <= i < |order| ==>
               DepView(a, EntryDeps(EntryOf(entries, order[i]))) == DepView(b, EntryDeps(EntryOf(entries, order[i])))
    ensures FailedOf(entries, a, order) == FailedOf(entries, b, order)
    ensures CallsOf(entries, a, order) == CallsOf(entries, b, order)
  {
    if order != [] {
      SameLists(entries, a, b, order[..|order| - 1]);
    }
  }

  /** The services of a dependency-first list see no change to a service outside it. */
  lemma LaterUnseen(g: Graph, entries: map<Name, Entry>, a: map<Name, Value>, b: map<Name, Value>, order: seq<Name>)
    requires Describes(g, entries) && forall n :: n in order ==> n in entries
    requires DepsFirst(g, order)
    requires forall n :: n in order ==> SameAt(a, b, n)
    ensures forall n :: n in order ==> OutcomeOf(EntryOf(entries, n), a) == OutcomeOf(EntryOf(entries, n), b)
    ensures FailedOf(entries, a, order) == FailedOf(entries, b, order)
    ensures CallsOf(entries, a, order) == CallsOf(entries, b, order)
  {
    forall i | 0 <= i < |order|
      ensures OutcomeOf(EntryOf(entries, order[i]), a) == OutcomeOf(EntryOf(entries, order[i]), b)
      ensures DepView(a, EntryDeps(EntryOf(entries, order[i]))) == DepView(b, EntryDeps(EntryOf(entries, order[i])))
    {
      assert order[i] in order;
      SameFor(g, entries, a, b, order, i);
    }
    SameLists(entries, a, b, order);
  }

  lemma DepsFirstPrefix(g: Graph, order: seq<Name>, m: nat)
    requires DepsFirst(g, order) && m <= |order|
    ensures DepsFirst(g, order[..m])
  {
    forall i, d | 0 <= i < m && DependsOn(g, order[..m][i], d) ensures d in order[..m][..i] {
      assert DependsOn(g, order[i], d);
      assert order[..m][..i] == order[..i];
    }
  }

  /**
    Boot's result does not depend on which dependency-first order was used: two results that
    decide the same registrations from the same start are equal.
   */
  lemma BootUnique(g: Graph, entries: map<Name, Entry>, before: map<Name, Value>,
      order1: seq<Name>, after1: map<Name, Value>, order2: seq<Name>, after2: map<Name, Value>)
    requires Describes(g, entries)
    requires TopoOrder(g, order1) && TopoOrder(g, order2)
    requires DecidedAll(entries, before, after1, order1) && DecidedAll(entries, before, after2, order2)
    ensures after1 == after2
    ensures forall n :: n in FailedOf(entries, after1, order1) <==> n in FailedOf(entries, after2, order2)
  {
    SameAlong(g, entries, before, order1, after1, order2, after2, |order1|);
    assert order1[..|order1|] == order1;
    forall n ensures SameAt(after1, after2, n) {
      if n !in order1 {
        assert n !in order2 && SameAt(before, after1, n) && SameAt(before, after2, n);
      }
    }
    SameMap(after1, after2);
  }

  lemma SameMap(a: map<Name, Value>, b: map<Name, Value>)
    requires forall n :: SameAt(a, b, n)
    ensures a == b
  {
    assert forall n :: n in a ==> SameAt(a, b, n);
    assert forall n :: n in b ==> SameAt(a, b, n);
  }

  lemma {:induction false} SameAlong(g: Graph, entries: map<Name, Entry>, before: map<Name, Value>,
      order1: seq<Name>, after1: map<Name, Value>, order2: seq<Name>, after2: map<Name, Value>, i: nat)
    requires Describes(g, entries)
    requires TopoOrder(g, order1) && TopoOrder(g, order2) && i <= |order1|
    requires DecidedAll(entries, before, after1, order1) && DecidedAll(entries, before, after2, order2)
    ensures forall n :: n in order1[..i] ==> SameAt(after1, after2, n)
  {
    if i > 0 {
      SameAlong(g, entries, before, order1, after1, order2, after2, i - 1);
      var n := order1[i - 1];
      assert n in order1 && n in g.deps && n in order2;
      SameNext(g, entries, before, order1, after1, after2, i - 1);
      assert order1[..i] == order1[..i - 1] + [n];
    }
  }

  /** A service that was decided twice, on the same instances of its dependencies, is the same. */
  lemma SameNext(g: Graph, entries: map<Name, Entry>, before: map<Name, Value>,
      order: seq<Name>, after1: map<Name, Value>, after2: map<Name, Value>, i: nat)
    requires Describes(g, entries) && DepsFirst(g, order) && i < |order| && order[i] in entries
    requires forall n :: n in order[..i] ==> SameAt(after1, after2, n)
    requires Decided(EntryOf(entries, order[i]), before, after1, order[i])
    requires Decided(EntryOf(entries, order[i]), before, after2, order[i])
    ensures SameAt(after1, after2, order[i])
  {
    var e := EntryOf(entries, order[i]);
    forall d | d in EntryDeps(e) ensures Lookup(after1, d) == Lookup(after2, d) {
      assert DependsOn(g, order[i], d);
      assert d in order[..i];
      assert SameAt(after1, after2, d);
    }
    SameOutcome(e, after1, after2);
  }

  predicate HasDisposer(instances: map<Name, Value>, n: Name) {
    Lookup(instances, n).Service? && !Lookup(instances, n).disposer.NoDisposer?
  }

  /** The disposals of a boot order: last booted first, only services that have a disposer. */
  ghost function Disposals(order: seq<Name>, instances: map<Name, Value>): (disposals: seq<Name>)
    ensures forall n :: n in disposals <==> n in order && HasDisposer(instances, n)
  {
    if order == [] then []
    else (if HasDisposer(instances, order[0]) then Disposals(order[1..], instances) + [order[0]]
          else Disposals(order[1..], instances))
  }

  ghost function Throwing(names: seq<Name>, instances: map<Name, Value>): (throwing: seq<Name>)
    ensures forall n :: n in throwing <==>
              n in names && Lookup(instances, n).Service? && Lookup(instances, n).disposer.DisposeThrows?
  {
    if names == [] then []
    else
      var last := Lookup(instances, names[|names| - 1]);
      Throwing(names[..|names| - 1], instances) +
      if last.Service? && last.disposer.DisposeThrows? then [names[|names| - 1]] else []
  }

  /** No service is disposed before one that depends on it, and none twice. */
  lemma {:induction false} DisposedAfterDependents(g: Graph, order: seq<Name>, from: nat, instances: map<Name, Value>)
    requires NoDuplicates(order) && DepsFirst(g, order) && from <= |order|
    ensures var d := Disposals(order[from..], instances);
            && NoDuplicates(d)
            && (forall i, j :: 0 <= i < j < |d| ==> !DependsOn(g, d[j], d[i]))
    decreases |order| - from
  {
    if from < |order| {
      DisposedAfterDependents(g, order, from + 1, instances);
      assert order[from..][1..] == order[from + 1..];
      var d := Disposals(order[from + 1..], instances);
      forall i | 0 <= i < |d| ensures d[i] != order[from] && !DependsOn(g, order[from], d[i]) {
        assert d[i] in order[from + 1..];
        var k :| from < k < |order| && order[k] == d[i];
      }
    }
  }

  lemma OrderStep(g: Graph, order: seq<Name>, i: nat)
    requires NoDuplicates(order) && DepsFirst(g, order) && i < |order|
    ensures order[..i + 1] == order[..i] + [order[i]]
    ensures NoDuplicates(order[..i] + [order[i]]) && DepsFirst(g, order[..i] + [order[i]])
    ensures forall n :: n in order[..i] + [order[i]] ==> n in order
  {
    assert order[..i + 1] == order[..i] + [order[i]];
    DepsFirstPrefix(g, order, i + 1);
  }

  /** After a complete run every registered service has an instance or failed. */
  lemma AllThere(g: Graph, entries: map<Name, Entry>, before: map<Name, Value>, after: map<Name, Value>,
      order: seq<Name>)
    requires Describes(g, entries) && TopoOrder(g, order)
    requires DecidedAll(entries, before, after, order)
    ensures forall n :: n in entries ==> n in after || n in FailedOf(entries, after, order)
  {
    forall n | n in entries ensures n in after || n in FailedOf(entries, after, order) {
      assert n in order && Decided(EntryOf(entries, n), before, after, n);
    }
  }

  /** Deciding the next service of an order keeps the earlier ones decided. */
  lemma DecideNext(g: Graph, entries: map<Name, Entry>, before: map<Name, Value>, was: map<Name, Value>,
      now: map<Name, Value>, done: seq<Name>, name: Name)
    requires Describes(g, entries) && forall n :: n in done + [name] ==> n in entries
    requires NoDuplicates(done + [name]) && DepsFirst(g, done + [name])
    requires DecidedAll(entries, before, was, done)
    requires now == Put(entries, was, name)
    ensures DecidedAll(entries, before, now, done + [name])
    ensures OutcomeOf(EntryOf(entries, name), now) == OutcomeOf(EntryOf(entries, name), was)
    ensures CallsOf(entries, now, done + [name]) == CallsOf(entries, was, done) + NewCalls(entries, was, name)
    ensures FailedOf(entries, now, done + [name]) == FailedOf(entries, was, done) + NewFailed(entries, was, name)
  {
    var order, m := done + [name], |done|;
    assert order[..m] == done && order[m] == name && name !in done;
    DepsFirstPrefix(g, order, m);
    LaterUnseen(g, entries, was, now, done);
    OwnUnseen(g, entries, was, now, done, name);
    forall n | n in done ensures Decided(EntryOf(entries, n), before, now, n) {
      assert Decided(EntryOf(entries, n), before, was, n);
    }
  }

  /** A service does not see its own instance change. */
  lemma OwnUnseen(g: Graph, entries: map<Name, Entry>, was: map<Name, Value>, now: map<Name, Value>,
      done: seq<Name>, name: Name)
    requires Describes(g, entries) && name in entries && name !in done
    requires DepsFirst(g, done + [name])
    requires forall n :: n in done ==> SameAt(was, now, n)
    ensures OutcomeOf(EntryOf(entries, name), now) == OutcomeOf(EntryOf(entries, name), was)
    ensures NewCalls(entries, now, name) == NewCalls(entries, was, name)
  {
    var order := done + [name];
    assert order[..|done|] == done && order[|done|] == name;
    forall d | d in EntryDeps(EntryOf(entries, name)) ensures Lookup(was, d) == Lookup(now, d) {
      assert DependsOn(g, order[|done|], d);
      assert d in done;
      assert SameAt(was, now, d);
    }
    SameOutcome(EntryOf(entries, name), was, now);
  }

  /** From an earlier state the services of `order` were decided, with one call per factory. */
  ghost predicate RanTo(entries: map<Name, Entry>, before: map<Name, Value>, calls0: seq<Call>, order: seq<Name>,
      instances: map<Name, Value>, calls: seq<Call>)
  {
    && DecidedAll(entries, before, instances, order)
    && calls == calls0 + CallsOf(entries, instances, order)
  }

  /** Running or copying one more registration. */
  lemma RanNext(g: Graph, entries: map<Name, Entry>, before: map<Name, Value>, calls0: seq<Call>,
      was: map<Name, Value>, callsWas: seq<Call>, done: seq<Name>, name: Name, now: map<Name, Value>, calls: seq<Call>)
    requires Describes(g, entries) && forall n :: n in done + [name] ==> n in entries
    requires NoDuplicates(done + [name]) && DepsFirst(g, done + [name])
    requires RanTo(entries, before, calls0, done, was, callsWas)
    requires now == Put(entries, was, name)
    requires calls == callsWas + NewCalls(entries, was, name)
    ensures RanTo(entries, before, calls0, done + [name], now, calls)
    ensures FailedOf(entries, now, done + [name]) == FailedOf(entries, was, done) + NewFailed(entries, was, name)
  {
    DecideNext(g, entries, before, was, now, done, name);
    Regroup(calls0, CallsOf(entries, was, done), NewCalls(entries, was, name));
  }

  lemma Regroup(a: seq<Call>, b: seq<Call>, c: seq<Call>)
    ensures a + b + c == a + (b + c)
  {}

  // ----- A boot, on the registrations and the instances alone -----

  /** A factory was called with exactly its declared dependencies, each with its instance or undefined. */
  ghost predicate CallRight(c: Call, entries: map<Name, Entry>, instances: map<Name, Value>) {
    && c.name in entries && entries[c.name].Factory?
    && (forall d :: d in c.deps <==> d in entries[c.name].deps)
    && (forall d :: d in c.deps ==> c.deps[d] == if d in instances then instances[d] else Undefined)
  }

  /** The service is what its factory returned, or counts as failed exactly if the factory threw. */
  ghost predicate ResultRight(c: Call, entries: map<Name, Entry>, instances: map<Name, Value>, failed: seq<Name>)
    requires CallRight(c, entries, instances)
  {
    match entries[c.name].make(c.deps)
    case Made(v) => c.name in instances && instances[c.name] == v && c.name !in failed
    case Threw => c.name in failed
  }

  /** Every dependency that has a factory was called before its dependent. */
  ghost predicate DepsCalledFirst(entries: map<Name, Entry>, calls: seq<Call>) {
    forall i, d :: 0 <= i < |calls| && NeedsCall(entries, calls[i].name, d) ==> CalledBefore(calls, i, d)
  }

  ghost predicate NeedsCall(entries: map<Name, Entry>, n: Name, d: Name) {
    n in entries && entries[n].Factory? && d in entries[n].deps && d in entries && entries[d].Factory?
  }

  ghost predicate CalledBefore(calls: seq<Call>, i: nat, d: Name) {
    i <= |calls| && exists j :: 0 <= j < i && calls[j].name == d
  }

  /** Every factory was called rightly and once, dependencies first, and its result is its instance. */
  ghost predicate CallsDelivered(entries: map<Name, Entry>, instances: map<Name, Value>, calls: seq<Call>,
      failed: seq<Name>)
  {
    && CallsRight(entries, instances, calls, failed)
    && (forall n :: n in entries && entries[n].Factory? ==> exists i :: 0 <= i < |calls| && calls[i].name == n)
  }

  ghost predicate CallsRight(entries: map<Name, Entry>, instances: map<Name, Value>, calls: seq<Call>,
      failed: seq<Name>)
  {
    && (forall i :: 0 <= i < |calls| ==>
          CallRight(calls[i], entries, instances) && ResultRight(calls[i], entries, instances, failed))
    && (forall i, j :: 0 <= i < j < |calls| ==> calls[i].name != calls[j].name)
    && DepsCalledFirst(entries, calls)
  }

  /** Every registered value is there as it was given, and nothing else was touched. */
  ghost predicate ValuesDelivered(entries: map<Name, Entry>, before: map<Name, Value>, instances: map<Name, Value>,
      failed: seq<Name>)
  {
    && (forall n :: n in entries && entries[n].Fixed? ==>
          n in instances && instances[n] == entries[n].value && n !in failed)
    && (forall n :: n !in entries ==> n !in failed && SameAt(before, instances, n))
  }

  ghost predicate NothingMissing(entries: map<Name, Entry>) {
    forall n, d :: n in entries && entries[n].Factory? && d in entries[n].deps ==> d in entries
  }

  /** What a boot did, for each of its answers. */
  ghost predicate BootRight(entries: map<Name, Entry>, before: map<Name, Value>, instances: map<Name, Value>,
      calls: seq<Call>, r: BootResult)
  {
    match r
    case Booted(failed) =>
      && NothingMissing(entries)
      && CallsDelivered(entries, instances, calls, failed) && ValuesDelivered(entries, before, instances, failed)
    case Aborted(name) =>
      // only the last call threw
      && NothingMissing(entries)
      && calls != [] && calls[|calls| - 1].name == name && CallsRight(entries, instances, calls, [name])
    case Unresolved(report) =>
      Blocked(entries, report) && calls == [] && instances == before
  }

  /** Why a boot could not order the services, in terms of the registrations. */
  ghost predicate Blocked(entries: map<Name, Entry>, report: SortResult) {
    match report
    case NotRegistered(service, dep) =>
      service in entries && entries[service].Factory? && dep in entries[service].deps && dep !in entries
    case Circular(remaining) =>
      && remaining != []
      && forall n :: n in remaining ==>
           n in entries && entries[n].Factory? && exists d :: d in remaining && d in entries[n].deps
    case Sorted(_) => false
  }

  lemma BlockedBySort(names: seq<Name>, entries: map<Name, Entry>, report: SortResult)
    requires SortOf(GraphOf(names, entries), report) && !report.Sorted?
    ensures Blocked(entries, report)
  {
    var g := GraphOf(names, entries);
    assert forall n :: n in g.deps ==> g.deps[n] == if entries[n].Factory? then entries[n].deps else [];
    if report.Circular? {
      forall n | n in report.remaining
        ensures n in entries && entries[n].Factory? && exists d :: d in report.remaining && d in entries[n].deps
      {
        assert Waits(g, n, report.remaining);
      }
    }
  }

  lemma CallOfRight(c: Call, entries: map<Name, Entry>, instances: map<Name, Value>, order: seq<Name>)
    requires CallOf(c, entries, instances, order) && forall n :: n in order ==> n in entries
    ensures CallRight(c, entries, instances)
    ensures entries[c.name].make(c.deps) == OutcomeOf(EntryOf(entries, c.name), instances)
  {
    assert EntryOf(entries, c.name) == entries[c.name];
  }

  /** A call's position in the calls of a dependency-first order is after those of its dependencies. */
  lemma {:induction false} CallsInOrder(g: Graph, entries: map<Name, Entry>, instances: map<Name, Value>,
      order: seq<Name>)
    requires Describes(g, entries) && NoDuplicates(order) && DepsFirst(g, order)
    requires forall n :: n in order ==> n in entries
    ensures DepsCalledFirst(entries, CallsOf(entries, instances, order))
  {
    if order != [] {
      var m := |order| - 1;
      DepsFirstPrefix(g, order, m);
      CallsInOrder(g, entries, instances, order[..m]);
      CallsOncePerFactory(entries, instances, order[..m]);
      NextCallInOrder(g, entries, instances, order);
    }
  }

  lemma NextCallInOrder(g: Graph, entries: map<Name, Entry>, instances: map<Name, Value>, order: seq<Name>)
    requires Describes(g, entries) && order != [] && DepsFirst(g, order)
    requires forall n :: n in order ==> n in entries
    requires var before := order[..|order| - 1];
             && DepsCalledFirst(entries, CallsOf(entries, instances, before))
             && OnceEach(CallsOf(entries, instances, before), entries, instances, before)
    ensures DepsCalledFirst(entries, CallsOf(entries, instances, order))
  {
    var m := |order| - 1;
    var before, calls := CallsOf(entries, instances, order[..m]), CallsOf(entries, instances, order);
    assert forall j :: 0 <= j < |before| ==> calls[j] == before[j];
    forall i, d | 0 <= i < |calls| && NeedsCall(entries, calls[i].name, d) ensures CalledBefore(calls, i, d) {
      if i < |before| {
        assert CalledBefore(before, i, d);
      } else {
        assert calls[i].name == order[m] && DependsOn(g, order[m], d);
        assert d in order[..m] && EntryOf(entries, d).Factory?;
        assert CalledBefore(before, |before|, d);
      }
    }
  }

  /** Calls made along a dependency-first order, and what became of their services. */
  lemma MadeRight(g: Graph, entries: map<Name, Entry>, before: map<Name, Value>, order: seq<Name>,
      instances: map<Name, Value>)
    requires Describes(g, entries) && NoDuplicates(order) && DepsFirst(g, order)
    requires forall n :: n in order ==> n in entries
    requires DecidedAll(entries, before, instances, order)
    ensures CallsRight(entries, instances, CallsOf(entries, instances, order), FailedOf(entries, instances, order))
    ensures OnceEach(CallsOf(entries, instances, order), entries, instances, order)
  {
    var made, failed := CallsOf(entries, instances, order), FailedOf(entries, instances, order);
    CallsOncePerFactory(entries, instances, order);
    CallsInOrder(g, entries, instances, order);
    forall i | 0 <= i < |made|
      ensures CallRight(made[i], entries, instances) && ResultRight(made[i], entries, instances, failed)
    {
      assert CallOf(made[i], entries, instances, order);
      CallOfRight(made[i], entries, instances, order);
      assert Decided(EntryOf(entries, made[i].name), before, instances, made[i].name);
    }
  }

  /** A run along the whole order calls every factory. */
  lemma RunDelivers(g: Graph, entries: map<Name, Entry>, before: map<Name, Value>, order: seq<Name>,
      instances: map<Name, Value>)
    requires Describes(g, entries) && TopoOrder(g, order)
    requires DecidedAll(entries, before, instances, order)
    ensures CallsDelivered(entries, instances, CallsOf(entries, instances, order), FailedOf(entries, instances, order))
  {
    MadeRight(g, entries, before, order, instances);
    var made := CallsOf(entries, instances, order);
    forall n | n in entries && entries[n].Factory? ensures exists i :: 0 <= i < |made| && made[i].name == n
    {
      assert n in order && EntryOf(entries, n).Factory?;
    }
  }

  lemma RunKeepsValues(g: Graph, entries: map<Name, Entry>, before: map<Name, Value>, order: seq<Name>,
      instances: map<Name, Value>)
    requires Describes(g, entries) && TopoOrder(g, order)
    requires DecidedAll(entries, before, instances, order)
    ensures ValuesDelivered(entries, before, instances, FailedOf(entries, instances, order))
  {
    forall n | n in entries && entries[n].Fixed?
      ensures n in instances && instances[n] == entries[n].value && n !in FailedOf(entries, instances, order)
    {
      assert n in order && Decided(EntryOf(entries, n), before, instances, n);
    }
  }

  lemma CompleteMissesNothing(names: seq<Name>, entries: map<Name, Entry>)
    requires GraphOf(names, entries).Complete()
    ensures NothingMissing(entries)
  {
    var g := GraphOf(names, entries);
    forall n, d | n in entries && entries[n].Factory? && d in entries[n].deps ensures d in entries {
      assert n in g.deps && g.deps[n] == EntryDeps(entries[n]);
      assert d in g.deps[n];
      assert d in g.deps;
    }
  }

  /** A run that stopped at a throwing factory called that one last. */
  lemma StopsLast(entries: map<Name, Entry>, order: seq<Name>, instances: map<Name, Value>)
    requires order != [] && FailedOf(entries, instances, order) == [order[|order| - 1]]
    ensures var calls := CallsOf(entries, instances, order);
            calls != [] && calls[|calls| - 1].name == order[|order| - 1]
  {
    var last := order[|order| - 1];
    assert last in FailedOf(entries, instances, order);
    assert |NewCalls(entries, instances, last)| == 1;
  }

  /** A run that stopped at the last of the services it got to. */
  lemma StopRight(g: Graph, entries: map<Name, Entry>, before: map<Name, Value>, calls0: seq<Call>, done: seq<Name>,
      instances: map<Name, Value>, calls: seq<Call>)
    requires Describes(g, entries) && NoDuplicates(done) && DepsFirst(g, done)
    requires done != [] && forall n :: n in done ==> n in entries
    requires RanTo(entries, before, calls0, done, instances, calls)
    requires FailedOf(entries, instances, done) == [done[|done| - 1]]
    ensures calls0 < calls && calls[|calls| - 1].name == done[|done| - 1]
    ensures CallsRight(entries, instances, calls[|calls0|..], [done[|done| - 1]])
  {
    MadeRight(g, entries, before, done, instances);
    StopsLast(entries, done, instances);
    NewOnly(calls0, CallsOf(entries, instances, done));
  }

  /** The first k services of an order. */
  lemma FirstOf(g: Graph, order: seq<Name>, k: nat)
    requires TopoOrder(g, order) && 0 < k <= |order|
    ensures NoDuplicates(order[..k]) && DepsFirst(g, order[..k])
    ensures order[..k] != [] && order[..k][k - 1] == order[k - 1]
    ensures forall n :: n in order[..k] ==> n in g.deps
  {
    DepsFirstPrefix(g, order, k);
    assert forall n :: n in order[..k] ==> n in order;
  }

  lemma StopAt(g: Graph, entries: map<Name, Entry>, before: map<Name, Value>, calls0: seq<Call>, order: seq<Name>,
      k: nat, instances: map<Name, Value>, calls: seq<Call>)
    requires Describes(g, entries) && TopoOrder(g, order) && 0 < k <= |order|
    requires RanTo(entries, before, calls0, order[..k], instances, calls)
    requires FailedOf(entries, instances, order[..k]) == [order[k - 1]]
    ensures calls0 < calls && calls[|calls| - 1].name == order[k - 1]
    ensures CallsRight(entries, instances, calls[|calls0|..], [order[k - 1]])
  {
    FirstOf(g, order, k);
    StopRight(g, entries, before, calls0, order[..k], instances, calls);
  }

  lemma GraphDescribes(names: seq<Name>, entries: map<Name, Entry>)
    ensures Describes(GraphOf(names, entries), entries)
  {}

  lemma NewOnly(a: seq<Call>, b: seq<Call>)
    ensures a <= a + b && (a + b)[|a|..] == b
  {}

  class Container {
    var names: seq<Name>
    var entries: map<Name, Entry>
    var instances: map<Name, Value>
    var bootOrder: seq<Name>
    var lastFailed: seq<Name>
    var booted: bool
    var frozen: bool
    ghost var bootGraph: Graph
    ghost var calls: seq<Call>      // the factory calls made so far
    ghost var disposals: seq<Name>  // the dispose() calls made so far

    /** Registrations are consistent; only a booted container is frozen; its services are there. */
    ghost predicate Valid()
      reads this
    {
      && GraphOf(names, entries).Valid()
      && (frozen ==> booted)
      && (booted ==>
            && TopoOrder(bootGraph, bootOrder)
            && forall n :: n in entries ==> n in instances || n in lastFailed)
    }

    constructor ()
      ensures Valid() && !booted && !frozen
      ensures entries == map[] && instances == map[] && calls == [] && disposals == []
    {
      names, entries, instances, bootOrder, lastFailed := [], map[], map[], [], [];
      booted, frozen := false, false;
      bootGraph, calls, disposals := Graph([], map[]), [], [];
    }

    method Register(name: Name, entry: Entry) returns (status: Status)
      requires Valid()
      modifies this`names, this`entries
      ensures Valid()
      ensures status == if frozen then IsFrozen else if booted then IsBooted else Ok
      ensures entries == if status.Ok? then old(entries)[name := entry] else old(entries)
      ensures names == if status.Ok? && name !in old(names) then old(names) + [name] else old(names)
    {
      if frozen {
        return IsFrozen;
      }
      if booted {
        return IsBooted;
      }
      Set(name, entry);
      return Ok;
    }

    /** `_registry.set`: a new name goes last, a known one keeps its place. */
    method Set(name: Name, entry: Entry)
      requires GraphOf(names, entries).Valid()
      modifies this`names, this`entries
      ensures GraphOf(names, entries).Valid()
      ensures entries == old(entries)[name := entry]
      ensures names == if name !in old(names) then old(names) + [name] else old(names)
    {
      assert forall n :: n in entries <==> n in GraphOf(names, entries).deps;
      if name !in entries {
        names := names + [name];
      }
      entries := entries[name := entry];
      assert forall n :: n in entries <==> n in GraphOf(names, entries).deps;
    }

    /** Run or copy one registration; false when its factory threw. */
    method Instantiate(name: Name, ghost before: map<Name, Value>, ghost done: seq<Name>, ghost calls0: seq<Call>)
      returns (made: bool)
      requires forall n :: n in done + [name] ==> n in entries
      requires NoDuplicates(done + [name]) && DepsFirst(GraphOf(names, entries), done + [name])
      requires Ran(before, calls0, done)
      modifies this`instances, this`calls
      ensures Ran(before, calls0, done + [name])
      ensures FailedOf(entries, instances, done + [name]) ==
              old(FailedOf(entries, instances, done)) + if made then [] else [name]
    {
      ghost var was := instances;
      var outcome := Run(name);
      if outcome.Made? {
        instances := instances[name := outcome.value];
      }
      made := outcome.Made?;
      RanNext(GraphOf(names, entries), entries, before, calls0, was, old(calls), done, name, instances, calls);
    }

    /** The factory's call, or the registered value. */
    method Run(name: Name) returns (outcome: Outcome)
      requires name in entries
      modifies this`calls
      ensures outcome == OutcomeOf(EntryOf(entries, name), instances)
      ensures calls == old(calls) + NewCalls(entries, instances, name)
    {
      var entry := entries[name];
      if entry.Fixed? {
        return Made(entry.value);
      }
      var view := DepView(instances, entry.deps);
      calls := calls + [Call(name, view)];
      return entry.make(view);
    }

    /** Instantiate in order; k is how many were handled, all of them unless a factory aborted. */
    method RunFactories(order: seq<Name>, failFast: bool) returns (failed: seq<Name>, ghost k: nat)
      requires NoDuplicates(order) && DepsFirst(GraphOf(names, entries), order)
      requires forall n :: n in order ==> n in entries
      modifies this`instances, this`calls
      ensures k <= |order| && Ran(old(instances), old(calls), order[..k])
      ensures failed == FailedOf(entries, instances, order[..k])
      ensures k < |order| ==> failFast && k > 0 && failed == [order[k - 1]]
      ensures failFast ==> failed == [] || (k > 0 && failed == [order[k - 1]])
    {
      failed, k := [], 0;
      assert order[..0] == [];
      for i := 0 to |order|
        invariant k == i
        invariant Ran(old(instances), old(calls), order[..i])
        invariant failed == FailedOf(entries, instances, order[..i])
        invariant failFast ==> failed == []
      {
        var made := InstantiateNth(order, i, old(instances), old(calls));
        k := i + 1;
        if !made {
          failed := failed + [order[i]];
          if failFast {
            return;
          }
        }
      }
    }

    method InstantiateNth(order: seq<Name>, i: nat, ghost before: map<Name, Value>, ghost calls0: seq<Call>)
      returns (made: bool)
      requires i < |order| && NoDuplicates(order) && DepsFirst(GraphOf(names, entries), order)
      requires forall n :: n in order ==> n in entries
      requires Ran(before, calls0, order[..i])
      modifies this`instances, this`calls
      ensures Ran(before, calls0, order[..i + 1])
      ensures FailedOf(entries, instances, order[..i + 1]) ==
              old(FailedOf(entries, instances, order[..i])) + if made then [] else [order[i]]
    {
      OrderStep(GraphOf(names, entries), order, i);
      made := Instantiate(order[i], before, order[..i], calls0);
    }

    /** The services of `order` were instantiated from this earlier state, one call per factory. */
    ghost predicate Ran(before: map<Name, Value>, calls0: seq<Call>, order: seq<Name>)
      reads this
    {
      RanTo(entries, before, calls0, order, instances, calls)
    }

    /** Sort the registrations; on success the order is recorded. */
    method Resolve() returns (sort: SortResult)
      requires Valid() && !booted
      modifies this`bootOrder, this`bootGraph
      ensures Valid()
      ensures SortOf(GraphOf(names, entries), sort)
      ensures if sort.Sorted? then bootGraph == GraphOf(names, entries) && bootOrder == sort.order
              else bootGraph == old(bootGraph) && bootOrder == old(bootOrder)
    {
      var g := GraphOf(names, entries);
      sort := TopoSort(g);
      if sort.Sorted? {
        bootOrder, bootGraph := sort.order, g;
      }
    }

    method Boot(failFast: bool) returns (r: BootResult)
      requires Valid()
      modifies this`instances, this`bootOrder, this`lastFailed, this`booted, this`bootGraph, this`calls
      ensures Valid()
      ensures old(booted) ==>
                && r == Booted([])
                && instances == old(instances) && bootOrder == old(bootOrder) && lastFailed == old(lastFailed)
                && booted && bootGraph == old(bootGraph) && calls == old(calls)
      ensures !old(booted) ==> BootOf(old(instances), old(calls), failFast, r)
      ensures !old(booted) ==>
                old(calls) <= calls && BootRight(entries, old(instances), instances, calls[|old(calls)|..], r)
      ensures r.Unresolved? ==> bootOrder == old(bootOrder) && lastFailed == old(lastFailed)
    {
      if booted {
        return Booted([]);
      }
      var sort := Resolve();
      if !sort.Sorted? {
        r := Unresolved(sort);
      } else {
        r := RunAll(failFast);
      }
      BootMeans(old(instances), old(calls), failFast, r);
    }

    /** What a boot means for the registrations and the instances alone. */
    lemma BootMeans(before: map<Name, Value>, calls0: seq<Call>, failFast: bool, r: BootResult)
      requires Valid() && BootOf(before, calls0, failFast, r)
      ensures calls0 <= calls && BootRight(entries, before, instances, calls[|calls0|..], r)
    {
      var g := GraphOf(names, entries);
      match r
      case Unresolved(report) =>
        BlockedBySort(names, entries, report);
      case Booted(failed) =>
        GraphDescribes(names, entries);
        CompleteMissesNothing(names, entries);
        RunDelivers(g, entries, before, bootOrder, instances);
        RunKeepsValues(g, entries, before, bootOrder, instances);
        NewOnly(calls0, CallsOf(entries, instances, bootOrder));
      case Aborted(name) =>
        CompleteMissesNothing(names, entries);
        AbortMeans(before, calls0, name);
    }

    lemma AbortMeans(before: map<Name, Value>, calls0: seq<Call>, name: Name)
      requires TopoOrder(GraphOf(names, entries), bootOrder) && BootAborted(before, calls0, name)
      ensures calls0 < calls && calls[|calls| - 1].name == name
      ensures CallsRight(entries, instances, calls[|calls0|..], [name])
    {
      var k :| 0 < k <= |bootOrder| && FailedAt(before, calls0, name, k);
      GraphDescribes(names, entries);
      StopAt(GraphOf(names, entries), entries, before, calls0, bootOrder, k, instances, calls);
    }

    /** Run every factory of the resolved order; a first throw ends a fail-fast boot. */
    method RunAll(failFast: bool) returns (r: BootResult)
      requires Valid() && !booted
      requires bootGraph == GraphOf(names, entries) && TopoOrder(bootGraph, bootOrder)
      modifies this`instances, this`lastFailed, this`booted, this`calls
      ensures Valid() && !r.Unresolved?
      ensures r.Booted? ==> BootDone(old(instances), old(calls), r.failed, failFast)
      ensures r.Aborted? ==> failFast && BootAborted(old(instances), old(calls), r.name)
    {
      var failed := RunOrder(failFast);
      if failFast && |failed| > 0 {
        return Aborted(failed[0]);
      }
      Finish(old(instances), failed);
      return Booted(failed);
    }

    method RunOrder(failFast: bool) returns (failed: seq<Name>)
      requires Valid() && !booted
      requires bootGraph == GraphOf(names, entries) && TopoOrder(bootGraph, bootOrder)
      modifies this`instances, this`calls
      ensures Valid()
      ensures if failFast && |failed| > 0 then BootAborted(old(instances), old(calls), failed[0])
              else Ran(old(instances), old(calls), bootOrder) && failed == FailedOf(entries, instances, bootOrder)
    {
      ghost var k;
      failed, k := RunFactories(bootOrder, failFast);
      if failFast && |failed| > 0 {
        assert FailedAt(old(instances), old(calls), failed[0], k);
      } else {
        assert bootOrder[..k] == bootOrder;
      }
    }

    /** What a boot of an unbooted container answers and does. */
    ghost predicate BootOf(before: map<Name, Value>, calls0: seq<Call>, failFast: bool, r: BootResult)
      reads this
    {
      var g := GraphOf(names, entries);
      match r
      case Unresolved(report) =>
        && SortOf(g, report) && !report.Sorted?
        && instances == before && calls == calls0 && !booted
      case Booted(failed) =>
        && bootGraph == g && SortOf(g, Sorted(bootOrder))
        && BootDone(before, calls0, failed, failFast)
      case Aborted(name) =>
        && bootGraph == g && SortOf(g, Sorted(bootOrder))
        && failFast && BootAborted(before, calls0, name)
    }

    /** Every registered service was run or copied and the container is open for use. */
    ghost predicate BootDone(before: map<Name, Value>, calls0: seq<Call>, failed: seq<Name>, failFast: bool)
      reads this
    {
      && booted
      && Ran(before, calls0, bootOrder)
      && failed == lastFailed == FailedOf(entries, instances, bootOrder)
      && (failFast ==> failed == [])
    }

    /** The run stopped at the first factory that threw, and the container is not booted. */
    ghost predicate BootAborted(before: map<Name, Value>, calls0: seq<Call>, name: Name)
      reads this
    {
      !booted && exists k :: 0 < k <= |bootOrder| && FailedAt(before, calls0, name, k)
    }

    /** The k-th service of the boot order is the first one that failed, and the last one that was run. */
    ghost predicate FailedAt(before: map<Name, Value>, calls0: seq<Call>, name: Name, k: nat)
      reads this
      requires 0 < k <= |bootOrder|
    {
      && name == bootOrder[k - 1]
      && Ran(before, calls0, bootOrder[..k])
      && FailedOf(entries, instances, bootOrder[..k]) == [name]
    }

    /** `_booted = true` once every service of the order was handled. */
    method Finish(ghost before: map<Name, Value>, failed: seq<Name>)
      requires Valid() && !booted
      requires bootGraph == GraphOf(names, entries) && TopoOrder(bootGraph, bootOrder)
      requires DecidedAll(entries, before, instances, bootOrder)
      requires failed == FailedOf(entries, instances, bootOrder)
      modifies this`booted, this`lastFailed
      ensures Valid() && booted && lastFailed == failed
    {
      assert forall n :: n in entries ==> n in instances || n in failed by {
        AllThere(bootGraph, entries, before, instances, bootOrder);
      }
      booted, lastFailed := true, failed;
    }

    method EnsureBooted(failFast: bool) returns (r: BootResult, alreadyBooted: bool)
      requires Valid()
      modifies this`instances, this`bootOrder, this`lastFailed, this`booted, this`bootGraph, this`calls
      ensures Valid() && alreadyBooted == old(booted)
      ensures old(booted) ==>
                && r == Booted(old(lastFailed)) && lastFailed == old(lastFailed) && booted
                && instances == old(instances) && calls == old(calls)
                && bootOrder == old(bootOrder) && bootGraph == old(bootGraph)
      ensures !old(booted) ==> BootOf(old(instances), old(calls), failFast, r)
      ensures !old(booted) ==>
                old(calls) <= calls && BootRight(entries, old(instances), instances, calls[|old(calls)|..], r)
    {
      if booted {
        return Booted(lastFailed), true;
      }
      r := Boot(failFast);
      alreadyBooted := false;
    }

    /** A registered service whose factory did not throw can always be fetched after boot. */
    method Get(name: Name) returns (value: Value, found: bool)
      requires Valid()
      ensures found <==> booted && name in instances
      ensures found ==> value == instances[name]
      ensures booted && name in entries && name !in lastFailed ==> found
    {
      if !booted || name !in instances {
        return Undefined, false;
      }
      return instances[name], true;
    }

    method Freeze() returns (status: Status)
      requires Valid()
      modifies this`frozen
      ensures Valid()
      ensures status == if booted then Ok else NotBooted
      ensures frozen == (old(frozen) || booted)
    {
      if !booted {
        return NotBooted;
      }
      frozen := true;
      return Ok;
    }

    /** Replaces a registration and, once booted, the instance; nothing is resolved again. */
    method Override(name: Name, value: Value) returns (status: Status)
      requires Valid()
      modifies this`names, this`entries, this`instances
      ensures Valid()
      ensures status == if frozen then IsFrozen else Ok
      ensures entries == if frozen then old(entries) else old(entries)[name := Fixed(value)]
      ensures instances == if booted && !frozen then old(instances)[name := value] else old(instances)
      ensures names == if !frozen && name !in old(names) then old(names) + [name] else old(names)
    {
      if frozen {
        return IsFrozen;
      }
      Set(name, Fixed(value));
      if booted {
        instances := instances[name := value];
      }
      return Ok;
    }

    method ResetForTest()
      requires Valid()
      modifies this`instances, this`bootOrder, this`lastFailed, this`booted, this`frozen
      ensures Valid() && !booted && !frozen
      ensures instances == map[] && bootOrder == [] && lastFailed == []
    {
      instances, bootOrder, lastFailed, booted, frozen := map[], [], [], false, false;
    }

    /** Shut down in reverse boot order; a disposer that throws is reported and passed over. */
    method Dispose() returns (errored: seq<Name>)
      requires Valid()
      modifies this`instances, this`bootOrder, this`lastFailed, this`booted, this`frozen, this`disposals
      ensures Valid() && !booted && !frozen
      ensures !old(booted) ==> errored == [] && disposals == old(disposals) && instances == old(instances)
      ensures old(booted) ==>
                var visited := Disposals(old(bootOrder), old(instances));
                && disposals == old(disposals) + visited
                && errored == Throwing(visited, old(instances))
                && instances == map[] && bootOrder == [] && lastFailed == []
    {
      if !booted {
        return [];
      }
      errored := [];
      var i := |bootOrder|;
      while i > 0
        modifies this`disposals
        invariant 0 <= i <= |bootOrder|
        invariant disposals == old(disposals) + Disposals(bootOrder[i..], instances)
        invariant errored == Throwing(Disposals(bootOrder[i..], instances), instances)
      {
        i := i - 1;
        var name := bootOrder[i];
        assert bootOrder[i..][1..] == bootOrder[i + 1..];
        if HasDisposer(instances, name) {
          disposals := disposals + [name];
          if Lookup(instances, name).disposer.DisposeThrows? {
            errored := errored + [name];
          }
        }
      }
      assert bootOrder[0..] == bootOrder;
      ResetForTest();
    }
  }

  /** A service first added by an override after boot has no place in the boot order and is never disposed. */
  method OverrideThenDispose(c: Container, name: Name, value: Value) returns (errored: seq<Name>)
    requires c.Valid() && c.booted && !c.frozen && name !in c.bootOrder
    modifies c
    ensures c.Valid() && !c.booted
    ensures old(c.disposals) <= c.disposals
    ensures name !in c.disposals[|old(c.disposals)|..] && name !in errored
    ensures forall n :: n in c.disposals[|old(c.disposals)|..] <==>
              n in old(c.bootOrder) && n in old(c.instances) &&
              old(c.instances)[n].Service? && old(c.instances)[n].disposer != NoDisposer
    ensures forall n :: n in errored <==>
              n in c.disposals[|old(c.disposals)|..] && old(c.instances)[n].disposer == DisposeThrows
  {
    var status := c.Override(name, value);
    errored := c.Dispose();
  }

  /** These are the instances and failures of a boot from scratch. */
  ghost predicate DecidedBy(g: Graph, entries: map<Name, Entry>, services: map<Name, Value>, failed: seq<Name>) {
    exists order :: TopoOrder(g, order) && DecidedAll(entries, map[], services, order)
      && failed == FailedOf(entries, services, order)
  }

  /**
    Disposing of a booted container and booting it again gives back the same services: the
    registrations survive, and their instances do not depend on the order in which they ran.
   */
  method Restart(c: Container) returns (first: BootResult, services: map<Name, Value>, second: BootResult)
    requires c.Valid() && !c.booted && c.instances == map[]
    modifies c
    ensures c.Valid()
    ensures c.names == old(c.names) && c.entries == old(c.entries)
    ensures var g := GraphOf(c.names, c.entries);
            if g.Complete() && Acyclic(g) then
              && first.Booted? && second.Booted? && c.booted && c.instances == services
              && DecidedBy(g, c.entries, services, first.failed)
              && (forall n :: n in first.failed <==> n in second.failed)
            else
              first.Unresolved? && second.Unresolved? && !c.booted && c.instances == services == map[]
  {
    first := c.Boot(false);
    services := c.instances;
    ghost var order := c.bootOrder;
    var errored := c.Dispose();
    second := c.Boot(false);
    if first.Booted? {
      BootUnique(c.bootGraph, c.entries, map[], order, services, c.bootOrder, c.instances);
    }
  }
}
