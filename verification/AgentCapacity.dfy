/** The running-task counter of the remote agent (handleRun in agent/index.js). */
module AgentCapacity {

  type Child = nat

  /** The shared counter, and the `finished` flag each accepted child's event handlers share. */
  datatype State = State(running: int, finished: map<Child, bool>)

  /**
    A request that passed validation, with the child its spawn would return, or a close or
    error event of a child.
   */
  datatype Event = Arrive(child: Child) | End(child: Child)

  const START := State(0, map[])

  /** `config.max_concurrent || 3` */
  function Limit(configured: int): int {
    if configured == 0 then 3 else configured
  }

  predicate Accepts(max: int, s: State) { s.running < max }

  /**
    What one event does.  Events that cannot occur do nothing: spawn never returns an old child,
    and only an accepted child has handlers.
   */
  function Handled(max: int, s: State, e: Event): State {
    match e
    case Arrive(child) =>
      if child !in s.finished && Accepts(max, s) then State(s.running + 1, s.finished[child := false]) else s
    case End(child) =>
      if child in s.finished && !s.finished[child] then State(s.running - 1, s.finished[child := true]) else s
  }

  function After(max: int, events: seq<Event>): State {
    if events == [] then START
    else Handled(max, After(max, events[..|events| - 1]), events[|events| - 1])
  }

  class Agent {
    const maxConcurrent: int
    var running: int
    var finished: map<Child, bool>

    ghost function Now(): State
      reads this
    {
      State(running, finished)
    }

    constructor (configured: int)
      ensures Now() == START && running == 0 && finished == map[]
      ensures maxConcurrent == Limit(configured) == if configured == 0 then 3 else configured
    {
      maxConcurrent := if configured == 0 then 3 else configured;
      running, finished := 0, map[];
    }

    method Request(child: Child) returns (accepted: bool)
      requires child !in finished
      modifies this
      ensures Now() == Handled(maxConcurrent, old(Now()), Arrive(child))
      ensures accepted <==> old(running) < maxConcurrent
    {
      if running >= maxConcurrent {
        return false;
      }
      running := running + 1;
      finished := finished[child := false];
      return true;
    }

    /** The close or error event of a child; both handlers are the same. */
    method Ended(child: Child)
      requires child in finished
      modifies this
      ensures Now() == Handled(maxConcurrent, old(Now()), End(child))
    {
      if finished[child] {
        return;
      }
      finished := finished[child := true];
      running := running - 1;
    }
  }

  /** An agent that is given these events one after the other. */
  method Serve(configured: int, events: seq<Event>) returns (a: Agent)
    ensures a.maxConcurrent == Limit(configured)
    ensures a.Now() == After(Limit(configured), events)
  {
    a := new Agent(configured);
    for i := 0 to |events|
      invariant fresh(a) && a.maxConcurrent == Limit(configured)
      invariant a.Now() == After(Limit(configured), events[..i])
    {
      assert events[..i + 1][..i] == events[..i];
      match events[i]
      case Arrive(child) =>
        if child !in a.finished {
          var accepted := a.Request(child);
        }
      case End(child) =>
        if child in a.finished {
          a.Ended(child);
        }
    }
    assert events[..|events|] == events;
  }

  // ----- What happened to a child, read off the events -----

  /** The i-th event is the request that started child c. */
  ghost predicate TakenAt(max: int, events: seq<Event>, i: nat, c: Child) {
    && i < |events| && events[i] == Arrive(c)
    && After(max, events[..i + 1]) != After(max, events[..i])
  }

  ghost predicate Taken(max: int, events: seq<Event>, c: Child) {
    exists i: nat :: TakenAt(max, events, i, c)
  }

  /** Child c was started, and has closed or failed since. */
  ghost predicate HasEnded(max: int, events: seq<Event>, c: Child) {
    exists i: nat, j: nat :: TakenAt(max, events, i, c) && i < j < |events| && events[j] == End(c)
  }

  /** The children that were started and have not ended. */
  ghost function Unfinished(max: int, events: seq<Event>): set<Child> {
    set e | e in events && e.Arrive? && Taken(max, events, e.child) && !HasEnded(max, events, e.child) :: e.child
  }

  lemma InUnfinished(max: int, events: seq<Event>, c: Child)
    ensures c in Unfinished(max, events) <==> Taken(max, events, c) && !HasEnded(max, events, c)
  {
    if Taken(max, events, c) {
      var i: nat :| TakenAt(max, events, i, c);
      assert events[i] in events;
    }
  }

  lemma TakenAtPrefix(max: int, events: seq<Event>, m: nat, i: nat, c: Child)
    requires i < m <= |events|
    ensures TakenAt(max, events[..m], i, c) == TakenAt(max, events, i, c)
  {
    assert events[..m][..i] == events[..i] && events[..m][..i + 1] == events[..i + 1];
  }

  /** What the last event adds to a child's history. */
  lemma TakenStep(max: int, events: seq<Event>, c: Child)
    requires events != []
    ensures var m := |events| - 1;
            Taken(max, events, c) <==> Taken(max, events[..m], c) || TakenAt(max, events, m, c)
  {
    var m := |events| - 1;
    if i: nat :| TakenAt(max, events, i, c) && i < m {
      TakenAtPrefix(max, events, m, i, c);
    }
    if i: nat :| TakenAt(max, events[..m], i, c) {
      TakenAtPrefix(max, events, m, i, c);
    }
  }

  lemma EndedStep(max: int, events: seq<Event>, c: Child)
    requires events != []
    ensures var m := |events| - 1;
            HasEnded(max, events, c) <==>
              HasEnded(max, events[..m], c) || (events[m] == End(c) && Taken(max, events[..m], c))
  {
    var m := |events| - 1;
    if i: nat, j: nat :| TakenAt(max, events, i, c) && i < j < |events| && events[j] == End(c) {
      TakenAtPrefix(max, events, m, i, c);
      assert j < m ==> events[..m][j] == End(c);
    }
    if i: nat, j: nat :| TakenAt(max, events[..m], i, c) && i < j < m && events[..m][j] == End(c) {
      TakenAtPrefix(max, events, m, i, c);
      assert events[j] == End(c);
    }
    if i: nat :| TakenAt(max, events[..m], i, c) && events[m] == End(c) {
      TakenAtPrefix(max, events, m, i, c);
    }
  }

  /** The agent's flags agree with what happened to each child. */
  ghost predicate FlagsTell(max: int, events: seq<Event>, s: State, c: Child) {
    && (c in s.finished <==> Taken(max, events, c))
    && (c in s.finished ==> (s.finished[c] <==> HasEnded(max, events, c)))
  }

  lemma {:induction false} FlagsRight(max: int, events: seq<Event>, c: Child)
    ensures FlagsTell(max, events, After(max, events), c)
    ensures HasEnded(max, events, c) ==> Taken(max, events, c)
  {
    if events != [] {
      var m := |events| - 1;
      assert events[..|events|] == events;
      FlagsRight(max, events[..m], c);
      TakenStep(max, events, c);
      EndedStep(max, events, c);
    }
  }

  /** How the set of unfinished children changes with the last event. */
  lemma UnfinishedStep(max: int, events: seq<Event>)
    requires events != []
    ensures var m := |events| - 1;
            var before, s := Unfinished(max, events[..m]), After(max, events[..m]);
            var c := events[m].child;
            && (c in before <==> c in s.finished && !s.finished[c])
            && Unfinished(max, events) ==
                 if events[m].End? then before - {c}
                 else if c !in s.finished && Accepts(max, s) then before + {c}
                 else before
  {
    var m := |events| - 1;
    var before, s := Unfinished(max, events[..m]), After(max, events[..m]);
    assert events[..|events|] == events;
    forall c
      ensures c in before <==> c in s.finished && !s.finished[c]
      ensures c in Unfinished(max, events) <==> c in After(max, events).finished && !After(max, events).finished[c]
    {
      InUnfinished(max, events[..m], c);
      InUnfinished(max, events, c);
      FlagsRight(max, events[..m], c);
      FlagsRight(max, events, c);
    }
  }

  /**
    In any interleaving of requests and close and error events the counter is the number of
    children started and not ended, and it stays within the limit.
   */
  lemma {:induction false} CounterIsUnfinished(max: int, events: seq<Event>)
    ensures After(max, events).running == |Unfinished(max, events)|
    ensures After(max, events).running > 0 ==> After(max, events).running <= max
  {
    if events == [] {
      assert Unfinished(max, events) == {};
    } else {
      CounterIsUnfinished(max, events[..|events| - 1]);
      UnfinishedStep(max, events);
    }
  }

  /** A new child's request is refused exactly when the unfinished children have reached the limit. */
  lemma RefusedAtLimit(max: int, events: seq<Event>, c: Child)
    requires !Taken(max, events, c)
    ensures var next := events + [Arrive(c)];
            if |Unfinished(max, events)| >= max
            then !Taken(max, next, c) && After(max, next) == After(max, events)
            else Unfinished(max, next) == Unfinished(max, events) + {c}
                 && After(max, next).running == After(max, events).running + 1
  {
    var next := events + [Arrive(c)];
    assert next[..|events|] == events && next[..|next|] == next;
    CounterIsUnfinished(max, events);
    FlagsRight(max, events, c);
    UnfinishedStep(max, next);
    TakenStep(max, next, c);
  }

  /** Only the first close or error event of a started child lowers the counter, and by one. */
  lemma FirstEndCounts(max: int, events: seq<Event>, c: Child)
    ensures var next := events + [End(c)];
            && (Taken(max, events, c) && !HasEnded(max, events, c) ==>
                  After(max, next).running == After(max, events).running - 1)
            && (!Taken(max, events, c) || HasEnded(max, events, c) ==> After(max, next) == After(max, events))
            && (Taken(max, events, c) ==> HasEnded(max, next, c))
  {
    var next := events + [End(c)];
    assert next[..|events|] == events;
    FlagsRight(max, events, c);
    EndedStep(max, next, c);
  }
}
