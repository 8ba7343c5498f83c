/** When processQueue in server/task-manager.js starts a pass over the queue. */
module QueueTrigger {
  import opened Wrappers

  const DEBOUNCE_MS := 15

  /** The module-level variables; `timer` is when the timer that is set is due. */
  datatype State = State(lock: bool, pending: bool, timer: Option<int>, last: int, shuttingDown: bool)

  /** What one call of processQueue does. */
  datatype Outcome = AlreadyPending | Deferred | InShutdown | Started

  /**
    A call, from anywhere, inside a pass included; the timer's callback; the end of the pass
    that is running; and the start of the server's shutdown.
   */
  datatype Event = Call(now: int) | Fire(now: int) | EndPass(now: int) | StopServer(now: int)

  const START := State(false, false, None, 0, false)

  /** The state after a call, and what it did. */
  function Called(s: State, now: int): (State, Outcome) {
    if s.pending then (s, AlreadyPending)
    else if s.lock || (s.last != 0 && now - s.last < DEBOUNCE_MS) then
      (s.(pending := true, timer := Some(now + DEBOUNCE_MS)), Deferred)
    else if s.shuttingDown then (s.(last := now), InShutdown)
    else (s.(last := now, lock := true), Started)
  }

  /** A timer that is due goes off and calls again. */
  predicate Due(s: State, now: int) {
    s.timer.Some? && s.timer.value <= now
  }

  function Fired(s: State, now: int): (State, Outcome) {
    Called(s.(pending := false, timer := None), now)
  }

  /** Events that cannot happen now, a timer that is not due or an end without a pass, do nothing. */
  function Happen(s: State, e: Event): State {
    match e
    case Call(now) => Called(s, now).0
    case Fire(now) => if Due(s, now) then Fired(s, now).0 else s
    case EndPass(_) => s.(lock := false)
    case StopServer(_) => s.(shuttingDown := true)
  }

  predicate Starts(s: State, e: Event) {
    match e
    case Call(now) => Called(s, now).1.Started?
    case Fire(now) => Due(s, now) && Fired(s, now).1.Started?
    case EndPass(_) => false
    case StopServer(_) => false
  }

  function After(events: seq<Event>): State {
    if events == [] then START else Happen(After(events[..|events| - 1]), events[|events| - 1])
  }

  class Trigger {
    var lock: bool
    var pending: bool
    var timer: Option<int>
    var last: int
    var shuttingDown: bool

    ghost function Now(): State
      reads this
    {
      State(lock, pending, timer, last, shuttingDown)
    }

    constructor ()
      ensures Now() == START
    {
      lock, pending, timer, last, shuttingDown := false, false, None, 0, false;
    }

    method ProcessQueue(now: int) returns (outcome: Outcome)
      modifies this
      ensures (Now(), outcome) == Called(old(Now()), now)
      ensures outcome.Started? <==>
                !old(pending) && !old(lock) && !shuttingDown && (old(last) == 0 || now - old(last) >= 15)
      ensures outcome.Started? ==> lock
    {
      if pending {
        return AlreadyPending;
      }
      if lock || (last != 0 && now - last < DEBOUNCE_MS) {
        pending := true;
        timer := Some(now + DEBOUNCE_MS);
        return Deferred;
      }
      last := now;
      if shuttingDown {
        return InShutdown;
      }
      lock := true;
      return Started;
    }

    method TimerFires(now: int) returns (outcome: Outcome)
      requires Due(Now(), now)
      modifies this
      ensures (Now(), outcome) == Fired(old(Now()), now)
    {
      pending := false;
      timer := None;
      outcome := ProcessQueue(now);
    }

    method Finish()
      requires lock
      modifies this`lock
      ensures forall now :: Now() == Happen(old(Now()), EndPass(now))
    {
      lock := false;
    }

    method Shutdown()
      modifies this`shuttingDown
      ensures forall now :: Now() == Happen(old(Now()), StopServer(now))
    {
      shuttingDown := true;
    }
  }

  /** A trigger to which these events happen one after the other. */
  method Drive(events: seq<Event>) returns (t: Trigger)
    ensures t.Now() == After(events)
  {
    t := new Trigger();
    for i := 0 to |events|
      invariant fresh(t) && t.Now() == After(events[..i])
    {
      assert events[..i + 1][..i] == events[..i];
      match events[i] {
        case Call(now) =>
          var outcome := t.ProcessQueue(now);
        case Fire(now) =>
          if t.timer.Some? && t.timer.value <= now {
            var outcome := t.TimerFires(now);
          }
        case EndPass(_) =>
          if t.lock {
            t.Finish();
          }
        case StopServer(_) =>
          t.Shutdown();
      }
    }
    assert events[..|events|] == events;
  }

  // ----- Every run -----

  /** The events' times are positive and do not go back. */
  ghost predicate Timely(events: seq<Event>) {
    && (forall i :: 0 <= i < |events| ==> 0 < events[i].now)
    && (forall i, j :: 0 <= i <= j < |events| ==> events[i].now <= events[j].now)
  }

  ghost function Clock(events: seq<Event>): int {
    if events == [] then 0 else events[|events| - 1].now
  }

  /** The i-th event starts a pass. */
  ghost predicate StartedAt(events: seq<Event>, i: nat) {
    i < |events| && Starts(After(events[..i]), events[i])
  }

  ghost predicate EndsBetween(events: seq<Event>, i: nat, j: nat) {
    exists k :: i < k < j <= |events| && events[k].EndPass?
  }

  /** Since the i-th event a pass has started. */
  ghost predicate StartedSince(events: seq<Event>, i: nat) {
    exists j: nat :: i <= j && StartedAt(events, j)
  }

  lemma StartedPrefix(events: seq<Event>, m: nat, i: nat)
    requires i < m <= |events|
    ensures StartedAt(events[..m], i) == StartedAt(events, i)
  {
    assert events[..m][..i] == events[..i];
  }

  /** In every run the pending flag is set exactly when a timer is. */
  lemma {:induction false} PendingIffTimer(events: seq<Event>)
    ensures After(events).pending <==> After(events).timer.Some?
  {
    if events != [] {
      PendingIffTimer(events[..|events| - 1]);
    }
  }

  /** The server is stopping exactly when it was told to. */
  lemma {:induction false} StoppingIff(events: seq<Event>)
    ensures After(events).shuttingDown <==> exists i :: 0 <= i < |events| && events[i].StopServer?
  {
    if events != [] {
      var m := |events| - 1;
      StoppingIff(events[..m]);
      assert forall i :: 0 <= i < m ==> events[..m][i] == events[i];
    }
  }

  /** The last call that got past the debounce lies at least that long before the timer. */
  ghost predicate Clocked(s: State, clock: int) {
    && 0 <= s.last <= clock
    && (s.timer.Some? ==> s.last + DEBOUNCE_MS <= s.timer.value <= clock + DEBOUNCE_MS)
  }

  lemma {:induction false} TimesAgree(events: seq<Event>)
    requires Timely(events)
    ensures Clocked(After(events), Clock(events))
  {
    if events != [] {
      TimesAgree(events[..|events| - 1]);
      PendingIffTimer(events[..|events| - 1]);
    }
  }

  /** `last` is not before any pass that has started. */
  lemma {:induction false} StartSeen(events: seq<Event>, i: nat)
    requires Timely(events) && StartedAt(events, i)
    ensures events[i].now <= After(events).last
  {
    var m := |events| - 1;
    TimesAgree(events[..m]);
    if i < m {
      StartedPrefix(events, m, i);
      StartSeen(events[..m], i);
    }
  }

  /** A pass that started holds the lock until it ends. */
  lemma {:induction false} LockHeld(events: seq<Event>, i: nat)
    requires StartedAt(events, i)
    ensures After(events).lock || EndsBetween(events, i, |events|)
  {
    var m := |events| - 1;
    if i < m {
      StartedPrefix(events, m, i);
      LockHeld(events[..m], i);
      if k :| i < k < m && events[..m][k].EndPass? {
        assert events[k].EndPass?;
      }
    }
  }

  /** Passes never nest and start at least 15 ms apart. */
  lemma PassesApart(events: seq<Event>, i: nat, j: nat)
    requires Timely(events) && i < j && StartedAt(events, i) && StartedAt(events, j)
    ensures EndsBetween(events, i, j)
    ensures events[i].now + 15 <= events[j].now
  {
    var before := events[..j];
    StartedPrefix(events, j, i);
    StartSeen(before, i);
    LockHeld(before, i);
    TimesAgree(before);
    var k :| i < k < j && before[k].EndPass?;
    assert events[k].EndPass?;
  }

  /**
    No call is lost: in every run, as long as the server is not told to stop, each call has been
    followed by the start of a pass, at once or later, or a timer is set that will retry.
   */
  lemma {:induction false} NoCallLost(events: seq<Event>, i: nat)
    requires Timely(events) && i < |events| && events[i].Call?
    requires forall k :: 0 <= k < |events| ==> !events[k].StopServer?
    ensures StartedSince(events, i) || After(events).timer.Some?
  {
    var m := |events| - 1;
    StoppingIff(events);
    PendingIffTimer(events[..m]);
    if StartedAt(events, m) {
      assert StartedSince(events, i);
    } else if i < m {
      NoCallLost(events[..m], i);
      if j: nat :| i <= j && StartedAt(events[..m], j) {
        StartedPrefix(events, m, j);
      }
    }
  }

  /**
    The timer is due within 15 ms of the last event, and when it goes off it starts a pass unless
    one is running, in which case it is set again, or the server is stopping.
   */
  lemma TimerRetries(events: seq<Event>, now: int)
    requires Timely(events) && After(events).timer.Some? && Clock(events) <= now
    ensures After(events).timer.value <= Clock(events) + 15
    ensures Due(After(events), now) ==>
              var s := After(events);
              var next := events + [Fire(now)];
              && (StartedAt(next, |events|) <==> !s.lock && !s.shuttingDown)
              && (s.lock ==> After(next).timer == Some(now + 15))
  {
    var next := events + [Fire(now)];
    assert next[..|events|] == events;
    TimesAgree(events);
  }
}
