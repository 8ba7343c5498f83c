/** Rate limiting of repeated errors (_shouldLogError and its sweep in server/index.js). */
module ErrorLimiter {
  import opened WindowLog

  const WINDOW_MS := 60000
  const RATE_LIMIT := 10

  datatype Tracker = Tracker(count: nat, firstSeen: int, lastLogged: int)

  /** The errors of one key that were let through. */
  ghost function LogOf(logs: map<string, seq<Stamp>>, key: string): seq<Stamp> {
    if key in logs then logs[key] else []
  }

  function Min(a: nat, b: nat): nat { if a <= b then a else b }

  /** A tracked key: the last errors let through are those of the tracker's window. */
  ghost predicate Tracks(t: Tracker, log: seq<Stamp>, clock: int) {
    && t.count >= 1 && t.firstSeen <= clock
    && Limited(log, RATE_LIMIT, WINDOW_MS)
    && CurrentWindow(log, t.firstSeen, Min(t.count, RATE_LIMIT), WINDOW_MS)
    && forall i :: 0 <= i < |log| ==> log[i].time <= clock && log[i].time <= t.firstSeen + WINDOW_MS
  }

  /** A key without a tracker: all its windows are over. */
  ghost predicate Forgotten(log: seq<Stamp>, clock: int) {
    && Limited(log, RATE_LIMIT, WINDOW_MS)
    && CurrentWindow(log, clock, 0, WINDOW_MS)
  }

  /** The first error of a new window. */
  lemma Open(log: seq<Stamp>, clock: int, now: int)
    requires Forgotten(log, clock) && clock <= now
    ensures Tracks(Tracker(1, now, now), log + [Stamp(now, now)], now)
  {
    assert forall i :: 0 <= i < |log| ==> Apart(log[i], Stamp(clock, clock), WINDOW_MS);
    Admit(log, now, 0, WINDOW_MS, RATE_LIMIT, now);
  }

  lemma Expire(t: Tracker, log: seq<Stamp>, clock: int, now: int)
    requires Tracks(t, log, clock) && clock <= now && now - t.firstSeen > WINDOW_MS
    ensures Forgotten(log, now)
  {
    NewWindow(log, t.firstSeen, Min(t.count, RATE_LIMIT), WINDOW_MS, now);
  }

  lemma Wait(log: seq<Stamp>, clock: int, now: int)
    requires Forgotten(log, clock) && clock <= now
    ensures Forgotten(log, now)
  {
    assert forall i :: 0 <= i < |log| ==> Apart(log[i], Stamp(clock, clock), WINDOW_MS);
  }

  ghost predicate Good(trackers: map<string, Tracker>, logs: map<string, seq<Stamp>>, clock: int, key: string) {
    if key in trackers then Tracks(trackers[key], LogOf(logs, key), clock)
    else Forgotten(LogOf(logs, key), clock)
  }

  ghost predicate AllGood(trackers: map<string, Tracker>, logs: map<string, seq<Stamp>>, clock: int) {
    forall key :: Good(trackers, logs, clock, key)
  }

  /** Nothing becomes invalid by waiting. */
  lemma Elapse(trackers: map<string, Tracker>, logs: map<string, seq<Stamp>>, clock: int, now: int)
    requires AllGood(trackers, logs, clock) && clock <= now
    ensures AllGood(trackers, logs, now)
  {
    forall key ensures Good(trackers, logs, now, key) {
      assert Good(trackers, logs, clock, key);
      if key !in trackers {
        Wait(LogOf(logs, key), clock, now);
      }
    }
  }

  lemma PutKeeps(trackers: map<string, Tracker>, logs: map<string, seq<Stamp>>,
      clock: int, key: string, t: Tracker, log: seq<Stamp>)
    requires AllGood(trackers, logs, clock) && Tracks(t, log, clock)
    ensures AllGood(trackers[key := t], logs[key := log], clock)
    ensures LogOf(logs, key) == log ==> AllGood(trackers[key := t], logs, clock)
  {
    var trackers', logs' := trackers[key := t], logs[key := log];
    forall k ensures Good(trackers', logs', clock, k) {
      assert Good(trackers, logs, clock, k);
    }
    if LogOf(logs, key) == log {
      forall k ensures Good(trackers', logs, clock, k) {
        assert Good(trackers, logs, clock, k);
      }
    }
  }

  lemma DropKeeps(trackers: map<string, Tracker>, logs: map<string, seq<Stamp>>, clock: int, key: string)
    requires AllGood(trackers, logs, clock) && key in trackers && clock - trackers[key].firstSeen > WINDOW_MS
    ensures AllGood(trackers - {key}, logs, clock)
  {
    assert Good(trackers, logs, clock, key);
    Expire(trackers[key], LogOf(logs, key), clock, clock);
    var trackers' := trackers - {key};
    forall k ensures Good(trackers', logs, clock, k) {
      assert Good(trackers, logs, clock, k);
    }
  }

  /** One more error in a running window: let through while there is room. */
  lemma More(t: Tracker, log: seq<Stamp>, now: int, lastLogged: int)
    requires Tracks(t, log, now) && now - t.firstSeen <= WINDOW_MS
    ensures t.count < RATE_LIMIT ==> Tracks(t.(count := t.count + 1), log + [Stamp(now, t.firstSeen)], now)
    ensures t.count >= RATE_LIMIT ==> Tracks(t.(count := t.count + 1, lastLogged := lastLogged), log, now)
  {
    if t.count < RATE_LIMIT {
      Admit(log, t.firstSeen, t.count, WINDOW_MS, RATE_LIMIT, now);
    }
  }

  class Limiter {
    var trackers: map<string, Tracker>
    ghost var logs: map<string, seq<Stamp>>
    ghost var clock: int

    ghost predicate Valid()
      reads this
    {
      AllGood(trackers, logs, clock)
    }

    constructor ()
      ensures Valid() && logs == map[]
    {
      trackers, logs, clock := map[], map[], 0;
    }

    /**
      True lets the error through.  It is suppressed exactly when its window is still running
      and ten errors of that window were let through already.
     */
    method ShouldLogError(key: string, now: int) returns (ok: bool)
      requires Valid() && clock <= now
      modifies this
      ensures Valid() && clock == now
      ensures forall other :: other != key ==> LogOf(logs, other) == LogOf(old(logs), other)
      ensures ok ==>
                key in trackers && LogOf(logs, key) == LogOf(old(logs), key) + [Stamp(now, trackers[key].firstSeen)]
      ensures !ok ==>
                && logs == old(logs)
                && key in old(trackers) && now - old(trackers)[key].firstSeen <= 60000
                && CurrentWindow(LogOf(logs, key), old(trackers)[key].firstSeen, 10, 60000)
      ensures ok && key in old(trackers) && now - old(trackers)[key].firstSeen <= 60000 ==>
                old(trackers)[key].count < 10
    {
      Elapse(trackers, logs, clock, now);
      clock := now;
      ghost var log := LogOf(logs, key);
      assert Good(trackers, logs, clock, key);
      if key !in trackers {
        OpenWindow(key, now);
        return true;
      }
      var tracker := trackers[key];
      if now - tracker.firstSeen > WINDOW_MS {
        Expire(tracker, log, now, now);
        OpenWindow(key, now);
        return true;
      }
      tracker := tracker.(count := tracker.count + 1);
      More(trackers[key], log, now, if now - tracker.lastLogged > 10000 then now else tracker.lastLogged);
      if tracker.count > RATE_LIMIT {
        if now - tracker.lastLogged > 10000 {
          tracker := tracker.(lastLogged := now);
        }
        PutKeeps(trackers, logs, clock, key, tracker, log);
        trackers := trackers[key := tracker];
        return false;
      }
      PutKeeps(trackers, logs, clock, key, tracker, log + [Stamp(now, tracker.firstSeen)]);
      trackers := trackers[key := tracker];
      logs := logs[key := log + [Stamp(now, tracker.firstSeen)]];
      return true;
    }

    method OpenWindow(key: string, now: int)
      requires Valid() && clock == now && Forgotten(LogOf(logs, key), now)
      modifies this`trackers, this`logs
      ensures Valid() && trackers == old(trackers)[key := Tracker(1, now, now)]
      ensures logs == old(logs)[key := LogOf(old(logs), key) + [Stamp(now, now)]]
    {
      Open(LogOf(logs, key), now, now);
      PutKeeps(trackers, logs, clock, key, Tracker(1, now, now), LogOf(logs, key) + [Stamp(now, now)]);
      trackers := trackers[key := Tracker(1, now, now)];
      logs := logs[key := LogOf(logs, key) + [Stamp(now, now)]];
    }

    /** The periodic sweep forgets trackers that are two windows old; it lets nothing through. */
    method Sweep(now: int)
      requires Valid() && clock <= now
      modifies this
      ensures Valid() && clock == now && logs == old(logs)
      ensures trackers == map key | key in old(trackers) && now - old(trackers)[key].firstSeen <= 120000
                          :: old(trackers)[key]
    {
      Elapse(trackers, logs, clock, now);
      clock := now;
      var todo := trackers.Keys;
      while todo != {}
        modifies this`trackers
        invariant Valid() && todo <= trackers.Keys
        invariant forall key :: key in trackers ==> key in old(trackers) && trackers[key] == old(trackers)[key]
        invariant forall key :: key in old(trackers) ==>
          (key in trackers <==> key in todo || now - old(trackers)[key].firstSeen <= 2 * WINDOW_MS)
        decreases todo
      {
        var key :| key in todo;
        todo := todo - {key};
        if now - trackers[key].firstSeen > 2 * WINDOW_MS {
          DropKeeps(trackers, logs, clock, key);
          trackers := trackers - {key};
        }
      }
    }

    /** Whatever was reported and swept, any minute lets at most twenty errors of a key through. */
    lemma RateBound(key: string, t: int)
      requires Valid()
      ensures Limited(LogOf(logs, key), 10, 60000)
      ensures Within(LogOf(logs, key), t, t + 60000) <= 20
    {
      assert Good(trackers, logs, clock, key);
      TwiceTheLimit(LogOf(logs, key), RATE_LIMIT, WINDOW_MS, t);
    }
  }
}
