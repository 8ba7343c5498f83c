/** Events admitted in fixed windows that start whenever the first event after a lapse arrives. */
module WindowLog {

  /** When an event was admitted, and when the window it was counted in had started. */
  datatype Stamp = Stamp(time: int, window: int)

  /**
    The windows hold at most `limit` events each: an event and the one `limit` places later
    belong to different windows, whose starts are at least `len` apart.
   */
  ghost predicate Limited(log: seq<Stamp>, limit: nat, len: int) {
    && (forall i :: 0 <= i < |log| ==> log[i].window <= log[i].time)
    && (forall i, j :: 0 <= i <= j < |log| ==> log[i].time <= log[j].time && log[i].window <= log[j].window)
    && (forall i, j :: 0 <= i && j == i + limit && j < |log| ==> Apart(log[i], log[j], len))
  }

  ghost predicate Apart(a: Stamp, b: Stamp, len: int) {
    a.time < b.window && a.window + len <= b.window
  }

  /** The last `count` events are those of the current window; earlier ones are in earlier windows. */
  ghost predicate CurrentWindow(log: seq<Stamp>, start: int, count: nat, len: int) {
    && count <= |log|
    && (forall i :: |log| - count <= i < |log| ==> log[i].window == start)
    && (forall i :: 0 <= i < |log| - count ==> Apart(log[i], Stamp(start, start), len))
  }

  /** Admitting one more event into a window that is not full keeps the log limited. */
  lemma Admit(log: seq<Stamp>, start: int, count: nat, len: int, limit: nat, now: int)
    requires Limited(log, limit, len) && CurrentWindow(log, start, count, len)
    requires start <= now && count < limit && len >= 0
    requires forall i :: 0 <= i < |log| ==> log[i].time <= now
    ensures Limited(log + [Stamp(now, start)], limit, len)
    ensures CurrentWindow(log + [Stamp(now, start)], start, count + 1, len)
  {
    var log' := log + [Stamp(now, start)];
    forall i | 0 <= i < |log| ensures log[i].window <= start {
      assert i < |log| - count ==> Apart(log[i], Stamp(start, start), len);
    }
    forall i, j | 0 <= i && j == i + limit && j < |log'| ensures Apart(log'[i], log'[j], len) {
      if j < |log| {
        assert Apart(log[i], log[j], len);
      } else {
        assert Apart(log[i], Stamp(start, start), len);
      }
    }
  }

  /** A window that starts at least `len` after the current one, and after all its events, is empty. */
  lemma NewWindow(log: seq<Stamp>, start: int, count: nat, len: int, start': int)
    requires CurrentWindow(log, start, count, len) && len >= 0
    requires start + len <= start'
    requires forall i :: 0 <= i < |log| ==> log[i].time < start'
    ensures CurrentWindow(log, start', 0, len)
  {
    forall i | 0 <= i < |log| ensures Apart(log[i], Stamp(start', start'), len) {
      if i < |log| - count {
        assert Apart(log[i], Stamp(start, start), len);
      }
    }
  }

  /** How many events fall into the closed interval from t to u. */
  ghost function Within(log: seq<Stamp>, t: int, u: int): nat {
    if log == [] then 0
    else Within(log[..|log| - 1], t, u) + if t <= log[|log| - 1].time <= u then 1 else 0
  }

  /** In a log ordered by time, those events are consecutive. */
  lemma {:induction false} WithinIsRange(log: seq<Stamp>, t: int, u: int) returns (lo: nat, hi: nat)
    requires forall i, j :: 0 <= i <= j < |log| ==> log[i].time <= log[j].time
    ensures lo <= hi <= |log| && Within(log, t, u) == hi - lo
    ensures forall i :: 0 <= i < |log| ==> (lo <= i < hi <==> t <= log[i].time <= u)
  {
    if log == [] {
      lo, hi := 0, 0;
    } else {
      var m := |log| - 1;
      lo, hi := WithinIsRange(log[..m], t, u);
      assert forall i :: 0 <= i < m ==> log[..m][i] == log[i];
      if t <= log[m].time <= u {
        if lo == hi {
          lo, hi := m, m + 1;
        } else {
          assert t <= log[lo].time <= u;
          assert hi == m;
          hi := m + 1;
        }
      }
    }
  }

  lemma FarApart(log: seq<Stamp>, limit: nat, len: int, i: nat)
    requires Limited(log, limit, len) && i + 2 * limit < |log|
    ensures log[i].time + len < log[i + 2 * limit].time
  {
    assert Apart(log[i], log[i + limit], len);
    assert Apart(log[i + limit], log[i + 2 * limit], len);
  }

  /** Any interval as long as a window holds at most twice the limit. */
  lemma TwiceTheLimit(log: seq<Stamp>, limit: nat, len: int, t: int)
    requires Limited(log, limit, len)
    ensures Within(log, t, t + len) <= 2 * limit
  {
    var lo, hi := WithinIsRange(log, t, t + len);
    if hi - lo > 2 * limit {
      FarApart(log, limit, len, lo);
      assert false;
    }
  }
}
