/** The ring of recent latencies of a provider (server/free-quota-tracker.js). */
module LatencyRing {
  import opened Wrappers

  const RING_SIZE := 10
  const DEFAULT_LATENCY_MS: real := 5000.0

  ghost function Sum(s: seq<real>): real {
    if s == [] then 0.0 else Sum(s[..|s| - 1]) + s[|s| - 1]
  }

  lemma {:induction false} SumAppend(a: seq<real>, b: seq<real>)
    ensures Sum(a + b) == Sum(a) + Sum(b)
  {
    if b == [] {
      assert a + b == a;
    } else {
      var m := |b| - 1;
      SumAppend(a, b[..m]);
      assert (a + b)[..|a + b| - 1] == a + b[..m];
    }
  }

  /** The last n elements, or all of them when there are fewer. */
  ghost function Last(s: seq<real>, n: nat): seq<real> {
    if |s| <= n then s else s[|s| - n..]
  }

  /** A latency that is recorded: a finite number (None is anything else) above zero. */
  predicate IsValid(latencyMs: Option<real>) {
    latencyMs.Some? && latencyMs.value > 0.0
  }

  /** The valid latencies of a sequence of calls, in order. */
  ghost function ValidOf(calls: seq<Option<real>>): seq<real> {
    if calls == [] then []
    else
      var last := calls[|calls| - 1];
      ValidOf(calls[..|calls| - 1]) + if IsValid(last) then [last.value] else []
  }

  /** The mean of the last ten valid latencies, or the default without any. */
  ghost function Average(calls: seq<Option<real>>): real {
    var recent := Last(ValidOf(calls), RING_SIZE);
    if recent == [] then DEFAULT_LATENCY_MS else Sum(recent) / |recent| as real
  }

  /** Slot j % 10 holds the j-th recorded latency, for the last ten of them. */
  ghost predicate Holds(ring: seq<real>, index: nat, recorded: seq<real>) {
    && |ring| == RING_SIZE && index < RING_SIZE
    && if |recorded| < RING_SIZE then index == |recorded| && ring[..index] == recorded
       else ring[index..] + ring[..index] == Last(recorded, RING_SIZE)
  }

  /** Writing the next slot and moving on. */
  lemma WriteSlot(ring: seq<real>, index: nat, recorded: seq<real>, x: real)
    requires Holds(ring, index, recorded)
    ensures Holds(ring[index := x], if index == RING_SIZE - 1 then 0 else index + 1, recorded + [x])
  {
    var ring' := ring[index := x];
    var next := if index == RING_SIZE - 1 then 0 else index + 1;
    if |recorded| >= RING_SIZE {
      var before := ring[index..] + ring[..index];
      assert ring'[next..] + ring'[..next] == before[1..] + [x];
      assert Last(recorded + [x], RING_SIZE) == Last(recorded, RING_SIZE)[1..] + [x];
    } else if |recorded| == RING_SIZE - 1 {
      assert ring'[0..] + ring'[..0] == recorded + [x];
    } else {
      assert ring'[..next] == recorded + [x];
    }
  }

  /** The last ten of these, or all of them when there are fewer. */
  ghost predicate IsRecent(recent: seq<real>, all: seq<real>) {
    && |recent| == (if |all| < 10 then |all| else 10)
    && exists older :: all == older + recent
  }

  /** The average is 5000 ms at first, and then the mean of the most recent valid latencies. */
  lemma AverageIsMean(calls: seq<Option<real>>) returns (recent: seq<real>)
    ensures IsRecent(recent, ValidOf(calls))
    ensures if recent == [] then Average(calls) == 5000.0 else Average(calls) * |recent| as real == Sum(recent)
  {
    var all := ValidOf(calls);
    recent := Last(all, RING_SIZE);
    assert all == all[..|all| - |recent|] + recent;
  }

  class Ring {
    const ring: array<real>
    var index: nat
    var count: nat
    ghost var calls: seq<Option<real>>

    ghost predicate Valid()
      reads this, ring
    {
      var recorded := ValidOf(calls);
      && ring.Length == RING_SIZE
      && Holds(ring[..], index, recorded)
      && count == if |recorded| < RING_SIZE then |recorded| else RING_SIZE
    }

    constructor ()
      ensures Valid() && calls == [] && fresh(ring)
    {
      ring := new real[RING_SIZE](_ => 0.0);
      index, count, calls := 0, 0, [];
    }

    method RecordLatency(latencyMs: Option<real>)
      requires Valid()
      modifies this, ring
      ensures Valid() && calls == old(calls) + [latencyMs]
      ensures ValidOf(calls) ==
              ValidOf(old(calls)) + if latencyMs.Some? && latencyMs.value > 0.0 then [latencyMs.value] else []
    {
      calls := calls + [latencyMs];
      assert calls[..|calls| - 1] == old(calls);
      if !IsValid(latencyMs) {
        return;
      }
      ghost var was, recorded := ring[..], ValidOf(old(calls));
      assert ValidOf(calls) == recorded + [latencyMs.value];
      WriteSlot(was, index, recorded, latencyMs.value);
      ring[index] := latencyMs.value;
      assert ring[..] == was[index := latencyMs.value];
      index := (index + 1) % RING_SIZE;
      if count < RING_SIZE {
        count := count + 1;
      }
    }

    /** The rolling average is the mean of the last ten valid latencies ever recorded. */
    method GetAverageLatency() returns (average: real)
      requires Valid()
      ensures average == Average(calls)
    {
      if count == 0 {
        return DEFAULT_LATENCY_MS;
      }
      var sum := 0.0;
      for i := 0 to count
        invariant sum == Sum(ring[..i])
      {
        assert ring[..i + 1] == ring[..i] + [ring[i]];
        sum := sum + ring[i];
      }
      ghost var recorded := ValidOf(calls);
      if |recorded| < RING_SIZE {
        assert ring[..count] == ring[..][..index] == recorded;
      } else {
        assert ring[..count] == ring[..] == ring[..index] + ring[index..];
        SumAppend(ring[..index], ring[index..]);
        SumAppend(ring[index..], ring[..index]);
        assert Sum(Last(recorded, RING_SIZE)) == sum;
      }
      return sum / count as real;
    }
  }
}
