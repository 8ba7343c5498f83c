/** Request and token quotas per provider (server/free-quota-tracker.js). */
module QuotaTracker {
  import opened Wrappers
  import opened WindowLog

  const MINUTE_MS := 60000
  const DAY_MS := 86400000
  const BACKOFF_SECONDS := [30, 60, 120, 300]

  datatype Limits = Limits(rpm: Option<int>, rpd: Option<int>, tpm: Option<int>, tpd: Option<int>)

  datatype State = State(
    limits: Limits,
    minuteRequests: int, minuteTokens: int, minuteResetsAt: int,
    dailyRequests: int, dailyTokens: int, dailyResetsAt: int,
    cooldownUntil: Option<int>, backoffStep: nat)

  function Fresh(limits: Limits, now: int): State {
    State(limits, 0, 0, now + MINUTE_MS, 0, 0, now + DAY_MS, None, 0)
  }

  /** A missing or non-positive limit is never reached. */
  predicate HasReachedLimit(used: int, limit: Option<int>) {
    limit.Some? && limit.value > 0 && used >= limit.value
  }

  function MaybeResetWindows(s: State, now: int): State {
    var s1 := if now >= s.minuteResetsAt
      then s.(minuteRequests := 0, minuteTokens := 0, minuteResetsAt := now + MINUTE_MS) else s;
    if now >= s1.dailyResetsAt
      then s1.(dailyRequests := 0, dailyTokens := 0, dailyResetsAt := now + DAY_MS) else s1
  }

  predicate UnderLimits(s: State) {
    && !HasReachedLimit(s.minuteRequests, s.limits.rpm)
    && !HasReachedLimit(s.minuteTokens, s.limits.tpm)
    && !HasReachedLimit(s.dailyRequests, s.limits.rpd)
    && !HasReachedLimit(s.dailyTokens, s.limits.tpd)
  }

  predicate CoolingDown(s: State, now: int) {
    s.cooldownUntil.Some? && now < s.cooldownUntil.value
  }

  /** What a counter counts at this time: a window that has lapsed holds nothing. */
  ghost function InWindow(counter: int, resetsAt: int, now: int): int {
    if now >= resetsAt then 0 else counter
  }

  /** There is room: the limit is missing, not positive, or above what has been used. */
  ghost predicate Room(used: int, limit: Option<int>) {
    limit.None? || limit.value <= 0 || used < limit.value
  }

  /** No cooldown lies ahead, and there is room under all four limits. */
  ghost predicate MaySubmit(s: State, now: int) {
    && (s.cooldownUntil.None? || s.cooldownUntil.value <= now)
    && Room(InWindow(s.minuteRequests, s.minuteResetsAt, now), s.limits.rpm)
    && Room(InWindow(s.minuteTokens, s.minuteResetsAt, now), s.limits.tpm)
    && Room(InWindow(s.dailyRequests, s.dailyResetsAt, now), s.limits.rpd)
    && Room(InWindow(s.dailyTokens, s.dailyResetsAt, now), s.limits.tpd)
  }

  /** One more request of this many tokens in both windows, and the backoff starts over. */
  ghost predicate Counted(s: State, s': State, tokens: int, now: int) {
    && s'.limits == s.limits && s'.cooldownUntil == s.cooldownUntil && s'.backoffStep == 0
    && s'.minuteRequests == InWindow(s.minuteRequests, s.minuteResetsAt, now) + 1
    && s'.minuteTokens == InWindow(s.minuteTokens, s.minuteResetsAt, now) + tokens
    && s'.dailyRequests == InWindow(s.dailyRequests, s.dailyResetsAt, now) + 1
    && s'.dailyTokens == InWindow(s.dailyTokens, s.dailyResetsAt, now) + tokens
    && s'.minuteResetsAt == (if now >= s.minuteResetsAt then now + 60000 else s.minuteResetsAt)
    && s'.dailyResetsAt == (if now >= s.dailyResetsAt then now + 86400000 else s.dailyResetsAt)
  }

  /** The state after asking, and the answer. */
  function Asked(s: State, now: int): (State, bool) {
    var s1 := MaybeResetWindows(s, now);
    if CoolingDown(s1, now) then (s1, false)
    else (s1.(cooldownUntil := None), UnderLimits(s1))
  }

  /** `None` stands for a token count that is not a finite number. */
  function Used(s: State, tokens: Option<int>, now: int): State {
    var s1 := MaybeResetWindows(s, now);
    var safeTokens := if tokens.Some? then tokens.value else 0;
    s1.(minuteRequests := s1.minuteRequests + 1, dailyRequests := s1.dailyRequests + 1,
        minuteTokens := s1.minuteTokens + safeTokens, dailyTokens := s1.dailyTokens + safeTokens,
        backoffStep := 0)
  }

  function RateLimited(s: State, retryAfterSeconds: Option<int>, now: int): State {
    if retryAfterSeconds.Some? && retryAfterSeconds.value > 0 then
      s.(cooldownUntil := Some(now + retryAfterSeconds.value * 1000), backoffStep := 0)
    else
      var index := if s.backoffStep < |BACKOFF_SECONDS| - 1 then s.backoffStep else |BACKOFF_SECONDS| - 1;
      s.(cooldownUntil := Some(now + BACKOFF_SECONDS[index] * 1000), backoffStep := s.backoffStep + 1)
  }

  function Ticked(s: State, now: int): State {
    var s1 := MaybeResetWindows(s, now);
    if s1.cooldownUntil.Some? && now >= s1.cooldownUntil.value then s1.(cooldownUntil := None) else s1
  }

  /** One entry of the configuration, and when it was read. */
  datatype Config = Config(provider: string, limits: Limits, now: int)

  /** The providers of a new tracker; a nameless entry is passed over. */
  ghost function Configured(configs: seq<Config>): map<string, State> {
    if configs == [] then map[]
    else
      var before, last := Configured(configs[..|configs| - 1]), configs[|configs| - 1];
      if last.provider == "" then before else before[last.provider := Fresh(last.limits, last.now)]
  }

  /** A provider's last entry counts. */
  lemma {:induction false} LastEntryCounts(configs: seq<Config>, i: nat)
    requires i < |configs| && configs[i].provider != ""
    requires forall j :: i < j < |configs| ==> configs[j].provider != configs[i].provider
    ensures configs[i].provider in Configured(configs)
    ensures var s := Configured(configs)[configs[i].provider];
            && s.limits == configs[i].limits
            && s.minuteRequests == s.minuteTokens == s.dailyRequests == s.dailyTokens == 0
            && s.minuteResetsAt == configs[i].now + 60000 && s.dailyResetsAt == configs[i].now + 86400000
            && s.cooldownUntil == None && s.backoffStep == 0
  {
    if i < |configs| - 1 {
      LastEntryCounts(configs[..|configs| - 1], i);
    }
  }

  class FreeQuotaTracker {
    var providers: map<string, State>

    constructor (configs: seq<Config>)
      ensures providers == Configured(configs)
    {
      providers := map[];
      new;
      for i := 0 to |configs|
        invariant providers == Configured(configs[..i])
      {
        assert configs[..i + 1][..i] == configs[..i];
        if configs[i].provider != "" {
          providers := providers[configs[i].provider := Fresh(configs[i].limits, configs[i].now)];
        }
      }
      assert configs[..|configs|] == configs;
    }

    method ResetWindows(provider: string, now: int)
      requires provider in providers
      modifies this
      ensures providers == old(providers)[provider := MaybeResetWindows(old(providers)[provider], now)]
    {
      var state := providers[provider];
      if now >= state.minuteResetsAt {
        state := state.(minuteRequests := 0, minuteTokens := 0, minuteResetsAt := now + MINUTE_MS);
      }
      if now >= state.dailyResetsAt {
        state := state.(dailyRequests := 0, dailyTokens := 0, dailyResetsAt := now + DAY_MS);
      }
      providers := providers[provider := state];
    }

    method CanSubmit(provider: string, now: int) returns (ok: bool)
      modifies this
      ensures provider !in old(providers) ==> !ok && providers == old(providers)
      ensures provider in old(providers) ==>
                var (state, answer) := Asked(old(providers)[provider], now);
                ok == answer && providers == old(providers)[provider := state]
      ensures ok <==> provider in old(providers) && MaySubmit(old(providers)[provider], now)
    {
      if provider !in providers {
        return false;
      }
      ResetWindows(provider, now);
      var state := providers[provider];
      if state.cooldownUntil.Some? && now < state.cooldownUntil.value {
        return false;
      }
      if state.cooldownUntil.Some? && now >= state.cooldownUntil.value {
        state := state.(cooldownUntil := None);
        providers := providers[provider := state];
      }
      if HasReachedLimit(state.minuteRequests, state.limits.rpm) {
        return false;
      }
      if HasReachedLimit(state.minuteTokens, state.limits.tpm) {
        return false;
      }
      if HasReachedLimit(state.dailyRequests, state.limits.rpd) {
        return false;
      }
      if HasReachedLimit(state.dailyTokens, state.limits.tpd) {
        return false;
      }
      return true;
    }

    method RecordUsage(provider: string, tokens: Option<int>, now: int)
      modifies this
      ensures providers == if provider !in old(providers) then old(providers)
                           else old(providers)[provider := Used(old(providers)[provider], tokens, now)]
      ensures provider in old(providers) ==>
                Counted(old(providers)[provider], providers[provider], if tokens.Some? then tokens.value else 0, now)
    {
      if provider !in providers {
        return;
      }
      ResetWindows(provider, now);
      var state := providers[provider];
      var safeTokens := if tokens.Some? then tokens.value else 0;
      state := state.(minuteRequests := state.minuteRequests + 1);
      state := state.(dailyRequests := state.dailyRequests + 1);
      state := state.(minuteTokens := state.minuteTokens + safeTokens);
      state := state.(dailyTokens := state.dailyTokens + safeTokens, backoffStep := 0);
      providers := providers[provider := state];
    }

    method RecordRateLimit(provider: string, retryAfterSeconds: Option<int>, now: int)
      modifies this
      ensures providers == if provider !in old(providers) then old(providers)
                           else old(providers)
                                [provider := RateLimited(old(providers)[provider], retryAfterSeconds, now)]
    {
      if provider !in providers {
        return;
      }
      var state := providers[provider];
      if retryAfterSeconds.Some? && retryAfterSeconds.value > 0 {
        state := state.(cooldownUntil := Some(now + retryAfterSeconds.value * 1000), backoffStep := 0);
      } else {
        var index := if state.backoffStep < |BACKOFF_SECONDS| - 1 then state.backoffStep else |BACKOFF_SECONDS| - 1;
        state := state.(cooldownUntil := Some(now + BACKOFF_SECONDS[index] * 1000));
        state := state.(backoffStep := state.backoffStep + 1);
      }
      providers := providers[provider := state];
    }

    method Tick(now: int)
      modifies this
      ensures providers == map p | p in old(providers) :: Ticked(old(providers)[p], now)
    {
      var todo := providers.Keys;
      while todo != {}
        invariant todo <= providers.Keys == old(providers).Keys
        invariant forall p :: p in old(providers) ==>
                    providers[p] == if p in todo then old(providers)[p] else Ticked(old(providers)[p], now)
        decreases todo
      {
        var provider :| provider in todo;
        ResetWindows(provider, now);
        var state := providers[provider];
        if state.cooldownUntil.Some? && now >= state.cooldownUntil.value {
          providers := providers[provider := state.(cooldownUntil := None)];
        }
        todo := todo - {provider};
      }
    }
  }

  // ----- Runs of one provider -----

  /** Submit asks and, when the answer is yes, records the usage at the same instant; Ask only asks. */
  datatype Event =
    | Ask(now: int)
    | Submit(now: int, tokens: Option<int>)
    | RateLimit(now: int, retryAfterSeconds: Option<int>)
    | Tick(now: int)

  /** The provider, what was admitted so far in its minute and day windows, and the last event. */
  datatype Run = Run(s: State, minutes: seq<Stamp>, days: seq<Stamp>, lastTokens: int, clock: int)

  function Start(limits: Limits, now: int): Run {
    Run(Fresh(limits, now), [], [], 0, now)
  }

  /** Recording the request that was just allowed. */
  function Admitted(r: Run, tokens: Option<int>): Run {
    var s := Used(r.s, tokens, r.clock);
    Run(s, r.minutes + [Stamp(r.clock, s.minuteResetsAt - MINUTE_MS)],
        r.days + [Stamp(r.clock, s.dailyResetsAt - DAY_MS)],
        if tokens.Some? then tokens.value else 0, r.clock)
  }

  function Happen(r: Run, e: Event): Run {
    match e
    case Ask(now) => r.(s := Asked(r.s, now).0, clock := now)
    case RateLimit(now, retry) => r.(s := RateLimited(r.s, retry, now), clock := now)
    case Tick(now) => r.(s := Ticked(r.s, now), clock := now)
    case Submit(now, tokens) =>
      var (s, ok) := Asked(r.s, now);
      var asked := r.(s := s, clock := now);
      if ok then Admitted(asked, tokens) else asked
  }

  function After(r: Run, events: seq<Event>): Run {
    if events == [] then r else Happen(After(r, events[..|events| - 1]), events[|events| - 1])
  }

  /** The events' times do not go back, nor before the start. */
  ghost predicate Timely(start: int, events: seq<Event>) {
    && (forall i :: 0 <= i < |events| ==> start <= events[i].now)
    && (forall i, j :: 0 <= i <= j < |events| ==> events[i].now <= events[j].now)
  }

  /** One kind of window: its counters agree with the log of what was admitted. */
  ghost predicate Counts(log: seq<Stamp>, requests: int, resetsAt: int, limit: Option<int>, len: int, clock: int) {
    && 0 <= requests
    && (forall i :: 0 <= i < |log| ==> log[i].time <= clock && log[i].time < resetsAt)
    && resetsAt - len <= clock
    && CurrentWindow(log, resetsAt - len, requests, len)
    && (limit.Some? && limit.value > 0 ==> Limited(log, limit.value, len) && requests <= limit.value)
  }

  /** A token counter is below its limit before the last admitted request's tokens are added. */
  ghost predicate TokensBelow(tokens: int, requests: int, last: int, limit: Option<int>) {
    requests > 0 && limit.Some? && limit.value > 0 ==> tokens - last < limit.value
  }

  ghost predicate MinutesGood(r: Run) {
    Counts(r.minutes, r.s.minuteRequests, r.s.minuteResetsAt, r.s.limits.rpm, MINUTE_MS, r.clock)
  }

  ghost predicate DaysGood(r: Run) {
    Counts(r.days, r.s.dailyRequests, r.s.dailyResetsAt, r.s.limits.rpd, DAY_MS, r.clock)
  }

  ghost predicate Good(r: Run) {
    && MinutesGood(r) && DaysGood(r)
    && TokensBelow(r.s.minuteTokens, r.s.minuteRequests, r.lastTokens, r.s.limits.tpm)
    && TokensBelow(r.s.dailyTokens, r.s.dailyRequests, r.lastTokens, r.s.limits.tpd)
  }

  /** Letting time pass and resetting a lapsed window keeps its counter in step. */
  lemma Lapse(log: seq<Stamp>, requests: int, resetsAt: int, limit: Option<int>, len: int, clock: int, now: int)
    requires Counts(log, requests, resetsAt, limit, len, clock) && clock <= now && len > 0
    ensures now < resetsAt ==> Counts(log, requests, resetsAt, limit, len, now)
    ensures now >= resetsAt ==> Counts(log, 0, now + len, limit, len, now)
  {
    if now >= resetsAt {
      NewWindow(log, resetsAt - len, requests, len, now);
    }
  }

  lemma ResetKeeps(r: Run, now: int)
    requires Good(r) && r.clock <= now
    ensures Good(r.(s := MaybeResetWindows(r.s, now), clock := now))
    ensures var s := MaybeResetWindows(r.s, now); now < s.minuteResetsAt && now < s.dailyResetsAt
  {
    Lapse(r.minutes, r.s.minuteRequests, r.s.minuteResetsAt, r.s.limits.rpm, MINUTE_MS, r.clock, now);
    Lapse(r.days, r.s.dailyRequests, r.s.dailyResetsAt, r.s.limits.rpd, DAY_MS, r.clock, now);
  }

  lemma AdmitKeeps(log: seq<Stamp>, requests: int, resetsAt: int, limit: Option<int>, len: int, now: int)
    requires Counts(log, requests, resetsAt, limit, len, now) && len > 0 && now < resetsAt
    requires !HasReachedLimit(requests, limit)
    ensures Counts(log + [Stamp(now, resetsAt - len)], requests + 1, resetsAt, limit, len, now)
  {
    if limit.Some? && limit.value > 0 {
      Admit(log, resetsAt - len, requests, len, limit.value, now);
    }
  }

  lemma WaitKeeps(r: Run, now: int)
    requires Good(r) && r.clock <= now
    ensures Good(r.(clock := now))
  {}

  lemma AskedKeeps(r: Run, now: int)
    requires Good(r) && r.clock <= now
    ensures var (s, ok) := Asked(r.s, now);
            && Good(r.(s := s, clock := now))
            && now < s.minuteResetsAt && now < s.dailyResetsAt
            && s.limits == r.s.limits
            && (ok ==> UnderLimits(s))
  {
    ResetKeeps(r, now);
  }

  lemma UsedUnlapsed(s: State, tokens: Option<int>, now: int)
    requires now < s.minuteResetsAt && now < s.dailyResetsAt
    ensures var used := Used(s, tokens, now);
            && used.limits == s.limits
            && used.minuteResetsAt == s.minuteResetsAt && used.dailyResetsAt == s.dailyResetsAt
            && used.minuteRequests == s.minuteRequests + 1 && used.dailyRequests == s.dailyRequests + 1
            && used.minuteTokens - (if tokens.Some? then tokens.value else 0) == s.minuteTokens
            && used.dailyTokens - (if tokens.Some? then tokens.value else 0) == s.dailyTokens
  {}

  /** Recording a request that every limit still allowed, in windows that have not lapsed. */
  lemma UsedKeeps(r: Run, tokens: Option<int>)
    requires Good(r) && UnderLimits(r.s)
    requires r.clock < r.s.minuteResetsAt && r.clock < r.s.dailyResetsAt
    ensures Good(Admitted(r, tokens)) && Admitted(r, tokens).s.limits == r.s.limits
  {
    UsedUnlapsed(r.s, tokens, r.clock);
    MinuteAdmitted(r, tokens);
    DayAdmitted(r, tokens);
    StillBelow(r, tokens);
  }

  lemma MinuteAdmitted(r: Run, tokens: Option<int>)
    requires MinutesGood(r) && !HasReachedLimit(r.s.minuteRequests, r.s.limits.rpm)
    requires r.clock < r.s.minuteResetsAt && r.clock < r.s.dailyResetsAt
    ensures MinutesGood(Admitted(r, tokens))
  {
    AdmitKeeps(r.minutes, r.s.minuteRequests, r.s.minuteResetsAt, r.s.limits.rpm, MINUTE_MS, r.clock);
    assert MinutesGood(Admitted(r, tokens)) by {
      UsedUnlapsed(r.s, tokens, r.clock);
      var next := Admitted(r, tokens);
      assert next.minutes == r.minutes + [Stamp(r.clock, r.s.minuteResetsAt - MINUTE_MS)];
      assert next.s.minuteRequests == r.s.minuteRequests + 1 && next.s.minuteResetsAt == r.s.minuteResetsAt;
    }
  }

  lemma DayAdmitted(r: Run, tokens: Option<int>)
    requires DaysGood(r) && !HasReachedLimit(r.s.dailyRequests, r.s.limits.rpd)
    requires r.clock < r.s.minuteResetsAt && r.clock < r.s.dailyResetsAt
    ensures DaysGood(Admitted(r, tokens))
  {
    AdmitKeeps(r.days, r.s.dailyRequests, r.s.dailyResetsAt, r.s.limits.rpd, DAY_MS, r.clock);
    assert DaysGood(Admitted(r, tokens)) by {
      UsedUnlapsed(r.s, tokens, r.clock);
      var next := Admitted(r, tokens);
      assert next.days == r.days + [Stamp(r.clock, r.s.dailyResetsAt - DAY_MS)];
      assert next.s.dailyRequests == r.s.dailyRequests + 1 && next.s.dailyResetsAt == r.s.dailyResetsAt;
    }
  }

  lemma StillBelow(r: Run, tokens: Option<int>)
    requires UnderLimits(r.s) && r.clock < r.s.minuteResetsAt && r.clock < r.s.dailyResetsAt
    ensures var next := Admitted(r, tokens);
            && TokensBelow(next.s.minuteTokens, next.s.minuteRequests, next.lastTokens, r.s.limits.tpm)
            && TokensBelow(next.s.dailyTokens, next.s.dailyRequests, next.lastTokens, r.s.limits.tpd)
  {
    UsedUnlapsed(r.s, tokens, r.clock);
  }

  lemma SubmitKeeps(r: Run, now: int, tokens: Option<int>)
    requires Good(r) && r.clock <= now
    ensures Good(Happen(r, Submit(now, tokens))) && Happen(r, Submit(now, tokens)).s.limits == r.s.limits
  {
    var (s, ok) := Asked(r.s, now);
    AskedKeeps(r, now);
    if ok {
      UsedKeeps(r.(s := s, clock := now), tokens);
    }
  }

  lemma HappenKeeps(r: Run, e: Event)
    requires Good(r) && r.clock <= e.now
    ensures Good(Happen(r, e)) && Happen(r, e).clock == e.now && Happen(r, e).s.limits == r.s.limits
  {
    match e
    case Ask(now) => AskedKeeps(r, now);
    case RateLimit(now, retry) => WaitKeeps(r, now);
    case Tick(now) => ResetKeeps(r, now);
    case Submit(now, tokens) => SubmitKeeps(r, now, tokens);
  }

  lemma {:induction false} RunKeeps(limits: Limits, start: int, events: seq<Event>)
    requires Timely(start, events)
    ensures var r := After(Start(limits, start), events);
            Good(r) && r.s.limits == limits && r.clock == if events == [] then start else events[|events| - 1].now
  {
    if events != [] {
      var m := |events| - 1;
      RunKeeps(limits, start, events[..m]);
      HappenKeeps(After(Start(limits, start), events[..m]), events[m]);
    }
  }

  /**
    In every run no window admits more than its limit, and no interval of window length, wherever it
    starts, admits more than twice the limit, although windows are only reset when somebody asks.
   */
  lemma QuotaHolds(limits: Limits, start: int, events: seq<Event>, t: int)
    requires Timely(start, events)
    ensures var r := After(Start(limits, start), events);
            && (limits.rpm.Some? && limits.rpm.value > 0 ==>
                  && r.s.minuteRequests <= limits.rpm.value
                  && Limited(r.minutes, limits.rpm.value, 60000)
                  && Within(r.minutes, t, t + 60000) <= 2 * limits.rpm.value)
            && (limits.rpd.Some? && limits.rpd.value > 0 ==>
                  && r.s.dailyRequests <= limits.rpd.value
                  && Limited(r.days, limits.rpd.value, 86400000)
                  && Within(r.days, t, t + 86400000) <= 2 * limits.rpd.value)
  {
    RunKeeps(limits, start, events);
    var r := After(Start(limits, start), events);
    if limits.rpm.Some? && limits.rpm.value > 0 {
      TwiceTheLimit(r.minutes, limits.rpm.value, MINUTE_MS, t);
    }
    if limits.rpd.Some? && limits.rpd.value > 0 {
      TwiceTheLimit(r.days, limits.rpd.value, DAY_MS, t);
    }
  }

  /**
    A request is admitted in every other case: it is refused only while a cooldown runs or a
    positive limit of a window that has not lapsed is reached.
   */
  lemma RefusedOnlyWhenFull(r: Run, now: int, tokens: Option<int>)
    ensures var next := Happen(r, Submit(now, tokens));
            if MaySubmit(r.s, now) then
              && |next.minutes| == |r.minutes| + 1 && next.minutes[|r.minutes|].time == now
              && |next.days| == |r.days| + 1 && next.days[|r.days|].time == now
            else next.minutes == r.minutes && next.days == r.days
  {}

  /** In a run, the counter of a window that has not lapsed is the number of requests admitted in it. */
  lemma CounterIsLog(limits: Limits, start: int, events: seq<Event>)
    requires Timely(start, events)
    ensures var r := After(Start(limits, start), events);
            && r.s.minuteRequests >= 0 && r.s.dailyRequests >= 0
            && CurrentWindow(r.minutes, r.s.minuteResetsAt - 60000, r.s.minuteRequests, 60000)
            && CurrentWindow(r.days, r.s.dailyResetsAt - 86400000, r.s.dailyRequests, 86400000)
  {
    RunKeeps(limits, start, events);
  }

  /** Token counters pass their limit by less than the tokens of the last admitted request. */
  lemma TokensOvershootOnce(limits: Limits, start: int, events: seq<Event>)
    requires Timely(start, events)
    ensures var r := After(Start(limits, start), events);
            && TokensBelow(r.s.minuteTokens, r.s.minuteRequests, r.lastTokens, limits.tpm)
            && TokensBelow(r.s.dailyTokens, r.s.dailyRequests, r.lastTokens, limits.tpd)
  {
    RunKeeps(limits, start, events);
  }

  /** Nothing is admitted before a cooldown ends, unless another rate limit replaces it. */
  lemma {:induction false} CooldownHolds(r: Run, until: int, events: seq<Event>)
    requires r.s.cooldownUntil == Some(until)
    requires forall i :: 0 <= i < |events| ==> events[i].now < until && !events[i].RateLimit?
    ensures After(r, events).minutes == r.minutes && After(r, events).days == r.days
    ensures After(r, events).s.cooldownUntil == Some(until)
  {
    if events != [] {
      CooldownHolds(r, until, events[..|events| - 1]);
    }
  }

  /** How many of the events are rate limits. */
  ghost function RateLimitsIn(events: seq<Event>): nat {
    if events == [] then 0
    else RateLimitsIn(events[..|events| - 1]) + if events[|events| - 1].RateLimit? then 1 else 0
  }

  /**
    Rate limits without a retry time and without a request in between, whatever is asked
    meanwhile, wait 30, 60, 120 and then always 300 seconds.
   */
  lemma {:induction false} BackoffGrows(r: Run, events: seq<Event>)
    requires r.s.backoffStep == 0
    requires forall i :: 0 <= i < |events| ==> !events[i].Submit?
    requires forall i :: 0 <= i < |events| && events[i].RateLimit? ==> events[i].retryAfterSeconds == None
    ensures var n := RateLimitsIn(events);
            && After(r, events).s.backoffStep == n
            && (events != [] && events[|events| - 1].RateLimit? ==>
                  After(r, events).s.cooldownUntil ==
                    Some(events[|events| - 1].now + 1000 *
                      (if n == 1 then 30 else if n == 2 then 60 else if n == 3 then 120 else 300)))
  {
    if events != [] {
      BackoffGrows(r, events[..|events| - 1]);
    }
  }

  // ----- Runs of a tracker -----

  /** An event of one provider; a tick is for all of them. */
  datatype TrackerEvent = For(provider: string, event: Event)

  predicate Concerns(call: TrackerEvent, provider: string) {
    call.event.Tick? || call.provider == provider
  }

  /** What the calls are for one provider. */
  ghost function EventsOf(calls: seq<TrackerEvent>, provider: string): seq<Event> {
    if calls == [] then []
    else
      var last := calls[|calls| - 1];
      EventsOf(calls[..|calls| - 1], provider) + if Concerns(last, provider) then [last.event] else []
  }

  /** A provider before its first event. */
  function Begin(s: State): Run {
    Run(s, [], [], 0, s.minuteResetsAt - MINUTE_MS)
  }

  lemma BeginIsStart(limits: Limits, now: int)
    ensures Begin(Fresh(limits, now)) == Start(limits, now)
  {}

  function Next(s: State, e: Event): State {
    match e
    case Ask(now) => Asked(s, now).0
    case RateLimit(now, retry) => RateLimited(s, retry, now)
    case Tick(now) => Ticked(s, now)
    case Submit(now, tokens) => if Asked(s, now).1 then Used(Asked(s, now).0, tokens, now) else Asked(s, now).0
  }

  /** One more call takes each provider one event further, or leaves it alone. */
  lemma NextCall(r: Run, calls: seq<TrackerEvent>, k: nat, provider: string)
    requires k < |calls|
    ensures After(r, EventsOf(calls[..k + 1], provider)).s ==
            if Concerns(calls[k], provider) then Next(After(r, EventsOf(calls[..k], provider)).s, calls[k].event)
            else After(r, EventsOf(calls[..k], provider)).s
  {
    assert calls[..k + 1][..k] == calls[..k];
    var before := EventsOf(calls[..k], provider);
    assert before + [] == before;
    assert (before + [calls[k].event])[..|before|] == before;
  }

  method Handle(t: FreeQuotaTracker, call: TrackerEvent)
    modifies t
    ensures t.providers.Keys == old(t.providers).Keys
    ensures forall p :: p in t.providers ==>
              t.providers[p] == if Concerns(call, p) then Next(old(t.providers)[p], call.event) else old(t.providers)[p]
  {
    match call.event
    case Ask(now) =>
      var ok := t.CanSubmit(call.provider, now);
    case Submit(now, tokens) =>
      var ok := t.CanSubmit(call.provider, now);
      if ok {
        t.RecordUsage(call.provider, tokens, now);
      }
    case RateLimit(now, retry) =>
      t.RecordRateLimit(call.provider, retry, now);
    case Tick(now) =>
      t.Tick(now);
  }

  /** In a tracker of several providers each one's state is that of its own events. */
  method Drive(configs: seq<Config>, calls: seq<TrackerEvent>) returns (t: FreeQuotaTracker)
    ensures t.providers.Keys == Configured(configs).Keys
    ensures forall p :: p in t.providers ==>
              t.providers[p] == After(Begin(Configured(configs)[p]), EventsOf(calls, p)).s
  {
    t := new FreeQuotaTracker(configs);
    for k := 0 to |calls|
      invariant fresh(t) && t.providers.Keys == Configured(configs).Keys
      invariant forall p :: p in t.providers ==>
        t.providers[p] == After(Begin(Configured(configs)[p]), EventsOf(calls[..k], p)).s
    {
      Handle(t, calls[k]);
      forall p | p in t.providers
        ensures t.providers[p] == After(Begin(Configured(configs)[p]), EventsOf(calls[..k + 1], p)).s
      {
        NextCall(Begin(Configured(configs)[p]), calls, k, p);
      }
    }
    assert calls[..|calls|] == calls;
  }
}
