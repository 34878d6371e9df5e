/**
 * The quota governor in front of the metered extraction service
 * (services/openaiUsageTracker.js): a ledger with a calendar-day window, a
 * session window and a 60-second sliding window, a request check that reports the
 * first limit that trips, and a recorder. The clock is explicit: every
 * operation receives `now` (milliseconds) and `today` (the UTC date token).
 */
module UsageTracker {
  import opened Wrappers

  /**
   * Configured limits: the three request counts are `parseInt(env) || default`,
   * the daily cost `parseFloat(env) || 10.0`.
   */
  datatype Limits = Limits(perMinute: int, perDay: int, perSession: int, costPerDay: real)

  const DefaultLimits := Limits(25, 500, 100, 10.0)

  /** `parseInt(env) || default`: a missing, unparsable or zero setting falls back to the default. */
  function ResolveLimit(parsed: Option<int>, default: int): (r: int)
    ensures parsed.Some? && parsed.value != 0 ==> r == parsed.value
    ensures !(parsed.Some? && parsed.value != 0) ==> r == default
  {
    if parsed.Some? && parsed.value != 0 then parsed.value else default
  }

  const WindowMs := 60000
  const InputCostPer1K: real := 0.00015
  const OutputCostPer1K: real := 0.0006

  type Cost = r: real | r >= 0.0

  /** Estimated cost in USD of one call with the given token counts. */
  function EstimateCost(inputTokens: nat, outputTokens: nat): (c: Cost)
    ensures inputTokens == 0 && outputTokens == 0 ==> c == 0.0
    ensures c >= (inputTokens as real) * InputCostPer1K / 1000.0
  {
    (inputTokens as real / 1000.0) * InputCostPer1K + (outputTokens as real / 1000.0) * OutputCostPer1K
  }

  /** More tokens never cost less. */
  lemma EstimateCostMonotone(in1: nat, out1: nat, in2: nat, out2: nat)
    requires in1 <= in2 && out1 <= out2
    ensures EstimateCost(in1, out1) <= EstimateCost(in2, out2)
  {
  }

  /** The timestamps of the minute window that are younger than 60 seconds at `now`, in order. */
  function Prune(window: seq<int>, now: int): (r: seq<int>)
    ensures |r| <= |window|
    ensures forall k :: 0 <= k < |r| ==> r[k] > now - WindowMs
  {
    if window == [] then []
    else if window[0] > now - WindowMs then [window[0]] + Prune(window[1..], now)
    else Prune(window[1..], now)
  }

  /** Pruning keeps a timestamp exactly when it is strictly greater than `now - 60000`. */
  lemma {:induction false} PruneKeepsExactly(window: seq<int>, now: int, t: int)
    ensures t in Prune(window, now) <==> t in window && t > now - WindowMs
  {
    if window != [] {
      PruneKeepsExactly(window[1..], now, t);
      assert window == [window[0]] + window[1..];
    }
  }

  /** Pruning works element by element, so it keeps the order of what it keeps. */
  lemma {:induction false} PruneConcat(a: seq<int>, b: seq<int>, now: int)
    ensures Prune(a + b, now) == Prune(a, now) + Prune(b, now)
  {
    if a != [] {
      assert (a + b)[1..] == a[1..] + b;
      PruneConcat(a[1..], b, now);
    } else {
      assert a + b == b;
    }
  }

  /** Pruning twice at the same instant changes nothing the second time. */
  lemma {:induction false} PruneIdempotent(window: seq<int>, now: int)
    ensures Prune(Prune(window, now), now) == Prune(window, now)
  {
    if window != [] {
      PruneIdempotent(window[1..], now);
    }
  }

  /** Pruning at an instant and again at a later one is pruning at the later one. */
  lemma {:induction false} PruneLater(window: seq<int>, now: int, later: int)
    requires now <= later
    ensures Prune(Prune(window, now), later) == Prune(window, later)
  {
    if window != [] {
      PruneLater(window[1..], now, later);
      if window[0] > now - WindowMs {
        assert ([window[0]] + Prune(window[1..], now))[1..] == Prune(window[1..], now);
      }
    }
  }

  datatype Daily = Daily(date: string, requests: nat, estimatedCost: Cost)
  datatype Session = Session(requests: nat)
  /** The whole ledger, as written to the usage file. */
  datatype Ledger = Ledger(daily: Daily, session: Session, window: seq<int>)
  /** What `loadUsageData` reads back: the daily record and, when present, the session. */
  datatype StoredUsage = StoredUsage(daily: Daily, session: Option<Session>)

  /** The daily record as seen on `today`: kept on the same date, zeroed on a new one. */
  function RolledOver(d: Daily, today: string): (r: Daily)
    ensures r.date == today
    ensures d.date == today ==> r == d
    ensures d.date != today ==> r.requests == 0 && r.estimatedCost == 0.0
  {
    if d.date == today then d else Daily(today, 0, 0.0)
  }

  datatype WindowStats = WindowStats(requests: int, limit: int, remaining: int)
  datatype Stats = Stats(daily: WindowStats, estimatedCost: real, costLimit: real,
                         session: WindowStats, minute: WindowStats)

  function Report(count: int, limit: int): (w: WindowStats)
    ensures w.requests == count && w.limit == limit
    ensures w.requests + w.remaining == w.limit
  {
    WindowStats(count, limit, limit - count)
  }

  function StatsOf(limits: Limits, daily: Daily, session: Session, window: seq<int>): Stats {
    Stats(Report(daily.requests, limits.perDay), daily.estimatedCost, limits.costPerDay,
          Report(session.requests, limits.perSession), Report(|window|, limits.perMinute))
  }

  /** The four limits, in the order they are checked. */
  datatype Denial = DailyLimit | CostLimit | SessionLimit | MinuteLimit

  datatype Decision = Decision(allowed: bool, reason: Option<Denial>, waitTime: Option<int>, stats: Stats)

  /** `Math.ceil(x / 1000)` on an integer. */
  function CeilDiv1000(x: int): int {
    -((-x) / 1000)
  }

  lemma CeilDiv1000Bounds(x: int)
    ensures 1000 * CeilDiv1000(x) >= x
    ensures x > 0 ==> CeilDiv1000(x) >= 1
  {
    var q, r := (-x) / 1000, (-x) % 1000;
    assert -x == 1000 * q + r && 0 <= r < 1000;
  }

  /** Seconds until the timestamp `oldest` leaves the window. */
  function WaitSeconds(now: int, oldest: int): int {
    CeilDiv1000(WindowMs - (now - oldest))
  }

  /** Whether the given limit is reached on this (rolled-over, pruned) ledger. */
  predicate Trips(k: Denial, limits: Limits, daily: Daily, session: Session, window: seq<int>) {
    match k
    case DailyLimit => daily.requests >= limits.perDay
    case CostLimit => daily.estimatedCost >= limits.costPerDay
    case SessionLimit => session.requests >= limits.perSession
    case MinuteLimit => |window| >= limits.perMinute
  }

  function Rank(k: Denial): nat {
    match k
    case DailyLimit => 0
    case CostLimit => 1
    case SessionLimit => 2
    case MinuteLimit => 3
  }

  /**
   * The chain of limit tests on a ledger that has already been rolled
   * over and pruned: daily requests, daily cost, session, then the minute
   * window, which alone carries a wait time (absent, like JavaScript's NaN,
   * when the window is empty).
   */
  function Evaluate(limits: Limits, daily: Daily, session: Session, window: seq<int>, now: int): (d: Decision)
    ensures d.stats == StatsOf(limits, daily, session, window)
    ensures d.allowed <==> d.reason == None
  {
    var stats := StatsOf(limits, daily, session, window);
    if daily.requests >= limits.perDay then Decision(false, Some(DailyLimit), None, stats)
    else if daily.estimatedCost >= limits.costPerDay then Decision(false, Some(CostLimit), None, stats)
    else if session.requests >= limits.perSession then Decision(false, Some(SessionLimit), None, stats)
    else if |window| >= limits.perMinute then
      Decision(false, Some(MinuteLimit), if |window| > 0 then Some(WaitSeconds(now, window[0])) else None, stats)
    else Decision(true, None, None, stats)
  }

  /** `k` trips and no limit checked before it does. */
  predicate FirstTripped(k: Denial, limits: Limits, daily: Daily, session: Session, window: seq<int>) {
    Trips(k, limits, daily, session, window)
    && forall j: Denial :: Rank(j) < Rank(k) ==> !Trips(j, limits, daily, session, window)
  }

  /** The reported denial is the lowest-ranked limit that trips; the call is allowed when none trips. */
  lemma FirstTrippedLimitWins(limits: Limits, daily: Daily, session: Session, window: seq<int>, now: int, k: Denial)
    ensures Evaluate(limits, daily, session, window, now).reason == Some(k) <==>
      FirstTripped(k, limits, daily, session, window)
  {
    assert Rank(DailyLimit) < Rank(CostLimit) < Rank(SessionLimit) < Rank(MinuteLimit);
  }

  lemma AllowedIffNoLimitTrips(limits: Limits, daily: Daily, session: Session, window: seq<int>, now: int)
    ensures Evaluate(limits, daily, session, window, now).allowed <==>
      forall k: Denial :: !Trips(k, limits, daily, session, window)
  {
    if !Evaluate(limits, daily, session, window, now).allowed {
      var k :| Evaluate(limits, daily, session, window, now).reason == Some(k);
      FirstTrippedLimitWins(limits, daily, session, window, now, k);
    }
  }

  /**
   * Only a per-minute denial carries a wait time, and on a pruned window it
   * is at least one second.
   */
  lemma WaitOnlyForMinuteLimit(limits: Limits, daily: Daily, session: Session, window: seq<int>, now: int)
    requires window == Prune(window, now)
    ensures var d := Evaluate(limits, daily, session, window, now);
      && (d.waitTime.Some? ==> d.reason == Some(MinuteLimit) && d.waitTime.value >= 1)
      && (d.reason == Some(MinuteLimit) && |window| > 0 ==> d.waitTime.Some?)
  {
    if |window| > 0 {
      assert window[0] > now - WindowMs;
      CeilDiv1000Bounds(WindowMs - (now - window[0]));
    }
  }

  /**
   * Sleeping for the reported wait time takes the oldest timestamp out of a
   * pruned window, so the window strictly shrinks.
   */
  lemma {:induction false} WaitEvictsOldest(window: seq<int>, now: int)
    requires window == Prune(window, now) && |window| > 0
    ensures var after := now + 1000 * WaitSeconds(now, window[0]);
      && after > now
      && window[0] !in Prune([window[0]], after)
      && |Prune(window, after)| < |window|
  {
    var w0 := window[0];
    assert w0 > now - WindowMs;
    CeilDiv1000Bounds(WindowMs - (now - w0));
    var after := now + 1000 * WaitSeconds(now, w0);
    assert after - WindowMs >= w0;
    assert Prune([w0], after) == [] by {
      assert [w0][1..] == [];
    }
    assert window == [w0] + window[1..];
    PruneConcat([w0], window[1..], after);
  }

  /**
   * A window that is exactly full no longer trips the per-minute limit after
   * the wait is slept off.
   */
  lemma FullWindowRecoversAfterWait(limits: Limits, window: seq<int>, now: int)
    requires window == Prune(window, now) && |window| == limits.perMinute && |window| > 0
    ensures |Prune(window, now + 1000 * WaitSeconds(now, window[0]))| < limits.perMinute
  {
    WaitEvictsOldest(window, now);
  }

  /**
   * On the first check of a new day the daily request and cost limits no
   * longer trip, whatever yesterday's counters were.
   */
  lemma NewDayClearsDailyLimits(limits: Limits, yesterday: Daily, today: string, session: Session,
                                window: seq<int>, now: int)
    requires yesterday.date != today && limits.perDay > 0 && limits.costPerDay > 0.0
    ensures var d := Evaluate(limits, RolledOver(yesterday, today), session, window, now);
      d.reason != Some(DailyLimit) && d.reason != Some(CostLimit)
  {
  }

  /**
   * The usage file after a check on `today`: rewritten, with the window as
   * it stood before pruning, exactly when the date changed.
   */
  function SavedByCheck(saved: Option<Ledger>, daily: Daily, session: Session, window: seq<int>, today: string)
    : (s: Option<Ledger>)
    ensures daily.date == today ==> s == saved
    ensures daily.date != today ==> s == Some(Ledger(Daily(today, 0, 0.0), session, window))
  {
    if daily.date == today then saved else Some(Ledger(RolledOver(daily, today), session, window))
  }

  /**
   * The clock after `waitIfNeeded` at `now`: later than `now` exactly when
   * the check denies for a full, non-empty minute window, and then late
   * enough for the oldest timestamp to have left it.
   */
  function ResumeAt(limits: Limits, daily: Daily, session: Session, window: seq<int>, now: int, today: string)
    : (after: int)
    ensures var pruned := Prune(window, now);
      && after >= now
      && (after > now <==>
            Evaluate(limits, RolledOver(daily, today), session, pruned, now).reason == Some(MinuteLimit) && |pruned| > 0)
      && (after > now ==> |Prune(window, after)| < |pruned|)
  {
    var pruned := Prune(window, now);
    var d := Evaluate(limits, RolledOver(daily, today), session, pruned, now);
    PruneIdempotent(window, now);
    WaitOnlyForMinuteLimit(limits, RolledOver(daily, today), session, pruned, now);
    if d.waitTime.Some? then
      WaitEvictsOldest(pruned, now);
      PruneLater(window, now, now + 1000 * d.waitTime.value);
      now + 1000 * d.waitTime.value
    else now
  }

  /** The ledger snapshot returned by `trackRequest`. */
  datatype TrackResult = TrackResult(daily: Daily, session: Session, minuteRequests: nat)

  /** What `getUsageStats` reports. */
  datatype UsageStats = UsageStats(stats: Stats, date: string, limits: Limits)

  /** The module-level `usageData` and the usage file it is saved to. */
  class Tracker {
    const limits: Limits
    var daily: Daily
    var session: Session
    var window: seq<int>
    /** The contents of the usage file, once something has been saved. */
    var saved: Option<Ledger>

    function Current(): Ledger
      reads this
    {
      Ledger(daily, session, window)
    }

    /** The initial `usageData`: today's empty daily record, an empty session and window. */
    constructor (limits: Limits, today: string)
      ensures this.limits == limits
      ensures daily == Daily(today, 0, 0.0) && session == Session(0) && window == [] && saved == None
    {
      this.limits := limits;
      daily := Daily(today, 0, 0.0);
      session := Session(0);
      window := [];
      saved := None;
    }

    /**
     * `loadUsageData`: a stored daily record is kept only when it is from
     * today, otherwise the daily record is zeroed; the stored session, when
     * present, is carried over. The stored minute window is not read.
     */
    method LoadUsageData(file: Option<StoredUsage>, today: string)
      modifies this
      ensures window == old(window) && saved == old(saved)
      ensures file.None? ==> daily == old(daily) && session == old(session)
      ensures file.Some? ==> daily == RolledOver(file.value.daily, today)
      ensures file.Some? ==> session == if file.value.session.Some? then file.value.session.value else old(session)
    {
      if file.Some? {
        var data := file.value;
        if data.daily.date == today {
          daily := data.daily;
        } else {
          daily := Daily(today, 0, 0.0);
        }
        if data.session.Some? {
          session := data.session.value;
        }
      }
    }

    /** `cleanMinuteWindow`: drop the timestamps 60 seconds old or older. */
    method CleanMinuteWindow(now: int)
      modifies this`window
      ensures window == Prune(old(window), now)
    {
      var requests := window;
      var kept: seq<int> := [];
      var i := 0;
      while i < |requests|
        invariant 0 <= i <= |requests|
        invariant kept == Prune(requests[..i], now)
      {
        PruneConcat(requests[..i], [requests[i]], now);
        assert requests[..i + 1] == requests[..i] + [requests[i]];
        assert [requests[i]][1..] == [];
        if requests[i] > now - WindowMs {
          kept := kept + [requests[i]];
        }
        i := i + 1;
      }
      assert requests[..i] == requests;
      window := kept;
    }

    method SaveUsageData()
      modifies this`saved
      ensures saved == Some(Current())
    {
      saved := Some(Current());
    }

    /**
     * `trackRequest`: roll the daily record over to `today`, prune, append
     * `now`, count one more request in the day and the session, add the
     * estimated cost, and save. No limit is checked here.
     */
    method TrackRequest(inputTokens: nat, outputTokens: nat, now: int, today: string) returns (usage: TrackResult)
      modifies this
      ensures var d := RolledOver(old(daily), today);
        daily == Daily(today, d.requests + 1, d.estimatedCost + EstimateCost(inputTokens, outputTokens))
      ensures session == Session(old(session).requests + 1)
      ensures window == Prune(old(window), now) + [now]
      ensures saved == Some(Current())
      ensures usage == TrackResult(daily, session, |window|)
    {
      if daily.date != today {
        daily := Daily(today, 0, 0.0);
      }
      CleanMinuteWindow(now);
      window := window + [now];
      daily := daily.(requests := daily.requests + 1);
      session := session.(requests := session.requests + 1);
      var cost := EstimateCost(inputTokens, outputTokens);
      daily := daily.(estimatedCost := daily.estimatedCost + cost);
      SaveUsageData();
      usage := TrackResult(daily, session, |window|);
    }

    /**
     * `canMakeRequest`: roll over (saving when the date changed), prune,
     * then report the first limit that trips.
     */
    method CanMakeRequest(now: int, today: string) returns (d: Decision)
      modifies this
      ensures daily == RolledOver(old(daily), today) && session == old(session)
      ensures window == Prune(old(window), now)
      ensures saved == SavedByCheck(old(saved), old(daily), old(session), old(window), today)
      ensures d == Evaluate(limits, daily, session, window, now)
    {
      if daily.date != today {
        daily := Daily(today, 0, 0.0);
        SaveUsageData();
      }
      CleanMinuteWindow(now);
      var stats := StatsOf(limits, daily, session, window);
      if daily.requests >= limits.perDay {
        return Decision(false, Some(DailyLimit), None, stats);
      }
      if daily.estimatedCost >= limits.costPerDay {
        return Decision(false, Some(CostLimit), None, stats);
      }
      if session.requests >= limits.perSession {
        return Decision(false, Some(SessionLimit), None, stats);
      }
      if |window| >= limits.perMinute {
        var oldest: Option<int> := if |window| > 0 then Some(window[0]) else None;
        var waitTime := if oldest.Some? then Some(WaitSeconds(now, oldest.value)) else None;
        return Decision(false, Some(MinuteLimit), waitTime, stats);
      }
      return Decision(true, None, None, stats);
    }

    /** `getUsageStats`: roll over (without saving), prune, and report every window against its limit. */
    method GetUsageStats(now: int, today: string) returns (s: UsageStats)
      modifies this`daily, this`window
      ensures daily == RolledOver(old(daily), today) && window == Prune(old(window), now)
      ensures s.date == today && s.limits == limits
      ensures s.stats == StatsOf(limits, daily, session, window)
      ensures s.stats.daily.remaining == limits.perDay - daily.requests
      ensures s.stats.session.remaining == limits.perSession - session.requests
      ensures s.stats.minute.remaining == limits.perMinute - |window|
    {
      if daily.date != today {
        daily := Daily(today, 0, 0.0);
      }
      CleanMinuteWindow(now);
      s := UsageStats(StatsOf(limits, daily, session, window), daily.date, limits);
    }

    /** `resetSession`: the session count restarts at zero and the ledger is saved. */
    method ResetSession()
      modifies this
      ensures session == Session(0) && daily == old(daily) && window == old(window)
      ensures saved == Some(Current())
    {
      session := Session(0);
      SaveUsageData();
    }

    /**
     * `waitIfNeeded`: check, and only when the check is denied with a wait
     * time sleep that many seconds (the returned clock) and prune again.
     */
    method WaitIfNeeded(now: int, today: string) returns (after: int)
      modifies this
      ensures daily == RolledOver(old(daily), today) && session == old(session)
      ensures after == ResumeAt(limits, old(daily), old(session), old(window), now, today)
      ensures window == Prune(old(window), after)
      ensures saved == SavedByCheck(old(saved), old(daily), old(session), old(window), today)
    {
      var check := CanMakeRequest(now, today);
      ghost var pruned := window;
      PruneIdempotent(old(window), now);
      WaitOnlyForMinuteLimit(limits, daily, session, pruned, now);
      after := now;
      if !check.allowed && check.waitTime.Some? {
        after := now + check.waitTime.value * 1000;
        CleanMinuteWindow(after);
        PruneLater(old(window), now, after);
      }
    }
  }
}
