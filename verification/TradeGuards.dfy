/**
 The daily circuit breakers: counters kept for one New York trading day, rolled over when the day changes, and the
 verdicts read from them. Amounts are integer cents; a moment carries its trading day and its time in seconds.
 */
module TradeGuards {
  import opened Common

  datatype Moment = Moment(day: int, at: int)

  /** Why a breaker trips; the first two causes are reported under the same reason code. */
  datatype Cause = DailyLoss | ConsecutiveLosses | MaxTrades

  datatype Trip = Trip(cause: Cause, at: int)

  datatype DayCount = DayCount(day: int, count: int)

  datatype GuardSettings = GuardSettings(
    breakersEnabled: Option<bool>,
    maxDailyLoss: Option<int>,
    maxDailyLossR: Option<real>,
    maxRiskPerTrade: Option<int>,
    maxConsecutiveLosses: Option<int>,
    maxTradesPerDay: Option<int>,
    cooldownMinutes: Option<int>,
    pdtEnabled: Option<bool>,
    maxDayTrades: Option<int>)

  /** The persisted counters; `tradingDay` is absent until something was first recorded. */
  datatype TrackerState = TrackerState(
    tradingDay: Option<int>,
    tradesOpened: int,
    consecutiveLosses: int,
    realizedPnl: int,
    wins: int,
    losses: int,
    lastLossExit: map<string, int>,
    tripped: Option<Trip>,
    recent: seq<DayCount>)

  const EMPTY_STATE := TrackerState(None, 0, 0, 0, 0, 0, map[], None, [])

  datatype GuardEvent =
    | EntrySubmitted(now: Moment, symbol: string)
    | PositionClosed(now: Moment, symbol: string, pnl: int)

  // -------------------------------------------------------------- settings

  /** A setting read as "value or default": absent and zero both mean the default. */
  function Setting(value: Option<int>, default: int): int {
    if value.None? || value.value == 0 then default else value.value
  }

  function RealAbs(x: real): real {
    if x < 0.0 then -x else x
  }

  predicate BreakersEnabled(g: GuardSettings) {
    g.breakersEnabled != Some(false)
  }

  /** The loss limit in cents: explicit, or a multiple of the risk unit. An explicit zero switches the limit off. */
  function MaxDailyLoss(g: GuardSettings): (limit: real)
    ensures limit >= 0.0
    ensures limit == 0.0 <==> g.maxDailyLoss == Some(0)
  {
    if g.maxDailyLoss.Some? then Abs(g.maxDailyLoss.value) as real
    else
      var multiple := if g.maxDailyLossR.None? || g.maxDailyLossR.value == 0.0 then 3.0 else g.maxDailyLossR.value;
      RealAbs(multiple * (Abs(Setting(g.maxRiskPerTrade, 1500)) as real))
  }

  /** The threshold that the day's counters have reached, if any, in the order the breakers are consulted. */
  function ThresholdReached(g: GuardSettings, realized: int, streak: int, trades: int): Option<Cause> {
    if MaxDailyLoss(g) > 0.0 && realized as real <= -MaxDailyLoss(g) then Some(DailyLoss)
    else if 0 < Setting(g.maxConsecutiveLosses, 3) <= streak then Some(ConsecutiveLosses)
    else if 0 < Setting(g.maxTradesPerDay, 5) <= trades then Some(MaxTrades)
    else None
  }

  // ----------------------------------------------------------------- state

  /** The last `n` elements. */
  function Last<T>(s: seq<T>, n: nat): seq<T> {
    if |s| <= n then s else s[|s| - n..]
  }

  /** The state as of a day: kept on the same day, otherwise fresh counters and the finished day in the history. */
  function Rolled(s: TrackerState, day: int): TrackerState {
    if s.tradingDay == Some(day) then s
    else
      var recent := if s.tradingDay.Some? && s.tradesOpened > 0
                    then s.recent + [DayCount(s.tradingDay.value, s.tradesOpened)]
                    else s.recent;
      EMPTY_STATE.(tradingDay := Some(day), recent := Last(recent, 5))
  }

  function MaybeTrip(g: GuardSettings, s: TrackerState, at: int): TrackerState {
    if s.tripped.Some? || !BreakersEnabled(g) then s
    else
      var cause := ThresholdReached(g, s.realizedPnl, s.consecutiveLosses, s.tradesOpened);
      if cause.Some? then s.(tripped := Some(Trip(cause.value, at))) else s
  }

  /** The counters after one record, before the breakers are consulted. */
  function Counted(s: TrackerState, e: GuardEvent): TrackerState {
    match e
    case EntrySubmitted(now, _) => s.(tradesOpened := s.tradesOpened + 1)
    case PositionClosed(now, symbol, pnl) =>
      if pnl < 0 then
        s.(realizedPnl := s.realizedPnl + pnl, losses := s.losses + 1, consecutiveLosses := s.consecutiveLosses + 1,
           lastLossExit := s.lastLossExit[Upper(symbol) := now.at])
      else s.(realizedPnl := s.realizedPnl + pnl, wins := s.wins + 1, consecutiveLosses := 0)
  }

  function Record(g: GuardSettings, s: TrackerState, e: GuardEvent): TrackerState {
    MaybeTrip(g, Counted(Rolled(s, e.now.day), e), e.now.at)
  }

  /** The stored state after a history of records, from an empty store. */
  function StateAfter(g: GuardSettings, h: seq<GuardEvent>): TrackerState {
    if h == [] then EMPTY_STATE else Record(g, StateAfter(g, h[..|h| - 1]), h[|h| - 1])
  }

  // -------------------------------------------------------------- verdicts

  function BreakerVerdict(g: GuardSettings, stored: TrackerState, now: Moment): Option<Trip> {
    if !BreakersEnabled(g) then None else MaybeTrip(g, Rolled(stored, now.day), now.at).tripped
  }

  function SumCounts(s: seq<DayCount>): int {
    if s == [] then 0 else SumCounts(s[..|s| - 1]) + s[|s| - 1].count
  }

  function DayTradesUsed(stored: TrackerState, day: int): int {
    var s := Rolled(stored, day);
    s.tradesOpened + SumCounts(Last(s.recent, 4))
  }

  /** Whether the pattern-day-trader rule refuses an entry. */
  predicate PdtBlocks(g: GuardSettings, stored: TrackerState, day: int) {
    g.pdtEnabled == Some(true) && DayTradesUsed(stored, day) >= Setting(g.maxDayTrades, 3)
  }

  predicate CooldownBlocks(g: GuardSettings, stored: TrackerState, symbol: string, now: Moment) {
    var minutes := g.cooldownMinutes.GetOr(30);
    var exits := Rolled(stored, now.day).lastLossExit;
    BreakersEnabled(g) && minutes > 0 && Upper(symbol) in exits && minutes * 60 - (now.at - exits[Upper(symbol)]) > 0
  }

  // --------------------------------------------------------------- objects

  /** The bot-state entry under which the counters are persisted. */
  class BotState {
    var tracker: TrackerState

    constructor ()
      ensures tracker == EMPTY_STATE
    {
      tracker := EMPTY_STATE;
    }
  }

  class CircuitBreakerTracker {
    const repository: BotState
    const settings: GuardSettings

    constructor (repository: BotState, settings: GuardSettings)
      ensures this.repository == repository && this.settings == settings
    {
      this.repository, this.settings := repository, settings;
    }

    method State(now: Moment) returns (s: TrackerState)
      ensures s == Rolled(repository.tracker, now.day)
    {
      var stored := repository.tracker;
      if stored.tradingDay == Some(now.day) {
        return stored;
      }
      var recent := stored.recent;
      if stored.tradingDay.Some? && stored.tradesOpened > 0 {
        recent := recent + [DayCount(stored.tradingDay.value, stored.tradesOpened)];
      }
      if |recent| > 5 {
        recent := recent[|recent| - 5..];
      }
      s := TrackerState(Some(now.day), 0, 0, 0, 0, 0, map[], None, recent);
    }

    method RecordEntrySubmitted(symbol: string, now: Moment)
      modifies repository
      ensures repository.tracker == Record(settings, old(repository.tracker), EntrySubmitted(now, symbol))
    {
      var state := State(now);
      state := state.(tradesOpened := state.tradesOpened + 1);
      repository.tracker := MaybeTrip(settings, state, now.at);
    }

    method RecordPositionClosed(symbol: string, pnl: int, now: Moment)
      modifies repository
      ensures repository.tracker == Record(settings, old(repository.tracker), PositionClosed(now, symbol, pnl))
    {
      var state := State(now);
      state := state.(realizedPnl := state.realizedPnl + pnl);
      if pnl < 0 {
        state := state.(losses := state.losses + 1, consecutiveLosses := state.consecutiveLosses + 1);
        state := state.(lastLossExit := state.lastLossExit[Upper(symbol) := now.at]);
      } else {
        state := state.(wins := state.wins + 1, consecutiveLosses := 0);
      }
      repository.tracker := MaybeTrip(settings, state, now.at);
    }

    /** Answers from the stored counters without saving anything. */
    method Breaker(now: Moment) returns (verdict: Option<Trip>)
      ensures verdict == BreakerVerdict(settings, repository.tracker, now)
    {
      if !BreakersEnabled(settings) {
        return None;
      }
      var state := State(now);
      state := MaybeTrip(settings, state, now.at);
      verdict := state.tripped;
    }

    method Pdt(now: Moment) returns (blocked: bool)
      ensures blocked == PdtBlocks(settings, repository.tracker, now.day)
    {
      if settings.pdtEnabled != Some(true) {
        return false;
      }
      var state := State(now);
      var window := Last(state.recent, 4);
      var used := state.tradesOpened;
      var i := 0;
      while i < |window|
        invariant 0 <= i <= |window|
        invariant used == state.tradesOpened + SumCounts(window[..i])
      {
        assert window[..i + 1][..i] == window[..i];
        used := used + window[i].count;
        i := i + 1;
      }
      assert window[..i] == window;
      blocked := used >= Setting(settings.maxDayTrades, 3);
    }

    method Cooldown(symbol: string, now: Moment) returns (blocked: bool)
      ensures blocked == CooldownBlocks(settings, repository.tracker, symbol, now)
    {
      if !BreakersEnabled(settings) {
        return false;
      }
      var minutes := settings.cooldownMinutes.GetOr(30);
      if minutes <= 0 {
        return false;
      }
      var state := State(now);
      if Upper(symbol) !in state.lastLossExit {
        return false;
      }
      var remaining := minutes * 60 - (now.at - state.lastLossExit[Upper(symbol)]);
      blocked := remaining > 0;
    }
  }
}
