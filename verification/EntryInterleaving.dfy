/**
 Entry executions that overlap: each passes the guards, waits for its order to be submitted, and only then is recorded.
 A semaphore bounds how many are under way. The gate reads counters that executions still under way have not yet
 reached, so the daily cap can be overrun, by exactly one less than the number of executions under way.
 */
module EntryInterleaving {
  import opened Common
  import opened TradeGuards
  import opened PdtWindow

  datatype Config = Config(guardsEnabled: bool, guards: GuardSettings, concurrency: nat)

  /** `records` is everything recorded so far; `clock` is the latest trading day seen. */
  datatype System = System(tracker: TrackerState, inFlight: seq<string>, clock: int, records: seq<GuardEvent>)

  /**
   The steps between two awaits. `clear` stands for every gate of the executor other than breakers, day-trade limit
   and cooldown; `placed` tells whether the awaited submission returned normally.
   */
  datatype Step =
    | Begin(symbol: string, now: Moment, clear: bool)
    | Complete(task: nat, now: Moment, placed: bool)
    | Close(symbol: string, now: Moment, pnl: int)

  /** How many polls may run at once, from the configured number and the number of symbols. */
  function BoundedConcurrency(configured: int, symbols: int): (c: nat)
    ensures c >= 1 && (symbols > 0 ==> c <= symbols) && (configured >= 1 ==> c <= configured)
    ensures configured >= 1 && symbols >= 1 ==> c == configured || c == symbols
  {
    if symbols <= 0 then 1 else Max(1, Min(if configured == 0 then 1 else configured, symbols))
  }

  predicate GuardsPass(cfg: Config, stored: TrackerState, symbol: string, now: Moment) {
    !cfg.guardsEnabled
    || (&& BreakerVerdict(cfg.guards, stored, now).None?
        && !PdtBlocks(cfg.guards, stored, now.day)
        && !CooldownBlocks(cfg.guards, stored, symbol, now))
  }

  function Recorded(cfg: Config, s: System, e: GuardEvent): System {
    s.(tracker := Record(cfg.guards, s.tracker, e), records := s.records + [e], clock := e.now.day)
  }

  /** A step can be taken when the clock does not go back, a slot is free, and the completed execution is under way. */
  predicate Enabled(cfg: Config, s: System, step: Step) {
    && s.clock <= step.now.day
    && (step.Begin? ==> |s.inFlight| < cfg.concurrency)
    && (step.Complete? ==> step.task < |s.inFlight|)
  }

  function Take(cfg: Config, s: System, step: Step): System
    requires Enabled(cfg, s, step)
  {
    match step
    case Begin(symbol, now, clear) =>
      var s' := s.(clock := now.day);
      if clear && GuardsPass(cfg, s.tracker, symbol, now) then s'.(inFlight := s.inFlight + [symbol]) else s'
    case Complete(task, now, placed) =>
      var s' := s.(clock := now.day, inFlight := s.inFlight[..task] + s.inFlight[task + 1..]);
      if placed then Recorded(cfg, s', EntrySubmitted(now, s.inFlight[task])) else s'
    case Close(symbol, now, pnl) => Recorded(cfg, s, PositionClosed(now, symbol, pnl))
  }

  ghost predicate CanRun(cfg: Config, s: System, steps: seq<Step>)
    decreases |steps|
  {
    steps == [] || (Enabled(cfg, s, steps[0]) && CanRun(cfg, Take(cfg, s, steps[0]), steps[1..]))
  }

  ghost function Run(cfg: Config, s: System, steps: seq<Step>): System
    requires CanRun(cfg, s, steps)
    decreases |steps|
  {
    if steps == [] then s else Run(cfg, Take(cfg, s, steps[0]), steps[1..])
  }

  function Idle(day: int): System {
    System(EMPTY_STATE, [], day, [])
  }

  // ------------------------------------------------------------- invariant

  /** The tracker is what the records make of it, and the records are in day order, none after the clock. */
  ghost predicate Faithful(cfg: Config, s: System) {
    s.tracker == StateAfter(cfg.guards, s.records) && Ordered(s.records) && UpTo(s.records, s.clock)
  }

  lemma RecordedFaithful(cfg: Config, s: System, e: GuardEvent)
    requires Faithful(cfg, s) && s.clock <= e.now.day
    ensures Faithful(cfg, Recorded(cfg, s, e))
  {
    hide Record;
    assert (s.records + [e])[..|s.records|] == s.records;
    OrderedSnoc(s.records, e, s.clock);
  }

  lemma OrderedSnoc(h: seq<GuardEvent>, e: GuardEvent, clock: int)
    requires Ordered(h) && UpTo(h, clock) && clock <= e.now.day
    ensures Ordered(h + [e]) && UpTo(h + [e], e.now.day)
  {
  }

  lemma TakeFaithful(cfg: Config, s: System, step: Step)
    requires Faithful(cfg, s) && Enabled(cfg, s, step)
    ensures Faithful(cfg, Take(cfg, s, step))
  {
    if step.Complete? && step.placed {
      RecordedFaithful(cfg, s.(clock := step.now.day, inFlight := s.inFlight[..step.task] + s.inFlight[step.task + 1..]),
                       EntrySubmitted(step.now, s.inFlight[step.task]));
    } else if step.Close? {
      RecordedFaithful(cfg, s, PositionClosed(step.now, step.symbol, step.pnl));
    }
  }

  /** The daily cap: entries of the clock's day plus executions under way. */
  ghost predicate CapKept(cfg: Config, s: System) {
    |s.inFlight| <= cfg.concurrency
    && EntriesIn(s.records, s.clock, s.clock) + |s.inFlight| < Setting(cfg.guards.maxTradesPerDay, 5) + cfg.concurrency
  }

  lemma EntriesSnoc(h: seq<GuardEvent>, e: GuardEvent, lo: int, hi: int)
    ensures EntriesIn(h + [e], lo, hi)
            == EntriesIn(h, lo, hi) + (if e.EntrySubmitted? && lo <= e.now.day <= hi then 1 else 0)
  {
    assert (h + [e])[..|h|] == h;
  }

  /** A later day starts from zero. */
  lemma DayEntries(h: seq<GuardEvent>, clock: int, day: int)
    requires UpTo(h, clock) && clock <= day
    ensures EntriesIn(h, day, day) <= EntriesIn(h, clock, clock)
  {
    if clock < day {
      NoneLater(h, day, day);
    }
  }

  /** A passed gate leaves room for the entry. */
  lemma GateLeavesRoom(cfg: Config, s: System, now: Moment)
    requires Faithful(cfg, s) && s.clock <= now.day && BreakersEnabled(cfg.guards)
    requires Setting(cfg.guards.maxTradesPerDay, 5) > 0
    requires BreakerVerdict(cfg.guards, s.tracker, now).None?
    ensures EntriesIn(s.records, now.day, now.day) < Setting(cfg.guards.maxTradesPerDay, 5)
  {
    RolledIsHistory(cfg.guards, s.records, now.day);
  }

  lemma TakeKeepsCap(cfg: Config, s: System, step: Step)
    requires cfg.guardsEnabled && BreakersEnabled(cfg.guards) && Setting(cfg.guards.maxTradesPerDay, 5) > 0
    requires Faithful(cfg, s) && CapKept(cfg, s) && Enabled(cfg, s, step)
    ensures CapKept(cfg, Take(cfg, s, step))
  {
    var day := step.now.day;
    DayEntries(s.records, s.clock, day);
    match step {
      case Begin(symbol, now, clear) =>
        if clear && GuardsPass(cfg, s.tracker, symbol, now) {
          GateLeavesRoom(cfg, s, now);
        }
      case Complete(task, now, placed) =>
        EntriesSnoc(s.records, EntrySubmitted(now, s.inFlight[task]), day, day);
      case Close(symbol, now, pnl) =>
        EntriesSnoc(s.records, PositionClosed(now, symbol, pnl), day, day);
    }
  }

  /** Entries of the days before the clock are settled: a step leaves their number as it is. */
  lemma TakeKeepsPast(cfg: Config, s: System, step: Step, day: int)
    requires Enabled(cfg, s, step) && day < step.now.day
    ensures EntriesIn(Take(cfg, s, step).records, day, day) == EntriesIn(s.records, day, day)
  {
    match step {
      case Begin(_, _, _) =>
      case Complete(task, now, _) => EntriesSnoc(s.records, EntrySubmitted(now, s.inFlight[task]), day, day);
      case Close(symbol, now, pnl) => EntriesSnoc(s.records, PositionClosed(now, symbol, pnl), day, day);
    }
  }

  ghost predicate DaysWithinCap(cfg: Config, s: System) {
    forall day :: EntriesIn(s.records, day, day) < Setting(cfg.guards.maxTradesPerDay, 5) + cfg.concurrency
  }

  lemma {:induction false} CapInduction(cfg: Config, s: System, steps: seq<Step>)
    requires cfg.guardsEnabled && BreakersEnabled(cfg.guards) && Setting(cfg.guards.maxTradesPerDay, 5) > 0
    requires CanRun(cfg, s, steps) && Faithful(cfg, s) && CapKept(cfg, s) && DaysWithinCap(cfg, s)
    ensures DaysWithinCap(cfg, Run(cfg, s, steps))
    decreases |steps|
  {
    if steps != [] {
      var s' := Take(cfg, s, steps[0]);
      TakeFaithful(cfg, s, steps[0]);
      TakeKeepsCap(cfg, s, steps[0]);
      forall day ensures EntriesIn(s'.records, day, day) < Setting(cfg.guards.maxTradesPerDay, 5) + cfg.concurrency {
        if day < s'.clock {
          TakeKeepsPast(cfg, s, steps[0], day);
        } else {
          DayEntries(s'.records, s'.clock, day);
        }
      }
      CapInduction(cfg, s', steps[1..]);
    }
  }

  /**
   The daily cap under interleaving: with at most `concurrency` executions under way, no day ever records more than
   cap + concurrency - 1 entries, also when the day changes while executions are under way.
   */
  lemma DailyCapUnderInterleaving(cfg: Config, start: int, steps: seq<Step>, day: int)
    requires cfg.guardsEnabled && BreakersEnabled(cfg.guards) && cfg.concurrency > 0
    requires Setting(cfg.guards.maxTradesPerDay, 5) > 0
    requires CanRun(cfg, Idle(start), steps)
    ensures EntriesIn(Run(cfg, Idle(start), steps).records, day, day)
            <= Setting(cfg.guards.maxTradesPerDay, 5) + cfg.concurrency - 1
  {
    CapInduction(cfg, Idle(start), steps);
  }

  // -------------------------------------------- the day-trade limit likewise

  /** What the gate counts on the clock's day, plus executions under way. */
  ghost predicate WindowKept(cfg: Config, s: System) {
    && |s.inFlight| <= cfg.concurrency
    && DayTradesUsed(s.tracker, s.clock) + |s.inFlight| < Setting(cfg.guards.maxDayTrades, 3) + cfg.concurrency
  }

  lemma {:induction false} CountsNonNegative(h: seq<GuardEvent>, t: int)
    requires Ordered(h)
    ensures forall i :: 0 <= i < |Before(h, t)| ==> Before(h, t)[i].count > 0
  {
    BeforeIncreasing(h, t);
    forall i | 0 <= i < |Before(h, t)| ensures Before(h, t)[i].count > 0 { Positive(Before(h, t), i); }
  }

  lemma ShorterSum(p: seq<DayCount>, n: nat)
    requires forall i :: 0 <= i < |p| ==> p[i].count > 0
    ensures SumCounts(Last(p, n)) <= SumCounts(Last(p, n + 1))
    decreases n
  {
    if n == 0 {
      SumNonNegative(Last(p, 1));
    } else if p != [] {
      LastSnoc(p, n);
      LastSnoc(p, n + 1);
      ShorterSum(p[..|p| - 1], n - 1);
    }
  }

  /** A change of day moves the window forward: what the gate counts can only drop. */
  lemma UsedDropsWithDays(g: GuardSettings, h: seq<GuardEvent>, clock: int, day: int)
    requires Ordered(h) && UpTo(h, clock) && clock <= day
    ensures DayTradesUsed(StateAfter(g, h), day) <= DayTradesUsed(StateAfter(g, h), clock)
  {
    if clock < day {
      UsedIsHistory(g, h, clock);
      UsedIsHistory(g, h, day);
      BeforeSplit(h, clock, day);
      NoneLater(h, day, day);
      CountsNonNegative(h, clock);
      hide Before, EntriesIn, StateAfter, Ordered, UpTo, DayTradesUsed;
      FinishDayMovesWindow(Before(h, clock), clock, EntriesIn(h, clock, clock));
    }
  }

  lemma FinishDayMovesWindow(p: seq<DayCount>, day: int, count: nat)
    requires forall i :: 0 <= i < |p| ==> p[i].count > 0
    ensures SumCounts(Last(FinishDay(p, day, count), 4)) <= count + SumCounts(Last(p, 4))
  {
    if count > 0 {
      ShorterSum(p, 3);
      LastSnoc(p + [DayCount(day, count)], 4);
      assert (p + [DayCount(day, count)])[..|p|] == p;
    }
  }

  lemma RecordCounts(g: GuardSettings, s: TrackerState, e: GuardEvent)
    ensures DayTradesUsed(Record(g, s, e), e.now.day)
            == DayTradesUsed(s, e.now.day) + (if e.EntrySubmitted? then 1 else 0)
  {
    RecordKeeps(g, s, e);
  }

  lemma TakeKeepsWindow(cfg: Config, s: System, step: Step)
    requires cfg.guardsEnabled && cfg.guards.pdtEnabled == Some(true)
    requires Faithful(cfg, s) && WindowKept(cfg, s) && Enabled(cfg, s, step)
    ensures WindowKept(cfg, Take(cfg, s, step))
  {
    UsedDropsWithDays(cfg.guards, s.records, s.clock, step.now.day);
    hide DayTradesUsed, Record, Faithful;
    match step {
      case Begin(_, _, _) =>
      case Complete(task, now, _) => RecordCounts(cfg.guards, s.tracker, EntrySubmitted(now, s.inFlight[task]));
      case Close(symbol, now, pnl) => RecordCounts(cfg.guards, s.tracker, PositionClosed(now, symbol, pnl));
    }
  }

  /** Windows of at most five active days, over the records so far. */
  ghost predicate WindowsWithinLimit(cfg: Config, h: seq<GuardEvent>) {
    forall lo, hi :: |ActiveDays(h, lo, hi)| <= 5
                     ==> EntriesIn(h, lo, hi) < Setting(cfg.guards.maxDayTrades, 3) + cfg.concurrency
  }

  lemma RecordKeepsWindow(cfg: Config, s: System, e: GuardEvent, lo: int, hi: int)
    requires Faithful(cfg, Recorded(cfg, s, e)) && s.tracker == StateAfter(cfg.guards, s.records)
    requires WindowKept(cfg, Recorded(cfg, s, e))
    requires WindowsWithinLimit(cfg, s.records) && |ActiveDays(s.records + [e], lo, hi)| <= 5
    ensures EntriesIn(s.records + [e], lo, hi) < Setting(cfg.guards.maxDayTrades, 3) + cfg.concurrency
  {
    var h := s.records + [e];
    var t := e.now.day;
    assert h[..|s.records|] == s.records;
    EntriesSnoc(s.records, e, lo, hi);
    ActiveSnoc(h, lo, hi);
    hide Ordered, DayTradesUsed, Record, EntriesIn, StateAfter;
    if e.EntrySubmitted? && lo <= t <= hi {
      FourEarlier(h, lo, t, hi);
      WindowWithinUsed(cfg.guards, h, lo, t);
      CutAtLastDay(h, lo, t, hi);
    } else {
      hide ActiveDays;
      assert ActiveDays(s.records, lo, hi) == ActiveDays(h, lo, hi);
    }
  }

  lemma FourEarlier(h: seq<GuardEvent>, lo: int, t: int, hi: int)
    requires lo <= t <= hi && t in ActiveDays(h, lo, hi) && |ActiveDays(h, lo, hi)| <= 5
    ensures |ActiveDays(h, lo, t - 1)| <= 4
  {
    var earlier := ActiveDays(h, lo, t - 1);
    SubsetSize(earlier + {t}, ActiveDays(h, lo, hi));
  }

  lemma RecordKeepsWindows(cfg: Config, s: System, e: GuardEvent)
    requires Faithful(cfg, Recorded(cfg, s, e)) && s.tracker == StateAfter(cfg.guards, s.records)
    requires WindowKept(cfg, Recorded(cfg, s, e)) && WindowsWithinLimit(cfg, s.records)
    ensures WindowsWithinLimit(cfg, s.records + [e])
  {
    forall lo, hi | |ActiveDays(s.records + [e], lo, hi)| <= 5
      ensures EntriesIn(s.records + [e], lo, hi) < Setting(cfg.guards.maxDayTrades, 3) + cfg.concurrency
    {
      RecordKeepsWindow(cfg, s, e, lo, hi);
    }
  }

  lemma TakeKeepsWindows(cfg: Config, s: System, step: Step)
    requires cfg.guardsEnabled && cfg.guards.pdtEnabled == Some(true)
    requires Faithful(cfg, s) && WindowKept(cfg, s) && Enabled(cfg, s, step) && WindowsWithinLimit(cfg, s.records)
    ensures WindowsWithinLimit(cfg, Take(cfg, s, step).records)
  {
    TakeFaithful(cfg, s, step);
    TakeKeepsWindow(cfg, s, step);
    hide Faithful, WindowKept, WindowsWithinLimit, Record;
    match step {
      case Begin(_, _, _) =>
      case Complete(task, now, placed) =>
        if placed {
          var freed := s.(clock := now.day, inFlight := s.inFlight[..task] + s.inFlight[task + 1..]);
          TrackerIsHistory(cfg, s);
          RecordKeepsWindows(cfg, freed, EntrySubmitted(now, s.inFlight[task]));
        }
      case Close(symbol, now, pnl) =>
        TrackerIsHistory(cfg, s);
        RecordKeepsWindows(cfg, s, PositionClosed(now, symbol, pnl));
    }
  }

  lemma TrackerIsHistory(cfg: Config, s: System)
    requires Faithful(cfg, s)
    ensures s.tracker == StateAfter(cfg.guards, s.records)
  {
  }

  lemma {:induction false} WindowInduction(cfg: Config, s: System, steps: seq<Step>)
    requires cfg.guardsEnabled && cfg.guards.pdtEnabled == Some(true)
    requires CanRun(cfg, s, steps) && Faithful(cfg, s) && WindowKept(cfg, s) && WindowsWithinLimit(cfg, s.records)
    ensures WindowsWithinLimit(cfg, Run(cfg, s, steps).records)
    decreases |steps|
  {
    if steps != [] {
      TakeFaithful(cfg, s, steps[0]);
      TakeKeepsWindow(cfg, s, steps[0]);
      TakeKeepsWindows(cfg, s, steps[0]);
      WindowInduction(cfg, Take(cfg, s, steps[0]), steps[1..]);
    }
  }

  /** The day-trade limit under interleaving: five active days hold at most limit + concurrency - 1 entries. */
  lemma PdtUnderInterleaving(cfg: Config, start: int, steps: seq<Step>, lo: int, hi: int)
    requires cfg.guardsEnabled && cfg.guards.pdtEnabled == Some(true) && cfg.concurrency > 0
    requires Setting(cfg.guards.maxDayTrades, 3) > 0
    requires CanRun(cfg, Idle(start), steps)
    requires |ActiveDays(Run(cfg, Idle(start), steps).records, lo, hi)| <= 5
    ensures EntriesIn(Run(cfg, Idle(start), steps).records, lo, hi)
            <= Setting(cfg.guards.maxDayTrades, 3) + cfg.concurrency - 1
  {
    WindowInduction(cfg, Idle(start), steps);
  }

  // ------------------------------------------------------ the cap is attained

  /** A quiet day: only entries so far, and no limit but the daily cap can stop another. */
  ghost predicate Quiet(cfg: Config, s: System, now: Moment) {
    && s.clock == now.day
    && (s.tracker == EMPTY_STATE || s.tracker.tradingDay == Some(now.day))
    && s.tracker.realizedPnl == 0 && s.tracker.consecutiveLosses == 0 && s.tracker.lastLossExit == map[]
    && (s.tracker.tripped.Some? ==> s.tracker.tradesOpened >= Setting(cfg.guards.maxTradesPerDay, 5))
    && s.tracker.tradesOpened == EntriesIn(s.records, now.day, now.day)
  }

  lemma QuietBegin(cfg: Config, s: System, now: Moment)
    requires Quiet(cfg, s, now) && cfg.guards.pdtEnabled != Some(true)
    requires s.tracker.tradesOpened < Setting(cfg.guards.maxTradesPerDay, 5) && |s.inFlight| < cfg.concurrency
    ensures var s' := Take(cfg, s, Begin("", now, true));
            Quiet(cfg, s', now) && s'.inFlight == s.inFlight + [""] && s'.records == s.records
            && s'.tracker == s.tracker
  {
  }

  lemma QuietComplete(cfg: Config, s: System, now: Moment)
    requires Quiet(cfg, s, now) && s.inFlight != [] && Setting(cfg.guards.maxTradesPerDay, 5) > 0
    ensures var s' := Take(cfg, s, Complete(0, now, true));
            Quiet(cfg, s', now) && |s'.inFlight| == |s.inFlight| - 1
            && EntriesIn(s'.records, now.day, now.day) == EntriesIn(s.records, now.day, now.day) + 1
            && s'.tracker.tradesOpened == s.tracker.tradesOpened + 1
  {
    var e := EntrySubmitted(now, s.inFlight[0]);
    EntriesSnoc(s.records, e, now.day, now.day);
    QuietRecord(cfg, s, now, e);
    hide Record, EntriesIn;
  }

  lemma QuietRecord(cfg: Config, s: System, now: Moment, e: GuardEvent)
    requires Quiet(cfg, s, now) && e.EntrySubmitted? && e.now == now
    ensures var t, t' := s.tracker, Record(cfg.guards, s.tracker, e);
            && t'.tradingDay == Some(now.day) && t'.tradesOpened == t.tradesOpened + 1
            && t'.realizedPnl == 0 && t'.consecutiveLosses == 0 && t'.lastLossExit == map[]
            && (t'.tripped.Some? ==> t'.tradesOpened >= Setting(cfg.guards.maxTradesPerDay, 5))
  {
    hide EntriesIn;
  }

  lemma {:induction false} RunPlus(cfg: Config, s: System, a: seq<Step>, b: seq<Step>)
    requires CanRun(cfg, s, a) && CanRun(cfg, Run(cfg, s, a), b)
    ensures CanRun(cfg, s, a + b) && Run(cfg, s, a + b) == Run(cfg, Run(cfg, s, a), b)
    decreases |a|
  {
    if a == [] {
      assert a + b == b;
    } else {
      assert (a + b)[1..] == a[1..] + b && (a + b)[0] == a[0];
      RunPlus(cfg, Take(cfg, s, a[0]), a[1..], b);
    }
  }

  /** One execution from gate to record. */
  lemma OneMore(cfg: Config, s: System, now: Moment)
    requires Quiet(cfg, s, now) && cfg.guards.pdtEnabled != Some(true) && cfg.concurrency > 0
    requires s.inFlight == [] && s.tracker.tradesOpened < Setting(cfg.guards.maxTradesPerDay, 5)
    requires Setting(cfg.guards.maxTradesPerDay, 5) > 0
    ensures var steps := [Begin("", now, true), Complete(0, now, true)];
            && CanRun(cfg, s, steps)
            && var s' := Run(cfg, s, steps);
               Quiet(cfg, s', now) && s'.inFlight == [] && s'.tracker.tradesOpened == s.tracker.tradesOpened + 1
  {
    var begin, complete := Begin("", now, true), Complete(0, now, true);
    QuietBegin(cfg, s, now);
    var s1 := Take(cfg, s, begin);
    QuietComplete(cfg, s1, now);
    hide Take, Quiet;
    assert [begin, complete][1..] == [complete] && [complete][1..] == [];
    assert CanRun(cfg, s1, [complete]) && Run(cfg, s1, [complete]) == Take(cfg, s1, complete);
  }

  /** Entries one after the other, up to any number below the cap. */
  lemma {:induction false} OneAtATime(cfg: Config, now: Moment, n: nat) returns (steps: seq<Step>)
    requires cfg.guards.pdtEnabled != Some(true) && cfg.concurrency > 0
    requires n < Setting(cfg.guards.maxTradesPerDay, 5)
    ensures CanRun(cfg, Idle(now.day), steps)
    ensures var s := Run(cfg, Idle(now.day), steps);
            Quiet(cfg, s, now) && s.inFlight == [] && s.tracker.tradesOpened == n
  {
    steps := [];
    if n > 0 {
      var before := OneAtATime(cfg, now, n - 1);
      OneMore(cfg, Run(cfg, Idle(now.day), before), now);
      RunPlus(cfg, Idle(now.day), before, [Begin("", now, true), Complete(0, now, true)]);
      steps := before + [Begin("", now, true), Complete(0, now, true)];
    }
  }

  /** With room left below the cap, every free slot can be filled, since nothing is recorded meanwhile. */
  lemma {:induction false} BeginAll(cfg: Config, s: System, now: Moment, n: nat) returns (steps: seq<Step>)
    requires Quiet(cfg, s, now) && cfg.guards.pdtEnabled != Some(true)
    requires s.tracker.tradesOpened < Setting(cfg.guards.maxTradesPerDay, 5) && |s.inFlight| + n <= cfg.concurrency
    ensures CanRun(cfg, s, steps)
    ensures var s' := Run(cfg, s, steps);
            Quiet(cfg, s', now) && |s'.inFlight| == |s.inFlight| + n && s'.tracker == s.tracker
            && s'.records == s.records
    decreases n
  {
    steps := [];
    if n > 0 {
      QuietBegin(cfg, s, now);
      var rest := BeginAll(cfg, Take(cfg, s, Begin("", now, true)), now, n - 1);
      steps := [Begin("", now, true)] + rest;
      assert steps[1..] == rest;
    }
  }

  lemma {:induction false} CompleteAll(cfg: Config, s: System, now: Moment) returns (steps: seq<Step>)
    requires Quiet(cfg, s, now) && Setting(cfg.guards.maxTradesPerDay, 5) > 0
    ensures CanRun(cfg, s, steps)
    ensures EntriesIn(Run(cfg, s, steps).records, now.day, now.day)
            == EntriesIn(s.records, now.day, now.day) + |s.inFlight|
    decreases |s.inFlight|
  {
    steps := [];
    if s.inFlight != [] {
      QuietComplete(cfg, s, now);
      var rest := CompleteAll(cfg, Take(cfg, s, Complete(0, now, true)), now);
      steps := [Complete(0, now, true)] + rest;
      assert steps[1..] == rest;
    }
  }

  /** The bound is exact: some run records cap + concurrency - 1 entries on one day. */
  lemma CapIsAttained(cfg: Config, now: Moment) returns (steps: seq<Step>)
    requires cfg.guards.pdtEnabled != Some(true) && cfg.concurrency > 0
    requires Setting(cfg.guards.maxTradesPerDay, 5) > 0
    ensures CanRun(cfg, Idle(now.day), steps)
    ensures EntriesIn(Run(cfg, Idle(now.day), steps).records, now.day, now.day)
            == Setting(cfg.guards.maxTradesPerDay, 5) + cfg.concurrency - 1
  {
    var first := OneAtATime(cfg, now, Setting(cfg.guards.maxTradesPerDay, 5) - 1);
    var s1 := Run(cfg, Idle(now.day), first);
    var begins := BeginAll(cfg, s1, now, cfg.concurrency);
    var s2 := Run(cfg, s1, begins);
    var completes := CompleteAll(cfg, s2, now);
    RunPlus(cfg, s1, begins, completes);
    RunPlus(cfg, Idle(now.day), first, begins + completes);
    steps := first + (begins + completes);
  }

  // --------------------------------------------------------------- objects

  /** The executor with its executions under way; each method runs up to the next await. */
  class EntryOrderExecutor {
    const guards: CircuitBreakerTracker
    const config: Config
    var inFlight: seq<string>

    constructor (guards: CircuitBreakerTracker, config: Config)
      requires guards.settings == config.guards
      ensures this.guards == guards && this.config == config && inFlight == []
      ensures Valid()
    {
      this.guards, this.config, this.inFlight := guards, config, [];
    }

    ghost predicate Valid()
      reads this
    {
      guards.settings == config.guards
    }

    ghost function View(clock: int, records: seq<GuardEvent>): System
      reads this, guards.repository
    {
      System(guards.repository.tracker, inFlight, clock, records)
    }

    /** The gates, up to the awaited submission. */
    method Gate(symbol: string, now: Moment, clear: bool, ghost clock: int, ghost records: seq<GuardEvent>)
      requires Valid() && clock <= now.day && |inFlight| < config.concurrency
      modifies this`inFlight
      ensures Valid()
      ensures View(now.day, records) == Take(config, old(View(clock, records)), Begin(symbol, now, clear))
    {
      if config.guardsEnabled {
        var breaker := guards.Breaker(now);
        if breaker.Some? { return; }
        var pdt := guards.Pdt(now);
        if pdt { return; }
        var cooldown := guards.Cooldown(symbol, now);
        if cooldown { return; }
      }
      if !clear { return; }
      inFlight := inFlight + [symbol];
    }

    /** What follows the awaited submission: an entry is recorded only when it returned normally. */
    method Finish(task: nat, now: Moment, placed: bool, ghost clock: int, ghost records: seq<GuardEvent>)
      requires Valid() && clock <= now.day && task < |inFlight|
      modifies this`inFlight, guards.repository
      ensures Valid()
      ensures View(now.day, if placed then records + [EntrySubmitted(now, old(inFlight)[task])] else records)
              == Take(config, old(View(clock, records)), Complete(task, now, placed))
    {
      var symbol := inFlight[task];
      inFlight := inFlight[..task] + inFlight[task + 1..];
      if placed {
        guards.RecordEntrySubmitted(symbol, now);
      }
    }
  }
}
