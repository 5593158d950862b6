/**
 The two session gates an entry passes: one on the signal, one right before the order goes out. Both read the New York
 wall clock; times of day are microseconds after midnight.
 */
module SessionPolicy {
  import opened Common

  datatype Session = PreMarket | Regular | AfterHours | Closed

  /** A moment as New York sees it. */
  datatype Clock = Clock(weekend: bool, time: nat)

  datatype LunchMode = AllowLunch | BlockLunch | Reinforced

  datatype Windows = Windows(
    noEntryBefore: Option<nat>,
    noNewEntryAfter: Option<nat>,
    lunchStart: Option<nat>,
    lunchEnd: Option<nat>,
    lunchMode: LunchMode,
    minVolumeRatio: Option<real>)

  /** The policy in force; windows are absent when not configured or switched off. */
  datatype Policy = Policy(
    enabled: bool,
    requireRth: bool,
    allowPremarket: bool,
    allowAfterHours: bool,
    waitMinutes: int,
    waitBars: int,
    barMinutes: Option<int>,
    windows: Option<Windows>)

  datatype Block =
    | PremarketTrigger
    | AfterHoursTrigger
    | ConfirmationRequired
    | OutsideRegularHours
    | WaitingAfterOpen
    | BeforeTradingWindow
    | AfterCutoff
    | LunchRestricted

  const MINUTE := 60_000_000
  const OPEN := 570 * MINUTE
  const CLOSE := 960 * MINUTE

  function SessionAt(c: Clock): Session {
    if c.weekend then Closed
    else if 240 * MINUTE <= c.time < OPEN then PreMarket
    else if OPEN <= c.time < CLOSE then Regular
    else if CLOSE <= c.time < 1200 * MINUTE then AfterHours
    else Closed
  }

  /** Division rounding down, for any divisor but zero. */
  function FloorDiv(a: nat, b: int): int
    requires b != 0
  {
    if b > 0 then a / b else -((a + -b - 1) / -b)
  }

  /** Microseconds since the market opened, on the same day; absent before the open. */
  function SinceOpen(c: Clock): Option<nat> {
    if c.time < OPEN then None else Some(c.time - OPEN)
  }

  /** The market opened too recently, in minutes or in closed bars. */
  predicate WaitsAfterOpen(p: Policy, c: Clock) {
    var since := SinceOpen(c);
    since.Some?
    && ((p.waitMinutes > 0 && since.value < p.waitMinutes * MINUTE)
        || (p.waitBars > 0 && p.barMinutes.Some? && p.barMinutes.value != 0
            && FloorDiv(since.value, p.barMinutes.value * MINUTE) < p.waitBars))
  }

  predicate InLunch(w: Windows, c: Clock) {
    w.lunchStart.GetOr(690 * MINUTE) <= c.time < w.lunchEnd.GetOr(840 * MINUTE) && w.lunchMode != AllowLunch
  }

  function MinRatio(w: Windows): real {
    if w.minVolumeRatio.None? || w.minVolumeRatio.value == 0.0 then 1.5 else w.minVolumeRatio.value
  }

  predicate LowVolume(w: Windows, volumeRatio: Option<real>) {
    volumeRatio.None? || volumeRatio.value < MinRatio(w)
  }

  /** The hourly windows; at run time no volume is known, and the reinforced lunch rule is left to the signal. */
  function WindowBlock(p: Policy, c: Clock, volumeRatio: Option<real>, runtime: bool): Option<Block> {
    if p.windows.None? then None
    else
      var w := p.windows.value;
      if w.noEntryBefore.Some? && c.time < w.noEntryBefore.value then Some(BeforeTradingWindow)
      else if w.noNewEntryAfter.Some? && c.time >= w.noNewEntryAfter.value then Some(AfterCutoff)
      else if !InLunch(w, c) then None
      else if w.lunchMode == BlockLunch then Some(LunchRestricted)
      else if runtime then None
      else if LowVolume(w, volumeRatio) then Some(LunchRestricted)
      else None
  }

  /** The gate on the signal: outside regular hours it only looks at the session. */
  function SignalBlock(p: Policy, c: Clock, volumeRatio: Option<real>): Option<Block> {
    var session := SessionAt(c);
    if !p.enabled then None
    else if session == PreMarket && p.requireRth && !p.allowPremarket then Some(PremarketTrigger)
    else if session == AfterHours && p.requireRth && !p.allowAfterHours then Some(AfterHoursTrigger)
    else if p.requireRth && session == Closed then Some(ConfirmationRequired)
    else if session != Regular then None
    else if WaitsAfterOpen(p, c) then Some(WaitingAfterOpen)
    else WindowBlock(p, c, volumeRatio, false)
  }

  /** The gate at execution. */
  function ExecutionBlock(p: Policy, c: Clock): Option<Block> {
    var session := SessionAt(c);
    if !p.enabled then None
    else if session == PreMarket && p.requireRth && !p.allowPremarket then Some(PremarketTrigger)
    else if session == AfterHours && p.requireRth && !p.allowAfterHours then Some(AfterHoursTrigger)
    else if p.requireRth && session != Regular then Some(OutsideRegularHours)
    else if WaitsAfterOpen(p, c) then Some(WaitingAfterOpen)
    else WindowBlock(p, c, None, true)
  }

  // ------------------------------------------------------- in clock times

  /** Between two times of a weekday, given in minutes after midnight; the second is excluded. */
  predicate OnWeekday(c: Clock, from: nat, to: nat) {
    !c.weekend && from * 60_000_000 <= c.time < to * 60_000_000
  }

  /** 9:30 to 16:00. */
  predicate RegularHours(c: Clock) {
    OnWeekday(c, 9 * 60 + 30, 16 * 60)
  }

  /** After the open, past the minutes and the closed bars to wait for; bars of negative length never close. */
  predicate Waited(p: Policy, c: Clock) {
    var open := (9 * 60 + 30) * 60_000_000;
    c.time >= open ==>
      && c.time - open >= p.waitMinutes * 60_000_000
      && (p.waitBars > 0 && p.barMinutes.Some? && p.barMinutes != Some(0) ==>
            p.barMinutes.value > 0 && c.time - open >= p.waitBars * (p.barMinutes.value * 60_000_000))
  }

  /** 11:30 to 14:00 unless set otherwise. */
  predicate AtLunch(w: Windows, c: Clock) {
    && (match w.lunchStart case Some(start) => start <= c.time case None => (11 * 60 + 30) * 60_000_000 <= c.time)
    && (match w.lunchEnd case Some(end) => c.time < end case None => c.time < 14 * 60 * 60_000_000)
  }

  /** Within the hours for entries, if any are set. */
  predicate WithinHours(w: Windows, c: Clock) {
    && (w.noEntryBefore.Some? ==> c.time >= w.noEntryBefore.value)
    && (w.noNewEntryAfter.Some? ==> c.time < w.noNewEntryAfter.value)
  }

  /** The volume asked for at lunch: the ratio as set, 1.5 when absent or zero. */
  predicate EnoughVolume(w: Windows, volumeRatio: Option<real>) {
    volumeRatio.Some?
    && match w.minVolumeRatio
       case Some(least) => volumeRatio.value >= (if least == 0.0 then 1.5 else least)
       case None => volumeRatio.value >= 1.5
  }

  lemma WaitedExactly(p: Policy, c: Clock)
    ensures WaitsAfterOpen(p, c) <==> !Waited(p, c)
  {
    if c.time >= OPEN && p.waitBars > 0 && p.barMinutes.Some? && p.barMinutes.value != 0 {
      BarsClosed(c.time - OPEN, p.barMinutes.value * MINUTE, p.waitBars);
    }
  }

  /** Fewer bars than asked for have closed exactly while less time than they take has passed. */
  lemma BarsClosed(since: nat, bar: int, bars: int)
    requires bar != 0 && bars > 0
    ensures FloorDiv(since, bar) < bars <==> bar < 0 || since < bars * bar
  {
    if bar > 0 {
      var n := since / bar;
      assert since == n * bar + since % bar;
      if n < bars {
        assert (bars - n - 1) * bar >= 0;
      } else {
        assert (n - bars) * bar >= 0;
      }
    } else {
      assert (since + -bar - 1) / -bar >= 0;
    }
  }

  /**
   When execution lets an entry pass, in clock times: exactly when the policy is off, or regular hours are kept if they
   are required, the wait after the open is over, and the time is within the hours for entries and not at a blocked
   lunch.
   */
  lemma ExecutionPassesExactly(p: Policy, c: Clock)
    ensures ExecutionBlock(p, c).None?
            <==> (!p.enabled
                  || (&& (p.requireRth ==> RegularHours(c)) && Waited(p, c)
                      && (p.windows.Some? ==>
                            WithinHours(p.windows.value, c)
                            && !(p.windows.value.lunchMode == BlockLunch && AtLunch(p.windows.value, c)))))
  {
    hide WaitsAfterOpen, Waited;
    WaitedExactly(p, c);
  }

  /**
   When the signal gate lets an entry pass: exactly when the policy is off; or, in regular hours, the wait is over and
   the time is within the hours for entries and not at lunch, unless lunch is allowed, or reinforced and the volume is
   known and large enough; or, at any other time, regular hours are not required, or that session is permitted.
   */
  lemma SignalPassesExactly(p: Policy, c: Clock, volumeRatio: Option<real>)
    ensures SignalBlock(p, c, volumeRatio).None?
            <==> (!p.enabled
                  || if RegularHours(c) then
                       && Waited(p, c)
                       && (p.windows.Some? ==>
                             var w := p.windows.value;
                             WithinHours(w, c)
                             && (AtLunch(w, c) ==>
                                   w.lunchMode == AllowLunch
                                   || (w.lunchMode == Reinforced && EnoughVolume(w, volumeRatio))))
                     else
                       || !p.requireRth
                       || (OnWeekday(c, 4 * 60, 9 * 60 + 30) && p.allowPremarket)
                       || (OnWeekday(c, 16 * 60, 20 * 60) && p.allowAfterHours))
  {
    hide WaitsAfterOpen, Waited;
    WaitedExactly(p, c);
  }

  // ---------------------------------------------------------------- signals

  datatype Signal = Signal(entryReady: bool, decisionStatus: Option<Block>, blocking: seq<Block>)

  /** A blocked entry signal becomes a hold that says why; every other signal is left alone. */
  function ApplyPolicy(s: Signal, p: Policy, c: Clock, volumeRatio: Option<real>): Signal {
    if !s.entryReady || SignalBlock(p, c, volumeRatio).None? then s
    else
      var why := SignalBlock(p, c, volumeRatio).value;
      Signal(false, Some(why), [why] + s.blocking)
  }

  /** How the executor recognises a signal the policy has blocked. */
  predicate RecognisedAsBlocked(s: Signal) {
    s.decisionStatus.Some? && s.decisionStatus.value != OutsideRegularHours
  }

  /** The policy is applied once and for all, and what it blocks is neither executable nor unrecognised. */
  lemma PolicyIsDecisive(s: Signal, p: Policy, c: Clock, volumeRatio: Option<real>)
    ensures var s' := ApplyPolicy(s, p, c, volumeRatio);
            && ApplyPolicy(s', p, c, volumeRatio) == s'
            && (s'.entryReady <==> s.entryReady && SignalBlock(p, c, volumeRatio).None?)
            && (s.entryReady && !s'.entryReady ==> RecognisedAsBlocked(s') && |s'.blocking| == |s.blocking| + 1
                                                   && s'.decisionStatus == Some(s'.blocking[0])
                                                   && s'.blocking[1..] == s.blocking)
    ensures RecognisedAsBlocked(s)
            <==> s.decisionStatus.Some?
                 && s.decisionStatus.value in {PremarketTrigger, AfterHoursTrigger, ConfirmationRequired, WaitingAfterOpen,
                                               BeforeTradingWindow, AfterCutoff, LunchRestricted}
  {
  }

  // -------------------------------------------------------------- refinement

  /** The lunch rule that only the signal gate enforces. */
  predicate ReinforcedLunchRefusal(p: Policy, c: Clock, volumeRatio: Option<real>) {
    p.windows.Some? && InLunch(p.windows.value, c) && p.windows.value.lunchMode == Reinforced
    && LowVolume(p.windows.value, volumeRatio)
  }

  /**
   Regular-hours policies: a signal passes exactly when execution lets it through at the same moment and it is not in
   a reinforced lunch window with missing or low volume. In particular no passed signal is blocked at execution.
   */
  lemma GatesRefine(p: Policy, c: Clock, volumeRatio: Option<real>)
    requires p.enabled && p.requireRth && !p.allowPremarket && !p.allowAfterHours
    ensures SignalBlock(p, c, volumeRatio).None?
            <==> ExecutionBlock(p, c).None? && !ReinforcedLunchRefusal(p, c, volumeRatio)
  {
    hide WaitsAfterOpen, LowVolume;
  }

  /**
   All policies. Execution blocks what the signal gate passed exactly outside regular hours: either they are required,
   although the extended session was allowed, or they are not and the wait or the windows apply all the same.
   */
  lemma ExecutionStricterExactly(p: Policy, c: Clock, volumeRatio: Option<real>)
    ensures SignalBlock(p, c, volumeRatio).None? && ExecutionBlock(p, c).Some?
            <==> (&& p.enabled && SessionAt(c) != Regular
                  && if p.requireRth then (SessionAt(c) == PreMarket && p.allowPremarket)
                                          || (SessionAt(c) == AfterHours && p.allowAfterHours)
                     else WaitsAfterOpen(p, c) || WindowBlock(p, c, None, true).Some?)
  {
    hide WaitsAfterOpen, WindowBlock;
    if SessionAt(c) == Regular { SameWindows(p, c, volumeRatio); }
  }

  lemma SameWindows(p: Policy, c: Clock, volumeRatio: Option<real>)
    ensures WindowBlock(p, c, volumeRatio, false).None? ==> WindowBlock(p, c, None, true).None?
    ensures WindowBlock(p, c, None, true).None? ==>
              (WindowBlock(p, c, volumeRatio, false).Some? <==> ReinforcedLunchRefusal(p, c, volumeRatio))
  {
  }

  /** The signal gate blocks what execution would pass exactly in a reinforced lunch window of regular hours. */
  lemma SignalStricterExactly(p: Policy, c: Clock, volumeRatio: Option<real>)
    ensures SignalBlock(p, c, volumeRatio).Some? && ExecutionBlock(p, c).None?
            <==> (&& p.enabled && SessionAt(c) == Regular && ExecutionBlock(p, c).None?
                  && ReinforcedLunchRefusal(p, c, volumeRatio))
  {
    SameWindows(p, c, volumeRatio);
    hide WaitsAfterOpen, WindowBlock, ReinforcedLunchRefusal;
  }

  /** The permission for premarket entries has no effect at execution while regular hours are required. */
  lemma PremarketPermissionIsVoid(p: Policy, c: Clock)
    requires p.enabled && p.requireRth && SessionAt(c) != Regular
    ensures ExecutionBlock(p, c).Some?
    ensures p.allowPremarket && SessionAt(c) == PreMarket ==> SignalBlock(p, c, None).None?
  {
  }
}
