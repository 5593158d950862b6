/**
 What each verdict of a revalidation means, in the prices, times and switches of the input itself: which price
 invalidates a setup, when it has expired, when it is stale or waits for a retest, and when an order may go out.
 */
module LifecycleVerdicts {
  import opened Common
  import opened Models
  import opened BrokerReality
  import opened StateMachine
  import opened SetupLifecycle

  // ------------------------------------------------------------ the input

  /** The first value that is there. */
  ghost function FirstOf(values: seq<Option<int>>): Option<int> {
    if values == [] then None else if values[0].Some? then values[0] else FirstOf(values[1..])
  }

  /** The first price that is there and positive. */
  ghost function FirstPositive(prices: seq<Option<int>>): Option<int> {
    if prices == [] then None
    else if prices[0].Some? && prices[0].value > 0 then prices[0]
    else FirstPositive(prices[1..])
  }

  /** A quote of the setup's symbol, case aside, with at least one positive price; a symbol may be left out. */
  ghost predicate Quoted(i: Input) {
    && i.quote.Some?
    && var q, symbol := i.quote.value, i.setup.setup.symbol;
       && (symbol == "" || q.symbol == "" || Upper(q.symbol) == Upper(symbol))
       && FirstPositive([q.price, q.close, q.bid, q.ask]).Some?
  }

  ghost function Close(i: Input): int
    requires i.quote.Some?
  {
    FirstPositive([i.quote.value.close, i.quote.value.price, i.quote.value.bid, i.quote.value.ask]).GetOr(0)
  }

  /** The price a BUY would pay. */
  ghost function ToBuy(i: Input): int
    requires i.quote.Some?
  {
    FirstPositive([i.quote.value.ask, i.quote.value.price, i.quote.value.close, i.quote.value.bid]).GetOr(0)
  }

  /** The price a short entry would get. */
  ghost function ToSell(i: Input): int
    requires i.quote.Some?
  {
    FirstPositive([i.quote.value.bid, i.quote.value.price, i.quote.value.close, i.quote.value.ask]).GetOr(0)
  }

  ghost predicate Short(s: LifecycleSetup) {
    s.setup.config.direction == Direction.Short
  }

  ghost function StopPrice(s: LifecycleSetup): Option<int> {
    if s.trailingSwitchedOff then None else s.initialStop
  }

  /** The configured entry: the trigger, otherwise the entry price. */
  ghost function Entry(s: LifecycleSetup): Option<int> {
    if s.hasEntrySection then FirstOf([s.triggerPrice, s.entryPrice]) else None
  }

  /** The limit of a chase: as configured outright, otherwise the entry and the offset, away from the setup's side. */
  ghost function Limit(s: LifecycleSetup): Option<int> {
    var e, offset := s.setup.config.entry, s.setup.config.entry.limitOffset.GetOr(0);
    if !s.hasEntrySection then None
    else FirstOf([e.maximumLimitPrice, e.limitPrice,
                  if Entry(s).None? then None
                  else if Short(s) then Some(Entry(s).value - offset) else Some(Entry(s).value + offset)])
  }

  /** The stop is not on the losing side of the configured entry. */
  ghost predicate StopMisplaced(s: LifecycleSetup) {
    StopPrice(s).Some? && Entry(s).Some?
    && if Short(s) then StopPrice(s).value <= Entry(s).value else StopPrice(s).value >= Entry(s).value
  }

  ghost predicate OverTime(i: Input) {
    i.setup.expiresAt.Some? && i.setup.expiresAt.value <= i.now
  }

  /** Older than allowed: the setup's own number of days, otherwise the default, otherwise 30; none if not positive. */
  ghost predicate OverAge(i: Input, g: LifecycleSettings) {
    var days := if i.setup.maxAgeDays.Some? then i.setup.maxAgeDays.value
                else if g.maxAgeDays.Some? then g.maxAgeDays.value else 30.0;
    i.setup.createdAt.Some? && days > 0.0 && (i.now - i.setup.createdAt.value) as real > days * 86_400_000_000.0
  }

  /** Some level is above the price. */
  ghost predicate Below(price: int, levels: seq<Option<int>>) {
    exists k :: 0 <= k < |levels| && levels[k].Some? && price < levels[k].value
  }

  ghost predicate Above(price: int, levels: seq<Option<int>>) {
    exists k :: 0 <= k < |levels| && levels[k].Some? && levels[k].value < price
  }

  /** The close is past the invalidation level, the edge of the zone or the stop, on the side that breaks the setup. */
  ghost predicate ThesisIsBroken(i: Input)
    requires i.quote.Some?
  {
    var levels := [i.setup.invalidation, i.setup.zoneEdge, StopPrice(i.setup)];
    if Short(i.setup) then Above(Close(i), levels) else Below(Close(i), levels)
  }

  /** The entry would be chased: a BUY above the limit, a short entry below it. */
  ghost predicate Chased(i: Input)
    requires i.quote.Some?
  {
    Limit(i.setup).Some? && if Short(i.setup) then ToSell(i) < Limit(i.setup).value else ToBuy(i) > Limit(i.setup).value
  }

  /** Chased too far: further from the entry (from the limit, if no entry is configured) than the allowed percentage. */
  ghost predicate ChasedTooFar(i: Input, g: LifecycleSettings)
    requires i.quote.Some? && Limit(i.setup).Some?
  {
    var s := i.setup;
    var percent := if s.antiChaseOn && s.antiChasePercent.Some? then s.antiChasePercent.value
                   else if g.tooFarPercent.Some? then g.tooFarPercent.value else 1.5;
    var base := if Entry(s) == None || Entry(s) == Some(0) then Limit(s).value else Entry(s).value;
    if Short(s) then (100 * ToSell(i)) as real < base as real * (100.0 - percent)
    else (100 * ToBuy(i)) as real > base as real * (100.0 + percent)
  }

  /** The broker is known to be down, its report too old where that counts, or a risk unknown. */
  ghost predicate BrokerUnsound(b: BrokerContext, trackerBlocks: bool) {
    b.connected == Some(false) || b.riskUnknown
    || (trackerBlocks && b.tracker.Some? && (b.tracker.value == Stale || b.tracker.value == NotRunning))
  }

  ghost predicate SpreadTooWide(i: Input)
    requires i.quote.Some?
  {
    var spread, most := i.quote.value.spreadBps, i.setup.maxSpreadBps;
    spread.Some? && most.Some? && 0.0 < most.value < spread.value
  }

  /** The structure and the times of the setup are in order: a stop, on its side, not expired, not too old. */
  ghost predicate InOrder(i: Input, g: LifecycleSettings) {
    StopPrice(i.setup).Some? && !StopMisplaced(i.setup) && !OverTime(i) && !OverAge(i, g)
  }

  // --------------------------------------------------- the input is what is read

  lemma PricesAreRead(i: Input)
    ensures PricesOf(i.quote, i.setup.setup.symbol).Some? <==> Quoted(i)
    ensures Quoted(i) ==>
              i.quote.Some? &&
              var p := PricesOf(i.quote, i.setup.setup.symbol).value;
              p.close == Close(i) && p.spreadBps == i.quote.value.spreadBps
              && Executable(i.setup, p) == if Short(i.setup) then ToSell(i) else ToBuy(i)
  {
    if i.quote.Some? {
      var q := i.quote.value;
      FirstOfFour(q.price, q.close, q.bid, q.ask);
      FirstOfFour(q.close, q.price, q.bid, q.ask);
      FirstOfFour(q.ask, q.price, q.close, q.bid);
      FirstOfFour(q.bid, q.price, q.close, q.ask);
    }
    hide FirstPositive;
  }

  lemma FirstOfFour(a: Option<int>, b: Option<int>, c: Option<int>, d: Option<int>)
    ensures FirstPositive([a, b, c, d]) == Or(Or(Positive(a), Positive(b)), Or(Positive(c), Positive(d)))
  {
    assert [a, b, c, d][1..] == [b, c, d] && [b, c, d][1..] == [c, d] && [c, d][1..] == [d] && [d][1..] == [];
    assert FirstPositive([d]) == Positive(d);
    assert FirstPositive([c, d]) == Or(Positive(c), Positive(d));
    assert FirstPositive([b, c, d]) == Or(Positive(b), Or(Positive(c), Positive(d)));
  }

  lemma PlacesAreRead(s: LifecycleSetup)
    ensures InitialStop(s) == StopPrice(s) && EntryRef(s) == Entry(s) && MaximumLimit(s) == Limit(s)
    ensures StopPrice(s).Some? ==> (StopOnRightSide(s) <==> !StopMisplaced(s))
  {
    var e := s.setup.config.entry;
    assert [s.triggerPrice, s.entryPrice][1..] == [s.entryPrice];
    assert FirstOf([s.entryPrice]) == s.entryPrice;
    forall x: Option<int>
      ensures FirstOf([e.maximumLimitPrice, e.limitPrice, x]) == Or(e.maximumLimitPrice, Or(e.limitPrice, x))
    {
      assert [e.maximumLimitPrice, e.limitPrice, x][1..] == [e.limitPrice, x] && [e.limitPrice, x][1..] == [x];
      assert FirstOf([x]) == x;
    }
  }

  lemma TimesAreRead(i: Input, g: LifecycleSettings)
    ensures HasExpired(i.setup, i.now) <==> OverTime(i)
    ensures TooOld(i.setup, g, i.now) <==> OverAge(i, g)
  {
  }

  lemma LevelsAreRead(i: Input)
    requires i.quote.Some?
    ensures Broken(i.setup, Close(i)).Some? <==> ThesisIsBroken(i)
  {
    hide Close;
    PlacesAreRead(i.setup);
    var levels := [i.setup.invalidation, i.setup.zoneEdge, StopPrice(i.setup)];
    assert levels[0] == i.setup.invalidation && levels[1] == i.setup.zoneEdge && levels[2] == StopPrice(i.setup);
  }

  lemma ChaseIsRead(i: Input, g: LifecycleSettings, p: Prices)
    requires i.quote.Some? && PricesOf(i.quote, i.setup.setup.symbol) == Some(p)
    ensures (Chasing(i.setup, p) <==> Chased(i)) && (WideSpread(i.setup, p) <==> SpreadTooWide(i))
    ensures Limit(i.setup).Some? ==>
              MaximumLimit(i.setup).Some? && (BeyondBuffer(i.setup, g, p) <==> ChasedTooFar(i, g))
  {
    hide PricesOf, Executable, MaximumLimit, Limit, EntryRef, Entry, ToBuy, ToSell, Quoted;
    PricesAreRead(i);
    PlacesAreRead(i.setup);
    if Limit(i.setup).Some? {
      var s := i.setup;
      var percent := if s.antiChaseOn && s.antiChasePercent.Some? then s.antiChasePercent.value
                     else g.tooFarPercent.GetOr(1.5);
      var base := if Entry(s).Some? && Entry(s).value != 0 then Entry(s).value else Limit(s).value;
      PercentOf(base as real, percent);
    }
  }

  lemma PercentOf(base: real, percent: real)
    ensures 100.0 * (base * (1.0 + percent / 100.0)) == base * (100.0 + percent)
    ensures 100.0 * (base * (1.0 - percent / 100.0)) == base * (100.0 - percent)
  {
    assert base * (1.0 + percent / 100.0) == base + base * (percent / 100.0);
    assert base * (1.0 - percent / 100.0) == base - base * (percent / 100.0);
    assert 100.0 * (base * (percent / 100.0)) == base * percent;
    assert base * (100.0 + percent) == 100.0 * base + base * percent;
    assert base * (100.0 - percent) == 100.0 * base - base * percent;
  }

  // --------------------------------------------------------------- verdicts

  /** Nothing found leaves the status open; no finding names the healthy status itself. */
  lemma FoundIsNotHealthy(i: Input, g: LifecycleSettings)
    ensures JudgeEntry(i, g).status != Some(WaitingActivation)
    ensures Verdict(i, g) == JudgeEntry(i, g).status.GetOr(WaitingActivation)
  {
    hide PricesOf, Broken, Chasing, WideSpread, StopOnRightSide, HasExpired, TooOld, BeyondBuffer, StopOrderReady,
      MaximumLimit, InitialStop, EntryEnabled, AutoExecution, BrokerProblem;
  }

  /** The verdict in one place: each case by its plain condition, in the order the engine consults them. */
  lemma VerdictCases(i: Input, g: LifecycleSettings)
    ensures Verdict(i, g)
            == if StopPrice(i.setup).None? then Blocked
               else if StopMisplaced(i.setup) then Invalidated
               else if OverTime(i) then Expired
               else if OverAge(i, g) then StaleSetup
               else if !Quoted(i) then (if i.inSession then Blocked else WaitingActivation)
               else if ThesisIsBroken(i) then Invalidated
               else if Chased(i) && i.setup.retestMin.Some? && i.setup.retestMax.Some? then MissedBreakoutWaitRetest
               else if Chased(i) && ChasedTooFar(i, g) then StaleSetup
               else if i.inSession && (BrokerUnsound(i.broker, g.trackerBlocks) || SpreadTooWide(i)) then Blocked
               else WaitingActivation
  {
    hide PricesOf, Broken, Chasing, WideSpread, StopOnRightSide, HasExpired, TooOld, BeyondBuffer, StopOrderReady,
      MaximumLimit, Limit, InitialStop, StopPrice, StopMisplaced, OverTime, OverAge, Quoted, Close, ThesisIsBroken,
      ChasedTooFar, SpreadTooWide, Executable, ToBuy, ToSell, EntryEnabled, AutoExecution;
    PlacesAreRead(i.setup);
    TimesAreRead(i, g);
    PricesAreRead(i);
    if i.quote.Some? { LevelsAreRead(i); }
    if Quoted(i) { ChaseIsRead(i, g, PricesOf(i.quote, i.setup.setup.symbol).value); }
  }

  /**
   Which price invalidates a setup: past a stop that is there, the times and the age, the verdict is INVALIDATED exactly
   if the close of a long is below the invalidation level, the edge of its zone or its stop, and of a short above one of
   them; and before that exactly if the stop is on the wrong side of the entry.
   */
  lemma InvalidatedExactly(i: Input, g: LifecycleSettings)
    ensures Verdict(i, g) == Invalidated
            <==> StopPrice(i.setup).Some?
                 && (StopMisplaced(i.setup) || (InOrder(i, g) && Quoted(i) && ThesisIsBroken(i)))
  {
    hide Verdict, StopPrice, StopMisplaced, OverTime, OverAge, Quoted, ThesisIsBroken, Chased, ChasedTooFar, SpreadTooWide,
      BrokerUnsound;
    VerdictCases(i, g);
  }

  /** Which level is named when the price invalidates: the invalidation level before the zone, the zone before the stop. */
  lemma BreakIsNamed(i: Input, g: LifecycleSettings)
    requires InOrder(i, g) && Quoted(i) && ThesisIsBroken(i)
    ensures var past := (level: Option<int>) =>
              level.Some? && if Short(i.setup) then Close(i) > level.value else Close(i) < level.value;
            JudgeEntry(i, g).reason
            == if past(i.setup.invalidation) then InvalidationLevelBroken
               else if past(i.setup.zoneEdge) then SupportBroken
               else ThesisBroken
  {
    hide PricesOf, StopOnRightSide, HasExpired, TooOld, Quoted, Close, OverTime, OverAge, StopMisplaced;
    PlacesAreRead(i.setup);
    TimesAreRead(i, g);
    PricesAreRead(i);
    LevelsAreRead(i);
  }

  /** EXPIRED: exactly when the stop is in place and the time is up. */
  lemma ExpiredExactly(i: Input, g: LifecycleSettings)
    ensures Verdict(i, g) == Expired <==> StopPrice(i.setup).Some? && !StopMisplaced(i.setup) && OverTime(i)
  {
    hide Verdict, StopPrice, StopMisplaced, OverTime, OverAge, Quoted, ThesisIsBroken, Chased, ChasedTooFar, SpreadTooWide,
      BrokerUnsound;
    VerdictCases(i, g);
  }

  /** STALE_SETUP: exactly when the setup is too old, or chased too far without a zone to retest. */
  lemma StaleExactly(i: Input, g: LifecycleSettings)
    ensures Verdict(i, g) == StaleSetup
            <==> (&& StopPrice(i.setup).Some? && !StopMisplaced(i.setup) && !OverTime(i)
                  && (OverAge(i, g)
                      || (Quoted(i) && !ThesisIsBroken(i) && Chased(i) && ChasedTooFar(i, g)
                          && !(i.setup.retestMin.Some? && i.setup.retestMax.Some?))))
  {
    hide Verdict, StopPrice, StopMisplaced, OverTime, OverAge, Quoted, ThesisIsBroken, Chased, ChasedTooFar, SpreadTooWide,
      BrokerUnsound;
    VerdictCases(i, g);
  }

  /** MISSED_BREAKOUT_WAIT_RETEST: exactly when a sound setup would be chased and has a zone to retest. */
  lemma MissedExactly(i: Input, g: LifecycleSettings)
    ensures Verdict(i, g) == MissedBreakoutWaitRetest
            <==> InOrder(i, g) && Quoted(i) && !ThesisIsBroken(i) && Chased(i)
                 && i.setup.retestMin.Some? && i.setup.retestMax.Some?
  {
    hide Verdict, StopPrice, StopMisplaced, OverTime, OverAge, Quoted, ThesisIsBroken, Chased, ChasedTooFar, SpreadTooWide,
      BrokerUnsound;
    VerdictCases(i, g);
  }

  // ------------------------------------------------------------- statuses

  const WATCHED := {WaitingBreakout, MissedBreakout, WaitingRetest, WaitingRebound, WaitingConfirmation, RearmedOnNewBase,
    WaitingEntrySignal, EntryReady}

  const REVALIDATED := {WaitingActivation, Blocked, StaleSetup, MissedBreakoutWaitRetest, ReconcilingExistingPosition}

  lemma EvaluableExactly(current: SetupStatus)
    ensures Evaluable(current) <==> current in WATCHED + REVALIDATED + {SetupStatus.Disabled, Validated}
    ensures Evaluable(current) ==> HealthyStatus(current) == if current in WATCHED then current else WaitingActivation
  {
  }

  /**
   From the verdict to the status: a setup that watches for its entry keeps its own status when nothing is found; every
   other setup that is revalidated at all takes the verdict. It may be armed unless the verdict says it is over, stale
   or missed.
   */
  lemma StatusExactly(current: SetupStatus, i: Input, g: LifecycleSettings)
    requires RoleOf(i.setup.setup.config, true) != ManagementOnly
    ensures var r := Revalidate(current, i, g);
            if current in WATCHED + REVALIDATED + {SetupStatus.Disabled, Validated} then
              && r.status == (if Verdict(i, g) == WaitingActivation && current in WATCHED then current else Verdict(i, g))
              && (r.canBeArmed <==> Verdict(i, g) !in {Invalidated, Expired, StaleSetup, MissedBreakoutWaitRetest})
            else r.status == current && !r.canBeArmed && !r.canSend
  {
    hide JudgeEntry, Verdict, EntryEnabled, AutoExecution, Evaluable, HealthyStatus, Sendable;
    EvaluableExactly(current);
    FoundIsNotHealthy(i, g);
  }

  /**
   A management-only setup is blocked exactly while the broker is unsound in an open session or its position is known to
   be gone; it comes back through reconciliation, is never sent, and cannot be armed while it is blocked.
   */
  lemma ManagementExactly(current: SetupStatus, i: Input, g: LifecycleSettings)
    requires RoleOf(i.setup.setup.config, true) == ManagementOnly
    ensures var r := Revalidate(current, i, g);
            var blocked := (i.inSession && BrokerUnsound(i.broker, true)) || i.broker.positionOpen == Some(false);
            && !r.canSend
            && if current in WATCHED + REVALIDATED + {SetupStatus.Disabled, Validated} then
                 && r.status == (if blocked then Blocked
                                 else if current == Blocked then ReconcilingExistingPosition else current)
                 && (r.canBeArmed <==> !blocked && current !in {StaleSetup, MissedBreakoutWaitRetest})
               else r.status == current && !r.canBeArmed
  {
    hide JudgeEntry, Verdict, EntryEnabled, AutoExecution, Evaluable, HealthyStatus, Sendable, BrokerProblem, BrokerUnsound;
    SoundnessIsRead(i.broker, true);
    EvaluableExactly(current);
  }

  lemma SoundnessIsRead(b: BrokerContext, trackerBlocks: bool)
    ensures BrokerProblem(b, trackerBlocks).Some? <==> BrokerUnsound(b, trackerBlocks)
  {
  }

  /** Nothing was seen at all. */
  ghost predicate NothingSeen(i: Input) {
    i.quote.None? && !i.broker.synced && i.broker.connected.None? && i.broker.tracker.None?
  }

  /**
   What is stored after a revalidation: an entry setup waiting, blocked, stale or missed takes the verdict, unless
   nothing was seen; a setup under any status that is not revalidated keeps it.
   */
  lemma AppliedExactly(current: SetupStatus, i: Input, g: LifecycleSettings)
    requires RoleOf(i.setup.setup.config, true) != ManagementOnly && i.setup.setup.id != ""
    ensures NothingSeen(i) || current !in REVALIDATED ==> ApplyStatus(current, i, g) == current
    ensures !NothingSeen(i) && current in REVALIDATED && current != ReconcilingExistingPosition ==>
              ApplyStatus(current, i, g) == Verdict(i, g)
  {
    if current in REVALIDATED && current != ReconcilingExistingPosition {
      VerdictAllowed(current, i, g);
    }
    hide Revalidate, Verdict, JudgeEntry, Explain;
  }

  /**
   When an order may be sent, in the input's own terms: exactly when the setup is one that is revalidated, the market is
   open, the role may enter, entry and setup are switched on, the stop's broker order is ready, structure and times are
   in order, the broker is sound, and a quote neither breaks the thesis, nor is beyond the limit, nor has too wide a
   spread.
   */
  lemma CanSendInPrices(current: SetupStatus, i: Input, g: LifecycleSettings)
    ensures Revalidate(current, i, g).canSend
            <==> (&& current in WATCHED + REVALIDATED + {SetupStatus.Disabled, Validated} && i.inSession
                  && RoleOf(i.setup.setup.config, true) != ManagementOnly
                  && i.setup.hasEntrySection && i.setup.setup.config.entry.enabled != Some(false)
                  && i.setup.enabled && i.setup.configEnabled
                  && i.setup.hasBrokerStopOrder
                  && (i.setup.trailingReady == Some(true)
                      || (i.setup.trailingReady.None? && i.setup.brokerOrderReady == Some(true)))
                  && InOrder(i, g) && !BrokerUnsound(i.broker, g.trackerBlocks)
                  && Quoted(i) && !ThesisIsBroken(i) && !Chased(i) && !SpreadTooWide(i))
  {
    hide PricesOf, Broken, Chasing, WideSpread, StopOnRightSide, HasExpired, TooOld, BeyondBuffer, MaximumLimit, Limit,
      InitialStop, StopPrice, StopMisplaced, OverTime, OverAge, Quoted, Close, ThesisIsBroken, ChasedTooFar, Chased,
      SpreadTooWide, Executable, ToBuy, ToSell, Revalidate;
    CanSendExactly(current, i, g);
    PlacesAreRead(i.setup);
    TimesAreRead(i, g);
    PricesAreRead(i);
    if i.quote.Some? { LevelsAreRead(i); }
    if Quoted(i) { ChaseIsRead(i, g, PricesOf(i.quote, i.setup.setup.symbol).value); }
  }
}
