/** What the stored counters of the circuit breakers say about the history of records that produced them. */
module KillSwitch {
  import opened Common
  import opened TradeGuards

  /** The records of the current session: the longest final stretch that falls on the last record's day. */
  function Session(h: seq<GuardEvent>): seq<GuardEvent> {
    if |h| <= 1 then h
    else if h[|h| - 2].now.day == h[|h| - 1].now.day then Session(h[..|h| - 1]) + [h[|h| - 1]]
    else [h[|h| - 1]]
  }

  function Entries(q: seq<GuardEvent>): nat {
    if q == [] then 0 else Entries(q[..|q| - 1]) + (if q[|q| - 1].EntrySubmitted? then 1 else 0)
  }

  function LosingCloses(q: seq<GuardEvent>): nat {
    if q == [] then 0
    else LosingCloses(q[..|q| - 1]) + (if q[|q| - 1].PositionClosed? && q[|q| - 1].pnl < 0 then 1 else 0)
  }

  function Realized(q: seq<GuardEvent>): int {
    if q == [] then 0 else Realized(q[..|q| - 1]) + (if q[|q| - 1].PositionClosed? then q[|q| - 1].pnl else 0)
  }

  /** How many of the latest closes lost money in a row; entries in between do not interrupt. */
  function LosingStreak(q: seq<GuardEvent>): nat {
    if q == [] then 0
    else
      var last := q[|q| - 1];
      if last.EntrySubmitted? then LosingStreak(q[..|q| - 1])
      else if last.pnl < 0 then LosingStreak(q[..|q| - 1]) + 1
      else 0
  }

  /** When a symbol last closed at a loss. */
  function LastLoss(q: seq<GuardEvent>, symbol: string): Option<int> {
    if q == [] then None
    else
      var last := q[|q| - 1];
      if last.PositionClosed? && last.pnl < 0 && Upper(last.symbol) == symbol then Some(last.now.at)
      else LastLoss(q[..|q| - 1], symbol)
  }

  // ------------------------------------------------------------ thresholds

  function Size(x: real): real {
    if x >= 0.0 then x else 0.0 - x
  }

  /** The loss limit of a day in cents: as set, otherwise so many units (3) of risk (1500); signs are ignored. */
  function LossLimit(g: GuardSettings): real {
    var units := if g.maxDailyLossR in {None, Some(0.0)} then 3.0 else g.maxDailyLossR.value;
    var unit := if g.maxRiskPerTrade in {None, Some(0)} then 1500 else g.maxRiskPerTrade.value;
    if g.maxDailyLoss.Some? then Size(g.maxDailyLoss.value as real) else Size(units) * Size(unit as real)
  }

  /** A count as set; absent and zero mean the default, and a negative count switches the threshold off. */
  function CountLimit(value: Option<int>, default: int): int {
    match value
    case None => default
    case Some(n) => if n == 0 then default else n
  }

  /** Closes of the stretch have lost the limit or more, net of gains. */
  predicate LostTheLimit(g: GuardSettings, q: seq<GuardEvent>) {
    LossLimit(g) > 0.0 && Realized(q) as real + LossLimit(g) <= 0.0
  }

  /** The last so many (3) closes all lost. */
  predicate LostInARow(g: GuardSettings, q: seq<GuardEvent>) {
    CountLimit(g.maxConsecutiveLosses, 3) >= 1 && LosingStreak(q) >= CountLimit(g.maxConsecutiveLosses, 3)
  }

  /** So many (5) entries were made. */
  predicate EnteredEnough(g: GuardSettings, q: seq<GuardEvent>) {
    CountLimit(g.maxTradesPerDay, 5) >= 1 && Entries(q) >= CountLimit(g.maxTradesPerDay, 5)
  }

  /** The threshold a stretch of records has reached, judged from the records alone: loss, then streak, then trades. */
  function Breach(g: GuardSettings, q: seq<GuardEvent>): Option<Cause> {
    if LostTheLimit(g, q) then Some(DailyLoss)
    else if LostInARow(g, q) then Some(ConsecutiveLosses)
    else if EnteredEnough(g, q) then Some(MaxTrades)
    else None
  }

  lemma SizeOfProduct(a: real, b: real)
    ensures RealAbs(a * b) == Size(a) * Size(b)
  {
    if a >= 0.0 && b >= 0.0 {
      assert a * b >= 0.0;
    } else if a < 0.0 && b < 0.0 {
      assert a * b == -a * -b && -a * -b >= 0.0;
    } else if a < 0.0 {
      assert a * b == -(-a * b) && -a * b >= 0.0;
    } else {
      assert a * b == -(a * -b) && a * -b >= 0.0;
    }
  }

  /** The limit the tracker computes is the limit of the settings; without any setting it is 45.00. */
  lemma LossLimitExactly(g: GuardSettings)
    ensures MaxDailyLoss(g) == LossLimit(g)
    ensures g.maxDailyLoss.None? && g.maxDailyLossR.None? && g.maxRiskPerTrade.None? ==> LossLimit(g) == 4500.0
  {
    var units := if g.maxDailyLossR in {None, Some(0.0)} then 3.0 else g.maxDailyLossR.value;
    var unit := Abs(Setting(g.maxRiskPerTrade, 1500)) as real;
    SizeOfProduct(units, unit);
  }

  /** What the tracker consults is what the records have reached. */
  lemma BreachExactly(g: GuardSettings, q: seq<GuardEvent>)
    ensures Breach(g, q) == ThresholdReached(g, Realized(q), LosingStreak(q), Entries(q))
  {
    hide MaxDailyLoss, LossLimit, Realized, LosingStreak, Entries;
    LossLimitExactly(g);
  }

  ghost predicate FirstBreach(g: GuardSettings, q: seq<GuardEvent>, k: int) {
    0 < k <= |q| && Breach(g, q[..k]).Some? && forall j :: 0 <= j < k ==> Breach(g, q[..j]).None?
  }

  ghost predicate Breached(g: GuardSettings, q: seq<GuardEvent>) {
    exists k :: 0 <= k <= |q| && Breach(g, q[..k]).Some?
  }

  /** The breaker is tripped exactly if some prefix of the session reached a threshold, by the first such prefix. */
  ghost predicate TripMatches(g: GuardSettings, tripped: Option<Trip>, q: seq<GuardEvent>) {
    && (tripped.Some? <==> Breached(g, q))
    && (tripped.Some? ==>
          exists k :: FirstBreach(g, q, k) && tripped.value == Trip(Breach(g, q[..k]).value, q[k - 1].now.at))
  }

  lemma NothingBreachesNothing(g: GuardSettings)
    ensures Breach(g, []).None?
  {
  }

  lemma BreachedSnoc(g: GuardSettings, q: seq<GuardEvent>, e: GuardEvent)
    ensures Breached(g, q + [e]) <==> Breached(g, q) || Breach(g, q + [e]).Some?
  {
    var q' := q + [e];
    assert forall k :: 0 <= k <= |q| ==> q'[..k] == q[..k];
    assert q'[..|q'|] == q';
  }

  /** One more record of the session: the trip keeps its cause and time if there was one. */
  lemma TripSnoc(g: GuardSettings, tripped: Option<Trip>, q: seq<GuardEvent>, e: GuardEvent)
    requires TripMatches(g, tripped, q)
    ensures TripMatches(g, if tripped.Some? then tripped
                           else if Breach(g, q + [e]).Some? then Some(Trip(Breach(g, q + [e]).value, e.now.at))
                           else None, q + [e])
  {
    var q' := q + [e];
    BreachedSnoc(g, q, e);
    assert forall k :: 0 <= k <= |q| ==> q'[..k] == q[..k];
    assert q'[..|q'|] == q';
    if tripped.Some? {
      var k :| FirstBreach(g, q, k) && tripped.value == Trip(Breach(g, q[..k]).value, q[k - 1].now.at);
      assert FirstBreach(g, q', k);
    } else if Breach(g, q').Some? {
      assert FirstBreach(g, q', |q'|);
    }
  }

  /** The stored counters are those of the session, whatever happened before it. */
  ghost predicate CountersMatch(s: TrackerState, q: seq<GuardEvent>) {
    && s.tradesOpened == Entries(q) && s.realizedPnl == Realized(q) && s.consecutiveLosses == LosingStreak(q)
    && s.losses == LosingCloses(q) && s.wins == |q| - Entries(q) - LosingCloses(q)
    && (forall symbol :: (symbol in s.lastLossExit <==> LastLoss(q, symbol).Some?)
                         && (symbol in s.lastLossExit ==> LastLoss(q, symbol) == Some(s.lastLossExit[symbol])))
  }

  lemma CountersSnoc(s: TrackerState, q: seq<GuardEvent>, e: GuardEvent)
    requires CountersMatch(s, q)
    ensures CountersMatch(Counted(s, e), q + [e])
  {
    assert (q + [e])[..|q|] == q;
  }

  /** A record taken on a day extends the session of that day, or starts one. */
  lemma RecordMatches(g: GuardSettings, s: TrackerState, q: seq<GuardEvent>, e: GuardEvent)
    requires g.breakersEnabled != Some(false) && CountersMatch(s, q) && TripMatches(g, s.tripped, q)
    ensures var s' := MaybeTrip(g, Counted(s, e), e.now.at);
            CountersMatch(s', q + [e]) && TripMatches(g, s'.tripped, q + [e])
  {
    hide Breach, ThresholdReached, TripMatches;
    BreachExactly(g, q + [e]);
    CountersSnoc(s, q, e);
    TripSnoc(g, s.tripped, q, e);
  }

  lemma FreshMatches(g: GuardSettings, s: TrackerState, day: int)
    requires s.tradingDay != Some(day)
    ensures CountersMatch(Rolled(s, day), []) && TripMatches(g, Rolled(s, day).tripped, [])
  {
    NothingBreachesNothing(g);
  }

  lemma RecordKeepsDay(g: GuardSettings, s: TrackerState, e: GuardEvent)
    ensures Record(g, s, e).tradingDay == Some(e.now.day)
  {
  }

  /**
   The kill switch, over every history of records and any change of days: the stored counters are those of the
   current session, and the breaker is tripped exactly if some prefix of the session lost the limit, ended in too many
   losing closes, or made too many entries, with the cause and time of the first such prefix.
   */
  lemma {:induction false} KillSwitch(g: GuardSettings, h: seq<GuardEvent>)
    requires g.breakersEnabled != Some(false) && h != []
    ensures var s := StateAfter(g, h);
            && s.tradingDay == Some(h[|h| - 1].now.day)
            && CountersMatch(s, Session(h))
            && TripMatches(g, s.tripped, Session(h))
  {
    hide MaybeTrip, Counted, CountersMatch, TripMatches;
    var init, e := h[..|h| - 1], h[|h| - 1];
    RecordKeepsDay(g, StateAfter(g, init), e);
    if init != [] {
      KillSwitch(g, init);
    }
    if init != [] && init[|init| - 1].now.day == e.now.day {
      RecordMatches(g, StateAfter(g, init), Session(init), e);
    } else {
      FreshMatches(g, StateAfter(g, init), e.now.day);
      RecordMatches(g, Rolled(StateAfter(g, init), e.now.day), [], e);
      assert [] + [e] == [e] == Session(h);
    }
  }

  /** A tripped breaker keeps its cause and time for the rest of the day: no later record clears or replaces it. */
  lemma TripIsSticky(g: GuardSettings, s: TrackerState, e: GuardEvent)
    requires s.tripped.Some? && s.tradingDay == Some(e.now.day)
    ensures Record(g, s, e).tripped == s.tripped && Record(g, s, e).tradingDay == s.tradingDay
  {
  }

  lemma {:induction false} TripOutlastsTheDay(g: GuardSettings, h: seq<GuardEvent>, more: seq<GuardEvent>)
    requires StateAfter(g, h).tripped.Some?
    requires forall i :: 0 <= i < |more| ==> StateAfter(g, h).tradingDay == Some(more[i].now.day)
    ensures StateAfter(g, h + more).tripped == StateAfter(g, h).tripped
    ensures StateAfter(g, h + more).tradingDay == StateAfter(g, h).tradingDay
  {
    if more == [] {
      assert h + more == h;
    } else {
      var init, e := more[..|more| - 1], more[|more| - 1];
      TripOutlastsTheDay(g, h, init);
      assert (h + more)[..|h + more| - 1] == h + init;
      TripIsSticky(g, StateAfter(g, h + init), e);
    }
  }

  /**
   Any tracker over the same store, however fresh, answers PAUSED at a moment exactly if breakers are not switched off,
   that moment is on the day of the last record and the session breached a threshold; it answers with the cause of the
   first breach. With breakers switched off nothing is ever tripped.
   */
  lemma PausedExactly(g: GuardSettings, h: seq<GuardEvent>, now: Moment)
    ensures var verdict := BreakerVerdict(g, StateAfter(g, h), now);
            && (verdict.Some? <==> && g.breakersEnabled != Some(false) && h != [] && now.day == h[|h| - 1].now.day
                                   && Breached(g, Session(h)))
            && (verdict.Some? ==> verdict == StateAfter(g, h).tripped && TripMatches(g, verdict, Session(h)))
            && (g.breakersEnabled == Some(false) ==> StateAfter(g, h).tripped.None?)
  {
    hide Breach, ThresholdReached, Rolled, CountersMatch, TripMatches;
    if g.breakersEnabled == Some(false) {
      OffNeverTrips(g, h);
    } else if h == [] {
      FreshIsQuiet(g, StateAfter(g, h), now);
    } else {
      KillSwitch(g, h);
      if now.day == h[|h| - 1].now.day {
        StandingVerdict(g, StateAfter(g, h), Session(h), now);
      } else {
        FreshIsQuiet(g, StateAfter(g, h), now);
      }
    }
  }

  lemma {:induction false} OffNeverTrips(g: GuardSettings, h: seq<GuardEvent>)
    requires g.breakersEnabled == Some(false)
    ensures StateAfter(g, h).tripped.None?
  {
    if h != [] { OffNeverTrips(g, h[..|h| - 1]); }
  }

  /** On another day, or before any record, the counters are fresh and no breaker answers. */
  lemma FreshIsQuiet(g: GuardSettings, s: TrackerState, now: Moment)
    requires s.tradingDay != Some(now.day)
    ensures BreakerVerdict(g, s, now).None?
  {
    hide MaxDailyLoss;
    NothingBreachesNothing(g);
    BreachExactly(g, []);
  }

  /** On the day itself the verdict is the stored trip. */
  lemma StandingVerdict(g: GuardSettings, s: TrackerState, q: seq<GuardEvent>, now: Moment)
    requires g.breakersEnabled != Some(false) && s.tradingDay == Some(now.day)
    requires CountersMatch(s, q) && TripMatches(g, s.tripped, q)
    ensures BreakerVerdict(g, s, now) == s.tripped
    ensures s.tripped.Some? <==> Breached(g, q)
  {
    hide Breach, ThresholdReached;
    BreachExactly(g, q);
    assert q[..|q|] == q;
  }

  /** Re-entry into a symbol is refused exactly while its last loss of the session is younger than the cooldown. */
  lemma CooldownExactly(g: GuardSettings, h: seq<GuardEvent>, symbol: string, now: Moment)
    requires h != []
    ensures CooldownBlocks(g, StateAfter(g, h), symbol, now)
            <==> (&& g.breakersEnabled != Some(false) && now.day == h[|h| - 1].now.day
                  && var loss := LastLoss(Session(h), Upper(symbol));
                     loss.Some? && now.at - loss.value < g.cooldownMinutes.GetOr(30) * 60
                     && g.cooldownMinutes.GetOr(30) > 0)
  {
    if g.breakersEnabled != Some(false) {
      KillSwitch(g, h);
    }
  }
}
