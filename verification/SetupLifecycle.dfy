/**
 Revalidation of setups that have not traded yet: one decision over configuration, quotes and broker state, and its
 application through the table of allowed status changes. Prices are integer cents, times microseconds.
 */
module SetupLifecycle {
  import opened Common
  import opened Models
  import opened Repository
  import opened StateMachine
  import opened BrokerReality

  /** What revalidation reads of a setup beyond what order placement reads. */
  datatype LifecycleSetup = LifecycleSetup(
    setup: Setup,
    enabled: bool,
    configEnabled: bool,
    createdAt: Option<int>,
    hasEntrySection: bool,
    triggerPrice: Option<int>,
    entryPrice: Option<int>,
    trailingSwitchedOff: bool,
    initialStop: Option<int>,
    hasBrokerStopOrder: bool,
    trailingReady: Option<bool>,
    brokerOrderReady: Option<bool>,
    expiresAt: Option<int>,
    maxAgeDays: Option<real>,
    invalidation: Option<int>,
    zoneEdge: Option<int>,
    retestMin: Option<int>,
    retestMax: Option<int>,
    antiChaseOn: bool,
    antiChasePercent: Option<real>,
    maxSpreadBps: Option<real>)

  datatype Quote = Quote(
    symbol: string,
    price: Option<int>,
    bid: Option<int>,
    ask: Option<int>,
    close: Option<int>,
    spreadBps: Option<real>)

  /** What is known of the broker; a context with nothing in it is no evidence. */
  datatype BrokerContext = BrokerContext(
    synced: bool,
    connected: Option<bool>,
    tracker: Option<TrackerStatus>,
    riskUnknown: bool,
    positionOpen: Option<bool>)

  datatype LifecycleSettings = LifecycleSettings(
    maxAgeDays: Option<real>,
    tooFarPercent: Option<real>,
    trackerBlocks: bool)

  /** One revalidation: the setup as configured then, what could be seen, and when; `inSession` is the session then. */
  datatype Input = Input(
    setup: LifecycleSetup,
    quote: Option<Quote>,
    broker: BrokerContext,
    now: int,
    inSession: bool)

  datatype Reason =
    | NotRevalidated
    | SkippedNoData
    | StopOnWrongSide
    | TimeExpired
    | SetupTooOld
    | MarketClosed
    | MissingMarketData
    | InvalidationLevelBroken
    | SupportBroken
    | ThesisBroken
    | PriceTooFar
    | PriceBeyondLimit
    | BrokerDown
    | TrackerTooOld
    | RiskUnknownReason
    | SpreadTooWide
    | StopNotReady
    | EntryOff
    | PositionMissing
    | PositionFound
    | SetupValid

  datatype Warning =
    | NoLiveData
    | RetestZone
    | WithinBuffer
    | WhileClosed(why: Reason)
    | WatchOnly
    | PositionUnknown
    | NoEvidence

  datatype LifecycleResult = LifecycleResult(
    status: SetupStatus,
    reason: Reason,
    blocking: seq<Reason>,
    warnings: seq<Warning>,
    canBeArmed: bool,
    canSend: bool)

  // ---------------------------------------------------------------- statuses

  predicate Managed(s: SetupStatus) {
    s in {WaitingActivation, Blocked, StaleSetup, MissedBreakoutWaitRetest, ReconcilingExistingPosition}
  }

  predicate Waiting(s: SetupStatus) {
    s in {WaitingBreakout, MissedBreakout, WaitingRetest, WaitingRebound, WaitingConfirmation, RearmedOnNewBase,
          WaitingEntrySignal, EntryReady}
  }

  predicate Evaluable(s: SetupStatus) {
    Managed(s) || Waiting(s) || s in {SetupStatus.Disabled, Validated}
  }

  predicate Sendable(s: SetupStatus) {
    Waiting(s) || s == WaitingActivation
  }

  predicate Armable(s: SetupStatus) {
    s !in {Invalidated, Expired, StaleSetup, MissedBreakoutWaitRetest}
  }

  /** The status a setup has when every check passes. */
  function HealthyStatus(current: SetupStatus): SetupStatus {
    if Managed(current) || current in {SetupStatus.Disabled, Validated} then WaitingActivation else current
  }

  function LifecycleRole(s: LifecycleSetup): SetupRole {
    RoleOf(s.setup.config, true)
  }

  // ------------------------------------------------------------------ checks

  predicate IsLong(s: LifecycleSetup) {
    s.setup.config.direction != Short
  }

  predicate EntryEnabled(s: LifecycleSetup) {
    s.hasEntrySection && s.setup.config.entry.enabled != Some(false)
  }

  predicate AutoExecution(s: LifecycleSetup) {
    s.enabled && s.configEnabled
  }

  function EntryRef(s: LifecycleSetup): Option<int> {
    if !s.hasEntrySection then None else if s.triggerPrice.Some? then s.triggerPrice else s.entryPrice
  }

  /** The price beyond which the entry would be chased. */
  function MaximumLimit(s: LifecycleSetup): Option<int> {
    var e := s.setup.config.entry;
    if !s.hasEntrySection then None
    else if e.maximumLimitPrice.Some? then e.maximumLimitPrice
    else if e.limitPrice.Some? then e.limitPrice
    else if EntryRef(s).None? then None
    else
      var offset := e.limitOffset.GetOr(0);
      Some(EntryRef(s).value + (if IsLong(s) then offset else -offset))
  }

  function InitialStop(s: LifecycleSetup): Option<int> {
    if s.trailingSwitchedOff then None else s.initialStop
  }

  predicate StopOrderReady(s: LifecycleSetup) {
    s.hasBrokerStopOrder && (if s.trailingReady.Some? then s.trailingReady else s.brokerOrderReady) == Some(true)
  }

  /** The stop is on the losing side of the entry, when an entry price is configured at all. */
  predicate StopOnRightSide(s: LifecycleSetup)
    requires InitialStop(s).Some?
  {
    EntryRef(s).Some? ==>
      if IsLong(s) then InitialStop(s).value < EntryRef(s).value else InitialStop(s).value > EntryRef(s).value
  }

  predicate HasExpired(s: LifecycleSetup, now: int) {
    s.expiresAt.Some? && now >= s.expiresAt.value
  }

  predicate TooOld(s: LifecycleSetup, g: LifecycleSettings, now: int) {
    var days := if s.maxAgeDays.Some? then s.maxAgeDays.value else g.maxAgeDays.GetOr(30.0);
    s.createdAt.Some? && days > 0.0 && (now - s.createdAt.value) as real / 86_400_000_000.0 > days
  }

  function Positive(p: Option<int>): Option<int> {
    if p.Some? && p.value > 0 then p else None
  }

  function Or(a: Option<int>, b: Option<int>): Option<int> {
    if a.Some? then a else b
  }

  /** The prices of a quote: last or any other price, close, bid, ask. Nothing if no price is positive. */
  datatype Prices = Prices(price: int, bid: Option<int>, ask: Option<int>, close: int, spreadBps: Option<real>)

  function PricesOf(quote: Option<Quote>, symbol: string): Option<Prices> {
    if quote.None? then None
    else
      var q := quote.value;
      if symbol != "" && q.symbol != "" && Upper(q.symbol) != Upper(symbol) then None
      else
        var last := Or(Or(Positive(q.price), Positive(q.close)), Or(Positive(q.bid), Positive(q.ask)));
        if last.None? then None
        else Some(Prices(Positive(q.price).GetOr(last.value), Positive(q.bid), Positive(q.ask),
                         Positive(q.close).GetOr(Positive(q.price).GetOr(last.value)), q.spreadBps))
  }

  predicate Beyond(s: LifecycleSetup, a: int, b: int) {
    if IsLong(s) then a < b else a > b
  }

  /** Why the close breaks the thesis: the invalidation level, the edge of the zone, then the stop. */
  function Broken(s: LifecycleSetup, close: int): Option<Reason> {
    if s.invalidation.Some? && Beyond(s, close, s.invalidation.value) then Some(InvalidationLevelBroken)
    else if s.zoneEdge.Some? && Beyond(s, close, s.zoneEdge.value) then Some(SupportBroken)
    else if InitialStop(s).Some? && Beyond(s, close, InitialStop(s).value) then Some(ThesisBroken)
    else None
  }

  function Executable(s: LifecycleSetup, p: Prices): int {
    if IsLong(s) then p.ask.GetOr(p.price) else p.bid.GetOr(p.price)
  }

  /** The executable price is beyond the maximum limit. */
  predicate Chasing(s: LifecycleSetup, p: Prices) {
    MaximumLimit(s).Some?
    && (if IsLong(s) then Executable(s, p) > MaximumLimit(s).value else Executable(s, p) < MaximumLimit(s).value)
  }

  predicate BeyondBuffer(s: LifecycleSetup, g: LifecycleSettings, p: Prices)
    requires MaximumLimit(s).Some?
  {
    var percent := if s.antiChaseOn && s.antiChasePercent.Some? then s.antiChasePercent.value
                   else g.tooFarPercent.GetOr(1.5);
    var ref := if EntryRef(s).Some? && EntryRef(s).value != 0 then EntryRef(s).value else MaximumLimit(s).value;
    if IsLong(s) then Executable(s, p) as real > ref as real * (1.0 + percent / 100.0)
    else (Executable(s, p) as real) < ref as real * (1.0 - percent / 100.0)
  }

  function BrokerProblem(b: BrokerContext, trackerBlocks: bool): Option<Reason> {
    if b.connected == Some(false) then Some(BrokerDown)
    else if b.tracker in {Some(Stale), Some(NotRunning)} && trackerBlocks then Some(TrackerTooOld)
    else if b.riskUnknown then Some(RiskUnknownReason)
    else None
  }

  predicate WideSpread(s: LifecycleSetup, p: Prices) {
    p.spreadBps.Some? && s.maxSpreadBps.Some? && s.maxSpreadBps.value > 0.0 && p.spreadBps.value > s.maxSpreadBps.value
  }

  // ----------------------------------------------------------- the decision

  /** A finding without a status leaves the setup in its healthy status. */
  datatype Finding = Finding(status: Option<SetupStatus>, reason: Reason, blocking: seq<Reason>, warnings: seq<Warning>)

  function JudgeEntry(i: Input, g: LifecycleSettings): Finding {
    var s := i.setup;
    if InitialStop(s).None? then Finding(Some(Blocked), StopNotReady, [StopNotReady], [])
    else if !StopOnRightSide(s) then Finding(Some(Invalidated), StopOnWrongSide, [], [])
    else if HasExpired(s, i.now) then Finding(Some(Expired), TimeExpired, [], [])
    else if TooOld(s, g, i.now) then Finding(Some(StaleSetup), SetupTooOld, [], [])
    else
      var prices := PricesOf(i.quote, s.setup.symbol);
      if prices.Some? then JudgeMarket(i, g, prices.value)
      else if i.inSession then Finding(Some(Blocked), MissingMarketData, [MissingMarketData], [])
      else Finding(None, MarketClosed, [], [NoLiveData])
  }

  function JudgeMarket(i: Input, g: LifecycleSettings, p: Prices): Finding {
    var s := i.setup;
    if Broken(s, p.close).Some? then Finding(Some(Invalidated), Broken(s, p.close).value, [], [])
    else if !Chasing(s, p) then JudgeEnvironment(i, g, p, [], [])
    else if s.retestMin.Some? && s.retestMax.Some?
    then Finding(Some(MissedBreakoutWaitRetest), PriceTooFar, [], [RetestZone])
    else if BeyondBuffer(s, g, p) then Finding(Some(StaleSetup), PriceTooFar, [], [])
    else JudgeEnvironment(i, g, p, [PriceBeyondLimit], [WithinBuffer])
  }

  /** Broker and spread count only while the market is open; the rest blocks orders without changing the status. */
  function JudgeEnvironment(i: Input, g: LifecycleSettings, p: Prices, blocking: seq<Reason>, warnings: seq<Warning>)
    : Finding
  {
    var s := i.setup;
    var down := BrokerProblem(i.broker, g.trackerBlocks);
    var wide := WideSpread(s, p);
    if down.Some? && i.inSession then Finding(Some(Blocked), down.value, blocking + [down.value], warnings)
    else if wide && i.inSession then Finding(Some(Blocked), SpreadTooWide, blocking + [SpreadTooWide], warnings)
    else
      Finding(None, SetupValid,
              blocking + (if StopOrderReady(s) then [] else [StopNotReady]) + (if EntryEnabled(s) then [] else [EntryOff]),
              warnings + (if down.Some? then [WhileClosed(down.value)] else [])
              + (if wide then [WhileClosed(SpreadTooWide)] else []) + (if AutoExecution(s) then [] else [WatchOnly]))
  }

  /** The healthy status of a management-only setup is its own, and reconciliation once a position is found again. */
  function JudgeManagement(i: Input, current: SetupStatus): Finding {
    var down := BrokerProblem(i.broker, true);
    var noted := if down.Some? then [WhileClosed(down.value)] else [];
    if down.Some? && i.inSession then Finding(Some(Blocked), down.value, [down.value], [])
    else if i.broker.positionOpen == Some(false) then Finding(Some(Blocked), PositionMissing, [PositionMissing], noted)
    else
      var warnings := noted + (if i.broker.positionOpen.None? then [PositionUnknown] else []);
      if current == Blocked then Finding(Some(ReconcilingExistingPosition), PositionFound, [], warnings)
      else Finding(Some(current), SetupValid, [], warnings)
  }

  function Revalidate(current: SetupStatus, i: Input, g: LifecycleSettings): LifecycleResult {
    if !Evaluable(current) then LifecycleResult(current, NotRevalidated, [], [], false, false)
    else
      var management := LifecycleRole(i.setup) == ManagementOnly;
      var f := if management then JudgeManagement(i, current) else JudgeEntry(i, g);
      var status := f.status.GetOr(HealthyStatus(current));
      LifecycleResult(status, f.reason, f.blocking, f.warnings,
                      if management && f.blocking != [] then false else Armable(status),
                      && Sendable(status) && f.blocking == [] && i.inSession
                      && !management && EntryEnabled(i.setup) && AutoExecution(i.setup))
  }

  // ------------------------------------------------------------ application

  /** Nothing was ever seen: neither a quote nor a broker report. */
  predicate Blind(i: Input) {
    i.quote.None? && !(i.broker.synced || i.broker.connected.Some? || i.broker.tracker.Some?)
  }

  /** The status a setup is left in: unchanged when blind, unmanaged, or when the table refuses the target. */
  function ApplyStatus(current: SetupStatus, i: Input, g: LifecycleSettings): SetupStatus {
    var target := Revalidate(current, i, g).status;
    if Blind(i) || i.setup.setup.id == "" || !Managed(current) then current
    else if Explain(current, target, Some(LifecycleRole(i.setup))).Allowed() then target
    else current
  }

  /** The status after a sequence of revalidations. */
  function StatusAfter(start: SetupStatus, inputs: seq<Input>, g: LifecycleSettings): SetupStatus {
    if inputs == [] then start
    else ApplyStatus(StatusAfter(start, inputs[..|inputs| - 1], g), inputs[|inputs| - 1], g)
  }

  // -------------------------------------------------------- the closed form

  /** What an input says of any entry setup under management, whatever its status. */
  function Verdict(i: Input, g: LifecycleSettings): SetupStatus {
    JudgeEntry(i, g).status.GetOr(WaitingActivation)
  }

  predicate Recoverable(s: SetupStatus) {
    s in {WaitingActivation, Blocked, StaleSetup, MissedBreakoutWaitRetest}
  }

  predicate Final(s: SetupStatus) {
    s in {Invalidated, Expired}
  }

  predicate EntryInput(i: Input) {
    LifecycleRole(i.setup) != ManagementOnly && i.setup.setup.id != ""
  }

  /** Only two verdicts are final; every other keeps the setup recoverable, and the table lets each one through. */
  lemma VerdictAllowed(current: SetupStatus, i: Input, g: LifecycleSettings)
    requires Recoverable(current) && EntryInput(i)
    ensures Recoverable(Verdict(i, g)) || Final(Verdict(i, g))
    ensures Revalidate(current, i, g).status == Verdict(i, g)
    ensures Explain(current, Verdict(i, g), Some(LifecycleRole(i.setup))).Allowed()
  {
  }

  /** The first verdict INVALIDATED or EXPIRED among the inputs that were not blind. */
  function FirstFinal(inputs: seq<Input>, g: LifecycleSettings): Option<SetupStatus> {
    if inputs == [] then None
    else
      var earlier, last := FirstFinal(inputs[..|inputs| - 1], g), inputs[|inputs| - 1];
      if earlier.Some? then earlier
      else if !Blind(last) && Final(Verdict(last, g)) then Some(Verdict(last, g))
      else None
  }

  /** The latest input that was not blind. */
  function LastSeen(inputs: seq<Input>): Option<Input> {
    if inputs == [] then None
    else if !Blind(inputs[|inputs| - 1]) then Some(inputs[|inputs| - 1])
    else LastSeen(inputs[..|inputs| - 1])
  }

  function ClosedForm(start: SetupStatus, inputs: seq<Input>, g: LifecycleSettings): SetupStatus {
    if FirstFinal(inputs, g).Some? then FirstFinal(inputs, g).value
    else if LastSeen(inputs).Some? then Verdict(LastSeen(inputs).value, g)
    else start
  }

  /** What is final and what is seen last, by position in the sequence. */
  lemma {:induction false} FirstFinalMeans(inputs: seq<Input>, g: LifecycleSettings)
    ensures FirstFinal(inputs, g).Some? <==>
            exists k :: 0 <= k < |inputs| && !Blind(inputs[k]) && Final(Verdict(inputs[k], g))
    ensures FirstFinal(inputs, g).Some? ==>
              exists k :: 0 <= k < |inputs| && !Blind(inputs[k]) && FirstFinal(inputs, g) == Some(Verdict(inputs[k], g))
                          && Final(Verdict(inputs[k], g))
                          && forall j :: 0 <= j < k ==> Blind(inputs[j]) || !Final(Verdict(inputs[j], g))
  {
    hide Verdict, Blind;
    if inputs != [] {
      var init := inputs[..|inputs| - 1];
      FirstFinalMeans(init, g);
      if FirstFinal(init, g).Some? {
        var k :| 0 <= k < |init| && !Blind(init[k]) && FirstFinal(init, g) == Some(Verdict(init[k], g))
                 && Final(Verdict(init[k], g))
                 && forall j :: 0 <= j < k ==> Blind(init[j]) || !Final(Verdict(init[j], g));
        assert inputs[k] == init[k];
        assert forall j :: 0 <= j < k ==> inputs[j] == init[j];
      } else {
        assert forall j :: 0 <= j < |init| ==> inputs[j] == init[j];
      }
    }
  }

  lemma {:induction false} LastSeenMeans(inputs: seq<Input>)
    ensures LastSeen(inputs).None? <==> forall k :: 0 <= k < |inputs| ==> Blind(inputs[k])
    ensures LastSeen(inputs).Some? ==>
              exists k :: 0 <= k < |inputs| && LastSeen(inputs) == Some(inputs[k]) && !Blind(inputs[k])
                          && forall j :: k < j < |inputs| ==> Blind(inputs[j])
  {
    if inputs != [] && Blind(inputs[|inputs| - 1]) {
      LastSeenMeans(inputs[..|inputs| - 1]);
    }
  }

  /** Verdicts that are final are kept by every later application. */
  lemma FinalStays(current: SetupStatus, i: Input, g: LifecycleSettings)
    requires Final(current)
    ensures ApplyStatus(current, i, g) == current
  {
  }

  /**
   The status of an entry setup after any sequence of revalidations, whatever the path: the first verdict INVALIDATED
   or EXPIRED if there is one, otherwise the verdict of the last input that was not blind, otherwise the start.
   */
  lemma {:induction false} LifecycleClosedForm(start: SetupStatus, inputs: seq<Input>, g: LifecycleSettings)
    requires Recoverable(start) && forall k :: 0 <= k < |inputs| ==> EntryInput(inputs[k])
    ensures StatusAfter(start, inputs, g) == ClosedForm(start, inputs, g)
    ensures if FirstFinal(inputs, g).Some? then Final(ClosedForm(start, inputs, g))
            else Recoverable(ClosedForm(start, inputs, g))
  {
    if inputs != [] {
      var init, i := inputs[..|inputs| - 1], inputs[|inputs| - 1];
      LifecycleClosedForm(start, init, g);
      var before := StatusAfter(start, init, g);
      if Final(before) {
        FinalStays(before, i, g);
      } else {
        VerdictAllowed(before, i, g);
      }
      hide JudgeEntry, Revalidate, Explain, Verdict, HealthyStatus;
    }
  }

  /** Along the way the table never refuses a target. */
  lemma TableNeverRefuses(start: SetupStatus, inputs: seq<Input>, k: nat, g: LifecycleSettings)
    requires Recoverable(start) && forall j :: 0 <= j < |inputs| ==> EntryInput(inputs[j])
    requires k < |inputs| && Managed(StatusAfter(start, inputs[..k], g))
    ensures var current := StatusAfter(start, inputs[..k], g);
            Explain(current, Revalidate(current, inputs[k], g).status, Some(LifecycleRole(inputs[k].setup))).Allowed()
  {
    LifecycleClosedForm(start, inputs[..k], g);
    VerdictAllowed(StatusAfter(start, inputs[..k], g), inputs[k], g);
  }

  /** What an input says of a management-only setup that is blocked or reconciling. */
  function ManagementVerdict(i: Input): SetupStatus {
    var b := i.broker;
    if b.positionOpen == Some(false) then Blocked
    else if i.inSession && (b.connected == Some(false) || b.riskUnknown || b.tracker in {Some(Stale), Some(NotRunning)})
    then Blocked
    else ReconcilingExistingPosition
  }

  /** Management-only setups move between BLOCKED and RECONCILING as the last input that was not blind says. */
  lemma {:induction false} ManagementClosedForm(start: SetupStatus, inputs: seq<Input>, g: LifecycleSettings)
    requires start in {Blocked, ReconcilingExistingPosition}
    requires forall k :: 0 <= k < |inputs| ==> LifecycleRole(inputs[k].setup) == ManagementOnly
                                               && inputs[k].setup.setup.id != ""
    ensures StatusAfter(start, inputs, g)
            == if LastSeen(inputs).None? then start else ManagementVerdict(LastSeen(inputs).value)
  {
    if inputs != [] {
      var init, i := inputs[..|inputs| - 1], inputs[|inputs| - 1];
      ManagementClosedForm(start, init, g);
      ManagementStep(StatusAfter(start, init, g), i, g);
      hide ApplyStatus;
    }
  }

  lemma ManagementStep(current: SetupStatus, i: Input, g: LifecycleSettings)
    requires current in {Blocked, ReconcilingExistingPosition}
    requires LifecycleRole(i.setup) == ManagementOnly && i.setup.setup.id != ""
    ensures ApplyStatus(current, i, g) == if Blind(i) then current else ManagementVerdict(i)
  {
  }

  // ------------------------------------------------------- a closed market

  /**
   While the market is closed nothing about the broker or the spread degrades a setup: a setup with a stop is never
   blocked, and its verdict is the same whatever the broker's state and the quoted spread.
   */
  lemma ClosedMarketDoesNotBlock(i: Input, g: LifecycleSettings, broker: BrokerContext, spread: Option<real>)
    requires !i.inSession && InitialStop(i.setup).Some?
    ensures Verdict(i, g) != Blocked
    ensures var quote := if i.quote.Some? then Some(i.quote.value.(spreadBps := spread)) else None;
            Verdict(i, g) == Verdict(i.(broker := broker, quote := quote), g)
  {
    hide TooOld, HasExpired, StopOrderReady, BrokerProblem, StopOnRightSide, MaximumLimit;
  }

  /** Opening the market only ever turns a healthy verdict into BLOCKED; every other verdict is the same. */
  lemma SessionOnlyBlocks(i: Input, g: LifecycleSettings)
    requires !i.inSession
    ensures var open := Verdict(i.(inSession := true), g);
            open == Verdict(i, g) || (Verdict(i, g) == WaitingActivation && open == Blocked)
  {
    hide BeyondBuffer, TooOld, HasExpired, StopOrderReady, BrokerProblem, PricesOf;
  }

  // --------------------------------------------------- when orders may go out

  /**
   An order may be sent exactly when the setup is waiting for its entry and every condition holds at once: session,
   role, switches, a stop on the right side and ready at the broker, time left, a live price that neither breaks the
   thesis nor is beyond the maximum limit, a sound broker state and an acceptable spread.
   */
  lemma CanSendExactly(current: SetupStatus, i: Input, g: LifecycleSettings)
    ensures Revalidate(current, i, g).canSend
            <==> (&& Evaluable(current) && i.inSession && LifecycleRole(i.setup) != ManagementOnly
                  && EntryEnabled(i.setup) && AutoExecution(i.setup) && StopOrderReady(i.setup)
                  && InitialStop(i.setup).Some? && StopOnRightSide(i.setup)
                  && !HasExpired(i.setup, i.now) && !TooOld(i.setup, g, i.now)
                  && BrokerProblem(i.broker, g.trackerBlocks).None?
                  && var p := PricesOf(i.quote, i.setup.setup.symbol);
                     p.Some? && Broken(i.setup, p.value.close).None? && !Chasing(i.setup, p.value)
                     && !WideSpread(i.setup, p.value))
  {
    hide PricesOf, Broken, Chasing, WideSpread, StopOnRightSide, HasExpired, TooOld, BeyondBuffer, StopOrderReady,
      BrokerProblem, MaximumLimit;
  }

  // ---------------------------------------------------------------- objects

  class SetupLifecycleService {
    const repository: Database
    const settings: LifecycleSettings

    constructor (repository: Database, settings: LifecycleSettings)
      ensures this.repository == repository && this.settings == settings
    {
      this.repository, this.settings := repository, settings;
    }

    /** `current` is the status the caller read; only that setup's stored status is written, and only if it changes. */
    method RevalidateAndApply(current: SetupStatus, i: Input) returns (result: LifecycleResult)
      modifies repository`setups
      ensures result == if i.quote.None? && !i.broker.synced && i.broker.connected.None? && i.broker.tracker.None?
                        then LifecycleResult(current, SkippedNoData, [], [NoEvidence], Armable(current), false)
                        else Revalidate(current, i, settings)
      ensures var left := ApplyStatus(current, i, settings);
              repository.View() == if left == current then old(repository.View())
                                   else SetSetupStatus(old(repository.View()), i.setup.setup.id, left)
    {
      if Blind(i) {
        return LifecycleResult(current, SkippedNoData, [], [NoEvidence], Armable(current), false);
      }
      result := Revalidate(current, i, settings);
      if i.setup.setup.id == "" || !Managed(current) || result.status == current {
        return;
      }
      var decision := Explain(current, result.status, Some(LifecycleRole(i.setup)));
      if !decision.Allowed() {
        return;
      }
      repository.UpdateSetupStatus(i.setup.setup.id, result.status);
    }
  }
}
