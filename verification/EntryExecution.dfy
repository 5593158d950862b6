/**
 One entry signal, from the session gate to the bracket: the gates in the order they are passed, and what can be said
 of an order that reaches the broker. The other modules supply each gate; here they stand in line.
 */
module EntryExecution {
  import opened Common
  import opened Models
  import opened Repository
  import opened SimulatedBroker
  import opened OrderManager
  import TradeGuards
  import EntryInterleaving
  import SessionPolicy
  import SetupLifecycle
  import RiskSizing
  import ReportAgeing
  import BracketSafety
  import BrokerReality

  datatype Settings = Settings(
    session: SessionPolicy.Policy,
    guards: Option<EntryInterleaving.Config>,
    lifecycle: Option<SetupLifecycle.LifecycleSettings>,
    limits: RiskSizing.RiskLimits,
    costs: RiskSizing.CostSettings,
    report: ReportAgeing.ReportSettings,
    defaults: Defaults)

  /**
   A signal and what is known when it is executed. `raw` is the stored setup, `seen` its effective form with the
   signal's overrides; `otherGuards` stands for the halt and exposure guards; `reportNow` is the time in microseconds.
   */
  datatype Signal = Signal(
    entryReady: bool,
    blockedBySession: bool,
    raw: SetupLifecycle.LifecycleSetup,
    status: SetupStatus,
    seen: SetupLifecycle.Input,
    entryPrice: Option<int>,
    spread: Option<real>,
    clock: SessionPolicy.Clock,
    now: TradeGuards.Moment,
    otherGuards: bool,
    account: RiskSizing.Account,
    stored: Option<ReportAgeing.Report>,
    reportNow: int)

  datatype Stop =
    | NotAnEntry
    | SessionPolicyBlocked
    | WindowBlocked
    | GuardBlocked
    | ManagementOnlyBlocked
    | AutoExecutionOff
    | LifecycleBlocked
    | PriceOrStopMissing
    | StopOrderNotReady
    | RiskRejected
    | CostsTooHigh
    | BrokerRealityUnsafe

  datatype State = State(world: World, tracker: TradeGuards.TrackerState)

  datatype Verdict = Stopped(at: Stop) | Refused(error: PlaceError) | Placed(order: OrderRow)

  function Setup(s: Signal): Models.Setup {
    s.seen.setup.setup
  }

  predicate GuardsLetPass(g: Settings, tracker: TradeGuards.TrackerState, s: Signal) {
    g.guards.None?
    || !g.guards.value.guardsEnabled
    || (EntryInterleaving.GuardsPass(g.guards.value, tracker, s.raw.setup.symbol, s.now) && s.otherGuards)
  }

  predicate LifecycleLetsPass(g: Settings, s: Signal) {
    g.lifecycle.None?
    || SetupLifecycle.Revalidate(s.status, s.seen, g.lifecycle.value).status
       !in {Invalidated, Expired, StaleSetup, MissedBreakoutWaitRetest, Blocked}
  }

  function Sized(g: Settings, s: Signal): RiskSizing.Evaluation
    requires s.entryPrice.Some?
  {
    RiskSizing.Evaluate(Setup(s).config, g.limits, s.account, s.entryPrice.value)
  }

  /** The first gate that stops the signal, if any. */
  function Gates(g: Settings, tracker: TradeGuards.TrackerState, s: Signal): Option<Stop> {
    if !s.entryReady then Some(NotAnEntry)
    else if s.blockedBySession then Some(SessionPolicyBlocked)
    else if SessionPolicy.ExecutionBlock(g.session, s.clock).Some? then Some(WindowBlocked)
    else if !GuardsLetPass(g, tracker, s) then Some(GuardBlocked)
    else if RoleOf(s.raw.setup.config, false) == ManagementOnly then Some(ManagementOnlyBlocked)
    else if !SetupLifecycle.AutoExecution(s.raw) then Some(AutoExecutionOff)
    else if !LifecycleLetsPass(g, s) then Some(LifecycleBlocked)
    else if s.entryPrice.None? || TrailingInitialStop(Setup(s).config).None? then Some(PriceOrStopMissing)
    else if !TrailingStopOrderReady(Setup(s).config) then Some(StopOrderNotReady)
    else if !Sized(g, s).Approved? then Some(RiskRejected)
    else if CostGate(g, s) == RiskSizing.GateNoGo then Some(CostsTooHigh)
    else if ReportAgeing.GateReasons(s.stored, g.report, s.reportNow) != [] then Some(BrokerRealityUnsafe)
    else None
  }

  function CostGate(g: Settings, s: Signal): RiskSizing.Gate
    requires s.entryPrice.Some? && Sized(g, s).Approved?
  {
    var e := Sized(g, s);
    RiskSizing.CostGate(g.costs, if e.decision.quantity >= 0 then e.decision.quantity else 0, s.spread, e.riskAmount)
  }

  /** Two gates also record what they saw on the setup. */
  function StatusWritten(w: World, g: Settings, s: Signal, at: Stop): World {
    match at
    case ManagementOnlyBlocked => WithSetupStatus(w, s.raw.setup.id, ErrorRequiresManualReview)
    case LifecycleBlocked =>
      if g.lifecycle.None? then w
      else
        var left := SetupLifecycle.ApplyStatus(s.status, s.seen.(setup := s.raw), g.lifecycle.value);
        if left == s.status then w else WithSetupStatus(w, s.raw.setup.id, left)
    case _ => w
  }

  function Execute(st: State, g: Settings, s: Signal, ids: (string, string), replies: BracketReplies)
    : (State, Verdict)
  {
    var stop := Gates(g, st.tracker, s);
    if stop.Some? then (st.(world := StatusWritten(st.world, g, s, stop.value)), Stopped(stop.value))
    else
      var placed := PlaceEntry(st.world, Setup(s), Sized(g, s).decision, ids, g.defaults, replies);
      match placed.result
      case Ok(order) =>
        (State(placed.world,
               if g.guards.None? then st.tracker
               else TradeGuards.Record(g.guards.value.guards, st.tracker,
                                       TradeGuards.EntrySubmitted(s.now, s.raw.setup.symbol))), Placed(order))
      case Err(error) =>
        (st.(world := if error == ManagementOnlyEntry
                      then WithSetupStatus(placed.world, s.raw.setup.id, ErrorRequiresManualReview)
                      else placed.world), Refused(error))
  }

  // -------------------------------------------------------------- theorems

  /** A stopped signal sends nothing, books nothing and counts nothing; at most its own setup's status is written. */
  lemma StoppedSendsNothing(st: State, g: Settings, s: Signal, ids: (string, string), replies: BracketReplies)
    requires Execute(st, g, s, ids, replies).1.Stopped?
    ensures var st' := Execute(st, g, s, ids, replies).0;
            && st'.world.broker == st.world.broker && st'.tracker == st.tracker
            && st'.world.store.orders == st.world.store.orders && st'.world.store.positions == st.world.store.positions
            && forall id :: id in st.world.store.setups && id != s.raw.setup.id ==>
                              id in st'.world.store.setups && st'.world.store.setups[id] == st.world.store.setups[id]
  {
    hide Gates, TradeGuards.Record, PlaceEntry, SetupLifecycle.ApplyStatus;
  }

  /** The one error that leaves its mark: an entry for a setup that only manages sends nothing and asks for review. */
  lemma RefusalIsRecorded(st: State, g: Settings, s: Signal, ids: (string, string), replies: BracketReplies)
    requires Execute(st, g, s, ids, replies).1 == Refused(ManagementOnlyEntry) && s.raw.setup.id in st.world.store.setups
    ensures var st', id := Execute(st, g, s, ids, replies).0, s.raw.setup.id;
            && st'.world.broker == st.world.broker && st'.world.store.orders == st.world.store.orders
            && st'.world.store.setups
               == st.world.store.setups[id := st.world.store.setups[id].(status := ErrorRequiresManualReview)]
  {
    hide Gates, TradeGuards.Record;
  }

  /** Every other refusal before the broker is asked leaves everything as it was. */
  lemma ModeMismatchChangesNothing(st: State, g: Settings, s: Signal, ids: (string, string), replies: BracketReplies)
    requires Execute(st, g, s, ids, replies).1 == Refused(ModeMismatch)
    ensures Execute(st, g, s, ids, replies).0 == st
  {
    hide Gates, TradeGuards.Record;
  }

  /** Entries are counted exactly when the bracket was placed without an exception. */
  lemma CountedExactly(st: State, g: Settings, s: Signal, ids: (string, string), replies: BracketReplies)
    requires g.guards.Some?
    ensures var (st', verdict) := Execute(st, g, s, ids, replies);
            st'.tracker == if verdict.Placed?
                           then TradeGuards.Record(g.guards.value.guards, st.tracker,
                                                   TradeGuards.EntrySubmitted(s.now, s.raw.setup.symbol))
                           else st.tracker
  {
    hide Gates, TradeGuards.Record, PlaceEntry;
  }

  /** The guards that are switched on have nothing against an entry. */
  ghost predicate GuardsClear(g: Settings, tracker: TradeGuards.TrackerState, s: Signal) {
    g.guards.Some? && g.guards.value.guardsEnabled ==>
      && TradeGuards.BreakerVerdict(g.guards.value.guards, tracker, s.now).None?
      && !TradeGuards.PdtBlocks(g.guards.value.guards, tracker, s.now.day)
      && !TradeGuards.CooldownBlocks(g.guards.value.guards, tracker, s.raw.setup.symbol, s.now)
      && s.otherGuards
  }

  /** A stored setup that may enter and is switched on. */
  predicate SwitchedOn(s: Signal) {
    s.raw.setup.config.role != Some(ManagementOnly) && s.raw.enabled && s.raw.configEnabled
  }

  /** The setup, seen afresh, is not over, stale, missed or blocked. */
  ghost predicate StillGood(g: Settings, s: Signal) {
    g.lifecycle.Some? ==>
      SetupLifecycle.Revalidate(s.status, s.seen, g.lifecycle.value).status
      !in {Invalidated, Expired, StaleSetup, MissedBreakoutWaitRetest, Blocked}
  }

  /** A size was approved, and what its two orders cost is an acceptable share of the risk. */
  ghost predicate SizedWithin(g: Settings, s: Signal) {
    && s.entryPrice.Some? && Sized(g, s).Approved? && Sized(g, s).decision.quantity >= 0
    && var e := Sized(g, s);
       var cost := RiskSizing.OrderCost(g.costs, e.decision.quantity, s.spread);
       g.costs.enabled && e.riskAmount > 0 ==> cost + cost <= RiskSizing.AllowedShare(g.costs) * e.riskAmount as real
  }

  /** The stored broker report lets entries pass. */
  ghost predicate ReportIsFine(g: Settings, s: Signal) {
    var r := g.report;
    !r.trackerEnabled
    || if s.stored.None? || !s.stored.value.hasSync then !(r.blockIfStale && r.guardTracker)
       else
         var seen := s.stored.value;
         && seen.connected && seen.status != Some(BrokerReality.Disconnected)
         && (seen.channels.Some? ==>
               seen.channels.value.ordersOk && seen.channels.value.positionsOk && seen.channels.value.accountOk)
         && (forall k :: 0 <= k < |seen.rows| ==> !ReportAgeing.Objectionable(r, seen.rows[k]))
         && ReportAgeing.RecentEnough(seen, r, s.reportNow)
  }

  lemma ReportGate(g: Settings, s: Signal)
    ensures ReportAgeing.GateReasons(s.stored, g.report, s.reportNow) == [] <==> ReportIsFine(g, s)
  {
    hide ReportAgeing.Objectionable, ReportAgeing.RecentEnough, ReportAgeing.GateReasons;
    ReportAgeing.GateOpensExactly(s.stored, g.report, s.reportNow);
  }

  lemma SizeGate(g: Settings, s: Signal)
    ensures SizedWithin(g, s)
            <==> (&& s.entryPrice.Some? && TrailingInitialStop(Setup(s).config).Some?
                  && TrailingStopOrderReady(Setup(s).config) && Sized(g, s).Approved?
                  && CostGate(g, s) != RiskSizing.GateNoGo)
  {
    hide RiskSizing.Evaluate, RiskSizing.OrderCost, RiskSizing.CostGate, RiskSizing.AllowedShare, RiskSizing.WarningShare;
    if s.entryPrice.Some? && Sized(g, s).Approved? {
      var e := Sized(g, s);
      RiskSizing.ApprovedMeans(Setup(s).config, g.limits, s.account, s.entryPrice.value);
      RiskSizing.ApprovedIsPrepared(Setup(s).config, g.limits, s.account, s.entryPrice.value);
      RiskSizing.NoGoExactly(g.costs, e.decision.quantity, s.spread, e.riskAmount);
    }
  }

  /**
   When a signal passes all gates: exactly when it is an executable entry that the session policy did not block, the
   policy lets it pass at the clock's time, the guards that are on are clear, the setup is switched on and still good, a
   size within costs was approved, and the broker report is fine.
   */
  lemma GatesPassExactly(g: Settings, tracker: TradeGuards.TrackerState, s: Signal)
    ensures Gates(g, tracker, s).None?
            <==> (&& s.entryReady && !s.blockedBySession && SessionPolicy.ExecutionBlock(g.session, s.clock).None?
                  && GuardsClear(g, tracker, s) && SwitchedOn(s) && StillGood(g, s) && SizedWithin(g, s)
                  && ReportIsFine(g, s))
  {
    hide SessionPolicy.ExecutionBlock, TradeGuards.BreakerVerdict, TradeGuards.PdtBlocks, TradeGuards.CooldownBlocks,
      SetupLifecycle.Revalidate, CostGate, Sized, SizedWithin, ReportIsFine, ReportAgeing.GateReasons;
    SizeGate(g, s);
    ReportGate(g, s);
  }

  /** The broker was asked for something: its history grew or an answer came back. */
  ghost predicate Reached(st: State, g: Settings, s: Signal, ids: (string, string), replies: BracketReplies) {
    var (st', verdict) := Execute(st, g, s, ids, replies);
    verdict.Placed? || st'.world.broker != st.world.broker
  }

  lemma ReachedMeansPassed(st: State, g: Settings, s: Signal, ids: (string, string), replies: BracketReplies)
    requires Reached(st, g, s, ids, replies)
    ensures Gates(g, st.tracker, s).None? && EntryGate(st.world, Setup(s)).None?
  {
    hide Gates, TradeGuards.Record, Bracket, EntryGate, SetupLifecycle.ApplyStatus, EntryRow, StopRow;
  }

  /**
   Whatever reaches the broker was allowed by every gate at once: the signal, its session and clock, breakers,
   day-trade limit and cooldown, a setup switched on and still good, an approved size whose costs are acceptable, a
   broker report that is fine, and the order manager's own conditions for a bracket.
   */
  lemma ReachedMeansAllGates(st: State, g: Settings, s: Signal, ids: (string, string), replies: BracketReplies)
    requires Reached(st, g, s, ids, replies)
    ensures s.entryReady && !s.blockedBySession
    ensures g.session.enabled && g.session.requireRth ==> SessionPolicy.RegularHours(s.clock)
    ensures g.session.enabled ==>
              && SessionPolicy.Waited(g.session, s.clock)
              && (g.session.windows.Some? ==>
                    SessionPolicy.WithinHours(g.session.windows.value, s.clock)
                    && !(g.session.windows.value.lunchMode == SessionPolicy.BlockLunch
                         && SessionPolicy.AtLunch(g.session.windows.value, s.clock)))
    ensures GuardsClear(g, st.tracker, s) && SwitchedOn(s) && StillGood(g, s) && SizedWithin(g, s) && ReportIsFine(g, s)
    ensures Setup(s).config.paperMode == st.world.paperAccount && Setup(s).config.role != Some(ManagementOnly)
    ensures BracketSafety.StopPrepared(Setup(s).config)
    ensures !exists id :: id in st.world.store.orders && st.world.store.orders[id].setupId == Setup(s).id
                          && st.world.store.orders[id].side == Buy
                          && st.world.store.orders[id].status in {Created, Submitted}
  {
    hide Reached, Gates, EntryGate, SessionPolicy.ExecutionBlock, SessionPolicy.RegularHours, SessionPolicy.Waited,
      SessionPolicy.WithinHours, SessionPolicy.AtLunch, GuardsClear, StillGood, SizedWithin, ReportIsFine,
      BracketSafety.StopPrepared;
    ReachedMeansPassed(st, g, s, ids, replies);
    GatesPassExactly(g, st.tracker, s);
    SessionPolicy.ExecutionPassesExactly(g.session, s.clock);
    BracketSafety.EntryPassesExactly(st.world, Setup(s));
  }

  /** And the other way round: a signal that passes every gate and the order manager's reaches a broker that takes it. */
  lemma PassedReachesBroker(st: State, g: Settings, s: Signal, ids: (string, string), replies: BracketReplies)
    requires replies.entry.Answers? && replies.entry.accepted
    requires s.entryReady && !s.blockedBySession && SessionPolicy.ExecutionBlock(g.session, s.clock).None?
    requires GuardsClear(g, st.tracker, s) && SwitchedOn(s) && StillGood(g, s) && SizedWithin(g, s) && ReportIsFine(g, s)
    requires EntryGate(st.world, Setup(s)).None?
    ensures Reached(st, g, s, ids, replies)
  {
    hide Gates, GuardsClear, StillGood, SizedWithin, ReportIsFine, EntryGate, SessionPolicy.ExecutionBlock,
      TradeGuards.Record, EntryRow, StopRow, Bracket, Sized;
    GatesPassExactly(g, st.tracker, s);
    SizeGate(g, s);
    var e := Sized(g, s);
    var parent := EntryRow(Setup(s), e.decision, ids.0, g.defaults);
    var child := StopRow(Setup(s), e.decision.quantity, TrailingInitialStop(Setup(s).config).value, ids.1, Some(ids.0),
                         g.defaults);
    BracketAsks(st.world, Setup(s), parent, child, replies);
  }

  /** A bracket whose entry is accepted has changed the broker. */
  lemma BracketAsks(w: World, setup: Models.Setup, parent: OrderRow, child: OrderRow, replies: BracketReplies)
    requires replies.entry.Answers? && replies.entry.accepted
    ensures Bracket(w, setup, parent, child, replies).world.broker != w.broker
  {
    hide AttachChild, Decimal;
    var sent := SendRow(w, parent, None, false, replies.entry);
    assert sent.world.broker.nextOrderId > w.broker.nextOrderId;
    AttachKeepsCounter(sent.world, setup, sent.result.value.0, child, replies);
  }

  lemma AttachKeepsCounter(w: World, setup: Models.Setup, entry: OrderRow, child: OrderRow, replies: BracketReplies)
    ensures AttachChild(w, setup, entry, child, replies).world.broker.nextOrderId >= w.broker.nextOrderId
  {
    hide Decimal;
  }

  /** What a stopped signal leaves on its setup when it is the wrong kind of setup, or seen to be no good. */
  lemma StoppedIsRecorded(st: State, g: Settings, s: Signal, ids: (string, string), replies: BracketReplies)
    requires s.entryReady && !s.blockedBySession && SessionPolicy.ExecutionBlock(g.session, s.clock).None?
    requires GuardsClear(g, st.tracker, s) && s.raw.setup.id in st.world.store.setups
    ensures var setups := Execute(st, g, s, ids, replies).0.world.store.setups;
            && (s.raw.setup.config.role == Some(ManagementOnly) ==>
                  s.raw.setup.id in setups && setups[s.raw.setup.id].status == ErrorRequiresManualReview)
            && (SwitchedOn(s) && g.lifecycle.Some? && !StillGood(g, s)
                && st.world.store.setups[s.raw.setup.id].status == s.status ==>
                  s.raw.setup.id in setups
                  && setups[s.raw.setup.id].status
                     == SetupLifecycle.ApplyStatus(s.status, s.seen.(setup := s.raw), g.lifecycle.value))
  {
    hide SessionPolicy.ExecutionBlock, TradeGuards.BreakerVerdict, TradeGuards.PdtBlocks, TradeGuards.CooldownBlocks,
      SetupLifecycle.Revalidate, SetupLifecycle.ApplyStatus, CostGate, Sized, ReportAgeing.GateReasons, PlaceEntry,
      TradeGuards.Record;
  }

  /**
   The whole way through: when a signal ends in a placed bracket, on a connector that keeps its contract, and the setup
   stands as ENTRY_ORDER_PLACED, the broker gained exactly two orders. The first is an untransmitted BUY of the approved
   size, of the configured type, with the highest price the size was computed from as its limit and the signal's price
   as its trigger; the second a transmitted SELL of the same size under it, at the configured stop. The entry is counted
   once, and nothing that did not end in a placed bracket is counted.
   */
  lemma PlacedGainsSizedBracket(st: State, g: Settings, s: Signal, ids: (string, string), replies: BracketReplies)
    requires Execute(st, g, s, ids, replies).1.Placed?
    requires IdsConsistent(st.world.broker) && Setup(s).id in st.world.store.setups && ids.0 != ids.1
    requires BracketSafety.KeepsContract(replies.entry) && BracketSafety.KeepsContract(replies.stop)
    ensures s.entryPrice.Some? && Sized(g, s).Approved?
    ensures g.guards.Some? ==>
              Execute(st, g, s, ids, replies).0.tracker
              == TradeGuards.Record(g.guards.value.guards, st.tracker,
                                    TradeGuards.EntrySubmitted(s.now, s.raw.setup.symbol))
    ensures var d, config := Sized(g, s).decision, Setup(s).config;
            var after := Execute(st, g, s, ids, replies).0.world;
            var entryId, stopId := Decimal(st.world.broker.nextOrderId + 1), Decimal(st.world.broker.nextOrderId + 2);
            && config.trailing.Some? && config.trailing.value.initialStop.Some?
            && Setup(s).id in after.store.setups
            && (after.store.setups[Setup(s).id].status == EntryOrderPlaced ==>
                  && entryId in after.broker.orders && stopId in after.broker.orders
                  && after.broker.orders - {entryId, stopId} == st.world.broker.orders
                  && (var o := after.broker.orders[entryId];
                      && o.side == Buy && o.symbol == Upper(Setup(s).symbol) && o.quantity == d.quantity && !o.transmit
                      && o.orderType == config.entry.orderType.GetOr(g.defaults.entryType)
                      && o.limitPrice == (if o.orderType == Limit || o.orderType == StopLimit
                                          then Some(RiskSizing.Ceiling(config, s.entryPrice.value)) else None)
                      && o.triggerPrice == (if o.orderType == Limit then None else s.entryPrice)
                      && o.stopPrice == (if o.orderType == StopMarket then s.entryPrice else None))
                  && (var o := after.broker.orders[stopId];
                      && o.side == Sell && o.symbol == Upper(Setup(s).symbol) && o.quantity == d.quantity && o.transmit
                      && o.parentId == Some(entryId) && o.stopPrice == config.trailing.value.initialStop
                      && o.limitPrice.None? && o.triggerPrice.None?))
  {
    hide Execute, Gates, PlaceEntry, TradeGuards.Record, RiskSizing.Evaluate, RiskSizing.Ceiling, IdsConsistent, Decimal,
      EntryRow, StopRow;
    PlacedIsPlaceEntry(st, g, s, ids, replies);
    PlacedIsSized(st, g, s, ids, replies);
    if g.guards.Some? { CountedExactly(st, g, s, ids, replies); }
    var e := Sized(g, s);
    RiskSizing.ApprovedMeans(Setup(s).config, g.limits, s.account, s.entryPrice.value);
    RiskSizing.OrdersCarryTheDecision(Setup(s), g.limits, s.account, s.entryPrice.value, ids, g.defaults);
    BracketSafety.BracketAllOrNothing(st.world, Setup(s), e.decision, ids, g.defaults, replies);
  }

  /**
   And what it can lose, with any connector, whatever it answered: as long as the broker holds the entry of a long limit
   or stop-limit signal, any fill at or below the limit the broker holds, stopped at the configured stop and with both
   orders paid, loses at most (1 + allowed share) times the risk budget.
   */
  lemma PlacedIsBounded(st: State, g: Settings, s: Signal, ids: (string, string), replies: BracketReplies, fill: int)
    requires Execute(st, g, s, ids, replies).1.Placed? && IdsConsistent(st.world.broker)
    requires Setup(s).config.direction == Long && g.costs.enabled && RiskSizing.AllowedShare(g.costs) >= -1.0
    requires Setup(s).config.entry.orderType.GetOr(g.defaults.entryType) in {Limit, StopLimit}
    ensures Setup(s).config.trailing.Some? && Setup(s).config.trailing.value.initialStop.Some?
    ensures var entryId := Decimal(st.world.broker.nextOrderId + 1);
            var orders := Execute(st, g, s, ids, replies).0.world.broker.orders;
            entryId in orders ==>
              var o, stop := orders[entryId], Setup(s).config.trailing.value.initialStop.value;
              && o.quantity > 0 && o.limitPrice.Some?
              && (fill <= o.limitPrice.value ==>
                    ((fill - stop) * o.quantity) as real
                    + RiskSizing.OrderCost(g.costs, o.quantity, s.spread)
                    + RiskSizing.OrderCost(g.costs, o.quantity, s.spread)
                    <= (1.0 + RiskSizing.AllowedShare(g.costs)) * RiskSizing.RiskBudget(Setup(s).config, g.limits) as real)
  {
    hide Execute, PlaceEntry, RiskSizing.Evaluate, RiskSizing.OrderCost, RiskSizing.AllowedShare, RiskSizing.RiskBudget,
      IdsConsistent, Decimal, EntryRow, CostGate;
    PlacedIsPlaceEntry(st, g, s, ids, replies);
    PlacedIsSized(st, g, s, ids, replies);
    var e := Sized(g, s);
    var entryId := Decimal(st.world.broker.nextOrderId + 1);
    RiskSizing.ApprovedMeans(Setup(s).config, g.limits, s.account, s.entryPrice.value);
    BracketSafety.EntryAsSent(st.world, Setup(s), e.decision, ids, g.defaults, replies);
    var orders := Execute(st, g, s, ids, replies).0.world.broker.orders;
    if entryId in orders {
      HeldIsBounded(g, s, orders[entryId], fill);
    }
  }

  /** The same of any order that carries the entry of a signal whose size is approved at acceptable costs. */
  lemma HeldIsBounded(g: Settings, s: Signal, o: BrokerOrder, fill: int)
    requires s.entryPrice.Some? && Sized(g, s).Approved? && CostGate(g, s) != RiskSizing.GateNoGo
    requires Setup(s).config.direction == Long && g.costs.enabled && RiskSizing.AllowedShare(g.costs) >= -1.0
    requires Setup(s).config.entry.orderType.GetOr(g.defaults.entryType) in {Limit, StopLimit}
    requires Carries(o, EntryRow(Setup(s), Sized(g, s).decision, o.clientOrderId, g.defaults))
    ensures o.quantity > 0 && o.limitPrice.Some?
    ensures fill <= o.limitPrice.value ==>
              ((fill - Sized(g, s).decision.stopLoss) * o.quantity) as real
              + RiskSizing.OrderCost(g.costs, o.quantity, s.spread)
              + RiskSizing.OrderCost(g.costs, o.quantity, s.spread)
              <= (1.0 + RiskSizing.AllowedShare(g.costs)) * RiskSizing.RiskBudget(Setup(s).config, g.limits) as real
  {
    hide RiskSizing.Evaluate, RiskSizing.OrderCost, RiskSizing.CostGate, RiskSizing.AllowedShare, RiskSizing.RiskBudget,
      EntryRow, StopRow, RiskSizing.Ceiling;
    var e := Sized(g, s);
    RiskSizing.ApprovedMeans(Setup(s).config, g.limits, s.account, s.entryPrice.value);
    RiskSizing.OrdersCarryTheDecision(Setup(s), g.limits, s.account, s.entryPrice.value, (o.clientOrderId, ""), g.defaults);
    if fill <= o.limitPrice.value {
      RiskSizing.LossAndCostBound(Setup(s), g.limits, s.account, s.entryPrice.value, g.defaults, o, fill, g.costs,
                                  s.spread);
    }
  }

  lemma PlacedIsSized(st: State, g: Settings, s: Signal, ids: (string, string), replies: BracketReplies)
    requires Execute(st, g, s, ids, replies).1.Placed?
    ensures s.entryPrice.Some? && Sized(g, s).Approved? && CostGate(g, s) != RiskSizing.GateNoGo
  {
    hide Execute, Gates, PlaceEntry, SizedWithin, Sized, CostGate;
    assert Reached(st, g, s, ids, replies);
    ReachedMeansPassed(st, g, s, ids, replies);
    GatesPassExactly(g, st.tracker, s);
    SizeGate(g, s);
  }

  lemma PlacedIsPlaceEntry(st: State, g: Settings, s: Signal, ids: (string, string), replies: BracketReplies)
    requires Execute(st, g, s, ids, replies).1.Placed?
    ensures s.entryPrice.Some?
    ensures var placed := PlaceEntry(st.world, Setup(s), Sized(g, s).decision, ids, g.defaults, replies);
            placed.result.Ok? && Execute(st, g, s, ids, replies).0.world == placed.world
  {
    hide PlaceEntry, RiskSizing.Evaluate;
  }
}
