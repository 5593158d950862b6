/**
 From a signal to a sized order and what it can lose: approval, position size, the limit price sent, transaction costs.
 Prices and budgets are integer cents; costs and ratios are exact reals.
 */
module RiskSizing {
  import opened Common
  import opened Models
  import opened OrderManager
  import opened BracketSafety

  datatype RiskLimits = RiskLimits(
    maxOpenPositions: int,
    maxPositionAmount: int,
    maxRiskPerTrade: int,
    maxDailyLoss: int,
    maxTotalExposure: int,
    allowShort: bool)

  datatype RiskRefusal =
    | RoleCannotEnter
    | EntryDisabled
    | EntryPriceNotPositive
    | StopMissing
    | StopNotPositive
    | StopOrderNotReady
    | WorstCaseNotPositive
    | BadDirection
    | ShortDisabled
    | StopOnWrongSide
    | TooManyPositions
    | DailyLossReached
    | NoRiskBudget
    | NoExposureLeft
    | QuantityZero

  datatype Evaluation =
    | Refused(why: RiskRefusal)
    | Approved(decision: RiskDecision, positionAmount: int, riskAmount: int)

  /** The account as the engine sees it when it decides. */
  datatype Account = Account(openPositions: int, exposure: int, dailyPnl: int)

  /** The highest price a stop-limit entry can fill at; the trigger for every other type. */
  function WorstCaseEntryPrice(config: SetupConfig, trigger: int): int {
    var e := config.entry;
    if e.orderType.GetOr(StopLimit) != StopLimit then trigger
    else if e.maximumLimitPrice.Some? then e.maximumLimitPrice.value
    else if e.limitPrice.Some? then e.limitPrice.value
    else trigger + e.limitOffset.GetOr(0)
  }

  function RiskPerShare(long: bool, price: int, stop: int): int {
    if long then price - stop else stop - price
  }

  /** The smaller of what the risk budget and the money budget allow. */
  function PositionSize(price: int, riskPerShare: int, maxRisk: int, maxAmount: int): int
    requires price > 0 && riskPerShare > 0
  {
    Min(maxRisk / riskPerShare, maxAmount / price)
  }

  function MaxRisk(config: SetupConfig, limits: RiskLimits): int {
    config.maxRisk.GetOr(limits.maxRiskPerTrade)
  }

  /** The money budget, capped by what total exposure still allows. */
  function Budget(config: SetupConfig, limits: RiskLimits, account: Account): int {
    Min(config.maxPositionAmount.GetOr(limits.maxPositionAmount), limits.maxTotalExposure - account.exposure)
  }

  function Evaluate(config: SetupConfig, limits: RiskLimits, account: Account, entryPrice: int): Evaluation {
    var stop := TrailingInitialStop(config);
    if RoleOf(config, true) == ManagementOnly then Refused(RoleCannotEnter)
    else if config.entry.enabled == Some(false) then Refused(EntryDisabled)
    else if entryPrice <= 0 then Refused(EntryPriceNotPositive)
    else if stop.None? then Refused(StopMissing)
    else if stop.value <= 0 then Refused(StopNotPositive)
    else if !TrailingStopOrderReady(config) then Refused(StopOrderNotReady)
    else
      var price := WorstCaseEntryPrice(config, entryPrice);
      if price <= 0 then Refused(WorstCaseNotPositive)
      else if config.direction == OtherDirection then Refused(BadDirection)
      else if config.direction == Short && !limits.allowShort then Refused(ShortDisabled)
      else if RiskPerShare(config.direction == Long, price, stop.value) <= 0 then Refused(StopOnWrongSide)
      else if account.openPositions >= limits.maxOpenPositions then Refused(TooManyPositions)
      else if account.dailyPnl <= -(Abs(limits.maxDailyLoss) as int) then Refused(DailyLossReached)
      else if config.maxPositionAmount.GetOr(limits.maxPositionAmount) <= 0 || MaxRisk(config, limits) <= 0
      then Refused(NoRiskBudget)
      else if Budget(config, limits, account) <= 0 then Refused(NoExposureLeft)
      else Size(config, limits, account, entryPrice, price, stop.value)
  }

  function Size(config: SetupConfig, limits: RiskLimits, account: Account, entryPrice: int, price: int, stop: int)
    : Evaluation
    requires price > 0 && RiskPerShare(config.direction == Long, price, stop) > 0
  {
    var perShare := RiskPerShare(config.direction == Long, price, stop);
    var quantity := PositionSize(price, perShare, MaxRisk(config, limits), Budget(config, limits, account));
    if quantity <= 0 then Refused(QuantityZero)
    else Approved(Models.RiskDecision(quantity, price, stop, Some(entryPrice)), quantity * price, quantity * perShare)
  }

  // ------------------------------------------------------------------ costs

  /** Cost settings in cents, with the defaults the engine falls back to. */
  datatype CostSettings = CostSettings(
    enabled: bool,
    commissionPerOrder: Option<real>,
    commissionPerShare: Option<real>,
    regulatoryPerOrder: Option<real>,
    slippagePerShare: Option<real>,
    maxRatio: Option<real>,
    warnRatio: Option<real>,
    minSlippage: Option<real>,
    spreadFraction: Option<real>)

  datatype Gate = GateOk | GateWarning | GateNoGo

  /** "Value or default": here zero also falls back. */
  function Ratio(value: Option<real>, default: real): real {
    if value.None? || value.value == 0.0 then default else value.value
  }

  function UsableSpread(spread: Option<real>): real {
    if spread.Some? && spread.value > 0.0 then spread.value else 0.0
  }

  function RoundTripCost(c: CostSettings, quantity: nat, spread: Option<real>): real {
    var q := quantity as real;
    var commissions := 2.0 * (c.commissionPerOrder.GetOr(100.0) + c.commissionPerShare.GetOr(0.5) * q);
    var regulatory := 2.0 * c.regulatoryPerOrder.GetOr(5.0);
    var slippage := 2.0 * c.slippagePerShare.GetOr(1.0) * q;
    var spreadCost := 2.0 * (UsableSpread(spread) / 2.0) * q;
    commissions + regulatory + slippage + spreadCost
  }

  /** The share of the risk that costs may take: as set, 30% when absent or zero. */
  function AllowedShare(c: CostSettings): real {
    match c.maxRatio
    case None => 0.30
    case Some(share) => if share == 0.0 then 0.30 else share
  }

  /** The share at which costs are worth a warning: as set, 15% when absent or zero. */
  function WarningShare(c: CostSettings): real {
    match c.warnRatio
    case None => 0.15
    case Some(share) => if share == 0.0 then 0.15 else share
  }

  /** What one order is expected to cost: its fees, and on each share commission, slippage and half the spread. */
  function OrderCost(c: CostSettings, quantity: nat, spread: Option<real>): real {
    c.commissionPerOrder.GetOr(100.0) + c.regulatoryPerOrder.GetOr(5.0)
    + (c.commissionPerShare.GetOr(0.5) + c.slippagePerShare.GetOr(1.0)
       + (if spread.Some? && spread.value >= 0.0 then spread.value / 2.0 else 0.0)) * quantity as real
  }

  /** A round trip costs what its two orders cost. */
  lemma RoundTripIsTwoOrders(c: CostSettings, quantity: nat, spread: Option<real>)
    ensures RoundTripCost(c, quantity, spread) == OrderCost(c, quantity, spread) + OrderCost(c, quantity, spread)
  {
    var q := quantity as real;
    var a, b, h := c.commissionPerShare.GetOr(0.5), c.slippagePerShare.GetOr(1.0), UsableSpread(spread) / 2.0;
    assert (a + b + h) * q == a * q + b * q + h * q;
    assert 2.0 * b * q == b * q + b * q && 2.0 * h * q == h * q + h * q;
  }

  function CostGate(c: CostSettings, quantity: nat, spread: Option<real>, risk: int): Gate {
    if !c.enabled || risk <= 0 then GateOk
    else
      var ratio := RoundTripCost(c, quantity, spread) / risk as real;
      if ratio > Ratio(c.maxRatio, 0.30) then GateNoGo
      else if ratio > Ratio(c.warnRatio, 0.15) then GateWarning
      else GateOk
  }

  /** What a paper fill adds to (or, for a short, takes from) the price. */
  function PaperSlippage(c: CostSettings, spread: Option<real>): real {
    var byMinimum, bySpread := Ratio(c.minSlippage, 1.0), Ratio(c.spreadFraction, 0.5) * UsableSpread(spread);
    if byMinimum < bySpread then bySpread else byMinimum
  }

  function PaperFillPrice(c: CostSettings, price: real, spread: Option<real>, short: bool): real {
    if short then price - PaperSlippage(c, spread) else price + PaperSlippage(c, spread)
  }

  // ------------------------------------------------------------ size is exact

  /** A whole number of units fits a budget exactly when it is at most the floor of the quotient. */
  lemma FitsExactly(q: nat, unit: int, budget: int)
    requires unit > 0
    ensures q * unit <= budget <==> q <= budget / unit
  {
    var n := budget / unit;
    assert budget == n * unit + budget % unit;
    if q <= n {
      MulMonotone(q, n, unit);
    } else {
      MulMonotone(n + 1, q, unit);
    }
  }

  lemma MulMonotone(a: int, b: int, unit: int)
    requires a <= b && unit >= 0
    ensures a * unit <= b * unit
  {
    assert (b - a) * unit >= 0;
  }

  /** What an approval says about itself. */
  lemma ApprovedMeans(config: SetupConfig, limits: RiskLimits, account: Account, entryPrice: int)
    requires Evaluate(config, limits, account, entryPrice).Approved?
    ensures var e := Evaluate(config, limits, account, entryPrice);
            var d := e.decision;
            var perShare := RiskPerShare(config.direction == Long, d.entryPrice, d.stopLoss);
            && d.entryPrice == WorstCaseEntryPrice(config, entryPrice) > 0 && d.triggerPrice == Some(entryPrice)
            && TrailingInitialStop(config) == Some(d.stopLoss) && perShare > 0
            && d.quantity == PositionSize(d.entryPrice, perShare, MaxRisk(config, limits), Budget(config, limits, account))
            && d.quantity > 0 && e.riskAmount == d.quantity * perShare && e.positionAmount == d.quantity * d.entryPrice
  {
    hide TrailingStopOrderReady, WorstCaseEntryPrice, TrailingInitialStop, PositionSize;
  }

  /** The most that may be lost, in cents: the setup's own figure, otherwise the account's. */
  function RiskBudget(config: SetupConfig, limits: RiskLimits): int {
    match config.maxRisk
    case Some(own) => own
    case None => limits.maxRiskPerTrade
  }

  /** The most that may be spent on the position, likewise. */
  function AmountBudget(config: SetupConfig, limits: RiskLimits): int {
    match config.maxPositionAmount
    case Some(own) => own
    case None => limits.maxPositionAmount
  }

  lemma BudgetsExactly(config: SetupConfig, limits: RiskLimits, account: Account, x: int)
    ensures MaxRisk(config, limits) == RiskBudget(config, limits)
    ensures x <= Budget(config, limits, account)
            <==> x <= AmountBudget(config, limits) && account.exposure + x <= limits.maxTotalExposure
  {
  }

  /** The highest price the entry may be filled at: the limit of a stop-limit, otherwise the trigger. */
  function Ceiling(config: SetupConfig, trigger: int): int {
    var e := config.entry;
    match e.orderType.GetOr(StopLimit)
    case StopLimit =>
      (match (e.maximumLimitPrice, e.limitPrice)
       case (Some(most), _) => most
       case (None, Some(limit)) => limit
       case (None, None) => e.limitOffset.GetOr(0) + trigger)
    case _ => trigger
  }

  lemma CeilingExactly(config: SetupConfig, trigger: int)
    ensures WorstCaseEntryPrice(config, trigger) == Ceiling(config, trigger)
  {
  }

  /**
   The approved quantity is the largest that fits, both ways: at the distance from the highest fill to the stop it
   stays within the risk budget, at the highest fill within the setup's money budget and within the total exposure.
   */
  lemma QuantityIsLargest(config: SetupConfig, limits: RiskLimits, account: Account, entryPrice: int, q: nat)
    requires Evaluate(config, limits, account, entryPrice).Approved?
    ensures var d := Evaluate(config, limits, account, entryPrice).decision;
            && d.entryPrice == Ceiling(config, entryPrice)
            && (q <= d.quantity
                <==> && q * Abs(d.entryPrice - d.stopLoss) <= RiskBudget(config, limits)
                     && q * d.entryPrice <= AmountBudget(config, limits)
                     && account.exposure + q * d.entryPrice <= limits.maxTotalExposure)
  {
    hide Evaluate, Ceiling, WorstCaseEntryPrice, RiskBudget, AmountBudget, MaxRisk, Budget;
    ApprovedMeans(config, limits, account, entryPrice);
    CeilingExactly(config, entryPrice);
    var d := Evaluate(config, limits, account, entryPrice).decision;
    BudgetsExactly(config, limits, account, q * d.entryPrice);
    FitsExactly(q, RiskPerShare(config.direction == Long, d.entryPrice, d.stopLoss), MaxRisk(config, limits));
    FitsExactly(q, d.entryPrice, Budget(config, limits, account));
  }

  /**
   An entry is approved exactly when the role may enter, the entry is on, the stop is prepared at the broker and stands
   on the losing side of the highest fill, the direction is allowed, there are not too many positions, the day's loss is
   not reached, and one share fits the risk budget, the money budget and the exposure.
   */
  lemma ApprovedExactly(config: SetupConfig, limits: RiskLimits, account: Account, entryPrice: int)
    ensures Evaluate(config, limits, account, entryPrice).Approved?
            <==> (&& config.role != Some(ManagementOnly) && !(config.role.None? && config.isPositionManagement)
                  && config.entry.enabled != Some(false) && StopPrepared(config)
                  && entryPrice > 0 && Ceiling(config, entryPrice) > 0
                  && var price, stop := Ceiling(config, entryPrice), config.trailing.value.initialStop.value;
                     && ((config.direction == Long && stop < price)
                         || (config.direction == Short && limits.allowShort && price < stop))
                     && account.openPositions < limits.maxOpenPositions
                     && (account.dailyPnl > limits.maxDailyLoss || account.dailyPnl > -limits.maxDailyLoss)
                     && Abs(price - stop) <= RiskBudget(config, limits)
                     && price <= AmountBudget(config, limits) && account.exposure + price <= limits.maxTotalExposure)
  {
    hide PositionSize, WorstCaseEntryPrice, Ceiling, Budget, AmountBudget, MaxRisk, RiskBudget;
    CeilingExactly(config, entryPrice);
    var stop, price := TrailingInitialStop(config), Ceiling(config, entryPrice);
    BudgetsExactly(config, limits, account, price);
    BudgetsExactly(config, limits, account, 1);
    if stop.Some? && price > 0 {
      var perShare := RiskPerShare(config.direction == Long, price, stop.value);
      if perShare > 0 {
        OneFits(price, perShare, MaxRisk(config, limits), Budget(config, limits, account));
      }
    }
    AmountIsPart(config, limits, account);
  }

  lemma AmountIsPart(config: SetupConfig, limits: RiskLimits, account: Account)
    ensures Budget(config, limits, account) <= config.maxPositionAmount.GetOr(limits.maxPositionAmount)
  {
  }

  lemma OneFits(price: int, perShare: int, maxRisk: int, maxAmount: int)
    requires price > 0 && perShare > 0
    ensures PositionSize(price, perShare, maxRisk, maxAmount) > 0 <==> perShare <= maxRisk && price <= maxAmount
  {
    FitsExactly(1, perShare, maxRisk);
    FitsExactly(1, price, maxAmount);
  }

  // ------------------------------------------------------ price and loss

  /**
   The rows sent carry the decision, in the fields the broker reads for their type: the limit is the highest fill the
   size was computed from, the trigger the entry price, the quantities are equal and approved, and the stop is the
   configured one, trailing if the setup asks for a trailing type.
   */
  lemma OrdersCarryTheDecision(setup: Setup, limits: RiskLimits, account: Account, entryPrice: int, ids: (string, string),
                               defaults: Defaults)
    requires Evaluate(setup.config, limits, account, entryPrice).Approved?
    ensures var d := Evaluate(setup.config, limits, account, entryPrice).decision;
            var config := setup.config;
            && config.trailing.Some? && config.trailing.value.brokerOrder.Some?
            && config.trailing.value.initialStop == Some(d.stopLoss)
            && var entry := EntryRow(setup, d, ids.0, defaults);
               var stop := StopRow(setup, d.quantity, d.stopLoss, ids.1, Some(ids.0), defaults);
               && entry.symbol == stop.symbol == setup.symbol && entry.setupId == stop.setupId == setup.id
               && entry.side == Buy && stop.side == Sell && entry.quantity == stop.quantity == d.quantity
               && (config.entry.orderType.Some? ==> entry.orderType == config.entry.orderType.value)
               && (config.entry.orderType.None? ==> entry.orderType == defaults.entryType)
               && entry.limitPrice == (if entry.orderType == Limit || entry.orderType == StopLimit
                                       then Some(Ceiling(config, entryPrice)) else None)
               && entry.triggerPrice == (if entry.orderType == Limit then None else Some(entryPrice))
               && entry.stopPrice == (if entry.orderType == StopMarket then Some(entryPrice) else None)
               && stop.stopPrice == Some(d.stopLoss) && stop.limitPrice.None? && stop.triggerPrice.None?
               && stop.orderType == (match config.trailing.value.brokerOrder.value.orderType
                                     case Some(Trail) => Trail
                                     case Some(TrailLimit) => TrailLimit
                                     case _ => defaults.stopType)
  {
    hide Evaluate, WorstCaseEntryPrice, Ceiling;
    ApprovedMeans(setup.config, limits, account, entryPrice);
    ApprovedIsPrepared(setup.config, limits, account, entryPrice);
    CeilingExactly(setup.config, entryPrice);
  }

  lemma ApprovedIsPrepared(config: SetupConfig, limits: RiskLimits, account: Account, entryPrice: int)
    requires Evaluate(config, limits, account, entryPrice).Approved?
    ensures StopPrepared(config)
  {
    hide Evaluate, Ceiling;
    ApprovedExactly(config, limits, account, entryPrice);
  }

  /**
   The loss bound, on the order the broker holds: any fill of an approved long entry at or below the limit of the
   broker's order, stopped at the initial stop, loses at most the risk the approval states, which is at most the risk
   budget; and it costs at most the money budget and what the total exposure leaves.
   */
  lemma LossBound(setup: Setup, limits: RiskLimits, account: Account, entryPrice: int, defaults: Defaults,
                  o: BrokerOrder, fill: int)
    requires Evaluate(setup.config, limits, account, entryPrice).Approved? && setup.config.direction == Long
    requires Carries(o, EntryRow(setup, Evaluate(setup.config, limits, account, entryPrice).decision, o.clientOrderId,
                                 defaults))
    requires (o.orderType == Limit || o.orderType == StopLimit) && fill <= o.limitPrice.GetOr(0)
    ensures var e := Evaluate(setup.config, limits, account, entryPrice);
            && o.quantity == e.decision.quantity && setup.config.trailing.Some?
            && setup.config.trailing.value.initialStop == Some(e.decision.stopLoss)
            && (fill - e.decision.stopLoss) * o.quantity <= e.riskAmount <= RiskBudget(setup.config, limits)
            && fill * o.quantity <= e.positionAmount <= AmountBudget(setup.config, limits)
            && account.exposure + e.positionAmount <= limits.maxTotalExposure
  {
    hide Evaluate, EntryRow, StopRow, WorstCaseEntryPrice, Ceiling, Budget, AmountBudget, MaxRisk, RiskBudget;
    var e := Evaluate(setup.config, limits, account, entryPrice);
    var d := e.decision;
    OrdersCarryTheDecision(setup, limits, account, entryPrice, (o.clientOrderId, ""), defaults);
    ApprovedMeans(setup.config, limits, account, entryPrice);
    CeilingExactly(setup.config, entryPrice);
    QuantityIsLargest(setup.config, limits, account, entryPrice, d.quantity);
    MulMonotone(fill - d.stopLoss, d.entryPrice - d.stopLoss, d.quantity);
    MulMonotone(fill, d.entryPrice, d.quantity);
  }

  /**
   The gate refuses exactly when what the two orders cost exceeds the allowed share of the risk, and warns exactly when
   it does not refuse and they exceed the share worth a warning.
   */
  lemma NoGoExactly(c: CostSettings, quantity: nat, spread: Option<real>, risk: int)
    ensures var cost := OrderCost(c, quantity, spread) + OrderCost(c, quantity, spread);
            && (CostGate(c, quantity, spread, risk) == GateNoGo
                <==> c.enabled && risk > 0 && cost > AllowedShare(c) * risk as real)
            && (CostGate(c, quantity, spread, risk) == GateWarning
                <==> c.enabled && risk > 0 && WarningShare(c) * risk as real < cost <= AllowedShare(c) * risk as real)
  {
    hide OrderCost;
    RoundTripIsTwoOrders(c, quantity, spread);
    if c.enabled && risk > 0 {
      var cost, r := RoundTripCost(c, quantity, spread), risk as real;
      assert cost == (cost / r) * r;
      hide RoundTripCost;
      QuotientExceeds(cost, r, AllowedShare(c));
      QuotientExceeds(cost, r, WarningShare(c));
    }
  }

  lemma QuotientExceeds(cost: real, risk: real, share: real)
    requires risk > 0.0
    ensures cost / risk > share <==> cost > share * risk
  {
    var ratio := cost / risk;
    assert ratio * risk == cost;
    MoreTimes(ratio, share, risk);
  }

  lemma MoreTimes(a: real, b: real, k: real)
    requires k > 0.0
    ensures a > b <==> a * k > b * k
  {
    assert (a - b) * k == a * k - b * k;
    NonNegativeProduct(if a > b then a - b else b - a, k);
    assert (b - a) * k == b * k - a * k;
  }

  /**
   End to end: when moreover the cost gate is on and did not refuse, the loss at the stop and the estimated round-trip
   costs together are at most (1 + allowed share) times the approved risk, hence times the risk budget.
   */
  lemma LossAndCostBound(setup: Setup, limits: RiskLimits, account: Account, entryPrice: int, defaults: Defaults,
                         o: BrokerOrder, fill: int, c: CostSettings, spread: Option<real>)
    requires Evaluate(setup.config, limits, account, entryPrice).Approved? && setup.config.direction == Long
    requires Carries(o, EntryRow(setup, Evaluate(setup.config, limits, account, entryPrice).decision, o.clientOrderId,
                                 defaults))
    requires (o.orderType == Limit || o.orderType == StopLimit) && fill <= o.limitPrice.GetOr(0)
    requires c.enabled && Evaluate(setup.config, limits, account, entryPrice).decision.quantity >= 0
    requires var e := Evaluate(setup.config, limits, account, entryPrice);
             CostGate(c, e.decision.quantity, spread, e.riskAmount) != GateNoGo
    ensures var e := Evaluate(setup.config, limits, account, entryPrice);
            o.quantity == e.decision.quantity && o.quantity >= 0 &&
            var loss := ((fill - e.decision.stopLoss) * o.quantity) as real;
            var cost := OrderCost(c, o.quantity, spread) + OrderCost(c, o.quantity, spread);
            && loss + cost <= (1.0 + AllowedShare(c)) * e.riskAmount as real
            && (AllowedShare(c) >= -1.0 ==>
                  loss + cost <= (1.0 + AllowedShare(c)) * RiskBudget(setup.config, limits) as real)
  {
    hide Evaluate, EntryRow, OrderCost, CostGate, RiskBudget, AmountBudget, PositionSize, AllowedShare, WarningShare,
      WorstCaseEntryPrice, RiskPerShare, TrailingInitialStop, Carries, MaxRisk, Budget;
    var e := Evaluate(setup.config, limits, account, entryPrice);
    LossBound(setup, limits, account, entryPrice, defaults, o, fill);
    ApprovedMeans(setup.config, limits, account, entryPrice);
    RiskIsPositive(e, setup.config.direction == Long);
    NoGoExactly(c, e.decision.quantity, spread, e.riskAmount);
    AddedBounds(((fill - e.decision.stopLoss) * e.decision.quantity) as real,
                OrderCost(c, e.decision.quantity, spread) + OrderCost(c, e.decision.quantity, spread),
                AllowedShare(c), e.riskAmount as real, RiskBudget(setup.config, limits) as real);
  }

  lemma AddedBounds(loss: real, cost: real, ratio: real, risk: real, budget: real)
    requires loss <= risk && cost <= ratio * risk && risk <= budget
    ensures loss + cost <= (1.0 + ratio) * risk
    ensures ratio >= -1.0 ==> loss + cost <= (1.0 + ratio) * budget
  {
    ScaleUp(ratio, risk, budget);
  }

  lemma RiskIsPositive(e: Evaluation, long: bool)
    requires e.Approved? && e.decision.quantity > 0
    requires RiskPerShare(long, e.decision.entryPrice, e.decision.stopLoss) > 0
    requires e.riskAmount == e.decision.quantity * RiskPerShare(long, e.decision.entryPrice, e.decision.stopLoss)
    ensures e.riskAmount > 0
  {
    MulMonotone(1, e.decision.quantity, RiskPerShare(long, e.decision.entryPrice, e.decision.stopLoss));
  }

  lemma ScaleUp(ratio: real, a: real, b: real)
    requires a <= b
    ensures (1.0 + ratio) * a == a + ratio * a
    ensures ratio >= -1.0 ==> (1.0 + ratio) * a <= (1.0 + ratio) * b
  {
    if ratio >= -1.0 {
      RealScale(1.0 + ratio, a, b);
    }
  }

  lemma RealScale(k: real, a: real, b: real)
    requires k >= 0.0 && a <= b
    ensures k * a <= k * b
  {
    var d := b - a;
    NonNegativeProduct(k, d);
    assert k * b == k * (a + d) == k * a + k * d;
  }

  lemma NonNegativeProduct(x: real, y: real)
    requires x >= 0.0 && y >= 0.0
    ensures x * y >= 0.0
    ensures x > 0.0 && y > 0.0 ==> x * y > 0.0
  {
  }

  /** What a paper fill slips by: the larger of the minimum (1 cent) and the share (half) of a positive spread. */
  function Slip(c: CostSettings, spread: Option<real>): real {
    var least := if c.minSlippage.Some? && c.minSlippage.value != 0.0 then c.minSlippage.value else 1.0;
    var share := if c.spreadFraction.Some? && c.spreadFraction.value != 0.0 then c.spreadFraction.value else 0.5;
    var wide := if spread.Some? && spread.value >= 0.0 then share * spread.value else 0.0;
    if least >= wide then least else wide
  }

  lemma SlipExactly(c: CostSettings, spread: Option<real>)
    ensures PaperSlippage(c, spread) == Slip(c, spread)
  {
  }

  /**
   A paper fill is booked on the far side of the price it is asked for and is not held to the limit: asked for at the
   limit, an approved entry, long or short, loses the approved risk and the slippage on every share, so it stays within
   the approved risk exactly if there is no slippage.
   */
  lemma PaperFillOverrun(c: CostSettings, config: SetupConfig, limits: RiskLimits, account: Account, entryPrice: int,
                         spread: Option<real>)
    requires Evaluate(config, limits, account, entryPrice).Approved?
    ensures var e := Evaluate(config, limits, account, entryPrice);
            var d := e.decision;
            var fill := PaperFillPrice(c, d.entryPrice as real, spread, config.direction == Short);
            var lost := if config.direction == Long then fill - d.stopLoss as real else d.stopLoss as real - fill;
            && lost * d.quantity as real == e.riskAmount as real + Slip(c, spread) * d.quantity as real
            && (lost * d.quantity as real <= e.riskAmount as real <==> Slip(c, spread) <= 0.0)
  {
    hide Evaluate, PaperSlippage, Slip, WorstCaseEntryPrice, Budget, MaxRisk, PositionSize;
    ApprovedMeans(config, limits, account, entryPrice);
    ApprovedDirection(config, limits, account, entryPrice);
    SlipExactly(c, spread);
    var d := Evaluate(config, limits, account, entryPrice).decision;
    var perShare := RiskPerShare(config.direction == Long, d.entryPrice, d.stopLoss);
    var s, n := Slip(c, spread), d.quantity as real;
    assert (perShare as real + s) * n == perShare as real * n + s * n;
    assert (d.quantity * perShare) as real == perShare as real * n;
    if s > 0.0 { NonNegativeProduct(s, n); } else { NonNegativeProduct(-s, n); }
  }

  lemma ApprovedDirection(config: SetupConfig, limits: RiskLimits, account: Account, entryPrice: int)
    requires Evaluate(config, limits, account, entryPrice).Approved?
    ensures config.direction == Long || config.direction == Short
  {
    hide Evaluate, Ceiling;
    ApprovedExactly(config, limits, account, entryPrice);
  }

  // ---------------------------------------------------------------- ratchets

  /** The next trailing stop, in the direction that protects. */
  function RatchetTrailingStop(current: int, calculated: int, short: bool): int {
    if short then (if calculated < current then calculated else current)
    else (if calculated > current then calculated else current)
  }

  /** The long-only form used for open positions: whether it moved, and to where. */
  function UpdateTrailingStopLong(current: int, calculated: int): (bool, int) {
    if calculated <= current then (false, current) else (true, calculated)
  }

  function RatchetAll(current: int, calculated: seq<int>, short: bool): int {
    if calculated == [] then current
    else
      var last := |calculated| - 1;
      RatchetTrailingStop(RatchetAll(current, calculated[..last], short), calculated[last], short)
  }

  /** The same sequence through the long-only form. */
  function UpdateAllLong(current: int, calculated: seq<int>): int {
    if calculated == [] then current
    else
      var last := |calculated| - 1;
      UpdateTrailingStopLong(UpdateAllLong(current, calculated[..last]), calculated[last]).1
  }

  /**
   After any sequence of calculated stops the trailing stop is the best of them and the first, whatever their order;
   on a long position the long-only form ends at the same stop.
   */
  lemma {:induction false} RatchetIsExtreme(current: int, calculated: seq<int>, short: bool)
    ensures var final := RatchetAll(current, calculated, short);
            && (final == current || final in calculated)
            && (if short then final <= current else final >= current)
            && (forall s :: s in calculated ==> if short then final <= s else final >= s)
            && (!short ==> UpdateAllLong(current, calculated) == final)
  {
    if calculated != [] {
      var init := calculated[..|calculated| - 1];
      RatchetIsExtreme(current, init, short);
      assert calculated == init + [calculated[|calculated| - 1]];
    }
  }
}
