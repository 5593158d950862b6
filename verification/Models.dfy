/** The enumerations and records the engine exchanges (prices and amounts in integer cents). */
module Models {
  import opened Common

  datatype Side = Buy | Sell

  datatype OrderType = Market | Limit | StopMarket | StopLimit | Trail | TrailLimit | OtherType(name: string)

  datatype OrderStatus = Created | Submitted | Filled | Cancelled | Rejected | Errored

  /** CREATED and SUBMITTED rows are the ones the engine regards as working. */
  predicate IsActive(s: OrderStatus) {
    s == Created || s == Submitted
  }

  predicate IsRefusal(s: OrderStatus) {
    s == Rejected || s == Errored
  }

  /** How a status is written. */
  function StatusName(s: OrderStatus): string {
    match s
    case Created => "CREATED"
    case Submitted => "SUBMITTED"
    case Filled => "FILLED"
    case Cancelled => "CANCELLED"
    case Rejected => "REJECTED"
    case Errored => "ERROR"
  }

  datatype SetupRole = EntryAndManagement | EntryOnly | ManagementOnly

  datatype SetupStatus =
    | Draft
    | Loaded
    | Validated
    | Disabled
    | WaitingActivation
    | WaitingBreakout
    | MissedBreakout
    | MissedBreakoutWaitRetest
    | StaleSetup
    | Blocked
    | WaitingRetest
    | WaitingRebound
    | WaitingConfirmation
    | RearmedOnNewBase
    | WaitingEntrySignal
    | EntryReady
    | EntryOrderPlaced
    | EntryPartiallyFilled
    | EntryFilled
    | StopOrderPlaced
    | StopPlaced
    | ReconcilingExistingPosition
    | InPosition
    | ManagingPosition
    | PartialExit
    | Closed
    | Expired
    | Invalidated
    | SetupCancelled
    | ManualReviewRequired
    | ErrorRequiresManualReview
    | SetupError

  /** A local order row as the repository stores it. */
  datatype OrderRow = OrderRow(
    id: string,
    setupId: string,
    symbol: string,
    side: Side,
    orderType: OrderType,
    quantity: int,
    status: OrderStatus,
    triggerPrice: Option<int>,
    limitPrice: Option<int>,
    stopPrice: Option<int>,
    brokerOrderId: Option<string>,
    brokerPermId: Option<string>,
    parentId: Option<string>)

  /** An order as the broker holds it. */
  datatype BrokerOrder = BrokerOrder(
    clientOrderId: string,
    symbol: string,
    side: Side,
    orderType: OrderType,
    quantity: int,
    triggerPrice: Option<int>,
    limitPrice: Option<int>,
    stopPrice: Option<int>,
    parentId: Option<string>,
    transmit: bool,
    status: OrderStatus,
    brokerOrderId: Option<string>,
    brokerPermId: Option<string>)

  datatype BrokerPosition = BrokerPosition(symbol: string, quantity: int, averagePrice: int, currentPrice: int)

  /** What a broker call answers: whether it took the request, the status it reports and the ids it gave. */
  datatype BrokerResult = BrokerResult(
    accepted: bool,
    status: OrderStatus,
    brokerOrderId: Option<string>,
    brokerPermId: Option<string>,
    notFound: bool)

  /** The broker request sent for a local order row. */
  function ToRequest(row: OrderRow, brokerParent: Option<string>, transmit: bool): BrokerOrder {
    BrokerOrder(row.id, row.symbol, row.side, row.orderType, row.quantity, row.triggerPrice, row.limitPrice,
                row.stopPrice, if brokerParent.Some? then brokerParent else row.parentId, transmit,
                Created, None, None)
  }

  /** The broker's order asks for what the row says: the same symbol, side, type, size and prices. */
  predicate Carries(o: BrokerOrder, row: OrderRow) {
    && o.clientOrderId == row.id && o.symbol == Upper(row.symbol) && o.side == row.side
    && o.orderType == row.orderType && o.quantity == row.quantity
    && o.limitPrice == row.limitPrice && o.triggerPrice == row.triggerPrice && o.stopPrice == row.stopPrice
  }

  /** The local position record. */
  datatype PositionRow = PositionRow(
    symbol: string,
    setupId: string,
    quantity: int,
    averagePrice: int,
    currentPrice: int,
    unrealizedPnl: int,
    currentStop: Option<int>,
    riskRemaining: int,
    open: bool)

  // ------------------------------------------------------- setup configuration

  datatype BrokerStopOrder = BrokerStopOrder(orderType: Option<OrderType>, requiredBeforeEntry: bool, ready: Option<bool>)

  /** The trailing_stop_loss section. */
  datatype TrailingStop = TrailingStop(
    enabled: bool,
    initialStop: Option<int>,
    ready: Option<bool>,
    brokerOrder: Option<BrokerStopOrder>)

  /** The entry section; a missing section is one whose options are all absent. */
  datatype EntryConfig = EntryConfig(
    enabled: Option<bool>,
    orderType: Option<OrderType>,
    maximumLimitPrice: Option<int>,
    limitPrice: Option<int>,
    limitOffset: Option<int>)

  datatype Direction = Long | Short | OtherDirection

  datatype SetupConfig = SetupConfig(
    paperMode: bool,
    role: Option<SetupRole>,
    isPositionManagement: bool,
    direction: Direction,
    entry: EntryConfig,
    trailing: Option<TrailingStop>,
    maxPositionAmount: Option<int>,
    maxRisk: Option<int>)

  datatype Setup = Setup(id: string, symbol: string, config: SetupConfig)

  /** The role of a setup; position_management setups without a role are management-only where that is inferred. */
  function RoleOf(config: SetupConfig, infer: bool): SetupRole {
    if infer && config.role.None? && config.isPositionManagement then ManagementOnly
    else config.role.GetOr(EntryAndManagement)
  }

  /** The initial stop of an enabled trailing stop. */
  function TrailingInitialStop(config: SetupConfig): Option<int> {
    if config.trailing.Some? && config.trailing.value.enabled then config.trailing.value.initialStop else None
  }

  /** The broker stop order must be required before the entry goes out, and be ready. */
  predicate TrailingStopOrderReady(config: SetupConfig) {
    && config.trailing.Some?
    && config.trailing.value.enabled
    && config.trailing.value.brokerOrder.Some?
    && config.trailing.value.brokerOrder.value.requiredBeforeEntry
    && var own := config.trailing.value.ready;
       (if own.Some? then own else config.trailing.value.brokerOrder.value.ready) == Some(true)
  }

  /** What the risk engine approved. */
  datatype RiskDecision = RiskDecision(quantity: int, entryPrice: int, stopLoss: int, triggerPrice: Option<int>)
}
