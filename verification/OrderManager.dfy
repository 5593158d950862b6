/**
 Order placement: the bracket protocol, manual orders, stop attachment and cancellation.

 The functions describe what each operation does to the repository and to any broker connector; the class
 `Manager` performs the operations step by step against the in-memory broker and is proved against them.
 */
module OrderManager {
  import opened Common
  import opened Models
  import opened SimulatedBroker
  import opened Repository

  datatype World = World(store: Store, broker: BrokerState, paperAccount: bool)

  datatype PlaceError =
    | ModeMismatch
    | ManagementOnlyEntry
    | UnprotectedActiveOrder
    | DuplicateOrder
    | StopNotConfigured
    | TrailingStopNotReady
    | EntryNotFound
    | NotABuyEntry
    | EntryNotActive
    | EntryWithoutBrokerId
    | SetupNotFound
    | BrokerFault

  /** How an operation ended: the state it left and what it returned or raised. */
  datatype Outcome<+T> = Outcome(world: World, result: Result<T, PlaceError>)

  /** Defaults the manager was built with. */
  datatype Defaults = Defaults(entryType: OrderType, stopType: OrderType, limitOffset: int)

  // ---------------------------------------------------------------- prices

  /** Trigger, limit and stop price of a BUY entry, by order type. */
  function EntryPrices(orderType: OrderType, d: RiskDecision, limitOffset: int)
    : (p: (Option<int>, Option<int>, Option<int>))
  {
    var trigger := d.triggerPrice.GetOr(d.entryPrice);
    match orderType
    case Limit => (None, Some(d.entryPrice), None)
    case StopMarket => (Some(trigger), None, Some(trigger))
    case StopLimit => (Some(trigger), Some(if d.triggerPrice.Some? then d.entryPrice else trigger + limitOffset), None)
    case _ => (Some(trigger), None, None)
  }

  /** The type of the protective order: trailing when the setup asks for it. */
  function ManagedStopType(config: SetupConfig, fallback: OrderType): OrderType {
    if config.trailing.Some? && config.trailing.value.brokerOrder.Some?
       && config.trailing.value.brokerOrder.value.orderType in {Some(Trail), Some(TrailLimit)}
    then config.trailing.value.brokerOrder.value.orderType.value
    else fallback
  }

  function EntryRow(setup: Setup, d: RiskDecision, id: string, defaults: Defaults): OrderRow {
    var orderType := setup.config.entry.orderType.GetOr(defaults.entryType);
    var prices := EntryPrices(orderType, d, setup.config.entry.limitOffset.GetOr(defaults.limitOffset));
    OrderRow(id, setup.id, setup.symbol, Buy, orderType, d.quantity, Created, prices.0, prices.1, prices.2,
             None, None, None)
  }

  /**
   Whatever was decided, the entry's row gives the broker one price to wait for and one to pay at most, by its type: a
   limit order only the latter, a stop order only the former, as trigger and stop; a stop-limit both, and without a
   trigger of its own the entry price and as much more as the offset allows.
   */
  lemma EntryTerms(setup: Setup, d: RiskDecision, id: string, defaults: Defaults)
    ensures var row := EntryRow(setup, d, id, defaults);
            && (row.orderType == Limit ==> row.limitPrice == Some(d.entryPrice) && row.triggerPrice.None?)
            && (row.orderType != Limit ==>
                  row.triggerPrice == if d.triggerPrice.None? then Some(d.entryPrice) else d.triggerPrice)
            && (row.limitPrice.Some? <==> row.orderType == Limit || row.orderType == StopLimit)
            && (row.orderType == StopLimit && d.triggerPrice.None? ==>
                  row.limitPrice.value - row.triggerPrice.value
                  == (match setup.config.entry.limitOffset case Some(own) => own case None => defaults.limitOffset))
            && (row.orderType == StopLimit && d.triggerPrice.Some? ==> row.limitPrice == Some(d.entryPrice))
            && (row.stopPrice == if row.orderType == StopMarket then row.triggerPrice else None)
  {
  }

  function StopRow(setup: Setup, quantity: int, stop: int, id: string, parentId: Option<string>, defaults: Defaults)
    : OrderRow
  {
    OrderRow(id, setup.id, setup.symbol, Sell, ManagedStopType(setup.config, defaults.stopType), quantity, Created,
             None, None, Some(stop), None, None, parentId)
  }

  function Answered(row: OrderRow, r: BrokerResult): OrderRow {
    row.(status := r.status, brokerOrderId := r.brokerOrderId, brokerPermId := r.brokerPermId)
  }

  predicate WasRefused(r: BrokerResult) {
    !r.accepted || IsRefusal(r.status)
  }

  // ------------------------------------------------------------ operations

  /** Sends one row to the broker and stores it with the broker's answer. */
  function SendRow(w: World, row: OrderRow, brokerParent: Option<string>, transmit: bool, reply: Reply)
    : Outcome<(OrderRow, BrokerResult)>
  {
    var (b, answer) := SubmitStep(w.broker, ToRequest(row, brokerParent, transmit), reply);
    if answer.Err? then Outcome(w.(broker := b), Err(BrokerFault))
    else
      var sent := Answered(row, answer.value);
      Outcome(w.(broker := b, store := UpsertOrder(w.store, sent)), Ok((sent, answer.value)))
  }

  function WithSetupStatus(w: World, setupId: string, status: SetupStatus): World {
    w.(store := SetSetupStatus(w.store, setupId, status))
  }

  function PlaceStop(w: World, setup: Setup, row: OrderRow, brokerParent: Option<string>, transmit: bool,
                     updateSetup: bool, reply: Reply): Outcome<OrderRow>
  {
    if setup.config.paperMode != w.paperAccount then Outcome(w, Err(ModeMismatch))
    else
      var sent := SendRow(w, row, brokerParent, transmit, reply);
      if sent.result.Err? then Outcome(sent.world, Err(sent.result.error))
      else
        var (placed, answer) := sent.result.value;
        Outcome(if WasRefused(answer) then WithSetupStatus(sent.world, setup.id, ErrorRequiresManualReview)
                else if updateSetup then WithSetupStatus(sent.world, setup.id, StopOrderPlaced)
                else sent.world,
                Ok(placed))
  }

  /** Compensation: cancel the parent whose stop could not be attached and ask for manual review. */
  function Compensate(w: World, setup: Setup, entry: OrderRow, reply: CallReply): Outcome<()> {
    if entry.brokerOrderId.None? then Outcome(WithSetupStatus(w, setup.id, ErrorRequiresManualReview), Ok(()))
    else
      var (b, answer) := CancelStep(w.broker, entry.brokerOrderId.value, reply);
      if answer.Err? then Outcome(w.(broker := b), Err(BrokerFault))
      else
        var store := if answer.value.accepted then SetOrderStatus(w.store, entry.id, OrderStatus.Cancelled) else w.store;
        Outcome(WithSetupStatus(World(store, b, w.paperAccount), setup.id, ErrorRequiresManualReview), Ok(()))
  }

  /** Placing a stop leaves the other rows as they are. */
  lemma PlaceStopKeepsRow(w: World, setup: Setup, child: OrderRow, brokerParent: Option<string>, id: string, reply: Reply)
    requires id in w.store.orders && child.id != id
    ensures var orders := PlaceStop(w, setup, child, brokerParent, true, false, reply).world.store.orders;
            id in orders && orders[id] == w.store.orders[id]
  {
  }

  /** What the compensation records on the entry's row. */
  lemma CompensateRow(w: World, setup: Setup, entry: OrderRow, reply: CallReply)
    requires entry.id in w.store.orders && entry.brokerOrderId.Some?
    ensures var orders := Compensate(w, setup, entry, reply).world.store.orders;
            entry.id in orders
            && orders[entry.id] == (if reply.CallAccepts? then w.store.orders[entry.id].(status := OrderStatus.Cancelled)
                                    else w.store.orders[entry.id])
  {
  }

  /** The refusals `place_entry_order` raises before it talks to the broker. */
  function EntryGate(w: World, setup: Setup): Option<PlaceError> {
    var stop := TrailingInitialStop(setup.config);
    if setup.config.paperMode != w.paperAccount then Some(ModeMismatch)
    else if RoleOf(setup.config, false) == ManagementOnly then Some(ManagementOnlyEntry)
    else if PositionOpen(w.store, setup.id) && !HasActiveStop(w.store, setup.id) then Some(UnprotectedActiveOrder)
    else if HasActiveEntry(w.store, setup.id) then
      Some(if HasActiveStop(w.store, setup.id) then DuplicateOrder else UnprotectedActiveOrder)
    else if stop.None? || stop.value <= 0 then Some(StopNotConfigured)
    else if !TrailingStopOrderReady(setup.config) then Some(TrailingStopNotReady)
    else None
  }

  /** Replies met at the three awaits of a bracket: entry submission, stop submission, compensating cancel. */
  datatype BracketReplies = BracketReplies(entry: Reply, stop: Reply, cancel: CallReply)

  function PlaceEntry(w: World, setup: Setup, d: RiskDecision, ids: (string, string), defaults: Defaults,
                      replies: BracketReplies): Outcome<OrderRow>
  {
    var refused := EntryGate(w, setup);
    if refused.Some? then Outcome(w, Err(refused.value))
    else
      Bracket(w, setup, EntryRow(setup, d, ids.0, defaults),
              StopRow(setup, d.quantity, TrailingInitialStop(setup.config).value, ids.1, Some(ids.0), defaults), replies)
  }

  /** The bracket proper: the untransmitted parent row, then its stop row. */
  function Bracket(w: World, setup: Setup, parent: OrderRow, child: OrderRow, replies: BracketReplies): Outcome<OrderRow> {
    var sent := SendRow(w, parent, None, false, replies.entry);
    if sent.result.Err? then Outcome(sent.world, Err(sent.result.error))
    else
      var (entry, answer) := sent.result.value;
      if WasRefused(answer) then
        Outcome(WithSetupStatus(sent.world, setup.id, ErrorRequiresManualReview), Ok(entry))
      else if entry.brokerOrderId.None? then
        Outcome(Compensate(sent.world, setup, entry, replies.cancel).world, Ok(entry))
      else AttachChild(sent.world, setup, entry, child, replies)
  }

  /** The second half of the bracket: the transmitting stop child, or the compensation. */
  function AttachChild(w: World, setup: Setup, entry: OrderRow, row: OrderRow, replies: BracketReplies)
    : Outcome<OrderRow>
  {
    var placed := PlaceStop(w, setup, row, entry.brokerOrderId, true, false, replies.stop);
    if placed.result.Err? || IsRefusal(placed.result.value.status) then
      var undone := Compensate(placed.world, setup, entry, replies.cancel);
      Outcome(undone.world, if undone.result.Err? then Err(undone.result.error) else Ok(entry))
    else Outcome(WithSetupStatus(placed.world, setup.id, EntryOrderPlaced), Ok(entry))
  }

  /** The refusals `attach_missing_stop` raises before it talks to the broker. */
  function AttachGate(w: World, orderId: string): Option<PlaceError> {
    if orderId !in w.store.orders then Some(EntryNotFound)
    else
      var entry := w.store.orders[orderId];
      if entry.side != Buy then Some(NotABuyEntry)
      else if !IsActive(entry.status) then Some(EntryNotActive)
      else if entry.brokerOrderId.None? then Some(EntryWithoutBrokerId)
      else if entry.setupId !in w.store.setups then Some(SetupNotFound)
      else if HasActiveChild(w.store, entry.setupId, entry.id) then Some(DuplicateOrder)
      else
        var stop := TrailingInitialStop(w.store.setups[entry.setupId].setup.config);
        if stop.None? || stop.value <= 0 then Some(StopNotConfigured) else None
  }

  function AttachStop(w: World, orderId: string, stopId: string, defaults: Defaults, replies: BracketReplies)
    : Outcome<OrderRow>
  {
    var refused := AttachGate(w, orderId);
    if refused.Some? then Outcome(w, Err(refused.value))
    else
      var entry := w.store.orders[orderId];
      var setup := w.store.setups[entry.setupId].setup;
      var row := StopRow(setup, entry.quantity, TrailingInitialStop(setup.config).value, stopId, Some(entry.id), defaults);
      var done := AttachChild(w, setup, entry, row, replies);
      // after a compensation that itself succeeds, a failure of the stop submission is raised again
      Outcome(done.world, if done.result.Err? then Err(done.result.error)
                          else PlaceStop(w, setup, row, entry.brokerOrderId, true, false, replies.stop).result)
  }

  datatype ManualOrder = ManualOrder(setupId: string, symbol: string, side: Side, quantity: int, orderType: OrderType,
                                     limitPrice: Option<int>, triggerPrice: Option<int>)

  function ManualRow(m: ManualOrder, id: string): OrderRow {
    OrderRow(id, m.setupId, Upper(m.symbol), m.side, m.orderType, m.quantity, Created, m.triggerPrice, m.limitPrice,
             if m.orderType in {StopMarket, StopLimit} then m.triggerPrice else None, None, None, None)
  }

  function PlaceManual(w: World, m: ManualOrder, id: string, reply: Reply): Outcome<OrderRow> {
    var sent := SendRow(w, ManualRow(m, id), None, true, reply);
    Outcome(sent.world, if sent.result.Err? then Err(sent.result.error) else Ok(sent.result.value.0))
  }

  // ---------------------------------------------------------- cancellation

  const BROKER_PREFIX := "broker_"

  function LocalKeys(row: OrderRow): set<string> {
    CleanKeys(Some(row.id), row.brokerOrderId, row.brokerPermId)
  }

  function RequestKeys(o: BrokerOrder): set<string> {
    CleanKeys(Some(o.clientOrderId), o.brokerOrderId, o.brokerPermId)
  }

  /** An open broker order is still known under one of the row's keys. */
  predicate StillAtBroker(b: BrokerState, row: OrderRow) {
    exists id :: id in b.orders && LocalKeys(row) * RequestKeys(b.orders[id]) != {}
  }

  function CancelOrder(w: World, orderId: string, reply: CallReply): Outcome<bool> {
    if orderId !in w.store.orders then
      if BROKER_PREFIX <= orderId && orderId != BROKER_PREFIX then
        var (b, answer) := CancelStep(w.broker, orderId[|BROKER_PREFIX|..], reply);
        Outcome(w.(broker := b), if answer.Err? then Err(BrokerFault) else Ok(answer.value.accepted))
      else Outcome(w, Ok(false))
    else
      var row := w.store.orders[orderId];
      if row.brokerOrderId.None? then Outcome(w, Ok(false))
      else
        var (b, answer) := CancelStep(w.broker, row.brokerOrderId.value, reply);
        if answer.Err? then Outcome(w, Err(BrokerFault))
        else if answer.value.accepted || (answer.value.notFound && !StillAtBroker(b, row)) then
          Outcome(World(SetOrderStatus(w.store, orderId, OrderStatus.Cancelled), b, w.paperAccount), Ok(true))
        else Outcome(w.(broker := b), Ok(false))
  }

  // -------------------------------------------------------------- the class

  /** Connection states met at the awaits of one operation. */
  datatype Links = Links(first: bool, second: bool, third: bool)

  /** The replies of the in-memory broker to a bracket whose entry is not yet submitted. */
  function SimulatedBracket(links: Links, quantity: int): BracketReplies {
    BracketReplies(SimulatedReply(links.first, quantity), SimulatedReply(links.second, quantity),
                   if links.third then CallAccepts else CallRaises)
  }

  class Manager {
    const repo: Database
    const broker: Broker
    const defaults: Defaults

    function Snapshot(): Store
      reads repo
    {
      repo.View()
    }

    ghost function View(): World
      reads repo, broker
    {
      World(repo.View(), broker.View(), broker.paperAccount)
    }

    constructor (repo: Database, broker: Broker, defaults: Defaults)
      ensures this.repo == repo && this.broker == broker && this.defaults == defaults
    {
      this.repo, this.broker, this.defaults := repo, broker, defaults;
    }

    /** One await on the broker: submit, then store the row with the answer. */
    method Send(row: OrderRow, brokerParent: Option<string>, transmit: bool)
      returns (sent: Result<(OrderRow, BrokerResult), PlaceError>, ghost up: bool)
      modifies repo, broker
      ensures Outcome(View(), sent) == SendRow(old(View()), row, brokerParent, transmit, SimulatedReply(up, row.quantity))
    {
      broker.Suspend();
      up := broker.connected;
      var answer := broker.SubmitOrder(ToRequest(row, brokerParent, transmit));
      if answer.Err? {
        return Err(BrokerFault), up;
      }
      var updated := Answered(row, answer.value);
      repo.Upsert(updated);
      return Ok((updated, answer.value)), up;
    }

    method PlaceStopOrder(setup: Setup, row: OrderRow, brokerParent: Option<string>, transmit: bool, updateSetup: bool)
      returns (placed: Result<OrderRow, PlaceError>, ghost up: bool)
      modifies repo, broker
      ensures Outcome(View(), placed)
              == PlaceStop(old(View()), setup, row, brokerParent, transmit, updateSetup, SimulatedReply(up, row.quantity))
    {
      up := false;
      if setup.config.paperMode != broker.paperAccount {
        return Err(ModeMismatch), up;
      }
      var sent;
      sent, up := Send(row, brokerParent, transmit);
      if sent.Err? {
        return Err(sent.error), up;
      }
      if WasRefused(sent.value.1) {
        repo.UpdateSetupStatus(setup.id, ErrorRequiresManualReview);
      } else if updateSetup {
        repo.UpdateSetupStatus(setup.id, StopOrderPlaced);
      }
      return Ok(sent.value.0), up;
    }

    method CancelParentForFailedProtection(setup: Setup, entry: OrderRow)
      returns (done: Result<(), PlaceError>, ghost reply: CallReply)
      modifies repo, broker
      ensures Outcome(View(), done) == Compensate(old(View()), setup, entry, reply)
      ensures entry.brokerOrderId.Some? ==>
                exists up :: reply == SimulatedCallReply(up, old(broker.View()), entry.brokerOrderId.value)
    {
      reply := CallRaises;
      var cancelled := false;
      if entry.brokerOrderId.Some? {
        broker.Suspend();
        reply := SimulatedCallReply(broker.connected, broker.View(), entry.brokerOrderId.value);
        var answer := broker.CancelOrder(entry.brokerOrderId.value);
        if answer.Err? {
          return Err(BrokerFault), reply;
        }
        cancelled := answer.value.accepted;
      }
      if cancelled {
        repo.UpdateOrderStatus(entry.id, OrderStatus.Cancelled);
      }
      repo.UpdateSetupStatus(setup.id, ErrorRequiresManualReview);
      return Ok(()), reply;
    }

    /** The checks made before the broker is asked for anything. */
    method EntryRefusal(setup: Setup) returns (refused: Option<PlaceError>)
      ensures refused == EntryGate(View(), setup)
    {
      if setup.config.paperMode != broker.paperAccount {
        return Some(ModeMismatch);
      }
      if RoleOf(setup.config, false) == ManagementOnly {
        return Some(ManagementOnlyEntry);
      }
      var protection := Snapshot();
      if PositionOpen(protection, setup.id) && !HasActiveStop(protection, setup.id) {
        return Some(UnprotectedActiveOrder);
      }
      if HasActiveEntry(protection, setup.id) {
        return Some(if HasActiveStop(protection, setup.id) then DuplicateOrder else UnprotectedActiveOrder);
      }
      var stop := TrailingInitialStop(setup.config);
      if stop.None? || stop.value <= 0 {
        return Some(StopNotConfigured);
      }
      return if TrailingStopOrderReady(setup.config) then None else Some(TrailingStopNotReady);
    }

    /** The bracket: a parent that is not transmitted, then its transmitting stop, or the compensation. */
    method PlaceEntryOrder(setup: Setup, d: RiskDecision, ids: (string, string))
      returns (result: Result<OrderRow, PlaceError>, ghost links: Links)
      modifies repo, broker
      ensures Outcome(View(), result)
              == PlaceEntry(old(View()), setup, d, ids, defaults, SimulatedBracket(links, d.quantity))
    {
      links := Links(false, false, false);
      ghost var w0 := View();
      var refused := EntryRefusal(setup);
      if refused.Some? {
        return Err(refused.value), links;
      }
      var stop := TrailingInitialStop(setup.config);
      assert EntryGate(w0, setup) == None && stop.Some?;
      hide EntryGate, TrailingStopOrderReady;
      var row := EntryRow(setup, d, ids.0, defaults);
      var sent; ghost var up1;
      sent, up1 := Send(row, None, false);
      links := links.(first := up1);
      if sent.Err? {
        return Err(sent.error), links;
      }
      var entry := sent.value.0;
      if WasRefused(sent.value.1) {
        repo.UpdateSetupStatus(setup.id, ErrorRequiresManualReview);
        return Ok(entry), links;
      }
      assert entry.brokerOrderId.Some?;
      ghost var w1 := View();
      ghost var up2, reply3;
      var placed;
      placed, up2 := PlaceStopOrder(setup, StopRow(setup, d.quantity, stop.value, ids.1, Some(ids.0), defaults),
                                    entry.brokerOrderId, true, false);
      links := links.(second := up2);
      if placed.Err? || IsRefusal(placed.value.status) {
        assert View().broker == w1.broker;
        var undone;
        undone, reply3 := CancelParentForFailedProtection(setup, entry);
        links := links.(third := reply3.CallAccepts?);
        return if undone.Err? then Err(undone.error) else Ok(entry), links;
      }
      repo.UpdateSetupStatus(setup.id, EntryOrderPlaced);
      return Ok(entry), links;
    }

    method PlaceManualOrder(m: ManualOrder, id: string)
      returns (result: Result<OrderRow, PlaceError>, ghost up: bool)
      modifies repo, broker
      ensures Outcome(View(), result) == PlaceManual(old(View()), m, id, SimulatedReply(up, m.quantity))
    {
      var sent;
      sent, up := Send(ManualRow(m, id), None, true);
      return if sent.Err? then Err(sent.error) else Ok(sent.value.0), up;
    }

    method AttachMissingStop(orderId: string, stopId: string)
      returns (result: Result<OrderRow, PlaceError>, ghost replies: BracketReplies)
      modifies repo, broker
      ensures Outcome(View(), result) == AttachStop(old(View()), orderId, stopId, defaults, replies)
      ensures AttachGate(old(View()), orderId).None? ==>
                exists up2, up3 ::
                  replies == SimulatedAttach(old(View()), orderId, up2, up3)
    {
      replies := BracketReplies(Raises, Raises, CallRaises);
      ghost var w0 := View();
      var snapshot := Snapshot();
      if orderId !in snapshot.orders {
        return Err(EntryNotFound), replies;
      }
      var entry := snapshot.orders[orderId];
      if entry.side != Buy {
        return Err(NotABuyEntry), replies;
      }
      if !IsActive(entry.status) {
        return Err(EntryNotActive), replies;
      }
      if entry.brokerOrderId.None? {
        return Err(EntryWithoutBrokerId), replies;
      }
      if entry.setupId !in snapshot.setups {
        return Err(SetupNotFound), replies;
      }
      var setup := snapshot.setups[entry.setupId].setup;
      if HasActiveChild(snapshot, entry.setupId, entry.id) {
        return Err(DuplicateOrder), replies;
      }
      var stop := TrailingInitialStop(setup.config);
      if stop.None? || stop.value <= 0 {
        return Err(StopNotConfigured), replies;
      }
      assert AttachGate(w0, orderId).None?;
      var row := StopRow(setup, entry.quantity, stop.value, stopId, Some(entry.id), defaults);
      var placed; ghost var up2, up3 := false, false;
      placed, up2 := PlaceStopOrder(setup, row, entry.brokerOrderId, true, false);
      replies := SimulatedAttach(w0, orderId, up2, up3);
      if placed.Err? || IsRefusal(placed.value.status) {
        assert View().broker == w0.broker;
        var undone; ghost var reply3;
        undone, reply3 := CancelParentForFailedProtection(setup, entry);
        up3 :| reply3 == SimulatedCallReply(up3, w0.broker, entry.brokerOrderId.value);
        replies := SimulatedAttach(w0, orderId, up2, up3);
        if undone.Err? {
          return Err(BrokerFault), replies;
        }
        return placed, replies;
      }
      repo.UpdateSetupStatus(setup.id, EntryOrderPlaced);
      return placed, replies;
    }

    method CancelLocalOrBrokerOrder(orderId: string)
      returns (result: Result<bool, PlaceError>, ghost up: bool)
      modifies repo, broker
      ensures Outcome(View(), result) == CancelOrder(old(View()), orderId, SimulatedCancel(old(View()), orderId, up))
    {
      up := false;
      var snapshot := Snapshot();
      ghost var w0 := View();
      if orderId !in snapshot.orders || snapshot.orders[orderId].brokerOrderId.None? {
        if orderId !in snapshot.orders && BROKER_PREFIX <= orderId {
          var brokerId := orderId[|BROKER_PREFIX|..];
          if brokerId == [] {
            return Ok(false), up;
          }
          broker.Suspend();
          up := broker.connected;
          var answer := broker.CancelOrder(brokerId);
          return if answer.Err? then Err(BrokerFault) else Ok(answer.value.accepted), up;
        }
        return Ok(false), up;
      }
      var row := snapshot.orders[orderId];
      broker.Suspend();
      up := broker.connected;
      var answer := broker.CancelOrder(row.brokerOrderId.value);
      if answer.Err? {
        return Err(BrokerFault), up;
      }
      if answer.value.accepted {
        repo.UpdateOrderStatus(orderId, OrderStatus.Cancelled);
        return Ok(true), up;
      }
      var open := broker.OpenOrders();
      var found := exists o :: o in open && LocalKeys(row) * RequestKeys(o) != {};
      assert found <==> StillAtBroker(broker.View(), row);
      if found {
        return Ok(false), up;
      }
      repo.UpdateOrderStatus(orderId, OrderStatus.Cancelled);
      return Ok(true), up;
    }
  }

  /** The in-memory broker's replies while a stop is attached to an existing entry. */
  function SimulatedAttach(w: World, orderId: string, stopUp: bool, cancelUp: bool): BracketReplies
    requires orderId in w.store.orders && w.store.orders[orderId].brokerOrderId.Some?
  {
    BracketReplies(Raises, SimulatedReply(stopUp, w.store.orders[orderId].quantity),
                   SimulatedCallReply(cancelUp, w.broker, w.store.orders[orderId].brokerOrderId.value))
  }

  /** The in-memory broker's reply to the cancellation of a local row or of a broker-only order. */
  function SimulatedCancel(w: World, orderId: string, up: bool): CallReply {
    if orderId in w.store.orders then
      SimulatedCallReply(up, w.broker, w.store.orders[orderId].brokerOrderId.GetOr(""))
    else
      SimulatedCallReply(up, w.broker, if BROKER_PREFIX <= orderId then orderId[|BROKER_PREFIX|..] else "")
  }
}
