/**
 The in-memory broker: open orders by broker id, net positions by symbol and a counter of order ids.

 Every call is described by a step function on `BrokerState` that also takes the connector's `Reply`, so that the
 same steps describe any connector; `SimulatedReply` and `SimulatedCancelReply` are the replies the in-memory broker
 gives. `log` is the history of what the broker did and is used in specifications only.
 */
module SimulatedBroker {
  import opened Common
  import opened Models

  datatype BrokerEvent =
    | AcceptedEvent(id: string, order: BrokerOrder)
    | CancelledEvent(id: string)
    | FilledEvent(id: string, symbol: string, side: Side, quantity: int)
    | StopModifiedEvent(id: string, newStop: int)

  datatype BrokerState = BrokerState(
    nextOrderId: nat,
    orders: map<string, BrokerOrder>,
    positions: map<string, BrokerPosition>,
    log: seq<BrokerEvent>)

  /**
   What a connector does with a submission: it raises, or it answers, with or without giving an id; also an order that
   is not accepted may have used up an id.
   */
  datatype Reply = Raises | Answers(accepted: bool, status: OrderStatus, named: bool)

  /** What a connector does with a cancellation or a stop modification. */
  datatype CallReply = CallRaises | CallAccepts | CallRefuses(notFound: bool)

  datatype Fault = BrokerDisconnected

  const EMPTY_BROKER := BrokerState(1000, map[], map[], [])

  // ------------------------------------------------------------- the steps

  function PermId(brokerOrderId: string): string {
    "SIM-" + brokerOrderId
  }

  function SubmitStep(b: BrokerState, request: BrokerOrder, reply: Reply)
    : (r: (BrokerState, Result<BrokerResult, Fault>))
  {
    match reply
    case Raises => (b, Err(BrokerDisconnected))
    case Answers(false, status, false) => (b, Ok(BrokerResult(false, status, None, None, false)))
    case Answers(false, status, true) =>
      var id := Decimal(b.nextOrderId + 1);
      (b.(nextOrderId := b.nextOrderId + 1), Ok(BrokerResult(false, status, Some(id), Some(PermId(id)), false)))
    case Answers(true, status, named) =>
      var id := Decimal(b.nextOrderId + 1);
      var order := request.(symbol := Upper(request.symbol), status := status,
      brokerOrderId := Some(id), brokerPermId := Some(PermId(id)));
      (b.(nextOrderId := b.nextOrderId + 1, orders := b.orders[id := order], log := b.log + [AcceptedEvent(id, order)]),
       Ok(BrokerResult(true, status, if named then Some(id) else None, if named then Some(PermId(id)) else None, false)))
  }

  function CancelStep(b: BrokerState, id: string, reply: CallReply)
    : (r: (BrokerState, Result<BrokerResult, Fault>))
  {
    match reply
    case CallRaises => (b, Err(BrokerDisconnected))
    case CallAccepts =>
      (if id in b.orders
       then b.(orders := b.orders - {id}, log := b.log + [CancelledEvent(id)])
       else b,
       Ok(BrokerResult(true, Cancelled, Some(id), None, false)))
    case CallRefuses(notFound) => (b, Ok(BrokerResult(false, Rejected, Some(id), None, notFound)))
  }

  function ModifyStopStep(b: BrokerState, id: string, newStop: int, reply: CallReply)
    : (r: (BrokerState, Result<BrokerResult, Fault>))
  {
    match reply
    case CallRaises => (b, Err(BrokerDisconnected))
    case CallRefuses(notFound) => (b, Ok(BrokerResult(false, Rejected, Some(id), None, notFound)))
    case CallAccepts =>
      if id !in b.orders then (b, Ok(BrokerResult(true, Submitted, Some(id), None, false)))
      else
        var order := b.orders[id];
        var moved := order.(stopPrice := Some(newStop),
        triggerPrice := if order.orderType == StopLimit then Some(newStop) else order.triggerPrice);
        (b.(orders := b.orders[id := moved], log := b.log + [StopModifiedEvent(id, newStop)]),
         Ok(BrokerResult(true, Submitted, Some(id), order.brokerPermId, false)))
  }

  function SignedQuantity(order: BrokerOrder): int {
    if order.side == Buy then order.quantity else -order.quantity
  }

  /** Fills an open order; the position returned may have quantity zero, which is then not stored. */
  function FillStep(b: BrokerState, id: string, price: int): (r: (BrokerState, Option<BrokerPosition>)) {
    if id !in b.orders then (b, None)
    else
      var order := b.orders[id];
      var signed := SignedQuantity(order);
      var s := order.symbol;
      var filled := b.(orders := b.orders - {id}, log := b.log + [FilledEvent(id, s, order.side, order.quantity)]);
      if s !in b.positions then
        var position := BrokerPosition(s, signed, price, price);
        (filled.(positions := b.positions[s := position]), Some(position))
      else if b.positions[s].quantity + signed == 0 then
        (filled.(positions := b.positions - {s}), Some(BrokerPosition(s, 0, price, price)))
      else
        var position := BrokerPosition(s, b.positions[s].quantity + signed, b.positions[s].averagePrice, price);
        (filled.(positions := b.positions[s := position]), Some(position))
  }

  /** The reply of the in-memory broker to a submission. */
  function SimulatedReply(connected: bool, quantity: int): Reply {
    if !connected then Raises
    else if quantity <= 0 then Answers(false, Rejected, false)
    else Answers(true, Submitted, true)
  }

  /** The reply of the in-memory broker to a cancellation or to a stop modification. */
  function SimulatedCallReply(connected: bool, b: BrokerState, id: string): CallReply {
    if !connected then CallRaises else if id in b.orders then CallAccepts else CallRefuses(true)
  }

  // -------------------------------------------------- what the history says

  ghost function AcceptedIds(log: seq<BrokerEvent>): set<string> {
    if log == [] then {}
    else AcceptedIds(log[..|log| - 1]) + (if log[|log| - 1].AcceptedEvent? then {log[|log| - 1].id} else {})
  }

  ghost function CancelledIds(log: seq<BrokerEvent>): set<string> {
    if log == [] then {}
    else CancelledIds(log[..|log| - 1]) + (if log[|log| - 1].CancelledEvent? then {log[|log| - 1].id} else {})
  }

  ghost function FilledIds(log: seq<BrokerEvent>): set<string> {
    if log == [] then {}
    else FilledIds(log[..|log| - 1]) + (if log[|log| - 1].FilledEvent? then {log[|log| - 1].id} else {})
  }

  /** What a filled order adds to the holdings: a BUY its quantity, a SELL as much taken away. */
  ghost function Moved(e: BrokerEvent): int
    requires e.FilledEvent?
  {
    match e.side
    case Buy => e.quantity
    case Sell => 0 - e.quantity
  }

  /** The filled orders of one symbol, bought minus sold. */
  ghost function NetFilled(log: seq<BrokerEvent>, symbol: string): int {
    if log == [] then 0
    else
      var last := log[|log| - 1];
      NetFilled(log[..|log| - 1], symbol)
      + (if last.FilledEvent? && last.symbol == symbol then Moved(last) else 0)
  }

  /** No order id was ever handed out twice. */
  ghost predicate AcceptedOnce(log: seq<BrokerEvent>) {
    forall i, j :: 0 <= i < j < |log| && log[i].AcceptedEvent? && log[j].AcceptedEvent? ==> log[i].id != log[j].id
  }

  /** The stored quantity of a symbol, zero when no position is stored. */
  function HeldQuantity(b: BrokerState, symbol: string): int {
    if symbol in b.positions then b.positions[symbol].quantity else 0
  }

  lemma HistorySnoc(log: seq<BrokerEvent>, e: BrokerEvent)
    ensures AcceptedIds(log + [e]) == AcceptedIds(log) + (if e.AcceptedEvent? then {e.id} else {})
    ensures CancelledIds(log + [e]) == CancelledIds(log) + (if e.CancelledEvent? then {e.id} else {})
    ensures FilledIds(log + [e]) == FilledIds(log) + (if e.FilledEvent? then {e.id} else {})
    ensures forall s :: NetFilled(log + [e], s)
                        == NetFilled(log, s) + (if e.FilledEvent? && e.symbol == s then Moved(e) else 0)
  {
    assert (log + [e])[..|log|] == log;
  }

  lemma {:induction false} AcceptedIsInHistory(log: seq<BrokerEvent>, i: nat)
    requires i < |log| && log[i].AcceptedEvent?
    ensures log[i].id in AcceptedIds(log)
  {
    if i < |log| - 1 {
      AcceptedIsInHistory(log[..|log| - 1], i);
    }
  }

  // ------------------------------------------------------------ invariant

  /** No number above the counter was handed out. */
  ghost predicate IdsAhead(next: nat, ids: set<string>) {
    forall k: nat :: k > next ==> Decimal(k) !in ids
  }

  ghost predicate Partition(open: set<string>, cancelled: set<string>, filled: set<string>, accepted: set<string>) {
    open + cancelled + filled == accepted && open !! cancelled && open !! filled && cancelled !! filled
  }

  /** Ids are fresh and handed out once; every accepted id is in exactly one of open, cancelled, filled. */
  ghost predicate IdsConsistent(b: BrokerState) {
    && IdsAhead(b.nextOrderId, AcceptedIds(b.log))
    && AcceptedOnce(b.log)
    && Partition(b.orders.Keys, CancelledIds(b.log), FilledIds(b.log), AcceptedIds(b.log))
  }

  /** What holds of the in-memory broker's state and history after every run. */
  ghost predicate Consistent(b: BrokerState) {
    && IdsConsistent(b)
    && (forall id :: id in b.orders ==> b.orders[id].quantity > 0 && b.orders[id].status == Submitted
                                        && b.orders[id].brokerOrderId == Some(id)
                                        && b.orders[id].brokerPermId == Some(PermId(id)))
    && (forall s :: HeldQuantity(b, s) == NetFilled(b.log, s))
    && (forall s :: s in b.positions ==> b.positions[s].quantity != 0 && b.positions[s].symbol == s)
  }

  lemma AcceptedOnceSnoc(log: seq<BrokerEvent>, e: BrokerEvent)
    requires AcceptedOnce(log) && (e.AcceptedEvent? ==> e.id !in AcceptedIds(log))
    ensures AcceptedOnce(log + [e])
  {
    var log' := log + [e];
    hide AcceptedIds;
    forall i, j | 0 <= i < j < |log'| && log'[i].AcceptedEvent? && log'[j].AcceptedEvent?
      ensures log'[i].id != log'[j].id
    {
      if j == |log| { AcceptedIsInHistory(log, i); }
    }
  }

  lemma IdsStayAhead(n: nat, ids: set<string>)
    requires IdsAhead(n, ids)
    ensures Decimal(n + 1) !in ids && IdsAhead(n + 1, ids + {Decimal(n + 1)})
  {
    forall k: nat | k > n + 1 ensures Decimal(k) !in ids + {Decimal(n + 1)} {
      if Decimal(k) == Decimal(n + 1) { DecimalInjective(k, n + 1); }
    }
  }

  lemma PartitionGrows(open: set<string>, cancelled: set<string>, filled: set<string>, accepted: set<string>, id: string)
    requires Partition(open, cancelled, filled, accepted) && id !in accepted
    ensures Partition(open + {id}, cancelled, filled, accepted + {id})
  {
  }

  lemma SubmitKeepsIds(b: BrokerState, request: BrokerOrder, reply: Reply)
    requires IdsConsistent(b)
    ensures IdsConsistent(SubmitStep(b, request, reply).0)
  {
    if reply.Answers? && reply.accepted {
      var b' := SubmitStep(b, request, reply).0;
      var e := b'.log[|b.log|];
      hide Decimal, Partition, IdsAhead, AcceptedIds, CancelledIds, FilledIds, AcceptedOnce;
      IdsStayAhead(b.nextOrderId, AcceptedIds(b.log));
      assert b'.log == b.log + [e] && e.id == Decimal(b.nextOrderId + 1);
      assert b'.orders.Keys == b.orders.Keys + {e.id};
      HistorySnoc(b.log, e);
      AcceptedOnceSnoc(b.log, e);
      PartitionGrows(b.orders.Keys, CancelledIds(b.log), FilledIds(b.log), AcceptedIds(b.log), e.id);
    }
  }

  lemma SubmitKeepsConsistent(b: BrokerState, request: BrokerOrder, reply: Reply)
    requires Consistent(b)
    requires reply.Answers? && reply.accepted ==> request.quantity > 0 && reply.status == Submitted
    ensures Consistent(SubmitStep(b, request, reply).0)
  {
    SubmitKeepsIds(b, request, reply);
    if reply.Answers? && reply.accepted {
      var b' := SubmitStep(b, request, reply).0;
      HistorySnoc(b.log, b'.log[|b.log|]);
      assert forall s :: HeldQuantity(b', s) == HeldQuantity(b, s);
    }
  }

  lemma CancelKeepsConsistent(b: BrokerState, id: string, reply: CallReply)
    requires Consistent(b)
    ensures Consistent(CancelStep(b, id, reply).0)
  {
    hide AcceptedIds, CancelledIds, FilledIds, NetFilled, PermId;
    var b' := CancelStep(b, id, reply).0;
    if b' != b {
      var e := b'.log[|b.log|];
      assert b'.log == b.log + [e];
      AcceptedOnceSnoc(b.log, e);
      HistorySnoc(b.log, e);
      assert b'.orders.Keys == b.orders.Keys - {id};
      assert forall s :: HeldQuantity(b', s) == HeldQuantity(b, s);
    }
  }

  lemma ModifyKeepsConsistent(b: BrokerState, id: string, newStop: int, reply: CallReply)
    requires Consistent(b)
    ensures Consistent(ModifyStopStep(b, id, newStop, reply).0)
  {
    hide AcceptedIds, CancelledIds, FilledIds, NetFilled, PermId;
    var b' := ModifyStopStep(b, id, newStop, reply).0;
    if b' != b && b'.log != b.log {
      var e := b'.log[|b.log|];
      assert b'.log == b.log + [e];
      AcceptedOnceSnoc(b.log, e);
      HistorySnoc(b.log, e);
      assert b'.orders.Keys == b.orders.Keys;
      assert forall s :: HeldQuantity(b', s) == HeldQuantity(b, s);
    }
  }

  lemma FillTakesOrder(b: BrokerState, id: string, price: int)
    requires id in b.orders
    ensures var b' := FillStep(b, id, price).0;
            && b'.orders == b.orders - {id} && b'.nextOrderId == b.nextOrderId
            && b'.log == b.log + [FilledEvent(id, b.orders[id].symbol, b.orders[id].side, b.orders[id].quantity)]
            && AcceptedIds(b'.log) == AcceptedIds(b.log)
  {
    HistorySnoc(b.log, FilledEvent(id, b.orders[id].symbol, b.orders[id].side, b.orders[id].quantity));
  }

  lemma CancelTakesOrder(b: BrokerState, id: string)
    ensures var b' := CancelStep(b, id, CallAccepts).0;
            b'.orders == b.orders - {id} && AcceptedIds(b'.log) == AcceptedIds(b.log)
  {
    if id in b.orders {
      HistorySnoc(b.log, CancelledEvent(id));
    }
  }

  lemma FillKeepsIds(b: BrokerState, id: string, price: int)
    requires IdsConsistent(b)
    ensures IdsConsistent(FillStep(b, id, price).0)
  {
    if id in b.orders {
      FillTakesOrder(b, id, price);
      HistorySnoc(b.log, FilledEvent(id, b.orders[id].symbol, b.orders[id].side, b.orders[id].quantity));
      assert FillStep(b, id, price).0.orders.Keys == b.orders.Keys - {id};
    }
  }

  /** A fill moves the holdings of its symbol, and of no other: up by what a BUY asks for, down by what a SELL does. */
  lemma FillMovesHoldings(b: BrokerState, id: string, price: int, s: string)
    requires id in b.orders
    ensures HeldQuantity(FillStep(b, id, price).0, s)
            == HeldQuantity(b, s) + (if b.orders[id].symbol != s then 0
                                     else if b.orders[id].side == Buy then b.orders[id].quantity
                                     else -b.orders[id].quantity)
  {
  }

  lemma FillKeepsConsistent(b: BrokerState, id: string, price: int)
    requires Consistent(b)
    ensures Consistent(FillStep(b, id, price).0)
  {
    FillKeepsIds(b, id, price);
    if id in b.orders {
      hide IdsConsistent;
      var b' := FillStep(b, id, price).0;
      FillTakesOrder(b, id, price);
      HistorySnoc(b.log, FilledEvent(id, b.orders[id].symbol, b.orders[id].side, b.orders[id].quantity));
      forall s ensures HeldQuantity(b', s) == NetFilled(b'.log, s) {
        FillMovesHoldings(b, id, price, s);
      }
    }
  }

  // ---------------------------------------------------------------- runs

  datatype BrokerCall =
    | Submit(request: BrokerOrder, connected: bool)
    | Cancel(id: string, connected: bool)
    | ModifyStop(id: string, newStop: int, connected: bool)
    | Fill(id: string, price: int)

  function Perform(b: BrokerState, call: BrokerCall): BrokerState {
    match call
    case Submit(request, connected) => SubmitStep(b, request, SimulatedReply(connected, request.quantity)).0
    case Cancel(id, connected) => CancelStep(b, id, SimulatedCallReply(connected, b, id)).0
    case ModifyStop(id, newStop, connected) => ModifyStopStep(b, id, newStop, SimulatedCallReply(connected, b, id)).0
    case Fill(id, price) => FillStep(b, id, price).0
  }

  function BrokerRun(b: BrokerState, calls: seq<BrokerCall>): BrokerState
    decreases |calls|
  {
    if calls == [] then b else BrokerRun(Perform(b, calls[0]), calls[1..])
  }

  lemma {:induction false} BrokerRunConsistent(b: BrokerState, calls: seq<BrokerCall>)
    requires Consistent(b)
    ensures Consistent(BrokerRun(b, calls))
    decreases |calls|
  {
    if calls != [] {
      match calls[0] {
        case Submit(request, connected) => SubmitKeepsConsistent(b, request, SimulatedReply(connected, request.quantity));
        case Cancel(id, connected) => CancelKeepsConsistent(b, id, SimulatedCallReply(connected, b, id));
        case ModifyStop(id, newStop, connected) =>
          ModifyKeepsConsistent(b, id, newStop, SimulatedCallReply(connected, b, id));
        case Fill(id, price) => FillKeepsConsistent(b, id, price);
      }
      BrokerRunConsistent(Perform(b, calls[0]), calls[1..]);
    }
  }

  /**
   Conservation over every run of the in-memory broker, whenever it is connected or not: what is held of a symbol is
   what was bought of it minus what was sold, no stored position is empty, ids are never handed out twice, and each
   accepted id is in exactly one of open, cancelled and filled.
   */
  lemma PositionsAreConserved(calls: seq<BrokerCall>)
    ensures var b := BrokerRun(EMPTY_BROKER, calls);
            && (forall s :: HeldQuantity(b, s) == NetFilled(b.log, s))
            && (forall s :: s in b.positions ==> b.positions[s].quantity != 0)
            && AcceptedOnce(b.log)
            && (forall id :: id in AcceptedIds(b.log) <==>
                             id in b.orders || id in CancelledIds(b.log) || id in FilledIds(b.log))
            && b.orders.Keys !! CancelledIds(b.log) !! FilledIds(b.log)
  {
    BrokerRunConsistent(EMPTY_BROKER, calls);
    var b := BrokerRun(EMPTY_BROKER, calls);
    forall id ensures id in AcceptedIds(b.log) <==>
                      id in b.orders || id in CancelledIds(b.log) || id in FilledIds(b.log)
    {
      assert id in AcceptedIds(b.log) <==> id in b.orders.Keys + CancelledIds(b.log) + FilledIds(b.log);
    }
  }

  // ------------------------------------------------------------- the class

  /** The broker object; `connected`, `nextOrderId`, `orders` and `positions` are the connector's own fields. */
  class Broker {
    const paperAccount: bool
    var connected: bool
    var nextOrderId: nat
    var orders: map<string, BrokerOrder>
    var positions: map<string, BrokerPosition>
    ghost var log: seq<BrokerEvent>

    ghost function View(): BrokerState
      reads this
    {
      BrokerState(nextOrderId, orders, positions, log)
    }

    constructor (paperAccount: bool)
      ensures View() == EMPTY_BROKER && !connected && this.paperAccount == paperAccount
      ensures Consistent(View())
    {
      this.paperAccount := paperAccount;
      connected := false;
      nextOrderId := 1000;
      orders := map[];
      positions := map[];
      log := [];
    }

    method Connect()
      modifies this`connected
      ensures connected
    {
      connected := true;
    }

    method Disconnect()
      modifies this`connected
      ensures !connected
    {
      connected := false;
    }

    /** While a task is suspended at an await, other tasks may connect or disconnect the broker. */
    method Suspend()
      modifies this`connected
    {
      if * {
        Connect();
      } else if * {
        Disconnect();
      }
    }

    method SubmitOrder(request: BrokerOrder) returns (result: Result<BrokerResult, Fault>)
      modifies this
      ensures connected == old(connected)
      ensures (View(), result) == SubmitStep(old(View()), request, SimulatedReply(connected, request.quantity))
    {
      if !connected {
        return Err(BrokerDisconnected);
      }
      var normalized := request.(symbol := Upper(request.symbol));
      if normalized.quantity <= 0 {
        return Ok(BrokerResult(false, Rejected, None, None, false));
      }
      nextOrderId := nextOrderId + 1;
      var id := Decimal(nextOrderId);
      normalized := normalized.(status := Submitted, brokerOrderId := Some(id), brokerPermId := Some(PermId(id)));
      orders := orders[id := normalized];
      log := log + [AcceptedEvent(id, normalized)];
      return Ok(BrokerResult(true, Submitted, Some(id), Some(PermId(id)), false));
    }

    method CancelOrder(id: string) returns (result: Result<BrokerResult, Fault>)
      modifies this
      ensures connected == old(connected)
      ensures (View(), result) == CancelStep(old(View()), id, SimulatedCallReply(connected, old(View()), id))
    {
      if !connected {
        return Err(BrokerDisconnected);
      }
      if id in orders {
        orders := orders - {id};
        log := log + [CancelledEvent(id)];
        return Ok(BrokerResult(true, Cancelled, Some(id), None, false));
      }
      return Ok(BrokerResult(false, Rejected, Some(id), None, true));
    }

    method ModifyStopOrder(id: string, newStop: int) returns (result: Result<BrokerResult, Fault>)
      modifies this
      ensures connected == old(connected)
      ensures (View(), result) == ModifyStopStep(old(View()), id, newStop, SimulatedCallReply(connected, old(View()), id))
    {
      if !connected {
        return Err(BrokerDisconnected);
      }
      if id !in orders {
        return Ok(BrokerResult(false, Rejected, Some(id), None, true));
      }
      var order := orders[id].(stopPrice := Some(newStop));
      if order.orderType == StopLimit {
        order := order.(triggerPrice := Some(newStop));
      }
      orders := orders[id := order];
      log := log + [StopModifiedEvent(id, newStop)];
      return Ok(BrokerResult(true, Submitted, Some(id), order.brokerPermId, false));
    }

    method SimulateFill(id: string, price: int) returns (position: Option<BrokerPosition>)
      modifies this
      ensures connected == old(connected)
      ensures (View(), position) == FillStep(old(View()), id, price)
    {
      if id !in orders {
        return None;
      }
      var order := orders[id];
      orders := orders - {id};
      var signed := SignedQuantity(order);
      log := log + [FilledEvent(id, order.symbol, order.side, order.quantity)];
      if order.symbol !in positions {
        position := Some(BrokerPosition(order.symbol, signed, price, price));
      } else {
        var existing := positions[order.symbol];
        var newQuantity := existing.quantity + signed;
        if newQuantity == 0 {
          positions := positions - {order.symbol};
          return Some(BrokerPosition(order.symbol, 0, price, price));
        }
        position := Some(BrokerPosition(order.symbol, newQuantity, existing.averagePrice, price));
      }
      positions := positions[order.symbol := position.value];
    }

    /** Every open order once, in some order. */
    method OpenOrders() returns (open: seq<BrokerOrder>)
      ensures |open| == |orders|
      ensures forall id :: id in orders ==> orders[id] in open
      ensures forall o :: o in open ==> exists id :: id in orders && orders[id] == o
    {
      open := [];
      var rest := orders.Keys;
      while rest != {}
        invariant rest <= orders.Keys
        invariant |open| + |rest| == |orders|
        invariant forall id :: id in orders && id !in rest ==> orders[id] in open
        invariant forall o :: o in open ==> exists id :: id in orders && orders[id] == o
        decreases rest
      {
        var id :| id in rest;
        open := open + [orders[id]];
        rest := rest - {id};
      }
    }
  }
}
