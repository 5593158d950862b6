/**
 Safety of the bracket protocol against any broker connector, whatever it answers and wherever it raises.

 A parent sent without `transmit` is not live until a transmitting child that names it is accepted after it.
 */
module BracketSafety {
  import opened Common
  import opened Models
  import opened SimulatedBroker
  import opened Repository
  import opened OrderManager

  ghost predicate Gone(log: seq<BrokerEvent>, id: string) {
    id in CancelledIds(log) || id in FilledIds(log)
  }

  ghost predicate IsChildOf(e: BrokerEvent, parent: string) {
    e.AcceptedEvent? && e.order.parentId == Some(parent)
  }

  /** A BUY order the market may fill: accepted, still open, and transmitted by itself or by a later child. */
  ghost predicate EntryLive(log: seq<BrokerEvent>, id: string) {
    && !Gone(log, id)
    && exists i :: 0 <= i < |log| && log[i].AcceptedEvent? && log[i].id == id && log[i].order.side == Buy
                   && (log[i].order.transmit
                       || exists j :: i < j < |log| && IsChildOf(log[j], id) && log[j].order.transmit)
  }

  /** An accepted SELL stop under `parent`, still open, for the whole quantity at the given price. */
  ghost predicate StopStanding(log: seq<BrokerEvent>, parent: string, quantity: int, stop: int) {
    exists j :: 0 <= j < |log| && IsChildOf(log[j], parent) && log[j].order.side == Sell
                && log[j].order.quantity == quantity && log[j].order.stopPrice == Some(stop) && !Gone(log, log[j].id)
  }

  /** Relative to `base`: the only entry that may have become live is `id`, and then its stop stands. */
  ghost predicate Covered(base: seq<BrokerEvent>, log: seq<BrokerEvent>, id: string, quantity: int, stop: int) {
    forall x :: EntryLive(log, x) ==> EntryLive(base, x) || (x == id && StopStanding(log, id, quantity, stop))
  }

  lemma LiveSnoc(log: seq<BrokerEvent>, e: BrokerEvent, x: string)
    requires EntryLive(log + [e], x)
    ensures EntryLive(log, x)
            || (e.AcceptedEvent? && e.id == x && e.order.side == Buy && e.order.transmit)
            || (IsChildOf(e, x) && e.order.transmit && e.id != x)
            || (exists i :: 0 <= i < |log| && log[i].AcceptedEvent? && log[i].id == x && e.AcceptedEvent? && e.id == x)
    ensures !Gone(log, x)
  {
    HistorySnoc(log, e);
    var l := log + [e];
    var i :| 0 <= i < |l| && l[i].AcceptedEvent? && l[i].id == x && l[i].order.side == Buy
             && (l[i].order.transmit || exists j :: i < j < |l| && IsChildOf(l[j], x) && l[j].order.transmit);
    if i < |log| && !log[i].order.transmit {
      var j :| i < j < |l| && IsChildOf(l[j], x) && l[j].order.transmit;
      assert j < |log| ==> log[j] == l[j];
    }
  }

  /** Accepting the untransmitted parent makes nothing live. */
  lemma ParentAloneIsNotLive(b: BrokerState, request: BrokerOrder, status: OrderStatus, named: bool,
                             quantity: int, stop: int)
    requires IdsConsistent(b) && !request.transmit && request.parentId.None?
    ensures var id := Decimal(b.nextOrderId + 1);
            var b' := SubmitStep(b, request, Answers(true, status, named)).0;
            Covered(b.log, b'.log, id, quantity, stop)
  {
    var id := Decimal(b.nextOrderId + 1);
    var b' := SubmitStep(b, request, Answers(true, status, named)).0;
    forall x | EntryLive(b'.log, x) ensures EntryLive(b.log, x) {
      LiveSnoc(b.log, b'.log[|b.log|], x);
      if i :| 0 <= i < |b.log| && b.log[i].AcceptedEvent? && b.log[i].id == id {
        AcceptedIsInHistory(b.log, i);
      }
    }
  }

  /** Accepting the transmitting stop child makes at most its parent live, and the stop stands. */
  lemma ChildStands(base: seq<BrokerEvent>, b: BrokerState, request: BrokerOrder, status: OrderStatus, named: bool,
                    id: string, stop: int)
    requires IdsConsistent(b) && Covered(base, b.log, id, request.quantity, stop)
    requires request.parentId == Some(id) && request.side == Sell && request.stopPrice == Some(stop)
    ensures var b' := SubmitStep(b, request, Answers(true, status, named)).0;
            Covered(base, b'.log, id, request.quantity, stop) && StopStanding(b'.log, id, request.quantity, stop)
  {
    var b' := SubmitStep(b, request, Answers(true, status, named)).0;
    var e := b'.log[|b.log|];
    HistorySnoc(b.log, e);
    assert e.id !in AcceptedIds(b.log);
    assert e.id !in CancelledIds(b.log) && e.id !in FilledIds(b.log) by {
      assert CancelledIds(b.log) <= b.orders.Keys + CancelledIds(b.log) + FilledIds(b.log);
      assert FilledIds(b.log) <= b.orders.Keys + CancelledIds(b.log) + FilledIds(b.log);
    }
    assert StopStanding(b'.log, id, request.quantity, stop) by {
      assert IsChildOf(b'.log[|b.log|], id);
    }
    forall x | EntryLive(b'.log, x) && x != id ensures EntryLive(base, x) {
      LiveSnoc(b.log, e, x);
      if i :| 0 <= i < |b.log| && b.log[i].AcceptedEvent? && b.log[i].id == e.id {
        AcceptedIsInHistory(b.log, i);
      }
    }
  }

  /** Cancelling the parent leaves it not live. */
  lemma CancelUndoes(base: seq<BrokerEvent>, b: BrokerState, id: string, quantity: int, stop: int, reply: CallReply)
    requires Covered(base, b.log, id, quantity, stop)
    ensures Covered(base, CancelStep(b, id, reply).0.log, id, quantity, stop)
  {
    var b' := CancelStep(b, id, reply).0;
    if b'.log != b.log {
      var e := b'.log[|b.log|];
      HistorySnoc(b.log, e);
      forall x | EntryLive(b'.log, x) ensures EntryLive(base, x) {
        LiveSnoc(b.log, e, x);
      }
    }
  }

  /** Every prefix of `log` from `base` on is covered. */
  ghost predicate CoveredThroughout(base: seq<BrokerEvent>, log: seq<BrokerEvent>, id: string, quantity: int, stop: int)
  {
    base <= log && forall k :: |base| <= k <= |log| ==> Covered(base, log[..k], id, quantity, stop)
  }

  lemma OneMoreEvent(base: seq<BrokerEvent>, log: seq<BrokerEvent>, e: BrokerEvent, id: string, quantity: int, stop: int)
    requires CoveredThroughout(base, log, id, quantity, stop) && Covered(base, log + [e], id, quantity, stop)
    ensures CoveredThroughout(base, log + [e], id, quantity, stop)
  {
    forall k | |base| <= k <= |log + [e]| ensures Covered(base, (log + [e])[..k], id, quantity, stop) {
      assert (log + [e])[..k] == if k <= |log| then log[..k] else log + [e];
    }
  }

  lemma NoEventYet(base: seq<BrokerEvent>, id: string, quantity: int, stop: int)
    ensures CoveredThroughout(base, base, id, quantity, stop)
  {
    assert base[..|base|] == base;
  }

  lemma FirstStep(b: BrokerState, request: BrokerOrder, reply: Reply, quantity: int, stop: int)
    requires IdsConsistent(b) && !request.transmit && request.parentId.None?
    ensures CoveredThroughout(b.log, SubmitStep(b, request, reply).0.log, Decimal(b.nextOrderId + 1), quantity, stop)
  {
    NoEventYet(b.log, Decimal(b.nextOrderId + 1), quantity, stop);
    if reply.Answers? && reply.accepted {
      ParentAloneIsNotLive(b, request, reply.status, reply.named, quantity, stop);
      OneMoreEvent(b.log, b.log, SubmitStep(b, request, reply).0.log[|b.log|], Decimal(b.nextOrderId + 1), quantity, stop);
    }
  }

  lemma SecondStep(base: seq<BrokerEvent>, b: BrokerState, request: BrokerOrder, reply: Reply, id: string, stop: int)
    requires IdsConsistent(b) && CoveredThroughout(base, b.log, id, request.quantity, stop)
    requires request.parentId == Some(id) && request.side == Sell && request.stopPrice == Some(stop)
    ensures CoveredThroughout(base, SubmitStep(b, request, reply).0.log, id, request.quantity, stop)
  {
    if reply.Answers? && reply.accepted {
      assert b.log[..|b.log|] == b.log;
      ChildStands(base, b, request, reply.status, reply.named, id, stop);
      OneMoreEvent(base, b.log, SubmitStep(b, request, reply).0.log[|b.log|], id, request.quantity, stop);
    }
  }

  lemma ThirdStep(base: seq<BrokerEvent>, b: BrokerState, id: string, quantity: int, stop: int, reply: CallReply)
    requires CoveredThroughout(base, b.log, id, quantity, stop)
    ensures CoveredThroughout(base, CancelStep(b, id, reply).0.log, id, quantity, stop)
  {
    var b' := CancelStep(b, id, reply).0;
    if b'.log != b.log {
      assert b.log[..|b.log|] == b.log;
      CancelUndoes(base, b, id, quantity, stop, reply);
      OneMoreEvent(base, b.log, b'.log[|b.log|], id, quantity, stop);
    }
  }

  /** The broker side of a bracket: parent, then child, then possibly the compensating cancel. */
  function BrokerAfter(b: BrokerState, parent: OrderRow, child: OrderRow, replies: BracketReplies)
    : (BrokerState, BrokerState, BrokerState)
  {
    var id := Decimal(b.nextOrderId + 1);
    var b1 := SubmitStep(b, ToRequest(parent, None, false), replies.entry).0;
    var b2 := SubmitStep(b1, ToRequest(child, Some(id), true), replies.stop).0;
    (b1, b2, CancelStep(b2, id, replies.cancel).0)
  }

  lemma BrokerSideOfBracket(w: World, setup: Setup, parent: OrderRow, child: OrderRow, replies: BracketReplies)
    requires setup.config.paperMode == w.paperAccount
    ensures var after := BrokerAfter(w.broker, parent, child, replies);
            Bracket(w, setup, parent, child, replies).world.broker in {w.broker, after.0, after.1, after.2}
  {
  }

  lemma BrokerSideCovered(b: BrokerState, parent: OrderRow, child: OrderRow, replies: BracketReplies, stop: int)
    requires IdsConsistent(b) && parent.parentId.None? && child.side == Sell && child.stopPrice == Some(stop)
    ensures var after := BrokerAfter(b, parent, child, replies);
            var id := Decimal(b.nextOrderId + 1);
            && CoveredThroughout(b.log, b.log, id, child.quantity, stop)
            && CoveredThroughout(b.log, after.0.log, id, child.quantity, stop)
            && CoveredThroughout(b.log, after.1.log, id, child.quantity, stop)
            && CoveredThroughout(b.log, after.2.log, id, child.quantity, stop)
  {
    var id := Decimal(b.nextOrderId + 1);
    var after := BrokerAfter(b, parent, child, replies);
    NoEventYet(b.log, id, child.quantity, stop);
    FirstStep(b, ToRequest(parent, None, false), replies.entry, child.quantity, stop);
    SubmitKeepsIds(b, ToRequest(parent, None, false), replies.entry);
    SecondStep(b.log, after.0, ToRequest(child, Some(id), true), replies.stop, id, stop);
    ThirdStep(b.log, after.1, id, child.quantity, stop, replies.cancel);
  }

  lemma GateMeansStop(w: World, setup: Setup)
    requires EntryGate(w, setup).None?
    ensures setup.config.paperMode == w.paperAccount && TrailingInitialStop(setup.config).Some?
  {
    hide PositionOpen, HasActiveStop, HasActiveEntry, TrailingStopOrderReady;
  }

  /**
   At every broker step of `place_entry_order`, on every path it can leave by, including the exceptional ones: the
   call makes no other order live, and whenever its own entry is live an accepted stop for the whole quantity at the
   configured trailing stop stands under it.
   */
  lemma BracketNeverNaked(w: World, setup: Setup, d: RiskDecision, ids: (string, string), defaults: Defaults,
                          replies: BracketReplies)
    requires IdsConsistent(w.broker)
    ensures CoveredThroughout(w.broker.log, PlaceEntry(w, setup, d, ids, defaults, replies).world.broker.log,
                              Decimal(w.broker.nextOrderId + 1), d.quantity, TrailingInitialStop(setup.config).GetOr(0))
  {
    hide CoveredThroughout, Bracket, BrokerAfter, IdsConsistent, Decimal, EntryPrices, ManagedStopType, EntryGate;
    var stop := TrailingInitialStop(setup.config).GetOr(0);
    var parent := EntryRow(setup, d, ids.0, defaults);
    var child := StopRow(setup, d.quantity, stop, ids.1, Some(ids.0), defaults);
    BrokerSideCovered(w.broker, parent, child, replies, stop);
    if EntryGate(w, setup).None? {
      GateMeansStop(w, setup);
      BrokerSideOfBracket(w, setup, parent, child, replies);
    }
  }

  // -------------------------------------------------------------- the gates

  /** An order row the engine regards as working: CREATED or SUBMITTED. */
  predicate WorkingRow(row: OrderRow) {
    row.status in {Created, Submitted}
  }

  /** The trailing stop is switched on with a positive stop, whose broker order is required before the entry and ready. */
  predicate StopPrepared(config: SetupConfig) {
    && config.trailing.Some? && config.trailing.value.enabled
    && config.trailing.value.initialStop.Some? && config.trailing.value.initialStop.value > 0
    && config.trailing.value.brokerOrder.Some? && config.trailing.value.brokerOrder.value.requiredBeforeEntry
    && (config.trailing.value.ready == Some(true)
        || (config.trailing.value.ready.None? && config.trailing.value.brokerOrder.value.ready == Some(true)))
  }

  /**
   When a bracket is sent at all: exactly when the setup trades on this account, may enter, has no working BUY row, has
   a working SELL stop if it has an open position, and its stop is prepared.
   */
  lemma EntryPassesExactly(w: World, setup: Setup)
    ensures EntryGate(w, setup).None?
            <==> (&& setup.config.paperMode == w.paperAccount && setup.config.role != Some(ManagementOnly)
                  && !(exists id :: id in w.store.orders && w.store.orders[id].setupId == setup.id
                                    && w.store.orders[id].side == Buy && WorkingRow(w.store.orders[id]))
                  && ((exists s :: s in w.store.positions && w.store.positions[s].setupId == setup.id
                                   && w.store.positions[s].quantity != 0)
                      ==> (exists id :: id in w.store.orders && w.store.orders[id].setupId == setup.id
                                        && w.store.orders[id].side == Sell && w.store.orders[id].stopPrice.Some?
                                        && WorkingRow(w.store.orders[id])))
                  && StopPrepared(setup.config))
  {
    assert PositionOpen(w.store, setup.id)
           <==> exists s :: s in w.store.positions && w.store.positions[s].setupId == setup.id
                            && w.store.positions[s].quantity != 0;
    assert HasActiveStop(w.store, setup.id)
           <==> exists id :: id in w.store.orders && w.store.orders[id].setupId == setup.id
                             && w.store.orders[id].side == Sell && w.store.orders[id].stopPrice.Some?
                             && WorkingRow(w.store.orders[id]) by {
      assert forall id :: id in w.store.orders ==> (IsActive(w.store.orders[id].status)
                                                    <==> WorkingRow(w.store.orders[id]));
    }
    assert HasActiveEntry(w.store, setup.id)
           <==> exists id :: id in w.store.orders && w.store.orders[id].setupId == setup.id
                             && w.store.orders[id].side == Buy && WorkingRow(w.store.orders[id]) by {
      assert forall id :: id in w.store.orders ==> (IsActive(w.store.orders[id].status)
                                                    <==> WorkingRow(w.store.orders[id]));
    }
  }

  /**
   When a missing stop is attached at all: exactly when the row is a working BUY that the broker knows, of a stored
   setup with a positive trailing stop, and no working SELL row hangs under it.
   */
  lemma AttachPassesExactly(w: World, orderId: string)
    ensures AttachGate(w, orderId).None?
            <==> (&& orderId in w.store.orders
                  && var entry := w.store.orders[orderId];
                     && entry.side == Buy && WorkingRow(entry) && entry.brokerOrderId.Some?
                     && entry.setupId in w.store.setups
                     && !(exists id :: id in w.store.orders && w.store.orders[id].setupId == entry.setupId
                                       && w.store.orders[id].side == Sell && w.store.orders[id].parentId == Some(entry.id)
                                       && WorkingRow(w.store.orders[id]))
                     && var trailing := w.store.setups[entry.setupId].setup.config.trailing;
                        trailing.Some? && trailing.value.enabled && trailing.value.initialStop.Some?
                        && trailing.value.initialStop.value > 0)
  {
    assert forall id :: id in w.store.orders ==> (IsActive(w.store.orders[id].status) <==> WorkingRow(w.store.orders[id]));
  }

  // ---------------------------------------------------------------- outcome

  /** The statuses under which a connector refuses. */
  predicate Refusing(status: OrderStatus) {
    status in {Rejected, Errored}
  }

  /** A connector that accepts exactly what it does not report as rejected or in error. */
  predicate KeepsContract(reply: Reply) {
    reply.Answers? ==> (reply.accepted <==> !Refusing(reply.status))
  }

  /** The broker holds a transmitting SELL stop of that type under `parent`, for that quantity at that price. */
  ghost predicate StopHeld(b: BrokerState, id: string, parent: string, symbol: string, orderType: OrderType,
                           quantity: int, stop: int)
  {
    && id in b.orders
    && var o := b.orders[id];
       && o.parentId == Some(parent) && o.transmit && o.symbol == Upper(symbol) && o.side == Sell
       && o.orderType == orderType && o.quantity == quantity && o.stopPrice == Some(stop)
       && o.limitPrice.None? && o.triggerPrice.None?
  }

  predicate EntryTaken(reply: Reply) {
    reply.Answers? && reply.accepted && !Refusing(reply.status) && reply.named
  }

  lemma FreshIds(b: BrokerState)
    requires IdsConsistent(b)
    ensures Decimal(b.nextOrderId + 1) !in b.orders && Decimal(b.nextOrderId + 2) !in b.orders
    ensures Decimal(b.nextOrderId + 1) != Decimal(b.nextOrderId + 2)
  {
    if Decimal(b.nextOrderId + 1) == Decimal(b.nextOrderId + 2) {
      DecimalInjective(b.nextOrderId + 1, b.nextOrderId + 2);
    }
    assert b.orders.Keys <= AcceptedIds(b.log);
  }

  /** The three shapes in which a bracket whose parent is answered ends. */
  lemma EntryNotTaken(w: World, setup: Setup, parent: OrderRow, child: OrderRow, replies: BracketReplies)
    requires setup.id in w.store.setups && replies.entry.Answers? && !EntryTaken(replies.entry)
    ensures var r := Bracket(w, setup, parent, child, replies);
            && r.result.Ok?
            && setup.id in r.world.store.setups
            && r.world.store.setups[setup.id].status == ErrorRequiresManualReview
            && r.world.broker == BrokerAfter(w.broker, parent, child, replies).0
  {
  }

  /** The row sent, with the status answered and the broker's id if one was given. */
  ghost predicate StoredAs(orders: map<string, OrderRow>, row: OrderRow, brokerId: string, reply: Reply)
    requires reply.Answers?
  {
    && row.id in orders
    && orders[row.id] == row.(status := reply.status, brokerOrderId := if reply.named then Some(brokerId) else None,
       brokerPermId := if reply.named then Some(PermId(brokerId)) else None)
  }

  lemma SentIsStored(w: World, row: OrderRow, brokerParent: Option<string>, transmit: bool, reply: Reply)
    requires reply.Answers?
    ensures var sent := SendRow(w, row, brokerParent, transmit, reply);
            && sent.result.Ok? && StoredAs(sent.world.store.orders, row, Decimal(w.broker.nextOrderId + 1), reply)
            && sent.result.value.0 == sent.world.store.orders[row.id]
            && sent.result.value.1.accepted == reply.accepted && sent.result.value.1.status == reply.status
            && sent.world.broker == SubmitStep(w.broker, ToRequest(row, brokerParent, transmit), reply).0
            && sent.world.paperAccount == w.paperAccount && sent.world.store.setups == w.store.setups
            && (forall id :: id in w.store.orders && id != row.id ==>
                               id in sent.world.store.orders && sent.world.store.orders[id] == w.store.orders[id])
            && (reply.accepted ==> sent.world.broker.nextOrderId == w.broker.nextOrderId + 1)
  {
    hide Decimal;
  }

  /** A stop that is answered and not refused stands, and both rows are stored. */
  lemma ChildPlaced(w: World, setup: Setup, entry: OrderRow, child: OrderRow, replies: BracketReplies)
    requires setup.config.paperMode == w.paperAccount && entry.brokerOrderId.Some? && setup.id in w.store.setups
    requires replies.stop.Answers? && !IsRefusal(replies.stop.status)
    requires entry.id in w.store.orders && entry.id != child.id
    ensures var r := AttachChild(w, setup, entry, child, replies);
            var after := r.world;
            && r.result == Ok(entry)
            && after.broker == SubmitStep(w.broker, ToRequest(child, entry.brokerOrderId, true), replies.stop).0
            && setup.id in after.store.setups && after.store.setups[setup.id].status == EntryOrderPlaced
            && entry.id in after.store.orders && after.store.orders[entry.id] == w.store.orders[entry.id]
            && StoredAs(after.store.orders, child, Decimal(w.broker.nextOrderId + 1), replies.stop)
  {
    hide Decimal, SendRow, SubmitStep, ToRequest;
    SentIsStored(w, child, entry.brokerOrderId, true, replies.stop);
  }

  /** The rows stored for a standing bracket are the rows sent, under the ids and statuses answered. */
  lemma StopStands(w: World, setup: Setup, parent: OrderRow, child: OrderRow, replies: BracketReplies)
    requires setup.id in w.store.setups && setup.config.paperMode == w.paperAccount && EntryTaken(replies.entry)
    requires replies.stop.Answers? && !IsRefusal(replies.stop.status) && parent.id != child.id
    ensures var r := Bracket(w, setup, parent, child, replies);
            && r.result.Ok?
            && setup.id in r.world.store.setups
            && r.world.store.setups[setup.id].status == EntryOrderPlaced
            && r.world.broker == BrokerAfter(w.broker, parent, child, replies).1
            && StoredAs(r.world.store.orders, parent, Decimal(w.broker.nextOrderId + 1), replies.entry)
            && StoredAs(r.world.store.orders, child, Decimal(w.broker.nextOrderId + 2), replies.stop)
  {
    hide Decimal, AttachChild, SendRow, SubmitStep, CancelStep, ToRequest, Compensate, PermId;
    SentIsStored(w, parent, None, false, replies.entry);
    var sent := SendRow(w, parent, None, false, replies.entry);
    ChildPlaced(sent.world, setup, sent.result.value.0, child, replies);
  }

  lemma ChildFails(w: World, setup: Setup, entry: OrderRow, child: OrderRow, replies: BracketReplies)
    requires setup.config.paperMode == w.paperAccount && entry.brokerOrderId.Some?
    requires replies.stop.Answers? ==> IsRefusal(replies.stop.status)
    ensures var r := AttachChild(w, setup, entry, child, replies);
            var b := SubmitStep(w.broker, ToRequest(child, entry.brokerOrderId, true), replies.stop).0;
            && r.world.broker == CancelStep(b, entry.brokerOrderId.value, replies.cancel).0
            && (r.result.Ok? <==> !replies.cancel.CallRaises?)
  {
  }

  lemma ChildFailsStatus(w: World, setup: Setup, entry: OrderRow, child: OrderRow, replies: BracketReplies)
    requires setup.config.paperMode == w.paperAccount && entry.brokerOrderId.Some? && setup.id in w.store.setups
    requires replies.stop.Answers? ==> IsRefusal(replies.stop.status)
    ensures var setups := AttachChild(w, setup, entry, child, replies).world.store.setups;
            && setup.id in setups
            && setups[setup.id].status
               == (if replies.stop.Raises? && replies.cancel.CallRaises? then w.store.setups[setup.id].status
                   else ErrorRequiresManualReview)
  {
  }

  lemma ChildFailsRow(w: World, setup: Setup, entry: OrderRow, child: OrderRow, replies: BracketReplies)
    requires setup.config.paperMode == w.paperAccount && entry.brokerOrderId.Some?
    requires entry.id != child.id && entry.id in w.store.orders
    requires replies.stop.Answers? ==> IsRefusal(replies.stop.status)
    ensures var orders := AttachChild(w, setup, entry, child, replies).world.store.orders;
            entry.id in orders
            && orders[entry.id] == (if replies.cancel.CallAccepts?
                                    then w.store.orders[entry.id].(status := OrderStatus.Cancelled)
                                    else w.store.orders[entry.id])
  {
    hide PlaceStop, Compensate;
    var placed := PlaceStop(w, setup, child, entry.brokerOrderId, true, false, replies.stop);
    PlaceStopKeepsRow(w, setup, child, entry.brokerOrderId, entry.id, replies.stop);
    CompensateRow(placed.world, setup, entry, replies.cancel);
    PlaceStopAnswers(w, setup, child, entry.brokerOrderId, replies.stop);
  }

  lemma PlaceStopAnswers(w: World, setup: Setup, child: OrderRow, brokerParent: Option<string>, reply: Reply)
    requires setup.config.paperMode == w.paperAccount
    ensures var r := PlaceStop(w, setup, child, brokerParent, true, false, reply).result;
            (r.Ok? <==> reply.Answers?) && (r.Ok? ==> r.value.status == reply.status)
  {
  }

  lemma StopFails(w: World, setup: Setup, parent: OrderRow, child: OrderRow, replies: BracketReplies)
    requires setup.id in w.store.setups && parent.id != child.id && setup.config.paperMode == w.paperAccount
    requires EntryTaken(replies.entry) && (replies.stop.Answers? ==> IsRefusal(replies.stop.status))
    ensures var r := Bracket(w, setup, parent, child, replies);
            && r.world.broker == BrokerAfter(w.broker, parent, child, replies).2
            && (r.result.Ok? <==> !replies.cancel.CallRaises?)
            && setup.id in r.world.store.setups
            && r.world.store.setups[setup.id].status
               == (if replies.stop.Raises? && replies.cancel.CallRaises? then w.store.setups[setup.id].status
                   else ErrorRequiresManualReview)
            && parent.id in r.world.store.orders
            && r.world.store.orders[parent.id].brokerOrderId == Some(Decimal(w.broker.nextOrderId + 1))
  {
    hide AttachChild, SendRow, SubmitStep, ToRequest, Decimal, PermId, CancelStep, Compensate;
    SentIsStored(w, parent, None, false, replies.entry);
    var sent := SendRow(w, parent, None, false, replies.entry);
    var w1, entry := sent.world, sent.result.value.0;
    assert Bracket(w, setup, parent, child, replies) == AttachChild(w1, setup, entry, child, replies);
    ChildFails(w1, setup, entry, child, replies);
    ChildFailsStatus(w1, setup, entry, child, replies);
    ChildFailsRow(w1, setup, entry, child, replies);
  }

  /**
   Where a bracket that returns normally leaves a stored setup: ENTRY_ORDER_PLACED or manual review. Without any
   assumption on the connector, the setup claims a placed bracket while the broker holds no stop in exactly one
   family of answers: the entry is taken and the stop is not accepted under a status other than REJECTED or ERROR.
   */
  lemma BracketOutcome(w: World, setup: Setup, d: RiskDecision, ids: (string, string), defaults: Defaults,
                       replies: BracketReplies)
    requires IdsConsistent(w.broker) && setup.id in w.store.setups && ids.0 != ids.1
    requires PlaceEntry(w, setup, d, ids, defaults, replies).result.Ok?
    ensures var after := PlaceEntry(w, setup, d, ids, defaults, replies).world;
            && setup.id in after.store.setups
            && after.store.setups[setup.id].status in {EntryOrderPlaced, ErrorRequiresManualReview}
            && ((after.store.setups[setup.id].status == EntryOrderPlaced
                 && !StopHeld(after.broker, Decimal(w.broker.nextOrderId + 2), Decimal(w.broker.nextOrderId + 1),
                              setup.symbol, ManagedStopType(setup.config, defaults.stopType), d.quantity,
                              TrailingInitialStop(setup.config).GetOr(0)))
                <==> (EntryTaken(replies.entry) && replies.stop.Answers? && !replies.stop.accepted
                      && !Refusing(replies.stop.status)))
  {
    FreshIds(w.broker);
    var parent := EntryRow(setup, d, ids.0, defaults);
    var child := StopRow(setup, d.quantity, TrailingInitialStop(setup.config).value, ids.1, Some(ids.0), defaults);
    if !EntryTaken(replies.entry) {
      EntryNotTaken(w, setup, parent, child, replies);
    } else if replies.stop.Answers? && !IsRefusal(replies.stop.status) {
      StopStands(w, setup, parent, child, replies);
    } else {
      StopFails(w, setup, parent, child, replies);
    }
  }

  /**
   The unsupported answer does occur: a stop answered "not accepted, CANCELLED", with an id or without, leaves a placed,
   naked bracket.
   */
  lemma NakedBracketExample(w: World, setup: Setup, d: RiskDecision, ids: (string, string), defaults: Defaults,
                            named: bool)
    requires IdsConsistent(w.broker) && setup.id in w.store.setups && ids.0 != ids.1 && EntryGate(w, setup).None?
    ensures var replies := BracketReplies(Answers(true, Submitted, true), Answers(false, OrderStatus.Cancelled, named),
                                          CallAccepts);
            var after := PlaceEntry(w, setup, d, ids, defaults, replies).world;
            && setup.id in after.store.setups && after.store.setups[setup.id].status == EntryOrderPlaced
            && Decimal(w.broker.nextOrderId + 2) !in after.broker.orders
  {
    FreshIds(w.broker);
    var stop := TrailingInitialStop(setup.config).value;
    StopStands(w, setup, EntryRow(setup, d, ids.0, defaults),
               StopRow(setup, d.quantity, stop, ids.1, Some(ids.0), defaults),
               BracketReplies(Answers(true, Submitted, true), Answers(false, OrderStatus.Cancelled, named), CallAccepts));
  }

  /**
   The broker gained an untransmitted parent as the one row says, the transmitting child under it as the other row
   says, and nothing else changed.
   */
  ghost predicate GainedBracket(before: BrokerState, after: BrokerState, parent: OrderRow, child: OrderRow) {
    var entryId, stopId := Decimal(before.nextOrderId + 1), Decimal(before.nextOrderId + 2);
    && entryId in after.orders && Carries(after.orders[entryId], parent) && !after.orders[entryId].transmit
    && after.orders[entryId].parentId.None?
    && stopId in after.orders && Carries(after.orders[stopId], child) && after.orders[stopId].transmit
    && after.orders[stopId].parentId == Some(entryId)
    && after.orders - {entryId, stopId} == before.orders
  }

  lemma BothAccepted(b: BrokerState, parent: OrderRow, child: OrderRow, replies: BracketReplies)
    requires IdsConsistent(b) && replies.entry.Answers? && replies.entry.accepted
    requires replies.stop.Answers? && replies.stop.accepted
    requires parent.parentId.None?
    ensures GainedBracket(b, BrokerAfter(b, parent, child, replies).1, parent, child)
  {
    FreshIds(b);
  }

  lemma StopNotAccepted(b: BrokerState, parent: OrderRow, child: OrderRow, replies: BracketReplies)
    requires IdsConsistent(b) && (replies.stop.Answers? ==> !replies.stop.accepted)
    ensures var after := BrokerAfter(b, parent, child, replies);
            var id := Decimal(b.nextOrderId + 1);
            && after.0.orders - {id} == b.orders && after.2.orders - {id} == b.orders
            && (replies.cancel.CallAccepts? ==> id !in after.2.orders)
            && (replies.entry.Answers? && replies.entry.accepted && !replies.cancel.CallAccepts? ==>
                  id in after.2.orders && Carries(after.2.orders[id], parent))
  {
    hide Decimal, IdsConsistent, PermId;
    FreshIds(b);
  }

  /** A bracket that returns, or that the broker raised out of, passed the gate. */
  lemma BracketPassed(w: World, setup: Setup, d: RiskDecision, ids: (string, string), defaults: Defaults,
                      replies: BracketReplies)
    requires var result := PlaceEntry(w, setup, d, ids, defaults, replies).result;
             result.Ok? || result == Err(BrokerFault)
    ensures EntryGate(w, setup).None? && setup.config.paperMode == w.paperAccount
    ensures TrailingInitialStop(setup.config).Some? && TrailingInitialStop(setup.config).value > 0
    ensures var parent := EntryRow(setup, d, ids.0, defaults);
            var child := StopRow(setup, d.quantity, TrailingInitialStop(setup.config).value, ids.1, Some(ids.0), defaults);
            && PlaceEntry(w, setup, d, ids, defaults, replies) == Bracket(w, setup, parent, child, replies)
            && parent.id == ids.0 && child.id == ids.1 && parent.parentId.None?
  {
    hide PositionOpen, HasActiveStop, HasActiveEntry, TrailingStopOrderReady, EntryPrices, AttachChild;
  }

  lemma EntryRaises(w: World, setup: Setup, parent: OrderRow, child: OrderRow, replies: BracketReplies)
    requires replies.entry.Raises?
    ensures Bracket(w, setup, parent, child, replies) == Outcome(w, Err(BrokerFault))
  {
    hide AttachChild;
  }

  /**
   With a connector that keeps its contract, a bracket that returns normally either stands whole or asks for review. It
   stands whole: the setup is ENTRY_ORDER_PLACED, the broker gained exactly the entry and its stop, each with the type,
   size and prices of the row that is stored for it. Or the setup asks for manual review and the broker gained no stop;
   the parent is then left behind only if the broker did not accept its cancellation.
   */
  lemma BracketAllOrNothing(w: World, setup: Setup, d: RiskDecision, ids: (string, string), defaults: Defaults,
                            replies: BracketReplies)
    requires IdsConsistent(w.broker) && setup.id in w.store.setups && ids.0 != ids.1
    requires KeepsContract(replies.entry) && KeepsContract(replies.stop)
    requires PlaceEntry(w, setup, d, ids, defaults, replies).result.Ok?
    ensures var after := PlaceEntry(w, setup, d, ids, defaults, replies).world;
            var entryId := Decimal(w.broker.nextOrderId + 1);
            var stop := TrailingInitialStop(setup.config).GetOr(0);
            && setup.id in after.store.setups
            && (after.store.setups[setup.id].status == EntryOrderPlaced ==>
                  && stop > 0 && ids.0 in after.store.orders && ids.1 in after.store.orders
                  && GainedBracket(w.broker, after.broker, after.store.orders[ids.0], after.store.orders[ids.1])
                  && GainedBracket(w.broker, after.broker, EntryRow(setup, d, ids.0, defaults),
                                   StopRow(setup, d.quantity, stop, ids.1, Some(ids.0), defaults))
                  && after.store.orders[ids.0].brokerOrderId == Some(entryId))
            && (after.store.setups[setup.id].status == ErrorRequiresManualReview ==>
                  && after.broker.orders - {entryId} == w.broker.orders
                  && (EntryTaken(replies.entry) && replies.cancel.CallAccepts? ==> entryId !in after.broker.orders))
  {
    hide PlaceEntry, Bracket, BrokerAfter, GainedBracket, EntryRow, StopRow, EntryGate, TrailingInitialStop, Decimal,
      IdsConsistent;
    BracketPassed(w, setup, d, ids, defaults, replies);
    var parent := EntryRow(setup, d, ids.0, defaults);
    var child := StopRow(setup, d.quantity, TrailingInitialStop(setup.config).value, ids.1, Some(ids.0), defaults);
    if replies.entry.Raises? {
      EntryRaises(w, setup, parent, child, replies);
    } else if !EntryTaken(replies.entry) {
      EntryNotTaken(w, setup, parent, child, replies);
      StopNotAccepted(w.broker, parent, child, replies.(stop := Raises));
      EntryAlone(w.broker, parent, child, replies, Raises);
    } else if replies.stop.Answers? && !IsRefusal(replies.stop.status) {
      StopStands(w, setup, parent, child, replies);
      BothAccepted(w.broker, parent, child, replies);
      var orders := PlaceEntry(w, setup, d, ids, defaults, replies).world.store.orders;
      SameTerms(w.broker, BrokerAfter(w.broker, parent, child, replies).1, parent, child, orders[ids.0], orders[ids.1]);
    } else {
      StopFails(w, setup, parent, child, replies);
      StopNotAccepted(w.broker, parent, child, replies);
    }
  }

  /** Statuses and broker ids of the rows do not matter to what was gained. */
  lemma SameTerms(before: BrokerState, after: BrokerState, parent: OrderRow, child: OrderRow, a: OrderRow, b: OrderRow)
    requires GainedBracket(before, after, parent, child)
    requires a == parent.(status := a.status, brokerOrderId := a.brokerOrderId, brokerPermId := a.brokerPermId)
    requires b == child.(status := b.status, brokerOrderId := b.brokerOrderId, brokerPermId := b.brokerPermId)
    ensures GainedBracket(before, after, a, b)
  {
    hide Decimal;
  }

  /**
   With any connector: as long as the broker holds an order under the id that was the bracket's first to be given, it is
   the entry, with the type, size and prices of the entry's row.
   */
  lemma EntryAsSent(w: World, setup: Setup, d: RiskDecision, ids: (string, string), defaults: Defaults,
                    replies: BracketReplies)
    requires IdsConsistent(w.broker) && PlaceEntry(w, setup, d, ids, defaults, replies).result.Ok?
    ensures var entryId := Decimal(w.broker.nextOrderId + 1);
            var orders := PlaceEntry(w, setup, d, ids, defaults, replies).world.broker.orders;
            entryId in orders ==>
              orders[entryId].clientOrderId == ids.0 && Carries(orders[entryId], EntryRow(setup, d, ids.0, defaults))
  {
    hide PlaceEntry, Bracket, EntryRow, StopRow, EntryGate, TrailingInitialStop, IdsConsistent, Decimal, BrokerAfter;
    BracketPassed(w, setup, d, ids, defaults, replies);
    var parent := EntryRow(setup, d, ids.0, defaults);
    var child := StopRow(setup, d.quantity, TrailingInitialStop(setup.config).value, ids.1, Some(ids.0), defaults);
    if replies.entry.Raises? {
      EntryRaises(w, setup, parent, child, replies);
    } else if !EntryTaken(replies.entry) {
      UntakenBroker(w, setup, parent, child, replies);
      SentOrders(w.broker, parent, child, replies);
    } else {
      TakenBroker(w, setup, parent, child, replies);
      SentOrders(w.broker, parent, child, replies);
    }
    FreshIds(w.broker);
  }

  lemma UntakenBroker(w: World, setup: Setup, parent: OrderRow, child: OrderRow, replies: BracketReplies)
    requires replies.entry.Answers? && !EntryTaken(replies.entry)
    ensures Bracket(w, setup, parent, child, replies).world.broker == BrokerAfter(w.broker, parent, child, replies).0
  {
    hide AttachChild, Decimal;
  }

  lemma TakenBroker(w: World, setup: Setup, parent: OrderRow, child: OrderRow, replies: BracketReplies)
    requires setup.config.paperMode == w.paperAccount && EntryTaken(replies.entry)
    ensures var after := BrokerAfter(w.broker, parent, child, replies);
            Bracket(w, setup, parent, child, replies).world.broker in {after.1, after.2}
  {
    hide Decimal;
  }

  /** What the broker holds under the first id: the parent as sent, if anything. */
  lemma SentOrders(b: BrokerState, parent: OrderRow, child: OrderRow, replies: BracketReplies)
    requires IdsConsistent(b)
    ensures var after, id := BrokerAfter(b, parent, child, replies), Decimal(b.nextOrderId + 1);
            && (id in after.0.orders ==> Carries(after.0.orders[id], parent))
            && (replies.entry.Answers? && replies.entry.accepted ==>
                  && (id in after.1.orders ==> Carries(after.1.orders[id], parent))
                  && (id in after.2.orders ==> Carries(after.2.orders[id], parent)))
  {
    hide Decimal, IdsConsistent, PermId;
    FreshIds(b);
  }

  /** The broker after the parent alone does not depend on what the stop would have been answered. */
  lemma EntryAlone(b: BrokerState, parent: OrderRow, child: OrderRow, replies: BracketReplies, other: Reply)
    ensures BrokerAfter(b, parent, child, replies).0 == BrokerAfter(b, parent, child, replies.(stop := other)).0
  {
  }

  /**
   When the broker raises out of a bracket, either nothing happened at all, or the parent alone is left at the broker,
   not live, under a stored row that carries its id; the setup keeps its status if it was the stop submission that
   raised, and asks for manual review if the stop had been refused.
   */
  lemma BracketFault(w: World, setup: Setup, d: RiskDecision, ids: (string, string), defaults: Defaults,
                     replies: BracketReplies)
    requires IdsConsistent(w.broker) && setup.id in w.store.setups && ids.0 != ids.1
    requires KeepsContract(replies.entry) && KeepsContract(replies.stop)
    requires PlaceEntry(w, setup, d, ids, defaults, replies).result == Err(BrokerFault)
    ensures var after := PlaceEntry(w, setup, d, ids, defaults, replies).world;
            var entryId := Decimal(w.broker.nextOrderId + 1);
            after == w
            || (&& entryId in after.broker.orders && after.broker.orders - {entryId} == w.broker.orders
                && Carries(after.broker.orders[entryId], EntryRow(setup, d, ids.0, defaults))
                && !EntryLive(after.broker.log, entryId)
                && ids.0 in after.store.orders && after.store.orders[ids.0].brokerOrderId == Some(entryId)
                && setup.id in after.store.setups
                && after.store.setups[setup.id].status
                   == if replies.stop.Raises? then w.store.setups[setup.id].status else ErrorRequiresManualReview)
  {
    hide PlaceEntry, Bracket, EntryRow, StopRow, EntryGate, TrailingInitialStop, EntryLive, IdsConsistent, Decimal,
      SubmitStep, CancelStep, StoredAs, BrokerAfter;
    BracketPassed(w, setup, d, ids, defaults, replies);
    var parent := EntryRow(setup, d, ids.0, defaults);
    var child := StopRow(setup, d.quantity, TrailingInitialStop(setup.config).value, ids.1, Some(ids.0), defaults);
    if replies.entry.Raises? {
      EntryRaises(w, setup, parent, child, replies);
    } else if !EntryTaken(replies.entry) {
      EntryNotTaken(w, setup, parent, child, replies);
    } else if replies.stop.Answers? && !IsRefusal(replies.stop.status) {
      StopStands(w, setup, parent, child, replies);
    } else {
      StopFails(w, setup, parent, child, replies);
      StopNotAccepted(w.broker, parent, child, replies);
      LeftParentIsNotLive(w.broker, parent, child, replies);
    }
  }

  /** With the stop not accepted, the parent is not live in any later state of the bracket. */
  lemma LeftParentIsNotLive(b: BrokerState, parent: OrderRow, child: OrderRow, replies: BracketReplies)
    requires IdsConsistent(b) && parent.parentId.None? && replies.entry.Answers? && replies.entry.accepted
    requires (replies.stop.Answers? ==> !replies.stop.accepted) && replies.cancel.CallRaises?
    ensures !EntryLive(BrokerAfter(b, parent, child, replies).2.log, Decimal(b.nextOrderId + 1))
  {
    UntransmittedIsNotLive(b, ToRequest(parent, None, false), replies.entry);
    hide EntryLive, IdsConsistent, Decimal;
  }

  lemma UntransmittedIsNotLive(b: BrokerState, request: BrokerOrder, reply: Reply)
    requires IdsConsistent(b) && !request.transmit && request.parentId.None? && reply.Answers? && reply.accepted
    ensures !EntryLive(SubmitStep(b, request, reply).0.log, Decimal(b.nextOrderId + 1))
  {
    var id := Decimal(b.nextOrderId + 1);
    var b' := SubmitStep(b, request, reply).0;
    if EntryLive(b'.log, id) {
      LiveSnoc(b.log, b'.log[|b.log|], id);
      var i :| 0 <= i < |b.log| && b.log[i].AcceptedEvent? && b.log[i].id == id;
      AcceptedIsInHistory(b.log, i);
      assert false;
    }
  }

  /**
   A manual order on the in-memory broker: sent while connected with a positive quantity, the broker gains exactly one
   order, transmitted and without a parent, of the symbol, side, type, size and prices asked for, with a stop at the
   trigger for the two stop types; its row is stored as SUBMITTED under the broker's id. Otherwise the broker gains
   nothing, and a row is stored, as REJECTED, exactly if the broker was connected.
   */
  lemma ManualOrderAsAsked(w: World, m: ManualOrder, id: string, up: bool)
    requires IdsConsistent(w.broker) && id !in w.store.orders
    ensures var after := PlaceManual(w, m, id, SimulatedReply(up, m.quantity)).world;
            var brokerId := Decimal(w.broker.nextOrderId + 1);
            if up && m.quantity > 0 then
              && brokerId in after.broker.orders && after.broker.orders - {brokerId} == w.broker.orders
              && (var o := after.broker.orders[brokerId];
                  && o.clientOrderId == id && o.symbol == Upper(m.symbol) && o.side == m.side && o.quantity == m.quantity
                  && o.orderType == m.orderType && o.limitPrice == m.limitPrice && o.triggerPrice == m.triggerPrice
                  && o.stopPrice == (if m.orderType == StopMarket || m.orderType == StopLimit then m.triggerPrice else None)
                  && o.transmit && o.parentId.None?)
              && id in after.store.orders && after.store.orders[id].status == Submitted
              && after.store.orders[id].setupId == m.setupId && after.store.orders[id].brokerOrderId == Some(brokerId)
              && Carries(after.broker.orders[brokerId], after.store.orders[id])
            else
              && after.broker == w.broker && (id in after.store.orders <==> up)
              && (up ==> after.store.orders[id].status == Rejected && after.store.orders[id].brokerOrderId.None?)
  {
    hide Decimal, IdsConsistent;
    FreshIds(w.broker);
    UpperIdempotent(m.symbol);
  }

  /** A name that no row has and that begins with `broker_` names the broker's own order; no row is touched. */
  lemma BrokerOnlyCancel(w: World, brokerId: string, reply: CallReply)
    requires "broker_" + brokerId !in w.store.orders && brokerId != ""
    ensures var r := CancelOrder(w, "broker_" + brokerId, reply);
            && (r.result == Ok(true) <==> reply.CallAccepts?)
            && (r.result.Ok? <==> reply.CallAccepts? || reply.CallRefuses?)
            && r.world.store == w.store
            && r.world.broker.orders == if reply.CallAccepts? then w.broker.orders - {brokerId} else w.broker.orders
  {
    var orderId := "broker_" + brokerId;
    assert orderId[|BROKER_PREFIX|..] == brokerId && orderId != BROKER_PREFIX;
  }

  /**
   What cancelling a stored row comes to, with any connector: the row becomes CANCELLED, and that is reported, exactly
   if the broker accepts, or does not know the order and holds no open order under any id of the row; otherwise the rows
   stay as they are. The broker loses the named order if it accepts, and nothing else.
   */
  lemma CancelExactly(w: World, orderId: string, reply: CallReply)
    requires orderId in w.store.orders && w.store.orders[orderId].brokerOrderId.Some?
    ensures var row := w.store.orders[orderId];
            var r := CancelOrder(w, orderId, reply);
            && (r.result == Ok(true)
                <==> reply.CallAccepts?
                     || (reply == CallRefuses(true)
                         && !exists b :: b in w.broker.orders
                                         && ShareId([Some(row.id), row.brokerOrderId, row.brokerPermId],
                                                    [Some(w.broker.orders[b].clientOrderId),
                                                     w.broker.orders[b].brokerOrderId, w.broker.orders[b].brokerPermId])))
            && r.world.store == (if r.result == Ok(true)
                                 then w.store.(orders := w.store.orders[orderId := row.(status := OrderStatus.Cancelled)])
                                 else w.store)
            && r.world.broker.orders == (if reply.CallAccepts? then w.broker.orders - {row.brokerOrderId.value}
                                         else w.broker.orders)
  {
    hide CleanKeys, ShareId;
    var row := w.store.orders[orderId];
    forall b | b in w.broker.orders
      ensures LocalKeys(row) * RequestKeys(w.broker.orders[b]) != {}
              <==> ShareId([Some(row.id), row.brokerOrderId, row.brokerPermId],
                           [Some(w.broker.orders[b].clientOrderId), w.broker.orders[b].brokerOrderId,
                            w.broker.orders[b].brokerPermId])
    {
      var o := w.broker.orders[b];
      KeysMeetExactly(Some(row.id), row.brokerOrderId, row.brokerPermId,
                      Some(o.clientOrderId), o.brokerOrderId, o.brokerPermId);
      DisjointMeansNoMeet(LocalKeys(row), RequestKeys(o));
    }
  }

  /**
   Repairing an entry that lost its stop: with a connector that keeps its contract, when `attach_missing_stop` returns
   the entry either has a stop for its whole quantity at the configured price at the broker and its setup is
   ENTRY_ORDER_PLACED, or the setup asks for manual review, no stop was gained, and the entry's cancellation, if the
   broker accepted it, is recorded on both sides.
   */
  lemma AttachOutcome(w: World, orderId: string, stopId: string, defaults: Defaults, replies: BracketReplies)
    requires IdsConsistent(w.broker) && AttachGate(w, orderId).None? && KeepsContract(replies.stop)
    requires w.store.orders[orderId].id == orderId && orderId != stopId
    requires w.store.setups[w.store.orders[orderId].setupId].setup.id == w.store.orders[orderId].setupId
    requires AttachStop(w, orderId, stopId, defaults, replies).result.Ok?
    ensures var entry := w.store.orders[orderId];
            var setup := w.store.setups[entry.setupId].setup;
            var stop := TrailingInitialStop(setup.config).value;
            var after := AttachStop(w, orderId, stopId, defaults, replies).world;
            && entry.setupId in after.store.setups && orderId in after.store.orders
            && after.store.setups[entry.setupId].status in {EntryOrderPlaced, ErrorRequiresManualReview}
            && (after.store.setups[entry.setupId].status == EntryOrderPlaced ==>
                  StopHeld(after.broker, Decimal(w.broker.nextOrderId + 1), entry.brokerOrderId.value, setup.symbol,
                           ManagedStopType(setup.config, defaults.stopType), entry.quantity, stop)
                  && after.store.orders[orderId] == entry)
            && (after.store.setups[entry.setupId].status == ErrorRequiresManualReview ==>
                  if replies.cancel.CallAccepts?
                  then after.broker.orders == w.broker.orders - {entry.brokerOrderId.value}
                       && after.store.orders[orderId].status == OrderStatus.Cancelled
                  else after.broker.orders == w.broker.orders && after.store.orders[orderId] == entry)
  {
    var entry := w.store.orders[orderId];
    var setup := w.store.setups[entry.setupId].setup;
    var child := StopRow(setup, entry.quantity, TrailingInitialStop(setup.config).value, stopId, Some(entry.id), defaults);
    AttachStopIsAttachChild(w, orderId, stopId, defaults, replies);
    hide AttachGate, AttachStop, AttachChild, IdsConsistent;
    if replies.stop.Answers? && !IsRefusal(replies.stop.status) {
      ChildPlaced(w, setup, entry, child, replies);
    } else {
      CancelTakesOrder(w.broker, entry.brokerOrderId.value);
      ChildFails(w, setup, entry, child, replies);
      ChildFailsStatus(w, setup, entry, child, replies);
      ChildFailsRow(w, setup, entry, child, replies);
    }
  }

  /** Past the gate, repairing is attaching a child, and returns normally only if the stop was answered. */
  lemma AttachStopIsAttachChild(w: World, orderId: string, stopId: string, defaults: Defaults, replies: BracketReplies)
    requires AttachGate(w, orderId).None?
    requires w.store.setups[w.store.orders[orderId].setupId].setup.id == w.store.orders[orderId].setupId
    ensures var entry := w.store.orders[orderId];
            var setup := w.store.setups[entry.setupId].setup;
            var stop := TrailingInitialStop(setup.config);
            && entry.brokerOrderId.Some? && stop.Some?
            && var child := StopRow(setup, entry.quantity, stop.value, stopId, Some(entry.id), defaults);
               var r := AttachStop(w, orderId, stopId, defaults, replies);
               && r.world == AttachChild(w, setup, entry, child, replies).world
               && (r.result.Ok? ==> setup.config.paperMode == w.paperAccount && replies.stop.Answers?)
               && (r.result.Ok? ==> AttachChild(w, setup, entry, child, replies).result.Ok?)
  {
  }
}
