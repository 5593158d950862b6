/**
 The order ledger: in every run of order operations over the in-memory broker, the local rows and the broker's open
 orders tell the same story.
 */
module OrderLedger {
  import opened Common
  import opened Models
  import opened SimulatedBroker
  import opened Repository
  import opened OrderManager
  import opened FillExecutor

  // ------------------------------------------------------------- invariants

  /** Broker ids are numerals. */
  predicate Numeral(s: string) {
    s != [] && forall i :: 0 <= i < |s| ==> '0' <= s[i] <= '9'
  }

  /** Local ids look like "ord_..." and "stp_...". */
  predicate LocalId(s: string) {
    |s| > 4 && s[3] == '_' && !IsBlank(s[0]) && !IsBlank(s[|s| - 1])
  }

  predicate TypedRow(row: OrderRow) {
    && LocalId(row.id)
    && (row.brokerOrderId.Some? ==> Numeral(row.brokerOrderId.value)
                                    && row.brokerPermId == Some(PermId(row.brokerOrderId.value)))
    && (row.brokerOrderId.None? ==> row.brokerPermId.None?)
  }

  predicate TypedOrder(id: string, o: BrokerOrder) {
    Numeral(id) && LocalId(o.clientOrderId) && o.brokerOrderId == Some(id) && o.brokerPermId == Some(PermId(id))
    && o.status == Submitted
  }

  /**
   The same order on both sides. The broker holds a stop exactly if the row claims one, and never above it; a stop-limit
   whose stop was moved at the broker has its trigger there, every other order has the row's.
   */
  predicate SameOrder(row: OrderRow, o: BrokerOrder) {
    && o.clientOrderId == row.id && o.symbol == Upper(row.symbol) && o.side == row.side && o.quantity == row.quantity
    && o.orderType == row.orderType && o.limitPrice == row.limitPrice
    && (o.stopPrice.Some? <==> row.stopPrice.Some?) && AtLeast(o.stopPrice, row.stopPrice)
    && (o.triggerPrice == row.triggerPrice || (o.orderType == StopLimit && o.triggerPrice == o.stopPrice))
  }

  predicate BrokerOpen(w: World, row: OrderRow) {
    row.brokerOrderId.Some? && row.brokerOrderId.value in w.broker.orders
  }

  /** The row is stored under its id, its broker id was handed out by the broker, and an open order under it is its own. */
  ghost predicate RowIdentified(w: World, id: string)
    requires id in w.store.orders
  {
    var row := w.store.orders[id];
    && row.id == id && TypedRow(row)
    && (row.brokerOrderId.Some? ==> row.brokerOrderId.value in AcceptedIds(w.broker.log))
    && (BrokerOpen(w, row) ==> SameOrder(row, w.broker.orders[row.brokerOrderId.value]))
  }

  /** A row is SUBMITTED exactly when its broker id is an open broker order, and then they are the same order. */
  ghost predicate RowAgrees(w: World, id: string)
    requires id in w.store.orders
  {
    RowIdentified(w, id) && (w.store.orders[id].status == Submitted <==> BrokerOpen(w, w.store.orders[id]))
  }

  ghost predicate DistinctBrokerIds(s: Store) {
    forall i, j :: i in s.orders && j in s.orders && i != j && s.orders[i].brokerOrderId.Some?
                   ==> s.orders[i].brokerOrderId != s.orders[j].brokerOrderId
  }

  ghost predicate RowsAgree(w: World) {
    && (forall id :: id in w.store.orders ==> RowAgrees(w, id))
    && DistinctBrokerIds(w.store)
  }

  /** No open broker order is unknown locally. */
  ghost predicate NoOrphans(w: World) {
    forall b :: b in w.broker.orders ==>
                  TypedOrder(b, w.broker.orders[b])
                  && w.broker.orders[b].clientOrderId in w.store.orders
                  && w.store.orders[w.broker.orders[b].clientOrderId].brokerOrderId == Some(b)
  }

  /** Each setup has at most one active BUY entry. */
  ghost predicate OneEntryPerSetup(s: Store) {
    forall i, j :: i in s.orders && j in s.orders && i != j && IsActiveEntry(s.orders[i], s.orders[i].setupId) ==>
                     !IsActiveEntry(s.orders[j], s.orders[i].setupId)
  }

  ghost predicate PositionsKeyed(s: Store) {
    forall k :: k in s.positions ==> s.positions[k].symbol == k
  }

  /** The two books agree, and each is in order by itself. */
  ghost predicate Books(w: World) {
    Consistent(w.broker) && RowsAgree(w) && NoOrphans(w) && PositionsKeyed(w.store)
  }

  /**
   What never goes back: no row is lost, an order that left the broker does not return, and no stop goes down, neither
   on a row nor, while the order is open, at the broker.
   */
  ghost predicate Follows(w: World, w': World) {
    && OrdersRatchet(w.store, w'.store)
    && AcceptedIds(w.broker.log) <= AcceptedIds(w'.broker.log)
    && forall id :: id in AcceptedIds(w.broker.log) && id in w'.broker.orders ==>
                      id in w.broker.orders && AtLeast(w.broker.orders[id].stopPrice, w'.broker.orders[id].stopPrice)
  }

  /** What every operation but a doubled entry keeps. */
  ghost predicate Keeps(w: World, w': World) {
    Books(w') && Follows(w, w') && (OneEntryPerSetup(w.store) ==> OneEntryPerSetup(w'.store))
  }

  lemma KeepsNothing(w: World)
    requires Books(w)
    ensures Keeps(w, w)
  {
    hide AcceptedIds;
    assert w.broker.orders.Keys <= AcceptedIds(w.broker.log);
  }

  lemma FollowsOn(a: World, b: World, c: World)
    requires Follows(a, b) && Follows(b, c)
    ensures Follows(a, c)
  {
    hide AcceptedIds;
  }

  lemma KeepsOn(a: World, b: World, c: World)
    requires Keeps(a, b) && Keeps(b, c)
    ensures Keeps(a, c)
  {
    hide Books, Follows, OneEntryPerSetup;
    FollowsOn(a, b, c);
  }

  // ------------------------------------------------------- the building steps

  lemma SetupStatusKeeps(w: World, setupId: string, status: SetupStatus)
    requires Books(w)
    ensures Keeps(w, WithSetupStatus(w, setupId, status))
  {
    hide Books, Keeps;
    SameOrdersKeep(w, WithSetupStatus(w, setupId, status));
  }

  lemma SameRowAgrees(w: World, w': World, id: string)
    requires id in w.store.orders && RowAgrees(w, id) && w'.store.orders == w.store.orders && w'.broker == w.broker
    ensures RowAgrees(w', id)
  {
    hide TypedRow, SameOrder, AcceptedIds;
  }

  /** What touches neither orders nor broker keeps everything, as long as positions stay under their symbols. */
  lemma SameOrdersKeep(w: World, w': World)
    requires Books(w) && w'.store.orders == w.store.orders && w'.broker == w.broker
    requires PositionsKeyed(w.store) ==> PositionsKeyed(w'.store)
    ensures Keeps(w, w')
  {
    KeepsNothing(w);
    hide RowAgrees, TypedOrder, Consistent, AcceptedIds, IsActiveEntry;
    forall id | id in w.store.orders ensures RowAgrees(w', id) {
      SameRowAgrees(w, w', id);
    }
  }

  /** Two status writes in a row, or one after a step that keeps the books. */
  lemma ThenStatus(a: World, b: World, setupId: string, status: SetupStatus)
    requires Keeps(a, b)
    ensures Keeps(a, WithSetupStatus(b, setupId, status))
  {
    hide Books, Follows, OneEntryPerSetup;
    SetupStatusKeeps(b, setupId, status);
    KeepsOn(a, b, WithSetupStatus(b, setupId, status));
  }

  /** Submitting a row under a fresh local id, to the in-memory broker, connected or not, keeps the books. */
  lemma SendKeeps(w: World, row: OrderRow, brokerParent: Option<string>, transmit: bool, up: bool)
    requires Books(w) && row.id !in w.store.orders && LocalId(row.id)
    ensures var w' := SendRow(w, row, brokerParent, transmit, SimulatedReply(up, row.quantity)).world;
            Books(w') && Follows(w, w')
  {
    hide RowAgrees, TypedOrder, AcceptedIds, Decimal, PermId, DistinctBrokerIds, Follows;
    var reply := SimulatedReply(up, row.quantity);
    SubmitKeepsConsistent(w.broker, ToRequest(row, brokerParent, transmit), reply);
    SendKeepsRows(w, row, brokerParent, transmit, up);
    SendFollows(w, row, brokerParent, transmit, reply);
  }

  lemma SendFollows(w: World, row: OrderRow, brokerParent: Option<string>, transmit: bool, reply: Reply)
    requires IdsConsistent(w.broker) && row.id !in w.store.orders
    ensures Follows(w, SendRow(w, row, brokerParent, transmit, reply).world)
  {
    hide AcceptedIds, Decimal, IdsConsistent, SubmitStep, ToRequest, PermId;
    var w' := SendRow(w, row, brokerParent, transmit, reply).world;
    SubmitGainsOne(w.broker, ToRequest(row, brokerParent, transmit), reply);
    assert OrdersRatchet(w.store, w'.store);
    hide SendRow;
    GainsOneFollows(w, w', Decimal(w.broker.nextOrderId + 1));
  }

  lemma SubmitGainsOne(b: BrokerState, request: BrokerOrder, reply: Reply)
    requires IdsConsistent(b)
    ensures var b', id := SubmitStep(b, request, reply).0, Decimal(b.nextOrderId + 1);
            && b.orders.Keys <= AcceptedIds(b.log) && id !in AcceptedIds(b.log)
            && AcceptedIds(b.log) <= AcceptedIds(b'.log)
            && (b'.orders == b.orders || (id in b'.orders && b'.orders == b.orders[id := b'.orders[id]]))
  {
    IdsStayAhead(b.nextOrderId, AcceptedIds(b.log));
    hide AcceptedIds, AcceptedOnce, Decimal, IdsAhead, CancelledIds, FilledIds;
    if reply.Answers? && reply.accepted {
      HistorySnoc(b.log, SubmitStep(b, request, reply).0.log[|b.log|]);
    }
  }

  lemma GainsOneFollows(w: World, w': World, id: string)
    requires OrdersRatchet(w.store, w'.store) && w.broker.orders.Keys <= AcceptedIds(w.broker.log)
    requires id !in AcceptedIds(w.broker.log) && AcceptedIds(w.broker.log) <= AcceptedIds(w'.broker.log)
    requires w'.broker.orders == w.broker.orders
             || (id in w'.broker.orders && w'.broker.orders == w.broker.orders[id := w'.broker.orders[id]])
    ensures Follows(w, w')
  {
    hide AcceptedIds;
  }

  /** Sending anything but a BUY for a setup that has an active entry keeps the entries single as well. */
  lemma SendKeepsAll(w: World, row: OrderRow, brokerParent: Option<string>, transmit: bool, up: bool)
    requires Books(w) && row.id !in w.store.orders && LocalId(row.id)
    requires row.side == Buy ==> !HasActiveEntry(w.store, row.setupId)
    ensures Keeps(w, SendRow(w, row, brokerParent, transmit, SimulatedReply(up, row.quantity)).world)
  {
    SendKeeps(w, row, brokerParent, transmit, up);
    if OneEntryPerSetup(w.store) {
      SendDoublesExactly(w, row, brokerParent, transmit, up);
    }
    hide Books, Follows, OneEntryPerSetup;
  }

  /**
   When a send breaks "one active BUY entry per setup": exactly when it is an accepted BUY for a setup that already has
   an active entry.
   */
  lemma SendDoublesExactly(w: World, row: OrderRow, brokerParent: Option<string>, transmit: bool, up: bool)
    requires OneEntryPerSetup(w.store) && row.id !in w.store.orders
    ensures OneEntryPerSetup(SendRow(w, row, brokerParent, transmit, SimulatedReply(up, row.quantity)).world.store)
            <==> !(row.side == Buy && up && row.quantity > 0 && HasActiveEntry(w.store, row.setupId))
  {
    hide Decimal, PermId, ToRequest;
    var s := SendRow(w, row, brokerParent, transmit, SimulatedReply(up, row.quantity)).world.store;
    assert forall id :: id in w.store.orders ==> id in s.orders && s.orders[id] == w.store.orders[id];
    if row.side == Buy && up && row.quantity > 0 && HasActiveEntry(w.store, row.setupId) {
      var id :| id in w.store.orders && IsActiveEntry(w.store.orders[id], row.setupId);
      assert IsActiveEntry(s.orders[id], row.setupId) && IsActiveEntry(s.orders[row.id], row.setupId) && id != row.id;
    }
  }

  lemma SendKeepsRows(w: World, row: OrderRow, brokerParent: Option<string>, transmit: bool, up: bool)
    requires IdsConsistent(w.broker) && RowsAgree(w) && NoOrphans(w) && row.id !in w.store.orders && LocalId(row.id)
    ensures var w' := SendRow(w, row, brokerParent, transmit, SimulatedReply(up, row.quantity)).world;
            RowsAgree(w') && NoOrphans(w')
  {
    var reply := SimulatedReply(up, row.quantity);
    var (b, answer) := SubmitStep(w.broker, ToRequest(row, brokerParent, transmit), reply);
    IdsStayAhead(w.broker.nextOrderId, AcceptedIds(w.broker.log));
    hide RowsAgree, NoOrphans, AcceptedIds, AcceptedOnce, Decimal, IdsAhead, CancelledIds, FilledIds;
    assert w.broker.orders.Keys <= AcceptedIds(w.broker.log);
    if reply.Answers? {
      if reply.accepted {
        HistorySnoc(w.broker.log, b.log[|w.broker.log|]);
      }
      SentRow(w.broker, row, brokerParent, transmit, up);
      hide TypedRow, TypedOrder, SameOrder, IdsConsistent;
      RowArrives(w, Answered(row, answer.value), b);
    }
  }

  /** What the in-memory broker's answer makes of a row: it has an id exactly if its order was opened. */
  lemma SentRow(b: BrokerState, row: OrderRow, brokerParent: Option<string>, transmit: bool, up: bool)
    requires LocalId(row.id) && up
    ensures var (b', answer) := SubmitStep(b, ToRequest(row, brokerParent, transmit), SimulatedReply(up, row.quantity));
            var sent, id := Answered(row, answer.value), Decimal(b.nextOrderId + 1);
            && TypedRow(sent) && sent.id == row.id
            && (if row.quantity <= 0 then b' == b && sent.brokerOrderId.None? && sent.status == Rejected
                else && sent.brokerOrderId == Some(id) && sent.status == Submitted && id in b'.orders
                     && b'.orders == b.orders[id := b'.orders[id]]
                     && SameOrder(sent, b'.orders[id]) && TypedOrder(id, b'.orders[id]))
  {
    hide LocalId;
  }

  /** A new row arrives, either refused or together with its broker order. */
  lemma RowArrives(w: World, sent: OrderRow, b: BrokerState)
    requires RowsAgree(w) && NoOrphans(w) && sent.id !in w.store.orders
    requires w.broker.orders.Keys <= AcceptedIds(w.broker.log) && TypedRow(sent)
    requires if sent.brokerOrderId.None? then b == w.broker && sent.status != Submitted
             else var bid := sent.brokerOrderId.value;
                  && bid !in AcceptedIds(w.broker.log) && bid in b.orders
                  && b.orders == w.broker.orders[bid := b.orders[bid]]
                  && SameOrder(sent, b.orders[bid]) && sent.status == Submitted && TypedOrder(bid, b.orders[bid])
                  && AcceptedIds(b.log) == AcceptedIds(w.broker.log) + {bid}
    ensures var w' := World(UpsertOrder(w.store, sent), b, w.paperAccount);
            RowsAgree(w') && NoOrphans(w')
  {
    hide TypedRow, TypedOrder, LocalId, AcceptedIds;
    var w' := World(UpsertOrder(w.store, sent), b, w.paperAccount);
    forall id | id in w'.store.orders ensures RowAgrees(w', id) {
      if id != sent.id {
        RowUndisturbed(w, sent, b, id);
      }
    }
    assert DistinctBrokerIds(w'.store) by {
      forall i | i in w.store.orders ensures w.store.orders[i].brokerOrderId.Some? ==>
                                               w.store.orders[i].brokerOrderId != sent.brokerOrderId {
        assert RowAgrees(w, i);
      }
    }
    hide RowAgrees, DistinctBrokerIds;
  }

  lemma RowUndisturbed(w: World, sent: OrderRow, b: BrokerState, id: string)
    requires id in w.store.orders && RowAgrees(w, id) && id != sent.id
    requires AcceptedIds(w.broker.log) <= AcceptedIds(b.log)
    requires sent.brokerOrderId.None? ==> b == w.broker
    requires sent.brokerOrderId.Some? ==>
               var bid := sent.brokerOrderId.value;
               bid !in AcceptedIds(w.broker.log) && bid in b.orders && b.orders == w.broker.orders[bid := b.orders[bid]]
    ensures RowAgrees(World(UpsertOrder(w.store, sent), b, w.paperAccount), id)
  {
    hide TypedRow, SameOrder, AcceptedIds;
  }

  /** A row stops being active while its broker order, if it was open, goes away. */
  lemma RowLeaves(w: World, id: string, status: OrderStatus, b: BrokerState)
    requires RowsAgree(w) && NoOrphans(w) && !IsActive(status)
    requires id in w.store.orders && w.store.orders[id].brokerOrderId.Some?
    requires b.orders == w.broker.orders - {w.store.orders[id].brokerOrderId.value}
    requires AcceptedIds(b.log) == AcceptedIds(w.broker.log)
    ensures var w' := World(SetOrderStatus(w.store, id, status), b, w.paperAccount);
            RowsAgree(w') && NoOrphans(w') && (OneEntryPerSetup(w.store) ==> OneEntryPerSetup(w'.store))
  {
    hide TypedRow, TypedOrder, SameOrder, LocalId, AcceptedIds;
    var w' := World(SetOrderStatus(w.store, id, status), b, w.paperAccount);
    forall i | i in w'.store.orders ensures RowAgrees(w', i) {
      RowKeepsAgreeing(w, id, status, b, i);
    }
    hide RowAgrees;
    LeavesNoOrphans(w, id, status, b);
  }

  lemma RowKeepsAgreeing(w: World, id: string, status: OrderStatus, b: BrokerState, i: string)
    requires id in w.store.orders && i in w.store.orders && w.store.orders[id].brokerOrderId.Some?
    requires RowAgrees(w, i) && DistinctBrokerIds(w.store) && !IsActive(status)
    requires b.orders == w.broker.orders - {w.store.orders[id].brokerOrderId.value}
    requires AcceptedIds(b.log) == AcceptedIds(w.broker.log)
    ensures RowAgrees(World(SetOrderStatus(w.store, id, status), b, w.paperAccount), i)
  {
    hide SameOrder, LocalId, AcceptedIds;
    assert i != id ==> w.store.orders[i].brokerOrderId != w.store.orders[id].brokerOrderId;
  }

  lemma LeavesNoOrphans(w: World, id: string, status: OrderStatus, b: BrokerState)
    requires NoOrphans(w) && id in w.store.orders && w.store.orders[id].brokerOrderId.Some?
    requires b.orders == w.broker.orders - {w.store.orders[id].brokerOrderId.value}
    ensures NoOrphans(World(SetOrderStatus(w.store, id, status), b, w.paperAccount))
  {
    hide TypedOrder;
  }

  lemma LeavesFollows(w: World, id: string, status: OrderStatus, b: BrokerState, gone: string)
    requires Books(w) && b.orders == w.broker.orders - {gone} && AcceptedIds(b.log) == AcceptedIds(w.broker.log)
    ensures Follows(w, World(SetOrderStatus(w.store, id, status), b, w.paperAccount))
  {
    hide AcceptedIds;
    assert w.broker.orders.Keys <= AcceptedIds(w.broker.log);
  }

  /** A row leaves: the broker's books are kept by the step itself. */
  lemma LeavingKeeps(w: World, id: string, status: OrderStatus, b: BrokerState)
    requires Books(w) && Consistent(b) && !IsActive(status)
    requires id in w.store.orders && w.store.orders[id].brokerOrderId.Some?
    requires b.orders == w.broker.orders - {w.store.orders[id].brokerOrderId.value}
    requires AcceptedIds(b.log) == AcceptedIds(w.broker.log)
    ensures Keeps(w, World(SetOrderStatus(w.store, id, status), b, w.paperAccount))
  {
    hide RowsAgree, NoOrphans, Consistent, AcceptedIds, Follows;
    LeavesFollows(w, id, status, b, w.store.orders[id].brokerOrderId.value);
    RowLeaves(w, id, status, b);
  }

  /** Cancelling the broker order of a stored row, whatever the broker answers, and recording an accepted answer. */
  lemma CancelRowKeeps(w: World, id: string, reply: CallReply)
    requires Books(w) && id in w.store.orders && w.store.orders[id].brokerOrderId.Some?
    ensures var (b, answer) := CancelStep(w.broker, w.store.orders[id].brokerOrderId.value, reply);
            Keeps(w, World(if answer.Ok? && answer.value.accepted then SetOrderStatus(w.store, id, OrderStatus.Cancelled)
                           else w.store, b, w.paperAccount))
  {
    var bid := w.store.orders[id].brokerOrderId.value;
    if reply.CallAccepts? {
      CancelKeepsConsistent(w.broker, bid, reply);
      CancelTakesOrder(w.broker, bid);
      hide RowsAgree, NoOrphans, OneEntryPerSetup, Consistent, AcceptedIds, Follows, Keeps;
      LeavingKeeps(w, id, OrderStatus.Cancelled, CancelStep(w.broker, bid, reply).0);
    } else {
      hide Books, Keeps;
      KeepsNothing(w);
      assert World(w.store, CancelStep(w.broker, bid, reply).0, w.paperAccount) == w;
    }
  }

  /** Recording CANCELLED on a row whose broker order is not open. */
  lemma MarkAbsentKeeps(w: World, id: string)
    requires Books(w) && id in w.store.orders
    requires w.store.orders[id].brokerOrderId.Some? && w.store.orders[id].brokerOrderId.value !in w.broker.orders
    ensures Keeps(w, w.(store := SetOrderStatus(w.store, id, OrderStatus.Cancelled)))
  {
    hide RowsAgree, NoOrphans, OneEntryPerSetup, Consistent, AcceptedIds, Follows, Keeps;
    assert w.broker.orders == w.broker.orders - {w.store.orders[id].brokerOrderId.value};
    LeavingKeeps(w, id, OrderStatus.Cancelled, w.broker);
  }

  lemma CompensateKeeps(w: World, setup: Setup, entry: OrderRow, reply: CallReply)
    requires Books(w) && entry.id in w.store.orders
    requires w.store.orders[entry.id].brokerOrderId == entry.brokerOrderId
    ensures Keeps(w, Compensate(w, setup, entry, reply).world)
  {
    hide Books, Keeps;
    if entry.brokerOrderId.None? {
      SetupStatusKeeps(w, setup.id, ErrorRequiresManualReview);
    } else {
      CancelRowKeeps(w, entry.id, reply);
      var (b, answer) := CancelStep(w.broker, entry.brokerOrderId.value, reply);
      if answer.Ok? {
        var store := if answer.value.accepted then SetOrderStatus(w.store, entry.id, OrderStatus.Cancelled) else w.store;
        ThenStatus(w, World(store, b, w.paperAccount), setup.id, ErrorRequiresManualReview);
      }
    }
  }

  lemma PlaceStopKeeps(w: World, setup: Setup, row: OrderRow, brokerParent: Option<string>, transmit: bool,
                       updateSetup: bool, up: bool)
    requires Books(w) && row.id !in w.store.orders && LocalId(row.id) && row.side == Sell
    ensures Keeps(w, PlaceStop(w, setup, row, brokerParent, transmit, updateSetup,
                               SimulatedReply(up, row.quantity)).world)
  {
    hide Books, Keeps;
    var reply := SimulatedReply(up, row.quantity);
    if setup.config.paperMode == w.paperAccount {
      SendKeepsAll(w, row, brokerParent, transmit, up);
      var sent := SendRow(w, row, brokerParent, transmit, reply);
      ThenStatus(w, sent.world, setup.id, ErrorRequiresManualReview);
      ThenStatus(w, sent.world, setup.id, StopOrderPlaced);
    } else {
      KeepsNothing(w);
    }
  }

  // ------------------------------------------------------------- operations

  predicate NewIds(w: World, a: string, b: string) {
    a !in w.store.orders && b !in w.store.orders && a != b && LocalId(a) && LocalId(b)
  }

  lemma PlaceEntryKeeps(w: World, setup: Setup, d: RiskDecision, ids: (string, string), defaults: Defaults, links: Links)
    requires Books(w) && NewIds(w, ids.0, ids.1)
    ensures Keeps(w, PlaceEntry(w, setup, d, ids, defaults, SimulatedBracket(links, d.quantity)).world)
  {
    hide Books, Follows, OneEntryPerSetup;
    var replies := SimulatedBracket(links, d.quantity);
    KeepsNothing(w);
    if EntryGate(w, setup).None? {
      var parent := EntryRow(setup, d, ids.0, defaults);
      var child := StopRow(setup, d.quantity, TrailingInitialStop(setup.config).value, ids.1, Some(ids.0), defaults);
      SendKeepsAll(w, parent, None, false, links.first);
      var sent := SendRow(w, parent, None, false, replies.entry);
      if sent.result.Ok? {
        var entry := sent.result.value.0;
        ThenStatus(w, sent.world, setup.id, ErrorRequiresManualReview);
        if !WasRefused(sent.result.value.1) {
          AttachChildKeeps(sent.world, setup, entry, child, replies, links.second);
          KeepsOn(w, sent.world, AttachChild(sent.world, setup, entry, child, replies).world);
        }
      }
    }
  }

  lemma AttachChildKeeps(w: World, setup: Setup, entry: OrderRow, child: OrderRow, replies: BracketReplies, up: bool)
    requires Books(w) && child.id !in w.store.orders && LocalId(child.id) && child.side == Sell
    requires entry.id in w.store.orders && w.store.orders[entry.id].brokerOrderId == entry.brokerOrderId
    requires replies.stop == SimulatedReply(up, child.quantity)
    ensures Keeps(w, AttachChild(w, setup, entry, child, replies).world)
  {
    hide Books, Follows, OneEntryPerSetup;
    PlaceStopKeeps(w, setup, child, entry.brokerOrderId, true, false, up);
    PlaceStopKeepsRow(w, setup, child, entry.brokerOrderId, entry.id, replies.stop);
    var placed := PlaceStop(w, setup, child, entry.brokerOrderId, true, false, replies.stop);
    if placed.result.Err? || IsRefusal(placed.result.value.status) {
      CompensateKeeps(placed.world, setup, entry, replies.cancel);
      KeepsOn(w, placed.world, Compensate(placed.world, setup, entry, replies.cancel).world);
    } else {
      ThenStatus(w, placed.world, setup.id, EntryOrderPlaced);
    }
  }

  lemma AttachStopKeeps(w: World, orderId: string, stopId: string, defaults: Defaults, replies: BracketReplies, up: bool)
    requires Books(w) && stopId !in w.store.orders && LocalId(stopId) && AttachGate(w, orderId).None?
    requires replies.stop == SimulatedReply(up, w.store.orders[orderId].quantity)
    ensures Keeps(w, AttachStop(w, orderId, stopId, defaults, replies).world)
  {
    hide Keeps;
    var entry := w.store.orders[orderId];
    assert RowAgrees(w, orderId);
    var setup := w.store.setups[entry.setupId].setup;
    var row := StopRow(setup, entry.quantity, TrailingInitialStop(setup.config).value, stopId, Some(entry.id), defaults);
    AttachChildKeeps(w, setup, entry, row, replies, up);
    assert AttachStop(w, orderId, stopId, defaults, replies).world == AttachChild(w, setup, entry, row, replies).world;
  }

  lemma CancelKeeps(w: World, orderId: string, up: bool)
    requires Books(w) && orderId in w.store.orders
    ensures Keeps(w, CancelOrder(w, orderId, SimulatedCancel(w, orderId, up)).world)
  {
    hide Books, Keeps;
    KeepsNothing(w);
    var row := w.store.orders[orderId];
    if row.brokerOrderId.Some? {
      var reply := SimulatedCancel(w, orderId, up);
      CancelRowKeeps(w, orderId, reply);
      if reply.CallRefuses? {
        MarkAbsentKeeps(w, orderId);
      }
    }
  }

  /** A broker-only cancellation breaks the ledger exactly when it takes away an order that some row carries. */
  lemma BrokerOnlyCancelExactly(w: World, orderId: string, up: bool)
    requires Consistent(w.broker) && RowsAgree(w)
    requires orderId !in w.store.orders && BROKER_PREFIX <= orderId && orderId != BROKER_PREFIX
    ensures var brokerId := orderId[|BROKER_PREFIX|..];
            var w' := CancelOrder(w, orderId, SimulatedCancel(w, orderId, up)).world;
            RowsAgree(w') <==>
              !(up && brokerId in w.broker.orders
                && exists id :: id in w.store.orders && w.store.orders[id].brokerOrderId == Some(brokerId))
  {
    var brokerId := orderId[|BROKER_PREFIX|..];
    var w' := CancelOrder(w, orderId, SimulatedCancel(w, orderId, up)).world;
    if up && brokerId in w.broker.orders {
      HistorySnoc(w.broker.log, CancelledEvent(brokerId));
      if id :| id in w.store.orders && w.store.orders[id].brokerOrderId == Some(brokerId) {
        assert RowAgrees(w, id);
        assert !RowAgrees(w', id);
      } else {
        forall i | i in w'.store.orders ensures RowAgrees(w', i) {
          assert RowAgrees(w, i);
        }
      }
    }
  }

  lemma FillRowKeeps(w: World, id: string, price: int)
    requires Books(w) && id in w.store.orders
    requires w.store.orders[id].brokerOrderId.Some? && w.store.orders[id].brokerOrderId.value in w.broker.orders
    ensures Keeps(w, World(SetOrderStatus(w.store, id, Filled),
                           FillStep(w.broker, w.store.orders[id].brokerOrderId.value, price).0, w.paperAccount))
  {
    var bid := w.store.orders[id].brokerOrderId.value;
    FillKeepsConsistent(w.broker, bid, price);
    FillTakesOrder(w.broker, bid, price);
    hide RowsAgree, NoOrphans, OneEntryPerSetup, Consistent, AcceptedIds, Follows, Keeps;
    LeavingKeeps(w, id, Filled, FillStep(w.broker, bid, price).0);
  }

  lemma SubmittedIsOpen(w: World, id: string)
    requires Books(w) && id in w.store.orders && w.store.orders[id].status == Submitted
    ensures w.store.orders[id].brokerOrderId.Some? && w.store.orders[id].brokerOrderId.value in w.broker.orders
  {
    assert RowAgrees(w, id);
  }

  lemma FillKeeps(w: World, orderId: string, price: int, stopId: string, defaults: Defaults, up: bool)
    requires Books(w) && stopId !in w.store.orders && LocalId(stopId)
    ensures Keeps(w, FillOrder(w, orderId, price, stopId, defaults,
                               SimulatedReply(up, QuantityAfterFill(w, orderId, price))).world)
  {
    hide Books, Keeps, Protect;
    KeepsNothing(w);
    if orderId in w.store.orders && w.store.orders[orderId].status == Submitted {
      SubmittedIsOpen(w, orderId);
      var row := w.store.orders[orderId];
      var (b, position) := FillStep(w.broker, row.brokerOrderId.value, price);
      FillRowKeeps(w, orderId, price);
      var filled := World(SetOrderStatus(w.store, orderId, Filled), b, w.paperAccount);
      if row.setupId in w.store.setups {
        var setup := w.store.setups[row.setupId].setup;
        ThenStatus(w, filled, setup.id, ErrorRequiresManualReview);
        if FillStop(setup.config).Some? {
          var stop := FillStop(setup.config).value;
          ThenProtect(w, filled, setup, position.value, orderId, price, stop, stopId, defaults, up);
        }
      }
    }
  }

  lemma ThenProtect(a: World, b: World, setup: Setup, position: BrokerPosition, orderId: string, price: int, stop: int,
                    stopId: string, defaults: Defaults, up: bool)
    requires Keeps(a, b) && stopId !in b.store.orders && LocalId(stopId)
    ensures Keeps(a, Protect(b, setup, position, orderId, price, stop, stopId, defaults,
                             SimulatedReply(up, position.quantity)).world)
  {
    hide Books, Follows, OneEntryPerSetup, Protect;
    ProtectKeeps(b, setup, position, orderId, price, stop, stopId, defaults, up);
    KeepsOn(a, b, Protect(b, setup, position, orderId, price, stop, stopId, defaults,
                          SimulatedReply(up, position.quantity)).world);
  }

  lemma BookKeeps(w: World, p: PositionRow)
    requires Books(w)
    ensures Keeps(w, w.(store := UpsertPosition(w.store, p)))
  {
    hide Books, Keeps;
    SameOrdersKeep(w, w.(store := UpsertPosition(w.store, p)));
  }

  lemma ProtectKeeps(w: World, setup: Setup, position: BrokerPosition, orderId: string, price: int, stop: int,
                     stopId: string, defaults: Defaults, up: bool)
    requires Books(w) && stopId !in w.store.orders && LocalId(stopId)
    ensures Keeps(w, Protect(w, setup, position, orderId, price, stop, stopId, defaults,
                             SimulatedReply(up, position.quantity)).world)
  {
    hide Books, Follows, OneEntryPerSetup, HasActiveStop;
    var p := FilledPosition(position, setup.id, price, stop);
    BookKeeps(w, p);
    var booked := w.(store := UpsertPosition(w.store, p));
    ThenStatus(w, booked, setup.id, EntryFilled);
    var open := WithSetupStatus(booked, setup.id, EntryFilled);
    ThenStatus(w, open, setup.id, InPosition);
    var row := StopRow(setup, position.quantity, stop, stopId, Some(orderId), defaults);
    PlaceStopKeeps(open, setup, row, None, true, true, up);
    var placed := PlaceStop(open, setup, row, None, true, true, SimulatedReply(up, position.quantity));
    KeepsOn(w, open, placed.world);
    ThenStatus(w, placed.world, setup.id, InPosition);
  }

  // -------------------------------------------------------------------- runs

  datatype Op =
    | PlaceBracket(setup: Setup, decision: RiskDecision, entryId: string, stopId: string, links: Links)
    | PlaceManualOrder(order: ManualOrder, id: string, up: bool)
    | AttachMissingStop(orderId: string, stopId: string, stopUp: bool, cancelUp: bool)
    | Cancel(orderId: string, up: bool)
    | Fill(orderId: string, price: int, stopId: string, up: bool)

  function Apply(w: World, op: Op, defaults: Defaults): World {
    match op
    case PlaceBracket(setup, d, entryId, stopId, links) =>
      PlaceEntry(w, setup, d, (entryId, stopId), defaults, SimulatedBracket(links, d.quantity)).world
    case PlaceManualOrder(order, id, up) => PlaceManual(w, order, id, SimulatedReply(up, order.quantity)).world
    case AttachMissingStop(orderId, stopId, stopUp, cancelUp) =>
      if AttachGate(w, orderId).Some? then w
      else AttachStop(w, orderId, stopId, defaults, SimulatedAttach(w, orderId, stopUp, cancelUp)).world
    case Cancel(orderId, up) => CancelOrder(w, orderId, SimulatedCancel(w, orderId, up)).world
    case Fill(orderId, price, stopId, up) =>
      FillOrder(w, orderId, price, stopId, defaults, SimulatedReply(up, QuantityAfterFill(w, orderId, price))).world
  }

  /**
   What a run may ask: new local ids are new and well formed, and a broker-only cancellation names an id that no local
   row carries.
   */
  ghost predicate Allowed(w: World, op: Op) {
    match op
    case PlaceBracket(_, _, entryId, stopId, _) => NewIds(w, entryId, stopId)
    case PlaceManualOrder(order, id, _) => id !in w.store.orders && LocalId(id)
    case AttachMissingStop(_, stopId, _, _) => stopId !in w.store.orders && LocalId(stopId)
    case Cancel(orderId, _) =>
      orderId !in w.store.orders && BROKER_PREFIX <= orderId ==>
        forall id :: id in w.store.orders ==> w.store.orders[id].brokerOrderId != Some(orderId[|BROKER_PREFIX|..])
    case Fill(_, _, stopId, _) => stopId !in w.store.orders && LocalId(stopId)
  }

  /** A manual BUY that the broker takes for a setup that already has an active entry. */
  predicate DoublesEntry(w: World, op: Op) {
    op.PlaceManualOrder? && op.order.side == Buy && op.up && op.order.quantity > 0
    && HasActiveEntry(w.store, op.order.setupId)
  }

  lemma OtherOpsKeep(w: World, op: Op, defaults: Defaults)
    requires Books(w) && Allowed(w, op) && !op.PlaceManualOrder?
    ensures Keeps(w, Apply(w, op, defaults))
  {
    KeepsNothing(w);
    match op {
      case PlaceBracket(setup, d, entryId, stopId, links) =>
        PlaceEntryKeeps(w, setup, d, (entryId, stopId), defaults, links);
      case AttachMissingStop(orderId, stopId, stopUp, cancelUp) =>
        if AttachGate(w, orderId).None? {
          AttachStopKeeps(w, orderId, stopId, defaults, SimulatedAttach(w, orderId, stopUp, cancelUp), stopUp);
        }
      case Cancel(orderId, up) =>
        if orderId in w.store.orders {
          CancelKeeps(w, orderId, up);
        } else if BROKER_PREFIX <= orderId {
          // every open broker order is carried by a row, so there is nothing to cancel
          var brokerId := orderId[|BROKER_PREFIX|..];
          assert brokerId !in w.broker.orders;
        }
      case Fill(orderId, price, stopId, up) => FillKeeps(w, orderId, price, stopId, defaults, up);
    }
  }

  /**
   One operation: the books agree again, nothing goes back, and entries stay single exactly unless the operation is a
   doubled entry.
   */
  lemma ApplyKeeps(w: World, op: Op, defaults: Defaults)
    requires Books(w) && Allowed(w, op)
    ensures Books(Apply(w, op, defaults)) && Follows(w, Apply(w, op, defaults))
    ensures OneEntryPerSetup(w.store) ==>
              (OneEntryPerSetup(Apply(w, op, defaults).store) <==> !DoublesEntry(w, op))
  {
    if op.PlaceManualOrder? {
      var row := ManualRow(op.order, op.id);
      SendKeeps(w, row, None, true, op.up);
      if OneEntryPerSetup(w.store) {
        SendDoublesExactly(w, row, None, true, op.up);
      }
    } else {
      OtherOpsKeep(w, op, defaults);
    }
    hide Books, Follows, OneEntryPerSetup, SendRow;
  }

  ghost predicate AllowedRun(w: World, ops: seq<Op>, defaults: Defaults)
    decreases |ops|
  {
    ops == [] || (Allowed(w, ops[0]) && AllowedRun(Apply(w, ops[0], defaults), ops[1..], defaults))
  }

  function Run(w: World, ops: seq<Op>, defaults: Defaults): World
    decreases |ops|
  {
    if ops == [] then w else Run(Apply(w, ops[0], defaults), ops[1..], defaults)
  }

  /** No step of the run doubles an entry. */
  ghost predicate SingleEntries(w: World, ops: seq<Op>, defaults: Defaults)
    decreases |ops|
  {
    ops == [] || (!DoublesEntry(w, ops[0]) && SingleEntries(Apply(w, ops[0], defaults), ops[1..], defaults))
  }

  lemma {:induction false} RunKeeps(w: World, ops: seq<Op>, defaults: Defaults)
    requires Books(w) && AllowedRun(w, ops, defaults)
    ensures Books(Run(w, ops, defaults)) && Follows(w, Run(w, ops, defaults))
    ensures OneEntryPerSetup(w.store) && SingleEntries(w, ops, defaults) ==> OneEntryPerSetup(Run(w, ops, defaults).store)
    decreases |ops|
  {
    if ops == [] {
      KeepsNothing(w);
    } else {
      var next := Apply(w, ops[0], defaults);
      ApplyKeeps(w, ops[0], defaults);
      hide Books, Follows, OneEntryPerSetup, Apply, DoublesEntry;
      RunKeeps(next, ops[1..], defaults);
      FollowsOn(w, next, Run(next, ops[1..], defaults));
    }
  }

  function StartingWorld(setups: map<string, SetupRow>, paperAccount: bool): World {
    World(EMPTY_STORE.(setups := setups), EMPTY_BROKER, paperAccount)
  }

  /**
   Ledger refinement: after every run from an empty store and a new broker, with the connection lost and found at any
   await, the SUBMITTED rows and the broker's open orders are in one-to-one correspondence by broker id with equal
   symbol, side and quantity, and the broker's own books balance; and if no step was a doubled entry, each setup has at
   most one active BUY entry.
   */
  lemma LedgerRefinement(setups: map<string, SetupRow>, paperAccount: bool, ops: seq<Op>, defaults: Defaults)
    requires AllowedRun(StartingWorld(setups, paperAccount), ops, defaults)
    ensures var w := Run(StartingWorld(setups, paperAccount), ops, defaults);
            && (forall id :: id in w.store.orders ==>
                  var row := w.store.orders[id];
                  && (row.status == Submitted <==> row.brokerOrderId.Some? && row.brokerOrderId.value in w.broker.orders)
                  && (row.status == Submitted ==> SameOrder(row, w.broker.orders[row.brokerOrderId.value])))
            && (forall b :: b in w.broker.orders ==>
                  var client := w.broker.orders[b].clientOrderId;
                  client in w.store.orders && w.store.orders[client].status == Submitted
                  && w.store.orders[client].brokerOrderId == Some(b))
            && Consistent(w.broker)
            && (SingleEntries(StartingWorld(setups, paperAccount), ops, defaults) ==> OneEntryPerSetup(w.store))
  {
    var w0 := StartingWorld(setups, paperAccount);
    RunKeeps(w0, ops, defaults);
    var w := Run(w0, ops, defaults);
    forall id | id in w.store.orders ensures RowAgrees(w, id) {
    }
    forall b | b in w.broker.orders ensures RowAgrees(w, w.broker.orders[b].clientOrderId) {
    }
  }

  /** A doubled entry does occur: the same manual BUY placed twice leaves its setup with two active entries. */
  lemma DoubledEntryExample(setups: map<string, SetupRow>, paperAccount: bool, m: ManualOrder, first: string,
                            second: string, defaults: Defaults)
    requires m.side == Buy && m.quantity > 0 && LocalId(first) && LocalId(second) && first != second
    ensures var w0 := StartingWorld(setups, paperAccount);
            var ops := [PlaceManualOrder(m, first, true), PlaceManualOrder(m, second, true)];
            AllowedRun(w0, ops, defaults) && !OneEntryPerSetup(Run(w0, ops, defaults).store)
  {
    var w0 := StartingWorld(setups, paperAccount);
    var op1, op2 := PlaceManualOrder(m, first, true), PlaceManualOrder(m, second, true);
    var w1 := Apply(w0, op1, defaults);
    var w2 := Apply(w1, op2, defaults);
    assert [op1, op2][1..] == [op2] && [op2][1..] == [];
    assert first in w1.store.orders && IsActiveEntry(w1.store.orders[first], m.setupId);
    assert AllowedRun(w1, [op2], defaults) && Run(w1, [op2], defaults) == w2;
    assert IsActiveEntry(w2.store.orders[first], m.setupId) && IsActiveEntry(w2.store.orders[second], m.setupId);
  }
}
