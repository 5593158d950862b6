/** Stop moves among the order operations: one run of both kinds, from an empty store and a new broker. */
module StopLedger {
  import opened Common
  import opened Models
  import opened SimulatedBroker
  import opened Repository
  import opened OrderManager
  import opened OrderLedger
  import S = StopModification

  /** An order operation over the in-memory broker, or a stop move under any reply. */
  datatype Step = Ordered(op: Op) | Moved(move: S.StopOp)

  function View(w: World): S.StopWorld {
    S.StopWorld(w.store, w.broker)
  }

  function Take(w: World, step: Step, defaults: Defaults): World {
    match step
    case Ordered(op) => Apply(w, op, defaults)
    case Moved(move) =>
      var moved := S.Perform(View(w), move);
      World(moved.store, moved.broker, w.paperAccount)
  }

  ghost predicate Permitted(w: World, steps: seq<Step>, defaults: Defaults)
    decreases |steps|
  {
    steps == []
    || (&& (steps[0].Ordered? ==> Allowed(w, steps[0].op))
        && Permitted(Take(w, steps[0], defaults), steps[1..], defaults))
  }

  function RunAll(w: World, steps: seq<Step>, defaults: Defaults): World
    decreases |steps|
  {
    if steps == [] then w else RunAll(Take(w, steps[0], defaults), steps[1..], defaults)
  }

  // ------------------------------------------------------- what a move does

  /** A row as it was, but for the price of a stop it has. */
  ghost predicate RowMoved(row: OrderRow, row': OrderRow) {
    row'.(stopPrice := row.stopPrice) == row && (row'.stopPrice.Some? <==> row.stopPrice.Some?)
  }

  /** A broker order as it was, or with another stop price, which is then also the trigger of a stop-limit. */
  ghost predicate OrderMoved(o: BrokerOrder, o': BrokerOrder) {
    o' == o
    || (o'.stopPrice.Some? && o' == o.(stopPrice := o'.stopPrice,
                                       triggerPrice := if o.orderType == StopLimit then o'.stopPrice else o.triggerPrice))
  }

  /** Rows and broker orders are the same but for the prices of their stops. */
  ghost predicate OnlyStopsMoved(w: World, w': World) {
    && w'.store.orders.Keys == w.store.orders.Keys
    && (forall k :: k in w.store.orders ==> RowMoved(w.store.orders[k], w'.store.orders[k]))
    && w'.broker.orders.Keys == w.broker.orders.Keys
    && (forall b :: b in w.broker.orders ==> OrderMoved(w.broker.orders[b], w'.broker.orders[b]))
    && (forall b :: b in w.broker.orders && w'.broker.orders[b] != w.broker.orders[b] ==>
          w.broker.orders[b].stopPrice.Some?)
    && AcceptedIds(w'.broker.log) == AcceptedIds(w.broker.log)
  }

  /** Agreeing books are what the ratchet asks for: the broker never protects above the local order. */
  lemma BooksAreCapped(w: World)
    requires Books(w)
    ensures S.Keyed(w.store) && S.Capped(View(w))
  {
    hide Consistent, NoOrphans, TypedRow, AcceptedIds;
    forall k | k in w.store.orders ensures RowAgrees(w, k) {
    }
  }

  lemma ModifyMovesStops(w: World, symbol: string, newStop: int, guardBlocks: bool, up: bool, reply: CallReply)
    requires S.Keyed(w.store) && Consistent(w.broker) && RowsAgree(w)
    ensures var moved := S.Modification(View(w), symbol, newStop, guardBlocks, up, reply).0;
            OnlyStopsMoved(w, World(moved.store, moved.broker, w.paperAccount)) && Consistent(moved.broker)
  {
    hide S.LocalPart, S.BrokerPart, S.Check, S.Keyed, Consistent, AcceptedIds, RowsAgree;
    var checked := S.Check(w.store, symbol, newStop, guardBlocks);
    if checked.Ok? {
      CheckedHasStop(w, symbol, newStop, guardBlocks);
      BrokerPartMovesStop(w.broker, checked.value, newStop, up, reply);
      RowsOnlyMove(w.store, symbol, checked.value, newStop);
    }
  }

  /** The order a check finds has a stop, and so has the open broker order under its id. */
  lemma CheckedHasStop(w: World, symbol: string, newStop: int, guardBlocks: bool)
    requires S.Keyed(w.store) && RowsAgree(w) && S.Check(w.store, symbol, newStop, guardBlocks).Ok?
    ensures var order := S.Check(w.store, symbol, newStop, guardBlocks).value.order;
            order.Some? ==> order.value.stopPrice.Some? && order.value.id in w.store.orders
                            && w.store.orders[order.value.id] == order.value
                            && (BrokerOpen(w, order.value) ==>
                                  w.broker.orders[order.value.brokerOrderId.value].stopPrice.Some?)
  {
    S.ActiveStopIsStored(w.store, symbol);
    var order := S.Check(w.store, symbol, newStop, guardBlocks).value.order;
    if order.Some? {
      assert RowAgrees(w, order.value.id);
    }
  }

  lemma RowsOnlyMove(s: Store, symbol: string, t: S.Target, newStop: int)
    requires t.order.Some? && t.order.value.id in s.orders ==> s.orders[t.order.value.id].stopPrice.Some?
    ensures var s' := S.LocalPart(s, symbol, t, newStop);
            && s'.orders.Keys == s.orders.Keys
            && forall k :: k in s.orders ==> RowMoved(s.orders[k], s'.orders[k])
  {
    S.LocalOrders(s, symbol, t, newStop);
    hide S.LocalPart;
  }

  lemma ModifyStepMovesStop(b: BrokerState, id: string, newStop: int, reply: CallReply)
    ensures var b' := ModifyStopStep(b, id, newStop, reply).0;
            && AcceptedIds(b'.log) == AcceptedIds(b.log) && b'.orders.Keys == b.orders.Keys
            && forall i :: i in b.orders ==>
                             OrderMoved(b.orders[i], b'.orders[i]) && (i != id ==> b'.orders[i] == b.orders[i])
  {
    HistorySnoc(b.log, StopModifiedEvent(id, newStop));
    hide AcceptedIds;
  }

  lemma BrokerPartMovesStop(b: BrokerState, t: S.Target, newStop: int, up: bool, reply: CallReply)
    requires Consistent(b)
    requires t.order.Some? && t.order.value.brokerOrderId.Some? && t.order.value.brokerOrderId.value in b.orders ==>
               b.orders[t.order.value.brokerOrderId.value].stopPrice.Some?
    ensures var b' := S.BrokerPart(b, t, newStop, up, reply).0;
            && Consistent(b') && AcceptedIds(b'.log) == AcceptedIds(b.log) && b'.orders.Keys == b.orders.Keys
            && (forall id :: id in b.orders ==> OrderMoved(b.orders[id], b'.orders[id]))
            && (forall id :: id in b.orders && b'.orders[id] != b.orders[id] ==> b.orders[id].stopPrice.Some?)
  {
    hide Consistent, AcceptedIds, ModifyStopStep;
    if S.AsksBroker(t, up) {
      ModifyKeepsConsistent(b, t.order.value.brokerOrderId.value, newStop, reply);
      ModifyStepMovesStop(b, t.order.value.brokerOrderId.value, newStop, reply);
    }
  }

  /** Agreement survives when only stops moved and the broker stays at or below the rows. */
  lemma MovedRowAgrees(w: World, w': World, k: string)
    requires k in w.store.orders && RowAgrees(w, k) && OnlyStopsMoved(w, w') && S.Capped(View(w'))
    ensures RowAgrees(w', k)
  {
    hide AcceptedIds, LocalId, Numeral;
    assert RowMoved(w.store.orders[k], w'.store.orders[k]);
    if BrokerOpen(w, w.store.orders[k]) {
      var b := w.store.orders[k].brokerOrderId.value;
      assert OrderMoved(w.broker.orders[b], w'.broker.orders[b]);
    }
  }

  lemma MovedBooks(w: World, w': World)
    requires Books(w) && OnlyStopsMoved(w, w') && Consistent(w'.broker) && S.Keyed(w'.store) && S.Capped(View(w'))
    ensures Books(w') && (OneEntryPerSetup(w.store) ==> OneEntryPerSetup(w'.store))
  {
    hide RowAgrees, Consistent, AcceptedIds, Numeral, LocalId, S.Capped;
    forall k | k in w'.store.orders ensures RowAgrees(w', k) {
      assert RowAgrees(w, k);
      MovedRowAgrees(w, w', k);
    }
    assert forall k :: k in w'.store.orders ==> RowMoved(w.store.orders[k], w'.store.orders[k]);
    assert forall b :: b in w'.broker.orders ==> OrderMoved(w.broker.orders[b], w'.broker.orders[b]);
  }

  lemma MovedFollows(w: World, w': World)
    requires OnlyStopsMoved(w, w') && S.Ratchets(View(w), View(w'))
    ensures Follows(w, w')
  {
    hide AcceptedIds;
  }

  lemma MoveKeeps(w: World, move: S.StopOp, defaults: Defaults)
    requires Books(w)
    ensures Keeps(w, Take(w, Moved(move), defaults))
  {
    var w' := Take(w, Moved(move), defaults);
    hide OneEntryPerSetup, OnlyStopsMoved, Follows, S.Ratchets, S.Keyed, S.Capped, S.Modification;
    BooksAreCapped(w);
    S.PerformRatchets(View(w), move);
    PerformMovesStops(w, move);
    hide Books, S.Perform;
    MovedBooks(w, w');
    MovedFollows(w, w');
  }

  lemma PerformMovesStops(w: World, move: S.StopOp)
    requires S.Keyed(w.store) && Consistent(w.broker) && RowsAgree(w)
    ensures var moved := S.Perform(View(w), move);
            OnlyStopsMoved(w, World(moved.store, moved.broker, w.paperAccount)) && Consistent(moved.broker)
  {
    hide Consistent, AcceptedIds, S.Keyed, S.Modification, S.RaiseStop, RowsAgree;
    if move.Modify? {
      hide OnlyStopsMoved;
      ModifyMovesStops(w, move.symbol, move.newStop, move.guardBlocks, move.up, move.reply);
    } else {
      S.RaiseRatchets(w.store, move.symbol, move.newStop);
    }
  }

  // ------------------------------------------------------------------ runs

  lemma TakeKeeps(w: World, step: Step, defaults: Defaults)
    requires Books(w) && (step.Ordered? ==> Allowed(w, step.op))
    ensures Books(Take(w, step, defaults)) && Follows(w, Take(w, step, defaults))
  {
    hide Books, Follows, Allowed, OneEntryPerSetup;
    match step {
      case Ordered(op) => ApplyKeeps(w, op, defaults);
      case Moved(move) => MoveKeeps(w, move, defaults);
    }
  }

  lemma {:induction false} RunAllKeeps(w: World, steps: seq<Step>, defaults: Defaults)
    requires Books(w) && Permitted(w, steps, defaults)
    ensures Books(RunAll(w, steps, defaults)) && Follows(w, RunAll(w, steps, defaults))
    decreases |steps|
  {
    hide Books, Follows, Take, Allowed;
    if steps == [] {
      KeepsNothing(w);
    } else {
      var next := Take(w, steps[0], defaults);
      TakeKeeps(w, steps[0], defaults);
      RunAllKeeps(next, steps[1..], defaults);
      FollowsOn(w, next, RunAll(next, steps[1..], defaults));
    }
  }

  /**
   Stops over runs of both kinds: from an empty store and a new broker, however brackets, manual orders, attachments,
   cancellations, fills and stop moves alternate, the two books agree, the broker never holds a stop above the local
   order's, and from any point of the run to any later one no row's stop and no open broker stop goes down.
   */
  lemma StopsOverAllRuns(setups: map<string, SetupRow>, paperAccount: bool, steps: seq<Step>, more: seq<Step>,
                         defaults: Defaults)
    requires Permitted(StartingWorld(setups, paperAccount), steps, defaults)
    requires Permitted(RunAll(StartingWorld(setups, paperAccount), steps, defaults), more, defaults)
    ensures var w := RunAll(StartingWorld(setups, paperAccount), steps, defaults);
            var later := RunAll(w, more, defaults);
            && Books(w) && S.Capped(View(w)) && S.Keyed(w.store)
            && Books(later) && S.Capped(View(later))
            && OrdersRatchet(w.store, later.store)
            && (forall id :: id in w.broker.orders && id in later.broker.orders ==>
                               AtLeast(w.broker.orders[id].stopPrice, later.broker.orders[id].stopPrice))
  {
    var w0 := StartingWorld(setups, paperAccount);
    assert Books(w0);
    RunAllKeeps(w0, steps, defaults);
    var w := RunAll(w0, steps, defaults);
    RunAllKeeps(w, more, defaults);
    var later := RunAll(w, more, defaults);
    BooksAreCapped(w);
    BooksAreCapped(later);
    OpenIsAccepted(w);
    hide Books, S.Capped, S.Keyed, RunAll, Permitted, AcceptedIds;
  }

  lemma OpenIsAccepted(w: World)
    requires Books(w)
    ensures w.broker.orders.Keys <= AcceptedIds(w.broker.log)
  {
    hide AcceptedIds;
  }

  /** Wherever such a run stands, any sequence of stop moves from there only raises stops and never adds risk. */
  lemma MovesFromAnywhere(setups: map<string, SetupRow>, paperAccount: bool, steps: seq<Step>, moves: seq<S.StopOp>,
                          defaults: Defaults)
    requires Permitted(StartingWorld(setups, paperAccount), steps, defaults)
    ensures var w := View(RunAll(StartingWorld(setups, paperAccount), steps, defaults));
            var w' := S.Run(w, moves);
            && S.Ratchets(w, w') && S.Capped(w')
            && forall k :: k in w.store.positions && w.store.positions[k].currentStop.Some?
                           && w.store.positions[k].quantity >= 0 ==>
                             var p, p' := w.store.positions[k], w'.store.positions[k];
                             S.RiskOf(p'.averagePrice, p'.currentStop.value, p'.quantity)
                             <= S.RiskOf(p.averagePrice, p.currentStop.value, p.quantity)
  {
    StopsOverAllRuns(setups, paperAccount, steps, [], defaults);
    S.StopsNeverGoDown(View(RunAll(StartingWorld(setups, paperAccount), steps, defaults)), moves);
  }
}
