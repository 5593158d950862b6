/** Simulated fills: the broker position, the local order and position rows, and the stop of last resort. */
module FillExecutor {
  import opened Common
  import opened Models
  import opened SimulatedBroker
  import opened Repository
  import opened OrderManager

  /** The initial stop as a fill reads it: the section need not be enabled. */
  function FillStop(config: SetupConfig): Option<int> {
    if config.trailing.Some? then config.trailing.value.initialStop else None
  }

  function FilledPosition(p: BrokerPosition, setupId: string, price: int, stop: int): PositionRow {
    PositionRow(p.symbol, setupId, p.quantity, price, price, 0, Some(stop), Max(price - stop, 0) * p.quantity, true)
  }

  /** `price` is the price after simulated slippage; `stopId` names the stop placed when none is active. */
  function FillOrder(w: World, orderId: string, price: int, stopId: string, defaults: Defaults, reply: Reply)
    : Outcome<Option<PositionRow>>
  {
    if orderId !in w.store.orders || w.store.orders[orderId].status != Submitted
       || w.store.orders[orderId].brokerOrderId.None?
    then Outcome(w, Ok(None))
    else
      var row := w.store.orders[orderId];
      var (b, position) := FillStep(w.broker, row.brokerOrderId.value, price);
      if position.None? then Outcome(w.(broker := b), Ok(None))
      else
        var filled := World(SetOrderStatus(w.store, orderId, Filled), b, w.paperAccount);
        if row.setupId !in w.store.setups then Outcome(filled, Ok(None))
        else
          var setup := w.store.setups[row.setupId].setup;
          var stop := FillStop(setup.config);
          if stop.None? then Outcome(WithSetupStatus(filled, setup.id, ErrorRequiresManualReview), Ok(None))
          else Protect(filled, setup, position.value, orderId, price, stop.value, stopId, defaults, reply)
  }

  /** Books the position and makes sure a stop order stands behind it. */
  function Protect(w: World, setup: Setup, position: BrokerPosition, orderId: string, price: int, stop: int,
                   stopId: string, defaults: Defaults, reply: Reply): Outcome<Option<PositionRow>>
  {
    var p := FilledPosition(position, setup.id, price, stop);
    var booked := WithSetupStatus(w.(store := UpsertPosition(w.store, p)), setup.id, EntryFilled);
    if HasActiveStop(booked.store, setup.id) then Outcome(WithSetupStatus(booked, setup.id, InPosition), Ok(Some(p)))
    else
      var row := StopRow(setup, position.quantity, stop, stopId, Some(orderId), defaults);
      var placed := PlaceStop(booked, setup, row, None, true, true, reply);
      if placed.result.Err? then Outcome(placed.world, Err(placed.result.error))
      else if IsRefusal(placed.result.value.status) then Outcome(placed.world, Ok(Some(p)))
      else Outcome(WithSetupStatus(placed.world, setup.id, InPosition), Ok(Some(p)))
  }

  /** The quantity the stop of last resort would ask for. */
  function QuantityAfterFill(w: World, orderId: string, price: int): int {
    if orderId in w.store.orders && w.store.orders[orderId].brokerOrderId.Some?
       && FillStep(w.broker, w.store.orders[orderId].brokerOrderId.value, price).1.Some?
    then FillStep(w.broker, w.store.orders[orderId].brokerOrderId.value, price).1.value.quantity
    else 0
  }

  /** A SELL row of the setup that is CREATED or SUBMITTED and carries a stop price. */
  ghost predicate StopWorks(s: Store, setupId: string) {
    exists id :: id in s.orders && s.orders[id].setupId == setupId && s.orders[id].side == Sell
                 && s.orders[id].stopPrice.Some? && s.orders[id].status in {Created, Submitted}
  }

  lemma WorksExactly(s: Store, setupId: string)
    ensures HasActiveStop(s, setupId) <==> StopWorks(s, setupId)
  {
    assert forall id :: id in s.orders ==>
      (IsActiveStop(s.orders[id], setupId)
       <==> s.orders[id].setupId == setupId && s.orders[id].side == Sell && s.orders[id].stopPrice.Some?
            && s.orders[id].status in {Created, Submitted});
  }

  /** A submitted row whose broker order is open, of a stored setup with a configured stop. */
  ghost predicate CanFill(w: World, orderId: string) {
    && orderId in w.store.orders && w.store.orders[orderId].status == Submitted
    && w.store.orders[orderId].brokerOrderId.Some? && w.store.orders[orderId].brokerOrderId.value in w.broker.orders
    && w.store.orders[orderId].setupId in w.store.setups
    && w.store.setups[w.store.orders[orderId].setupId].setup.id == w.store.orders[orderId].setupId
    && var trailing := w.store.setups[w.store.orders[orderId].setupId].setup.config.trailing;
       trailing.Some? && trailing.value.initialStop.Some?
  }

  /**
   A fill on the in-memory broker that returns normally books the broker's own quantity at the fill price with the
   configured stop and what a fall to that stop would lose, and leaves the setup in position with a working stop, or,
   when the booked quantity is not positive and no stop was working, in manual review.
   */
  lemma FillLeavesProtected(w: World, orderId: string, price: int, stopId: string, defaults: Defaults, up: bool)
    requires CanFill(w, orderId) && stopId != orderId
    ensures var row := w.store.orders[orderId];
            var setup := w.store.setups[row.setupId].setup;
            var r := FillOrder(w, orderId, price, stopId, defaults,
                               SimulatedReply(up, QuantityAfterFill(w, orderId, price)));
            var store := r.world.store;
            && orderId in store.orders && store.orders[orderId].status == Filled && setup.id in store.setups
            && (r.result.Ok? ==>
                  && r.result.value.Some?
                  && var p := r.result.value.value;
                     && p.symbol in store.positions && store.positions[p.symbol] == p
                     && p.quantity == HeldQuantity(r.world.broker, p.symbol)
                     && p.symbol == w.broker.orders[row.brokerOrderId.value].symbol && p.setupId == row.setupId
                     && p.currentStop == setup.config.trailing.value.initialStop && p.averagePrice == price
                     && p.currentPrice == price && p.unrealizedPnl == 0 && p.open
                     && (p.quantity >= 0 ==> p.riskRemaining == Max((price - p.currentStop.value) * p.quantity, 0))
                     && (if store.setups[setup.id].status == InPosition then StopWorks(store, setup.id)
                         else store.setups[setup.id].status == ErrorRequiresManualReview && p.quantity <= 0))
  {
    hide Protect, StopWorks, StopRow, PlaceStop, FillStep, HasActiveStop;
    var row := w.store.orders[orderId];
    var setup := w.store.setups[row.setupId].setup;
    FillHolds(w.broker, row.brokerOrderId.value, price);
    var (b, position) := FillStep(w.broker, row.brokerOrderId.value, price);
    var filled := World(SetOrderStatus(w.store, orderId, Filled), b, w.paperAccount);
    ProtectProtects(filled, setup, position.value, orderId, price, FillStop(setup.config).value, stopId, defaults, up);
    ProtectKeepsHoldings(filled, setup, position.value, orderId, price, FillStop(setup.config).value, stopId, defaults,
                         SimulatedReply(up, position.value.quantity));
    RiskOfFall(price, FillStop(setup.config).value, position.value.quantity);
    var r := FillOrder(w, orderId, price, stopId, defaults, SimulatedReply(up, QuantityAfterFill(w, orderId, price)));
    WorksExactly(r.world.store, setup.id);
  }

  /** A fill answers with the quantity then held. */
  lemma FillHolds(b: BrokerState, id: string, price: int)
    requires id in b.orders
    ensures var (b', position) := FillStep(b, id, price);
            && position.Some? && position.value.symbol == b.orders[id].symbol
            && position.value.quantity == HeldQuantity(b', position.value.symbol)
  {
  }

  lemma RiskOfFall(price: int, stop: int, quantity: int)
    ensures quantity >= 0 ==> Max(price - stop, 0) * quantity == Max((price - stop) * quantity, 0)
  {
    if quantity < 0 {
    } else if price >= stop {
      assert (price - stop) * quantity >= 0;
    } else {
      assert (stop - price) * quantity >= 0;
    }
  }

  /** Protecting a fill asks for a stop at most, and fills nothing. */
  lemma ProtectKeepsHoldings(w: World, setup: Setup, position: BrokerPosition, orderId: string, price: int, stop: int,
                             stopId: string, defaults: Defaults, reply: Reply)
    ensures Protect(w, setup, position, orderId, price, stop, stopId, defaults, reply).world.broker.positions
            == w.broker.positions
  {
    hide HasActiveStop, Decimal, PermId, ToRequest, FilledPosition, StopRow;
  }

  lemma ProtectProtects(w: World, setup: Setup, position: BrokerPosition, orderId: string, price: int, stop: int,
                        stopId: string, defaults: Defaults, up: bool)
    requires setup.id in w.store.setups
    requires orderId in w.store.orders && orderId != stopId
    ensures var r := Protect(w, setup, position, orderId, price, stop, stopId, defaults,
                             SimulatedReply(up, position.quantity));
            var store := r.world.store;
            && orderId in store.orders && store.orders[orderId] == w.store.orders[orderId] && setup.id in store.setups
            && (r.result.Ok? ==>
                  && r.result.value == Some(FilledPosition(position, setup.id, price, stop))
                  && position.symbol in store.positions
                  && store.positions[position.symbol] == FilledPosition(position, setup.id, price, stop)
                  && (if store.setups[setup.id].status == InPosition then HasActiveStop(store, setup.id)
                      else store.setups[setup.id].status == ErrorRequiresManualReview && position.quantity <= 0))
  {
    hide Decimal, PermId, ToRequest, HasActiveStop;
    var p := FilledPosition(position, setup.id, price, stop);
    var booked := WithSetupStatus(w.(store := UpsertPosition(w.store, p)), setup.id, EntryFilled);
    var r := Protect(w, setup, position, orderId, price, stop, stopId, defaults, SimulatedReply(up, position.quantity));
    if HasActiveStop(booked.store, setup.id) {
      assert r.world.store.orders == booked.store.orders;
      SameOrdersSameStop(booked.store, r.world.store, setup.id);
    } else if up && position.quantity > 0 && setup.config.paperMode == w.paperAccount {
      assert stopId in r.world.store.orders && IsActiveStop(r.world.store.orders[stopId], setup.id);
      HasThisStop(r.world.store, setup.id, stopId);
    }
  }

  lemma HasThisStop(s: Store, setupId: string, id: string)
    requires id in s.orders && IsActiveStop(s.orders[id], setupId)
    ensures HasActiveStop(s, setupId)
  {
  }

  lemma SameOrdersSameStop(a: Store, b: Store, setupId: string)
    requires a.orders == b.orders && HasActiveStop(a, setupId)
    ensures HasActiveStop(b, setupId)
  {
  }

  class Executor {
    const manager: Manager

    constructor (manager: Manager)
      ensures this.manager == manager
    {
      this.manager := manager;
    }

    method SimulateFillOrder(orderId: string, price: int, stopId: string)
      returns (result: Result<Option<PositionRow>, PlaceError>, ghost up: bool)
      modifies manager.repo, manager.broker
      ensures Outcome(manager.View(), result)
              == FillOrder(old(manager.View()), orderId, price, stopId, manager.defaults,
                           SimulatedReply(up, QuantityAfterFill(old(manager.View()), orderId, price)))
    {
      up := false;
      var snapshot := manager.Snapshot();
      if orderId !in snapshot.orders || snapshot.orders[orderId].status != Submitted {
        return Ok(None), up;
      }
      var row := snapshot.orders[orderId];
      if row.brokerOrderId.None? {
        return Ok(None), up;
      }
      var position := manager.broker.SimulateFill(row.brokerOrderId.value, price);
      if position.None? {
        return Ok(None), up;
      }
      manager.repo.UpdateOrderStatus(orderId, Filled);
      if row.setupId !in snapshot.setups {
        return Ok(None), up;
      }
      var setup := snapshot.setups[row.setupId].setup;
      var stop := FillStop(setup.config);
      if stop.None? {
        manager.repo.UpdateSetupStatus(setup.id, ErrorRequiresManualReview);
        return Ok(None), up;
      }
      var p := FilledPosition(position.value, setup.id, price, stop.value);
      manager.repo.SavePosition(p);
      manager.repo.UpdateSetupStatus(setup.id, EntryFilled);
      var protection := manager.Snapshot();
      if !HasActiveStop(protection, setup.id) {
        var placed;
        placed, up := manager.PlaceStopOrder(setup, StopRow(setup, p.quantity, stop.value, stopId, Some(orderId),
                                                            manager.defaults), None, true, true);
        if placed.Err? {
          return Err(placed.error), up;
        }
        if IsRefusal(placed.value.status) {
          return Ok(Some(p)), up;
        }
      }
      manager.repo.UpdateSetupStatus(setup.id, InPosition);
      return Ok(Some(p)), up;
    }
  }
}
