/**
 Moving a protective stop: the broker order first, then the local stop order, then the position. Each of the three
 holds its own stop price, and none of them ever goes down.
 */
module StopModification {
  import opened Common
  import opened Models
  import opened SimulatedBroker
  import opened Repository
  import OrderLedger

  datatype StopWorld = StopWorld(store: Store, broker: BrokerState)

  datatype Refusal = GuardBlocks | NoStopTarget | LoweringForbidden | BrokerRejected

  datatype StopError = Refused(why: Refusal) | BrokerFault

  datatype StopChange = StopChange(previous: Option<int>, brokerUpdated: bool, orderId: Option<string>)

  /** What stands behind a symbol when a modification starts. */
  datatype Target = Target(position: Option<PositionRow>, order: Option<OrderRow>)

  function RiskOf(average: int, stop: int, quantity: int): int {
    Max(average - stop, 0) * quantity
  }

  /** The position manager's own ratchet. */
  function RaiseStop(s: Store, symbol: string, newStop: int, allowLower: bool): (Store, bool) {
    if Upper(symbol) !in s.positions then (s, false)
    else
      var p := s.positions[Upper(symbol)];
      if p.currentStop.Some? && newStop < p.currentStop.value && !allowLower then (s, false)
      else
        var moved := p.(currentStop := Some(newStop), riskRemaining := RiskOf(p.averagePrice, newStop, p.quantity));
        (UpsertPosition(s, moved), true)
  }

  /** The stop in force: the order's, otherwise the position's. */
  function CurrentStop(t: Target): Option<int> {
    if t.order.Some? && t.order.value.stopPrice.Some? then t.order.value.stopPrice
    else if t.position.Some? then t.position.value.currentStop
    else None
  }

  function TargetOf(s: Store, symbol: string): Target {
    Target(if Upper(symbol) in s.positions then Some(s.positions[Upper(symbol)]) else None, ActiveStopOrder(s, symbol))
  }

  function Check(s: Store, symbol: string, newStop: int, guardBlocks: bool): Result<Target, Refusal> {
    var t := TargetOf(s, symbol);
    if guardBlocks then Err(GuardBlocks)
    else if t.position.None? && t.order.None? then Err(NoStopTarget)
    else if CurrentStop(t).Some? && newStop < CurrentStop(t).value then Err(LoweringForbidden)
    else Ok(t)
  }

  predicate AsksBroker(t: Target, up: bool) {
    up && t.order.Some? && t.order.value.brokerOrderId.Some?
  }

  /** The broker's part: asked only when the broker reports being connected and the order has a broker id. */
  function BrokerPart(b: BrokerState, t: Target, newStop: int, up: bool, reply: CallReply)
    : (BrokerState, Result<bool, StopError>)
  {
    if !AsksBroker(t, up) then (b, Ok(false))
    else
      var (b', answer) := ModifyStopStep(b, t.order.value.brokerOrderId.value, newStop, reply);
      if answer.Err? then (b', Err(BrokerFault))
      else if !answer.value.accepted then (b', Err(Refused(BrokerRejected)))
      else (b', Ok(true))
  }

  function LocalPart(s: Store, symbol: string, t: Target, newStop: int): Store {
    var s' := if t.order.Some? then SetOrderStop(s, t.order.value.id, newStop) else s;
    if t.position.Some? then RaiseStop(s', Upper(symbol), newStop, false).0 else s'
  }

  /** `up` is the connection status that was read; `reply` is what the connector then did with the request. */
  function Modification(w: StopWorld, symbol: string, newStop: int, guardBlocks: bool, up: bool, reply: CallReply)
    : (StopWorld, Result<StopChange, StopError>)
  {
    var checked := Check(w.store, symbol, newStop, guardBlocks);
    if checked.Err? then (w, Err(Refused(checked.error)))
    else
      var t := checked.value;
      var (b, asked) := BrokerPart(w.broker, t, newStop, up, reply);
      if asked.Err? then (w.(broker := b), Err(asked.error))
      else
        (StopWorld(LocalPart(w.store, symbol, t, newStop), b),
         Ok(StopChange(CurrentStop(t), asked.value, if t.order.Some? then Some(t.order.value.id) else None)))
  }

  // ------------------------------------------------------------- the ratchet

  ghost predicate PositionsRatchet(s: Store, s': Store) {
    forall k :: k in s.positions ==>
                  && k in s'.positions && AtLeast(s.positions[k].currentStop, s'.positions[k].currentStop)
                  && s'.positions[k].quantity == s.positions[k].quantity
                  && s'.positions[k].averagePrice == s.positions[k].averagePrice
  }

  ghost predicate BrokerRatchets(b: BrokerState, b': BrokerState) {
    forall id :: id in b.orders ==> id in b'.orders && AtLeast(b.orders[id].stopPrice, b'.orders[id].stopPrice)
  }

  ghost predicate Ratchets(w: StopWorld, w': StopWorld) {
    OrdersRatchet(w.store, w'.store) && PositionsRatchet(w.store, w'.store) && BrokerRatchets(w.broker, w'.broker)
  }

  /** Rows are stored under their own keys, and no two rows share a broker order. */
  ghost predicate Keyed(s: Store) {
    && (forall k :: k in s.orders ==> s.orders[k].id == k)
    && (forall k :: k in s.positions ==> s.positions[k].symbol == k)
    && OrderLedger.DistinctBrokerIds(s)
  }

  /** The broker never protects at a higher price than the local order claims. */
  ghost predicate Capped(w: StopWorld) {
    forall k :: k in w.store.orders && w.store.orders[k].brokerOrderId.Some?
                && w.store.orders[k].brokerOrderId.value in w.broker.orders ==>
                  AtLeast(w.broker.orders[w.store.orders[k].brokerOrderId.value].stopPrice, w.store.orders[k].stopPrice)
  }

  lemma {:induction false} ActiveStopIsStored(s: Store, symbol: string)
    requires Keyed(s)
    ensures var r := ActiveStopOrder(s, symbol);
            r.Some? ==> r.value.id in s.orders && s.orders[r.value.id] == r.value
    decreases |s.created|
  {
    if s.created != [] {
      ActiveStopIsStored(s.(created := s.created[..|s.created| - 1]), symbol);
    }
  }

  lemma RaiseRatchets(s: Store, symbol: string, newStop: int)
    requires Keyed(s)
    ensures var s' := RaiseStop(s, symbol, newStop, false).0;
            Keyed(s') && s'.orders == s.orders && PositionsRatchet(s, s')
  {
  }

  lemma SetOrderStopRatchets(s: Store, id: string, newStop: int)
    requires Keyed(s) && id in s.orders && AtLeast(s.orders[id].stopPrice, Some(newStop))
    ensures var s' := SetOrderStop(s, id, newStop);
            Keyed(s') && s'.positions == s.positions && OrdersRatchet(s, s')
  {
  }

  /** What a passed check says: the order found is a stored row and the new stop is not below its price. */
  lemma CheckPasses(s: Store, symbol: string, newStop: int, guardBlocks: bool)
    requires Keyed(s) && Check(s, symbol, newStop, guardBlocks).Ok?
    ensures var order := Check(s, symbol, newStop, guardBlocks).value.order;
            order.Some? ==> order.value.id in s.orders && s.orders[order.value.id] == order.value
                            && AtLeast(order.value.stopPrice, Some(newStop))
  {
    ActiveStopIsStored(s, symbol);
  }

  lemma LocalPartRatchets(s: Store, symbol: string, t: Target, newStop: int)
    requires Keyed(s)
    requires t.order.Some? ==> t.order.value.id in s.orders
                               && AtLeast(s.orders[t.order.value.id].stopPrice, Some(newStop))
    ensures var s' := LocalPart(s, symbol, t, newStop);
            Keyed(s') && OrdersRatchet(s, s') && PositionsRatchet(s, s')
  {
    var s1 := s;
    if t.order.Some? {
      SetOrderStopRatchets(s, t.order.value.id, newStop);
      s1 := SetOrderStop(s, t.order.value.id, newStop);
    }
    hide Keyed;
    if t.position.Some? {
      RaiseRatchets(s1, Upper(symbol), newStop);
    }
  }

  lemma BrokerPartRatchets(w: StopWorld, t: Target, newStop: int, up: bool, reply: CallReply)
    requires Keyed(w.store) && Capped(w)
    requires t.order.Some? ==> t.order.value.id in w.store.orders && w.store.orders[t.order.value.id] == t.order.value
                               && AtLeast(t.order.value.stopPrice, Some(newStop))
    ensures BrokerRatchets(w.broker, BrokerPart(w.broker, t, newStop, up, reply).0)
  {
  }

  /** Broker first, local second: the cap survives a change at the broker only together with the local change. */
  lemma ChangeKeepsCap(w: StopWorld, symbol: string, t: Target, newStop: int, up: bool, reply: CallReply)
    requires Keyed(w.store) && Capped(w)
    requires t.order.Some? ==> t.order.value.id in w.store.orders && w.store.orders[t.order.value.id] == t.order.value
                               && AtLeast(t.order.value.stopPrice, Some(newStop))
    ensures var (b, asked) := BrokerPart(w.broker, t, newStop, up, reply);
            if asked.Ok? then Capped(StopWorld(LocalPart(w.store, symbol, t, newStop), b)) else b == w.broker
  {
    var (b, asked) := BrokerPart(w.broker, t, newStop, up, reply);
    var s := LocalPart(w.store, symbol, t, newStop);
    LocalOrders(w.store, symbol, t, newStop);
    hide LocalPart;
    if asked.Ok? && t.order.Some? {
      var id := t.order.value.id;
      forall k | k in s.orders && s.orders[k].brokerOrderId.Some? && s.orders[k].brokerOrderId.value in b.orders
        ensures AtLeast(b.orders[s.orders[k].brokerOrderId.value].stopPrice, s.orders[k].stopPrice)
      {
        assert s.orders[k].brokerOrderId == w.store.orders[k].brokerOrderId;
        if k != id {
          assert s.orders[k] == w.store.orders[k];
          assert w.store.orders[k].brokerOrderId != t.order.value.brokerOrderId;
        }
      }
    }
  }

  lemma LocalOrders(s: Store, symbol: string, t: Target, newStop: int)
    ensures var orders := LocalPart(s, symbol, t, newStop).orders;
            orders == if t.order.Some? && t.order.value.id in s.orders
                      then s.orders[t.order.value.id := s.orders[t.order.value.id].(stopPrice := Some(newStop))]
                      else s.orders
  {
  }

  lemma ModifyRatchets(w: StopWorld, symbol: string, newStop: int, guardBlocks: bool, up: bool, reply: CallReply)
    requires Keyed(w.store) && Capped(w)
    ensures var w' := Modification(w, symbol, newStop, guardBlocks, up, reply).0;
            Ratchets(w, w') && Keyed(w'.store) && Capped(w')
  {
    var checked := Check(w.store, symbol, newStop, guardBlocks);
    if checked.Ok? {
      CheckPasses(w.store, symbol, newStop, guardBlocks);
      BrokerPartRatchets(w, checked.value, newStop, up, reply);
      ChangeKeepsCap(w, symbol, checked.value, newStop, up, reply);
      LocalPartRatchets(w.store, symbol, checked.value, newStop);
    }
  }

  // ---------------------------------------------------------------- runs

  datatype StopOp =
    | Modify(symbol: string, newStop: int, guardBlocks: bool, up: bool, reply: CallReply)
    | Raise(symbol: string, newStop: int)

  function Perform(w: StopWorld, op: StopOp): StopWorld {
    match op
    case Modify(symbol, newStop, guardBlocks, up, reply) => Modification(w, symbol, newStop, guardBlocks, up, reply).0
    case Raise(symbol, newStop) => w.(store := RaiseStop(w.store, symbol, newStop, false).0)
  }

  function Run(w: StopWorld, ops: seq<StopOp>): StopWorld
    decreases |ops|
  {
    if ops == [] then w else Run(Perform(w, ops[0]), ops[1..])
  }

  lemma PerformRatchets(w: StopWorld, op: StopOp)
    requires Keyed(w.store) && Capped(w)
    ensures var w' := Perform(w, op);
            Ratchets(w, w') && Keyed(w'.store) && Capped(w')
  {
    match op {
      case Modify(symbol, newStop, guardBlocks, up, reply) => ModifyRatchets(w, symbol, newStop, guardBlocks, up, reply);
      case Raise(symbol, newStop) => RaiseRatchets(w.store, symbol, newStop);
    }
  }

  lemma {:induction false} RunRatchets(w: StopWorld, ops: seq<StopOp>)
    requires Keyed(w.store) && Capped(w)
    ensures Ratchets(w, Run(w, ops)) && Capped(Run(w, ops))
    decreases |ops|
  {
    if ops != [] {
      PerformRatchets(w, ops[0]);
      hide Perform, Keyed, Capped;
      RunRatchets(Perform(w, ops[0]), ops[1..]);
    }
  }

  lemma RiskFalls(average: int, before: int, after: int, quantity: int)
    requires before <= after && quantity >= 0
    ensures RiskOf(average, after, quantity) <= RiskOf(average, before, quantity)
  {
    var less, more := Max(average - after, 0), Max(average - before, 0);
    assert (more - less) * quantity >= 0;
  }

  /**
   The ratchet over every run of stop moves, with any connector, connected or not: no position stop, local stop order
   or broker stop ever goes down, the broker stays at or below the local order, and the risk left on a position of
   non-negative quantity that has a stop never grows.
   */
  lemma StopsNeverGoDown(w: StopWorld, ops: seq<StopOp>)
    requires Keyed(w.store) && Capped(w)
    ensures var w' := Run(w, ops);
            && Ratchets(w, w') && Capped(w')
            && forall k :: k in w.store.positions && w.store.positions[k].currentStop.Some?
                           && w.store.positions[k].quantity >= 0 ==>
                             var p, p' := w.store.positions[k], w'.store.positions[k];
                             RiskOf(p'.averagePrice, p'.currentStop.value, p'.quantity)
                             <= RiskOf(p.averagePrice, p.currentStop.value, p.quantity)
  {
    RunRatchets(w, ops);
    var w' := Run(w, ops);
    forall k | k in w.store.positions && w.store.positions[k].currentStop.Some? && w.store.positions[k].quantity >= 0
      ensures var p, p' := w.store.positions[k], w'.store.positions[k];
              RiskOf(p'.averagePrice, p'.currentStop.value, p'.quantity)
              <= RiskOf(p.averagePrice, p.currentStop.value, p.quantity)
    {
      var p, p' := w.store.positions[k], w'.store.positions[k];
      RiskFalls(p.averagePrice, p.currentStop.value, p'.currentStop.value, p.quantity);
    }
  }

  /** Raising a stop makes the computed risk grow exactly on a short position whose stop was below its average. */
  lemma RiskGrowsExactly(average: int, before: int, after: int, quantity: int)
    requires before <= after
    ensures RiskOf(average, after, quantity) > RiskOf(average, before, quantity)
            <==> quantity < 0 && before < average && before < after
  {
    var less, more := Max(average - after, 0), Max(average - before, 0);
    if quantity >= 0 {
      RiskFalls(average, before, after, quantity);
    } else {
      assert (more - less) * -quantity >= 0;
      assert more > less ==> (more - less) * -quantity > 0;
    }
  }

  /**
   What an accepted modification leaves: the stop order and, if the broker was asked, the broker's open order stand at
   the new price; the position stands at the new price exactly if that does not lower it, and otherwise keeps its own.
   */
  lemma AcceptedModification(w: StopWorld, symbol: string, newStop: int, guardBlocks: bool, up: bool, reply: CallReply)
    requires Keyed(w.store)
    requires Modification(w, symbol, newStop, guardBlocks, up, reply).1.Ok?
    ensures var (w', done) := Modification(w, symbol, newStop, guardBlocks, up, reply);
            var t := TargetOf(w.store, symbol);
            && (t.order.Some? ==>
                  && done.value.orderId == Some(t.order.value.id) && t.order.value.id in w'.store.orders
                  && w'.store.orders[t.order.value.id] == t.order.value.(stopPrice := Some(newStop)))
            && (done.value.brokerUpdated <==> AsksBroker(t, up))
            && (done.value.brokerUpdated && t.order.value.brokerOrderId.value in w.broker.orders ==>
                  w'.broker.orders[t.order.value.brokerOrderId.value].stopPrice == Some(newStop))
            && (!done.value.brokerUpdated ==> w'.broker == w.broker)
            && (t.position.Some? ==>
                  var stop := w'.store.positions[Upper(symbol)].currentStop;
                  && (stop == Some(newStop) <==> AtLeast(t.position.value.currentStop, Some(newStop)))
                  && (stop != Some(newStop) ==> stop == t.position.value.currentStop))
  {
    ActiveStopIsStored(w.store, symbol);
    UpperIdempotent(symbol);
  }

  /** A stop order at 90 under a position stop at 95. */
  function HigherPositionWorld(): StopWorld {
    var row := OrderRow("stp_1", "s1", "ABC", Sell, StopMarket, 10, Submitted, None, None, Some(90), None, None, None);
    var position := PositionRow("ABC", "s1", 10, 100, 100, 0, Some(95), 50, true);
    StopWorld(Store(map["stp_1" := row], ["stp_1"], map[], map["ABC" := position]), EMPTY_BROKER)
  }

  /** It happens: a modification to 92 is accepted and moves the order, and the position stop stays at 95. */
  lemma PositionStopStays(up: bool, reply: CallReply)
    ensures var (w', done) := Modification(HigherPositionWorld(), "ABC", 92, false, up, reply);
            && done.Ok? && "stp_1" in w'.store.orders && "ABC" in w'.store.positions
            && w'.store.orders["stp_1"].stopPrice == Some(92) && w'.store.positions["ABC"].currentStop == Some(95)
  {
    var w := HigherPositionWorld();
    assert Upper("ABC") == "ABC";
    assert StopAt(w.store, "ABC", 0);
    var t := TargetOf(w.store, "ABC");
    assert t.order == Some(w.store.orders["stp_1"]) && t.position == Some(w.store.positions["ABC"]);
    hide ActiveStopOrder;
  }

  /** The in-memory broker: a modification accepted while connected leaves broker and local order at the same price. */
  lemma AcceptedMeansEqual(w: StopWorld, symbol: string, newStop: int)
    requires Keyed(w.store)
    requires ActiveStopOrder(w.store, symbol).Some? && ActiveStopOrder(w.store, symbol).value.brokerOrderId.Some?
    requires var id := ActiveStopOrder(w.store, symbol).value.brokerOrderId.value;
             Modification(w, symbol, newStop, false, true, SimulatedCallReply(true, w.broker, id)).1.Ok?
    ensures var row := ActiveStopOrder(w.store, symbol).value;
            var id := row.brokerOrderId.value;
            var w' := Modification(w, symbol, newStop, false, true, SimulatedCallReply(true, w.broker, id)).0;
            && id in w'.broker.orders && row.id in w'.store.orders
            && w'.broker.orders[id].stopPrice == w'.store.orders[row.id].stopPrice == Some(newStop)
  {
    var id := ActiveStopOrder(w.store, symbol).value.brokerOrderId.value;
    AcceptedModification(w, symbol, newStop, false, true, SimulatedCallReply(true, w.broker, id));
    ActiveStopIsStored(w.store, symbol);
  }

  /** The stop in force for a symbol: of the newest working stop order, and without one of the position. */
  function InForce(s: Store, symbol: string): Option<int> {
    match ActiveStopOrder(s, symbol)
    case Some(order) => order.stopPrice
    case None => if Upper(symbol) in s.positions then s.positions[Upper(symbol)].currentStop else None
  }

  /**
   When a modification goes through, and why not: guards first, then a missing target, then a stop below the one in
   force; past these the broker is asked exactly if it is connected and the order has a broker id, and its refusal or
   fault is passed on. An accepted modification reports the stop that was in force.
   */
  lemma ModificationExactly(w: StopWorld, symbol: string, newStop: int, guardBlocks: bool, up: bool, reply: CallReply)
    ensures var order := ActiveStopOrder(w.store, symbol);
            var result := Modification(w, symbol, newStop, guardBlocks, up, reply).1;
            var lower := InForce(w.store, symbol).Some? && newStop < InForce(w.store, symbol).value;
            var asked := up && order.Some? && order.value.brokerOrderId.Some?;
            if guardBlocks then result == Err(Refused(GuardBlocks))
            else if order.None? && Upper(symbol) !in w.store.positions then result == Err(Refused(NoStopTarget))
            else if lower then result == Err(Refused(LoweringForbidden))
            else if asked && reply.CallRaises? then result == Err(BrokerFault)
            else if asked && reply.CallRefuses? then result == Err(Refused(BrokerRejected))
            else result.Ok? && result.value.previous == InForce(w.store, symbol) && result.value.brokerUpdated == asked
  {
    hide ActiveStopOrder, LocalPart;
  }

  /** Whatever is refused or raises leaves both stores as they were. */
  lemma RefusalChangesNothing(w: StopWorld, symbol: string, newStop: int, guardBlocks: bool, up: bool, reply: CallReply)
    requires Modification(w, symbol, newStop, guardBlocks, up, reply).1.Err?
    ensures Modification(w, symbol, newStop, guardBlocks, up, reply).0 == w
  {
  }

  // ---------------------------------------------------- overlapping changes

  /**
   When other changes run while a modification awaits the broker, its check is out of date. Finishing it still never
   lowers a position stop, whatever happened meanwhile; it lowers the stop order exactly if that now stands higher.
   */
  lemma LateFinish(s: Store, symbol: string, t: Target, newStop: int)
    requires Keyed(s) && t.order.Some? && t.order.value.id in s.orders
    ensures PositionsRatchet(s, LocalPart(s, symbol, t, newStop))
    ensures !OrdersRatchet(s, LocalPart(s, symbol, t, newStop))
            <==> var now := s.orders[t.order.value.id].stopPrice; now.Some? && newStop < now.value
  {
    LocalOrders(s, symbol, t, newStop);
    var s1 := SetOrderStop(s, t.order.value.id, newStop);
    assert Keyed(s1) && s1.positions == s.positions;
    RaiseRatchets(s1, Upper(symbol), newStop);
  }

  /** Two overlapping modifications, both allowed when they were checked, can leave order and broker below the higher. */
  lemma OverlapLowers(w: StopWorld, symbol: string, lower: int, higher: int)
    requires Keyed(w.store) && lower < higher
    requires ActiveStopOrder(w.store, symbol).Some?
    requires var row := ActiveStopOrder(w.store, symbol).value;
             row.brokerOrderId.Some? && row.brokerOrderId.value in w.broker.orders && row.stopPrice.value <= lower
    ensures var t := Check(w.store, symbol, lower, false).value;
            var id := t.order.value.brokerOrderId.value;
            var (w1, first) := Modification(w, symbol, higher, false, true, CallAccepts);
            && Check(w.store, symbol, lower, false).Ok? && first.Ok?
            && var (b, asked) := BrokerPart(w1.broker, t, lower, true, CallAccepts);
               var w2 := StopWorld(LocalPart(w1.store, symbol, t, lower), b);
               && asked == Ok(true) && t.order.value.id in w1.store.orders
               && w1.store.orders[t.order.value.id].stopPrice == Some(higher)
               && w2.store.orders[t.order.value.id].stopPrice == Some(lower)
               && w1.broker.orders[id].stopPrice == Some(higher) && w2.broker.orders[id].stopPrice == Some(lower)
  {
    ActiveStopIsStored(w.store, symbol);
    var t := Check(w.store, symbol, lower, false).value;
    AcceptedModification(w, symbol, higher, false, true, CallAccepts);
    var w1 := Modification(w, symbol, higher, false, true, CallAccepts).0;
    LocalOrders(w1.store, symbol, t, lower);
  }

  // --------------------------------------------------------------- objects

  class PositionManager {
    const repository: Database

    constructor (repository: Database)
      ensures this.repository == repository
    {
      this.repository := repository;
    }

    method Raise(symbol: string, newStop: int, allowLower: bool) returns (moved: bool)
      modifies repository`positions
      ensures (repository.View(), moved) == RaiseStop(old(repository.View()), symbol, newStop, allowLower)
    {
      var key := Upper(symbol);
      if key !in repository.positions {
        return false;
      }
      var position := repository.positions[key];
      if position.currentStop.Some? && newStop < position.currentStop.value && !allowLower {
        return false;
      }
      var risk := Max(position.averagePrice - newStop, 0) * position.quantity;
      repository.SavePosition(position.(currentStop := Some(newStop), riskRemaining := risk));
      return true;
    }
  }

  class StopModificationService {
    const repository: Database
    const broker: Broker
    const positions: PositionManager

    constructor (repository: Database, broker: Broker, positions: PositionManager)
      requires positions.repository == repository
      ensures this.repository == repository && this.broker == broker && this.positions == positions
    {
      this.repository, this.broker, this.positions := repository, broker, positions;
    }

    ghost function View(): StopWorld
      reads this, repository, broker
    {
      StopWorld(repository.View(), broker.View())
    }

    /** `up` and `stillUp`: whether the broker was connected when its status was read, and when it was then asked. */
    method Modify(symbol: string, newStop: int, guardBlocks: bool)
      returns (result: Result<StopChange, StopError>, ghost up: bool, ghost stillUp: bool)
      requires positions.repository == repository
      modifies repository, broker
      ensures var id := TargetOf(old(repository.View()), symbol).order;
              (View(), result)
              == Modification(old(View()), symbol, newStop, guardBlocks, up,
                            SimulatedCallReply(stillUp, old(broker.View()),
                                               if id.Some? then id.value.brokerOrderId.GetOr("") else ""))
    {
      up, stillUp := broker.connected, false;
      if guardBlocks {
        return Err(Refused(GuardBlocks)), up, stillUp;
      }
      var key := Upper(symbol);
      var snapshot := Store(repository.orders, repository.created, repository.setups, repository.positions);
      var position := if key in snapshot.positions then Some(snapshot.positions[key]) else None;
      var order := ActiveStopOrder(snapshot, symbol);
      if position.None? && order.None? {
        return Err(Refused(NoStopTarget)), up, stillUp;
      }
      var current := CurrentStop(Target(position, order));
      if current.Some? && newStop < current.value {
        return Err(Refused(LoweringForbidden)), up, stillUp;
      }
      var brokerUpdated := false;
      if order.Some? && order.value.brokerOrderId.Some? && broker.connected {
        broker.Suspend();
        stillUp := broker.connected;
        var answer := broker.ModifyStopOrder(order.value.brokerOrderId.value, newStop);
        if answer.Err? {
          return Err(BrokerFault), up, stillUp;
        }
        if !answer.value.accepted {
          return Err(Refused(BrokerRejected)), up, stillUp;
        }
        brokerUpdated := true;
      }
      if order.Some? {
        repository.UpdateOrderStop(order.value.id, newStop);
      }
      if position.Some? {
        var moved := positions.Raise(key, newStop, false);
      }
      result := Ok(StopChange(current, brokerUpdated, if order.Some? then Some(order.value.id) else None));
    }
  }
}
