/** The rows the engine keeps: orders in creation order, setups with their status, positions by symbol. */
module Repository {
  import opened Common
  import opened Models

  datatype SetupRow = SetupRow(setup: Setup, status: SetupStatus)

  datatype Store = Store(
    orders: map<string, OrderRow>,
    created: seq<string>,
    setups: map<string, SetupRow>,
    positions: map<string, PositionRow>)

  const EMPTY_STORE := Store(map[], [], map[], map[])

  // --------------------------------------------------------------- updates

  function UpsertOrder(s: Store, row: OrderRow): Store {
    s.(orders := s.orders[row.id := row], created := if row.id in s.orders then s.created else s.created + [row.id])
  }

  function SetOrderStatus(s: Store, id: string, status: OrderStatus): Store {
    if id in s.orders then s.(orders := s.orders[id := s.orders[id].(status := status)]) else s
  }

  function SetOrderStop(s: Store, id: string, stop: int): Store {
    if id in s.orders then s.(orders := s.orders[id := s.orders[id].(stopPrice := Some(stop))]) else s
  }

  function SetSetupStatus(s: Store, id: string, status: SetupStatus): Store {
    if id in s.setups then s.(setups := s.setups[id := s.setups[id].(status := status)]) else s
  }

  function UpsertPosition(s: Store, p: PositionRow): Store {
    s.(positions := s.positions[p.symbol := p])
  }

  // --------------------------------------------------------------- queries

  predicate IsActiveEntry(row: OrderRow, setupId: string) {
    row.setupId == setupId && row.side == Buy && IsActive(row.status)
  }

  predicate IsActiveStop(row: OrderRow, setupId: string) {
    row.setupId == setupId && row.side == Sell && row.stopPrice.Some? && IsActive(row.status)
  }

  /** The protection snapshot of a setup, as far as order placement reads it. */
  predicate HasActiveEntry(s: Store, setupId: string) {
    exists id :: id in s.orders && IsActiveEntry(s.orders[id], setupId)
  }

  predicate HasActiveStop(s: Store, setupId: string) {
    exists id :: id in s.orders && IsActiveStop(s.orders[id], setupId)
  }

  predicate PositionOpen(s: Store, setupId: string) {
    exists symbol :: symbol in s.positions && s.positions[symbol].setupId == setupId
                     && s.positions[symbol].quantity != 0
  }

  /** An active SELL child of an entry order. */
  predicate HasActiveChild(s: Store, setupId: string, entryId: string) {
    exists id :: id in s.orders && s.orders[id].setupId == setupId && s.orders[id].side == Sell
                 && s.orders[id].parentId == Some(entryId) && IsActive(s.orders[id].status)
  }

  /** No row is lost and no row's stop goes down. */
  ghost predicate OrdersRatchet(s: Store, s': Store) {
    forall k :: k in s.orders ==> k in s'.orders && AtLeast(s.orders[k].stopPrice, s'.orders[k].stopPrice)
  }

  /** The row at a place of the creation order is an active SELL order of the symbol with a stop price. */
  predicate StopAt(s: Store, symbol: string, i: int) {
    && 0 <= i < |s.created| && s.created[i] in s.orders
    && var row := s.orders[s.created[i]];
       row.symbol == Upper(symbol) && row.side == Sell && IsActive(row.status) && row.stopPrice.Some?
  }

  /** The newest active SELL order of a symbol that carries a stop price; none exactly if there is no such order. */
  function ActiveStopOrder(s: Store, symbol: string): (r: Option<OrderRow>)
    ensures r.Some? ==> r.value.symbol == Upper(symbol) && r.value.side == Sell && IsActive(r.value.status)
                        && r.value.stopPrice.Some?
    ensures r.None? ==> forall i :: 0 <= i < |s.created| ==> !StopAt(s, symbol, i)
    ensures r.Some? ==> exists i :: StopAt(s, symbol, i) && r.value == s.orders[s.created[i]]
                                    && forall j :: i < j < |s.created| ==> !StopAt(s, symbol, j)
    decreases |s.created|
  {
    if s.created == [] then None
    else
      var last := |s.created| - 1;
      if StopAt(s, symbol, last) then Some(s.orders[s.created[last]])
      else
        var older := s.(created := s.created[..last]);
        assert forall i :: 0 <= i < last ==> older.created[i] == s.created[i];
        assert forall i :: 0 <= i < last ==> StopAt(older, symbol, i) == StopAt(s, symbol, i);
        ActiveStopOrder(older, symbol)
  }

  /** The repository object. */
  class Database {
    var orders: map<string, OrderRow>
    var created: seq<string>
    var setups: map<string, SetupRow>
    var positions: map<string, PositionRow>

    function View(): Store
      reads this
    {
      Store(orders, created, setups, positions)
    }

    constructor ()
      ensures View() == EMPTY_STORE
    {
      orders, created, setups, positions := map[], [], map[], map[];
    }

    method Upsert(row: OrderRow)
      modifies this`orders, this`created
      ensures View() == UpsertOrder(old(View()), row)
    {
      if row.id !in orders {
        created := created + [row.id];
      }
      orders := orders[row.id := row];
    }

    method UpdateOrderStatus(id: string, status: OrderStatus)
      modifies this`orders
      ensures View() == SetOrderStatus(old(View()), id, status)
    {
      if id in orders {
        orders := orders[id := orders[id].(status := status)];
      }
    }

    method UpdateOrderStop(id: string, stop: int)
      modifies this`orders
      ensures View() == SetOrderStop(old(View()), id, stop)
    {
      if id in orders {
        orders := orders[id := orders[id].(stopPrice := Some(stop))];
      }
    }

    method UpdateSetupStatus(id: string, status: SetupStatus)
      modifies this`setups
      ensures View() == SetSetupStatus(old(View()), id, status)
    {
      if id in setups {
        setups := setups[id := setups[id].(status := status)];
      }
    }

    method SavePosition(p: PositionRow)
      modifies this`positions
      ensures View() == UpsertPosition(old(View()), p)
    {
      positions := positions[p.symbol := p];
    }
  }
}
