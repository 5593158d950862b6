/** The order classes at work: whatever request they are given, each call is one step of the ledger's runs. */
module LedgerSession {
  import opened Common
  import opened Models
  import opened SimulatedBroker
  import opened Repository
  import opened OrderManager
  import opened FillExecutor
  import opened OrderLedger

  datatype Request =
    | BracketRequest(setup: Setup, decision: RiskDecision, entryId: string, stopId: string)
    | ManualRequest(order: ManualOrder, id: string)
    | AttachRequest(orderId: string, stopId: string)
    | CancelRequest(orderId: string)
    | FillRequest(orderId: string, price: int, stopId: string)

  /** A step that answers a request, with whatever the connection did meanwhile. */
  ghost predicate Answers(op: Op, r: Request) {
    match r
    case BracketRequest(setup, d, entryId, stopId) =>
      op.PlaceBracket? && op.setup == setup && op.decision == d && op.entryId == entryId && op.stopId == stopId
    case ManualRequest(order, id) => op.PlaceManualOrder? && op.order == order && op.id == id
    case AttachRequest(orderId, stopId) => op.AttachMissingStop? && op.orderId == orderId && op.stopId == stopId
    case CancelRequest(orderId) => op.Cancel? && op.orderId == orderId
    case FillRequest(orderId, price, stopId) =>
      op.Fill? && op.orderId == orderId && op.price == price && op.stopId == stopId
  }

  /** Handles one request with the manager's and the executor's own methods, and keeps the ledger. */
  method Handle(manager: Manager, executor: Executor, r: Request) returns (ghost op: Op)
    requires executor.manager == manager && Books(manager.View())
    requires forall op: Op :: Answers(op, r) ==> Allowed(manager.View(), op)
    modifies manager.repo, manager.broker
    ensures Answers(op, r) && manager.View() == Apply(old(manager.View()), op, manager.defaults)
    ensures Books(manager.View()) && Follows(old(manager.View()), manager.View())
    ensures old(OneEntryPerSetup(manager.View().store)) ==>
              (OneEntryPerSetup(manager.View().store) <==> !DoublesEntry(old(manager.View()), op))
  {
    hide Books, Follows, OneEntryPerSetup, DoublesEntry;
    ghost var w := manager.View();
    match r {
      case BracketRequest(setup, d, entryId, stopId) =>
        var result; ghost var links;
        result, links := manager.PlaceEntryOrder(setup, d, (entryId, stopId));
        op := PlaceBracket(setup, d, entryId, stopId, links);
      case ManualRequest(order, id) =>
        var result; ghost var up;
        result, up := manager.PlaceManualOrder(order, id);
        op := PlaceManualOrder(order, id, up);
      case AttachRequest(orderId, stopId) =>
        op := Attach(manager, orderId, stopId);
      case CancelRequest(orderId) =>
        var result; ghost var up;
        result, up := manager.CancelLocalOrBrokerOrder(orderId);
        op := Op.Cancel(orderId, up);
      case FillRequest(orderId, price, stopId) =>
        var result; ghost var up;
        result, up := executor.SimulateFillOrder(orderId, price, stopId);
        op := Op.Fill(orderId, price, stopId, up);
    }
    assert Answers(op, r);
    ApplyKeeps(w, op, manager.defaults);
  }

  method Attach(manager: Manager, orderId: string, stopId: string) returns (ghost op: Op)
    modifies manager.repo, manager.broker
    ensures op.AttachMissingStop? && op.orderId == orderId && op.stopId == stopId
    ensures manager.View() == Apply(old(manager.View()), op, manager.defaults)
  {
    ghost var w := manager.View();
    var result; ghost var replies;
    result, replies := manager.AttachMissingStop(orderId, stopId);
    ghost var stopUp, cancelUp := false, false;
    if AttachGate(w, orderId).None? {
      stopUp, cancelUp :| replies == SimulatedAttach(w, orderId, stopUp, cancelUp);
    }
    op := AttachMissingStop(orderId, stopId, stopUp, cancelUp);
  }
}
