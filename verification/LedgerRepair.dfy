/**
 The repair pass run against the in-memory broker: from any local statuses at all, one pass restores the agreement
 that order operations keep.
 */
module LedgerRepair {
  import opened Common
  import opened Models
  import opened SimulatedBroker
  import opened Repository
  import opened OrderManager
  import opened OrderLedger
  import opened Reconciliation

  /** Everything the ledger says about the rows except their statuses. */
  ghost predicate Identified(w: World) {
    && (forall id :: id in w.store.orders ==> RowIdentified(w, id))
    && DistinctBrokerIds(w.store)
    && NoOrphans(w)
  }

  /** What the in-memory broker reports of an open order. */
  function Report(o: BrokerOrder): ReportedOrder {
    ReportedOrder(o.clientOrderId, o.brokerOrderId, o.brokerPermId, "SUBMITTED")
  }

  /** The report of the in-memory broker: its open orders, in any order, and their status under each of their keys. */
  ghost predicate ViewOf(view: BrokerView, b: BrokerState) {
    && (forall id :: id in b.orders ==> Report(b.orders[id]) in view.orders)
    && (forall o :: o in view.orders ==> exists id :: id in b.orders && o == Report(b.orders[id]))
    && (forall k :: k in view.statuses ==> exists id :: id in b.orders && k in RequestKeys(b.orders[id]))
  }

  lemma KeysOfRow(row: OrderRow)
    requires TypedRow(row)
    ensures RowKeys(row) == {row.id} + (if row.brokerOrderId.Some?
                                        then {row.brokerOrderId.value, PermId(row.brokerOrderId.value)} else {})
  {
    StripKeepsTight(row.id);
    if row.brokerOrderId.Some? {
      StripKeepsTight(row.brokerOrderId.value);
      StripKeepsTight(PermId(row.brokerOrderId.value));
    }
  }

  lemma KeysOfOrder(id: string, o: BrokerOrder)
    requires TypedOrder(id, o)
    ensures ReportedKeys(Report(o)) == {o.clientOrderId, id, PermId(id)} == RequestKeys(o)
  {
    StripKeepsTight(o.clientOrderId);
    StripKeepsTight(id);
    StripKeepsTight(PermId(id));
  }

  /** The three kinds of key never meet, so sharing a key is being the same order. */
  lemma SharedKeyMeansSameOrder(row: OrderRow, id: string, o: BrokerOrder, k: string)
    requires TypedRow(row) && TypedOrder(id, o)
    requires k in RowKeys(row) && k in ReportedKeys(Report(o))
    ensures row.id == o.clientOrderId || row.brokerOrderId == Some(id)
  {
    KeysOfRow(row);
    KeysOfOrder(id, o);
    assert PermId(id)[3] == '-' && PermId(id)[0] == 'S';
    if row.brokerOrderId.Some? {
      var b := row.brokerOrderId.value;
      assert PermId(b)[3] == '-' && PermId(b)[0] == 'S';
      assert PermId(b)[4..] == b && PermId(id)[4..] == id;
    }
  }

  lemma SubmittedText()
    ensures NormalizeStatus("SUBMITTED") == Some(Submitted)
  {
    StripKeepsTight("SUBMITTED");
    assert Upper("SUBMITTED") == "SUBMITTED";
  }

  /** A row that shares a key with an open order is that order's row. */
  lemma KeyOfOpenOrder(w: World, id: string, b: string, k: string)
    requires Identified(w) && id in w.store.orders && b in w.broker.orders
    requires k in RowKeys(w.store.orders[id]) && k in ReportedKeys(Report(w.broker.orders[b]))
    ensures BrokerOpen(w, w.store.orders[id])
  {
    SharedKeyMeansSameOrder(w.store.orders[id], b, w.broker.orders[b], k);
  }

  ghost predicate OrdersTyped(w: World) {
    forall b :: b in w.broker.orders ==> TypedOrder(b, w.broker.orders[b])
  }

  lemma IdentifiedMeansTyped(w: World)
    requires Identified(w)
    ensures OrdersTyped(w)
  {
    hide RowIdentified, TypedOrder;
  }

  lemma ReportedKeyIsOpen(w: World, view: BrokerView, id: string, k: string)
    requires Identified(w) && ViewOf(view, w.broker) && id in w.store.orders && k in RowKeys(w.store.orders[id])
    requires k in OpenStatuses(view.orders) || k in view.statuses
    ensures BrokerOpen(w, w.store.orders[id])
  {
    hide Identified, CleanKeys, OpenStatuses, TypedOrder, BrokerOpen;
    assert OrdersTyped(w) by { IdentifiedMeansTyped(w); }
    if k in OpenStatuses(view.orders) {
      OpenKeys(view.orders, k);
      var i :| 0 <= i < |view.orders| && k in ReportedKeys(view.orders[i]);
      assert view.orders[i] in view.orders;
      var b :| b in w.broker.orders && view.orders[i] == Report(w.broker.orders[b]);
      KeyOfOpenOrder(w, id, b, k);
    } else {
      var b :| b in w.broker.orders && k in RequestKeys(w.broker.orders[b]);
      KeysOfOrder(b, w.broker.orders[b]);
      KeyOfOpenOrder(w, id, b, k);
    }
  }

  lemma OpenRowIsMentioned(w: World, view: BrokerView, id: string)
    requires Identified(w) && ViewOf(view, w.broker) && id in w.store.orders && BrokerOpen(w, w.store.orders[id])
    ensures Mentioned(RowKeys(w.store.orders[id]), OpenStatuses(view.orders))
  {
    var b := w.store.orders[id].brokerOrderId.value;
    KeysOfRow(w.store.orders[id]);
    KeysOfOrder(b, w.broker.orders[b]);
    assert Report(w.broker.orders[b]) in view.orders;
    OpenKeys(view.orders, b);
  }

  /** The status one row gets: SUBMITTED when its broker order is open, otherwise not an active one. */
  lemma RowRepaired(w: World, view: BrokerView, id: string, status: OrderStatus)
    requires Identified(w) && ViewOf(view, w.broker) && id in w.store.orders
    requires Decides(view, w.store.orders[id], status)
    ensures if BrokerOpen(w, w.store.orders[id]) then status == Submitted else !IsActive(status)
  {
    var row := w.store.orders[id];
    KeysOfRow(row);
    if BrokerOpen(w, row) {
      OpenRowIsMentioned(w, view, id);
      AllSubmitted(w, view);
    } else {
      forall k | k in RowKeys(row) ensures k !in OpenStatuses(view.orders) && k !in view.statuses {
        if k in OpenStatuses(view.orders) || k in view.statuses {
          ReportedKeyIsOpen(w, view, id, k);
        }
      }
    }
  }

  lemma AllSubmitted(w: World, view: BrokerView)
    requires ViewOf(view, w.broker)
    ensures forall k :: k in OpenStatuses(view.orders) ==> OpenStatuses(view.orders)[k] == Submitted
  {
    SubmittedText();
    forall o | o in view.orders ensures ReportedStatus(o) == Submitted {
      var b :| b in w.broker.orders && o == Report(w.broker.orders[b]);
    }
    UniformStatuses(view.orders);
  }

  lemma {:induction false} UniformStatuses(orders: seq<ReportedOrder>)
    requires forall o :: o in orders ==> ReportedStatus(o) == Submitted
    ensures forall k :: k in OpenStatuses(orders) ==> OpenStatuses(orders)[k] == Submitted
    decreases |orders|
  {
    if orders != [] {
      assert orders[|orders| - 1] in orders;
      UniformStatuses(orders[..|orders| - 1]);
    }
  }

  /**
   One repair pass restores the ledger's agreement whatever the local statuses had become: afterwards a row is
   SUBMITTED exactly when its broker id is an open order of the broker, and no open order is unknown locally.
   */
  lemma RepairRestoresAgreement(w: World, view: BrokerView, choice: map<string, OrderStatus>)
    requires Identified(w) && ViewOf(view, w.broker) && Complete(w.store, view, choice)
    ensures var w' := w.(store := FullPass(w.store, view, choice));
            RowsAgree(w') && NoOrphans(w')
  {
    var w' := w.(store := FullPass(w.store, view, choice));
    ReverseLists(w.store.created);
    forall id | id in w.store.orders
      ensures id in w'.store.orders && w'.store.orders[id] == w.store.orders[id].(status := choice[id])
    {
      FullPassRow(w.store, view, choice, id);
    }
    forall id | id in w'.store.orders ensures RowAgrees(w', id) {
      RowRepaired(w, view, id, choice[id]);
    }
  }

  /** The same rows under other statuses: what outside events may do to the local store. */
  ghost predicate StatusesDrifted(s: Store, t: Store) {
    && t.created == s.created && t.orders.Keys == s.orders.Keys
    && forall id :: id in s.orders ==> t.orders[id].(status := s.orders[id].status) == s.orders[id]
  }

  lemma DriftedIdentified(w: World, drifted: Store, id: string)
    requires RowsAgree(w) && StatusesDrifted(w.store, drifted) && id in drifted.orders
    ensures RowIdentified(w.(store := drifted), id)
  {
    hide AcceptedIds, LocalId, Numeral;
    assert RowAgrees(w, id);
  }

  /**
   Run, drift, repair: after any run of order operations, if the local statuses are then changed in any way while the
   broker stays as it is, one pass over the broker's report restores the agreement.
   */
  lemma RepairAfterDrift(w: World, drifted: Store, view: BrokerView, choice: map<string, OrderStatus>)
    requires Books(w) && StatusesDrifted(w.store, drifted)
    requires ViewOf(view, w.broker) && Complete(drifted, view, choice)
    ensures var repaired := w.(store := FullPass(drifted, view, choice));
            RowsAgree(repaired) && NoOrphans(repaired)
  {
    hide Complete, ViewOf, FullPass, TypedRow, SameOrder, AcceptedIds, Consistent;
    var w' := w.(store := drifted);
    forall id | id in drifted.orders ensures RowIdentified(w', id) {
      DriftedIdentified(w, drifted, id);
    }
    RepairRestoresAgreement(w', view, choice);
  }
}
