/**
 The repair pass: local order rows are brought back into agreement with what the broker reports.

 A row may be reported under several keys and the code takes the first key found in an unordered set, so the status
 a row is given is a choice among the reported ones; `Decides` says which choices are possible, and every result
 holds whichever are taken.
 */
module Reconciliation {
  import opened Common
  import opened Models
  import opened Repository

  /** An open order as reported: its keys and its status text. */
  datatype ReportedOrder = ReportedOrder(
    clientOrderId: string,
    brokerOrderId: Option<string>,
    brokerPermId: Option<string>,
    status: string)

  /** What the broker reports in one pass. */
  datatype BrokerView = BrokerView(
    positions: seq<BrokerPosition>,
    orders: seq<ReportedOrder>,
    statuses: map<string, string>)

  // ------------------------------------------------------------------- keys

  function NormalizeStatus(text: string): Option<OrderStatus> {
    var t := Upper(Strip(text));
    if t == "CREATED" then Some(Created)
    else if t == "SUBMITTED" then Some(Submitted)
    else if t == "FILLED" then Some(Filled)
    else if t == "CANCELLED" then Some(OrderStatus.Cancelled)
    else if t == "REJECTED" then Some(Rejected)
    else if t == "ERROR" then Some(Errored)
    else None
  }

  function RowKeys(row: OrderRow): set<string> {
    CleanKeys(Some(row.id), row.brokerOrderId, row.brokerPermId)
  }

  function ReportedKeys(o: ReportedOrder): set<string> {
    CleanKeys(Some(o.clientOrderId), o.brokerOrderId, o.brokerPermId)
  }

  function ReportedStatus(o: ReportedOrder): OrderStatus {
    NormalizeStatus(o.status).GetOr(Submitted)
  }

  /** Status of each key of the open orders; a later order overrides an earlier one. */
  function OpenStatuses(orders: seq<ReportedOrder>): map<string, OrderStatus> {
    if orders == [] then map[]
    else
      var last := orders[|orders| - 1];
      OpenStatuses(orders[..|orders| - 1]) + (map k | k in ReportedKeys(last) :: ReportedStatus(last))
  }

  function KnownStatuses(statuses: map<string, string>): map<string, OrderStatus> {
    map k | k in statuses && Strip(k) != [] && NormalizeStatus(statuses[k]).Some? :: NormalizeStatus(statuses[k]).value
  }

  function HeldSymbols(positions: seq<BrokerPosition>): set<string> {
    set p | p in positions && p.quantity != 0 :: Upper(p.symbol)
  }

  /** A row the broker no longer mentions: a BUY whose symbol is held was filled, anything else was cancelled. */
  function InferMissing(row: OrderRow, held: set<string>): OrderStatus {
    if row.side == Buy && Upper(row.symbol) in held then Filled else OrderStatus.Cancelled
  }

  /** Some key of the row is reported, and `status` is what is reported under one of them. */
  predicate Matches(keys: set<string>, statuses: map<string, OrderStatus>, status: OrderStatus) {
    exists k :: k in keys && k in statuses && statuses[k] == status
  }

  predicate Mentioned(keys: set<string>, statuses: map<string, OrderStatus>) {
    exists k :: k in keys && k in statuses
  }

  /** The statuses one pass may leave a row in. */
  ghost predicate Decides(view: BrokerView, row: OrderRow, status: OrderStatus) {
    var keys := RowKeys(row);
    if keys == {} || row.id == [] then status == row.status
    else if Mentioned(keys, OpenStatuses(view.orders)) then Matches(keys, OpenStatuses(view.orders), status)
    else if !IsActive(row.status) then status == row.status
    else if Mentioned(keys, KnownStatuses(view.statuses)) then Matches(keys, KnownStatuses(view.statuses), status)
    else status == InferMissing(row, HeldSymbols(view.positions))
  }

  /** A row counted as missing: active, and reported neither open nor with a status. */
  predicate Missing(view: BrokerView, row: OrderRow) {
    && RowKeys(row) != {}
    && IsActive(row.status)
    && !Mentioned(RowKeys(row), OpenStatuses(view.orders))
    && !Mentioned(RowKeys(row), KnownStatuses(view.statuses))
  }

  // --------------------------------------------------------------- the pass

  const TERMINAL_SETUPS := {Closed, SetupCancelled, Expired, Invalidated, SetupError, ErrorRequiresManualReview}
  const ORDER_DEPENDENT := {EntryOrderPlaced, EntryPartiallyFilled, StopOrderPlaced, StopPlaced}

  /** The setup's status after one of its orders was given a new status. */
  function SetupAfter(s: Store, row: OrderRow, status: OrderStatus): (r: Store)
    ensures r.orders == s.orders && r.created == s.created && r.positions == s.positions
    ensures r.setups.Keys == s.setups.Keys
  {
    if row.setupId == [] || row.setupId !in s.setups then s
    else
      var current := s.setups[row.setupId].status;
      if status == Submitted then
        if current in TERMINAL_SETUPS || current == ManualReviewRequired
        then SetSetupStatus(s, row.setupId, if row.side == Sell then StopOrderPlaced else EntryOrderPlaced)
        else s
      else if status != OrderStatus.Cancelled || current in TERMINAL_SETUPS then s
      else if row.side == Sell && Upper(row.symbol) in s.positions then
        SetSetupStatus(s, row.setupId, ManualReviewRequired)
      else if row.side == Buy && current in ORDER_DEPENDENT then SetSetupStatus(s, row.setupId, SetupCancelled)
      else s
  }

  /** One row given a status, and its setup with it. */
  function Settle(s: Store, id: string, status: OrderStatus): (r: Store)
    requires id in s.orders
    ensures r.orders == s.orders[id := s.orders[id].(status := status)]
    ensures r.created == s.created && r.positions == s.positions && r.setups.Keys == s.setups.Keys
  {
    if s.orders[id].status == status then s
    else SetupAfter(SetOrderStatus(s, id, status), s.orders[id], status)
  }

  predicate Covers(s: Store, ids: seq<string>, choice: map<string, OrderStatus>) {
    forall id :: id in ids ==> id in s.orders && id in choice
  }

  /** The pass over `ids`, giving each row its chosen status. */
  function PassOver(s: Store, ids: seq<string>, choice: map<string, OrderStatus>): (r: Store)
    requires Covers(s, ids, choice)
    ensures r.orders.Keys == s.orders.Keys && r.created == s.created && r.positions == s.positions
    ensures r.setups.Keys == s.setups.Keys
    decreases |ids|
  {
    if ids == [] then s
    else Settle(PassOver(s, ids[..|ids| - 1], choice), ids[|ids| - 1], choice[ids[|ids| - 1]])
  }

  predicate Distinct(ids: seq<string>) {
    forall i, j :: 0 <= i < j < |ids| ==> ids[i] != ids[j]
  }

  /** Each row visited carries its chosen status; nothing else about the orders changed. */
  lemma {:induction false} PassOverRow(s: Store, ids: seq<string>, choice: map<string, OrderStatus>, id: string)
    requires Covers(s, ids, choice) && Distinct(ids) && id in s.orders
    ensures PassOver(s, ids, choice).orders[id]
            == if id in ids then s.orders[id].(status := choice[id]) else s.orders[id]
    decreases |ids|
  {
    if ids != [] {
      var init, last := ids[..|ids| - 1], ids[|ids| - 1];
      assert ids == init + [last] && last !in init;
      PassOverRow(s, init, choice, id);
    }
  }

  // ------------------------------------------------------------- the counters

  datatype Tally = Tally(updated: nat, cancelled: nat, filled: nat, rejected: nat, reactivated: nat, missing: nat)

  /** The rows whose status the pass changes into one that satisfies `kind`. */
  ghost function ChangedInto(s: Store, ids: seq<string>, choice: map<string, OrderStatus>, to: set<OrderStatus>)
    : set<string>
    requires Covers(s, ids, choice)
  {
    set id | id in ids && choice[id] != s.orders[id].status && choice[id] in to
  }

  const ANY_STATUS := {Created, Submitted, Filled, OrderStatus.Cancelled, Rejected, Errored}

  ghost function Reactivated(s: Store, ids: seq<string>, choice: map<string, OrderStatus>): set<string>
    requires Covers(s, ids, choice)
  {
    set id | id in ids && choice[id] == Submitted && !IsActive(s.orders[id].status)
  }

  ghost function MissingRows(s: Store, ids: seq<string>, view: BrokerView): set<string>
    requires forall id :: id in ids ==> id in s.orders
  {
    set id | id in ids && Missing(view, s.orders[id])
  }

  /** Exactly how many rows changed, into what, and how many had no broker evidence. */
  ghost function TallyOf(s: Store, ids: seq<string>, choice: map<string, OrderStatus>, view: BrokerView): Tally
    requires Covers(s, ids, choice)
  {
    Tally(|ChangedInto(s, ids, choice, ANY_STATUS)|, |ChangedInto(s, ids, choice, {OrderStatus.Cancelled})|,
          |ChangedInto(s, ids, choice, {Filled})|, |ChangedInto(s, ids, choice, {Rejected})|,
          |Reactivated(s, ids, choice)|, |MissingRows(s, ids, view)|)
  }

  function CountOne(t: Tally, before: OrderStatus, status: OrderStatus): Tally {
    if before == status then t
    else
      var u := t.(updated := t.updated + 1);
      if status == OrderStatus.Cancelled then u.(cancelled := t.cancelled + 1)
      else if status == Filled then u.(filled := t.filled + 1)
      else if status == Rejected then u.(rejected := t.rejected + 1)
      else if status == Submitted && !IsActive(before) then u.(reactivated := t.reactivated + 1)
      else u
  }

  lemma SnocSet(a: set<string>, b: set<string>, x: string, add: bool)
    requires x !in a && b == (if add then a + {x} else a)
    ensures |b| == |a| + (if add then 1 else 0)
  {
  }

  lemma ChangedSnoc(s: Store, ids: seq<string>, id: string, choice: map<string, OrderStatus>, status: OrderStatus,
                    to: set<OrderStatus>)
    requires Covers(s, ids, choice) && id in s.orders && id !in ids
    ensures Covers(s, ids + [id], choice[id := status])
    ensures |ChangedInto(s, ids + [id], choice[id := status], to)|
            == |ChangedInto(s, ids, choice, to)| + if status != s.orders[id].status && status in to then 1 else 0
  {
    var a, b := ChangedInto(s, ids, choice, to), ChangedInto(s, ids + [id], choice[id := status], to);
    SnocSet(a, b, id, status != s.orders[id].status && status in to);
  }

  lemma ReactivatedSnoc(s: Store, ids: seq<string>, id: string, choice: map<string, OrderStatus>, status: OrderStatus)
    requires Covers(s, ids, choice) && id in s.orders && id !in ids
    ensures Covers(s, ids + [id], choice[id := status])
    ensures |Reactivated(s, ids + [id], choice[id := status])|
            == |Reactivated(s, ids, choice)| + if status == Submitted && !IsActive(s.orders[id].status) then 1 else 0
  {
    SnocSet(Reactivated(s, ids, choice), Reactivated(s, ids + [id], choice[id := status]), id,
            status == Submitted && !IsActive(s.orders[id].status));
  }

  lemma MissingSnoc(s: Store, ids: seq<string>, id: string, view: BrokerView)
    requires (forall i :: i in ids ==> i in s.orders) && id in s.orders && id !in ids
    ensures |MissingRows(s, ids + [id], view)|
            == |MissingRows(s, ids, view)| + if Missing(view, s.orders[id]) then 1 else 0
  {
    SnocSet(MissingRows(s, ids, view), MissingRows(s, ids + [id], view), id, Missing(view, s.orders[id]));
  }

  function CountRow(t: Tally, before: OrderStatus, status: OrderStatus, missing: bool): Tally {
    CountOne(t, before, status).(missing := t.missing + if missing then 1 else 0)
  }

  /** Counting one more row keeps the counters exact. */
  lemma TallySnoc(s: Store, ids: seq<string>, id: string, choice: map<string, OrderStatus>, status: OrderStatus,
                  view: BrokerView)
    requires Covers(s, ids, choice) && id in s.orders && id !in ids
    ensures Covers(s, ids + [id], choice[id := status])
    ensures TallyOf(s, ids + [id], choice[id := status], view)
            == CountRow(TallyOf(s, ids, choice, view), s.orders[id].status, status, Missing(view, s.orders[id]))
  {
    ChangedSnoc(s, ids, id, choice, status, ANY_STATUS);
    ChangedSnoc(s, ids, id, choice, status, {OrderStatus.Cancelled});
    ChangedSnoc(s, ids, id, choice, status, {Filled});
    ChangedSnoc(s, ids, id, choice, status, {Rejected});
    ReactivatedSnoc(s, ids, id, choice, status);
    MissingSnoc(s, ids, id, view);
    var t, t' := TallyOf(s, ids, choice, view), TallyOf(s, ids + [id], choice[id := status], view);
    TallyArithmetic(t, t', s.orders[id].status, status, Missing(view, s.orders[id]));
  }

  lemma TallyArithmetic(t: Tally, t': Tally, before: OrderStatus, status: OrderStatus, missing: bool)
    requires t'.updated == t.updated + if status != before then 1 else 0
    requires t'.cancelled == t.cancelled + if status != before && status == OrderStatus.Cancelled then 1 else 0
    requires t'.filled == t.filled + if status != before && status == Filled then 1 else 0
    requires t'.rejected == t.rejected + if status != before && status == Rejected then 1 else 0
    requires t'.reactivated == t.reactivated + if status == Submitted && !IsActive(before) then 1 else 0
    requires t'.missing == t.missing + if missing then 1 else 0
    ensures t' == CountRow(t, before, status, missing)
  {
  }

  /** Every change is counted in exactly one of cancelled, filled, rejected, reactivated and other. */
  lemma UpdatesArePartitioned(s: Store, ids: seq<string>, choice: map<string, OrderStatus>, view: BrokerView)
    requires Covers(s, ids, choice)
    ensures var t := TallyOf(s, ids, choice, view);
            t.updated == t.cancelled + t.filled + t.rejected + t.reactivated + |OtherChanges(s, ids, choice)|
  {
    var a, b, c := ChangedInto(s, ids, choice, {OrderStatus.Cancelled}), ChangedInto(s, ids, choice, {Filled}),
                   ChangedInto(s, ids, choice, {Rejected});
    var r, o := Reactivated(s, ids, choice), OtherChanges(s, ids, choice);
    FiveParts(ChangedInto(s, ids, choice, ANY_STATUS), a, b, c, r, o);
  }

  ghost function OtherChanges(s: Store, ids: seq<string>, choice: map<string, OrderStatus>): set<string>
    requires Covers(s, ids, choice)
  {
    set id | id in ids && choice[id] != s.orders[id].status
             && (choice[id] in {Created, Errored} || (choice[id] == Submitted && IsActive(s.orders[id].status)))
  }

  lemma FiveParts(all: set<string>, a: set<string>, b: set<string>, c: set<string>, d: set<string>, e: set<string>)
    requires forall x :: x in all <==> x in a || x in b || x in c || x in d || x in e
    requires a !! b !! c !! d !! e
    ensures |all| == |a| + |b| + |c| + |d| + |e|
  {
    assert all == a + b + c + d + e;
  }

  // ---------------------------------------------------------------- the class

  /** The store's own discipline: every row is listed once, under its id. */
  ghost predicate Listed(s: Store) {
    && Distinct(s.created)
    && (forall id :: id in s.created <==> id in s.orders)
    && (forall id :: id in s.orders ==> s.orders[id].id == id)
  }

  function Reverse(ids: seq<string>): (r: seq<string>)
    ensures |r| == |ids| && forall i :: 0 <= i < |ids| ==> r[i] == ids[|ids| - 1 - i]
  {
    seq(|ids|, i requires 0 <= i < |ids| => ids[|ids| - 1 - i])
  }

  lemma ReverseLists(ids: seq<string>)
    requires Distinct(ids)
    ensures Distinct(Reverse(ids)) && forall id :: id in Reverse(ids) <==> id in ids
  {
    forall id | id in ids ensures id in Reverse(ids) {
      var i :| 0 <= i < |ids| && ids[i] == id;
      assert Reverse(ids)[|ids| - 1 - i] == id;
    }
  }

  class Engine {
    const repo: Database

    constructor (repo: Database)
      ensures this.repo == repo
    {
      this.repo := repo;
    }

    method OpenOrderStatusesByKey(orders: seq<ReportedOrder>) returns (statuses: map<string, OrderStatus>)
      ensures statuses == OpenStatuses(orders)
    {
      statuses := map[];
      for i := 0 to |orders|
        invariant statuses == OpenStatuses(orders[..i])
      {
        assert orders[..i + 1][..i] == orders[..i];
        statuses := statuses + (map k | k in ReportedKeys(orders[i]) :: ReportedStatus(orders[i]));
      }
      assert orders[..|orders|] == orders;
    }

    /** The first of the keys, in no particular order, that is reported. */
    method FirstMatchingStatus(keys: set<string>, statuses: map<string, OrderStatus>)
      returns (status: Option<OrderStatus>)
      ensures status.Some? ==> Matches(keys, statuses, status.value)
      ensures status.None? ==> !Mentioned(keys, statuses)
    {
      var rest := keys;
      while rest != {}
        invariant rest <= keys
        invariant forall k :: k in keys && k !in rest ==> k !in statuses
        decreases rest
      {
        var k :| k in rest;
        if k in statuses {
          return Some(statuses[k]);
        }
        rest := rest - {k};
      }
      return None;
    }

    method MarkLocalOrderStatus(row: OrderRow, status: OrderStatus, t: Tally) returns (t': Tally)
      requires row.id in repo.orders && repo.orders[row.id] == row && row.status != status
      modifies repo`orders, repo`setups
      ensures repo.View() == (if row.id == [] then old(repo.View()) else Settle(old(repo.View()), row.id, status))
      ensures t' == (if row.id == [] then t else CountOne(t, row.status, status))
    {
      if row.id == [] {
        return t;
      }
      repo.UpdateOrderStatus(row.id, status);
      t' := t.(updated := t.updated + 1);
      if status == OrderStatus.Cancelled {
        t' := t'.(cancelled := t'.cancelled + 1);
      } else if status == Filled {
        t' := t'.(filled := t'.filled + 1);
      } else if status == Rejected {
        t' := t'.(rejected := t'.rejected + 1);
      } else if status == Submitted && !IsActive(row.status) {
        t' := t'.(reactivated := t'.reactivated + 1);
      }
      UpdateSetupAfterReconciledOrder(row, status);
    }

    method UpdateSetupAfterReconciledOrder(row: OrderRow, status: OrderStatus)
      modifies repo`setups
      ensures repo.View() == SetupAfter(old(repo.View()), row, status)
    {
      if row.setupId == [] || row.setupId !in repo.setups {
        return;
      }
      var current := repo.setups[row.setupId].status;
      if status == Submitted {
        var target := if row.side == Sell then StopOrderPlaced else EntryOrderPlaced;
        if current in TERMINAL_SETUPS || current == ManualReviewRequired {
          repo.UpdateSetupStatus(row.setupId, target);
        }
        return;
      }
      if status != OrderStatus.Cancelled || current in TERMINAL_SETUPS {
        return;
      }
      if row.side == Sell && Upper(row.symbol) in repo.positions {
        repo.UpdateSetupStatus(row.setupId, ManualReviewRequired);
        return;
      }
      if row.side == Buy && current in ORDER_DEPENDENT {
        repo.UpdateSetupStatus(row.setupId, SetupCancelled);
      }
    }

    /** The status reported for a row, or the one inferred for it, and whether it had to be inferred. */
    method LookUp(row: OrderRow, view: BrokerView, open: map<string, OrderStatus>, known: map<string, OrderStatus>)
      returns (status: OrderStatus, missing: bool)
      requires open == OpenStatuses(view.orders) && known == KnownStatuses(view.statuses)
      ensures Decides(view, row, if row.id == [] then row.status else status)
      ensures missing <==> Missing(view, row)
    {
      var keys := RowKeys(row);
      if keys == {} {
        return row.status, false;
      }
      var openStatus := FirstMatchingStatus(keys, open);
      if openStatus.Some? {
        return openStatus.value, false;
      }
      if !IsActive(row.status) {
        return row.status, false;
      }
      var knownStatus := FirstMatchingStatus(keys, known);
      if knownStatus.Some? {
        return knownStatus.value, false;
      }
      return InferMissing(row, HeldSymbols(view.positions)), true;
    }

    /** One row: give it the status looked up when that is news. */
    method ReconcileRow(row: OrderRow, view: BrokerView, open: map<string, OrderStatus>, known: map<string, OrderStatus>,
                        t: Tally) returns (t': Tally, ghost decided: OrderStatus)
      requires row.id in repo.orders && repo.orders[row.id] == row
      requires open == OpenStatuses(view.orders) && known == KnownStatuses(view.statuses)
      modifies repo`orders, repo`setups
      ensures Decides(view, row, decided)
      ensures repo.View() == Settle(old(repo.View()), row.id, decided)
      ensures t' == CountRow(t, row.status, decided, Missing(view, row))
    {
      hide Decides, Missing, OpenStatuses, KnownStatuses;
      var status, missing := LookUp(row, view, open, known);
      decided, t' := if row.id == [] then row.status else status, t;
      if status != row.status {
        t' := MarkLocalOrderStatus(row, status, t);
      }
      if missing {
        t' := t'.(missing := t'.missing + 1);
      }
    }

    /** The pass over all rows, newest first, with its counters. */
    method ReconcileLocalOrders(view: BrokerView) returns (t: Tally, ghost choice: map<string, OrderStatus>)
      requires Listed(repo.View())
      modifies repo`orders, repo`setups
      ensures var s := old(repo.View());
              && Covers(s, Reverse(s.created), choice)
              && (forall id :: id in s.orders ==> id in choice && Decides(view, s.orders[id], choice[id]))
              && repo.View() == PassOver(s, Reverse(s.created), choice)
              && t == TallyOf(s, Reverse(s.created), choice, view)
    {
      hide Progress, PassOver, TallyOf, Decides, Settle, CountRow, Missing, OpenStatuses, KnownStatuses;
      ghost var s := repo.View();
      var ids := Reverse(repo.created);
      var rows := repo.orders;
      var open := OpenOrderStatusesByKey(view.orders);
      var known := KnownStatuses(view.statuses);
      choice := map[];
      t := Tally(0, 0, 0, 0, 0, 0);
      ProgressStart(s, view);
      for i := 0 to |ids|
        invariant Progress(s, view, ids[..i], choice, repo.View(), t)
      {
        assert ids[..i + 1] == ids[..i] + [ids[i]];
        RowStillToCome(s, view, i, choice, repo.View(), t);
        ghost var decided;
        ghost var now, counted := repo.View(), t;
        t, decided := ReconcileRow(rows[ids[i]], view, open, known, t);
        ProgressSnoc(s, view, ids[..i], choice, now, counted, ids[i], decided);
        choice := choice[ids[i] := decided];
      }
      assert ids[..|ids|] == ids;
      ProgressDone(s, view, choice, repo.View(), t);
    }
  }

  /** How far the pass has come: the rows in `ids` are settled and counted. */
  ghost predicate Progress(s: Store, view: BrokerView, ids: seq<string>, choice: map<string, OrderStatus>, now: Store,
                           t: Tally)
  {
    && Covers(s, ids, choice)
    && (forall id :: id in ids ==> Decides(view, s.orders[id], choice[id]))
    && now == PassOver(s, ids, choice)
    && t == TallyOf(s, ids, choice, view)
  }

  lemma ProgressStart(s: Store, view: BrokerView)
    ensures Progress(s, view, [], map[], s, Tally(0, 0, 0, 0, 0, 0))
  {
  }

  lemma RowStillToCome(s: Store, view: BrokerView, i: nat, choice: map<string, OrderStatus>, now: Store, t: Tally)
    requires Listed(s) && i < |s.created| && Progress(s, view, Reverse(s.created)[..i], choice, now, t)
    ensures var id := Reverse(s.created)[i];
            id in s.orders && id !in Reverse(s.created)[..i] && id in now.orders && now.orders[id] == s.orders[id]
            && s.orders[id].id == id
  {
    hide Decides, TallyOf, PassOver;
    ReverseLists(s.created);
    PassOverRow(s, Reverse(s.created)[..i], choice, Reverse(s.created)[i]);
  }

  lemma ProgressDone(s: Store, view: BrokerView, choice: map<string, OrderStatus>, now: Store, t: Tally)
    requires Listed(s) && Progress(s, view, Reverse(s.created), choice, now, t)
    ensures Covers(s, Reverse(s.created), choice) && now == PassOver(s, Reverse(s.created), choice)
    ensures forall id :: id in s.orders ==> id in choice && Decides(view, s.orders[id], choice[id])
    ensures t == TallyOf(s, Reverse(s.created), choice, view)
  {
    ReverseLists(s.created);
  }

  lemma ProgressSnoc(s: Store, view: BrokerView, ids: seq<string>, choice: map<string, OrderStatus>, now: Store, t: Tally,
                     id: string, decided: OrderStatus)
    requires Progress(s, view, ids, choice, now, t) && id in s.orders && id !in ids
    requires Decides(view, s.orders[id], decided)
    ensures Progress(s, view, ids + [id], choice[id := decided], Settle(now, id, decided),
                     CountRow(t, s.orders[id].status, decided, Missing(view, s.orders[id])))
  {
    TallySnoc(s, ids, id, choice, decided, view);
    PassOverSnoc(s, ids, choice, id, decided);
  }

  lemma {:induction false} PassOverIgnoresOthers(s: Store, ids: seq<string>, a: map<string, OrderStatus>,
                                                 b: map<string, OrderStatus>)
    requires Covers(s, ids, a) && Covers(s, ids, b) && forall id :: id in ids ==> a[id] == b[id]
    ensures PassOver(s, ids, a) == PassOver(s, ids, b)
    decreases |ids|
  {
    if ids != [] {
      PassOverIgnoresOthers(s, ids[..|ids| - 1], a, b);
    }
  }

  lemma PassOverSnoc(s: Store, ids: seq<string>, choice: map<string, OrderStatus>, id: string, status: OrderStatus)
    requires Covers(s, ids, choice) && id in s.orders && id !in ids
    ensures Covers(s, ids + [id], choice[id := status])
    ensures PassOver(s, ids + [id], choice[id := status]) == Settle(PassOver(s, ids, choice), id, status)
  {
    assert (ids + [id])[..|ids|] == ids;
    PassOverIgnoresOthers(s, ids, choice, choice[id := status]);
  }

  // --------------------------------------------------- what a pass achieves

  /** A complete pass: every row of the store is given one of the statuses possible for it. */
  ghost predicate Complete(s: Store, view: BrokerView, choice: map<string, OrderStatus>) {
    && Listed(s)
    && (forall id :: id in s.orders ==> id in choice && Decides(view, s.orders[id], choice[id]))
  }

  ghost function FullPass(s: Store, view: BrokerView, choice: map<string, OrderStatus>): (r: Store)
    requires Complete(s, view, choice)
    ensures r.orders.Keys == s.orders.Keys && r.created == s.created && r.positions == s.positions
    ensures r.setups.Keys == s.setups.Keys
  {
    ReverseLists(s.created);
    PassOver(s, Reverse(s.created), choice)
  }

  lemma FullPassRow(s: Store, view: BrokerView, choice: map<string, OrderStatus>, id: string)
    requires Complete(s, view, choice) && id in s.orders
    ensures FullPass(s, view, choice).orders[id] == s.orders[id].(status := choice[id])
  {
    ReverseLists(s.created);
    PassOverRow(s, Reverse(s.created), choice, id);
  }

  /** Every reported open order contributes its keys, and no other key is there. */
  lemma {:induction false} OpenKeys(orders: seq<ReportedOrder>, k: string)
    ensures k in OpenStatuses(orders) <==> exists i :: 0 <= i < |orders| && k in ReportedKeys(orders[i])
    decreases |orders|
  {
    hide ReportedKeys, ReportedStatus;
    if orders != [] {
      var init, last := orders[..|orders| - 1], orders[|orders| - 1];
      OpenKeys(init, k);
      if i :| 0 <= i < |orders| && k in ReportedKeys(orders[i]) {
        assert i < |init| ==> k in ReportedKeys(init[i]);
      }
    }
  }

  // -------------------------------------------------- what becomes of a row

  function RowIds(row: OrderRow): seq<Option<string>> {
    [Some(row.id), row.brokerOrderId, row.brokerPermId]
  }

  function ReportedIds(o: ReportedOrder): seq<Option<string>> {
    [Some(o.clientOrderId), o.brokerOrderId, o.brokerPermId]
  }

  /** The text is the name of the status, blanks at the ends and case aside. */
  ghost predicate Reads(text: string, status: OrderStatus) {
    Upper(Strip(text)) == StatusName(status)
  }

  /** Reading a text is the inverse of writing a status. */
  lemma ReadsExactly(text: string, status: OrderStatus)
    ensures NormalizeStatus(text) == Some(status) <==> Reads(text, status)
  {
    hide Strip, Upper;
  }

  /** An open order of the report has an id of the row. */
  ghost predicate ReportedOpen(view: BrokerView, row: OrderRow) {
    exists i :: 0 <= i < |view.orders| && ShareId(RowIds(row), ReportedIds(view.orders[i]))
  }

  /** The report gives the status, by name, under an id of the row. */
  ghost predicate ReportedAs(view: BrokerView, row: OrderRow, status: OrderStatus) {
    exists k :: k in view.statuses && IsIdText(RowIds(row), k) && Reads(view.statuses[k], status)
  }

  /** The symbol is held: some reported position of it, case aside, is not empty. */
  ghost predicate Held(view: BrokerView, symbol: string) {
    exists i :: 0 <= i < |view.positions| && view.positions[i].quantity != 0
                && Upper(view.positions[i].symbol) == Upper(symbol)
  }

  lemma StripTwice(s: string)
    ensures Strip(Strip(s)) == Strip(s)
  {
    var i, j := StripMeans(s);
    if Strip(s) != [] {
      StripKeepsTight(Strip(s));
    }
  }

  lemma {:induction false} OpenStatusFrom(orders: seq<ReportedOrder>, k: string) returns (i: nat)
    requires k in OpenStatuses(orders)
    ensures i < |orders| && k in ReportedKeys(orders[i]) && OpenStatuses(orders)[k] == ReportedStatus(orders[i])
    decreases |orders|
  {
    var last := |orders| - 1;
    if k in ReportedKeys(orders[last]) {
      i := last;
    } else {
      i := OpenStatusFrom(orders[..last], k);
    }
  }

  lemma MentionedOpenExactly(view: BrokerView, row: OrderRow)
    ensures Mentioned(RowKeys(row), OpenStatuses(view.orders)) <==> ReportedOpen(view, row)
  {
    hide CleanKeys, ShareId;
    forall i | 0 <= i < |view.orders|
      ensures RowKeys(row) !! ReportedKeys(view.orders[i]) <==> !ShareId(RowIds(row), ReportedIds(view.orders[i]))
    {
      var o := view.orders[i];
      KeysMeetExactly(Some(row.id), row.brokerOrderId, row.brokerPermId,
                      Some(o.clientOrderId), o.brokerOrderId, o.brokerPermId);
    }
    forall k
      ensures k in OpenStatuses(view.orders) <==> exists i :: 0 <= i < |view.orders| && k in ReportedKeys(view.orders[i])
    {
      OpenKeys(view.orders, k);
    }
    if ReportedOpen(view, row) {
      var i :| 0 <= i < |view.orders| && ShareId(RowIds(row), ReportedIds(view.orders[i]));
      var k :| k in RowKeys(row) && k in ReportedKeys(view.orders[i]);
    }
  }

  lemma KnownExactly(view: BrokerView, row: OrderRow, k: string)
    ensures k in RowKeys(row) && k in KnownStatuses(view.statuses)
            <==> IsIdText(RowIds(row), k) && k in view.statuses && NormalizeStatus(view.statuses[k]).Some?
  {
    hide Strip, NormalizeStatus;
    KeysAreTexts(Some(row.id), row.brokerOrderId, row.brokerPermId, k);
    if IsIdText(RowIds(row), k) {
      var i :| 0 <= i < 3 && RowIds(row)[i].Some? && Strip(RowIds(row)[i].value) == k;
      StripTwice(RowIds(row)[i].value);
    }
  }

  lemma OpenDecision(view: BrokerView, row: OrderRow, status: OrderStatus)
    requires Matches(RowKeys(row), OpenStatuses(view.orders), status)
    ensures exists i :: 0 <= i < |view.orders| && ShareId(RowIds(row), ReportedIds(view.orders[i]))
                        && ReportedStatus(view.orders[i]) == status
  {
    hide CleanKeys, ShareId, ReportedStatus;
    var k :| k in RowKeys(row) && k in OpenStatuses(view.orders) && OpenStatuses(view.orders)[k] == status;
    var i := OpenStatusFrom(view.orders, k);
    var o := view.orders[i];
    KeysMeetExactly(Some(row.id), row.brokerOrderId, row.brokerPermId,
                    Some(o.clientOrderId), o.brokerOrderId, o.brokerPermId);
  }

  lemma ReportedStatusReads(o: ReportedOrder)
    ensures Reads(o.status, ReportedStatus(o))
            || (ReportedStatus(o) == Submitted && forall s: OrderStatus :: !Reads(o.status, s))
  {
    forall s: OrderStatus ensures NormalizeStatus(o.status) == Some(s) <==> Reads(o.status, s) {
      ReadsExactly(o.status, s);
    }
    hide NormalizeStatus, Reads;
  }

  lemma KnownDecision(view: BrokerView, row: OrderRow, status: OrderStatus)
    ensures Matches(RowKeys(row), KnownStatuses(view.statuses), status) <==> ReportedAs(view, row, status)
  {
    hide RowKeys, KnownStatuses, NormalizeStatus, Reads, IsIdText;
    forall k ensures k in RowKeys(row) && k in KnownStatuses(view.statuses)
                     <==> IsIdText(RowIds(row), k) && k in view.statuses && NormalizeStatus(view.statuses[k]).Some?
    {
      KnownExactly(view, row, k);
    }
    forall k | k in view.statuses
      ensures NormalizeStatus(view.statuses[k]) == Some(status) <==> Reads(view.statuses[k], status)
    {
      ReadsExactly(view.statuses[k], status);
    }
    forall k | k in KnownStatuses(view.statuses)
      ensures k in view.statuses && NormalizeStatus(view.statuses[k]) == Some(KnownStatuses(view.statuses)[k])
    {
      KnownValue(view.statuses, k);
    }
  }

  lemma KnownValue(statuses: map<string, string>, k: string)
    requires k in KnownStatuses(statuses)
    ensures k in statuses && NormalizeStatus(statuses[k]) == Some(KnownStatuses(statuses)[k])
  {
    hide NormalizeStatus, Strip;
  }

  /**
   What a pass makes of a row, read off the report. A row with an id that an open order has takes such an order's
   status, by name, or SUBMITTED if the text names none. Any other row that is not CREATED or SUBMITTED stays. Of the
   rest, a row with a status reported under one of its ids takes such a status; and a row the broker no longer mentions
   is FILLED if it was a BUY and its symbol is held, and CANCELLED if not. Nothing but the status changes.
   */
  lemma RowOutcome(s: Store, view: BrokerView, choice: map<string, OrderStatus>, id: string)
    requires Complete(s, view, choice) && id in s.orders && Strip(id) != []
    ensures var row, status := s.orders[id], FullPass(s, view, choice).orders[id].status;
            && FullPass(s, view, choice).orders[id] == row.(status := status)
            && (if ReportedOpen(view, row) then
                  exists i :: 0 <= i < |view.orders| && ShareId(RowIds(row), ReportedIds(view.orders[i]))
                              && (Reads(view.orders[i].status, status)
                                  || (status == Submitted && forall t: OrderStatus :: !Reads(view.orders[i].status, t)))
                else if row.status !in {Created, Submitted} then status == row.status
                else if exists t :: ReportedAs(view, row, t) then ReportedAs(view, row, status)
                else status == if row.side == Buy && Held(view, row.symbol) then Filled else OrderStatus.Cancelled)
  {
    hide FullPass, ShareId, Reads, OpenStatuses, KnownStatuses, ReportedStatus, Strip, CleanKeys;
    var row, status := s.orders[id], choice[id];
    FullPassRow(s, view, choice, id);
    RowHasKey(row);
    MentionedOpenExactly(view, row);
    forall t: OrderStatus ensures Matches(RowKeys(row), KnownStatuses(view.statuses), t) <==> ReportedAs(view, row, t) {
      KnownDecision(view, row, t);
    }
    if ReportedOpen(view, row) {
      OpenDecision(view, row, status);
      var i :| 0 <= i < |view.orders| && ShareId(RowIds(row), ReportedIds(view.orders[i]))
               && ReportedStatus(view.orders[i]) == status;
      ReportedStatusReads(view.orders[i]);
    } else if IsActive(row.status) {
      assert Mentioned(RowKeys(row), KnownStatuses(view.statuses)) <==> exists t :: ReportedAs(view, row, t) by {
        if k :| k in RowKeys(row) && k in KnownStatuses(view.statuses) {
          assert Matches(RowKeys(row), KnownStatuses(view.statuses), KnownStatuses(view.statuses)[k]);
        }
      }
      assert Upper(row.symbol) in HeldSymbols(view.positions) <==> Held(view, row.symbol);
    }
  }

  /** A row is counted as missing exactly when it is active and the report has nothing on it. */
  lemma MissingExactly(view: BrokerView, row: OrderRow)
    requires Strip(row.id) != []
    ensures Missing(view, row)
            <==> row.status in {Created, Submitted} && !ReportedOpen(view, row) && !exists t :: ReportedAs(view, row, t)
  {
    hide Reads, OpenStatuses, KnownStatuses, Strip, CleanKeys, ReportedOpen, ReportedAs;
    RowHasKey(row);
    MentionedOpenExactly(view, row);
    forall t: OrderStatus ensures Matches(RowKeys(row), KnownStatuses(view.statuses), t) <==> ReportedAs(view, row, t) {
      KnownDecision(view, row, t);
    }
    if k :| k in RowKeys(row) && k in KnownStatuses(view.statuses) {
      assert Matches(RowKeys(row), KnownStatuses(view.statuses), KnownStatuses(view.statuses)[k]);
    }
  }

  lemma RowHasKey(row: OrderRow)
    requires Strip(row.id) != []
    ensures row.id != [] && RowKeys(row) != {}
  {
    assert Strip(row.id) in RowKeys(row);
  }

  /** After a pass every active row has broker evidence: an open order or a reported status under one of its ids. */
  lemma ActiveRowsHaveEvidence(s: Store, view: BrokerView, choice: map<string, OrderStatus>, id: string)
    requires Complete(s, view, choice) && id in s.orders && Strip(id) != []
    ensures FullPass(s, view, choice).orders[id].status in {Created, Submitted} ==>
              ReportedOpen(view, s.orders[id]) || exists t :: ReportedAs(view, s.orders[id], t)
  {
    hide FullPass, ReportedOpen, ReportedAs, Held, Reads, ShareId;
    RowOutcome(s, view, choice, id);
  }

  /** A row that shares an id with one open broker order only carries that order's status after the pass. */
  lemma OpenOrdersAreFollowed(s: Store, view: BrokerView, choice: map<string, OrderStatus>, id: string, i: nat)
    requires Complete(s, view, choice) && id in s.orders && Strip(id) != []
    requires i < |view.orders| && ShareId(RowIds(s.orders[id]), ReportedIds(view.orders[i]))
    requires forall j :: 0 <= j < |view.orders| && j != i ==>
                           !ShareId(RowIds(s.orders[id]), ReportedIds(view.orders[j]))
    ensures var status := FullPass(s, view, choice).orders[id].status;
            if exists t :: Reads(view.orders[i].status, t) then Reads(view.orders[i].status, status)
            else status == Submitted
  {
    hide FullPass, ShareId, Reads;
    RowOutcome(s, view, choice, id);
  }

  // ------------------------------------------------ what becomes of a setup

  /** A row that is not of the setup, or keeps its status, leaves the setup as it is. */
  lemma SettleLeavesSetup(s: Store, id: string, status: OrderStatus, setupId: string)
    requires id in s.orders && setupId in s.setups
    requires s.orders[id].setupId != setupId || s.orders[id].status == status
    ensures Settle(s, id, status).setups[setupId] == s.setups[setupId]
  {
  }

  /** Rows that are not of the setup, or keep their statuses, leave it as it is. */
  lemma {:induction false} PassLeavesSetup(s: Store, ids: seq<string>, choice: map<string, OrderStatus>, setupId: string)
    requires Covers(s, ids, choice) && Distinct(ids) && setupId in s.setups
    requires forall id :: id in ids && s.orders[id].setupId == setupId ==> choice[id] == s.orders[id].status
    ensures PassOver(s, ids, choice).setups[setupId] == s.setups[setupId]
    decreases |ids|
  {
    hide Settle;
    if ids != [] {
      var init, last := ids[..|ids| - 1], ids[|ids| - 1];
      assert ids == init + [last] && last !in init;
      PassLeavesSetup(s, init, choice, setupId);
      PassOverRow(s, init, choice, last);
      SettleLeavesSetup(PassOver(s, init, choice), last, choice[last], setupId);
    }
  }

  /** When one row alone of a setup changes, the setup changes as at that row's turn. */
  lemma {:induction false} PassMovesSetup(s: Store, ids: seq<string>, choice: map<string, OrderStatus>, id: string)
    requires Covers(s, ids, choice) && Distinct(ids) && id in ids && s.orders[id].setupId in s.setups
    requires forall i :: i in ids && i != id && s.orders[i].setupId == s.orders[id].setupId ==>
                           choice[i] == s.orders[i].status
    ensures var setupId := s.orders[id].setupId;
            PassOver(s, ids, choice).setups[setupId] == Settle(s, id, choice[id]).setups[setupId]
    decreases |ids|
  {
    hide Settle;
    var init, last := ids[..|ids| - 1], ids[|ids| - 1];
    var setupId := s.orders[id].setupId;
    assert ids == init + [last] && last !in init;
    var before := PassOver(s, init, choice);
    PassOverRow(s, init, choice, last);
    if last == id {
      PassLeavesSetup(s, init, choice, setupId);
      SettleReads(s, before, id, choice[id]);
    } else {
      PassMovesSetup(s, init, choice, id);
      SettleLeavesSetup(before, last, choice[last], setupId);
    }
  }

  /** What settling a row does to its setup depends on the row, the setup and the positions only. */
  lemma SettleReads(a: Store, b: Store, id: string, status: OrderStatus)
    requires id in a.orders && id in b.orders && a.orders[id] == b.orders[id] && a.positions == b.positions
    requires var setupId := a.orders[id].setupId;
             setupId in a.setups && setupId in b.setups && a.setups[setupId] == b.setups[setupId]
    ensures var setupId := a.orders[id].setupId;
            Settle(a, id, status).setups[setupId] == Settle(b, id, status).setups[setupId]
  {
  }

  /**
   What a row's new status makes of its setup: a finished setup, or one under review, is brought back by a row that is
   SUBMITTED again, to the status of a placed stop or entry; a setup that is not finished goes to manual review when its
   SELL was cancelled while a position of the symbol is recorded, and to CANCELLED when its BUY was cancelled while it
   depended on its orders; every other setup stays.
   */
  function SetupVerdict(before: SetupStatus, side: Side, recorded: bool, status: OrderStatus): SetupStatus {
    var finished := before in {Closed, SetupCancelled, Expired, Invalidated, SetupError, ErrorRequiresManualReview};
    if status == Submitted && (finished || before == ManualReviewRequired) then
      (match side case Sell => StopOrderPlaced case Buy => EntryOrderPlaced)
    else if status == OrderStatus.Cancelled && !finished && side == Sell && recorded then ManualReviewRequired
    else if status == OrderStatus.Cancelled && side == Buy
            && before in {EntryOrderPlaced, EntryPartiallyFilled, StopOrderPlaced, StopPlaced} then SetupCancelled
    else before
  }

  lemma SettledSetup(s: Store, id: string, status: OrderStatus)
    requires id in s.orders && s.orders[id].setupId in s.setups && s.orders[id].setupId != []
    requires s.orders[id].status != status
    ensures var row := s.orders[id];
            Settle(s, id, status).setups[row.setupId].status
            == SetupVerdict(s.setups[row.setupId].status, row.side, Upper(row.symbol) in s.positions, status)
  {
  }

  /** What a pass makes of a setup when one of its rows changes. */
  lemma SetupOutcome(s: Store, view: BrokerView, choice: map<string, OrderStatus>, id: string)
    requires Complete(s, view, choice) && id in s.orders && choice[id] != s.orders[id].status
    requires s.orders[id].setupId in s.setups && s.orders[id].setupId != []
    requires forall i :: i in s.orders && i != id && s.orders[i].setupId == s.orders[id].setupId ==>
                           choice[i] == s.orders[i].status
    ensures var row := s.orders[id];
            FullPass(s, view, choice).setups[row.setupId].status
            == SetupVerdict(s.setups[row.setupId].status, row.side, Upper(row.symbol) in s.positions, choice[id])
  {
    hide PassOver, Settle, SetupVerdict, Decides;
    ReverseLists(s.created);
    PassMovesSetup(s, Reverse(s.created), choice, id);
    SettledSetup(s, id, choice[id]);
  }

  /** A setup none of whose rows changes is left as it is. */
  lemma SetupStays(s: Store, view: BrokerView, choice: map<string, OrderStatus>, setupId: string)
    requires Complete(s, view, choice) && setupId in s.setups
    requires forall id :: id in s.orders && s.orders[id].setupId == setupId ==> choice[id] == s.orders[id].status
    ensures FullPass(s, view, choice).setups[setupId] == s.setups[setupId]
  {
    ReverseLists(s.created);
    PassLeavesSetup(s, Reverse(s.created), choice, setupId);
  }

  // ------------------------------------------------------------ idempotence

  /** The report gives the row one status only, as far as the pass looks. */
  ghost predicate Coherent(view: BrokerView, row: OrderRow) {
    var keys := RowKeys(row);
    var open, known := OpenStatuses(view.orders), KnownStatuses(view.statuses);
    row.id == [] || keys == {}
    || (&& (forall a, b :: a in keys && a in open && b in keys && b in open ==> open[a] == open[b])
        && (!Mentioned(keys, open) && IsActive(row.status) ==>
              forall a, b :: a in keys && a in known && b in keys && b in known && IsActive(known[a]) ==>
                               known[a] == known[b]))
  }

  /** Coherence is exactly what it takes for a row to stay put when the pass is repeated on the same report. */
  lemma RepeatExactly(view: BrokerView, row: OrderRow)
    ensures Coherent(view, row) <==>
              forall first, second :: Decides(view, row, first) && Decides(view, row.(status := first), second)
                                      ==> second == first
  {
    var keys := RowKeys(row);
    var open, known := OpenStatuses(view.orders), KnownStatuses(view.statuses);
    assert forall t :: RowKeys(row.(status := t)) == keys;
    if row.id != [] && keys != {} && !Coherent(view, row) {
      if Mentioned(keys, open) {
        var a, b :| a in keys && a in open && b in keys && b in open && open[a] != open[b];
        assert Decides(view, row, open[a]) && Decides(view, row.(status := open[a]), open[b]);
      } else {
        var a, b :| a in keys && a in known && b in keys && b in known && IsActive(known[a]) && known[a] != known[b];
        assert Decides(view, row, known[a]) && Decides(view, row.(status := known[a]), known[b]);
      }
    }
  }

  /**
   On a report coherent for every row, and with no row under a blank id, a second pass finds nothing to update and
   counts nothing.
   */
  lemma SecondPassIsIdle(s: Store, view: BrokerView, choice: map<string, OrderStatus>, again: map<string, OrderStatus>)
    requires Complete(s, view, choice) && Complete(FullPass(s, view, choice), view, again)
    requires forall id :: id in s.orders ==> id != [] && Coherent(view, s.orders[id])
    ensures var once := FullPass(s, view, choice);
            && FullPass(once, view, again) == once
            && Covers(once, Reverse(once.created), again)
            && TallyOf(once, Reverse(once.created), again, view) == Tally(0, 0, 0, 0, 0, 0)
  {
    var once := FullPass(s, view, choice);
    ReverseLists(once.created);
    forall id | id in once.orders
      ensures again[id] == once.orders[id].status && !Missing(view, once.orders[id])
    {
      SecondLookIsIdle(s, view, choice, again, id);
    }
    IdlePass(once, Reverse(once.created), again);
    IdleTally(once, Reverse(once.created), again, view);
  }

  lemma SecondLookIsIdle(s: Store, view: BrokerView, choice: map<string, OrderStatus>, again: map<string, OrderStatus>,
                         id: string)
    requires Complete(s, view, choice) && Complete(FullPass(s, view, choice), view, again)
    requires id in s.orders && id != [] && Coherent(view, s.orders[id])
    ensures var once := FullPass(s, view, choice);
            again[id] == once.orders[id].status && !Missing(view, once.orders[id])
  {
    FullPassRow(s, view, choice, id);
    SecondLook(view, s.orders[id], choice[id], again[id]);
  }

  lemma SecondLook(view: BrokerView, row: OrderRow, first: OrderStatus, second: OrderStatus)
    requires Coherent(view, row) && Decides(view, row, first) && Decides(view, row.(status := first), second)
    requires row.id != []
    ensures second == first && !Missing(view, row.(status := first))
  {
    RepeatExactly(view, row);
    assert RowKeys(row.(status := first)) == RowKeys(row);
  }

  lemma IdleTally(s: Store, ids: seq<string>, choice: map<string, OrderStatus>, view: BrokerView)
    requires Covers(s, ids, choice)
    requires forall id :: id in ids ==> choice[id] == s.orders[id].status && !Missing(view, s.orders[id])
    ensures TallyOf(s, ids, choice, view) == Tally(0, 0, 0, 0, 0, 0)
  {
    forall to: set<OrderStatus> ensures ChangedInto(s, ids, choice, to) == {} {
    }
    assert Reactivated(s, ids, choice) == {};
    assert MissingRows(s, ids, view) == {};
  }

  lemma {:induction false} IdlePass(s: Store, ids: seq<string>, choice: map<string, OrderStatus>)
    requires Covers(s, ids, choice) && forall id :: id in ids ==> choice[id] == s.orders[id].status
    ensures PassOver(s, ids, choice) == s
    decreases |ids|
  {
    if ids != [] {
      IdlePass(s, ids[..|ids| - 1], choice);
    }
  }
}
