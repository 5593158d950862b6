/**
 Building the broker-reality report: one row per active setup, then rows for the broker positions and the broker
 orders that no earlier row accounts for. When nothing blocks, everything at the broker is accounted for.
 */
module RealityReport {
  import opened Common
  import opened Models
  import opened Repository
  import opened BrokerReality
  import opened BrokerMatching
  import opened ReportAgeing

  datatype Account = Account(today: Option<int>, unrealized: Option<int>, realized: Option<int>, available: bool)

  /** Everything a report is built from. `now` is the time of the synchronisation. */
  datatype Snapshot = Snapshot(
    setups: seq<SetupRow>,
    localOrders: seq<OrderRow>,
    localPositions: seq<PositionRow>,
    orders: seq<LiveOrder>,
    positions: seq<LivePosition>,
    account: Option<Account>,
    connected: bool,
    channels: Channels,
    now: int)

  // ---------------------------------------------------------------- lookups

  function NotFinished(): SetupRow -> bool {
    (s: SetupRow) => s.status !in TERMINAL_SETUPS
  }

  function ActiveSetups(snap: Snapshot): seq<SetupRow> {
    Filter(NotFinished(), snap.setups)
  }

  predicate Nameless(symbol: string) {
    Strip(symbol) == ""
  }

  /** The last position of a symbol; positions without a symbol are skipped. */
  function PositionFor(positions: seq<LivePosition>, symbol: string): (p: Option<LivePosition>)
    ensures p.Some? ==> Upper(p.value.symbol) == symbol && p.value in positions && Strip(p.value.symbol) != ""
  {
    if positions == [] then None
    else
      var last := positions[|positions| - 1];
      if !Nameless(last.symbol) && Upper(last.symbol) == symbol then Some(last)
      else PositionFor(positions[..|positions| - 1], symbol)
  }

  function LocalPositionFor(positions: seq<PositionRow>, symbol: string): (p: Option<PositionRow>)
    ensures p.Some? ==> Upper(p.value.symbol) == symbol && p.value in positions && Strip(p.value.symbol) != ""
  {
    if positions == [] then None
    else
      var last := positions[|positions| - 1];
      if !Nameless(last.symbol) && Upper(last.symbol) == symbol then Some(last)
      else LocalPositionFor(positions[..|positions| - 1], symbol)
  }

  predicate OpenLocally(snap: Snapshot, symbol: string) {
    var p := LocalPositionFor(snap.localPositions, symbol);
    p.Some? && p.value.quantity != 0
  }

  predicate OpenAtBroker(snap: Snapshot, symbol: string) {
    QuantityOf(PositionFor(snap.positions, symbol)) != 0
  }

  function OwnedBy(setupId: string): OrderRow -> bool {
    (row: OrderRow) => row.setupId == setupId
  }

  function OwnOrders(snap: Snapshot, s: SetupRow): seq<OrderRow> {
    Filter(OwnedBy(s.setup.id), snap.localOrders)
  }

  function LocalEntry(snap: Snapshot, s: SetupRow): Option<OrderRow> {
    LatestLocal(OwnOrders(snap, s), EntrySide(s.setup.config.direction), false)
  }

  function LocalStop(snap: Snapshot, s: SetupRow): Option<OrderRow> {
    LatestLocal(OwnOrders(snap, s), StopSide(s.setup.config.direction), true)
  }

  function InputOf(snap: Snapshot, s: SetupRow): RowInput {
    var symbol := Upper(s.setup.symbol);
    RowInput(s.setup, s.status, LocalEntry(snap, s), PositionFor(snap.positions, symbol), OpenLocally(snap, symbol),
             snap.connected, Some(snap.now))
  }

  // ----------------------------------------------------- what a report is

  ghost predicate InRange(row: RealityRow, orders: seq<LiveOrder>) {
    (row.entry.Some? ==> row.entry.value < |orders|) && (row.stop.Some? ==> row.stop.value < |orders|)
  }

  /** The row of a setup, with its matched orders. */
  ghost predicate SetupRowOk(snap: Snapshot, s: SetupRow, row: RealityRow) {
    var d, symbol := s.setup.config.direction, Upper(s.setup.symbol);
    && InRange(row, snap.orders)
    && EntryMatch(LocalEntry(snap, s), snap.orders, symbol, EntrySide(d), row.entry)
    && StopMatch(LocalStop(snap, s), LocalEntry(snap, s), snap.orders, symbol, StopSide(d), row.entry, row.stop)
    && row == MakeRow(InputOf(snap, s), snap.orders, row.entry, row.stop)
  }

  ghost predicate PositionRowOk(snap: Snapshot, symbol: string, row: RealityRow) {
    var p := PositionFor(snap.positions, symbol);
    && p.Some? && InRange(row, snap.orders)
    && var long := p.value.quantity > 0;
       && EntryMatch(None, snap.orders, symbol, if long then Buy else Sell, row.entry)
       && StopMatch(None, None, snap.orders, symbol, if long then Sell else Buy, row.entry, row.stop)
       && row == OrphanPositionRow(p.value, snap.orders, row.entry, row.stop,
                                   LocalPositionFor(snap.localPositions, symbol), snap.connected, Some(snap.now))
  }

  /** Symbols held at the broker that no active setup trades. */
  function OrphanSymbols(snap: Snapshot): set<string> {
    set p | p in snap.positions && OpenAtBroker(snap, Upper(p.symbol))
            && Upper(p.symbol) !in (set s | s in ActiveSetups(snap) :: Upper(s.setup.symbol)) :: Upper(p.symbol)
  }

  function Used(rows: seq<RealityRow>): set<nat> {
    (set row | row in rows && row.entry.Some? :: row.entry.value)
    + (set row | row in rows && row.stop.Some? :: row.stop.value)
  }

  /** A row for each of the first `n` broker orders that is not used. */
  function UnusedOrderRows(snap: Snapshot, used: set<nat>, n: nat): seq<RealityRow>
    requires n <= |snap.orders|
  {
    if n == 0 then []
    else UnusedOrderRows(snap, used, n - 1)
         + (if n - 1 in used then [] else [OrphanOrderRow(snap.orders[n - 1], n - 1, snap.connected, Some(snap.now))])
  }

  datatype Parts = Parts(setups: seq<RealityRow>, positions: seq<RealityRow>, orders: seq<RealityRow>) {
    function All(): seq<RealityRow> {
      setups + positions + orders
    }
  }

  function Sum(values: seq<Option<int>>): Option<int> {
    if values == [] then None
    else
      var rest := Sum(values[1..]);
      if values[0].None? then rest else Some(values[0].value + rest.GetOr(0))
  }

  function UnrealizedOf(p: LivePosition): Option<int> {
    var price := MarketPrice(Some(p));
    if p.unrealizedPnl.Some? then p.unrealizedPnl
    else if p.averagePrice.None? || price.None? then None
    else Some((price.value - p.averagePrice.value) * p.quantity)
  }

  function IsOpen(): LivePosition -> bool {
    (p: LivePosition) => p.quantity != 0
  }

  function UnrealizedOfEach(open: seq<LivePosition>): seq<Option<int>> {
    seq(|open|, i requires 0 <= i < |open| => UnrealizedOf(open[i]))
  }

  function PnlOf(snap: Snapshot): Pnl {
    var account := snap.account.GetOr(Account(None, None, None, false));
    var open := Filter(IsOpen(), snap.positions);
    var unrealized := if account.unrealized.Some? then account.unrealized else Sum(UnrealizedOfEach(open));
    var daily := if account.today.Some? then account.today
                 else Sum(seq(|open|, i requires 0 <= i < |open| => open[i].dailyPnl));
    var available := account.available || daily.Some? || unrealized.Some? || account.realized.Some?;
    var total := if unrealized.Some? || account.realized.Some?
                 then Some(unrealized.GetOr(0) + account.realized.GetOr(0)) else None;
    var p := Pnl(daily, unrealized, account.realized, total, if available then Some(snap.now) else None, available,
                 if available then SyncOk else SyncUnavailable, if available then None else Some(NoRecentSnapshot), false,
                 if available then Some(0) else None);
    if snap.channels.accountOk then p
    else p.(ok := false, sync := SyncError, reason := Some(AccountFailed), warning := true)
  }

  /** The report as assembled, before its first reading. */
  function Assembled(snap: Snapshot, g: ReportSettings, rows: seq<RealityRow>): Report {
    var status := if !g.trackerEnabled then TrackerDisabled else if snap.connected then TrackerOk else Disconnected;
    var reasons := GlobalBlocking(g, rows, snap.connected) + ChannelBlocking(Some(snap.channels));
    Report(Some(status), true, Some(snap.now), Some(0), g.staleAfter, g.refreshSeconds, snap.connected, Some(snap.channels),
           reasons != [], reasons, Count(Mismatched(), rows), Count(IsCritical(), rows), Summary(rows), rows,
           Some(PnlOf(snap)))
  }

  function Symbols(rows: seq<RealityRow>): set<string> {
    set row | row in rows :: row.symbol
  }

  ghost predicate SetupRowsOk(snap: Snapshot, rows: seq<RealityRow>) {
    && |rows| == |ActiveSetups(snap)|
    && forall k :: 0 <= k < |rows| ==> SetupRowOk(snap, ActiveSetups(snap)[k], rows[k])
  }

  /** One row for each orphan symbol, and no other. */
  ghost predicate PositionRowsOk(snap: Snapshot, rows: seq<RealityRow>) {
    && (forall k :: 0 <= k < |rows| ==> PositionRowOk(snap, rows[k].symbol, rows[k]))
    && (forall j, k :: 0 <= j < k < |rows| ==> rows[j].symbol != rows[k].symbol)
    && Symbols(rows) == OrphanSymbols(snap)
  }

  ghost predicate IsReport(snap: Snapshot, g: ReportSettings, parts: Parts, report: Report) {
    && SetupRowsOk(snap, parts.setups)
    && PositionRowsOk(snap, parts.positions)
    && parts.orders == UnusedOrderRows(snap, Used(parts.setups + parts.positions), |snap.orders|)
    && report == Freshened(Assembled(snap, g, parts.All()), g, snap.now)
  }

  // --------------------------------------------------------------- building

  method BuildSetupRow(snap: Snapshot, s: SetupRow) returns (row: RealityRow)
    ensures SetupRowOk(snap, s, row)
  {
    var d, symbol := s.setup.config.direction, Upper(s.setup.symbol);
    var localEntry, localStop := LocalEntry(snap, s), LocalStop(snap, s);
    var entry := MatchEntry(localEntry, snap.orders, symbol, EntrySide(d));
    EntryMatchInRange(localEntry, snap.orders, symbol, EntrySide(d), entry);
    var stop := MatchStop(localStop, localEntry, snap.orders, symbol, StopSide(d), entry);
    StopMatchInRange(localStop, localEntry, snap.orders, symbol, StopSide(d), entry, stop);
    row := MakeRow(InputOf(snap, s), snap.orders, entry, stop);
  }

  lemma StopMatchInRange(localStop: Option<OrderRow>, localEntry: Option<OrderRow>, orders: seq<LiveOrder>,
                         symbol: string, side: Side, entry: Option<nat>, m: Option<nat>)
    requires entry.Some? ==> entry.value < |orders|
    requires StopMatch(localStop, localEntry, orders, symbol, side, entry, m)
    ensures m.Some? ==> m.value < |orders|
  {
  }

  method BuildPositionRow(snap: Snapshot, symbol: string) returns (row: RealityRow)
    requires PositionFor(snap.positions, symbol).Some?
    ensures PositionRowOk(snap, symbol, row) && row.symbol == symbol
  {
    var p := PositionFor(snap.positions, symbol).value;
    var long := p.quantity > 0;
    var entry := MatchEntry(None, snap.orders, symbol, if long then Buy else Sell);
    EntryMatchInRange(None, snap.orders, symbol, if long then Buy else Sell, entry);
    var stop := MatchStop(None, None, snap.orders, symbol, if long then Sell else Buy, entry);
    StopMatchInRange(None, None, snap.orders, symbol, if long then Sell else Buy, entry, stop);
    row := OrphanPositionRow(p, snap.orders, entry, stop, LocalPositionFor(snap.localPositions, symbol), snap.connected,
                             Some(snap.now));
  }

  method BuildSetupRows(snap: Snapshot) returns (rows: seq<RealityRow>)
    ensures SetupRowsOk(snap, rows)
  {
    hide SetupRowOk;
    var active := ActiveSetups(snap);
    rows := [];
    for k := 0 to |active|
      invariant |rows| == k
      invariant forall j :: 0 <= j < k ==> SetupRowOk(snap, active[j], rows[j])
    {
      var row := BuildSetupRow(snap, active[k]);
      rows := rows + [row];
    }
  }

  /** One row for each orphan symbol, in some order. */
  method BuildPositionRows(snap: Snapshot) returns (rows: seq<RealityRow>)
    ensures PositionRowsOk(snap, rows)
  {
    hide PositionRowOk;
    rows := [];
    var rest := OrphanSymbols(snap);
    while rest != {}
      invariant rest <= OrphanSymbols(snap)
      invariant forall k :: 0 <= k < |rows| ==> PositionRowOk(snap, rows[k].symbol, rows[k])
      invariant forall j, k :: 0 <= j < k < |rows| ==> rows[j].symbol != rows[k].symbol
      invariant Symbols(rows) == OrphanSymbols(snap) - rest
      decreases rest
    {
      var symbol :| symbol in rest;
      OrphanIsHeld(snap, symbol);
      var row := BuildPositionRow(snap, symbol);
      SymbolsSnoc(rows, row);
      rows := rows + [row];
      rest := rest - {symbol};
    }
  }

  lemma OrphanIsHeld(snap: Snapshot, symbol: string)
    requires symbol in OrphanSymbols(snap)
    ensures PositionFor(snap.positions, symbol).Some?
  {
  }

  lemma SymbolsSnoc(rows: seq<RealityRow>, row: RealityRow)
    ensures Symbols(rows + [row]) == Symbols(rows) + {row.symbol}
    ensures forall k :: 0 <= k < |rows| ==> rows[k].symbol in Symbols(rows)
  {
    assert row in rows + [row];
    assert forall r :: r in rows ==> r in rows + [row];
  }

  method BuildReport(snap: Snapshot, g: ReportSettings) returns (report: Report)
    ensures exists parts :: IsReport(snap, g, parts, report)
  {
    var setupRows := BuildSetupRows(snap);
    var positionRows := BuildPositionRows(snap);
    hide SetupRowsOk, PositionRowsOk, Freshened, Assembled;
    var used := Used(setupRows + positionRows);
    var orderRows := [];
    for i := 0 to |snap.orders|
      invariant orderRows == UnusedOrderRows(snap, used, i)
    {
      if i !in used {
        orderRows := orderRows + [OrphanOrderRow(snap.orders[i], i, snap.connected, Some(snap.now))];
      }
    }
    ghost var parts := Parts(setupRows, positionRows, orderRows);
    report := Freshen(Assembled(snap, g, setupRows + positionRows + orderRows), g, snap.now);
    assert IsReport(snap, g, parts, report);
  }

  // ------------------------------------------------------------- soundness

  predicate CleanRows(rows: seq<RealityRow>) {
    forall k :: 0 <= k < |rows| ==> rows[k].reasons == []
  }

  lemma {:induction false} NoBlockingRow(g: ReportSettings, rows: seq<RealityRow>)
    requires g.guardMismatch
    ensures RowsBlocking(g, rows) == [] ==> CleanRows(rows)
  {
    if rows != [] { NoBlockingRow(g, rows[..|rows| - 1]); }
  }

  predicate Quiet(row: RealityRow) {
    row.reasons == [] && row.protection != EntryWithoutStopCritical
    && row.protection != PositionStopMissingCritical && !Refused(row.entryStatus)
  }

  lemma {:induction false} QuietRowsBlockNothing(g: ReportSettings, rows: seq<RealityRow>)
    requires forall k :: 0 <= k < |rows| ==> Quiet(rows[k])
    ensures RowsBlocking(g, rows) == []
  {
    if rows != [] { QuietRowsBlockNothing(g, rows[..|rows| - 1]); }
  }

  lemma CleanIsQuiet(snap: Snapshot, s: SetupRow, row: RealityRow)
    requires SetupRowOk(snap, s, row) && row.reasons == []
    ensures Quiet(row)
  {
    hide InputOf, StateOf, EntryMatch, StopMatch, LiveAt, HeldBack, DownAt, RemainingRisk, ActiveStopPrice, MarketPrice,
      MismatchReasons;
    CleanExactly(InputOf(snap, s), snap.orders, row.entry, row.stop);
    StatesAt(snap.orders, row.entry, row.stop);
  }

  lemma {:induction false} UnusedRows(snap: Snapshot, used: set<nat>, n: nat)
    requires n <= |snap.orders|
    ensures UnusedOrderRows(snap, used, n) == [] <==> forall i :: 0 <= i < n ==> i in used
    ensures CleanRows(UnusedOrderRows(snap, used, n)) <==> UnusedOrderRows(snap, used, n) == []
    ensures UnusedOrderRows(snap, used, n) != [] ==> UnusedOrderRows(snap, used, n)[0].reasons != []
  {
    hide OrphanOrderRow;
    if n > 0 {
      UnusedRows(snap, used, n - 1);
      UnusedIsMismatch(snap.orders[n - 1], n - 1, snap.connected, Some(snap.now));
    }
    var rows := UnusedOrderRows(snap, used, n);
    assert rows != [] ==> rows[0].reasons != [];
  }

  lemma UnusedIsMismatch(o: LiveOrder, place: nat, connected: bool, syncAt: Option<int>)
    ensures OrphanOrderRow(o, place, connected, syncAt).reasons == [OrderWithoutLocalSetup]
    ensures OrphanOrderRow(o, place, connected, syncAt).critical
  {
    hide StateOf;
  }

  /** A reading at the time of the synchronisation finds the report fresh. */
  lemma FreshAtSync(snap: Snapshot, g: ReportSettings, rows: seq<RealityRow>)
    requires snap.connected
    ensures TrackerBlocking(g, StatusAt(Assembled(snap, g, rows), g, snap.now)) == []
  {
    hide GlobalBlocking, ChannelBlocking, PnlOf, Summary, Count;
  }

  /** What is blocked on, when mismatches are guarded: the connection, a failed query, or some row. */
  lemma BlockedByRows(snap: Snapshot, g: ReportSettings, rows: seq<RealityRow>)
    ensures Freshened(Assembled(snap, g, rows), g, snap.now).blocked
            <==> !(snap.connected && snap.channels == Channels(true, true, true) && RowsBlocking(g, rows) == [])
  {
    BlockedExactly(Assembled(snap, g, rows), g, snap.now);
    if snap.connected { FreshAtSync(snap, g, rows); }
    GlobalExactly(g, rows, snap.connected);
    hide Freshened, StatusAt, GlobalBlocking;
  }

  lemma GlobalExactly(g: ReportSettings, rows: seq<RealityRow>, connected: bool)
    ensures GlobalBlocking(g, rows, connected) != [] <==> !connected || RowsBlocking(g, rows) != []
  {
    var items := IfSo(!connected, BlockDisconnected) + RowsBlocking(g, rows);
    assert items != [] ==> items[0] in Dedupe(items);
    assert Dedupe(items) != [] ==> Dedupe(items)[0] in items;
  }

  /** The parts that decide whether a report lets entries through. */
  lemma UnblockedByParts(snap: Snapshot, g: ReportSettings, parts: Parts, report: Report)
    requires IsReport(snap, g, parts, report) && g.guardMismatch
    ensures !report.blocked <==>
            (&& snap.connected && snap.channels == Channels(true, true, true)
             && (forall i :: 0 <= i < |snap.orders| ==> i in Used(parts.setups))
             && OrphanSymbols(snap) == {}
             && CleanRows(parts.setups))
  {
    BlockedByRows(snap, g, parts.All());
    hide SetupRowsOk, PositionRowsOk, Freshened, Assembled, OrphanSymbols, Used, CleanRows;
    RowsBlockExactly(snap, g, parts);
    Leftovers(snap, parts);
  }

  /** No row blocks exactly when the setups' rows are clean and nothing is left over. */
  lemma RowsBlockExactly(snap: Snapshot, g: ReportSettings, parts: Parts)
    requires g.guardMismatch && SetupRowsOk(snap, parts.setups) && PositionRowsOk(snap, parts.positions)
    requires parts.orders == UnusedOrderRows(snap, Used(parts.setups + parts.positions), |snap.orders|)
    ensures RowsBlocking(g, parts.All()) == []
            <==> CleanRows(parts.setups) && parts.positions == [] && parts.orders == []
  {
    PositionRowsMismatch(snap, parts.positions);
    UnusedRows(snap, Used(parts.setups + parts.positions), |snap.orders|);
    SetupRowsQuiet(snap, parts.setups);
    CleanParts(parts);
    NoBlockingRow(g, parts.All());
    hide SetupRowsOk, PositionRowsOk, OrphanSymbols, Used;
    if CleanRows(parts.setups) && parts.positions == [] && parts.orders == [] {
      assert parts.All() == parts.setups;
      QuietRowsBlockNothing(g, parts.setups);
    }
  }

  lemma Leftovers(snap: Snapshot, parts: Parts)
    requires PositionRowsOk(snap, parts.positions)
    requires parts.orders == UnusedOrderRows(snap, Used(parts.setups + parts.positions), |snap.orders|)
    ensures parts.positions == [] <==> OrphanSymbols(snap) == {}
    ensures parts.positions == [] ==>
              (parts.orders == [] <==> forall i :: 0 <= i < |snap.orders| ==> i in Used(parts.setups))
  {
    PositionRowsMismatch(snap, parts.positions);
    UnusedRows(snap, Used(parts.setups + parts.positions), |snap.orders|);
    if parts.positions == [] {
      assert parts.setups + parts.positions == parts.setups;
    }
  }

  lemma CleanParts(parts: Parts)
    ensures CleanRows(parts.All()) <==> CleanRows(parts.setups) && CleanRows(parts.positions) && CleanRows(parts.orders)
  {
    var rows, n, m := parts.All(), |parts.setups|, |parts.positions|;
    assert forall k :: 0 <= k < n ==> rows[k] == parts.setups[k];
    assert forall k :: 0 <= k < m ==> rows[n + k] == parts.positions[k];
    assert forall k :: 0 <= k < |parts.orders| ==> rows[n + m + k] == parts.orders[k];
  }

  lemma SetupRowsQuiet(snap: Snapshot, rows: seq<RealityRow>)
    requires SetupRowsOk(snap, rows)
    ensures forall k :: 0 <= k < |rows| && rows[k].reasons == [] ==> Quiet(rows[k])
  {
    hide SetupRowOk, Quiet;
    forall k | 0 <= k < |rows| && rows[k].reasons == [] ensures Quiet(rows[k]) {
      CleanIsQuiet(snap, ActiveSetups(snap)[k], rows[k]);
    }
  }

  lemma PositionRowMismatch(snap: Snapshot, symbol: string, row: RealityRow)
    requires PositionRowOk(snap, symbol, row)
    ensures row.reasons != []
  {
  }

  lemma PositionRowsMismatch(snap: Snapshot, rows: seq<RealityRow>)
    requires PositionRowsOk(snap, rows)
    ensures CleanRows(rows) <==> rows == []
    ensures rows == [] <==> OrphanSymbols(snap) == {}
  {
    hide PositionRowOk, OrphanSymbols;
    if rows != [] {
      PositionRowMismatch(snap, rows[0].symbol, rows[0]);
      assert rows[0].symbol in Symbols(rows);
    }
  }

  /** A stored setup that is not finished. */
  ghost predicate ActiveSetup(snap: Snapshot, s: SetupRow) {
    s in snap.setups
    && s.status !in {Closed, SetupCancelled, Expired, Invalidated, SetupError, ErrorRequiresManualReview}
  }

  /** The side on which a setup's protective orders stand. */
  function ProtectiveSide(s: SetupRow): Side {
    match s.setup.config.direction
    case Short => Buy
    case _ => Sell
  }

  /** A broker order may protect a setup: it acts as a stop of its symbol, or is known to be one of its own stop rows. */
  ghost predicate Protects(snap: Snapshot, s: SetupRow, i: int) {
    && 0 <= i < |snap.orders|
    && (StopOf(snap.orders[i], Upper(s.setup.symbol), ProtectiveSide(s))
        || exists row :: row in snap.localOrders && row.setupId == s.setup.id && OfKind(row, ProtectiveSide(s), true)
                         && Same(row, snap.orders[i]))
  }

  /** A broker order may be a setup's entry: of its symbol, on the other side, or known to be one of its own entry rows. */
  ghost predicate Enters(snap: Snapshot, s: SetupRow, i: int) {
    && 0 <= i < |snap.orders|
    && var side := if ProtectiveSide(s) == Sell then Buy else Sell;
       || (Upper(snap.orders[i].order.symbol) == Upper(s.setup.symbol) && snap.orders[i].order.side == side)
       || exists row :: row in snap.localOrders && row.setupId == s.setup.id && OfKind(row, side, false)
                        && Same(row, snap.orders[i])
  }

  /** A broker order is matched to an active setup, as the entry or the stop it may be. */
  ghost predicate Accounts(snap: Snapshot, parts: Parts, i: nat)
    requires |parts.setups| == |ActiveSetups(snap)|
  {
    exists k :: 0 <= k < |parts.setups|
                && var s, row := ActiveSetups(snap)[k], parts.setups[k];
                   ActiveSetup(snap, s)
                   && ((row.entry == Some(i) && Enters(snap, s, i)) || (row.stop == Some(i) && Protects(snap, s, i)))
  }

  /** Some active setup trades the symbol, and the broker order matched as its stop may protect it and is live. */
  ghost predicate Guarded(snap: Snapshot, parts: Parts, symbol: string)
    requires |parts.setups| == |ActiveSetups(snap)|
  {
    exists k :: 0 <= k < |parts.setups|
                && var s, stop := ActiveSetups(snap)[k], parts.setups[k].stop;
                   ActiveSetup(snap, s) && Upper(s.setup.symbol) == symbol && stop.Some?
                   && Protects(snap, s, stop.value) && Live(snap.orders[stop.value])
  }

  lemma {:induction false} FilterMembers<T>(p: T -> bool, s: seq<T>)
    ensures forall x :: x in Filter(p, s) <==> x in s && p(x)
  {
    if s != [] {
      FilterMembers(p, s[1..]);
      assert s == [s[0]] + s[1..];
    }
  }

  lemma ActiveExactly(snap: Snapshot)
    ensures forall s :: s in ActiveSetups(snap) <==> ActiveSetup(snap, s)
  {
    FilterMembers(NotFinished(), snap.setups);
  }

  /** The order matched as a setup's stop may protect it. */
  lemma MatchedStopProtects(snap: Snapshot, s: SetupRow, row: RealityRow)
    requires SetupRowOk(snap, s, row) && row.stop.Some?
    ensures Protects(snap, s, row.stop.value)
  {
    hide MakeRow, EntryMatch, StopMatch, Same, StopOf, OfKind, Under, Live, TurnedDown, Says, LatestLocal;
    var side := StopSide(s.setup.config.direction);
    var own := OwnOrders(snap, s);
    StopMatchMeans(LocalStop(snap, s), LocalEntry(snap, s), snap.orders, Upper(s.setup.symbol), side, row.entry, row.stop);
    FilterMembers(OwnedBy(s.setup.id), snap.localOrders);
    LatestLocalMeans(own, side, true);
    assert side == ProtectiveSide(s);
    if LocalStop(snap, s).Some? {
      var i :| 0 <= i < |own| && LocalStop(snap, s).value == own[i] && OfKind(own[i], side, true);
      assert own[i] in own;
    }
  }

  /**
   When a report lets entries through: exactly when the broker is connected, all queries succeeded, every broker order is
   matched to some setup's row as entry or stop, every symbol held at the broker is traded by an active setup, and every
   active setup's row is clean.
   */
  lemma UnblockedExactly(snap: Snapshot, g: ReportSettings, parts: Parts, report: Report)
    requires IsReport(snap, g, parts, report) && g.guardMismatch
    ensures !report.blocked <==>
            (&& snap.connected
             && snap.channels.ordersOk && snap.channels.positionsOk && snap.channels.accountOk
             && (forall i: nat :: i < |snap.orders| ==> MatchedIn(parts.setups, i))
             && (forall symbol :: OpenAtBroker(snap, symbol) ==>
                   exists s :: ActiveSetup(snap, s) && Upper(s.setup.symbol) == symbol)
             && CleanRows(parts.setups))
  {
    hide IsReport, OrphanSymbols, Used, CleanRows, OpenAtBroker, ActiveSetup, MatchedIn;
    UnblockedByParts(snap, g, parts, report);
    UsedExactly(parts.setups);
    OrphansExactly(snap);
    assert (forall i: nat :: i < |snap.orders| ==> MatchedIn(parts.setups, i))
           <==> forall i :: 0 <= i < |snap.orders| ==> i in Used(parts.setups);
  }

  /** Some row has the broker order at that place as its entry or its stop. */
  ghost predicate MatchedIn(rows: seq<RealityRow>, i: nat) {
    exists k :: 0 <= k < |rows| && (rows[k].entry == Some(i) || rows[k].stop == Some(i))
  }

  lemma UsedExactly(rows: seq<RealityRow>)
    ensures forall i: nat :: i in Used(rows) <==> MatchedIn(rows, i)
  {
    forall i: nat | MatchedIn(rows, i) ensures i in Used(rows) {
      var k :| 0 <= k < |rows| && (rows[k].entry == Some(i) || rows[k].stop == Some(i));
      assert rows[k] in rows;
    }
  }

  lemma OrphansExactly(snap: Snapshot)
    ensures OrphanSymbols(snap) == {}
            <==> forall symbol :: OpenAtBroker(snap, symbol) ==>
                                    exists s :: ActiveSetup(snap, s) && Upper(s.setup.symbol) == symbol
  {
    hide ActiveSetup;
    ActiveExactly(snap);
    if OrphanSymbols(snap) == {} {
      forall symbol | OpenAtBroker(snap, symbol)
        ensures exists s :: ActiveSetup(snap, s) && Upper(s.setup.symbol) == symbol
      {
        var k := TradedBy(snap, symbol);
        assert ActiveSetups(snap)[k] in ActiveSetups(snap);
      }
    } else {
      var symbol :| symbol in OrphanSymbols(snap);
      assert OpenAtBroker(snap, symbol);
    }
  }

  /** The order matched as a setup's entry may be its entry. */
  lemma MatchedEntryEnters(snap: Snapshot, s: SetupRow, row: RealityRow)
    requires SetupRowOk(snap, s, row) && row.entry.Some?
    ensures Enters(snap, s, row.entry.value)
  {
    hide MakeRow, EntryMatch, StopMatch, Same, OfKind, Live, TurnedDown, Says, LatestLocal;
    var side := EntrySide(s.setup.config.direction);
    var own := OwnOrders(snap, s);
    EntryMatchMeans(LocalEntry(snap, s), snap.orders, Upper(s.setup.symbol), side, row.entry);
    FilterMembers(OwnedBy(s.setup.id), snap.localOrders);
    LatestLocalMeans(own, side, false);
    assert side == if ProtectiveSide(s) == Sell then Buy else Sell;
    if LocalEntry(snap, s).Some? {
      var i :| 0 <= i < |own| && LocalEntry(snap, s).value == own[i] && OfKind(own[i], side, false);
      assert own[i] in own;
    }
  }

  /**
   Coverage and soundness of an unblocked report: every broker order is the matched entry or stop of an active setup's
   row, and may be that; every symbol held at the broker is traded by an active setup whose matched stop is an order
   that may protect it, transmitted, and live by the broker's own words; and for every active setup the position is
   open at the broker exactly if it is open locally.
   */
  lemma UnblockedMeansCovered(snap: Snapshot, g: ReportSettings, parts: Parts, report: Report)
    requires IsReport(snap, g, parts, report) && g.guardMismatch && !report.blocked
    ensures forall i :: 0 <= i < |snap.orders| ==> Accounts(snap, parts, i)
    ensures forall symbol :: OpenAtBroker(snap, symbol) ==> Guarded(snap, parts, symbol)
    ensures forall k :: 0 <= k < |parts.setups| ==>
                          var symbol := Upper(ActiveSetups(snap)[k].setup.symbol);
                          OpenAtBroker(snap, symbol) <==> OpenLocally(snap, symbol)
  {
    UnblockedByParts(snap, g, parts, report);
    hide SetupRowOk, Freshened, Assembled, RowIsSound, OrphanSymbols, PositionRowsOk;
    UsedAreAccounted(snap, parts);
    RowsAreSound(snap, parts.setups);
    SoundRowsGuard(snap, parts);
  }

  /**
   The converse of protection: while a symbol is held and none of the orders that may protect a setup of the symbol is
   live - each is said to be cancelled, turned down or filled, says nothing known, or was never transmitted - the report
   lets no entry through.
   */
  lemma DeadStopsBlock(snap: Snapshot, g: ReportSettings, parts: Parts, report: Report, symbol: string)
    requires IsReport(snap, g, parts, report) && g.guardMismatch && OpenAtBroker(snap, symbol)
    requires forall s, i :: ActiveSetup(snap, s) && Upper(s.setup.symbol) == symbol && Protects(snap, s, i) ==>
                              !Live(snap.orders[i])
    ensures report.blocked
  {
    hide IsReport, Protects, Live, ActiveSetup, OpenAtBroker, Guarded;
    RowsOfReport(snap, g, parts, report);
    NotGuarded(snap, parts, symbol);
    if !report.blocked {
      UnblockedMeansCovered(snap, g, parts, report);
    }
  }

  lemma NotGuarded(snap: Snapshot, parts: Parts, symbol: string)
    requires |parts.setups| == |ActiveSetups(snap)|
    requires forall s, i :: ActiveSetup(snap, s) && Upper(s.setup.symbol) == symbol && Protects(snap, s, i) ==>
                              !Live(snap.orders[i])
    ensures !Guarded(snap, parts, symbol)
  {
    hide Protects, Live, ActiveSetup;
  }

  /** No symbol is named twice and none is blank. */
  ghost predicate OneEach(symbols: seq<string>) {
    (forall i :: 0 <= i < |symbols| ==> Strip(symbols[i]) != "")
    && forall i, j :: 0 <= i < j < |symbols| ==> Upper(symbols[i]) != Upper(symbols[j])
  }

  function BrokerSymbols(snap: Snapshot): seq<string> {
    seq(|snap.positions|, i requires 0 <= i < |snap.positions| => snap.positions[i].symbol)
  }

  function LocalSymbols(snap: Snapshot): seq<string> {
    seq(|snap.localPositions|, i requires 0 <= i < |snap.localPositions| => snap.localPositions[i].symbol)
  }

  /**
   With one named position for each symbol on either side, an unblocked report means: every open broker position belongs
   to an active setup, and every active setup has an open broker position exactly if it has an open local one.
   */
  lemma UnblockedPositions(snap: Snapshot, g: ReportSettings, parts: Parts, report: Report)
    requires IsReport(snap, g, parts, report) && g.guardMismatch && !report.blocked
    requires OneEach(BrokerSymbols(snap)) && OneEach(LocalSymbols(snap))
    ensures forall p :: p in snap.positions && p.quantity != 0 ==>
                          exists s :: ActiveSetup(snap, s) && Upper(s.setup.symbol) == Upper(p.symbol)
    ensures forall s :: ActiveSetup(snap, s) ==>
                          ((exists p :: p in snap.positions && p.quantity != 0 && Upper(p.symbol) == Upper(s.setup.symbol))
                           <==> exists p :: p in snap.localPositions && p.quantity != 0
                                            && Upper(p.symbol) == Upper(s.setup.symbol))
  {
    hide IsReport, ActiveSetup, OneEach, PositionFor, LocalPositionFor, Guarded, Accounts;
    assert SetupRowsOk(snap, parts.setups) by { RowsOfReport(snap, g, parts, report); }
    UnblockedMeansCovered(snap, g, parts, report);
    ActiveExactly(snap);
    forall symbol
      ensures OpenAtBroker(snap, symbol)
              <==> exists p :: p in snap.positions && p.quantity != 0 && Upper(p.symbol) == symbol
      ensures OpenLocally(snap, symbol)
              <==> exists p :: p in snap.localPositions && p.quantity != 0 && Upper(p.symbol) == symbol
    {
      OpenAtBrokerExactly(snap, symbol);
      OpenLocallyExactly(snap, symbol);
    }
    hide OpenAtBroker, OpenLocally;
    forall p | p in snap.positions && p.quantity != 0
      ensures exists s :: ActiveSetup(snap, s) && Upper(s.setup.symbol) == Upper(p.symbol)
    {
      assert OpenAtBroker(snap, Upper(p.symbol));
      GuardedIsTraded(snap, parts, Upper(p.symbol));
    }
    forall s | ActiveSetup(snap, s)
      ensures OpenAtBroker(snap, Upper(s.setup.symbol)) <==> OpenLocally(snap, Upper(s.setup.symbol))
    {
      assert s in ActiveSetups(snap);
      var k :| 0 <= k < |ActiveSetups(snap)| && ActiveSetups(snap)[k] == s;
    }
  }

  lemma RowsOfReport(snap: Snapshot, g: ReportSettings, parts: Parts, report: Report)
    requires IsReport(snap, g, parts, report)
    ensures SetupRowsOk(snap, parts.setups)
  {
  }

  lemma GuardedIsTraded(snap: Snapshot, parts: Parts, symbol: string)
    requires |parts.setups| == |ActiveSetups(snap)| && Guarded(snap, parts, symbol)
    ensures exists s :: ActiveSetup(snap, s) && Upper(s.setup.symbol) == symbol
  {
  }

  lemma OpenAtBrokerExactly(snap: Snapshot, symbol: string)
    requires OneEach(BrokerSymbols(snap))
    ensures OpenAtBroker(snap, symbol) <==> exists p :: p in snap.positions && p.quantity != 0 && Upper(p.symbol) == symbol
  {
    forall i | 0 <= i < |snap.positions|
      ensures PositionFor(snap.positions, Upper(snap.positions[i].symbol)) == Some(snap.positions[i])
    {
      assert forall j :: 0 <= j < |snap.positions| ==> snap.positions[j].symbol == BrokerSymbols(snap)[j];
      UniquePositions(snap.positions, i);
    }
  }

  lemma OpenLocallyExactly(snap: Snapshot, symbol: string)
    requires OneEach(LocalSymbols(snap))
    ensures OpenLocally(snap, symbol)
            <==> exists p :: p in snap.localPositions && p.quantity != 0 && Upper(p.symbol) == symbol
  {
    forall i | 0 <= i < |snap.localPositions|
      ensures LocalPositionFor(snap.localPositions, Upper(snap.localPositions[i].symbol)) == Some(snap.localPositions[i])
    {
      assert forall j :: 0 <= j < |snap.localPositions| ==> snap.localPositions[j].symbol == LocalSymbols(snap)[j];
      UniqueLocalPositions(snap.localPositions, i);
    }
  }

  lemma {:induction false} UniqueLocalPositions(positions: seq<PositionRow>, i: nat)
    requires i < |positions|
    requires forall j :: 0 <= j < |positions| ==> !Nameless(positions[j].symbol)
    requires forall j, k :: 0 <= j < k < |positions| ==> Upper(positions[j].symbol) != Upper(positions[k].symbol)
    ensures LocalPositionFor(positions, Upper(positions[i].symbol)) == Some(positions[i])
  {
    if i < |positions| - 1 {
      UniqueLocalPositions(positions[..|positions| - 1], i);
    }
  }

  lemma UsedAreAccounted(snap: Snapshot, parts: Parts)
    requires SetupRowsOk(snap, parts.setups)
    ensures forall i :: i in Used(parts.setups) ==> Accounts(snap, parts, i)
  {
    hide ActiveSetups, ActiveSetup, SetupRowOk, Enters, Protects;
    ActiveExactly(snap);
    forall k | 0 <= k < |parts.setups|
      ensures var s, row := ActiveSetups(snap)[k], parts.setups[k];
              ActiveSetup(snap, s) && (row.entry.Some? ==> Enters(snap, s, row.entry.value))
              && (row.stop.Some? ==> Protects(snap, s, row.stop.value))
    {
      var s, row := ActiveSetups(snap)[k], parts.setups[k];
      assert s in ActiveSetups(snap);
      if row.entry.Some? { MatchedEntryEnters(snap, s, row); }
      if row.stop.Some? { MatchedStopProtects(snap, s, row); }
    }
  }

  lemma RowsAreSound(snap: Snapshot, rows: seq<RealityRow>)
    requires SetupRowsOk(snap, rows) && CleanRows(rows)
    ensures forall k :: 0 <= k < |rows| ==> RowIsSound(snap, ActiveSetups(snap)[k], rows[k])
  {
    hide SetupRowOk, RowIsSound;
    forall k | 0 <= k < |rows| ensures RowIsSound(snap, ActiveSetups(snap)[k], rows[k]) {
      CleanIsSound(snap, ActiveSetups(snap)[k], rows[k]);
    }
  }

  lemma SoundRowsGuard(snap: Snapshot, parts: Parts)
    requires |parts.setups| == |ActiveSetups(snap)| && OrphanSymbols(snap) == {}
    requires forall k :: 0 <= k < |parts.setups| ==> RowIsSound(snap, ActiveSetups(snap)[k], parts.setups[k])
    ensures forall symbol :: OpenAtBroker(snap, symbol) ==> Guarded(snap, parts, symbol)
    ensures forall k :: 0 <= k < |parts.setups| ==>
                          var symbol := Upper(ActiveSetups(snap)[k].setup.symbol);
                          OpenAtBroker(snap, symbol) <==> OpenLocally(snap, symbol)
  {
    hide OpenLocally, Protects, Live;
    ActiveExactly(snap);
    forall symbol | OpenAtBroker(snap, symbol) ensures Guarded(snap, parts, symbol) {
      var k := TradedBy(snap, symbol);
      assert RowIsSound(snap, ActiveSetups(snap)[k], parts.setups[k]);
      assert ActiveSetups(snap)[k] in ActiveSetups(snap);
    }
    forall k | 0 <= k < |parts.setups|
      ensures var symbol := Upper(ActiveSetups(snap)[k].setup.symbol);
              OpenAtBroker(snap, symbol) <==> OpenLocally(snap, symbol)
    {
      assert RowIsSound(snap, ActiveSetups(snap)[k], parts.setups[k]);
    }
  }

  lemma TradedBy(snap: Snapshot, symbol: string) returns (k: nat)
    requires OrphanSymbols(snap) == {} && OpenAtBroker(snap, symbol)
    ensures k < |ActiveSetups(snap)| && Upper(ActiveSetups(snap)[k].setup.symbol) == symbol
  {
    var p := PositionFor(snap.positions, symbol).value;
    assert Upper(p.symbol) == symbol;
    assert symbol !in OrphanSymbols(snap);
    var s :| s in ActiveSetups(snap) && Upper(s.setup.symbol) == symbol;
    k :| 0 <= k < |ActiveSetups(snap)| && ActiveSetups(snap)[k] == s;
  }

  ghost predicate RowIsSound(snap: Snapshot, s: SetupRow, row: RealityRow) {
    var symbol := Upper(s.setup.symbol);
    && (OpenAtBroker(snap, symbol) <==> OpenLocally(snap, symbol))
    && (OpenAtBroker(snap, symbol) ==>
          row.stop.Some? && Protects(snap, s, row.stop.value) && Live(snap.orders[row.stop.value]))
  }

  lemma CleanIsSound(snap: Snapshot, s: SetupRow, row: RealityRow)
    requires SetupRowOk(snap, s, row) && row.reasons == []
    ensures RowIsSound(snap, s, row)
  {
    hide StateOf, EntryMatch, StopMatch, OpenLocally, LocalEntry, LocalStop, MismatchReasons, ProtectionOf, Live, Protects;
    CleanExactly(InputOf(snap, s), snap.orders, row.entry, row.stop);
    if row.stop.Some? { MatchedStopProtects(snap, s, row); }
  }

  /** Missing figures are passed over, and a sum is missing only if every figure is. */
  lemma {:induction false} SumSkips(values: seq<Option<int>>)
    ensures Sum(values).None? <==> forall k :: 0 <= k < |values| ==> values[k].None?
    ensures forall k :: 0 <= k < |values| && values[k].None? ==> Sum(values) == Sum(values[..k] + values[k + 1..])
  {
    if values != [] {
      var rest := values[1..];
      SumSkips(rest);
      forall k | 0 <= k < |values| && values[k].None?
        ensures Sum(values) == Sum(values[..k] + values[k + 1..])
      {
        var others := values[..k] + values[k + 1..];
        if k == 0 {
          assert others == rest;
        } else {
          assert rest[k - 1].None? && others[0] == values[0] && others[1..] == rest[..k - 1] + rest[k..];
        }
      }
    }
  }

  /** With named positions, one for each symbol, the symbol-wise statements speak of every single broker position. */
  lemma {:induction false} UniquePositions(positions: seq<LivePosition>, i: nat)
    requires i < |positions|
    requires forall j :: 0 <= j < |positions| ==> !Nameless(positions[j].symbol)
    requires forall j, k :: 0 <= j < k < |positions| ==> Upper(positions[j].symbol) != Upper(positions[k].symbol)
    ensures PositionFor(positions, Upper(positions[i].symbol)) == Some(positions[i])
  {
    if i < |positions| - 1 {
      UniquePositions(positions[..|positions| - 1], i);
    }
  }

  // --------------------------------------------------------- profit figures

  /** What a position is worth at its price, and what it cost. */
  ghost predicate Priced(p: LivePosition, price: int, cost: int) {
    ValuedAt(p, price) && p.averagePrice == Some(cost)
  }

  /** Worth minus cost of positions, at the given prices and costs. */
  function Gain(ps: seq<LivePosition>, prices: seq<int>, costs: seq<int>): int
    requires |ps| == |prices| == |costs|
  {
    if ps == [] then 0 else ps[0].quantity * prices[0] - ps[0].quantity * costs[0] + Gain(ps[1..], prices[1..], costs[1..])
  }

  lemma {:induction false} SumIsGain(ps: seq<LivePosition>, prices: seq<int>, costs: seq<int>)
    requires |ps| == |prices| == |costs|
    requires forall k :: 0 <= k < |ps| ==> ps[k].unrealizedPnl.None? && Priced(ps[k], prices[k], costs[k])
    ensures Sum(UnrealizedOfEach(ps)) == if ps == [] then None else Some(Gain(ps, prices, costs))
  {
    if ps != [] {
      SumIsGain(ps[1..], prices[1..], costs[1..]);
      var each := UnrealizedOfEach(ps);
      assert each[1..] == UnrealizedOfEach(ps[1..]);
      MarketPriceMeans(ps[0]);
      var q, price, cost := ps[0].quantity, prices[0], costs[0];
      assert (price - cost) * q == q * price - q * cost;
    }
  }

  /**
   The report's figures when every query succeeded: the account's own unrealized figure, and otherwise, for open positions
   that bring none of their own, what they are worth at their prices minus what they cost; and a total that is the
   unrealized and the realized figure together, as far as there are any.
   */
  lemma FiguresExactly(snap: Snapshot, prices: seq<int>, costs: seq<int>)
    requires snap.channels.accountOk && snap.account.Some?
    requires var open := Filter(IsOpen(), snap.positions);
             |open| == |prices| == |costs|
             && forall k :: 0 <= k < |open| ==> open[k].unrealizedPnl.None? && Priced(open[k], prices[k], costs[k])
    ensures var p, account, open := PnlOf(snap), snap.account.value, Filter(IsOpen(), snap.positions);
            && p.realized == account.realized
            && p.unrealized == (if account.unrealized.Some? then account.unrealized
                                else if open == [] then None else Some(Gain(open, prices, costs)))
            && (p.total.None? <==> p.unrealized.None? && p.realized.None?)
            && (p.unrealized.Some? && p.realized.Some? ==> p.total == Some(p.realized.value + p.unrealized.value))
            && (p.unrealized.Some? && p.realized.None? ==> p.total == p.unrealized)
            && (p.unrealized.None? && p.realized.Some? ==> p.total == p.realized)
  {
    hide UnrealizedOf, Sum, Gain, Filter;
    SumIsGain(Filter(IsOpen(), snap.positions), prices, costs);
  }

  /** The same symbols, linked to the same setups, open where the others are open. */
  ghost predicate SameOpenness(a: seq<PositionRow>, b: seq<PositionRow>) {
    forall symbol ::
      var p, q := LocalPositionFor(a, symbol), LocalPositionFor(b, symbol);
      p.Some? == q.Some?
      && (p.Some? ==> p.value.setupId == q.value.setupId && (p.value.quantity == 0 <==> q.value.quantity == 0))
  }

  /** Sizes are not compared: replacing the local sizes by any others, open where they were open, changes nothing. */
  lemma SizesAreNotCompared(snap: Snapshot, g: ReportSettings, parts: Parts, report: Report, other: seq<PositionRow>)
    requires IsReport(snap, g, parts, report) && SameOpenness(snap.localPositions, other)
    ensures IsReport(snap.(localPositions := other), g, parts, report)
  {
    hide SetupRowsOk, PositionRowsOk, SameOpenness, Freshened, Assembled;
    var snap' := snap.(localPositions := other);
    SetupRowsSame(snap, parts.setups, other);
    PositionRowsSame(snap, parts.positions, other);
    UnusedRowsSame(snap, snap', Used(parts.setups + parts.positions), |snap.orders|);
    AssembledSame(snap, g, parts.All(), other);
  }

  lemma AssembledSame(snap: Snapshot, g: ReportSettings, rows: seq<RealityRow>, other: seq<PositionRow>)
    ensures Assembled(snap.(localPositions := other), g, rows) == Assembled(snap, g, rows)
  {
  }

  /** One setup that reconciles a held position, its broker stop, and a local record of some other size. */
  function HeldSnapshot(atBroker: int, locally: int, now: int): Snapshot {
    var entry := EntryConfig(None, None, None, None, None);
    var setup := Setup("s1", "ABC", SetupConfig(true, None, false, Long, entry, None, None, None));
    var stop := BrokerOrder("stp_1", "ABC", Sell, StopMarket, atBroker, None, None, Some(9000), None, true, Submitted,
                            Some("1001"), None);
    Snapshot([SetupRow(setup, ReconcilingExistingPosition)], [],
             [PositionRow("ABC", "s1", locally, 10000, 10000, 0, Some(9000), 0, true)],
             [LiveOrder(stop, "SUBMITTED", "")],
             [LivePosition("ABC", atBroker, Some(10000), Some(10000), None, None, None)],
             None, true, Channels(true, true, true), now)
  }

  lemma HeldLookups(atBroker: int, locally: int, now: int)
    ensures var snap := HeldSnapshot(atBroker, locally, now);
            && ActiveSetups(snap) == snap.setups && Upper("ABC") == "ABC"
            && PositionFor(snap.positions, "ABC") == Some(snap.positions[0])
            && LocalPositionFor(snap.localPositions, "ABC") == Some(snap.localPositions[0])
            && LocalEntry(snap, snap.setups[0]) == None && LocalStop(snap, snap.setups[0]) == None
            && OrphanSymbols(snap) == {}
  {
    var snap := HeldSnapshot(atBroker, locally, now);
    StripKeepsTight("ABC");
    assert Upper("ABC") == "ABC";
    assert snap.setups[1..] == [] && snap.positions[..0] == [];
    assert ActiveSetups(snap) == snap.setups;
    assert snap.setups[0] in ActiveSetups(snap);
  }

  lemma HeldMatches(atBroker: int, locally: int, now: int)
    ensures var orders := HeldSnapshot(atBroker, locally, now).orders;
            && |orders| == 1 && Live(orders[0])
            && EntryMatch(None, orders, "ABC", Buy, None) && StopMatch(None, None, orders, "ABC", Sell, None, Some(0))
  {
    var orders := HeldSnapshot(atBroker, locally, now).orders;
    assert Upper("ABC") == "ABC";
    SubmittedIsLive(orders[0]);
    hide StateOf, ParentKeys, Live;
    assert EntryCandidates(orders, "ABC", Buy) == {};
    assert StopCandidates(orders, "ABC", Sell) == {0};
    assert StopChoice(orders, "ABC", Sell, ParentKeys(orders, None, None)) == {0};
  }

  lemma NotDown(o: LiveOrder)
    requires Live(o)
    ensures !TurnedDown(o)
  {
    hide Says;
    NotLive(o);
  }

  lemma HeldClean(atBroker: int, locally: int, now: int)
    requires atBroker != 0 && locally != 0
    ensures var snap := HeldSnapshot(atBroker, locally, now);
            MakeRow(InputOf(snap, snap.setups[0]), snap.orders, None, Some(0)).reasons == []
  {
    hide OrphanSymbols, ActiveSetups, LocalEntry, LocalStop, PositionFor, LocalPositionFor, MismatchReasons, ProtectionOf,
      StateOf, EntryMatch, StopMatch, Live, TurnedDown, MakeRow;
    var snap := HeldSnapshot(atBroker, locally, now);
    HeldLookups(atBroker, locally, now);
    HeldMatches(atBroker, locally, now);
    NotDown(snap.orders[0]);
    CleanExactly(InputOf(snap, snap.setups[0]), snap.orders, None, Some(0));
  }

  lemma HeldRow(atBroker: int, locally: int, now: int)
    requires atBroker != 0 && locally != 0
    ensures var snap := HeldSnapshot(atBroker, locally, now);
            var row := MakeRow(InputOf(snap, snap.setups[0]), snap.orders, None, Some(0));
            SetupRowOk(snap, snap.setups[0], row) && row.reasons == []
  {
    HeldLookups(atBroker, locally, now);
    HeldMatches(atBroker, locally, now);
    HeldClean(atBroker, locally, now);
    hide OrphanSymbols, ActiveSetups, LocalEntry, LocalStop, InputOf, EntryMatch, StopMatch;
  }

  function HeldParts(atBroker: int, locally: int, now: int): Parts {
    var snap := HeldSnapshot(atBroker, locally, now);
    Parts([MakeRow(InputOf(snap, snap.setups[0]), snap.orders, None, Some(0))], [], [])
  }

  function HeldReport(atBroker: int, locally: int, now: int, g: ReportSettings): Report {
    Freshened(Assembled(HeldSnapshot(atBroker, locally, now), g, HeldParts(atBroker, locally, now).All()), g, now)
  }

  lemma UsedByOne(row: RealityRow)
    requires row.entry == None && row.stop == Some(0)
    ensures Used([row]) == {0}
  {
    assert row in [row];
  }

  lemma HeldIsReport(atBroker: int, locally: int, now: int, g: ReportSettings)
    requires atBroker != 0 && locally != 0
    ensures var snap, parts := HeldSnapshot(atBroker, locally, now), HeldParts(atBroker, locally, now);
            && IsReport(snap, g, parts, HeldReport(atBroker, locally, now, g))
            && Used(parts.setups) == {0} && CleanRows(parts.setups) && OrphanSymbols(snap) == {}
  {
    hide HeldSnapshot, HeldParts, SetupRowOk, ActiveSetups, MakeRow, InputOf, Freshened, Assembled, PositionFor,
      LocalPositionFor, OrphanSymbols, LocalEntry, LocalStop, Used;
    var snap, parts := HeldSnapshot(atBroker, locally, now), HeldParts(atBroker, locally, now);
    HeldBasics(atBroker, locally, now);
    HeldLookups(atBroker, locally, now);
    HeldRow(atBroker, locally, now);
    UsedByOne(parts.setups[0]);
    assert parts.setups + parts.positions == parts.setups;
    assert parts.setups == [parts.setups[0]];
    UnusedRows(snap, Used(parts.setups), 1);
    assert SetupRowsOk(snap, parts.setups);
    assert PositionRowsOk(snap, []);
  }

  lemma HeldBasics(atBroker: int, locally: int, now: int)
    ensures var snap, parts := HeldSnapshot(atBroker, locally, now), HeldParts(atBroker, locally, now);
            && snap.connected && snap.channels == Channels(true, true, true) && |snap.orders| == 1
            && |snap.setups| == 1 && snap.now == now && |parts.setups| == 1 && parts.orders == [] && parts.positions == []
            && parts.setups[0] == MakeRow(InputOf(snap, snap.setups[0]), snap.orders, None, Some(0))
            && parts.setups[0].entry == None && parts.setups[0].stop == Some(0)
  {
  }

  lemma HeldUnblocked(atBroker: int, locally: int, now: int, g: ReportSettings)
    requires atBroker != 0 && locally != 0 && g.guardMismatch
    ensures !HeldReport(atBroker, locally, now, g).blocked
  {
    hide HeldSnapshot, HeldParts, HeldReport, IsReport, OrphanSymbols, CleanRows, Used;
    HeldBasics(atBroker, locally, now);
    HeldIsReport(atBroker, locally, now, g);
    var snap, parts := HeldSnapshot(atBroker, locally, now), HeldParts(atBroker, locally, now);
    UnblockedByParts(snap, g, parts, HeldReport(atBroker, locally, now, g));
    assert forall i :: 0 <= i < |snap.orders| ==> i in Used(parts.setups);
  }

  lemma HeldSizes(atBroker: int, locally: int, now: int)
    ensures var snap := HeldSnapshot(atBroker, locally, now);
            && PositionFor(snap.positions, "ABC").Some? && PositionFor(snap.positions, "ABC").value.quantity == atBroker
            && LocalPositionFor(snap.localPositions, "ABC").Some?
            && LocalPositionFor(snap.localPositions, "ABC").value.quantity == locally
  {
    HeldLookups(atBroker, locally, now);
    hide PositionFor, LocalPositionFor, OrphanSymbols, ActiveSetups, LocalEntry, LocalStop;
  }

  /**
   The failure at an input, for every pair of open sizes: an unblocked report over a position that the broker holds in
   one size and the engine believes to hold in another. It also shows an unblocked report that guards a held symbol.
   */
  lemma UnblockedWithAnySizes(atBroker: int, locally: int, now: int, g: ReportSettings)
    requires atBroker != 0 && locally != 0 && g.guardMismatch
    ensures var snap, parts := HeldSnapshot(atBroker, locally, now), HeldParts(atBroker, locally, now);
            var report := HeldReport(atBroker, locally, now, g);
            && IsReport(snap, g, parts, report) && !report.blocked
            && PositionFor(snap.positions, "ABC").Some? && PositionFor(snap.positions, "ABC").value.quantity == atBroker
            && LocalPositionFor(snap.localPositions, "ABC").Some?
            && LocalPositionFor(snap.localPositions, "ABC").value.quantity == locally
            && |parts.setups| == |ActiveSetups(snap)| && Guarded(snap, parts, "ABC")
  {
    HeldIsReport(atBroker, locally, now, g);
    HeldUnblocked(atBroker, locally, now, g);
    HeldSizes(atBroker, locally, now);
    hide HeldSnapshot, HeldParts, HeldReport, OrphanSymbols, PositionFor, LocalPositionFor, SetupRowOk, PositionRowsOk,
      ActiveSetups, Guarded, Accounts, OpenLocally, CleanRows, Used, UnusedOrderRows, Freshened, Assembled;
    var snap, parts := HeldSnapshot(atBroker, locally, now), HeldParts(atBroker, locally, now);
    UnblockedMeansCovered(snap, g, parts, HeldReport(atBroker, locally, now, g));
    assert OpenAtBroker(snap, "ABC");
  }

  lemma SetupRowsSame(snap: Snapshot, rows: seq<RealityRow>, other: seq<PositionRow>)
    requires SetupRowsOk(snap, rows) && SameOpenness(snap.localPositions, other)
    ensures SetupRowsOk(snap.(localPositions := other), rows)
  {
    var snap' := snap.(localPositions := other);
    assert ActiveSetups(snap') == ActiveSetups(snap);
    hide SetupRowOk, SameOpenness;
    forall k | 0 <= k < |rows| ensures SetupRowOk(snap', ActiveSetups(snap)[k], rows[k]) {
      SetupRowSame(snap, other, ActiveSetups(snap)[k], rows[k]);
    }
  }

  lemma PositionRowsSame(snap: Snapshot, rows: seq<RealityRow>, other: seq<PositionRow>)
    requires PositionRowsOk(snap, rows) && SameOpenness(snap.localPositions, other)
    ensures PositionRowsOk(snap.(localPositions := other), rows)
  {
    var snap' := snap.(localPositions := other);
    OrphansSame(snap, other);
    hide PositionRowOk, SameOpenness, OrphanSymbols;
    forall k | 0 <= k < |rows| ensures PositionRowOk(snap', rows[k].symbol, rows[k]) {
      PositionRowSame(snap, other, rows[k].symbol, rows[k]);
    }
  }

  lemma OrphansSame(snap: Snapshot, other: seq<PositionRow>)
    ensures OrphanSymbols(snap.(localPositions := other)) == OrphanSymbols(snap)
  {
    var snap' := snap.(localPositions := other);
    assert ActiveSetups(snap') == ActiveSetups(snap);
    assert forall symbol :: OpenAtBroker(snap', symbol) == OpenAtBroker(snap, symbol);
  }

  lemma SetupRowSame(snap: Snapshot, other: seq<PositionRow>, s: SetupRow, row: RealityRow)
    requires SetupRowOk(snap, s, row) && SameOpenness(snap.localPositions, other)
    ensures SetupRowOk(snap.(localPositions := other), s, row)
  {
    var snap' := snap.(localPositions := other);
    var symbol := Upper(s.setup.symbol);
    var p, q := LocalPositionFor(snap.localPositions, symbol), LocalPositionFor(other, symbol);
    assert p.Some? == q.Some? && (p.Some? ==> (p.value.quantity == 0 <==> q.value.quantity == 0));
    assert OpenLocally(snap', symbol) == OpenLocally(snap, symbol);
    assert OwnOrders(snap', s) == OwnOrders(snap, s);
    hide SameOpenness, OpenLocally;
    assert InputOf(snap', s) == InputOf(snap, s);
    hide InputOf, MakeRow, EntryMatch, StopMatch;
  }

  lemma PositionRowSame(snap: Snapshot, other: seq<PositionRow>, symbol: string, row: RealityRow)
    requires PositionRowOk(snap, symbol, row) && SameOpenness(snap.localPositions, other)
    ensures PositionRowOk(snap.(localPositions := other), symbol, row)
  {
    var p, q := LocalPositionFor(snap.localPositions, symbol), LocalPositionFor(other, symbol);
    assert p.Some? == q.Some?
           && (p.Some? ==> p.value.setupId == q.value.setupId && (p.value.quantity == 0 <==> q.value.quantity == 0));
    hide SameOpenness, EntryMatch, StopMatch, StateOf, LocalPositionFor;
  }

  lemma {:induction false} UnusedRowsSame(a: Snapshot, b: Snapshot, used: set<nat>, n: nat)
    requires a.orders == b.orders && a.connected == b.connected && a.now == b.now && n <= |a.orders|
    ensures UnusedOrderRows(a, used, n) == UnusedOrderRows(b, used, n)
  {
    if n > 0 { UnusedRowsSame(a, b, used, n - 1); }
  }
}
