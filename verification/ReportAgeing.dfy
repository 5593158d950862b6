/**
 The stored broker-reality report and its ageing: each reader re-derives status, blocking reasons and totals from the
 stored rows and the time that has passed. Times are microseconds, ages whole seconds.
 */
module ReportAgeing {
  import opened Common
  import opened Models
  import opened BrokerReality

  datatype Blocking =
    | BlockDisconnected
    | UnprotectedEntry
    | UnprotectedPosition
    | ReconciliationMismatch
    | OrderRejectedByTws
    | OrdersQueryFailed
    | PositionsQueryFailed
    | AccountQueryFailed
    | TrackerStale
    | TrackerNotRunning

  datatype ReportSettings = ReportSettings(
    trackerEnabled: bool,
    refreshSeconds: nat,
    staleAfter: nat,
    blockIfMissing: bool,
    blockIfStale: bool,
    guardTracker: bool,
    guardUnprotectedOrder: bool,
    guardUnprotectedPosition: bool,
    guardMismatch: bool)

  datatype Channels = Channels(ordersOk: bool, positionsOk: bool, accountOk: bool)

  datatype PnlSync = SyncOk | SyncStale | SyncUnavailable | SyncError | SyncTracker(status: TrackerStatus)

  datatype PnlReason = NoRecentSnapshot | AccountFailed | TrackerIs(status: TrackerStatus)

  datatype Pnl = Pnl(
    daily: Option<int>,
    unrealized: Option<int>,
    realized: Option<int>,
    total: Option<int>,
    lastUpdate: Option<int>,
    ok: bool,
    sync: PnlSync,
    reason: Option<PnlReason>,
    warning: bool,
    age: Option<int>)

  datatype RiskReason = NoReason | PositionWithoutStop | EntryWithoutStop | MissingPriceOrStop

  datatype RiskSummary = RiskSummary(
    total: Option<int>,
    reason: RiskReason,
    unprotectedPositions: nat,
    unprotectedOrders: nat,
    activeStops: nat)

  /** `hasSync`: a synchronisation time is stored; `syncAt`: that time, if it can be read. */
  datatype Report = Report(
    status: Option<TrackerStatus>,
    hasSync: bool,
    syncAt: Option<int>,
    syncAge: Option<int>,
    staleAfter: nat,
    refreshSeconds: nat,
    connected: bool,
    channels: Option<Channels>,
    blocked: bool,
    reasons: seq<Blocking>,
    mismatches: nat,
    criticals: nat,
    risk: RiskSummary,
    rows: seq<RealityRow>,
    pnl: Option<Pnl>)

  // ------------------------------------------------------ totals over rows

  function Count(p: RealityRow -> bool, rows: seq<RealityRow>): nat {
    if rows == [] then 0 else Count(p, rows[..|rows| - 1]) + (if p(rows[|rows| - 1]) then 1 else 0)
  }

  function StopWorks(): RealityRow -> bool {
    (row: RealityRow) => Working(row.stopStatus)
  }

  function PositionBare(): RealityRow -> bool {
    (row: RealityRow) => row.protection == PositionStopMissingCritical
  }

  function EntryBare(): RealityRow -> bool {
    (row: RealityRow) => row.protection == EntryWithoutStopCritical
  }

  function RiskUnknown(): RealityRow -> bool {
    (row: RealityRow) => row.riskStatus == UnknownCritical || row.riskStatus == UnknownPrice
  }

  function Mismatched(): RealityRow -> bool {
    (row: RealityRow) => row.reasons != []
  }

  function IsCritical(): RealityRow -> bool {
    (row: RealityRow) => row.critical
  }

  function TotalRisk(rows: seq<RealityRow>): int {
    if rows == [] then 0
    else
      var last := rows[|rows| - 1];
      TotalRisk(rows[..|rows| - 1]) + (if RiskUnknown()(last) then 0 else last.remainingRisk.GetOr(0))
  }

  function Summary(rows: seq<RealityRow>): RiskSummary {
    var positions, entries := Count(PositionBare(), rows), Count(EntryBare(), rows);
    var reason := if positions > 0 then PositionWithoutStop
                  else if entries > 0 then EntryWithoutStop
                  else if Count(RiskUnknown(), rows) > 0 then MissingPriceOrStop
                  else NoReason;
    RiskSummary(if reason == NoReason then Some(TotalRisk(rows)) else None, reason, positions, entries,
                Count(StopWorks(), rows))
  }

  // -------------------------------------------------------- blocking reasons

  function Dedupe(items: seq<Blocking>): (r: seq<Blocking>)
    ensures forall x :: x in r <==> x in items
  {
    if items == [] then []
    else
      var init, last := Dedupe(items[..|items| - 1]), items[|items| - 1];
      assert items == items[..|items| - 1] + [last];
      if last in init then init else init + [last]
  }

  function IfSo(condition: bool, reason: Blocking): seq<Blocking> {
    if condition then [reason] else []
  }

  function RowBlocking(g: ReportSettings, row: RealityRow): seq<Blocking> {
    IfSo(g.guardUnprotectedOrder && row.protection == EntryWithoutStopCritical, UnprotectedEntry)
    + IfSo(g.guardUnprotectedPosition && row.protection == PositionStopMissingCritical, UnprotectedPosition)
    + IfSo(g.guardMismatch && row.reasons != [], ReconciliationMismatch)
    + IfSo(Refused(row.entryStatus), OrderRejectedByTws)
  }

  function RowsBlocking(g: ReportSettings, rows: seq<RealityRow>): seq<Blocking> {
    if rows == [] then [] else RowsBlocking(g, rows[..|rows| - 1]) + RowBlocking(g, rows[|rows| - 1])
  }

  function GlobalBlocking(g: ReportSettings, rows: seq<RealityRow>, connected: bool): seq<Blocking> {
    Dedupe(IfSo(!connected, BlockDisconnected) + RowsBlocking(g, rows))
  }

  function ChannelBlocking(c: Option<Channels>): seq<Blocking> {
    if c.None? then []
    else IfSo(!c.value.ordersOk, OrdersQueryFailed) + IfSo(!c.value.positionsOk, PositionsQueryFailed)
         + IfSo(!c.value.accountOk, AccountQueryFailed)
  }

  function TrackerBlocking(g: ReportSettings, status: TrackerStatus): seq<Blocking> {
    IfSo(status == Stale && g.blockIfStale && g.guardTracker, TrackerStale)
    + IfSo(status == NotRunning && g.blockIfMissing && g.guardTracker, TrackerNotRunning)
    + IfSo(status == Disconnected, BlockDisconnected)
  }

  // ---------------------------------------------------------------- ageing

  /** Whole seconds since the synchronisation, never negative; absent when that time cannot be read. */
  function AgeSeconds(syncAt: Option<int>, now: int): Option<int> {
    if syncAt.None? then None else Some(Max(if now < syncAt.value then 0 else (now - syncAt.value) / 1_000_000, 0))
  }

  function StatusAt(r: Report, g: ReportSettings, now: int): TrackerStatus {
    var age := AgeSeconds(r.syncAt, now);
    if !g.trackerEnabled then TrackerDisabled
    else if !r.connected || r.status == Some(Disconnected) then Disconnected
    else if age.None? then NotRunning
    else if age.value > g.staleAfter then Stale
    else TrackerOk
  }

  function AgedRow(row: RealityRow, status: TrackerStatus, age: Option<int>, syncAt: Option<int>): RealityRow {
    row.(syncStatus := status, syncAge := age, syncAt := syncAt, staleWarning := row.staleWarning || status == Stale)
  }

  function AgedRows(rows: seq<RealityRow>, status: TrackerStatus, age: Option<int>, syncAt: Option<int>)
    : (aged: seq<RealityRow>)
    ensures |aged| == |rows|
  {
    seq(|rows|, i requires 0 <= i < |rows| => AgedRow(rows[i], status, age, syncAt))
  }

  function AgedPnl(p: Pnl, status: TrackerStatus, age: Option<int>): Pnl {
    if status == TrackerOk && (p.daily.Some? || p.unrealized.Some? || p.realized.Some?)
    then p.(age := age, ok := true, sync := SyncOk, reason := None, warning := false)
    else p.(age := age, ok := false, sync := if status == TrackerOk then SyncStale else SyncTracker(status),
            reason := Some(if status == TrackerOk then NoRecentSnapshot else TrackerIs(status)), warning := true)
  }

  function Freshened(r: Report, g: ReportSettings, now: int): Report {
    var status, age := StatusAt(r, g, now), AgeSeconds(r.syncAt, now);
    var rows := AgedRows(r.rows, status, age, r.syncAt);
    var reasons := Dedupe(GlobalBlocking(g, rows, r.connected) + ChannelBlocking(r.channels) + TrackerBlocking(g, status));
    Report(Some(status), r.hasSync, r.syncAt, age, g.staleAfter, g.refreshSeconds, r.connected, r.channels,
           reasons != [], reasons, Count(Mismatched(), rows), Count(IsCritical(), rows), Summary(rows), rows,
           if r.pnl.Some? then Some(AgedPnl(r.pnl.value, status, age)) else None)
  }

  // ------------------------------------------------- the same, step by step

  method DedupeLoop(items: seq<Blocking>) returns (result: seq<Blocking>)
    ensures result == Dedupe(items)
  {
    result := [];
    var seen: set<Blocking> := {};
    var i := 0;
    while i < |items|
      invariant 0 <= i <= |items|
      invariant result == Dedupe(items[..i])
      invariant forall x :: x in seen <==> x in result
    {
      assert items[..i + 1][..i] == items[..i];
      if items[i] !in seen {
        seen := seen + {items[i]};
        result := result + [items[i]];
      }
      i := i + 1;
    }
    assert items[..i] == items;
  }

  method RowBlockingStep(g: ReportSettings, row: RealityRow) returns (reasons: seq<Blocking>)
    ensures reasons == RowBlocking(g, row)
  {
    reasons := [];
    if g.guardUnprotectedOrder && row.protection == EntryWithoutStopCritical {
      reasons := reasons + [UnprotectedEntry];
    }
    if g.guardUnprotectedPosition && row.protection == PositionStopMissingCritical {
      reasons := reasons + [UnprotectedPosition];
    }
    if g.guardMismatch && row.reasons != [] {
      reasons := reasons + [ReconciliationMismatch];
    }
    if Refused(row.entryStatus) {
      reasons := reasons + [OrderRejectedByTws];
    }
  }

  method GlobalBlockingLoop(g: ReportSettings, rows: seq<RealityRow>, connected: bool) returns (reasons: seq<Blocking>)
    ensures reasons == GlobalBlocking(g, rows, connected)
  {
    hide RowBlocking, Dedupe;
    reasons := [];
    if !connected {
      reasons := reasons + [BlockDisconnected];
    }
    var i := 0;
    while i < |rows|
      invariant 0 <= i <= |rows|
      invariant reasons == IfSo(!connected, BlockDisconnected) + RowsBlocking(g, rows[..i])
    {
      assert rows[..i + 1][..i] == rows[..i];
      var own := RowBlockingStep(g, rows[i]);
      reasons := reasons + own;
      i := i + 1;
    }
    assert rows[..i] == rows;
    reasons := DedupeLoop(reasons);
  }

  method SummaryLoop(rows: seq<RealityRow>) returns (summary: RiskSummary)
    ensures summary == Summary(rows)
  {
    var total, unknown, positions, entries, stops := 0, 0, 0, 0, 0;
    var i := 0;
    while i < |rows|
      invariant 0 <= i <= |rows|
      invariant total == TotalRisk(rows[..i]) && unknown == Count(RiskUnknown(), rows[..i])
      invariant positions == Count(PositionBare(), rows[..i]) && entries == Count(EntryBare(), rows[..i])
      invariant stops == Count(StopWorks(), rows[..i])
    {
      assert rows[..i + 1][..i] == rows[..i];
      var row := rows[i];
      if Working(row.stopStatus) {
        stops := stops + 1;
      }
      if row.protection == PositionStopMissingCritical {
        positions := positions + 1;
      }
      if row.protection == EntryWithoutStopCritical {
        entries := entries + 1;
      }
      if row.riskStatus == UnknownCritical || row.riskStatus == UnknownPrice {
        unknown := unknown + 1;
      } else if row.remainingRisk.Some? {
        total := total + row.remainingRisk.value;
      }
      i := i + 1;
    }
    assert rows[..i] == rows;
    if unknown > 0 || positions > 0 || entries > 0 {
      summary := RiskSummary(None, if positions > 0 then PositionWithoutStop
                                   else if entries > 0 then EntryWithoutStop
                                   else MissingPriceOrStop, positions, entries, stops);
    } else {
      summary := RiskSummary(Some(total), NoReason, positions, entries, stops);
    }
  }

  method CountLoop(p: RealityRow -> bool, rows: seq<RealityRow>) returns (n: nat)
    ensures n == Count(p, rows)
  {
    n := 0;
    for i := 0 to |rows|
      invariant n == Count(p, rows[..i])
    {
      assert rows[..i + 1][..i] == rows[..i];
      if p(rows[i]) {
        n := n + 1;
      }
    }
    assert rows[..|rows|] == rows;
  }

  method AgeRows(stored: seq<RealityRow>, status: TrackerStatus, age: Option<int>, syncAt: Option<int>)
    returns (rows: seq<RealityRow>)
    ensures rows == AgedRows(stored, status, age, syncAt)
  {
    rows := stored;
    var i := 0;
    while i < |rows|
      invariant 0 <= i <= |rows| == |stored|
      invariant forall j :: 0 <= j < i ==> rows[j] == AgedRow(stored[j], status, age, syncAt)
      invariant forall j :: i <= j < |rows| ==> rows[j] == stored[j]
    {
      var row := rows[i].(syncStatus := status, syncAge := age, syncAt := syncAt);
      if status == Stale {
        row := row.(staleWarning := true);
      }
      rows := rows[i := row];
      i := i + 1;
    }
  }

  method TrackerStatusNow(report: Report, g: ReportSettings, now: int) returns (status: TrackerStatus)
    ensures status == StatusAt(report, g, now)
  {
    var age := AgeSeconds(report.syncAt, now);
    var stale := g.trackerEnabled && report.connected && age.Some? && age.value > g.staleAfter;
    if !g.trackerEnabled {
      status := TrackerDisabled;
    } else if !report.connected || report.status == Some(Disconnected) {
      status := Disconnected;
    } else if age.None? {
      status := NotRunning;
    } else if stale {
      status := Stale;
    } else {
      status := TrackerOk;
    }
  }

  /** Ages a copy of a stored report. */
  method Freshen(report: Report, g: ReportSettings, now: int) returns (current: Report)
    ensures current == Freshened(report, g, now)
  {
    hide StatusAt, AgeSeconds, Dedupe, GlobalBlocking, ChannelBlocking, TrackerBlocking, Summary, Count, AgedRows, AgedPnl;
    var age := AgeSeconds(report.syncAt, now);
    var status := TrackerStatusNow(report, g, now);
    var rows := AgeRows(report.rows, status, age, report.syncAt);
    var pnl := if report.pnl.Some? then Some(AgedPnl(report.pnl.value, status, age)) else None;
    var summary := SummaryLoop(rows);
    var reasons := GlobalBlockingLoop(g, rows, report.connected);
    reasons := reasons + ChannelBlocking(report.channels) + TrackerBlocking(g, status);
    reasons := DedupeLoop(reasons);
    var mismatches := CountLoop(Mismatched(), rows);
    var criticals := CountLoop(IsCritical(), rows);
    current := Report(Some(status), report.hasSync, report.syncAt, age, g.staleAfter, g.refreshSeconds, report.connected,
                      report.channels, reasons != [], reasons, mismatches, criticals, summary, rows, pnl);
  }

  // ------------------------------------------------------------------ laws

  lemma {:induction false} CountPointwise(p: RealityRow -> bool, a: seq<RealityRow>, b: seq<RealityRow>)
    requires |a| == |b| && forall i :: 0 <= i < |a| ==> p(a[i]) == p(b[i])
    ensures Count(p, a) == Count(p, b)
  {
    if a != [] { CountPointwise(p, a[..|a| - 1], b[..|b| - 1]); }
  }

  /** Ageing rows leaves alone everything that blocking reasons and totals are derived from. */
  lemma {:induction false} AgeingKeepsReasons(rows: seq<RealityRow>, g: ReportSettings, status: TrackerStatus,
                                              age: Option<int>, syncAt: Option<int>)
    ensures RowsBlocking(g, AgedRows(rows, status, age, syncAt)) == RowsBlocking(g, rows)
    ensures TotalRisk(AgedRows(rows, status, age, syncAt)) == TotalRisk(rows)
  {
    if rows != [] {
      var init := rows[..|rows| - 1];
      AgeingKeepsReasons(init, g, status, age, syncAt);
      AgedRowBlocks(rows[|rows| - 1], g, status, age, syncAt);
      hide RowBlocking;
      var aged := AgedRows(rows, status, age, syncAt);
      assert aged[..|aged| - 1] == AgedRows(init, status, age, syncAt);
    }
  }

  lemma AgedRowBlocks(row: RealityRow, g: ReportSettings, status: TrackerStatus, age: Option<int>, syncAt: Option<int>)
    ensures RowBlocking(g, AgedRow(row, status, age, syncAt)) == RowBlocking(g, row)
  {
  }

  lemma AgeingKeepsTotals(rows: seq<RealityRow>, g: ReportSettings, status: TrackerStatus, age: Option<int>,
                          syncAt: Option<int>)
    ensures var aged := AgedRows(rows, status, age, syncAt);
            && Summary(aged) == Summary(rows) && Count(Mismatched(), aged) == Count(Mismatched(), rows)
            && Count(IsCritical(), aged) == Count(IsCritical(), rows)
  {
    var aged := AgedRows(rows, status, age, syncAt);
    AgeingKeepsReasons(rows, g, status, age, syncAt);
    CountPointwise(StopWorks(), aged, rows);
    CountPointwise(PositionBare(), aged, rows);
    CountPointwise(EntryBare(), aged, rows);
    CountPointwise(RiskUnknown(), aged, rows);
    CountPointwise(Mismatched(), aged, rows);
    CountPointwise(IsCritical(), aged, rows);
  }

  lemma GlobalIsStable(r: Report, g: ReportSettings, now: int)
    ensures GlobalBlocking(g, Freshened(r, g, now).rows, r.connected) == GlobalBlocking(g, r.rows, r.connected)
  {
    AgeingKeepsReasons(r.rows, g, StatusAt(r, g, now), AgeSeconds(r.syncAt, now), r.syncAt);
  }

  /** Where the blocking reasons of a reading come from: rows, channels, and the tracker's status at that time. */
  lemma ReasonsAt(r: Report, g: ReportSettings, now: int)
    ensures var f := Freshened(r, g, now);
            && (f.blocked <==> f.reasons != [])
            && forall b :: b in f.reasons <==> b in GlobalBlocking(g, r.rows, r.connected)
                                               || b in ChannelBlocking(r.channels)
                                               || b in TrackerBlocking(g, StatusAt(r, g, now))
  {
    GlobalIsStable(r, g, now);
  }

  lemma BlockedExactly(r: Report, g: ReportSettings, now: int)
    ensures Freshened(r, g, now).blocked
            <==> GlobalBlocking(g, r.rows, r.connected) != [] || ChannelBlocking(r.channels) != []
                 || TrackerBlocking(g, StatusAt(r, g, now)) != []
  {
    ReasonsAt(r, g, now);
    var reasons := Freshened(r, g, now).reasons;
    var global, channel, tracker :=
      GlobalBlocking(g, r.rows, r.connected), ChannelBlocking(r.channels), TrackerBlocking(g, StatusAt(r, g, now));
    hide *;
    assert global != [] ==> global[0] in reasons;
    assert channel != [] ==> channel[0] in reasons;
    assert tracker != [] ==> tracker[0] in reasons;
    assert reasons != [] ==> reasons[0] in reasons;
  }

  lemma AgeGrows(syncAt: Option<int>, t1: int, t2: int)
    requires t1 <= t2
    ensures AgeSeconds(syncAt, t1).Some? <==> syncAt.Some?
    ensures AgeSeconds(syncAt, t2).Some? <==> syncAt.Some?
    ensures syncAt.Some? ==> AgeSeconds(syncAt, t1).value <= AgeSeconds(syncAt, t2).value
  {
  }

  lemma StatusOnlyWorsens(r: Report, g: ReportSettings, t1: int, t2: int)
    requires t1 <= t2
    ensures StatusAt(r, g, t1) == StatusAt(r, g, t2) || (StatusAt(r, g, t1) == TrackerOk && StatusAt(r, g, t2) == Stale)
  {
    AgeGrows(r.syncAt, t1, t2);
  }

  /** A report freshened before answers as the original would. */
  lemma StatusIsStable(r: Report, g: ReportSettings, t1: int, t2: int)
    ensures StatusAt(Freshened(r, g, t1), g, t2) == StatusAt(r, g, t2)
  {
  }

  /** A warning that was set is never taken back: the one trace an intermediate reading can leave. */
  ghost predicate LeavesTrace(r: Report, g: ReportSettings, t1: int, t2: int) {
    && StatusAt(r, g, t1) == Stale && StatusAt(r, g, t2) != Stale
    && exists i :: 0 <= i < |r.rows| && !r.rows[i].staleWarning
  }

  lemma RowsAgeTwice(rows: seq<RealityRow>, s1: TrackerStatus, s2: TrackerStatus, age1: Option<int>, age2: Option<int>,
                     syncAt: Option<int>)
    ensures AgedRows(AgedRows(rows, s1, age1, syncAt), s2, age2, syncAt) == AgedRows(rows, s2, age2, syncAt)
            <==> !(s1 == Stale && s2 != Stale && exists i :: 0 <= i < |rows| && !rows[i].staleWarning)
  {
    var once, twice := AgedRows(rows, s2, age2, syncAt), AgedRows(AgedRows(rows, s1, age1, syncAt), s2, age2, syncAt);
    forall i | 0 <= i < |rows| ensures twice[i] == once[i] <==> !(s1 == Stale && s2 != Stale && !rows[i].staleWarning) {
      assert once[i] == AgedRow(rows[i], s2, age2, syncAt);
    }
    if i :| 0 <= i < |rows| && s1 == Stale && s2 != Stale && !rows[i].staleWarning {
      assert twice[i] != once[i];
    }
  }

  /**
   Ageing, exactly: for any stored report and any two readings under the same settings, reading at `t1` and then at
   `t2` gives the report that one reading at `t2` gives, unless the first found the report stale, the second does
   not, and there was a row to warn on.
   */
  lemma AgeingExactly(r: Report, g: ReportSettings, t1: int, t2: int)
    ensures Freshened(Freshened(r, g, t1), g, t2) == Freshened(r, g, t2) <==> !LeavesTrace(r, g, t1, t2)
  {
    StatusIsStable(r, g, t1, t2);
    RowsAgeTwice(r.rows, StatusAt(r, g, t1), StatusAt(r, g, t2), AgeSeconds(r.syncAt, t1), AgeSeconds(r.syncAt, t2),
                 r.syncAt);
    hide StatusAt, AgeSeconds, AgedRows, AgedPnl;
    if r.pnl.Some? { PnlAgesTwice(r, g, t1, t2); }
  }

  lemma PnlAgesTwice(r: Report, g: ReportSettings, t1: int, t2: int)
    requires r.pnl.Some?
    ensures var status, age := StatusAt(r, g, t2), AgeSeconds(r.syncAt, t2);
            AgedPnl(Freshened(r, g, t1).pnl.value, status, age) == AgedPnl(r.pnl.value, status, age)
  {
    hide StatusAt, AgeSeconds, AgedRows, GlobalBlocking, ChannelBlocking, TrackerBlocking, Summary, Count, Dedupe;
  }

  /** Forward in time the law always holds; in particular freshening twice at one moment changes nothing more. */
  lemma AgeingLaw(r: Report, g: ReportSettings, t1: int, t2: int)
    requires t1 <= t2
    ensures Freshened(Freshened(r, g, t1), g, t2) == Freshened(r, g, t2)
  {
    AgeingExactly(r, g, t1, t2);
    StatusOnlyWorsens(r, g, t1, t2);
  }

  /** Every reason that blocks at `t1` still blocks at any later time. */
  lemma ReasonsOnlyGrow(r: Report, g: ReportSettings, t1: int, t2: int)
    requires t1 <= t2
    ensures forall b :: b in Freshened(r, g, t1).reasons ==> b in Freshened(r, g, t2).reasons
    ensures Freshened(r, g, t1).blocked ==> Freshened(r, g, t2).blocked
  {
    ReasonsAt(r, g, t1);
    ReasonsAt(r, g, t2);
    StatusOnlyWorsens(r, g, t1, t2);
    hide Freshened, StatusAt;
    if Freshened(r, g, t1).blocked {
      assert Freshened(r, g, t1).reasons[0] in Freshened(r, g, t2).reasons;
    }
  }

  /** Backwards the law can fail: a reading after the report went stale marks its rows for good. */
  lemma AgeingBackwards(r: Report, g: ReportSettings)
    requires g.trackerEnabled && r.connected && r.status != Some(Disconnected) && r.syncAt.Some?
    requires r.rows != [] && !r.rows[0].staleWarning
    ensures var late := r.syncAt.value + (g.staleAfter + 1) * 1_000_000;
            Freshened(Freshened(r, g, late), g, r.syncAt.value) != Freshened(r, g, r.syncAt.value)
  {
    AgeingExactly(r, g, r.syncAt.value + (g.staleAfter + 1) * 1_000_000, r.syncAt.value);
    hide Freshened;
  }

  // ------------------------------------------------------------- the gate

  /** The reasons an entry is refused for, read from whatever report is stored. */
  function GateReasons(stored: Option<Report>, g: ReportSettings, now: int): seq<Blocking> {
    if !g.trackerEnabled then []
    else if stored.None? || !stored.value.hasSync then
      (if g.blockIfStale && g.guardTracker then [TrackerNotRunning] else [])
    else Freshened(stored.value, g, now).reasons
  }

  /** Without a new report the gate never reopens: what it refused for it goes on refusing for. */
  lemma GateNeverReopens(stored: Option<Report>, g: ReportSettings, t1: int, t2: int)
    requires t1 <= t2
    ensures forall b :: b in GateReasons(stored, g, t1) ==> b in GateReasons(stored, g, t2)
    ensures GateReasons(stored, g, t1) != [] ==> GateReasons(stored, g, t2) != []
  {
    if stored.Some? {
      ReasonsOnlyGrow(stored.value, g, t1, t2);
    }
  }

  /** An enabled, guarded tracker lets nothing pass once the report is older than allowed or its time cannot be read. */
  lemma StaleReportBlocks(r: Report, g: ReportSettings, now: int)
    requires g.trackerEnabled && g.blockIfStale && g.blockIfMissing && g.guardTracker
    requires r.syncAt.None? || now - r.syncAt.value >= (g.staleAfter + 1) * 1_000_000
    ensures GateReasons(Some(r), g, now) != []
  {
    if r.hasSync {
      var status := StatusAt(r, g, now);
      assert status == Stale || status == NotRunning || status == Disconnected;
      var b := if status == Stale then TrackerStale
               else if status == NotRunning then TrackerNotRunning
               else BlockDisconnected;
      ReasonsAt(r, g, now);
      assert b in TrackerBlocking(g, status);
      assert b in Freshened(r, g, now).reasons;
    }
  }

  /**
   Without a readable time the two settings part: a report that stores none is refused under the stale setting, one
   whose time cannot be read under the missing setting.
   */
  lemma UnreadableTime(r: Report, g: ReportSettings, now: int)
    requires g.trackerEnabled && g.guardTracker && r.syncAt.None? && r.connected && r.status != Some(Disconnected)
    ensures !r.hasSync ==> (TrackerNotRunning in GateReasons(Some(r), g, now) <==> g.blockIfStale)
    ensures r.hasSync ==> (TrackerNotRunning in GateReasons(Some(r), g, now) <==> g.blockIfMissing)
  {
    ReasonsAt(r, g, now);
    NeverGlobal(g, r.rows, r.connected);
    hide Freshened, GlobalBlocking;
  }

  lemma {:induction false} NeverInRows(g: ReportSettings, rows: seq<RealityRow>)
    ensures TrackerNotRunning !in RowsBlocking(g, rows)
  {
    if rows != [] { NeverInRows(g, rows[..|rows| - 1]); }
  }

  /** No row gives the tracker's reason. */
  lemma NeverGlobal(g: ReportSettings, rows: seq<RealityRow>, connected: bool)
    ensures TrackerNotRunning !in GlobalBlocking(g, rows, connected)
  {
    NeverInRows(g, rows);
  }

  // ------------------------------------------------------ when the gate opens

  /** A row that is guarded against: an entry or a position without its stop, a mismatch, or an entry turned down. */
  predicate Objectionable(g: ReportSettings, row: RealityRow) {
    || (g.guardUnprotectedOrder && row.protection == EntryWithoutStopCritical)
    || (g.guardUnprotectedPosition && row.protection == PositionStopMissingCritical)
    || (g.guardMismatch && row.reasons != [])
    || row.entryStatus in {OrderRejected, InactiveOrRejected}
  }

  /** The time of the report is usable: readable and at most so many whole seconds old, each as far as it is guarded. */
  predicate RecentEnough(r: Report, g: ReportSettings, now: int) {
    match r.syncAt
    case None => !(g.blockIfMissing && g.guardTracker)
    case Some(at) => now - at < (g.staleAfter + 1) * 1_000_000 || !(g.blockIfStale && g.guardTracker)
  }

  lemma {:induction false} RowsObject(g: ReportSettings, rows: seq<RealityRow>)
    ensures RowsBlocking(g, rows) == [] <==> forall k :: 0 <= k < |rows| ==> !Objectionable(g, rows[k])
  {
    if rows != [] {
      RowsObject(g, rows[..|rows| - 1]);
    }
  }

  lemma GlobalObjects(g: ReportSettings, rows: seq<RealityRow>, connected: bool)
    ensures GlobalBlocking(g, rows, connected) == []
            <==> connected && forall k :: 0 <= k < |rows| ==> !Objectionable(g, rows[k])
  {
    hide Objectionable, RowsBlocking;
    RowsObject(g, rows);
    var items := IfSo(!connected, BlockDisconnected) + RowsBlocking(g, rows);
    assert items != [] ==> items[0] in Dedupe(items);
    assert Dedupe(items) != [] ==> Dedupe(items)[0] in items;
  }

  lemma TrackerObjects(r: Report, g: ReportSettings, now: int)
    requires g.trackerEnabled
    ensures TrackerBlocking(g, StatusAt(r, g, now)) == []
            <==> r.connected && r.status != Some(Disconnected) && RecentEnough(r, g, now)
  {
  }

  /**
   When the gate lets an entry pass: exactly when the tracker is off; or no synchronised report is stored and that is
   not guarded; or the stored report was made while connected, with every query answered, has no row to object to, and
   is recent enough.
   */
  lemma GateOpensExactly(stored: Option<Report>, g: ReportSettings, now: int)
    ensures GateReasons(stored, g, now) == []
            <==> (!g.trackerEnabled
                  || if stored.None? || !stored.value.hasSync then !(g.blockIfStale && g.guardTracker)
                     else
                       var r := stored.value;
                       && r.connected && r.status != Some(Disconnected)
                       && (r.channels.Some? ==>
                             r.channels.value.ordersOk && r.channels.value.positionsOk && r.channels.value.accountOk)
                       && (forall k :: 0 <= k < |r.rows| ==> !Objectionable(g, r.rows[k]))
                       && RecentEnough(r, g, now))
  {
    hide Freshened, GlobalBlocking, TrackerBlocking, StatusAt, Objectionable, RecentEnough;
    if stored.Some? && g.trackerEnabled {
      var r := stored.value;
      ReasonsAt(r, g, now);
      BlockedExactly(r, g, now);
      GlobalObjects(g, r.rows, r.connected);
      TrackerObjects(r, g, now);
    }
  }

  /** The profit figures of a reading are current exactly while the tracker is fine and some figure is there. */
  lemma FiguresAreCurrent(r: Report, g: ReportSettings, now: int)
    requires r.pnl.Some?
    ensures var p, p' := r.pnl.value, Freshened(r, g, now).pnl;
            && p'.Some?
            && (p'.value.ok
                <==> && g.trackerEnabled && r.connected && r.status != Some(Disconnected) && r.syncAt.Some?
                     && now - r.syncAt.value < (g.staleAfter + 1) * 1_000_000
                     && (p.daily.Some? || p.unrealized.Some? || p.realized.Some?))
            && (p'.value.warning <==> !p'.value.ok)
            && (p'.value.daily, p'.value.unrealized, p'.value.realized, p'.value.total)
               == (p.daily, p.unrealized, p.realized, p.total)
  {
    hide GlobalBlocking, ChannelBlocking, TrackerBlocking, Summary, Count, AgedRows;
  }

  /** A count over rows is the number of places that satisfy it. */
  lemma {:induction false} CountIsSize(p: RealityRow -> bool, rows: seq<RealityRow>, places: set<int>)
    requires forall k :: k in places <==> 0 <= k < |rows| && p(rows[k])
    ensures Count(p, rows) == |places|
  {
    if rows == [] {
      assert forall k :: k !in places;
    } else {
      var n := |rows| - 1;
      CountIsSize(p, rows[..n], places - {n});
    }
  }

  /** The row's risk cannot be added up. */
  ghost predicate RiskIsOpen(row: RealityRow) {
    row.riskStatus in {UnknownCritical, UnknownPrice}
    || row.protection in {PositionStopMissingCritical, EntryWithoutStopCritical}
  }

  /** What a reading counts, row by row, and when it knows the total risk. */
  lemma CountsExactly(r: Report, g: ReportSettings, now: int)
    ensures var f, n := Freshened(r, g, now), |r.rows|;
            && f.mismatches == |set k | 0 <= k < n && r.rows[k].reasons != []|
            && f.criticals == |set k | 0 <= k < n && r.rows[k].critical|
            && f.risk.activeStops == |set k | 0 <= k < n && Working(r.rows[k].stopStatus)|
            && f.risk.unprotectedPositions == |set k | 0 <= k < n && r.rows[k].protection == PositionStopMissingCritical|
            && f.risk.unprotectedOrders == |set k | 0 <= k < n && r.rows[k].protection == EntryWithoutStopCritical|
            && (f.risk.total.None? <==> exists k :: 0 <= k < n && RiskIsOpen(r.rows[k]))
            && (f.risk.total.Some? ==> f.risk.total.value == TotalRisk(r.rows))
  {
    hide GlobalBlocking, ChannelBlocking, TrackerBlocking, StatusAt, AgedRows, Count, TotalRisk;
    AgeingKeepsTotals(r.rows, g, StatusAt(r, g, now), AgeSeconds(r.syncAt, now), r.syncAt);
    CountIsSize(Mismatched(), r.rows, set k | 0 <= k < |r.rows| && r.rows[k].reasons != []);
    CountIsSize(IsCritical(), r.rows, set k | 0 <= k < |r.rows| && r.rows[k].critical);
    CountIsSize(StopWorks(), r.rows, set k | 0 <= k < |r.rows| && Working(r.rows[k].stopStatus));
    CountIsSize(PositionBare(), r.rows,
                set k | 0 <= k < |r.rows| && r.rows[k].protection == PositionStopMissingCritical);
    CountIsSize(EntryBare(), r.rows, set k | 0 <= k < |r.rows| && r.rows[k].protection == EntryWithoutStopCritical);
    CountIsZero(PositionBare(), r.rows);
    CountIsZero(EntryBare(), r.rows);
    CountIsZero(RiskUnknown(), r.rows);
  }

  lemma {:induction false} CountIsZero(p: RealityRow -> bool, rows: seq<RealityRow>)
    ensures Count(p, rows) > 0 <==> exists k :: 0 <= k < |rows| && p(rows[k])
  {
    if rows != [] { CountIsZero(p, rows[..|rows| - 1]); }
  }
}
