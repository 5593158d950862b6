/**
 One row of the broker-reality report: which broker orders belong to a setup, what state they are in, whether the
 position is protected, and how local state and broker state disagree. Prices are integer cents.
 */
module BrokerReality {
  import opened Common
  import opened Models

  /** A broker order with the status texts the broker reports beside the request's own status. */
  datatype LiveOrder = LiveOrder(order: BrokerOrder, brokerStatus: string, rawStatus: string)

  datatype LivePosition = LivePosition(
    symbol: string,
    quantity: int,
    averagePrice: Option<int>,
    marketPrice: Option<int>,
    currentPrice: Option<int>,
    unrealizedPnl: Option<int>,
    dailyPnl: Option<int>)

  /** Normalised order states; the last three say that there is no broker order to report on. */
  datatype RealityStatus =
    | PendingSubmit
    | Transmitted
    | PartiallyFilled
    | OrderFilled
    | OrderCancelled
    | OrderRejected
    | InactiveOrRejected
    | PreparedNotTransmitted
    | UnknownState
    | NoBrokerOrder
    | NoEntryOrder
    | StopMissing

  datatype Protection =
    | Protected
    | EntryWithoutStopCritical
    | StopPreparedNotTransmitted
    | ProtectionStopMissing
    | PositionStopActive
    | PositionStopMissingCritical
    | UnknownBrokerState
    | NothingToProtect

  datatype Mismatch =
    | TwsDisconnected
    | LocalActiveBrokerOrderMissing
    | LocalOrderMissingInTws
    | BrokerOrderPrepared
    | BrokerOrderRejected
    | BrokerStopNotActive
    | BrokerPositionWithoutStop
    | BrokerStopRejected
    | MismatchPositionCount
    | LocalPositionMissingInTws
    | PositionWithoutActiveSetup
    | OrderWithoutLocalSetup

  datatype RiskStatus = NoOpenPosition | UnknownCritical | UnknownPrice | RiskKnown

  datatype TrackerStatus = TrackerOk | Disconnected | TrackerDisabled | Stale | NotRunning

  /** `entry` and `stop` are the matched broker orders, as places in the broker's list. */
  datatype RealityRow = RealityRow(
    symbol: string,
    setupId: string,
    localStatus: Option<SetupStatus>,
    entry: Option<nat>,
    stop: Option<nat>,
    entryStatus: RealityStatus,
    stopStatus: RealityStatus,
    positionQuantity: int,
    localOpen: bool,
    riskStatus: RiskStatus,
    remainingRisk: Option<int>,
    protection: Protection,
    reasons: seq<Mismatch>,
    critical: bool,
    syncStatus: TrackerStatus,
    syncAge: Option<int>,
    syncAt: Option<int>,
    staleWarning: bool)

  // ----------------------------------------------------------------- status

  const TERMINAL_SETUPS := {Closed, SetupCancelled, Expired, Invalidated, SetupError, ErrorRequiresManualReview}

  predicate OrderDependent(s: SetupStatus) {
    s in {EntryOrderPlaced, EntryPartiallyFilled, EntryFilled, StopOrderPlaced, StopPlaced, InPosition,
          ManagingPosition, PartialExit}
  }

  predicate Working(s: RealityStatus) {
    s == PendingSubmit || s == Transmitted || s == PartiallyFilled
  }

  predicate Refused(s: RealityStatus) {
    s == OrderRejected || s == InactiveOrRejected
  }

  function Without(s: string, c: char): string {
    if s == [] then [] else if s[0] == c then Without(s[1..], c) else [s[0]] + Without(s[1..], c)
  }

  function Normalize(text: string, transmit: bool): RealityStatus {
    if !transmit then PreparedNotTransmitted
    else
      var s := Compact(text);
      if s in {"PENDINGSUBMIT", "CREATED"} then PendingSubmit
      else if s in {"PRESUBMITTED", "SUBMITTED", "TRANSMITTED"} then Transmitted
      else if s == "FILLED" then OrderFilled
      else if s in {"PARTIALLYFILLED", "PARTIALFILLED"} then PartiallyFilled
      else if s in {"CANCELLED", "APICANCELLED", "PENDINGCANCEL", "PENDINGCANCELSUBMIT"} then OrderCancelled
      else if s in {"INACTIVE", "INACTIVEORREJECTED"} then InactiveOrRejected
      else if s in {"REJECTED", "ERROR"} then OrderRejected
      else UnknownState
  }

  function ReportedText(o: LiveOrder): string {
    if o.brokerStatus != "" then o.brokerStatus
    else if o.rawStatus != "" then o.rawStatus
    else StatusName(o.order.status)
  }

  function StateOf(o: LiveOrder): RealityStatus {
    Normalize(ReportedText(o), o.order.transmit)
  }

  /** A broker order always has a state of its own: the three "no order" answers are never among them. */
  lemma StateIsReal(o: LiveOrder)
    ensures StateOf(o) !in {NoBrokerOrder, NoEntryOrder, StopMissing}
  {
  }

  function Compact(text: string): string {
    Without(Without(Upper(Strip(text)), ' '), '_')
  }

  // ------------------------------------------------------ what a text says

  /** The text spells the word, letter by letter, case, blanks and underscores aside. */
  ghost predicate Spells(text: string, word: string) {
    if text == "" then word == ""
    else if text[0] == ' ' || text[0] == '_' then Spells(text[1..], word)
    else word != "" && UpperChar(text[0]) == word[0] && Spells(text[1..], word[1..])
  }

  lemma {:induction false} WithoutBlanksSpells(text: string, word: string)
    ensures Without(Without(Upper(text), ' '), '_') == word <==> Spells(text, word)
  {
    if text != "" {
      var head, rest := UpperChar(text[0]), text[1..];
      assert Upper(text) == [head] + Upper(rest);
      assert Upper(text)[1..] == Upper(rest);
      if text[0] == ' ' {
        WithoutBlanksSpells(rest, word);
      } else {
        var inner := Without(Upper(rest), ' ');
        assert Without(Upper(text), ' ') == [head] + inner;
        assert ([head] + inner)[1..] == inner;
        if text[0] == '_' {
          WithoutBlanksSpells(rest, word);
        } else if word != "" {
          WithoutBlanksSpells(rest, word[1..]);
          assert word == [word[0]] + word[1..];
        }
      }
    }
  }

  lemma CompactSpells(text: string, word: string)
    ensures Compact(text) == word <==> Spells(Strip(text), word)
  {
    hide Without, Upper, Strip, Spells;
    WithoutBlanksSpells(Strip(text), word);
  }

  /** The first text that is not empty. */
  ghost function FirstText(texts: seq<string>): string {
    if texts == [] then "" else if texts[0] != "" then texts[0] else FirstText(texts[1..])
  }

  /** What the broker says of an order: its own status, otherwise the raw one, otherwise the request's; one of the words. */
  ghost predicate Says(o: LiveOrder, words: set<string>) {
    exists w :: w in words && Spells(Strip(FirstText([o.brokerStatus, o.rawStatus, StatusName(o.order.status)])), w)
  }

  const LIVE := {"PENDINGSUBMIT", "CREATED", "PRESUBMITTED", "SUBMITTED", "TRANSMITTED", "PARTIALLYFILLED", "PARTIALFILLED"}
  const CANCELLED := {"CANCELLED", "APICANCELLED", "PENDINGCANCEL", "PENDINGCANCELSUBMIT"}
  const DOWN := {"INACTIVE", "INACTIVEORREJECTED", "REJECTED", "ERROR"}

  /** The order is out in the market: transmitted, and said to be live. */
  ghost predicate Live(o: LiveOrder) {
    o.order.transmit && Says(o, LIVE)
  }

  ghost predicate TurnedDown(o: LiveOrder) {
    o.order.transmit && Says(o, DOWN)
  }

  lemma SaysExactly(o: LiveOrder, words: set<string>)
    ensures Says(o, words) <==> Compact(ReportedText(o)) in words
  {
    hide Compact, Spells, Strip;
    var texts := [o.brokerStatus, o.rawStatus, StatusName(o.order.status)];
    assert texts[1..] == [o.rawStatus, StatusName(o.order.status)] && texts[1..][1..] == [StatusName(o.order.status)];
    assert FirstText(texts[1..][1..]) == StatusName(o.order.status);
    assert FirstText(texts) == ReportedText(o);
    forall w ensures Compact(ReportedText(o)) == w <==> Spells(Strip(ReportedText(o)), w) {
      CompactSpells(ReportedText(o), w);
    }
  }

  /** What each normalised state means in the broker's own words. */
  lemma StateExactly(o: LiveOrder)
    ensures Working(StateOf(o)) <==> Live(o)
    ensures Refused(StateOf(o)) <==> TurnedDown(o)
    ensures StateOf(o) == PreparedNotTransmitted <==> !o.order.transmit
    ensures StateOf(o) == OrderCancelled <==> o.order.transmit && Says(o, CANCELLED)
    ensures StateOf(o) == OrderFilled <==> o.order.transmit && Says(o, {"FILLED"})
  {
    hide Compact, Says, ReportedText;
    SaysExactly(o, LIVE);
    SaysExactly(o, DOWN);
    SaysExactly(o, CANCELLED);
    SaysExactly(o, {"FILLED"});
  }

  /** No text is in two of the lists, so a stop that is said to be cancelled, turned down or filled is not live. */
  lemma NotLive(o: LiveOrder)
    ensures Says(o, CANCELLED) || Says(o, DOWN) || Says(o, {"FILLED"}) || !o.order.transmit ==> !Live(o)
  {
    hide Compact, Says, ReportedText;
    SaysExactly(o, LIVE);
    SaysExactly(o, DOWN);
    SaysExactly(o, CANCELLED);
    SaysExactly(o, {"FILLED"});
  }

  /** An order that the broker reports as "SUBMITTED" is live. */
  lemma SubmittedIsLive(o: LiveOrder)
    requires o.brokerStatus == "SUBMITTED" && o.order.transmit
    ensures Live(o)
  {
    hide Spells;
    StripKeepsTight("SUBMITTED");
    SpellsItself("SUBMITTED");
  }

  lemma {:induction false} SpellsItself(word: string)
    requires forall i :: 0 <= i < |word| ==> word[i] != ' ' && word[i] != '_' && UpperChar(word[i]) == word[i]
    ensures Spells(word, word)
  {
    if word != "" {
      SpellsItself(word[1..]);
    }
  }

  // --------------------------------------------------------------- matching

  function OrderKeys(o: LiveOrder): set<string> {
    CleanKeys(Some(o.order.clientOrderId), o.order.brokerOrderId, o.order.brokerPermId)
  }

  function LocalKeys(row: OrderRow): set<string> {
    CleanKeys(Some(row.id), row.brokerOrderId, row.brokerPermId)
  }

  predicate TrailingType(t: OrderType) {
    t == Trail || t == TrailLimit
    || (t.OtherType? && t.name in {"TRAIL_LMT", "TRAIL_OR_TRAIL_LIMIT", "TRAIL_OR_MANAGED_STOP"})
  }

  predicate IsStopOrder(o: LiveOrder, side: Side) {
    o.order.side == side
    && (o.order.stopPrice.Some? || o.order.orderType in {StopMarket, StopLimit} || TrailingType(o.order.orderType))
  }

  /** Locally a stop-limit type alone does not make a stop. */
  predicate LocalIsStop(row: OrderRow) {
    row.stopPrice.Some? || row.orderType == StopMarket || TrailingType(row.orderType)
  }

  function Filter<T>(p: T -> bool, s: seq<T>): seq<T> {
    if s == [] then [] else (if p(s[0]) then [s[0]] else []) + Filter(p, s[1..])
  }

  function KindOf(side: Side, stop: bool): OrderRow -> bool {
    (row: OrderRow) => row.side == side && LocalIsStop(row) == stop
  }

  function StillActive(): OrderRow -> bool {
    (row: OrderRow) => IsActive(row.status)
  }

  /** The first active order of a kind, otherwise the first of the kind. */
  function LatestLocal(rows: seq<OrderRow>, side: Side, stop: bool): Option<OrderRow> {
    var candidates := Filter(KindOf(side, stop), rows);
    var active := Filter(StillActive(), candidates);
    if active != [] then Some(active[0]) else if candidates != [] then Some(candidates[0]) else None
  }

  ghost predicate LastWithKey(orders: seq<LiveOrder>, key: string, i: nat) {
    i < |orders| && key in OrderKeys(orders[i]) && forall j :: i < j < |orders| ==> key !in OrderKeys(orders[j])
  }

  ghost predicate KnownTo(row: OrderRow, orders: seq<LiveOrder>) {
    exists i :: 0 <= i < |orders| && LocalKeys(row) * OrderKeys(orders[i]) != {}
  }

  /** An order found under a key: the last broker order with one of the row's keys. */
  ghost predicate FoundByKey(row: OrderRow, orders: seq<LiveOrder>, i: nat) {
    exists key :: key in LocalKeys(row) && LastWithKey(orders, key, i)
  }

  function Preference(o: LiveOrder): nat {
    var s := StateOf(o);
    if Working(s) then 0
    else if s == PreparedNotTransmitted then 1
    else if Refused(s) then 2
    else if s == OrderFilled || s == OrderCancelled then 3
    else 4
  }

  /** The first of the candidates that are preferred most; nothing exactly if there is no candidate. */
  ghost predicate Preferred(orders: seq<LiveOrder>, candidates: set<nat>, m: Option<nat>)
    requires forall i :: i in candidates ==> i < |orders|
  {
    if m.None? then candidates == {}
    else
      && m.value in candidates
      && forall i :: i in candidates ==>
                       Preference(orders[m.value]) < Preference(orders[i])
                       || (Preference(orders[m.value]) == Preference(orders[i]) && m.value <= i)
  }

  function EntryCandidates(orders: seq<LiveOrder>, symbol: string, side: Side): set<nat> {
    set i: nat | i < |orders| && Upper(orders[i].order.symbol) == symbol && orders[i].order.side == side
  }

  function StopCandidates(orders: seq<LiveOrder>, symbol: string, side: Side): set<nat> {
    set i: nat | i < |orders| && Upper(orders[i].order.symbol) == symbol && IsStopOrder(orders[i], side)
  }

  function ParentKeys(orders: seq<LiveOrder>, entry: Option<nat>, local: Option<OrderRow>): set<string>
    requires entry.Some? ==> entry.value < |orders|
  {
    (if entry.Some? then OrderKeys(orders[entry.value]) else {}) + (if local.Some? then LocalKeys(local.value) else {})
  }

  predicate ChildOf(o: LiveOrder, keys: set<string>) {
    o.order.parentId.Some? && Strip(o.order.parentId.value) in keys
  }

  /** The stops under the entry if there are any, otherwise every stop of the symbol. */
  function StopChoice(orders: seq<LiveOrder>, symbol: string, side: Side, keys: set<string>): (c: set<nat>)
    ensures forall i :: i in c ==> i < |orders|
  {
    var all := StopCandidates(orders, symbol, side);
    var children := set i | i in all && ChildOf(orders[i], keys);
    if children != {} then children else all
  }

  ghost predicate EntryMatch(local: Option<OrderRow>, orders: seq<LiveOrder>, symbol: string, side: Side, m: Option<nat>) {
    if local.Some? && KnownTo(local.value, orders) then m.Some? && FoundByKey(local.value, orders, m.value)
    else Preferred(orders, EntryCandidates(orders, symbol, side), m)
  }

  ghost predicate StopMatch(localStop: Option<OrderRow>, localEntry: Option<OrderRow>, orders: seq<LiveOrder>,
                            symbol: string, side: Side, entry: Option<nat>, m: Option<nat>)
    requires entry.Some? ==> entry.value < |orders|
  {
    if localStop.Some? && KnownTo(localStop.value, orders) then m.Some? && FoundByKey(localStop.value, orders, m.value)
    else Preferred(orders, StopChoice(orders, symbol, side, ParentKeys(orders, entry, localEntry)), m)
  }

  /** A match is a place in the broker's list. */
  lemma EntryMatchInRange(local: Option<OrderRow>, orders: seq<LiveOrder>, symbol: string, side: Side, m: Option<nat>)
    requires EntryMatch(local, orders, symbol, side, m)
    ensures m.Some? ==> m.value < |orders|
  {
  }

  /** An index of the orders by key: each key of an order, with the last order that carries it. */
  ghost predicate Indexes(orders: seq<LiveOrder>, byKey: map<string, nat>) {
    && (forall key :: key in byKey ==> LastWithKey(orders, key, byKey[key]))
    && (forall i, key :: 0 <= i < |orders| && key in OrderKeys(orders[i]) ==> key in byKey)
  }

  lemma IndexSnoc(orders: seq<LiveOrder>, byKey: map<string, nat>, o: LiveOrder, byKey': map<string, nat>)
    requires Indexes(orders, byKey) && byKey'.Keys == byKey.Keys + OrderKeys(o)
    requires forall key :: key in byKey' ==> byKey'[key] == if key in OrderKeys(o) then |orders| else byKey[key]
    ensures Indexes(orders + [o], byKey')
  {
    hide OrderKeys;
  }

  method AddKeys(byKey: map<string, nat>, keys: set<string>, i: nat) returns (byKey': map<string, nat>)
    ensures byKey'.Keys == byKey.Keys + keys
    ensures forall key :: key in byKey' ==> byKey'[key] == if key in keys then i else byKey[key]
  {
    byKey' := byKey;
    var rest := keys;
    while rest != {}
      invariant rest <= keys
      invariant byKey'.Keys == byKey.Keys + (keys - rest)
      invariant forall key :: key in byKey' ==> byKey'[key] == if key in keys - rest then i else byKey[key]
      decreases rest
    {
      var key :| key in rest;
      byKey' := byKey'[key := i];
      rest := rest - {key};
    }
  }

  method OrdersByKey(orders: seq<LiveOrder>) returns (byKey: map<string, nat>)
    ensures Indexes(orders, byKey)
  {
    byKey := map[];
    var i := 0;
    while i < |orders|
      invariant 0 <= i <= |orders|
      invariant Indexes(orders[..i], byKey)
    {
      var next := AddKeys(byKey, OrderKeys(orders[i]), i);
      IndexSnoc(orders[..i], byKey, orders[i], next);
      assert orders[..i] + [orders[i]] == orders[..i + 1];
      byKey := next;
      i := i + 1;
    }
    assert orders[..i] == orders;
  }

  /** The first of the row's keys, in any order, that a broker order carries. */
  method FindByKey(row: OrderRow, orders: seq<LiveOrder>) returns (m: Option<nat>)
    ensures m.Some? <==> KnownTo(row, orders)
    ensures m.Some? ==> FoundByKey(row, orders, m.value)
  {
    var byKey := OrdersByKey(orders);
    var keys := LocalKeys(row);
    var rest := keys;
    while rest != {}
      invariant rest <= keys
      invariant forall key :: key in keys - rest ==> key !in byKey
      decreases rest
    {
      var key :| key in rest;
      if key in byKey {
        assert key in LocalKeys(row) * OrderKeys(orders[byKey[key]]);
        return Some(byKey[key]);
      }
      rest := rest - {key};
    }
    m := None;
    forall i | 0 <= i < |orders| ensures LocalKeys(row) * OrderKeys(orders[i]) == {} {
      assert forall key :: key in OrderKeys(orders[i]) ==> key in byKey;
    }
  }

  /** The candidate a stable sort by preference puts first. */
  method Prefer(orders: seq<LiveOrder>, candidates: set<nat>) returns (m: Option<nat>)
    requires forall i :: i in candidates ==> i < |orders|
    ensures Preferred(orders, candidates, m)
  {
    m := None;
    var i := 0;
    while i < |orders|
      invariant 0 <= i <= |orders|
      invariant Preferred(orders, (set j | j in candidates && j < i), m)
    {
      ghost var seen := set j | j in candidates && j < i;
      ghost var next := set j | j in candidates && j < i + 1;
      assert next == seen + (if i in candidates then {i} else {});
      if i in candidates && (m.None? || Preference(orders[i]) < Preference(orders[m.value])) {
        m := Some(i);
      }
      i := i + 1;
    }
    assert (set j | j in candidates && j < i) == candidates;
  }

  method MatchEntry(local: Option<OrderRow>, orders: seq<LiveOrder>, symbol: string, side: Side) returns (m: Option<nat>)
    ensures EntryMatch(local, orders, symbol, side, m)
  {
    if local.Some? {
      m := FindByKey(local.value, orders);
      if m.Some? {
        return;
      }
    }
    m := Prefer(orders, EntryCandidates(orders, symbol, side));
  }

  method MatchStop(localStop: Option<OrderRow>, localEntry: Option<OrderRow>, orders: seq<LiveOrder>, symbol: string,
                   side: Side, entry: Option<nat>) returns (m: Option<nat>)
    requires entry.Some? ==> entry.value < |orders|
    ensures StopMatch(localStop, localEntry, orders, symbol, side, entry, m)
  {
    if localStop.Some? {
      m := FindByKey(localStop.value, orders);
      if m.Some? {
        return;
      }
    }
    m := Prefer(orders, StopChoice(orders, symbol, side, ParentKeys(orders, entry, localEntry)));
  }

  // ------------------------------------------------------------------- rows

  function EntrySide(d: Direction): Side {
    if d == Short then Sell else Buy
  }

  function StopSide(d: Direction): Side {
    if d == Short then Buy else Sell
  }

  function StopStatus(orders: seq<LiveOrder>, stop: Option<nat>): RealityStatus
    requires stop.Some? ==> stop.value < |orders|
  {
    if stop.Some? then StateOf(orders[stop.value]) else StopMissing
  }

  function MarketPrice(p: Option<LivePosition>): Option<int> {
    if p.None? then None
    else if p.value.marketPrice.Some? && p.value.marketPrice.value != 0 then p.value.marketPrice
    else p.value.currentPrice
  }

  function ActiveStopPrice(orders: seq<LiveOrder>, stop: Option<nat>): Option<int>
    requires stop.Some? ==> stop.value < |orders|
  {
    if stop.None? || !Working(StateOf(orders[stop.value])) then None else orders[stop.value].order.stopPrice
  }

  function RemainingRisk(quantity: int, price: Option<int>, stop: Option<int>, stopStatus: RealityStatus)
    : (RiskStatus, Option<int>)
  {
    if quantity == 0 then (NoOpenPosition, Some(0))
    else if !Working(stopStatus) || stop.None? then (UnknownCritical, None)
    else if price.None? then (UnknownPrice, None)
    else if quantity > 0 then (RiskKnown, Some(Max(price.value - stop.value, 0) * Abs(quantity)))
    else (RiskKnown, Some(Max(stop.value - price.value, 0) * Abs(quantity)))
  }

  function ProtectionOf(connected: bool, quantity: int, entryStatus: RealityStatus, stopStatus: RealityStatus,
                        hasEntry: bool, hasStop: bool, configuredStop: bool, local: SetupStatus): Protection
  {
    if !connected then UnknownBrokerState
    else if quantity != 0 then (if Working(stopStatus) then PositionStopActive else PositionStopMissingCritical)
    else if Working(entryStatus) && Working(stopStatus) then Protected
    else if Working(entryStatus) then
      (if stopStatus == PreparedNotTransmitted then StopPreparedNotTransmitted else EntryWithoutStopCritical)
    else if hasEntry && entryStatus == PreparedNotTransmitted then
      (if hasStop && stopStatus == PreparedNotTransmitted then StopPreparedNotTransmitted else ProtectionStopMissing)
    else if configuredStop && (OrderDependent(local) || hasEntry) then ProtectionStopMissing
    else NothingToProtect
  }

  function When(condition: bool, reason: Mismatch): seq<Mismatch> {
    if condition then [reason] else []
  }

  function MismatchReasons(connected: bool, local: SetupStatus, entryStatus: RealityStatus, stopStatus: RealityStatus,
                           protection: Protection, hasLocalEntry: bool, hasEntry: bool, localOpen: bool, quantity: int)
    : seq<Mismatch>
  {
    When(!connected, TwsDisconnected)
    + When(OrderDependent(local) && !hasEntry, LocalActiveBrokerOrderMissing)
    + When(hasLocalEntry && entryStatus == NoBrokerOrder, LocalOrderMissingInTws)
    + When(entryStatus == PreparedNotTransmitted, BrokerOrderPrepared)
    + When(Refused(entryStatus), BrokerOrderRejected)
    + When(protection in {EntryWithoutStopCritical, ProtectionStopMissing, StopPreparedNotTransmitted}
           && (OrderDependent(local) || hasEntry), BrokerStopNotActive)
    + When(quantity != 0 && protection == PositionStopMissingCritical, BrokerPositionWithoutStop)
    + When(Refused(stopStatus), BrokerStopRejected)
    + When(quantity != 0 && !localOpen, MismatchPositionCount)
    + When(quantity == 0 && localOpen, LocalPositionMissingInTws)
  }

  predicate CriticalProtection(p: Protection) {
    p in {EntryWithoutStopCritical, PositionStopMissingCritical, ProtectionStopMissing, UnknownBrokerState}
  }

  predicate Critical(reasons: seq<Mismatch>, protection: Protection, entryStatus: RealityStatus) {
    CriticalProtection(protection)
    || (exists r :: r in reasons && r in {TwsDisconnected, LocalActiveBrokerOrderMissing, LocalOrderMissingInTws,
                                          BrokerOrderPrepared, BrokerOrderRejected, BrokerStopNotActive,
                                          BrokerPositionWithoutStop, BrokerStopRejected})
    || Refused(entryStatus)
  }

  /** What a row is made from, once the orders are matched. */
  datatype RowInput = RowInput(
    setup: Setup,
    status: SetupStatus,
    localEntry: Option<OrderRow>,
    position: Option<LivePosition>,
    localOpen: bool,
    connected: bool,
    syncAt: Option<int>)

  function QuantityOf(p: Option<LivePosition>): int {
    if p.Some? then p.value.quantity else 0
  }

  function EntryStatus(input: RowInput, orders: seq<LiveOrder>, entry: Option<nat>): RealityStatus
    requires entry.Some? ==> entry.value < |orders|
  {
    if entry.Some? then StateOf(orders[entry.value])
    else if input.localEntry.Some? || OrderDependent(input.status) then NoBrokerOrder
    else NoEntryOrder
  }

  function MakeRow(input: RowInput, orders: seq<LiveOrder>, entry: Option<nat>, stop: Option<nat>): RealityRow
    requires entry.Some? ==> entry.value < |orders|
    requires stop.Some? ==> stop.value < |orders|
  {
    var entryStatus := EntryStatus(input, orders, entry);
    var stopStatus := StopStatus(orders, stop);
    var quantity := QuantityOf(input.position);
    var (riskStatus, risk) :=
      RemainingRisk(quantity, MarketPrice(input.position), ActiveStopPrice(orders, stop), stopStatus);
    var configured := input.setup.config.trailing.Some? && input.setup.config.trailing.value.initialStop.Some?;
    var protection := ProtectionOf(input.connected, quantity, entryStatus, stopStatus, entry.Some?, stop.Some?,
                                   configured, input.status);
    var reasons := MismatchReasons(input.connected, input.status, entryStatus, stopStatus, protection,
                                   input.localEntry.Some?, entry.Some?, input.localOpen, quantity);
    RealityRow(Upper(input.setup.symbol), input.setup.id, Some(input.status), entry, stop, entryStatus, stopStatus,
               quantity, input.localOpen, riskStatus, risk, protection, reasons,
               Critical(reasons, protection, entryStatus),
               if input.connected then TrackerOk else Disconnected, Some(0), input.syncAt, false)
  }

  /** A position that no active setup accounts for; it is always a mismatch. */
  function OrphanPositionRow(p: LivePosition, orders: seq<LiveOrder>, entry: Option<nat>, stop: Option<nat>,
                             local: Option<PositionRow>, connected: bool, syncAt: Option<int>): RealityRow
    requires entry.Some? ==> entry.value < |orders|
    requires stop.Some? ==> stop.value < |orders|
  {
    var symbol := Upper(p.symbol);
    var entryStatus := if entry.Some? then StateOf(orders[entry.value]) else OrderFilled;
    var stopStatus := StopStatus(orders, stop);
    var (riskStatus, risk) := RemainingRisk(p.quantity, MarketPrice(Some(p)), ActiveStopPrice(orders, stop), stopStatus);
    var protection := if !connected then UnknownBrokerState
                      else if Working(stopStatus) then PositionStopActive
                      else PositionStopMissingCritical;
    var reasons := [PositionWithoutActiveSetup]
    + When(local.None? || local.value.quantity == 0, MismatchPositionCount)
    + When(protection == PositionStopMissingCritical, BrokerPositionWithoutStop)
    + When(!connected, TwsDisconnected);
    RealityRow(symbol, if local.Some? then local.value.setupId else "broker:" + symbol, None, entry, stop, entryStatus,
               stopStatus, p.quantity, local.Some?, riskStatus, risk, protection, reasons, CriticalProtection(protection),
               if connected then TrackerOk else Disconnected, Some(0), syncAt, false)
  }

  /** A broker order that no row accounts for; it is always a mismatch. */
  function OrphanOrderRow(o: LiveOrder, place: nat, connected: bool, syncAt: Option<int>): RealityRow {
    var state := StateOf(o);
    var isStop := IsStopOrder(o, o.order.side);
    RealityRow(Upper(o.order.symbol), "broker", None, if isStop then None else Some(place),
               if isStop then Some(place) else None, if isStop then NoEntryOrder else state,
               if isStop then state else StopMissing, 0, false, NoOpenPosition, None, UnknownBrokerState,
               [OrderWithoutLocalSetup], true, if connected then TrackerOk else Disconnected, Some(0), syncAt, false)
  }

  // ------------------------------------------------------ what a row means

  /** The statuses under which a setup depends on orders at the broker. */
  const DEPENDENT := {EntryOrderPlaced, EntryPartiallyFilled, EntryFilled, StopOrderPlaced, StopPlaced, InPosition,
    ManagingPosition, PartialExit}

  predicate ConfiguredStop(setup: Setup) {
    setup.config.trailing.Some? && setup.config.trailing.value.initialStop.Some?
  }

  ghost predicate LiveAt(orders: seq<LiveOrder>, place: Option<nat>)
    requires place.Some? ==> place.value < |orders|
  {
    place.Some? && Live(orders[place.value])
  }

  ghost predicate HeldBack(orders: seq<LiveOrder>, place: Option<nat>)
    requires place.Some? ==> place.value < |orders|
  {
    place.Some? && !orders[place.value].order.transmit
  }

  ghost predicate DownAt(orders: seq<LiveOrder>, place: Option<nat>)
    requires place.Some? ==> place.value < |orders|
  {
    place.Some? && TurnedDown(orders[place.value])
  }

  /** The states at two places of the list, in the broker's own words. */
  lemma StatesAt(orders: seq<LiveOrder>, entry: Option<nat>, stop: Option<nat>)
    requires entry.Some? ==> entry.value < |orders|
    requires stop.Some? ==> stop.value < |orders|
    ensures entry.Some? ==>
              var s := StateOf(orders[entry.value]);
              && (Working(s) <==> LiveAt(orders, entry)) && (s == PreparedNotTransmitted <==> HeldBack(orders, entry))
              && (Refused(s) <==> DownAt(orders, entry)) && s !in {NoBrokerOrder, NoEntryOrder, StopMissing}
    ensures stop.Some? ==>
              var s := StateOf(orders[stop.value]);
              && (Working(s) <==> LiveAt(orders, stop)) && (s == PreparedNotTransmitted <==> HeldBack(orders, stop))
              && (Refused(s) <==> DownAt(orders, stop)) && s !in {NoBrokerOrder, NoEntryOrder, StopMissing}
    ensures entry.None? ==> !LiveAt(orders, entry) && !HeldBack(orders, entry) && !DownAt(orders, entry)
    ensures stop.None? ==> !LiveAt(orders, stop) && !HeldBack(orders, stop) && !DownAt(orders, stop)
  {
    hide StateOf, Live, TurnedDown;
    if entry.Some? {
      StateExactly(orders[entry.value]);
      StateIsReal(orders[entry.value]);
    }
    if stop.Some? {
      StateExactly(orders[stop.value]);
      StateIsReal(orders[stop.value]);
    }
  }

  /**
   A setup's row reports no mismatch exactly when the broker is connected and: a broker entry exists if the setup or a
   local order says so; neither entry nor stop was turned down, and the entry was not left untransmitted; an open
   position has a live stop; without a position, a live entry has a live stop and any other entry has no stop
   configured; and the position is open locally exactly if it is open at the broker.
   */
  lemma CleanExactly(input: RowInput, orders: seq<LiveOrder>, entry: Option<nat>, stop: Option<nat>)
    requires entry.Some? ==> entry.value < |orders|
    requires stop.Some? ==> stop.value < |orders|
    ensures var row := MakeRow(input, orders, entry, stop);
            var held := input.position.Some? && input.position.value.quantity != 0;
            row.reasons == [] <==>
            (&& input.connected
             && (input.status in DEPENDENT || input.localEntry.Some? ==> entry.Some?)
             && !HeldBack(orders, entry) && !DownAt(orders, entry) && !DownAt(orders, stop)
             && (if held then LiveAt(orders, stop)
                 else if LiveAt(orders, entry) then LiveAt(orders, stop)
                 else entry.None? || !ConfiguredStop(input.setup))
             && (held <==> input.localOpen))
  {
    hide StateOf, LiveAt, HeldBack, DownAt, RemainingRisk, ActiveStopPrice, MarketPrice, Critical;
    StatesAt(orders, entry, stop);
  }

  /** What each protection verdict means; the verdicts exclude one another. */
  lemma ProtectionExactly(input: RowInput, orders: seq<LiveOrder>, entry: Option<nat>, stop: Option<nat>)
    requires entry.Some? ==> entry.value < |orders|
    requires stop.Some? ==> stop.value < |orders|
    ensures var p := MakeRow(input, orders, entry, stop).protection;
            var held := input.position.Some? && input.position.value.quantity != 0;
            && (p == UnknownBrokerState <==> !input.connected)
            && (p == PositionStopActive <==> input.connected && held && LiveAt(orders, stop))
            && (p == PositionStopMissingCritical <==> input.connected && held && !LiveAt(orders, stop))
            && (p == Protected <==> input.connected && !held && LiveAt(orders, entry) && LiveAt(orders, stop))
            && (p == EntryWithoutStopCritical
                <==> input.connected && !held && LiveAt(orders, entry) && !LiveAt(orders, stop) && !HeldBack(orders, stop))
            && (p == StopPreparedNotTransmitted
                <==> input.connected && !held && HeldBack(orders, stop)
                     && (LiveAt(orders, entry) || HeldBack(orders, entry)))
            && (p == ProtectionStopMissing
                <==> input.connected && !held && !LiveAt(orders, entry)
                     && (if HeldBack(orders, entry) then !HeldBack(orders, stop)
                         else ConfiguredStop(input.setup) && (input.status in DEPENDENT || entry.Some?)))
  {
    hide StateOf, LiveAt, HeldBack, DownAt, RemainingRisk, ActiveStopPrice, MarketPrice, Critical, MismatchReasons;
    StatesAt(orders, entry, stop);
    LiveIsTransmitted(orders, entry);
    LiveIsTransmitted(orders, stop);
  }

  lemma LiveIsTransmitted(orders: seq<LiveOrder>, place: Option<nat>)
    requires place.Some? ==> place.value < |orders|
    ensures !(LiveAt(orders, place) && HeldBack(orders, place))
  {
  }

  /** A row is critical exactly when it has a mismatch other than that local and broker disagree on a position. */
  lemma CriticalExactly(input: RowInput, orders: seq<LiveOrder>, entry: Option<nat>, stop: Option<nat>)
    requires entry.Some? ==> entry.value < |orders|
    requires stop.Some? ==> stop.value < |orders|
    ensures var row := MakeRow(input, orders, entry, stop);
            row.critical
            <==> exists r :: r in row.reasons && r != MismatchPositionCount && r != LocalPositionMissingInTws
  {
    hide StateOf, RemainingRisk, ActiveStopPrice, MarketPrice, MismatchReasons, LiveAt, HeldBack, DownAt;
    StatesAt(orders, entry, stop);
    var row := MakeRow(input, orders, entry, stop);
    UnsafeReasons(input.connected, input.status, row.entryStatus, row.stopStatus, row.protection,
                  input.localEntry.Some?, entry.Some?, input.localOpen, row.positionQuantity);
    if CriticalProtection(row.protection) {
      var r := if row.protection == UnknownBrokerState then TwsDisconnected
               else if row.protection == PositionStopMissingCritical then BrokerPositionWithoutStop
               else BrokerStopNotActive;
      assert r in row.reasons;
    }
    if Refused(row.entryStatus) {
      assert BrokerOrderRejected in row.reasons;
    }
  }

  /** The reasons that go with an unsafe row, and no reason of an orphan's row. */
  lemma UnsafeReasons(connected: bool, local: SetupStatus, entryStatus: RealityStatus, stopStatus: RealityStatus,
                      protection: Protection, hasLocalEntry: bool, hasEntry: bool, localOpen: bool, quantity: int)
    ensures var reasons := MismatchReasons(connected, local, entryStatus, stopStatus, protection, hasLocalEntry, hasEntry,
                                           localOpen, quantity);
            && (!connected ==> TwsDisconnected in reasons)
            && (Refused(entryStatus) ==> BrokerOrderRejected in reasons)
            && (quantity != 0 && protection == PositionStopMissingCritical ==> BrokerPositionWithoutStop in reasons)
            && (OrderDependent(local) || hasEntry ==>
                  protection in {EntryWithoutStopCritical, ProtectionStopMissing, StopPreparedNotTransmitted} ==>
                    BrokerStopNotActive in reasons)
            && PositionWithoutActiveSetup !in reasons && OrderWithoutLocalSetup !in reasons
  {
    hide OrderDependent, Refused, When;
    InWhen();
  }

  lemma InWhen()
    ensures forall condition, reason, r :: r in When(condition, reason) <==> condition && r == reason
  {
  }

  /** The price a position is valued at: the market price unless it is missing or zero, otherwise the current price. */
  ghost predicate ValuedAt(p: LivePosition, price: int) {
    if p.marketPrice.Some? && p.marketPrice != Some(0) then p.marketPrice == Some(price) else p.currentPrice == Some(price)
  }

  /**
   The risk of a row is known exactly when nothing is held, or the stop is live with a price and the position has one:
   it is what the position, long or short, loses on the way from that price to the stop, and never negative.
   */
  lemma RiskExactly(input: RowInput, orders: seq<LiveOrder>, entry: Option<nat>, stop: Option<nat>)
    requires entry.Some? ==> entry.value < |orders|
    requires stop.Some? ==> stop.value < |orders|
    ensures var row := MakeRow(input, orders, entry, stop);
            var held := input.position.Some? && input.position.value.quantity != 0;
            && (!held ==> row.remainingRisk == Some(0) && row.riskStatus == NoOpenPosition)
            && (held ==>
                  && (row.riskStatus == UnknownCritical
                      <==> !(LiveAt(orders, stop) && orders[stop.value].order.stopPrice.Some?))
                  && (row.riskStatus == RiskKnown <==> row.remainingRisk.Some?)
                  && (row.riskStatus == RiskKnown
                      <==> LiveAt(orders, stop) && orders[stop.value].order.stopPrice.Some?
                           && exists price :: ValuedAt(input.position.value, price))
                  && (row.riskStatus == RiskKnown ==>
                        exists price :: ValuedAt(input.position.value, price)
                                        && row.remainingRisk.value
                                           == Max((price - orders[stop.value].order.stopPrice.value)
                                                  * input.position.value.quantity, 0)))
  {
    hide StateOf, LiveAt, ProtectionOf, MismatchReasons, Critical, ActiveStopPrice, MarketPrice, RemainingRisk, ValuedAt,
      EntryStatus;
    StopPriceAt(orders, stop);
    RemainingRiskMeans(QuantityOf(input.position), MarketPrice(input.position), ActiveStopPrice(orders, stop),
                       StopStatus(orders, stop));
    if input.position.Some? {
      MarketPriceMeans(input.position.value);
    }
  }

  lemma MarketPriceMeans(p: LivePosition)
    ensures forall x :: ValuedAt(p, x) <==> MarketPrice(Some(p)) == Some(x)
  {
  }

  lemma StopPriceAt(orders: seq<LiveOrder>, stop: Option<nat>)
    requires stop.Some? ==> stop.value < |orders|
    ensures Working(StopStatus(orders, stop)) <==> LiveAt(orders, stop)
    ensures ActiveStopPrice(orders, stop)
            == if LiveAt(orders, stop) then orders[stop.value].order.stopPrice else None
  {
    hide StateOf, LiveAt;
    StatesAt(orders, None, stop);
  }

  lemma RemainingRiskMeans(quantity: int, price: Option<int>, stop: Option<int>, stopStatus: RealityStatus)
    requires stop.Some? ==> Working(stopStatus)
    ensures var (status, risk) := RemainingRisk(quantity, price, stop, stopStatus);
            && (quantity == 0 ==> status == NoOpenPosition && risk == Some(0))
            && (quantity != 0 ==>
                  && (status == UnknownCritical <==> stop.None?)
                  && (status == RiskKnown <==> risk.Some?) && (risk.Some? <==> stop.Some? && price.Some?)
                  && (risk.Some? ==> risk.value == Max((price.value - stop.value) * quantity, 0)))
  {
    if stop.Some? && price.Some? {
      LossToStop(price.value, stop.value, quantity);
    }
  }

  lemma LossToStop(price: int, stop: int, quantity: int)
    ensures quantity > 0 ==> Max(price - stop, 0) * Abs(quantity) == Max((price - stop) * quantity, 0)
    ensures quantity < 0 ==> Max(stop - price, 0) * Abs(quantity) == Max((price - stop) * quantity, 0)
  {
    var d := price - stop;
    if quantity > 0 {
      if d >= 0 { assert d * quantity >= 0; } else { assert -d * quantity >= 0; }
    } else if quantity < 0 {
      assert d * quantity == -d * -quantity;
      if d >= 0 { assert d * -quantity >= 0; } else { assert -d * -quantity >= 0; }
    }
  }

  /** The row of a position without an active setup: what it reports, and when it is critical. */
  lemma OrphanExactly(p: LivePosition, orders: seq<LiveOrder>, entry: Option<nat>, stop: Option<nat>,
                      local: Option<PositionRow>, connected: bool, syncAt: Option<int>)
    requires entry.Some? ==> entry.value < |orders|
    requires stop.Some? ==> stop.value < |orders|
    ensures var row := OrphanPositionRow(p, orders, entry, stop, local, connected, syncAt);
            && PositionWithoutActiveSetup in row.reasons
            && (MismatchPositionCount in row.reasons <==> local.None? || local.value.quantity == 0)
            && (BrokerPositionWithoutStop in row.reasons <==> connected && !LiveAt(orders, stop))
            && (TwsDisconnected in row.reasons <==> !connected)
            && (row.critical <==> !connected || !LiveAt(orders, stop))
            && (row.protection == PositionStopActive <==> connected && LiveAt(orders, stop))
  {
    hide StateOf, LiveAt, RemainingRisk, ActiveStopPrice, MarketPrice;
    StatesAt(orders, entry, stop);
    StopPriceAt(orders, stop);
    hide StopStatus;
  }
}
