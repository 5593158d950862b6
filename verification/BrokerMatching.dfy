/**
 Which broker order is matched to what, in the broker's own words: an order known under a common id comes first, a live
 order before any other, and a stop under the matched entry before any other stop of the symbol.
 */
module BrokerMatching {
  import opened Common
  import opened Models
  import opened BrokerReality

  function IdsOf(o: LiveOrder): seq<Option<string>> {
    [Some(o.order.clientOrderId), o.order.brokerOrderId, o.order.brokerPermId]
  }

  function IdsOfRow(row: OrderRow): seq<Option<string>> {
    [Some(row.id), row.brokerOrderId, row.brokerPermId]
  }

  ghost predicate Same(row: OrderRow, o: LiveOrder) {
    ShareId(IdsOfRow(row), IdsOf(o))
  }

  lemma SameExactly(row: OrderRow, o: LiveOrder)
    ensures LocalKeys(row) * OrderKeys(o) != {} <==> Same(row, o)
  {
    hide CleanKeys, ShareId;
    KeysMeetExactly(Some(row.id), row.brokerOrderId, row.brokerPermId,
                    Some(o.order.clientOrderId), o.order.brokerOrderId, o.order.brokerPermId);
    DisjointMeansNoMeet(LocalKeys(row), OrderKeys(o));
  }

  lemma KnownMeans(row: OrderRow, orders: seq<LiveOrder>)
    ensures KnownTo(row, orders) <==> exists i :: 0 <= i < |orders| && Same(row, orders[i])
    ensures forall i: nat :: FoundByKey(row, orders, i) ==> i < |orders| && Same(row, orders[i])
  {
    hide LocalKeys, OrderKeys, Same;
    forall i | 0 <= i < |orders| ensures LocalKeys(row) * OrderKeys(orders[i]) != {} <==> Same(row, orders[i]) {
      SameExactly(row, orders[i]);
    }
    forall i: nat | FoundByKey(row, orders, i) ensures i < |orders| && Same(row, orders[i]) {
      var key :| key in LocalKeys(row) && LastWithKey(orders, key, i);
      assert key in LocalKeys(row) * OrderKeys(orders[i]);
    }
  }

  /** The types of a trailing stop. */
  const TRAILING := {Trail, TrailLimit, OtherType("TRAIL_LMT"), OtherType("TRAIL_OR_TRAIL_LIMIT"),
    OtherType("TRAIL_OR_MANAGED_STOP")}

  /** An order of that side that has a stop price or the type of a stop. */
  ghost predicate ActsAsStop(o: BrokerOrder, side: Side) {
    o.side == side && (o.stopPrice.Some? || o.orderType in {StopMarket, StopLimit} + TRAILING)
  }

  /** A broker order of that symbol and side that acts as a stop. */
  ghost predicate StopOf(o: LiveOrder, symbol: string, side: Side) {
    Upper(o.order.symbol) == symbol && ActsAsStop(o.order, side)
  }

  lemma StopOfExactly(o: LiveOrder, side: Side)
    ensures IsStopOrder(o, side) <==> ActsAsStop(o.order, side)
  {
  }

  /** The order names as its parent an id of the matched entry or of the local entry. */
  ghost predicate Under(o: LiveOrder, orders: seq<LiveOrder>, entry: Option<nat>, local: Option<OrderRow>)
    requires entry.Some? ==> entry.value < |orders|
  {
    o.order.parentId.Some?
    && ((entry.Some? && IsIdText(IdsOf(orders[entry.value]), Strip(o.order.parentId.value)))
        || (local.Some? && IsIdText(IdsOfRow(local.value), Strip(o.order.parentId.value))))
  }

  lemma UnderExactly(o: LiveOrder, orders: seq<LiveOrder>, entry: Option<nat>, local: Option<OrderRow>)
    requires entry.Some? ==> entry.value < |orders|
    ensures ChildOf(o, ParentKeys(orders, entry, local)) <==> Under(o, orders, entry, local)
  {
    hide CleanKeys, Strip, IsIdText;
    if o.order.parentId.Some? {
      var key := Strip(o.order.parentId.value);
      if entry.Some? {
        var e := orders[entry.value].order;
        KeysAreTexts(Some(e.clientOrderId), e.brokerOrderId, e.brokerPermId, key);
      }
      if local.Some? {
        KeysAreTexts(Some(local.value.id), local.value.brokerOrderId, local.value.brokerPermId, key);
      }
    }
  }

  /**
   The best of the orders that meet a description: none exactly if no order meets it; a live one if any is live,
   otherwise one held back, otherwise one turned down, otherwise one cancelled or filled; and of the live ones the first.
   */
  ghost predicate BestOf(orders: seq<LiveOrder>, wanted: set<nat>, m: Option<nat>)
    requires forall i :: i in wanted ==> i < |orders|
  {
    && (m.None? <==> wanted == {})
    && (m.Some? ==>
          && m.value in wanted
          && forall i :: i in wanted ==>
               && (Live(orders[i]) ==> Live(orders[m.value]) && m.value <= i)
               && (!orders[i].order.transmit ==> Live(orders[m.value]) || !orders[m.value].order.transmit)
               && (TurnedDown(orders[i]) ==>
                     Live(orders[m.value]) || !orders[m.value].order.transmit || TurnedDown(orders[m.value]))
               && (Says(orders[i], CANCELLED + {"FILLED"}) ==>
                     Live(orders[m.value]) || !orders[m.value].order.transmit || TurnedDown(orders[m.value])
                     || Says(orders[m.value], CANCELLED + {"FILLED"})))
  }

  lemma PreferenceMeans(o: LiveOrder)
    ensures Preference(o) == 0 <==> Live(o)
    ensures Preference(o) == 1 <==> !o.order.transmit
    ensures Preference(o) == 2 <==> TurnedDown(o)
    ensures Preference(o) == 3 <==> o.order.transmit && Says(o, CANCELLED + {"FILLED"})
    ensures Preference(o) <= 4
  {
    hide Says, StateOf;
    StateExactly(o);
    SaysEither(o, CANCELLED, {"FILLED"});
  }

  lemma SaysEither(o: LiveOrder, a: set<string>, b: set<string>)
    ensures Says(o, a + b) <==> Says(o, a) || Says(o, b)
  {
    hide Spells, Strip, FirstText;
  }

  lemma PreferredIsBest(orders: seq<LiveOrder>, candidates: set<nat>, m: Option<nat>)
    requires forall i :: i in candidates ==> i < |orders|
    requires Preferred(orders, candidates, m)
    ensures BestOf(orders, candidates, m)
  {
    hide Preference, Live, TurnedDown, Says;
    forall i | i in candidates
      ensures m.Some? && (Preference(orders[i]) == 0 <==> Live(orders[i]))
    {
      PreferenceMeans(orders[i]);
      PreferenceMeans(orders[m.value]);
    }
    forall i | i in candidates
      ensures && (Preference(orders[i]) == 1 <==> !orders[i].order.transmit)
              && (Preference(orders[i]) == 2 <==> TurnedDown(orders[i]))
              && (Preference(orders[i]) == 3 <==> orders[i].order.transmit && Says(orders[i], CANCELLED + {"FILLED"}))
    {
      PreferenceMeans(orders[i]);
    }
  }

  /**
   The matched entry: an order that shares an id with the local entry if there is one, otherwise the best order of the
   symbol and side.
   */
  lemma EntryMatchMeans(local: Option<OrderRow>, orders: seq<LiveOrder>, symbol: string, side: Side, m: Option<nat>)
    requires EntryMatch(local, orders, symbol, side, m)
    ensures if local.Some? && exists i :: 0 <= i < |orders| && Same(local.value, orders[i])
            then m.Some? && m.value < |orders| && Same(local.value, orders[m.value])
            else
              var entries := set i: nat | i < |orders| && Upper(orders[i].order.symbol) == symbol
                                          && orders[i].order.side == side;
              BestOf(orders, entries, m)
  {
    hide BestOf, Same, Preferred, LocalKeys, OrderKeys;
    if local.Some? { KnownMeans(local.value, orders); }
    if !(local.Some? && KnownTo(local.value, orders)) {
      PreferredIsBest(orders, EntryCandidates(orders, symbol, side), m);
    }
  }

  /**
   The matched stop: an order that shares an id with the local stop if there is one, otherwise the best of the symbol's
   stops under the entry, and if none is under the entry the best of all the symbol's stops.
   */
  lemma StopMatchMeans(localStop: Option<OrderRow>, localEntry: Option<OrderRow>, orders: seq<LiveOrder>, symbol: string,
                       side: Side, entry: Option<nat>, m: Option<nat>)
    requires entry.Some? ==> entry.value < |orders|
    requires StopMatch(localStop, localEntry, orders, symbol, side, entry, m)
    ensures if localStop.Some? && exists i :: 0 <= i < |orders| && Same(localStop.value, orders[i])
            then m.Some? && m.value < |orders| && Same(localStop.value, orders[m.value])
            else
              var stops := set i: nat | i < |orders| && StopOf(orders[i], symbol, side);
              var children := set i | i in stops && Under(orders[i], orders, entry, localEntry);
              BestOf(orders, if children != {} then children else stops, m)
  {
    hide BestOf, Same, Preferred, LocalKeys, OrderKeys, Under, ParentKeys, ActsAsStop, IsStopOrder, ChildOf;
    if localStop.Some? { KnownMeans(localStop.value, orders); }
    if !(localStop.Some? && KnownTo(localStop.value, orders)) {
      var keys := ParentKeys(orders, entry, localEntry);
      forall i | 0 <= i < |orders|
        ensures (ChildOf(orders[i], keys) <==> Under(orders[i], orders, entry, localEntry))
                && (IsStopOrder(orders[i], side) <==> ActsAsStop(orders[i].order, side))
      {
        UnderExactly(orders[i], orders, entry, localEntry);
        StopOfExactly(orders[i], side);
      }
      var stops := set i: nat | i < |orders| && StopOf(orders[i], symbol, side);
      assert StopCandidates(orders, symbol, side) == stops;
      assert (set i | i in stops && ChildOf(orders[i], keys))
             == (set i | i in stops && Under(orders[i], orders, entry, localEntry));
      PreferredIsBest(orders, StopChoice(orders, symbol, side, keys), m);
    }
  }

  // ------------------------------------------------------------- local rows

  /** A local row of the kind wanted: a stop has a stop price or a stop's type, a stop-limit type alone does not count. */
  ghost predicate OfKind(row: OrderRow, side: Side, stop: bool) {
    row.side == side && (stop <==> row.stopPrice.Some? || row.orderType in {StopMarket} + TRAILING)
  }

  /** The first row of the kind that is CREATED or SUBMITTED, otherwise the first of the kind; none if there is none. */
  lemma LatestLocalMeans(rows: seq<OrderRow>, side: Side, stop: bool)
    ensures var r := LatestLocal(rows, side, stop);
            && (r.None? <==> forall i :: 0 <= i < |rows| ==> !OfKind(rows[i], side, stop))
            && (r.Some? ==>
                  exists i :: 0 <= i < |rows| && r.value == rows[i] && OfKind(rows[i], side, stop)
                              && (forall j :: 0 <= j < |rows| && OfKind(rows[j], side, stop) ==>
                                                rows[j].status in {Created, Submitted} ==>
                                                  rows[i].status in {Created, Submitted} && i <= j)
                              && (forall j :: 0 <= j < i && OfKind(rows[j], side, stop) ==>
                                                rows[i].status in {Created, Submitted}))
  {
    var kind, active := KindOf(side, stop), StillActive();
    var both := (row: OrderRow) => kind(row) && active(row);
    assert forall row: OrderRow :: kind(row) <==> OfKind(row, side, stop);
    assert forall row: OrderRow :: active(row) <==> row.status in {Created, Submitted};
    hide KindOf, StillActive, OfKind;
    FilterTwice(active, kind, both, rows);
    FilterFirst(kind, rows);
    FilterFirst(both, rows);
  }

  lemma {:induction false} FilterTwice<T(!new)>(p: T -> bool, q: T -> bool, both: T -> bool, s: seq<T>)
    requires forall x :: both(x) <==> q(x) && p(x)
    ensures Filter(p, Filter(q, s)) == Filter(both, s)
  {
    if s != [] {
      FilterTwice(p, q, both, s[1..]);
      var kept, rest := Filter(q, s), Filter(q, s[1..]);
      if q(s[0]) {
        assert kept == [s[0]] + rest && kept[1..] == rest;
        assert Filter(p, kept) == (if p(s[0]) then [s[0]] else []) + Filter(p, rest);
      } else {
        assert kept == rest;
      }
    }
  }

  /** Filtering gives something exactly if some element passes, and the first such element first. */
  lemma {:induction false} FilterFirst<T>(p: T -> bool, s: seq<T>)
    ensures Filter(p, s) == [] <==> forall i :: 0 <= i < |s| ==> !p(s[i])
    ensures Filter(p, s) != [] ==>
              exists i :: 0 <= i < |s| && p(s[i]) && Filter(p, s)[0] == s[i] && forall j :: 0 <= j < i ==> !p(s[j])
  {
    if s != [] {
      FilterFirst(p, s[1..]);
      assert forall i :: 0 < i < |s| ==> s[i] == s[1..][i - 1];
      if !p(s[0]) && Filter(p, s[1..]) != [] {
        var i :| 0 <= i < |s| - 1 && p(s[1..][i]) && Filter(p, s[1..])[0] == s[1..][i]
                 && forall j :: 0 <= j < i ==> !p(s[1..][j]);
        assert s[i + 1] == s[1..][i];
        assert forall j :: 0 < j < i + 1 ==> s[j] == s[1..][j - 1];
      }
    }
  }
}
