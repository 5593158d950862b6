/**
 The pattern-day-trader limit: only the last five finished days with entries are stored and only four are read, yet
 the limit holds of every five days with entries in the whole history.
 */
module PdtWindow {
  import opened Common
  import opened TradeGuards

  /** Days never go backwards. */
  ghost predicate Ordered(h: seq<GuardEvent>) {
    forall i, j :: 0 <= i < j < |h| ==> h[i].now.day <= h[j].now.day
  }

  ghost predicate UpTo(h: seq<GuardEvent>, day: int) {
    forall i :: 0 <= i < |h| ==> h[i].now.day <= day
  }

  /** Entries recorded from day `lo` to day `hi`. */
  function EntriesIn(h: seq<GuardEvent>, lo: int, hi: int): nat {
    if h == [] then 0
    else
      var e := h[|h| - 1];
      EntriesIn(h[..|h| - 1], lo, hi) + (if e.EntrySubmitted? && lo <= e.now.day <= hi then 1 else 0)
  }

  /** The days from `lo` to `hi` on which something was entered. */
  function ActiveDays(h: seq<GuardEvent>, lo: int, hi: int): set<int> {
    set i | 0 <= i < |h| && h[i].EntrySubmitted? && lo <= h[i].now.day <= hi :: h[i].now.day
  }

  /** Every entry was recorded right after the gate let it pass, on the same day. */
  ghost predicate Gated(g: GuardSettings, h: seq<GuardEvent>) {
    forall i :: 0 <= i < |h| && h[i].EntrySubmitted? ==> !PdtBlocks(g, StateAfter(g, h[..i]), h[i].now.day)
  }

  /** One more entry on the latest day. */
  function AddEntry(p: seq<DayCount>, day: int): seq<DayCount> {
    if p != [] && p[|p| - 1].day == day then p[..|p| - 1] + [DayCount(day, p[|p| - 1].count + 1)]
    else p + [DayCount(day, 1)]
  }

  /** A finished day joins the history if it had entries. */
  function FinishDay(p: seq<DayCount>, day: int, count: nat): seq<DayCount> {
    if count > 0 then p + [DayCount(day, count)] else p
  }

  /** The days before `t` with entries, each with its count, never cut short. */
  function Before(h: seq<GuardEvent>, t: int): (p: seq<DayCount>) {
    if h == [] then []
    else
      var p, e := Before(h[..|h| - 1], t), h[|h| - 1];
      if !e.EntrySubmitted? || e.now.day >= t then p else AddEntry(p, e.now.day)
  }

  /** Days go up and every day has entries. */
  ghost predicate Increasing(p: seq<DayCount>) {
    p == []
    || (&& Increasing(p[..|p| - 1]) && p[|p| - 1].count > 0
        && (|p| > 1 ==> p[|p| - 2].day < p[|p| - 1].day))
  }

  function DaysFrom(p: seq<DayCount>, lo: int): set<int> {
    set i | 0 <= i < |p| && p[i].day >= lo :: p[i].day
  }

  function SumFrom(p: seq<DayCount>, lo: int): int {
    if p == [] then 0 else SumFrom(p[..|p| - 1], lo) + (if p[|p| - 1].day >= lo then p[|p| - 1].count else 0)
  }

  function CountFrom(p: seq<DayCount>, lo: int): nat {
    if p == [] then 0 else CountFrom(p[..|p| - 1], lo) + (if p[|p| - 1].day >= lo then 1 else 0)
  }

  // -------------------------------------------- the uncut history of days

  lemma {:induction false} BeforeIncreasing(h: seq<GuardEvent>, t: int)
    requires Ordered(h)
    ensures var p := Before(h, t);
            Increasing(p) && (p != [] ==> p[|p| - 1].day < t && h != [] && p[|p| - 1].day <= h[|h| - 1].now.day)
  {
    if h != [] {
      var init, e := h[..|h| - 1], h[|h| - 1];
      BeforeIncreasing(init, t);
      AddEntryKeeps(Before(init, t), e.now.day);
    }
  }

  lemma AddEntryKeeps(p: seq<DayCount>, day: int)
    requires Increasing(p) && (p != [] ==> p[|p| - 1].day <= day)
    ensures Increasing(AddEntry(p, day)) && AddEntry(p, day)[|AddEntry(p, day)| - 1].day == day
  {
    var q := AddEntry(p, day);
    assert q[..|q| - 1] == if p != [] && p[|p| - 1].day == day then p[..|p| - 1] else p;
  }

  lemma {:induction false} NoneLater(h: seq<GuardEvent>, lo: int, hi: int)
    requires forall i :: 0 <= i < |h| ==> h[i].now.day < lo
    ensures EntriesIn(h, lo, hi) == 0
  {
    if h != [] {
      NoneLater(h[..|h| - 1], lo, hi);
    }
  }

  /** Finishing a day appends it, with its count, if anything was entered on it. */
  lemma {:induction false} BeforeSplit(h: seq<GuardEvent>, d: int, t: int)
    requires Ordered(h) && UpTo(h, d) && d < t
    ensures Before(h, t) == FinishDay(Before(h, d), d, EntriesIn(h, d, d))
  {
    if h != [] {
      var init, e := h[..|h| - 1], h[|h| - 1];
      BeforeSplit(init, d, t);
      BeforeIncreasing(init, d);
      hide Increasing, Ordered, AddEntry;
      var p, count := Before(init, d), EntriesIn(init, d, d);
      if e.now.day < d {
        NoneLater(init, d, d);
        assert FinishDay(p, d, 0) == p && FinishDay(Before(h, d), d, 0) == Before(h, d);
      } else if e.EntrySubmitted? {
        AddToday(p, d, count);
        assert Before(h, d) == p && EntriesIn(h, d, d) == count + 1;
      } else {
        assert Before(h, d) == p && EntriesIn(h, d, d) == count;
      }
    }
  }

  lemma AddToday(p: seq<DayCount>, day: int, count: nat)
    requires p != [] ==> p[|p| - 1].day < day
    ensures AddEntry(FinishDay(p, day, count), day) == FinishDay(p, day, count + 1)
  {
  }

  lemma LastOfAppend<T>(s: seq<T>, x: T, n: nat)
    requires n > 0
    ensures Last(Last(s, n) + [x], n) == Last(s + [x], n)
  {
  }

  /** What a day's state keeps of the history: the day's own entries and the last five finished days with entries. */
  lemma {:induction false} RolledIsHistory(g: GuardSettings, h: seq<GuardEvent>, t: int)
    requires Ordered(h) && UpTo(h, t)
    ensures var s := Rolled(StateAfter(g, h), t);
            s.tradesOpened == EntriesIn(h, t, t) && s.recent == Last(Before(h, t), 5)
    decreases |h|
  {
    if h != [] {
      var init, e := h[..|h| - 1], h[|h| - 1];
      var d := e.now.day;
      hide Record, AddEntry;
      RolledIsHistory(g, init, d);
      RecordKeeps(g, StateAfter(g, init), e);
      assert EntriesIn(h, d, d) == EntriesIn(init, d, d) + (if e.EntrySubmitted? then 1 else 0);
      assert Before(h, d) == Before(init, d);
      if d < t {
        BeforeSplit(h, d, t);
        NoneLater(h, t, t);
        LastOfAppend(Before(h, d), DayCount(d, EntriesIn(h, d, d)), 5);
      }
    }
  }

  lemma RecordKeeps(g: GuardSettings, s: TrackerState, e: GuardEvent)
    ensures var r, s' := Rolled(s, e.now.day), Record(g, s, e);
            && s'.tradingDay == Some(e.now.day) && s'.recent == r.recent
            && s'.tradesOpened == r.tradesOpened + (if e.EntrySubmitted? then 1 else 0)
  {
  }

  lemma UsedIsHistory(g: GuardSettings, h: seq<GuardEvent>, t: int)
    requires Ordered(h) && UpTo(h, t)
    ensures DayTradesUsed(StateAfter(g, h), t) == EntriesIn(h, t, t) + SumCounts(Last(Before(h, t), 4))
  {
    RolledIsHistory(g, h, t);
    assert Last(Last(Before(h, t), 5), 4) == Last(Before(h, t), 4);
  }

  // ------------------------------------------------- windows of active days

  /** Before day `t`, the uncut history has the same days and the same total as the records. */
  lemma {:induction false} BeforeIsWindow(h: seq<GuardEvent>, lo: int, t: int)
    requires Ordered(h)
    ensures DaysFrom(Before(h, t), lo) == ActiveDays(h, lo, t - 1)
    ensures SumFrom(Before(h, t), lo) == EntriesIn(h, lo, t - 1)
  {
    if h != [] {
      var init, e := h[..|h| - 1], h[|h| - 1];
      BeforeIsWindow(init, lo, t);
      ActiveSnoc(h, lo, t - 1);
      if e.EntrySubmitted? && e.now.day < t {
        AddEntryCounts(Before(init, t), e.now.day, lo);
      }
    }
  }

  lemma AddEntryCounts(p: seq<DayCount>, day: int, lo: int)
    ensures DaysFrom(AddEntry(p, day), lo) == DaysFrom(p, lo) + (if day >= lo then {day} else {})
    ensures SumFrom(AddEntry(p, day), lo) == SumFrom(p, lo) + (if day >= lo then 1 else 0)
  {
    var q := AddEntry(p, day);
    assert q[..|q| - 1] == if p != [] && p[|p| - 1].day == day then p[..|p| - 1] else p;
    DaysSnoc(q, lo);
    if p != [] { DaysSnoc(p, lo); }
  }

  lemma ActiveSnoc(h: seq<GuardEvent>, lo: int, hi: int)
    requires h != []
    ensures var e := h[|h| - 1];
            ActiveDays(h, lo, hi) == ActiveDays(h[..|h| - 1], lo, hi)
                                     + (if e.EntrySubmitted? && lo <= e.now.day <= hi then {e.now.day} else {})
  {
    var init := h[..|h| - 1];
    assert forall i :: 0 <= i < |init| ==> init[i] == h[i];
    assert h[|h| - 1] in h;
  }

  lemma DaysSnoc(p: seq<DayCount>, lo: int)
    requires p != []
    ensures DaysFrom(p, lo) == DaysFrom(p[..|p| - 1], lo) + (if p[|p| - 1].day >= lo then {p[|p| - 1].day} else {})
  {
    var init := p[..|p| - 1];
    assert forall i :: 0 <= i < |init| ==> init[i] == p[i];
    assert p[|p| - 1] in p;
  }

  lemma {:induction false} CountIsSize(p: seq<DayCount>, lo: int)
    requires Increasing(p)
    ensures |DaysFrom(p, lo)| == CountFrom(p, lo)
    ensures forall day :: day in DaysFrom(p, lo) ==> p != [] && day <= p[|p| - 1].day
  {
    if p != [] {
      CountIsSize(p[..|p| - 1], lo);
      DaysSnoc(p, lo);
    }
  }

  lemma {:induction false} SumNonNegative(p: seq<DayCount>)
    requires forall i :: 0 <= i < |p| ==> p[i].count > 0
    ensures SumCounts(p) >= 0
  {
    if p != [] { SumNonNegative(p[..|p| - 1]); }
  }

  lemma {:induction false} Positive(p: seq<DayCount>, i: nat)
    requires Increasing(p) && i < |p|
    ensures p[i].count > 0
  {
    if i < |p| - 1 { Positive(p[..|p| - 1], i); }
  }

  lemma {:induction false} AllEarlier(p: seq<DayCount>, lo: int)
    requires Increasing(p) && (p != [] ==> p[|p| - 1].day < lo)
    ensures SumFrom(p, lo) == 0 && CountFrom(p, lo) == 0
  {
    if p != [] { AllEarlier(p[..|p| - 1], lo); }
  }

  lemma LastSnoc(p: seq<DayCount>, n: nat)
    requires p != [] && n > 0
    ensures SumCounts(Last(p, n)) == SumCounts(Last(p[..|p| - 1], n - 1)) + p[|p| - 1].count
  {
    assert Last(p, n)[..|Last(p, n)| - 1] == Last(p[..|p| - 1], n - 1);
  }

  /** A window of at most `n` active days is covered by the last `n` of them. */
  lemma {:induction false} WindowWithinLast(p: seq<DayCount>, lo: int, n: nat)
    requires Increasing(p) && CountFrom(p, lo) <= n
    ensures SumFrom(p, lo) <= SumCounts(Last(p, n))
  {
    if p != [] {
      if p[|p| - 1].day < lo {
        AllEarlier(p, lo);
        forall i | 0 <= i < |p| ensures p[i].count > 0 { Positive(p, i); }
        SumNonNegative(Last(p, n));
      } else {
        WindowWithinLast(p[..|p| - 1], lo, n - 1);
        LastSnoc(p, n);
      }
    }
  }

  /** The last `n` active days are themselves such a window. */
  lemma {:induction false} LastIsWindow(p: seq<DayCount>, n: nat) returns (lo: int)
    requires Increasing(p) && p != []
    ensures CountFrom(p, lo) <= n && SumFrom(p, lo) == SumCounts(Last(p, n))
    ensures lo <= p[|p| - 1].day + 1
  {
    var init, day := p[..|p| - 1], p[|p| - 1].day;
    if n == 0 {
      lo := day + 1;
      AllEarlier(p, lo);
    } else {
      LastSnoc(p, n);
      hide Last;
      lo := day;
      if init != [] {
        lo := LastIsWindow(init, n - 1);
      } else {
        assert p == [p[0]];
      }
    }
  }

  /** Entries up to day `t` split into the earlier ones and those of `t`. */
  lemma {:induction false} SplitLastDay(h: seq<GuardEvent>, lo: int, t: int)
    requires lo <= t
    ensures EntriesIn(h, lo, t) == EntriesIn(h, lo, t - 1) + EntriesIn(h, t, t)
  {
    if h != [] { SplitLastDay(h[..|h| - 1], lo, t); }
  }

  lemma {:induction false} CutAtLastDay(h: seq<GuardEvent>, lo: int, t: int, hi: int)
    requires UpTo(h, t) && t <= hi
    ensures EntriesIn(h, lo, hi) == EntriesIn(h, lo, t)
  {
    if h != [] { CutAtLastDay(h[..|h| - 1], lo, t, hi); }
  }

  lemma SubsetSize<T>(a: set<T>, b: set<T>)
    requires a <= b
    ensures |a| <= |b|
  {
    assert b == a + (b - a);
  }

  /** Every window that ends today and has at most four active days before today is within what the gate counts. */
  lemma WindowWithinUsed(g: GuardSettings, h: seq<GuardEvent>, lo: int, t: int)
    requires Ordered(h) && UpTo(h, t) && lo <= t && |ActiveDays(h, lo, t - 1)| <= 4
    ensures EntriesIn(h, lo, t) <= DayTradesUsed(StateAfter(g, h), t)
  {
    UsedIsHistory(g, h, t);
    BeforeIncreasing(h, t);
    BeforeIsWindow(h, lo, t);
    CountIsSize(Before(h, t), lo);
    WindowWithinLast(Before(h, t), lo, 4);
    SplitLastDay(h, lo, t);
  }

  /**
   The gate in terms of the records alone: it refuses an entry on day `t` exactly when the rule is switched on and some
   window that ends on `t`, with at most four days with entries before it, already holds as many entries as the limit
   allows.
   */
  lemma PdtRefusesExactly(g: GuardSettings, h: seq<GuardEvent>, t: int)
    requires Ordered(h) && UpTo(h, t)
    ensures PdtBlocks(g, StateAfter(g, h), t)
            <==> g.pdtEnabled == Some(true)
                 && exists lo :: lo <= t && |ActiveDays(h, lo, t - 1)| <= 4
                                 && EntriesIn(h, lo, t) >= Setting(g.maxDayTrades, 3)
  {
    forall lo | lo <= t && |ActiveDays(h, lo, t - 1)| <= 4
      ensures EntriesIn(h, lo, t) <= DayTradesUsed(StateAfter(g, h), t)
    {
      WindowWithinUsed(g, h, lo, t);
    }
    var p := Before(h, t);
    UsedIsHistory(g, h, t);
    BeforeIncreasing(h, t);
    var lo := t;
    if p != [] { lo := LastIsWindow(p, 4); }
    BeforeIsWindow(h, lo, t);
    CountIsSize(p, lo);
    SplitLastDay(h, lo, t);
    assert EntriesIn(h, lo, t) == DayTradesUsed(StateAfter(g, h), t);
  }

  /** An entry that passed the gate fits the limit of every window of at most five active days that it belongs to. */
  lemma PassedEntryFits(g: GuardSettings, h: seq<GuardEvent>, e: GuardEvent, lo: int, hi: int)
    requires Ordered(h) && UpTo(h, e.now.day) && g.pdtEnabled == Some(true)
    requires lo <= e.now.day <= hi && |ActiveDays(h, lo, hi) + {e.now.day}| <= 5
    requires !PdtBlocks(g, StateAfter(g, h), e.now.day)
    ensures EntriesIn(h, lo, hi) < Setting(g.maxDayTrades, 3)
  {
    var t := e.now.day;
    var earlier := ActiveDays(h, lo, t - 1);
    SubsetSize(earlier + {t}, ActiveDays(h, lo, hi) + {t});
    WindowWithinUsed(g, h, lo, t);
    CutAtLastDay(h, lo, t, hi);
  }

  lemma GatedInit(g: GuardSettings, h: seq<GuardEvent>)
    requires Gated(g, h) && h != []
    ensures Gated(g, h[..|h| - 1])
    ensures h[|h| - 1].EntrySubmitted? ==> !PdtBlocks(g, StateAfter(g, h[..|h| - 1]), h[|h| - 1].now.day)
  {
    var init := h[..|h| - 1];
    assert forall i :: 0 <= i < |init| ==> h[..i] == init[..i] && init[i] == h[i];
  }

  /**
   The limit over whole histories: when days never go backwards and every entry passed the gate, any range of days
   with at most five days with entries holds at most the allowed number of entries.
   */
  lemma {:induction false} PdtWindow(g: GuardSettings, h: seq<GuardEvent>, lo: int, hi: int)
    requires Ordered(h) && g.pdtEnabled == Some(true) && Gated(g, h)
    requires |ActiveDays(h, lo, hi)| <= 5
    ensures EntriesIn(h, lo, hi) <= Max(Setting(g.maxDayTrades, 3), 0)
  {
    if h != [] {
      var init, e := h[..|h| - 1], h[|h| - 1];
      GatedInit(g, h);
      hide StateAfter, Gated;
      ActiveSnoc(h, lo, hi);
      if e.EntrySubmitted? && lo <= e.now.day <= hi {
        PassedEntryFits(g, init, e, lo, hi);
      } else {
        SubsetSize(ActiveDays(init, lo, hi), ActiveDays(h, lo, hi));
        PdtWindow(g, init, lo, hi);
      }
    }
  }
}
