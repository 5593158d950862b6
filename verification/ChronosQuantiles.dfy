/** Forecast paths from samples: interpolated quantiles, one row of samples for each step of the horizon. */
module ChronosQuantiles {
  import opened Common

  /** What the model returns, once tensors and tuples are lists. */
  datatype Nested = Number(value: real) | Items(items: seq<Nested>)

  datatype Paths = Paths(q10: seq<real>, q50: seq<real>, q90: seq<real>)

  datatype ForecastError = NoForecastValues | UnsupportedShape | EmptySamplePath | TooFewPredictions

  // --------------------------------------------------------------- sorting

  ghost predicate Ascending(s: seq<real>) {
    forall i, j :: 0 <= i <= j < |s| ==> s[i] <= s[j]
  }

  function Insert(x: real, s: seq<real>): seq<real> {
    if s == [] then [x] else if x <= s[0] then [x] + s else [s[0]] + Insert(x, s[1..])
  }

  function Sorted(s: seq<real>): (r: seq<real>)
    ensures |r| == |s|
  {
    if s == [] then [] else InsertSize(s[0], Sorted(s[1..])); Insert(s[0], Sorted(s[1..]))
  }

  lemma {:induction false} InsertSize(x: real, s: seq<real>)
    ensures |Insert(x, s)| == |s| + 1
  {
    if s != [] && !(x <= s[0]) { InsertSize(x, s[1..]); }
  }

  lemma {:induction false} InsertAdds(x: real, s: seq<real>)
    ensures multiset(Insert(x, s)) == multiset(s) + multiset{x}
  {
    if s != [] {
      assert s == [s[0]] + s[1..];
      InsertAdds(x, s[1..]);
    }
  }

  lemma PutFirst(x: real, s: seq<real>)
    requires Ascending(s) && (forall y :: y in multiset(s) ==> x <= y)
    ensures Ascending([x] + s)
  {
    assert forall j :: 0 <= j < |s| ==> s[j] in multiset(s);
  }

  lemma {:induction false} InsertKeepsOrder(x: real, s: seq<real>)
    requires Ascending(s)
    ensures Ascending(Insert(x, s))
  {
    if s != [] {
      var rest := s[1..];
      assert s == [s[0]] + rest;
      if x <= s[0] {
        PutFirst(x, s);
      } else {
        InsertKeepsOrder(x, rest);
        InsertAdds(x, rest);
        PutFirst(s[0], Insert(x, rest));
      }
    }
  }

  lemma {:induction false} SortedKeepsSamples(s: seq<real>)
    ensures multiset(Sorted(s)) == multiset(s)
  {
    hide Insert;
    if s != [] {
      SortedKeepsSamples(s[1..]);
      InsertAdds(s[0], Sorted(s[1..]));
      assert s == [s[0]] + s[1..];
    }
  }

  lemma {:induction false} SortedAscends(s: seq<real>)
    ensures Ascending(Sorted(s))
  {
    if s != [] {
      SortedAscends(s[1..]);
      InsertKeepsOrder(s[0], Sorted(s[1..]));
      hide Ascending, Insert;
    }
  }

  lemma SortedIsAscending(s: seq<real>)
    ensures Ascending(Sorted(s)) && multiset(Sorted(s)) == multiset(s)
  {
    SortedKeepsSamples(s);
    SortedAscends(s);
  }

  // -------------------------------------------------------------- quantiles

  function Interpolate(start: real, gap: real, part: real): real {
    start + gap * part
  }

  /** Linear interpolation at a position between the first and the last index. */
  function At(ordered: seq<real>, position: real): real
    requires ordered != [] && 0.0 <= position <= (|ordered| - 1) as real
  {
    var lower := position.Floor;
    var upper := Min(lower + 1, |ordered| - 1);
    Interpolate(ordered[lower], ordered[upper] - ordered[lower], position - lower as real)
  }

  lemma PartOf(x: real, part: real)
    requires x >= 0.0 && 0.0 <= part <= 1.0
    ensures 0.0 <= x * part <= x
  {
    NonNegativeProduct(x, part);
    NonNegativeProduct(x, 1.0 - part);
    assert x * (1.0 - part) == x - x * part;
  }

  function Position(n: nat, level: real): (p: real)
    requires n > 0 && 0.0 <= level <= 1.0
    ensures 0.0 <= p <= (n - 1) as real
  {
    PartOf((n - 1) as real, level);
    (n - 1) as real * level
  }

  lemma Scaled(k: real, a: real, b: real)
    requires k >= 0.0 && a <= b
    ensures k * a <= k * b
  {
    var d := b - a;
    NonNegativeProduct(k, d);
    assert k * b == k * (a + d) == k * a + k * d;
  }

  lemma NonNegativeProduct(x: real, y: real)
    requires x >= 0.0 && y >= 0.0
    ensures x * y >= 0.0
  {
  }

  /** The quantile of a non-empty list of samples. */
  function Quantile(values: seq<real>, level: real): real
    requires values != [] && 0.0 <= level <= 1.0
  {
    At(Sorted(values), Position(|values|, level))
  }

  lemma InterpolateWithin(start: real, gap: real, part: real)
    requires gap >= 0.0 && 0.0 <= part <= 1.0
    ensures start <= Interpolate(start, gap, part) <= start + gap
  {
    PartOf(gap, part);
  }

  lemma InterpolateMonotone(start: real, gap: real, x: real, y: real)
    requires gap >= 0.0 && x <= y
    ensures Interpolate(start, gap, x) <= Interpolate(start, gap, y)
  {
    Scaled(gap, x, y);
  }

  /** An interpolated value lies between the two samples it is taken from. */
  lemma AtWithin(ordered: seq<real>, position: real)
    requires ordered != [] && Ascending(ordered) && 0.0 <= position <= (|ordered| - 1) as real
    ensures var lower := position.Floor;
            var upper := Min(lower + 1, |ordered| - 1);
            ordered[lower] <= At(ordered, position) <= ordered[upper]
  {
    hide Interpolate;
    var lower := position.Floor;
    var upper := Min(lower + 1, |ordered| - 1);
    InterpolateWithin(ordered[lower], ordered[upper] - ordered[lower], position - lower as real);
  }

  /** Interpolation on an ascending list is monotone in the position. */
  lemma AtMonotone(ordered: seq<real>, p: real, q: real)
    requires ordered != [] && Ascending(ordered) && 0.0 <= p <= q <= (|ordered| - 1) as real
    ensures At(ordered, p) <= At(ordered, q)
  {
    hide Interpolate;
    AtWithin(ordered, p);
    AtWithin(ordered, q);
    var lower, upper := p.Floor, Min(p.Floor + 1, |ordered| - 1);
    if lower == q.Floor {
      InterpolateMonotone(ordered[lower], ordered[upper] - ordered[lower], p - lower as real, q - lower as real);
    } else {
      assert upper <= q.Floor;
      assert ordered[upper] <= ordered[q.Floor];
    }
  }

  ghost predicate Between(x: real, values: seq<real>) {
    (exists v :: v in values && v <= x) && (exists v :: v in values && x <= v)
  }

  /** The envelope: a quantile lies between two of the samples, hence between the smallest and the largest. */
  lemma QuantileEnvelope(values: seq<real>, level: real)
    requires values != [] && 0.0 <= level <= 1.0
    ensures Between(Quantile(values, level), values)
  {
    SortedIsAscending(values);
    var ordered := Sorted(values);
    var position := Position(|values|, level);
    AtWithin(ordered, position);
    SampleAt(values, position.Floor);
    SampleAt(values, Min(position.Floor + 1, |ordered| - 1));
  }

  lemma SampleAt(values: seq<real>, i: nat)
    requires i < |Sorted(values)|
    ensures Sorted(values)[i] in values
  {
    SortedIsAscending(values);
    assert Sorted(values)[i] in multiset(Sorted(values));
  }

  lemma PositionMonotone(n: nat, a: real, b: real)
    requires n > 0 && 0.0 <= a <= b <= 1.0
    ensures Position(n, a) <= Position(n, b)
  {
    Scaled((n - 1) as real, a, b);
  }

  lemma QuantileMonotone(values: seq<real>, a: real, b: real)
    requires values != [] && 0.0 <= a <= b <= 1.0
    ensures Quantile(values, a) <= Quantile(values, b)
  {
    SortedIsAscending(values);
    PositionMonotone(|values|, a, b);
    AtMonotone(Sorted(values), Position(|values|, a), Position(|values|, b));
  }

  /** At the level of a rank the quantile is the sample of that rank; levels 0 and 1 give the smallest and the largest. */
  lemma QuantileAtRank(values: seq<real>, k: nat)
    requires |values| > 1 && k < |values|
    ensures var level := k as real / (|values| - 1) as real;
            0.0 <= level <= 1.0 && Quantile(values, level) == Sorted(values)[k]
  {
    var n := (|values| - 1) as real;
    Share(k as real, n);
    PositionOfShare(|values|, k as real);
    AtRank(Sorted(values), k);
  }

  /**
   Between two neighbouring ranks the quantile is linear in the level: a share `part` of the way from one rank's level to
   the next, it is that share of the way from the one sample to the other.
   */
  lemma QuantileIsLinear(values: seq<real>, k: nat, part: real)
    requires k + 1 < |values| && 0.0 <= part < 1.0
    ensures var level := (k as real + part) / (|values| - 1) as real;
            && 0.0 <= level <= 1.0
            && Quantile(values, level) == Blend(Sorted(values)[k], Sorted(values)[k + 1], part)
  {
    hide At, Sorted, Position, Blend;
    var x := k as real + part;
    Share(x, (|values| - 1) as real);
    PositionOfShare(|values|, x);
    AtBetween(Sorted(values), k, part);
  }

  /** So much of the one and the rest of the other. */
  function Blend(a: real, b: real, part: real): real {
    (1.0 - part) * a + part * b
  }

  lemma AtBetween(ordered: seq<real>, k: nat, part: real)
    requires k + 1 < |ordered| && 0.0 <= part < 1.0
    ensures At(ordered, k as real + part) == Blend(ordered[k], ordered[k + 1], part)
  {
    assert (k as real + part).Floor == k;
    var a, b := ordered[k], ordered[k + 1];
    assert a + (b - a) * part == (1.0 - part) * a + part * b;
  }

  lemma Share(k: real, n: real)
    requires 0.0 <= k <= n && n > 0.0
    ensures 0.0 <= k / n <= 1.0
  {
  }

  lemma PositionOfShare(n: nat, x: real)
    requires n > 1 && 0.0 <= x / (n - 1) as real <= 1.0
    ensures Position(n, x / (n - 1) as real) == x
  {
    var m := (n - 1) as real;
    assert m * (x / m) == x;
  }

  lemma AtRank(ordered: seq<real>, k: nat)
    requires k < |ordered|
    ensures At(ordered, k as real) == ordered[k]
  {
    assert (k as real).Floor == k;
    assert Interpolate(ordered[k], ordered[Min(k + 1, |ordered| - 1)] - ordered[k], 0.0) == ordered[k];
  }

  /** Only the samples count, not the order in which they come. */
  lemma QuantileOfMultiset(a: seq<real>, b: seq<real>, level: real)
    requires a != [] && multiset(a) == multiset(b) && 0.0 <= level <= 1.0
    ensures b != [] && Quantile(a, level) == Quantile(b, level)
  {
    assert |multiset(a)| == |a| && |multiset(b)| == |b|;
    SortedIsAscending(a);
    SortedIsAscending(b);
    AscendingUnique(Sorted(a), Sorted(b));
  }

  lemma FirstIsLeast(s: seq<real>, x: real)
    requires Ascending(s) && x in multiset(s)
    ensures s[0] <= x
  {
    var i :| 0 <= i < |s| && s[i] == x;
  }

  lemma {:induction false} AscendingUnique(s: seq<real>, t: seq<real>)
    requires Ascending(s) && Ascending(t) && multiset(s) == multiset(t)
    ensures s == t
  {
    assert |multiset(s)| == |s| && |multiset(t)| == |t|;
    if s != [] {
      assert s[0] in multiset(t) && t[0] in multiset(s);
      FirstIsLeast(s, t[0]);
      FirstIsLeast(t, s[0]);
      SameTail(s, t);
      TailAscends(s);
      TailAscends(t);
      hide Ascending;
      AscendingUnique(s[1..], t[1..]);
      assert s == [s[0]] + s[1..] && t == [t[0]] + t[1..];
    }
  }

  lemma TailAscends(s: seq<real>)
    requires s != [] && Ascending(s)
    ensures Ascending(s[1..])
  {
  }

  lemma SameTail(s: seq<real>, t: seq<real>)
    requires s != [] && t != [] && s[0] == t[0] && multiset(s) == multiset(t)
    ensures multiset(s[1..]) == multiset(t[1..])
  {
    assert s == [s[0]] + s[1..] && t == [t[0]] + t[1..];
    assert multiset(s[1..]) == multiset(s) - multiset{s[0]};
    assert multiset(t[1..]) == multiset(t) - multiset{t[0]};
  }

  // ------------------------------------------------------------------ paths

  /** Single-element wrappers around a list are taken off. */
  function Unwrapped(v: Nested): Nested {
    if v.Items? && |v.items| == 1 && v.items[0].Items? then Unwrapped(v.items[0]) else v
  }

  function Numbers(values: seq<Nested>): seq<real> {
    if values == [] then []
    else (if values[0].Number? then [values[0].value] else []) + Numbers(values[1..])
  }

  function Lists(values: seq<Nested>): seq<seq<real>> {
    if values == [] then []
    else (if values[0].Items? then [Numbers(values[0].items)] else []) + Lists(values[1..])
  }

  /** A list of numbers is read as those numbers, and a list of lists of numbers as those lists. */
  lemma {:induction false} ReadAsGiven(values: seq<Nested>)
    ensures (forall v :: v in values ==> v.Number?) ==>
              |Numbers(values)| == |values|
              && forall i :: 0 <= i < |values| ==> Numbers(values)[i] == values[i].value
    ensures (forall v :: v in values ==> v.Items?) ==>
              |Lists(values)| == |values|
              && forall i :: 0 <= i < |values| ==> Lists(values)[i] == Numbers(values[i].items)
  {
    if values != [] {
      ReadAsGiven(values[1..]);
      assert values == [values[0]] + values[1..];
      assert forall i :: 0 < i < |values| ==> values[i] == values[1..][i - 1];
    }
  }

  /** The samples of one step, taken across the rows. */
  function Column(rows: seq<seq<real>>, i: nat): (c: seq<real>)
    requires forall r :: r in rows ==> i < |r|
    ensures |c| == |rows|
  {
    seq(|rows|, k requires 0 <= k < |rows| => rows[k][i])
  }

  function Quantiles(steps: seq<seq<real>>, level: real): (q: seq<real>)
    requires 0.0 <= level <= 1.0 && forall k :: 0 <= k < |steps| ==> steps[k] != []
    ensures |q| == |steps|
    ensures forall k :: 0 <= k < |steps| ==> q[k] == Quantile(steps[k], level)
  {
    seq(|steps|, k requires 0 <= k < |steps| => Quantile(steps[k], level))
  }

  /** Three values in ascending order. */
  function Three(a: real, b: real, c: real): (real, real, real) {
    var s := Sorted([a, b, c]);
    (s[0], s[1], s[2])
  }

  function Complete(p: Paths, horizon: nat): Result<Paths, ForecastError> {
    if |p.q50| < horizon then Err(TooFewPredictions)
    else
      var q50 := p.q50[..horizon];
      var q10 := if |p.q10| >= horizon then p.q10[..horizon] else q50;
      var q90 := if |p.q90| >= horizon then p.q90[..horizon] else q50;
      Ok(Paths(seq(horizon, k requires 0 <= k < horizon => Three(q10[k], q50[k], q90[k]).0),
               seq(horizon, k requires 0 <= k < horizon => Three(q10[k], q50[k], q90[k]).1),
               seq(horizon, k requires 0 <= k < horizon => Three(q10[k], q50[k], q90[k]).2)))
  }

  /**
   The samples of each step: the rows themselves when there are as many as steps, otherwise the columns of rows that
   are long enough.
   */
  function StepSamples(rows: seq<seq<real>>, horizon: nat): Result<seq<seq<real>>, ForecastError> {
    if rows == [] then Err(UnsupportedShape)
    else if |rows| == horizon then Ok(rows)
    else if forall r :: r in rows ==> |r| >= horizon then
      Ok(seq(horizon, i requires 0 <= i < horizon => Column(rows, i)))
    else Err(UnsupportedShape)
  }

  function SamplePaths(samples: Nested, horizon: nat): Result<Paths, ForecastError> {
    var v := Unwrapped(samples);
    if v.Number? || v.items == [] then Err(NoForecastValues)
    else if forall x :: x in v.items ==> x.Number? then
      var points := Numbers(v.items);
      var point := if |points| <= horizon then points else points[..horizon];
      Complete(Paths(point, point, point), horizon)
    else
      var steps := StepSamples(Lists(v.items), horizon);
      if steps.Err? then Err(steps.error)
      else if exists k :: 0 <= k < |steps.value| && steps.value[k] == [] then Err(EmptySamplePath)
      else Complete(Paths(Quantiles(steps.value, 0.1), Quantiles(steps.value, 0.5), Quantiles(steps.value, 0.9)), horizon)
  }

  lemma ThreeSorted(a: real, b: real, c: real)
    ensures var t := Three(a, b, c);
            t.0 <= t.1 <= t.2 && (a <= b <= c ==> t == (a, b, c)) && multiset{t.0, t.1, t.2} == multiset{a, b, c}
  {
    var s := [a, b, c];
    SortedIsAscending(s);
    hide Sorted;
    assert multiset(s) == multiset{a, b, c};
    var r := Sorted(s);
    assert r == [r[0], r[1], r[2]];
    assert multiset(r) == multiset{r[0], r[1], r[2]};
    if a <= b <= c {
      assert Ascending(s);
      AscendingUnique(Sorted(s), s);
    }
  }

  ghost predicate InOrder(p: Paths, horizon: nat) {
    |p.q10| == |p.q50| == |p.q90| == horizon
    && forall k :: 0 <= k < horizon ==> p.q10[k] <= p.q50[k] <= p.q90[k]
  }

  /** What a path is completed from: its own value where it is long enough, otherwise the median's. */
  function Given(path: seq<real>, median: seq<real>, horizon: nat, k: nat): real
    requires k < horizon <= |median|
  {
    if |path| < horizon then median[k] else path[k]
  }

  /**
   Completion fails exactly when the median is shorter than the horizon. Otherwise it answers with three paths of the
   horizon's length that hold, at every step, the three values given there, in order; a path that is too short is
   replaced by the median.
   */
  lemma CompleteInOrder(p: Paths, horizon: nat)
    ensures Complete(p, horizon).Ok? <==> |p.q50| >= horizon
    ensures Complete(p, horizon).Ok? ==>
              var r := Complete(p, horizon).value;
              InOrder(r, horizon)
              && forall k :: 0 <= k < horizon ==> HoldsGiven(p, r, horizon, k)
  {
    hide Three, Sorted, HoldsGiven;
    if |p.q50| >= horizon {
      var r := Complete(p, horizon).value;
      forall k | 0 <= k < horizon ensures r.q10[k] <= r.q50[k] <= r.q90[k] && HoldsGiven(p, r, horizon, k) {
        CompletedStep(p, horizon, k);
      }
    }
  }

  /** At the step, the completed paths hold the three values given there. */
  ghost predicate HoldsGiven(p: Paths, r: Paths, horizon: nat, k: nat) {
    && k < |r.q10| && k < |r.q50| && k < |r.q90| && k < horizon <= |p.q50|
    && multiset{r.q10[k], r.q50[k], r.q90[k]}
       == multiset{Given(p.q10, p.q50, horizon, k), p.q50[k], Given(p.q90, p.q50, horizon, k)}
  }

  lemma CompletedStep(p: Paths, horizon: nat, k: nat)
    requires k < horizon <= |p.q50|
    ensures var r := Complete(p, horizon).value;
            r.q10[k] <= r.q50[k] <= r.q90[k] && HoldsGiven(p, r, horizon, k)
  {
    hide Three;
    var a, b, c := Given(p.q10, p.q50, horizon, k), p.q50[k], Given(p.q90, p.q50, horizon, k);
    ThreeSorted(a, b, c);
    var r := Complete(p, horizon).value;
    assert (r.q10[k], r.q50[k], r.q90[k]) == Three(a, b, c);
  }

  /** Paths that are already in order are not reordered. */
  lemma CompleteIsIdentity(p: Paths, horizon: nat)
    requires InOrder(p, horizon)
    ensures Complete(p, horizon) == Ok(p)
  {
    forall k | 0 <= k < horizon ensures Three(p.q10[k], p.q50[k], p.q90[k]) == (p.q10[k], p.q50[k], p.q90[k]) {
      ThreeSorted(p.q10[k], p.q50[k], p.q90[k]);
    }
    assert p.q10[..horizon] == p.q10 && p.q50[..horizon] == p.q50 && p.q90[..horizon] == p.q90;
    var r := Complete(p, horizon).value;
    assert r.q10 == p.q10 && r.q50 == p.q50 && r.q90 == p.q90;
  }

  /** A step's samples are the values that the runs have at its place. */
  ghost predicate StepTakes(rows: seq<seq<real>>, k: nat, step: seq<real>) {
    |step| == |rows| && forall r :: 0 <= r < |rows| ==> k < |rows[r]| && step[r] == rows[r][k]
  }

  lemma StepCount(rows: seq<seq<real>>, horizon: nat)
    requires StepSamples(rows, horizon).Ok?
    ensures |StepSamples(rows, horizon).value| == horizon
    ensures |rows| == horizon ==> StepSamples(rows, horizon).value == rows
    ensures |rows| != horizon ==>
              forall k :: 0 <= k < horizon ==>
                            |StepSamples(rows, horizon).value[k]| == |rows|
                            && forall r :: 0 <= r < |rows| ==>
                                             k < |rows[r]| && StepSamples(rows, horizon).value[k][r] == rows[r][k]
  {
  }

  /**
   On samples the reordering is the identity: the paths returned are the 10%, 50% and 90% quantiles of each step's
   samples, as many as the horizon, in order, and each between two samples of its step. As many rows as steps are
   taken for the steps themselves; any other number of rows for runs, of which a step takes the values at its place.
   */
  lemma SamplesKeepQuantiles(samples: Nested, horizon: nat)
    requires var v := Unwrapped(samples); v.Items? && exists x :: x in v.items && x.Items?
    requires SamplePaths(samples, horizon).Ok?
    ensures var steps := StepSamples(Lists(Unwrapped(samples).items), horizon);
            var p := SamplePaths(samples, horizon).value;
            && steps.Ok? && |steps.value| == horizon
            && (|Lists(Unwrapped(samples).items)| == horizon ==> steps.value == Lists(Unwrapped(samples).items))
            && (|Lists(Unwrapped(samples).items)| != horizon ==>
                  forall k :: 0 <= k < horizon ==>
                                StepTakes(Lists(Unwrapped(samples).items), k, steps.value[k]))
            && (forall k :: 0 <= k < horizon ==> steps.value[k] != [])
            && InOrder(p, horizon)
            && forall k :: 0 <= k < horizon ==>
                             && p.q10[k] == Quantile(steps.value[k], 0.1)
                             && p.q50[k] == Quantile(steps.value[k], 0.5)
                             && p.q90[k] == Quantile(steps.value[k], 0.9)
                             && Between(p.q10[k], steps.value[k]) && Between(p.q90[k], steps.value[k])
  {
    var steps := StepSamples(Lists(Unwrapped(samples).items), horizon).value;
    StepCount(Lists(Unwrapped(samples).items), horizon);
    hide StepSamples, Lists, Quantile, Complete;
    var p := Paths(Quantiles(steps, 0.1), Quantiles(steps, 0.5), Quantiles(steps, 0.9));
    forall k | 0 <= k < horizon
      ensures p.q10[k] <= p.q50[k] <= p.q90[k] && Between(p.q10[k], steps[k]) && Between(p.q90[k], steps[k])
    {
      QuantileMonotone(steps[k], 0.1, 0.5);
      QuantileMonotone(steps[k], 0.5, 0.9);
      QuantileEnvelope(steps[k], 0.1);
      QuantileEnvelope(steps[k], 0.9);
    }
    CompleteIsIdentity(p, horizon);
  }

  /**
   A flat list of numbers is a point forecast: it fails exactly when it is shorter than the horizon, and otherwise each
   of the three paths is its first values.
   */
  lemma PointForecast(samples: Nested, horizon: nat)
    requires var v := Unwrapped(samples); v.Items? && v.items != [] && forall x :: x in v.items ==> x.Number?
    ensures var v := Unwrapped(samples).items;
            var r := SamplePaths(samples, horizon);
            && (r.Ok? <==> |v| >= horizon)
            && (r.Ok? ==> r.value.q10 == r.value.q50 == r.value.q90 && |r.value.q50| == horizon
                          && forall k :: 0 <= k < horizon ==> r.value.q50[k] == v[k].value)
  {
    hide Complete;
    var v := Unwrapped(samples).items;
    ReadAsGiven(v);
    var points := Numbers(v);
    var point := if |points| <= horizon then points else points[..horizon];
    var p := Paths(point, point, point);
    CompleteInOrder(p, horizon);
    if |v| >= horizon {
      CompleteIsIdentity(p, horizon);
    }
  }

  /** A list of nothing but one list is that list. */
  lemma WrappersDoNotCount(samples: Nested, horizon: nat)
    requires samples.Items?
    ensures SamplePaths(Items([samples]), horizon) == SamplePaths(samples, horizon)
  {
  }

  /**
   When lists of samples give paths: exactly when there are as many lists as steps and none is empty, or some other
   number of lists, each at least as long as the horizon.
   */
  lemma SamplesSucceedExactly(samples: Nested, horizon: nat)
    requires var v := Unwrapped(samples); v.Items? && exists x :: x in v.items && x.Items?
    ensures var rows := Lists(Unwrapped(samples).items);
            SamplePaths(samples, horizon).Ok?
            <==> if |rows| == horizon then forall r :: 0 <= r < horizon ==> rows[r] != []
                 else forall r :: 0 <= r < |rows| ==> |rows[r]| >= horizon
  {
    var rows := Lists(Unwrapped(samples).items);
    SomeList(Unwrapped(samples).items);
    if StepSamples(rows, horizon).Ok? {
      StepCount(rows, horizon);
    }
  }

  lemma {:induction false} SomeList(values: seq<Nested>)
    requires exists x :: x in values && x.Items?
    ensures Lists(values) != []
  {
    if !values[0].Items? { SomeList(values[1..]); }
  }
}
