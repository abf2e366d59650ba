/** The duration percentiles of modules/reporting/metric-service.js, in exact arithmetic. */
module Percentile {
  import opened Wrappers
  import opened Ordering

  /** `Undefined` and `NotANumber` are what reading past the ends of the list leads to. */
  datatype Result = Value(value: real) | Null | Undefined | NotANumber

  function Floor(x: real): int { x.Floor }

  function Ceil(x: real): int { -((-x).Floor) }

  function Position(count: nat, rank: real): real { (count - 1) as real * rank }

  function Blend(low: real, high: real, part: real): real { low + (high - low) * part }

  function Percentile(values: seq<real>, rank: real): Result {
    if |values| == 0 then Null
    else
      var position := Position(|values|, rank);
      var lower, upper := Floor(position), Ceil(position);
      if lower == upper then (if 0 <= lower < |values| then Value(values[lower]) else Undefined)
      else if 0 <= lower && upper < |values|
      then Value(Blend(values[lower], values[upper], position - lower as real))
      else NotANumber
  }

  predicate Ascending(values: seq<real>) { forall i, j | 0 <= i <= j < |values| :: values[i] <= values[j] }

  predicate InRange(values: seq<real>, position: real) { 0.0 <= position <= (|values| - 1) as real }

  /** The interpolated value at a position; the two cases of `Percentile` agree on it. */
  function At(values: seq<real>, position: real): real
    requires InRange(values, position)
  {
    Blend(values[Floor(position)], values[Ceil(position)], position - Floor(position) as real)
  }

  lemma FloorCeil(x: real)
    ensures Floor(x) as real <= x <= Ceil(x) as real && x < Floor(x) as real + 1.0
    ensures Ceil(x) == if x == Floor(x) as real then Floor(x) else Floor(x) + 1
  {
  }

  lemma Scaled(n: real, a: real, b: real)
    requires 0.0 <= n && a <= b
    ensures n * a <= n * b
  {
    assert n * (b - a) >= 0.0;
  }

  lemma PositionGrows(count: nat, a: real, b: real)
    requires count > 0 && 0.0 <= a <= b <= 1.0
    ensures 0.0 <= Position(count, a) <= Position(count, b) <= (count - 1) as real
  {
    var n := (count - 1) as real;
    Scaled(n, 0.0, a);
    Scaled(n, a, b);
    Scaled(n, b, 1.0);
  }

  lemma Interpolated(values: seq<real>, rank: real)
    requires |values| > 0 && InRange(values, Position(|values|, rank))
    ensures Percentile(values, rank) == Value(At(values, Position(|values|, rank)))
  {
    hide Position;
    FloorCeil(Position(|values|, rank));
  }

  lemma Between(low: real, high: real, part: real)
    requires low <= high && 0.0 <= part <= 1.0
    ensures low <= Blend(low, high, part) <= high
  {
    Scaled(high - low, 0.0, part);
    Scaled(high - low, part, 1.0);
  }

  lemma BlendGrows(low: real, high: real, a: real, b: real)
    requires low <= high && a <= b
    ensures Blend(low, high, a) <= Blend(low, high, b)
  {
    Scaled(high - low, a, b);
  }

  /** The value lies between the two order statistics around its position. */
  lemma Bracketed(values: seq<real>, position: real)
    requires Ascending(values) && InRange(values, position)
    ensures values[Floor(position)] <= At(values, position) <= values[Ceil(position)]
  {
    hide Floor, Ceil, Blend;
    FloorCeil(position);
    Between(values[Floor(position)], values[Ceil(position)], position - Floor(position) as real);
  }

  /** Within one cell the value grows with the position. */
  lemma SameCell(values: seq<real>, p: real, q: real)
    requires Ascending(values) && InRange(values, p) && InRange(values, q) && p <= q
    requires Floor(p) == Floor(q) && Ceil(p) == Ceil(q)
    ensures At(values, p) <= At(values, q)
  {
    hide Floor, Ceil, Blend;
    FloorCeil(p);
    BlendGrows(values[Floor(p)], values[Ceil(p)], p - Floor(p) as real, q - Floor(p) as real);
  }

  /** Monotone within a cell and across cells. */
  lemma AtMonotone(values: seq<real>, p: real, q: real)
    requires Ascending(values) && InRange(values, p) && InRange(values, q) && p <= q
    ensures At(values, p) <= At(values, q)
  {
    hide At, Floor, Ceil;
    FloorCeil(p);
    FloorCeil(q);
    Bracketed(values, p);
    Bracketed(values, q);
    AtWhole(values, p);
    if Floor(p) == Floor(q) {
      if Ceil(p) == Ceil(q) { SameCell(values, p, q); }
    } else {
      assert Ceil(p) <= Floor(q);
    }
  }

  lemma AtWhole(values: seq<real>, position: real)
    requires InRange(values, position)
    ensures position == Floor(position) as real ==> At(values, position) == values[Floor(position)]
  {
  }

  /** A percentile of a sorted list lies between its ends and grows with the rank. */
  lemma PercentileMonotone(values: seq<real>, a: real, b: real)
    requires Ascending(values) && |values| > 0 && 0.0 <= a <= b <= 1.0
    ensures Percentile(values, a).Value? && Percentile(values, b).Value?
    ensures values[0] <= Percentile(values, a).value <= Percentile(values, b).value <= values[|values| - 1]
  {
    hide At, Percentile, Position, Floor, Ceil;
    var p, q := Position(|values|, a), Position(|values|, b);
    PositionGrows(|values|, a, b);
    Interpolated(values, a);
    Interpolated(values, b);
    AtMonotone(values, p, q);
    Bracketed(values, p);
    Bracketed(values, q);
    FloorCeil(p);
    FloorCeil(q);
  }

  /** At the rank of an order statistic the percentile is that order statistic. */
  lemma PercentileHits(values: seq<real>, k: nat)
    requires |values| > 1 && k < |values|
    ensures Percentile(values, k as real / (|values| - 1) as real) == Value(values[k])
  {
    hide Position;
    PositionHits(|values|, k);
    FloorCeil(k as real);
  }

  lemma PositionHits(count: nat, k: nat)
    requires count > 1
    ensures Position(count, k as real / (count - 1) as real) == k as real
  {
    var n := (count - 1) as real;
    assert n * (k as real / n) == k as real;
  }

  lemma PositionAt(count: nat, k: nat, t: real)
    requires count > 1
    ensures Position(count, (k as real + t) / (count - 1) as real) == k as real + t
  {
    var n := (count - 1) as real;
    assert n * ((k as real + t) / n) == k as real + t;
  }

  lemma BlendTells(low: real, high: real, t: real)
    ensures Blend(low, high, t) == (1.0 - t) * low + t * high
  {
    assert (high - low) * t == t * high - t * low;
  }

  lemma FloorIs(x: real, k: nat, t: real)
    requires x == k as real + t && 0.0 <= t < 1.0
    ensures Floor(x) == k && Ceil(x) == if t == 0.0 then k else k + 1
  {
    FloorCeil(x);
  }

  /** At a position `t` of the way from the k-th value to the next. */
  lemma PercentileAt(values: seq<real>, rank: real, k: nat, t: real)
    requires k < |values| && 0.0 <= t < 1.0 && (k + 1 == |values| ==> t == 0.0)
    requires Position(|values|, rank) == k as real + t
    ensures Percentile(values, rank)
      == Value(if k + 1 < |values| then (1.0 - t) * values[k] + t * values[k + 1] else values[k])
  {
    hide Position, Blend, Floor, Ceil;
    FloorIs(Position(|values|, rank), k, t);
    if k + 1 < |values| { BlendTells(values[k], values[k + 1], t); }
  }

  /** Between the k-th value and the next the percentile divides the distance as the position does. */
  lemma PercentileInterpolates(values: seq<real>, k: nat, t: real)
    requires k + 1 < |values| && 0.0 <= t <= 1.0
    ensures Percentile(values, (k as real + t) / (|values| - 1) as real)
      == Value((1.0 - t) * values[k] + t * values[k + 1])
  {
    hide Position, Percentile;
    PositionAt(|values|, k, t);
    if t < 1.0 {
      PercentileAt(values, (k as real + t) / (|values| - 1) as real, k, t);
    } else {
      PercentileAt(values, (k as real + t) / (|values| - 1) as real, k + 1, 0.0);
    }
  }

  // ----- the summary

  /** An event; times and durations that are no finite number are `None`. */
  datatype Event = Event(tenantId: string, eventType: string, occurredAt: Option<real>, durationMs: Option<real>,
                         fields: map<string, string>)

  datatype Query = Query(tenantId: string, from: Option<real>, to: Option<real>, dimensions: map<string, string>)

  predicate Selected(e: Event, q: Query) {
    && e.tenantId == q.tenantId
    && e.occurredAt.Some?
    && (q.from.Some? ==> e.occurredAt.value >= q.from.value)
    && (q.to.Some? ==> e.occurredAt.value < q.to.value)
    && forall k | k in q.dimensions :: k in e.fields && e.fields[k] == q.dimensions[k]
  }

  /** The duration that one event contributes, if any. */
  function DurationOf(e: Event, q: Query, eventType: string): seq<real> {
    if Selected(e, q) && e.eventType == eventType && e.durationMs.Some? then [e.durationMs.value] else []
  }

  function DurationsIn(events: seq<Event>, q: Query, eventType: string): seq<real> {
    if events == [] then []
    else
      var n := |events| - 1;
      DurationsIn(events[..n], q, eventType) + DurationOf(events[n], q, eventType)
  }

  const LESS: (real, real) -> bool := (a: real, b: real) => a < b

  const ITSELF: real -> real := (x: real) => x

  function Durations(events: seq<Event>, q: Query, eventType: string): seq<real> {
    Sort(DurationsIn(events, q, eventType), ITSELF, LESS)
  }

  datatype Summary = Summary(count: nat, p50: Result, p90: Result, p95: Result)

  function Summarize(values: seq<real>): Summary {
    Summary(|values|, Percentile(values, 0.5), Percentile(values, 0.9), Percentile(values, 0.95))
  }

  lemma LessTotal()
    ensures StrictTotal(LESS)
  {
  }

  lemma SortedAscends(values: seq<real>)
    requires Sorted(values, ITSELF, LESS)
    ensures Ascending(values)
  {
    forall i, j | 0 <= i <= j < |values| ensures values[i] <= values[j] {
      if i < j { assert !LESS(ITSELF(values[j]), ITSELF(values[i])); }
    }
  }

  lemma DurationsAscending(events: seq<Event>, q: Query, eventType: string)
    ensures Ascending(Durations(events, q, eventType))
    ensures multiset(Durations(events, q, eventType)) == multiset(DurationsIn(events, q, eventType))
  {
    hide DurationsIn, Ascending, Sorted, StrictTotal;
    LessTotal();
    SortSorted(DurationsIn(events, q, eventType), ITSELF, LESS);
    SortedAscends(Durations(events, q, eventType));
  }

  /**
   * The durations counted are those of the tenant's events of the type, from the start of the period up to but not at
   * its end, that agree with all dimensions and have a finite duration; one for each event.
   */
  lemma {:induction false} DurationsCounted(events: seq<Event>, q: Query, eventType: string, d: real)
    ensures multiset(DurationsIn(events, q, eventType))[d] == |Contributors(events, q, eventType, d)|
    decreases |events|
  {
    if events != [] { DurationsCounted(events[..|events| - 1], q, eventType, d); }
  }

  /** An event of the tenant and type, within the period and the dimensions, that lasted `d`. */
  ghost predicate Lasted(e: Event, q: Query, eventType: string, d: real) {
    && e.tenantId == q.tenantId && e.eventType == eventType && e.durationMs == Some(d) && e.occurredAt.Some?
    && (q.from.Some? ==> q.from.value <= e.occurredAt.value) && (q.to.Some? ==> e.occurredAt.value < q.to.value)
    && forall k | k in q.dimensions :: k in e.fields && e.fields[k] == q.dimensions[k]
  }

  /** The places of the events that contribute a given duration. */
  function Contributors(events: seq<Event>, q: Query, eventType: string, d: real): (places: seq<nat>)
    ensures forall i | 0 <= i < |places| :: places[i] < |events| && Lasted(events[places[i]], q, eventType, d)
    ensures forall n | 0 <= n < |events| && Lasted(events[n], q, eventType, d) :: n in places
    ensures forall i, j | 0 <= i < j < |places| :: places[i] < places[j]
  {
    if events == [] then []
    else
      var n := |events| - 1;
      Contributors(events[..n], q, eventType, d)
      + if Selected(events[n], q) && events[n].eventType == eventType && events[n].durationMs == Some(d) then [n] else []
  }

  /** For any events: the percentiles are ordered and lie between the shortest and the longest duration. */
  lemma SummaryOrdered(events: seq<Event>, q: Query, eventType: string)
    ensures var s := Summarize(Durations(events, q, eventType));
      if s.count == 0 then s == Summary(0, Null, Null, Null)
      else s.p50.Value? && s.p90.Value? && s.p95.Value? && s.p50.value <= s.p90.value <= s.p95.value
    ensures var s := Summarize(Durations(events, q, eventType));
      s.count == |DurationsIn(events, q, eventType)|
      && (s.count > 0 ==> exists a, b :: a in DurationsIn(events, q, eventType) && b in DurationsIn(events, q, eventType)
                                         && a <= s.p50.value && s.p95.value <= b)
  {
    hide Percentile, Durations, DurationsIn;
    var values, given := Durations(events, q, eventType), DurationsIn(events, q, eventType);
    DurationsAscending(events, q, eventType);
    assert |values| == |multiset(values)| == |multiset(given)| == |given|;
    EmptyPercentile();
    if |values| > 0 {
      PercentileMonotone(values, 0.5, 0.9);
      PercentileMonotone(values, 0.9, 0.95);
      MultisetMembers(values, given, values[0]);
      MultisetMembers(values, given, values[|values| - 1]);
    }
  }

  /** The value `k` places and a `part` of the next place up from the first. */
  ghost predicate IsValueAt(values: seq<real>, k: nat, part: real, r: Result) {
    k < |values| && r == Value(if k + 1 < |values| then (1.0 - part) * values[k] + part * values[k + 1] else values[k])
  }

  lemma HalfWay(values: seq<real>)
    requires |values| > 0
    ensures var n := |values| - 1; IsValueAt(values, n / 2, (n % 2) as real / 2.0, Percentile(values, 0.5))
  {
    hide Percentile;
    var n := |values| - 1;
    assert n == n / 2 * 2 + n % 2;
    PercentileAt(values, 0.5, n / 2, (n % 2) as real / 2.0);
  }

  lemma NineTenths(values: seq<real>)
    requires |values| > 0
    ensures var n := 9 * (|values| - 1); IsValueAt(values, n / 10, (n % 10) as real / 10.0, Percentile(values, 0.9))
  {
    hide Percentile;
    var n := 9 * (|values| - 1);
    assert n == n / 10 * 10 + n % 10;
    PercentileAt(values, 0.9, n / 10, (n % 10) as real / 10.0);
  }

  lemma NineteenTwentieths(values: seq<real>)
    requires |values| > 0
    ensures var n := 19 * (|values| - 1); IsValueAt(values, n / 20, (n % 20) as real / 20.0, Percentile(values, 0.95))
  {
    hide Percentile;
    var n := 19 * (|values| - 1);
    assert n == n / 20 * 20 + n % 20;
    PercentileAt(values, 0.95, n / 20, (n % 20) as real / 20.0);
  }

  /**
   * The summary of the selected durations in ascending order: their number, and the values one half, nine tenths and
   * nineteen twentieths of the way from the first to the last.
   */
  lemma SummaryTells(events: seq<Event>, q: Query, eventType: string)
    ensures var values, s := Durations(events, q, eventType), Summarize(Durations(events, q, eventType));
      && s.count == |values|
      && if values == [] then s.p50 == s.p90 == s.p95 == Null
         else
           var n := |values| - 1;
           && IsValueAt(values, n / 2, (n % 2) as real / 2.0, s.p50)
           && IsValueAt(values, 9 * n / 10, (9 * n % 10) as real / 10.0, s.p90)
           && IsValueAt(values, 19 * n / 20, (19 * n % 20) as real / 20.0, s.p95)
  {
    hide Percentile, Durations, IsValueAt;
    var values := Durations(events, q, eventType);
    EmptyPercentile();
    if values != [] {
      HalfWay(values);
      NineTenths(values);
      NineteenTwentieths(values);
    }
  }

  lemma EmptyPercentile()
    ensures forall rank :: Percentile([], rank) == Null
  {
  }

  lemma DurationsPush(events: seq<Event>, e: Event, q: Query, eventType: string)
    ensures DurationsIn(events + [e], q, eventType) == DurationsIn(events, q, eventType) + DurationOf(e, q, eventType)
  {
    hide DurationOf;
    assert (events + [e])[..|events|] == events;
  }

  lemma {:induction false} DurationsInRemoveAt(events: seq<Event>, q: Query, eventType: string, k: nat)
    requires k < |events|
    ensures multiset(DurationsIn(events, q, eventType))
      == multiset(DurationsIn(RemoveAt(events, k), q, eventType)) + multiset(DurationOf(events[k], q, eventType))
    decreases |events|
  {
    hide DurationOf, DurationsIn;
    var n := |events| - 1;
    var rest, head := RemoveAt(events, k), events[..n];
    assert events == head + [events[n]];
    DurationsPush(head, events[n], q, eventType);
    if k == n {
      assert rest == head;
    } else {
      DurationsInRemoveAt(head, q, eventType, k);
      assert rest == RemoveAt(head, k) + [events[n]];
      DurationsPush(RemoveAt(head, k), events[n], q, eventType);
    }
  }

  lemma {:induction false} DurationsInOrderFree(xs: seq<Event>, ys: seq<Event>, q: Query, eventType: string)
    requires multiset(xs) == multiset(ys)
    ensures multiset(DurationsIn(xs, q, eventType)) == multiset(DurationsIn(ys, q, eventType))
    decreases |xs|
  {
    hide DurationsIn;
    assert |xs| == |multiset(xs)| == |multiset(ys)| == |ys|;
    if xs == [] {
      assert xs == ys;
    } else {
      MultisetMembers(xs, ys, xs[0]);
      var k :| 0 <= k < |ys| && ys[k] == xs[0];
      RemoveAtMultiset(xs, 0);
      RemoveAtMultiset(ys, k);
      DurationsInOrderFree(RemoveAt(xs, 0), RemoveAt(ys, k), q, eventType);
      DurationsInRemoveAt(xs, q, eventType, 0);
      DurationsInRemoveAt(ys, q, eventType, k);
    }
  }

  /** The summary depends on the events alone, not on the order in which they come. */
  lemma SummaryOrderFree(xs: seq<Event>, ys: seq<Event>, q: Query, eventType: string)
    requires multiset(xs) == multiset(ys)
    ensures Summarize(Durations(xs, q, eventType)) == Summarize(Durations(ys, q, eventType))
  {
    hide Percentile, DurationsIn, Sort;
    LessTotal();
    DurationsInOrderFree(xs, ys, q, eventType);
    SortOrderFree(DurationsIn(xs, q, eventType), DurationsIn(ys, q, eventType), ITSELF, LESS);
  }
}
