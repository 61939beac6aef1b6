/** Running totals of metric values per kernel, and the averages reported from them. */
module MetricAggregation {
  import opened Text
  import opened Words
  import opened MetricTable

  datatype Aggregate = Aggregate(count: uint64, sum: uint64, min: uint64, max: uint64)

  /** A new entry: the minimum starts at the largest value. */
  const NEW_AGGREGATE := Aggregate(0, 0, TWO64 - 1, 0)

  function Accumulate(a: Aggregate, v: uint64): Aggregate {
    Aggregate((a.count + 1) % TWO64, (a.sum + v) % TWO64,
              if v < a.min then v else a.min, if v > a.max then v else a.max)
  }

  /** A value whose conversion to an integer C++ defines: a float must be within range. */
  type Reading = v: TypedValue | v.Float? ==> 0.0 <= v.f < TWO64 as real witness Other

  /** Conversion of a value; a float is truncated. */
  function CastToUInt64(v: Reading): uint64 {
    match v
    case Bool(b) => if b then 1 else 0
    case UInt32(w) => w
    case UInt64(n) => n
    case Float(f) => f.Floor
    case Other => 0
  }

  /** Conversion rounds down what the value amounts to. */
  lemma CastMeans(v: Reading)
    ensures CastToUInt64(v) as real <= Amount(v) < CastToUInt64(v) as real + 1.0
    ensures v.Bool? ==> CastToUInt64(v) == if v.b then 1 else 0
  {
  }

  // ---- The batch meaning ----

  /** The sum of the converted values. */
  function Total(vs: seq<Reading>): nat {
    if vs == [] then 0 else Total(vs[..|vs| - 1]) + CastToUInt64(vs[|vs| - 1])
  }

  ghost predicate Reached(n: uint64, vs: seq<Reading>) { exists i :: 0 <= i < |vs| && CastToUInt64(vs[i]) == n }

  /** `a` summarises `vs`: how many, the sum of their conversions, and bounds that are reached. */
  ghost predicate Summarises(a: Aggregate, vs: seq<Reading>) {
    && a.count == |vs| % TWO64
    && a.sum == Total(vs) % TWO64
    && (forall i :: 0 <= i < |vs| ==> a.min <= CastToUInt64(vs[i]) <= a.max)
    && (if vs == [] then a == NEW_AGGREGATE else Reached(a.min, vs) && Reached(a.max, vs))
  }

  lemma AddMod(a: nat, b: nat)
    ensures (a % TWO64 + b) % TWO64 == (a + b) % TWO64
  {
  }

  lemma SummariseOneMore(a: Aggregate, vs: seq<Reading>, v: Reading)
    requires Summarises(a, vs)
    ensures Summarises(Accumulate(a, CastToUInt64(v)), vs + [v])
  {
    var all, n := vs + [v], CastToUInt64(v);
    assert all[..|vs|] == vs && all[|vs|] == v;
    hide CastToUInt64;
    AddMod(|vs|, 1);
    AddMod(Total(vs), n);
    if vs != [] {
      var i :| 0 <= i < |vs| && CastToUInt64(vs[i]) == a.min;
      var j :| 0 <= j < |vs| && CastToUInt64(vs[j]) == a.max;
      assert all[i] == vs[i] && all[j] == vs[j];
    }
    assert Reached(n, all);
  }

  /** One call: the kernel, and a value per metric. */
  datatype Sample = Sample(kernel: string, values: seq<Reading>)

  /** The values given for `metric` among the first `n` of a call. */
  function Given(names: seq<string>, values: seq<Reading>, n: nat, metric: string): seq<Reading>
    requires n <= |names| && n <= |values|
  {
    if n == 0 then []
    else Given(names, values, n - 1, metric) + (if names[n - 1] == metric then [values[n - 1]] else [])
  }

  predicate WideEnough(names: seq<string>, history: seq<Sample>) {
    forall i :: 0 <= i < |history| ==> |history[i].values| >= |names|
  }

  /** The values given for `metric` of `kernel` over all calls, in order. */
  function ValuesFor(names: seq<string>, history: seq<Sample>, kernel: string, metric: string): seq<Reading>
    requires WideEnough(names, history)
  {
    if history == [] then []
    else
      var last := history[|history| - 1];
      ValuesFor(names, history[..|history| - 1], kernel, metric)
      + (if last.kernel == kernel then Given(names, last.values, |names|, metric) else [])
  }

  type KernelMap = map<string, Aggregate>

  /** During a call: the values from earlier calls, then the first `n` of this one. */
  function ValuesDuring(names: seq<string>, history: seq<Sample>, call: Sample, n: nat, metric: string): seq<Reading>
    requires WideEnough(names, history) && n <= |names| <= |call.values|
  {
    ValuesFor(names, history, call.kernel, metric) + Given(names, call.values, n, metric)
  }

  /** An entry exists for exactly the metrics with values, and summarises them. */
  ghost predicate Matches(entries: KernelMap, metric: string, vs: seq<Reading>) {
    (metric in entries <==> vs != []) && (metric in entries ==> Summarises(entries[metric], vs))
  }

  ghost predicate TracksDuring(entries: KernelMap, names: seq<string>, history: seq<Sample>, call: Sample, n: nat)
    requires WideEnough(names, history) && n <= |names| <= |call.values|
  {
    forall metric :: Matches(entries, metric, ValuesDuring(names, history, call, n, metric))
  }

  /** The entries of one kernel summarise everything given for it. */
  ghost predicate Tracks(entries: KernelMap, names: seq<string>, history: seq<Sample>, kernel: string)
    requires WideEnough(names, history)
  {
    forall metric :: Matches(entries, metric, ValuesFor(names, history, kernel, metric))
  }

  ghost predicate Called(history: seq<Sample>, kernel: string) {
    exists i :: 0 <= i < |history| && history[i].kernel == kernel
  }

  /** Every kernel that was reported has its entries, and there are no others. */
  ghost predicate TracksAll(aggregations: map<string, KernelMap>, names: seq<string>, history: seq<Sample>)
    requires WideEnough(names, history)
  {
    forall kernel ::
      && (kernel in aggregations <==> Called(history, kernel))
      && (kernel in aggregations ==> Tracks(aggregations[kernel], names, history, kernel))
  }

  lemma {:induction false} UncalledHasNone(names: seq<string>, history: seq<Sample>, kernel: string, metric: string)
    requires WideEnough(names, history) && !Called(history, kernel)
    ensures ValuesFor(names, history, kernel, metric) == []
  {
    if history != [] {
      assert forall i :: 0 <= i < |history| ==> history[i].kernel != kernel;
      UncalledHasNone(names, history[..|history| - 1], kernel, metric);
    }
  }

  lemma StartOfCall(aggregations: map<string, KernelMap>, names: seq<string>, history: seq<Sample>, call: Sample)
    requires WideEnough(names, history) && |names| <= |call.values| && TracksAll(aggregations, names, history)
    ensures TracksDuring(if call.kernel in aggregations then aggregations[call.kernel] else map[], names, history, call, 0)
  {
    var entries: KernelMap := if call.kernel in aggregations then aggregations[call.kernel] else map[];
    forall metric ensures Matches(entries, metric, ValuesDuring(names, history, call, 0, metric)) {
      AppendEmpty(ValuesFor(names, history, call.kernel, metric));
      if call.kernel !in aggregations {
        UncalledHasNone(names, history, call.kernel, metric);
      }
    }
  }

  lemma NextMetric(entries: KernelMap, names: seq<string>, history: seq<Sample>, call: Sample, n: nat)
    requires WideEnough(names, history) && n < |names| <= |call.values|
    requires TracksDuring(entries, names, history, call, n)
    ensures var data := if names[n] in entries then entries[names[n]] else NEW_AGGREGATE;
            TracksDuring(entries[names[n] := Accumulate(data, CastToUInt64(call.values[n]))], names, history, call, n + 1)
  {
    hide ValuesDuring, Summarises, Accumulate;
    var data := if names[n] in entries then entries[names[n]] else NEW_AGGREGATE;
    var after := entries[names[n] := Accumulate(data, CastToUInt64(call.values[n]))];
    var next := n + 1;
    forall metric ensures Matches(after, metric, ValuesDuring(names, history, call, next, metric)) {
      var vs := ValuesDuring(names, history, call, n, metric);
      DuringNext(names, history, call, n, metric);
      assert Matches(entries, metric, vs);
      if metric == names[n] {
        NewSummarisesNone();
        SummariseOneMore(data, vs, call.values[n]);
      }
    }
  }

  lemma NewSummarisesNone()
    ensures Summarises(NEW_AGGREGATE, [])
  {
  }

  lemma DuringNext(names: seq<string>, history: seq<Sample>, call: Sample, n: nat, metric: string)
    requires WideEnough(names, history) && n < |names| <= |call.values|
    ensures var vs := ValuesDuring(names, history, call, n, metric);
            ValuesDuring(names, history, call, n + 1, metric) == if metric == names[n] then vs + [call.values[n]] else vs
  {
    hide ValuesFor;
    Regroup(ValuesFor(names, history, call.kernel, metric), Given(names, call.values, n, metric), [call.values[n]]);
    AppendEmpty(Given(names, call.values, n, metric));
  }

  lemma EndOfCall(aggregations: map<string, KernelMap>, names: seq<string>, history: seq<Sample>, call: Sample,
                  entries: KernelMap)
    requires WideEnough(names, history) && |names| <= |call.values| && TracksAll(aggregations, names, history)
    requires TracksDuring(entries, names, history, call, |names|)
    ensures WideEnough(names, history + [call])
    ensures TracksAll(aggregations[call.kernel := entries], names, history + [call])
  {
    var all, after := history + [call], aggregations[call.kernel := entries];
    assert all[..|history|] == history;
    forall kernel
      ensures kernel in after <==> Called(all, kernel)
      ensures kernel in after ==> Tracks(after[kernel], names, all, kernel)
    {
      CalledSnoc(history, call, kernel);
      if kernel in after {
        forall metric ensures Matches(after[kernel], metric, ValuesFor(names, all, kernel, metric)) {
          if kernel == call.kernel {
            assert Matches(entries, metric, ValuesDuring(names, history, call, |names|, metric));
          } else {
            AppendEmpty(ValuesFor(names, history, kernel, metric));
            assert Matches(aggregations[kernel], metric, ValuesFor(names, history, kernel, metric));
          }
        }
      }
    }
  }

  lemma CalledSnoc(history: seq<Sample>, call: Sample, kernel: string)
    ensures Called(history + [call], kernel) <==> Called(history, kernel) || call.kernel == kernel
  {
    var all := history + [call];
    if Called(history, kernel) {
      var i :| 0 <= i < |history| && history[i].kernel == kernel;
      assert all[i].kernel == kernel;
    }
    if call.kernel == kernel {
      assert all[|history|].kernel == kernel;
    }
  }

  lemma NothingCalled()
    ensures forall kernel :: !Called([], kernel)
  {
  }

  class Aggregator {
    const names: seq<string>
    var aggregations: map<string, KernelMap>
    ghost var history: seq<Sample>

    /** Every entry summarises exactly the values given for it over all calls. */
    ghost predicate Valid()
      reads this
    {
      WideEnough(names, history) && TracksAll(aggregations, names, history)
    }

    constructor (names: seq<string>)
      ensures Valid() && this.names == names && history == []
    {
      NothingCalled();
      this.names, aggregations, history := names, map[], [];
    }

    method AggregateMetrics(name: string, results: seq<Reading>)
      requires Valid() && |results| >= |names|
      modifies this
      ensures Valid() && history == old(history) + [Sample(name, results)]
    {
      var entries: KernelMap := if name in aggregations then aggregations[name] else map[];
      ghost var call := Sample(name, results);
      ghost var past := history;
      StartOfCall(aggregations, names, past, call);
      for i := 0 to |names|
        invariant history == past && aggregations == old(aggregations)
        invariant TracksDuring(entries, names, past, call, i)
      {
        var metricName := names[i];
        var data := if metricName in entries then entries[metricName] else NEW_AGGREGATE;
        var value := CastToUInt64(results[i]);
        NextMetric(entries, names, past, call, i);
        entries := entries[metricName := Accumulate(data, value)];
      }
      EndOfCall(aggregations, names, past, call, entries);
      aggregations := aggregations[name := entries];
      history := history + [call];
    }
  }

  // ---- What the report relies on ----

  lemma {:induction false} GivenMembers(names: seq<string>, values: seq<Reading>, n: nat, metric: string)
    requires n <= |names| && n <= |values|
    ensures Given(names, values, n, metric) != [] <==> metric in names[..n]
  {
    if n > 0 {
      GivenMembers(names, values, n - 1, metric);
      assert names[..n] == names[..n - 1] + [names[n - 1]];
    }
  }

  lemma {:induction false} ValuesExist(names: seq<string>, history: seq<Sample>, kernel: string, metric: string)
    requires WideEnough(names, history)
    ensures ValuesFor(names, history, kernel, metric) != [] <==> Called(history, kernel) && metric in names
  {
    if history != [] {
      var pre, last := history[..|history| - 1], history[|history| - 1];
      ValuesExist(names, pre, kernel, metric);
      CalledSnoc(pre, last, kernel);
      assert pre + [last] == history && names[..|names|] == names;
      GivenMembers(names, last.values, |names|, metric);
    }
  }

  /** All kernels have entries for the same metrics, so columns taken from the first one fit every row. */
  lemma KernelsShareMetrics(aggregations: map<string, KernelMap>, names: seq<string>, history: seq<Sample>, kernel: string)
    requires WideEnough(names, history) && TracksAll(aggregations, names, history) && kernel in aggregations
    ensures aggregations[kernel].Keys == set m | m in names
  {
    forall metric ensures metric in aggregations[kernel] <==> metric in names {
      assert Matches(aggregations[kernel], metric, ValuesFor(names, history, kernel, metric));
      ValuesExist(names, history, kernel, metric);
    }
  }

  predicate Distinct(names: seq<string>) { forall i, j :: 0 <= i < j < |names| ==> names[i] != names[j] }

  lemma {:induction false} GivenOnce(names: seq<string>, values: seq<Reading>, n: nat, metric: string)
    requires n <= |names| && n <= |values| && Distinct(names)
    ensures |Given(names, values, n, metric)| == if metric in names[..n] then 1 else 0
  {
    if n > 0 {
      GivenOnce(names, values, n - 1, metric);
      LastIsNew(names, n);
    }
  }

  lemma LastIsNew(names: seq<string>, n: nat)
    requires 0 < n <= |names| && Distinct(names)
    ensures names[n - 1] !in names[..n - 1]
    ensures forall metric :: metric in names[..n] <==> metric in names[..n - 1] || metric == names[n - 1]
  {
    assert names[..n] == names[..n - 1] + [names[n - 1]];
  }

  function CallCount(history: seq<Sample>, kernel: string): nat {
    if history == [] then 0
    else CallCount(history[..|history| - 1], kernel) + (if history[|history| - 1].kernel == kernel then 1 else 0)
  }

  lemma {:induction false} OneValuePerCall(names: seq<string>, history: seq<Sample>, kernel: string, metric: string)
    requires WideEnough(names, history) && Distinct(names) && metric in names
    ensures |ValuesFor(names, history, kernel, metric)| == CallCount(history, kernel)
  {
    if history != [] {
      var last := history[|history| - 1];
      OneValuePerCall(names, history[..|history| - 1], kernel, metric);
      GivenOnce(names, last.values, |names|, metric);
      assert names[..|names|] == names;
    }
  }

  /** With distinct metric names, every metric of a kernel has counted every call: the printed count is all of theirs. */
  lemma MetricsShareCount(aggregations: map<string, KernelMap>, names: seq<string>, history: seq<Sample>,
                          kernel: string, metric: string)
    requires WideEnough(names, history) && TracksAll(aggregations, names, history) && Distinct(names)
    requires kernel in aggregations && metric in aggregations[kernel]
    ensures aggregations[kernel][metric].count == CallCount(history, kernel) % TWO64
  {
    assert Matches(aggregations[kernel], metric, ValuesFor(names, history, kernel, metric));
    ValuesExist(names, history, kernel, metric);
    OneValuePerCall(names, history, kernel, metric);
  }

  lemma {:induction false} TotalBounds(vs: seq<Reading>, lo: nat, hi: nat)
    requires forall i :: 0 <= i < |vs| ==> lo <= CastToUInt64(vs[i]) <= hi
    ensures lo * |vs| <= Total(vs) <= hi * |vs|
  {
    hide CastToUInt64;
    if vs != [] {
      var n := |vs| - 1;
      TotalBounds(vs[..n], lo, hi);
      OneMore(lo, n);
      OneMore(hi, n);
    }
  }

  lemma OneMore(x: nat, n: nat)
    ensures x * (n + 1) == x * n + x
  {
  }

  lemma DivideBounds(total: nat, n: nat, lo: nat, hi: nat)
    requires n > 0 && lo * n <= total <= hi * n
    ensures lo <= total / n <= hi
  {
    var q := total / n;
    assert total == n * q + total % n;
    if q + 1 <= lo {
      MulMono(n, q + 1, lo);
    }
    if hi + 1 <= q {
      MulMono(n, hi + 1, q);
    }
  }

  /** Dropping a multiple of a larger number from the dividend lowers the quotient. */
  lemma WrappedIsSmaller(total: nat, n: nat)
    requires 0 < n < TWO64 && total >= TWO64
    ensures (total % TWO64) / n < total / n
  {
    var w := total % TWO64;
    var k := total / TWO64;
    assert total == TWO64 * k + w && k >= 1;
    assert w + n <= total;
    QuotientGrows(w, n, total);
  }

  lemma QuotientGrows(w: nat, n: nat, total: nat)
    requires n > 0 && w + n <= total
    ensures w / n < total / n
  {
    var q, p := w / n, total / n;
    assert w == n * q + w % n && total == n * p + total % n;
    if p <= q {
      MulMono(n, p, q);
    }
  }

  // ---- The average that is printed, and the average of what was measured ----

  /** The number a value stands for; a value of another type counts as zero. */
  function Amount(v: Reading): real {
    match v
    case Bool(b) => if b then 1.0 else 0.0
    case UInt32(w) => w as real
    case UInt64(n) => n as real
    case Float(f) => f
    case Other => 0.0
  }

  function RealTotal(vs: seq<Reading>): real {
    if vs == [] then 0.0 else RealTotal(vs[..|vs| - 1]) + Amount(vs[|vs| - 1])
  }

  /** What conversion to integers cuts off the values, all together. */
  function CutOff(vs: seq<Reading>): real {
    if vs == [] then 0.0
    else CutOff(vs[..|vs| - 1]) + (Amount(vs[|vs| - 1]) - CastToUInt64(vs[|vs| - 1]) as real)
  }

  lemma {:induction false} CutOffBounds(vs: seq<Reading>)
    ensures RealTotal(vs) == Total(vs) as real + CutOff(vs)
    ensures 0.0 <= CutOff(vs) <= |vs| as real && (vs != [] ==> CutOff(vs) < |vs| as real)
  {
    if vs != [] {
      CutOffBounds(vs[..|vs| - 1]);
    }
  }

  /** Rounding down the quotient of a whole number and a fraction below the divisor. */
  lemma FloorOfQuotient(total: nat, cut: real, n: nat)
    requires n > 0 && 0.0 <= cut < n as real
    ensures ((total as real + cut) / n as real).Floor == total / n + (if (total % n) as real + cut < n as real then 0 else 1)
  {
    RealQuotient(total, n);
    FloorFrom(n as real, total / n, (total % n) as real + cut, total as real + cut);
  }

  lemma RealQuotient(total: nat, n: nat)
    requires n > 0
    ensures total as real == n as real * (total / n) as real + (total % n) as real
    ensures (total % n) as real <= n as real - 1.0
  {
    var q := total / n;
    assert total == n * q + total % n;
    SameProduct(n, q);
  }

  lemma FloorFrom(d: real, q: int, rest: real, x: real)
    requires d > 0.0 && 0.0 <= rest < d * 2.0 && x == d * q as real + rest
    ensures (x / d).Floor == if rest < d then q else q + 1
  {
    Carry(d, q as real, rest);
    FloorIs(x / d, if rest < d then q else q + 1);
  }

  /** Dividing `d * q` and a rest below `2 * d` by `d`. */
  lemma Carry(d: real, q: real, rest: real)
    requires d > 0.0 && 0.0 <= rest < d * 2.0
    ensures if rest < d then q <= (d * q + rest) / d < q + 1.0 else q + 1.0 <= (d * q + rest) / d < q + 2.0
  {
    Quotient(d, q, rest);
    if rest < d {
      QuotientBelow(d, rest, 1.0);
    } else {
      QuotientAbove(d, rest, 1.0);
      QuotientBelow(d, rest, 2.0);
    }
  }

  lemma SameProduct(n: nat, q: nat)
    ensures (n * q) as real == n as real * q as real
  {
  }

  lemma FloorIs(x: real, k: int)
    requires k as real <= x < k as real + 1.0
    ensures x.Floor == k
  {
  }

  lemma Quotient(d: real, q: real, r: real)
    requires d > 0.0
    ensures (d * q + r) / d == q + r / d
  {
    assert (d * q) / d == q;
  }

  lemma QuotientBelow(d: real, x: real, bound: real)
    requires d > 0.0 && 0.0 <= x < d * bound
    ensures 0.0 <= x / d < bound
  {
    assert x / d * d == x;
    if x / d >= bound {
      RealMulMono(d, bound, x / d);
    }
  }

  lemma QuotientAbove(d: real, x: real, bound: real)
    requires d > 0.0 && x >= d * bound
    ensures x / d >= bound
  {
    assert x / d * d == x;
  }

  lemma RealMulMono(d: real, a: real, b: real)
    requires d > 0.0 && a <= b
    ensures d * a <= d * b
  {
  }

  /** The printed average is that of the converted values as long as their sum has not reached 2^64, and smaller from there. */
  lemma AverageOfConverted(a: Aggregate, vs: seq<Reading>)
    requires Summarises(a, vs) && 0 < |vs| < TWO64
    ensures a.count == |vs|
    ensures a.sum / a.count <= Total(vs) / |vs|
    ensures a.sum / a.count == Total(vs) / |vs| <==> Total(vs) < TWO64
    ensures Total(vs) < TWO64 ==> a.min <= a.sum / a.count <= a.max
  {
    hide Total;
    TotalBounds(vs, a.min, a.max);
    CountFits(a, vs);
    DivideBounds(Total(vs), |vs|, a.min, a.max);
    if Total(vs) >= TWO64 {
      WrappedIsSmaller(Total(vs), |vs|);
    } else {
      SmallMod(Total(vs));
    }
  }

  /**
   Against the average of what was measured: the printed number is that average rounded down if and only if the
   sum of the converted values has not reached 2^64 and what conversion cut off the floats does not carry.
   When every float is whole nothing is cut off, and only the sum matters.
   */
  lemma AverageExact(a: Aggregate, vs: seq<Reading>)
    requires Summarises(a, vs) && 0 < |vs| < TWO64
    ensures a.count == |vs|
    ensures a.sum / a.count == (RealTotal(vs) / |vs| as real).Floor
            <==> Total(vs) < TWO64 && (Total(vs) % |vs|) as real + CutOff(vs) < |vs| as real
    ensures (forall i :: 0 <= i < |vs| && vs[i].Float? ==> vs[i].f == vs[i].f.Floor as real) ==>
              (a.sum / a.count == (RealTotal(vs) / |vs| as real).Floor <==> Total(vs) < TWO64)
    ensures Total(vs) < TWO64 ==> var mean := RealTotal(vs) / |vs| as real;
                                  (a.sum / a.count) as real <= mean < (a.sum / a.count) as real + 2.0
  {
    AverageOfConverted(a, vs);
    CutOffBounds(vs);
    NothingCutOff(vs);
    hide Total, CutOff, RealTotal, Summarises;
    FloorOfQuotient(Total(vs), CutOff(vs), |vs|);
  }

  lemma {:induction false} NothingCutOff(vs: seq<Reading>)
    ensures CutOff(vs) == 0.0 <==> forall i :: 0 <= i < |vs| && vs[i].Float? ==> vs[i].f == vs[i].f.Floor as real
  {
    if vs != [] {
      var pre := vs[..|vs| - 1];
      NothingCutOff(pre);
      CutOffBounds(pre);
      assert forall i :: 0 <= i < |pre| ==> pre[i] == vs[i];
    }
  }

  /** Two floats whose average is 1 and is printed as 0. */
  lemma FloatsPrintLess(a: Aggregate)
    requires Summarises(a, [Float(0.5), Float(1.5)])
    ensures RealTotal([Float(0.5), Float(1.5)]) / 2.0 == 1.0
    ensures a.count == 2 && a.sum / a.count == 0
  {
    var one, two: seq<Reading> := [Float(0.5)], [Float(0.5), Float(1.5)];
    assert two[..1] == one && one[..0] == [];
    assert RealTotal(one) == 0.5 && Total(one) == 0 && Total(two) == 1;
  }

  lemma SmallMod(n: nat)
    requires n < TWO64
    ensures n % TWO64 == n
  {
  }

  lemma CountFits(a: Aggregate, vs: seq<Reading>)
    requires Summarises(a, vs) && |vs| < TWO64
    ensures a.count == |vs|
  {
    SmallMod(|vs|);
  }
}
