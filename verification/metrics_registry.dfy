/**
 * The Prometheus metrics the exporter writes, as maps from a series (metric
 * name and label values, in the order the metric declares its label names)
 * to what the series holds.  Gauges hold a number, info metrics the dict
 * they were given, counters a count, and the scrape-duration histogram is reduced
 * to its number of observations.
 *
 * What a piece of code does to the metrics is described by the list of
 * writes it makes, `seq<Op>`, and `Apply` folds such a list over a `Store`.
 * The `Registry` class is the mutable global registry; each of its methods
 * is specified by `Step`/`Apply` on the store it holds.
 */
module Metrics {
  import opened Wrappers
  import opened PyValue

  /** A labelled child of a metric: `METRIC.labels(*labels)`. */
  datatype Series = Series(metric: string, labels: seq<string>)

  /** One write into the registry. */
  datatype Op =
    | SetGauge(series: Series, value: real)      // Gauge.labels(..).set(value)
    | SetInfo(series: Series, info: map<string, Value>)  // Info.labels(..).info(dict)
    | Inc(series: Series)                         // Counter.labels(..).inc()
    | Observe(series: Series)                     // one Histogram observation

  datatype Store = Store(
    gauges: map<Series, real>,
    infos: map<Series, map<string, Value>>,
    counters: map<Series, nat>,
    observations: map<Series, nat>)

  const EmptyStore := Store(map[], map[], map[], map[])

  /** A counter that was never incremented reads as 0. */
  function Count(m: map<Series, nat>, s: Series): nat {
    if s in m then m[s] else 0
  }

  function GaugeAt(st: Store, s: Series): Option<real> {
    if s in st.gauges then Some(st.gauges[s]) else None
  }

  function InfoAt(st: Store, s: Series): Option<map<string, Value>> {
    if s in st.infos then Some(st.infos[s]) else None
  }

  function Step(st: Store, op: Op): Store {
    match op
    case SetGauge(s, v) => st.(gauges := st.gauges[s := v])
    case SetInfo(s, f) => st.(infos := st.infos[s := f])
    case Inc(s) => st.(counters := st.counters[s := Count(st.counters, s) + 1])
    case Observe(s) => st.(observations := st.observations[s := Count(st.observations, s) + 1])
  }

  /** The store after the writes `ops`, made in order. */
  function Apply(st: Store, ops: seq<Op>): Store
    decreases |ops|
  {
    if ops == [] then st else Step(Apply(st, ops[..|ops| - 1]), ops[|ops| - 1])
  }

  lemma {:induction false} ApplyConcat(st: Store, a: seq<Op>, b: seq<Op>)
    ensures Apply(st, a + b) == Apply(Apply(st, a), b)
    decreases |b|
  {
    if b == [] {
      assert a + b == a;
    } else {
      assert (a + b)[..|a + b| - 1] == a + b[..|b| - 1];
      ApplyConcat(st, a, b[..|b| - 1]);
    }
  }

  // ------------------------------------------------------------ what a list of writes leaves behind

  /** The value of the last `SetGauge` to `s` in `ops`, if any. */
  function LastGauge(ops: seq<Op>, s: Series): Option<real>
    decreases |ops|
  {
    if ops == [] then None
    else
      var op := ops[|ops| - 1];
      if op.SetGauge? && op.series == s then Some(op.value) else LastGauge(ops[..|ops| - 1], s)
  }

  /** The dict of the last `SetInfo` to `s` in `ops`, if any. */
  function LastInfo(ops: seq<Op>, s: Series): Option<map<string, Value>>
    decreases |ops|
  {
    if ops == [] then None
    else
      var op := ops[|ops| - 1];
      if op.SetInfo? && op.series == s then Some(op.info) else LastInfo(ops[..|ops| - 1], s)
  }

  /** How many times `ops` increments the counter `s`. */
  function Incs(ops: seq<Op>, s: Series): nat
    decreases |ops|
  {
    if ops == [] then 0
    else Incs(ops[..|ops| - 1], s) + (if ops[|ops| - 1] == Inc(s) then 1 else 0)
  }

  /** How many observations `ops` adds to the histogram child `s`. */
  function Observations(ops: seq<Op>, s: Series): nat
    decreases |ops|
  {
    if ops == [] then 0
    else Observations(ops[..|ops| - 1], s) + (if ops[|ops| - 1] == Observe(s) then 1 else 0)
  }

  /** A gauge holds the last value written to it, or what it held before. */
  lemma {:induction false} GaugeAfter(st: Store, ops: seq<Op>, s: Series)
    ensures GaugeAt(Apply(st, ops), s) == (if LastGauge(ops, s).Some? then LastGauge(ops, s) else GaugeAt(st, s))
    decreases |ops|
  {
    if ops != [] {
      GaugeAfter(st, ops[..|ops| - 1], s);
    }
  }

  /** An info series holds the last dict written to it, or what it held before. */
  lemma {:induction false} InfoAfter(st: Store, ops: seq<Op>, s: Series)
    ensures InfoAt(Apply(st, ops), s) == (if LastInfo(ops, s).Some? then LastInfo(ops, s) else InfoAt(st, s))
    decreases |ops|
  {
    if ops != [] {
      InfoAfter(st, ops[..|ops| - 1], s);
    }
  }

  /** A counter grows by exactly the number of increments made to it. */
  lemma {:induction false} CounterAfter(st: Store, ops: seq<Op>, s: Series)
    ensures Count(Apply(st, ops).counters, s) == Count(st.counters, s) + Incs(ops, s)
    decreases |ops|
  {
    if ops != [] {
      CounterAfter(st, ops[..|ops| - 1], s);
    }
  }

  /** A histogram child gains exactly the observations made on it. */
  lemma {:induction false} ObservationsAfter(st: Store, ops: seq<Op>, s: Series)
    ensures Count(Apply(st, ops).observations, s) == Count(st.observations, s) + Observations(ops, s)
    decreases |ops|
  {
    if ops != [] {
      ObservationsAfter(st, ops[..|ops| - 1], s);
    }
  }

  /** Writes that only set gauges and info dicts. */
  predicate SetsOnly(ops: seq<Op>) {
    forall i :: 0 <= i < |ops| ==> ops[i].SetGauge? || ops[i].SetInfo?
  }

  lemma {:induction false} SetsOnlyKeepCounts(st: Store, ops: seq<Op>)
    requires SetsOnly(ops)
    ensures Apply(st, ops).counters == st.counters
    ensures Apply(st, ops).observations == st.observations
    decreases |ops|
  {
    if ops != [] {
      SetsOnlyKeepCounts(st, ops[..|ops| - 1]);
    }
  }

  /**
   * Gauge and info writes are idempotent: making the same writes twice leaves
   * the registry as making them once.  This is why a collector that is run
   * again on the same response exposes the same series.
   */
  lemma SetsOnlyIdempotent(st: Store, ops: seq<Op>)
    requires SetsOnly(ops)
    ensures Apply(Apply(st, ops), ops) == Apply(st, ops)
  {
    var once := Apply(st, ops);
    var twice := Apply(once, ops);
    SetsOnlyKeepCounts(st, ops);
    SetsOnlyKeepCounts(once, ops);
    forall s: Series
      ensures GaugeAt(twice, s) == GaugeAt(once, s) && InfoAt(twice, s) == InfoAt(once, s)
    {
      GaugeAfter(st, ops, s);
      GaugeAfter(once, ops, s);
      InfoAfter(st, ops, s);
      InfoAfter(once, ops, s);
    }
    assert twice.gauges == once.gauges by {
      forall s | s in twice.gauges || s in once.gauges
        ensures s in twice.gauges && s in once.gauges && twice.gauges[s] == once.gauges[s]
      {
        assert GaugeAt(twice, s) == GaugeAt(once, s);
      }
    }
    assert twice.infos == once.infos by {
      forall s | s in twice.infos || s in once.infos
        ensures s in twice.infos && s in once.infos && twice.infos[s] == once.infos[s]
      {
        assert InfoAt(twice, s) == InfoAt(once, s);
      }
    }
  }

  /** The last gauge write to `s` in `a + b` is the one in `b`, if `b` has one. */
  lemma {:induction false} LastGaugeConcat(a: seq<Op>, b: seq<Op>, s: Series)
    ensures LastGauge(a + b, s) == (if LastGauge(b, s).Some? then LastGauge(b, s) else LastGauge(a, s))
    decreases |b|
  {
    if b == [] {
      assert a + b == a;
    } else {
      assert (a + b)[..|a + b| - 1] == a + b[..|b| - 1];
      LastGaugeConcat(a, b[..|b| - 1], s);
    }
  }

  lemma {:induction false} LastInfoConcat(a: seq<Op>, b: seq<Op>, s: Series)
    ensures LastInfo(a + b, s) == (if LastInfo(b, s).Some? then LastInfo(b, s) else LastInfo(a, s))
    decreases |b|
  {
    if b == [] {
      assert a + b == a;
    } else {
      assert (a + b)[..|a + b| - 1] == a + b[..|b| - 1];
      LastInfoConcat(a, b[..|b| - 1], s);
    }
  }

  /** No write in `ops` goes to a series of `metric`. */
  predicate Avoids(ops: seq<Op>, metric: string) {
    forall i :: 0 <= i < |ops| ==> ops[i].series.metric != metric
  }

  lemma AvoidsConcat(a: seq<Op>, b: seq<Op>, metric: string)
    ensures Avoids(a + b, metric) <==> Avoids(a, metric) && Avoids(b, metric)
  {
    if Avoids(a, metric) && Avoids(b, metric) {
      forall i | 0 <= i < |a + b| ensures (a + b)[i].series.metric != metric {
        if i >= |a| { assert (a + b)[i] == b[i - |a|]; }
      }
    }
    if Avoids(a + b, metric) {
      forall i | 0 <= i < |a| ensures a[i].series.metric != metric {
        assert (a + b)[i] == a[i];
      }
      forall i | 0 <= i < |b| ensures b[i].series.metric != metric {
        assert (a + b)[|a| + i] == b[i];
      }
    }
  }

  /** Writes that avoid a metric leave every series of it as it was. */
  lemma {:induction false} AvoidsLeavesAlone(ops: seq<Op>, s: Series)
    requires Avoids(ops, s.metric)
    ensures LastGauge(ops, s) == None && LastInfo(ops, s) == None
    decreases |ops|
  {
    if ops != [] {
      AvoidsLeavesAlone(ops[..|ops| - 1], s);
    }
  }

  /** Writes after the last write to `s` that avoid its metric do not change what `s` holds. */
  lemma {:induction false} LastGaugeBefore(a: seq<Op>, b: seq<Op>, s: Series)
    requires Avoids(b, s.metric)
    ensures LastGauge(a + b, s) == LastGauge(a, s)
  {
    AvoidsLeavesAlone(b, s);
    LastGaugeConcat(a, b, s);
  }

  lemma {:induction false} LastInfoBefore(a: seq<Op>, b: seq<Op>, s: Series)
    requires Avoids(b, s.metric)
    ensures LastInfo(a + b, s) == LastInfo(a, s)
  {
    AvoidsLeavesAlone(b, s);
    LastInfoConcat(a, b, s);
  }

  /** Among writes `a + b + c` where `a` and `c` avoid the metric of `s`, only `b` decides `s`. */
  lemma LastGaugeWithin(a: seq<Op>, b: seq<Op>, c: seq<Op>, s: Series)
    requires Avoids(a, s.metric) && Avoids(c, s.metric)
    ensures LastGauge(a + b + c, s) == LastGauge(b, s)
  {
    LastGaugeBefore(a + b, c, s);
    AvoidsLeavesAlone(a, s);
    LastGaugeConcat(a, b, s);
  }

  /** The value of a gauge write followed only by writes to other metrics. */
  lemma LastGaugeOf(a: seq<Op>, s: Series, v: real, b: seq<Op>)
    requires Avoids(b, s.metric)
    ensures LastGauge(a + [SetGauge(s, v)] + b, s) == Some(v)
  {
    LastGaugeBefore(a + [SetGauge(s, v)], b, s);
  }

  lemma LastInfoOf(a: seq<Op>, s: Series, f: map<string, Value>, b: seq<Op>)
    requires Avoids(b, s.metric)
    ensures LastInfo(a + [SetInfo(s, f)] + b, s) == Some(f)
  {
    LastInfoBefore(a + [SetInfo(s, f)], b, s);
  }

  /** Regroupings of five consecutive pieces of writes. */
  lemma Regroup(a: seq<Op>, b: seq<Op>, c: seq<Op>, d: seq<Op>, e: seq<Op>)
    ensures a + b + c + d + e == [] + a + (b + c + d + e)
    ensures a + b + c + d + e == a + b + (c + d + e)
    ensures a + b + c + d + e == (a + b) + c + (d + e)
  {
  }

  // ------------------------------------------------------------ effects of collector code

  /**
   * The writes a piece of collector code makes, and whether it ran to its end.
   * `completed == false` means an exception cut it short after `ops`; the
   * collectors catch such exceptions themselves, so the writes made before it
   * stay in the registry.
   */
  datatype Effect = Effect(ops: seq<Op>, completed: bool)

  function Done(ops: seq<Op>): Effect { Effect(ops, true) }

  /** An exception raised before anything was written. */
  const Aborted := Effect([], false)

  /** `a` and then, if `a` ran to its end, `b`. */
  function Then(a: Effect, b: Effect): Effect {
    if a.completed then Effect(a.ops + b.ops, b.completed) else a
  }

  /** Writes of `a`, then of `b`, where `b` leaves the metric of `s` alone: `a` decides `s`. */
  lemma ThenGaugeFirst(a: Effect, b: Effect, s: Series)
    requires Avoids(b.ops, s.metric)
    ensures LastGauge(Then(a, b).ops, s) == LastGauge(a.ops, s)
  {
    if a.completed { LastGaugeBefore(a.ops, b.ops, s); }
  }

  /** Writes of a completed `a` that leaves the metric of `s` alone, then of `b`: `b` decides `s`. */
  lemma ThenGaugeSecond(a: Effect, b: Effect, s: Series)
    requires a.completed && Avoids(a.ops, s.metric)
    ensures LastGauge(Then(a, b).ops, s) == LastGauge(b.ops, s)
  {
    AvoidsLeavesAlone(a.ops, s);
    LastGaugeConcat(a.ops, b.ops, s);
  }

  lemma ThenInfoFirst(a: Effect, b: Effect, s: Series)
    requires Avoids(b.ops, s.metric)
    ensures LastInfo(Then(a, b).ops, s) == LastInfo(a.ops, s)
  {
    if a.completed { LastInfoBefore(a.ops, b.ops, s); }
  }

  lemma ThenInfoSecond(a: Effect, b: Effect, s: Series)
    requires a.completed && Avoids(a.ops, s.metric)
    ensures LastInfo(Then(a, b).ops, s) == LastInfo(b.ops, s)
  {
    AvoidsLeavesAlone(a.ops, s);
    LastInfoConcat(a.ops, b.ops, s);
  }

  lemma ThenAvoids(a: Effect, b: Effect, metric: string)
    requires Avoids(a.ops, metric) && Avoids(b.ops, metric)
    ensures Avoids(Then(a, b).ops, metric)
  {
    AvoidsConcat(a.ops, b.ops, metric);
  }

  lemma ThenAll(a: Effect, b: Effect, p: Op -> bool)
    requires All(a.ops, p) && All(b.ops, p)
    ensures All(Then(a, b).ops, p)
  {
    if a.completed { AllConcat(a.ops, b.ops, p); }
  }

  /** A `for x in xs` loop whose body has effect `body(x)`; an exception ends the loop. */
  function ForEach<T>(xs: seq<T>, body: T -> Effect): Effect
    decreases |xs|
  {
    if xs == [] then Done([]) else Then(ForEach(xs[..|xs| - 1], body), body(xs[|xs| - 1]))
  }

  /** One more iteration of a loop that has not raised yet. */
  lemma ForEachStep<T>(xs: seq<T>, i: nat, body: T -> Effect)
    requires i < |xs| && ForEach(xs[..i], body).completed
    ensures ForEach(xs[..i + 1], body) == Effect(ForEach(xs[..i], body).ops + body(xs[i]).ops, body(xs[i]).completed)
  {
    assert xs[..i + 1][..i] == xs[..i];
  }

  /** One more iteration of a loop that has not raised yet, applied to a store. */
  lemma ForEachStepApply<T>(st: Store, xs: seq<T>, i: nat, body: T -> Effect)
    requires i < |xs| && ForEach(xs[..i], body).completed
    ensures Apply(st, ForEach(xs[..i + 1], body).ops) == Apply(Apply(st, ForEach(xs[..i], body).ops), body(xs[i]).ops)
    ensures ForEach(xs[..i + 1], body).completed == body(xs[i]).completed
  {
    ForEachStep(xs, i, body);
    ApplyConcat(st, ForEach(xs[..i], body).ops, body(xs[i]).ops);
  }

  /** A loop that ran to the end of its elements, or stopped at a raising one, has the effect of the whole loop. */
  /** An iteration that raises before writing ends the loop: what came before is all it writes. */
  lemma ForEachRaises<T>(xs: seq<T>, i: nat, body: T -> Effect)
    requires i < |xs| && ForEach(xs[..i], body).completed && body(xs[i]) == Aborted
    ensures ForEach(xs, body) == Effect(ForEach(xs[..i], body).ops, false)
  {
    ForEachStep(xs, i, body);
    assert ForEach(xs[..i], body).ops + [] == ForEach(xs[..i], body).ops;
    ForEachExit(xs, i + 1, body);
  }

  lemma ForEachExit<T>(xs: seq<T>, i: nat, body: T -> Effect)
    requires i <= |xs|
    requires i == |xs| || !ForEach(xs[..i], body).completed
    ensures ForEach(xs, body) == ForEach(xs[..i], body)
  {
    if i < |xs| {
      assert xs == xs[..i] + xs[i..];
      ForEachStops(xs[..i], xs[i..], body);
    } else {
      assert xs[..i] == xs;
    }
  }

  /** Once an iteration has raised, later elements change nothing. */
  lemma {:induction false} ForEachStops<T>(xs: seq<T>, ys: seq<T>, body: T -> Effect)
    requires !ForEach(xs, body).completed
    ensures ForEach(xs + ys, body) == ForEach(xs, body)
    decreases |ys|
  {
    if ys == [] {
      assert xs + ys == xs;
    } else {
      assert (xs + ys)[..|xs + ys| - 1] == xs + ys[..|ys| - 1];
      ForEachStops(xs, ys[..|ys| - 1], body);
    }
  }

  /** When every iteration runs to its end, the loop writes the iterations' writes in order. */
  lemma {:induction false} ForEachAllDone<T>(xs: seq<T>, body: T -> Effect)
    requires forall i :: 0 <= i < |xs| ==> body(xs[i]).completed
    ensures ForEach(xs, body).completed
    ensures |xs| > 0 ==> ForEach(xs, body).ops == ForEach(xs[..|xs| - 1], body).ops + body(xs[|xs| - 1]).ops
    decreases |xs|
  {
    if xs != [] {
      ForEachAllDone(xs[..|xs| - 1], body);
    }
  }

  /** A loop whose iterations all avoid a metric avoids it too. */
  lemma {:induction false} ForEachAvoids<T>(xs: seq<T>, body: T -> Effect, metric: string)
    requires forall i :: 0 <= i < |xs| ==> Avoids(body(xs[i]).ops, metric)
    ensures Avoids(ForEach(xs, body).ops, metric)
    decreases |xs|
  {
    if xs != [] {
      ForEachAvoids(xs[..|xs| - 1], body, metric);
    }
  }

  /** Every write in `ops` satisfies `p`. */
  predicate All(ops: seq<Op>, p: Op -> bool) {
    forall i :: 0 <= i < |ops| ==> p(ops[i])
  }

  lemma AllConcat(a: seq<Op>, b: seq<Op>, p: Op -> bool)
    requires All(a, p) && All(b, p)
    ensures All(a + b, p)
  {
    forall i | 0 <= i < |a + b| ensures p((a + b)[i]) {
      if i >= |a| { assert (a + b)[i] == b[i - |a|]; }
    }
  }

  /** A loop whose iterations' writes all satisfy `p` writes only such writes. */
  lemma {:induction false} ForEachAll<T>(xs: seq<T>, body: T -> Effect, p: Op -> bool)
    requires forall i :: 0 <= i < |xs| ==> All(body(xs[i]).ops, p)
    ensures All(ForEach(xs, body).ops, p)
    decreases |xs|
  {
    if xs != [] {
      ForEachAll(xs[..|xs| - 1], body, p);
      if ForEach(xs[..|xs| - 1], body).completed {
        AllConcat(ForEach(xs[..|xs| - 1], body).ops, body(xs[|xs| - 1]).ops, p);
      }
    }
  }

  /** Straight-line code in pieces: each piece runs when the ones before it ran to their end. */
  function Chain(es: seq<Effect>): Effect
    decreases |es|
  {
    if es == [] then Done([]) else Then(es[0], Chain(es[1..]))
  }

  /** Pieces whose writes all satisfy `p` write only such writes together. */
  lemma {:induction false} ChainAll(es: seq<Effect>, p: Op -> bool)
    requires forall j :: 0 <= j < |es| ==> All(es[j].ops, p)
    ensures All(Chain(es).ops, p)
    decreases |es|
  {
    if es != [] {
      assert All(es[0].ops, p);
      ChainAll(es[1..], p);
      AllConcat(es[0].ops, Chain(es[1..]).ops, p);
    }
  }

  /** Every write in `ops` goes to one of `metrics`. */
  predicate Writes(ops: seq<Op>, metrics: set<string>) {
    forall i :: 0 <= i < |ops| ==> ops[i].series.metric in metrics
  }

  /** Pieces that each write only their own metrics, and never `metric`, leave it alone together. */
  lemma {:induction false} ChainAvoids(es: seq<Effect>, metrics: seq<set<string>>, metric: string)
    requires |metrics| == |es|
    requires forall j :: 0 <= j < |es| ==> Writes(es[j].ops, metrics[j]) && metric !in metrics[j]
    ensures Avoids(Chain(es).ops, metric)
    decreases |es|
  {
    if es != [] {
      ChainAvoids(es[1..], metrics[1..], metric);
      assert Writes(es[0].ops, metrics[0]) && metric !in metrics[0];
      AvoidsConcat(es[0].ops, Chain(es[1..]).ops, metric);
    }
  }

  /** The run stops at the first piece that raises; it completes exactly when every piece does. */
  lemma {:induction false} ChainCompleted(es: seq<Effect>)
    ensures Chain(es).completed <==> forall j :: 0 <= j < |es| ==> es[j].completed
    decreases |es|
  {
    if es != [] {
      ChainCompleted(es[1..]);
      assert forall j :: 1 <= j < |es| ==> es[j] == es[1..][j - 1];
    }
  }

  /**
   * When the pieces before piece `k` ran to their end and no other piece
   * writes the metric of `s`, piece `k` alone decides `s`.
   */
  lemma {:induction false} ChainGauge(es: seq<Effect>, metrics: seq<set<string>>, k: nat, s: Series)
    requires |metrics| == |es| && k < |es|
    requires forall j :: 0 <= j < |es| ==> Writes(es[j].ops, metrics[j])
    requires forall j :: 0 <= j < |es| && j != k ==> s.metric !in metrics[j]
    requires forall j :: 0 <= j < k ==> es[j].completed
    ensures LastGauge(Chain(es).ops, s) == LastGauge(es[k].ops, s)
    decreases k
  {
    if k == 0 {
      ChainAvoids(es[1..], metrics[1..], s.metric);
      ThenGaugeFirst(es[0], Chain(es[1..]), s);
    } else {
      assert Writes(es[0].ops, metrics[0]) && s.metric !in metrics[0];
      ThenGaugeSecond(es[0], Chain(es[1..]), s);
      ChainGauge(es[1..], metrics[1..], k - 1, s);
    }
  }

  lemma {:induction false} ChainInfo(es: seq<Effect>, metrics: seq<set<string>>, k: nat, s: Series)
    requires |metrics| == |es| && k < |es|
    requires forall j :: 0 <= j < |es| ==> Writes(es[j].ops, metrics[j])
    requires forall j :: 0 <= j < |es| && j != k ==> s.metric !in metrics[j]
    requires forall j :: 0 <= j < k ==> es[j].completed
    ensures LastInfo(Chain(es).ops, s) == LastInfo(es[k].ops, s)
    decreases k
  {
    if k == 0 {
      ChainAvoids(es[1..], metrics[1..], s.metric);
      ThenInfoFirst(es[0], Chain(es[1..]), s);
    } else {
      assert Writes(es[0].ops, metrics[0]) && s.metric !in metrics[0];
      ThenInfoSecond(es[0], Chain(es[1..]), s);
      ChainInfo(es[1..], metrics[1..], k - 1, s);
    }
  }

  /** The writes of a piece that runs to its end; a single write is its own last value. */
  lemma SingleGauge(s: Series, v: real)
    ensures LastGauge([SetGauge(s, v)], s) == Some(v)
  {
    LastGaugeOf([], s, v, []);
  }

  lemma SingleInfo(s: Series, f: map<string, Value>)
    ensures LastInfo([SetInfo(s, f)], s) == Some(f)
  {
    LastInfoOf([], s, f, []);
  }

  // ------------------------------------------------------------ the mutable registry

  class Registry {
    var gauges: map<Series, real>
    var infos: map<Series, map<string, Value>>
    var counters: map<Series, nat>
    var observations: map<Series, nat>

    function State(): Store
      reads this
    {
      Store(gauges, infos, counters, observations)
    }

    constructor()
      ensures State() == EmptyStore
    {
      gauges := map[];
      infos := map[];
      counters := map[];
      observations := map[];
    }

    /** `METRIC.labels(*s.labels).set(v)`. */
    method Set(s: Series, v: real)
      modifies this
      ensures State() == Step(old(State()), SetGauge(s, v))
      ensures GaugeAt(State(), s) == Some(v)
    {
      gauges := gauges[s := v];
    }

    /** `INFO.labels(*s.labels).info(f)`. */
    method SetInfo(s: Series, f: map<string, Value>)
      modifies this
      ensures State() == Step(old(State()), Op.SetInfo(s, f))
      ensures InfoAt(State(), s) == Some(f)
    {
      infos := infos[s := f];
    }

    /** `COUNTER.labels(*s.labels).inc()`. */
    method Inc(s: Series)
      modifies this
      ensures State() == Step(old(State()), Op.Inc(s))
      ensures Count(counters, s) == Count(old(counters), s) + 1
    {
      counters := counters[s := Count(counters, s) + 1];
    }

    /** One observation of `HISTOGRAM.labels(*s.labels)`. */
    method Observe(s: Series)
      modifies this
      ensures State() == Step(old(State()), Op.Observe(s))
    {
      observations := observations[s := Count(observations, s) + 1];
    }

    /** Makes the writes `ops` in order. */
    method Run(ops: seq<Op>)
      modifies this
      ensures State() == Apply(old(State()), ops)
    {
      var i := 0;
      while i < |ops|
        invariant 0 <= i <= |ops|
        invariant State() == Apply(old(State()), ops[..i])
      {
        assert ops[..i + 1][..i] == ops[..i];
        var op := ops[i];
        match op {
          case SetGauge(s, v) => Set(s, v);
          case SetInfo(s, f) => SetInfo(s, f);
          case Inc(s) => Inc(s);
          case Observe(s) => Observe(s);
        }
        i := i + 1;
      }
      assert ops[..|ops|] == ops;
    }

    /** Runs the loop `for x in xs: body(x)` against the registry. */
    method RunEach<T>(xs: seq<T>, body: T -> Effect) returns (completed: bool)
      modifies this
      ensures State() == Apply(old(State()), ForEach(xs, body).ops)
      ensures completed == ForEach(xs, body).completed
    {
      var i := 0;
      completed := true;
      while i < |xs| && completed
        invariant 0 <= i <= |xs|
        invariant completed == ForEach(xs[..i], body).completed
        invariant State() == Apply(old(State()), ForEach(xs[..i], body).ops)
      {
        var e := body(xs[i]);
        ForEachStepApply(old(State()), xs, i, body);
        Run(e.ops);
        completed := e.completed;
        i := i + 1;
      }
      ForEachExit(xs, i, body);
    }
  }
}
