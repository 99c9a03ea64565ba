/**
 * Write patterns the collectors share: a gauge set from a raw value
 * (`Gauge.set` applies `float()` first), a timestamp gauge written only
 * when its date converts, and a 0/1 flag.
 */
module Gauges {
  import opened Wrappers
  import opened Text
  import opened PyValue
  import opened Metrics

  /**
   * `GAUGE.labels(..).set(v)`: `float(v)` is taken first, so `None`, a
   * list, a dict or non-numeric text raises and nothing is written.
   */
  function SetNumber(s: Series, v: Value): (e: Effect)
    ensures e.completed <==> ToFloat(v).Some?
    ensures e.completed ==> e.ops == [SetGauge(s, ToFloat(v).value)]
    ensures !e.completed ==> e.ops == []
  {
    match ToFloat(v)
    case Some(x) => Done([SetGauge(s, x)])
    case None => Aborted
  }

  /** `float(v)`, with `0.0` when it raises (`except (ValueError, TypeError)`). */
  function FloatOrZero(v: Value): (r: real)
    ensures ToFloat(v).Some? ==> r == ToFloat(v).value
    ensures ToFloat(v).None? ==> r == 0.0
  {
    match ToFloat(v)
    case Some(x) => x
    case None => 0.0
  }

  /**
   * The text `str(n)` of a natural number reads back as `n`; in particular
   * the text `'0'` the collectors use as a default amount reads as `0.0`.
   */
  lemma NatText(n: nat)
    ensures FloatOrZero(Str(NatStr(n))) == n as real
    ensures NatStr(0) == "0"
  {
  }

  /**
   * A timestamp gauge: written when the date is a non-empty string and
   * `conv` (a `strptime(...)` conversion, `None` when it raises) accepts
   * it; not written otherwise.  A date that is not a string makes
   * `strptime` raise, which the collectors catch as a failed conversion.
   */
  function TimestampOps(s: Series, conv: string -> Option<real>, date: Value): (ops: seq<Op>)
    ensures |ops| <= 1
    ensures forall i :: 0 <= i < |ops| ==> ops[i].series == s
  {
    if date.Str? && date.s != [] && conv(date.s).Some? then [SetGauge(s, conv(date.s).value)] else []
  }

  /** The timestamp gauge holds the conversion of a non-empty date string and is not written otherwise. */
  lemma TimestampWritten(s: Series, conv: string -> Option<real>, date: Value)
    ensures LastGauge(TimestampOps(s, conv, date), s) == (if date.Str? && date.s != [] then conv(date.s) else None)
  {
    var ops := TimestampOps(s, conv, date);
    if ops != [] {
      assert ops[..0] == [];
    }
  }

  /**
   * Two timestamp gauges of different metrics written one after the other:
   * each holds the conversion of its own non-empty date string.
   */
  lemma TimestampPairWritten(s1: Series, d1: Value, s2: Series, d2: Value, conv: string -> Option<real>)
    requires s1.metric != s2.metric
    ensures var ops := TimestampOps(s1, conv, d1) + TimestampOps(s2, conv, d2);
            && LastGauge(ops, s1) == (if d1.Str? && d1.s != [] then conv(d1.s) else None)
            && LastGauge(ops, s2) == (if d2.Str? && d2.s != [] then conv(d2.s) else None)
            && Writes(ops, {s1.metric, s2.metric})
  {
    var e1, e2 := TimestampOps(s1, conv, d1), TimestampOps(s2, conv, d2);
    TimestampWritten(s1, conv, d1);
    TimestampWritten(s2, conv, d2);
    LastGaugeBefore(e1, e2, s1);
    LastGaugeConcat(e1, e2, s2);
    AvoidsLeavesAlone(e1, s2);
    forall i | 0 <= i < |e1 + e2| ensures (e1 + e2)[i].series.metric in {s1.metric, s2.metric} {
      if i >= |e1| { assert (e1 + e2)[i] == e2[i - |e1|]; }
    }
  }

  /** `1 if b else 0`. */
  function Flag(b: bool): (r: real)
    ensures b <==> r == 1.0
    ensures !b <==> r == 0.0
  {
    if b then 1.0 else 0.0
  }
}
