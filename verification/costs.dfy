/**
 * `LISTCOSTSCollector`: monthly costs of an account over a twelve-month
 * window, grouped by a dimension, fetched with the BSS SDK.
 */
module Costs {
  import opened Wrappers
  import opened Text
  import opened PyValue
  import opened BaseCollector
  import opened Metrics
  import opened Gauges
  import opened SdkCollector

  const CostAmount := "huaweicloud_bss_cost_amount"
  const OfficialCostAmount := "huaweicloud_bss_official_cost_amount"
  const CostSummary := "huaweicloud_bss_cost_summary"

  const DefaultRegion := "cn-north-1"

  // ---------------------------------------------------------------- the default window

  /** A calendar month; `now` is read from the clock, so the month of "now" is an input here. */
  datatype YearMonth = YearMonth(year: int, month: int)

  predicate ValidMonth(ym: YearMonth) { 1 <= ym.month <= 12 }

  /** Months counted from January of year 0. */
  function MonthIndex(ym: YearMonth): int { ym.year * 12 + (ym.month - 1) }

  function FromIndex(k: int): (ym: YearMonth)
    ensures ValidMonth(ym) && MonthIndex(ym) == k
  {
    YearMonth(k / 12, k % 12 + 1)
  }

  /** `date - relativedelta(months=n)`; a date before year 1 raises `OverflowError`. */
  function MonthsBefore(ym: YearMonth, n: nat): (r: Option<YearMonth>)
    ensures r.Some? ==> ValidMonth(r.value) && MonthIndex(r.value) == MonthIndex(ym) - n && r.value.year >= 1
    ensures MonthIndex(ym) - n >= 12 ==> r.Some?
  {
    var r := FromIndex(MonthIndex(ym) - n);
    if r.year >= 1 then Some(r) else None
  }

  function TwoDigits(n: nat): string {
    if n < 10 then "0" + NatStr(n) else NatStr(n)
  }

  /** `strftime("%Y-%m")`. */
  function MonthText(ym: YearMonth): string
    requires ym.year >= 0 && ym.month >= 0
  {
    NatStr(ym.year) + "-" + TwoDigits(ym.month)
  }

  /**
   * The default window: the month before the current one, and the month
   * eleven months before that, as `(begin_time, end_time)`.
   */
  function DefaultWindow(now: YearMonth): (r: Option<(string, string)>)
    ensures r.Some? <==> MonthIndex(now) >= 24
    ensures r.Some? ==>
              MonthIndex(now) >= 24 && r.value == (MonthText(FromIndex(MonthIndex(now) - 12)), MonthText(FromIndex(MonthIndex(now) - 1)))
  {
    match MonthsBefore(now, 1)
    case None => None
    case Some(end) =>
      match MonthsBefore(end, 11)
      case None => None
      case Some(begin) => Some((MonthText(begin), MonthText(end)))
  }

  /** The window ends one month before the current month and starts twelve months before it. */
  lemma WindowSpan(now: YearMonth)
    requires ValidMonth(now) && now.year >= 2
    ensures DefaultWindow(now).Some?
    ensures var end := MonthsBefore(now, 1).value;
            var begin := MonthsBefore(end, 11).value;
            && MonthIndex(end) == MonthIndex(now) - 1
            && MonthIndex(begin) == MonthIndex(now) - 12
            && DefaultWindow(now) == Some((MonthText(begin), MonthText(end)))
  {
  }

  /** In September 2025 the default window runs from 2024-09 to 2025-08. */
  lemma WindowExample()
    ensures DefaultWindow(YearMonth(2025, 9)) == Some(("2024-09", "2025-08"))
  {
    WindowMonthsExample();
    MonthTextExamples();
  }

  lemma WindowMonthsExample()
    ensures MonthsBefore(YearMonth(2025, 9), 1) == Some(YearMonth(2025, 8))
    ensures MonthsBefore(YearMonth(2025, 8), 11) == Some(YearMonth(2024, 9))
  {
    assert MonthIndex(YearMonth(2025, 9)) - 1 == 24307 == 2025 * 12 + 7;
    assert FromIndex(24307) == YearMonth(2025, 8);
    assert MonthIndex(YearMonth(2025, 8)) - 11 == 24296 == 2024 * 12 + 8;
    assert FromIndex(24296) == YearMonth(2024, 9);
  }

  lemma MonthTextExamples()
    ensures MonthText(YearMonth(2024, 9)) == "2024-09"
    ensures MonthText(YearMonth(2025, 8)) == "2025-08"
  {
    assert NatStr(2) == "2";
    assert NatStr(20) == "20";
    assert NatStr(202) == "202";
    assert NatStr(2024) == "2024";
    assert NatStr(2025) == "2025";
    assert TwoDigits(9) == "09" && TwoDigits(8) == "08";
  }

  // ---------------------------------------------------------------- the request

  datatype GroupBy = GroupBy(kind: Value, key: Value)

  /** The request body of `list_costs`. */
  datatype CostsRequest = CostsRequest(
    timeMeasureId: int,
    beginTime: Value,
    endTime: Value,
    amountType: Value,
    costType: Value,
    groupby: seq<GroupBy>,
    filters: Value)

  /** One configured grouping: a dict's `type` (default `'dimension'`) and `key`; anything else raises. */
  function GroupByOf(item: Value): Option<GroupBy> {
    if item.Dict? then Some(GroupBy(Get(item.fields, "type", Str("dimension")), Get(item.fields, "key", Null))) else None
  }

  /** The configured groupings, converted in order; the first that raises ends the conversion. */
  function GroupBys(items: seq<Value>): (r: Option<seq<GroupBy>>)
    ensures r.Some? ==> |r.value| == |items|
    decreases |items|
  {
    if items == [] then Some([])
    else match GroupBys(items[..|items| - 1])
      case None => None
      case Some(gs) =>
        match GroupByOf(items[|items| - 1])
        case Some(g) => Some(gs + [g])
        case None => None
  }

  /**
   * `if key in params: value = params[key]`: the value when the key is
   * there, the current value when not; `in` or `[]` on a value that does
   * not support them raises.
   */
  function Override(params: Value, key: string, current: Value): Option<Value> {
    match PyIn(key, params)
    case None => None
    case Some(present) =>
      if !present then Some(current)
      else match Index(params, key)
        case Some(v) => Some(v)
        case None => None
  }

  /** The request the collector sends, or `None` when building it raises. */
  function RequestFor(params: Value, window: (string, string)): (r: Option<CostsRequest>)
    ensures r.Some? ==> r.value.timeMeasureId == 2
    ensures !Truthy(params) ==> r == Some(CostsRequest(2, Str(window.0), Str(window.1), Str("NET_AMOUNT"), Str("ORIGINAL_COST"),
                                                       [GroupBy(Str("dimension"), Str("CHARGING_MODE"))], List([])))
    ensures params.Int? || params.Float? || params.Bool? ==> (r.None? <==> Truthy(params))
    ensures params.Dict? && Truthy(params) ==>
              (r.None? <==> GroupByOverride(params, [GroupBy(Str("dimension"), Str("CHARGING_MODE"))]).None?)
    ensures params.Dict? && r.Some? ==>
              && r.value.beginTime == Get(params.fields, "begin_time", Str(window.0))
              && r.value.endTime == Get(params.fields, "end_time", Str(window.1))
              && r.value.amountType == Get(params.fields, "amount_type", Str("NET_AMOUNT"))
              && r.value.costType == Get(params.fields, "cost_type", Str("ORIGINAL_COST"))
              && r.value.filters == Get(params.fields, "filters", List([]))
  {
    var defaults := CostsRequest(2, Str(window.0), Str(window.1), Str("NET_AMOUNT"), Str("ORIGINAL_COST"),
                                 [GroupBy(Str("dimension"), Str("CHARGING_MODE"))], List([]));
    if !Truthy(params) then Some(defaults)
    else
      match (Override(params, "begin_time", defaults.beginTime), Override(params, "end_time", defaults.endTime))
      case (Some(begin), Some(end)) =>
        (match (Override(params, "amount_type", defaults.amountType), Override(params, "cost_type", defaults.costType))
         case (Some(amountType), Some(costType)) =>
           (match GroupByOverride(params, defaults.groupby)
            case Some(groupby) =>
              (match Override(params, "filters", defaults.filters)
               case Some(filters) => Some(CostsRequest(2, begin, end, amountType, costType, groupby, filters))
               case None => None)
            case None => None)
         case _ => None)
      case _ => None
  }

  /** `groupby` from params, converted item by item, when present. */
  function GroupByOverride(params: Value, current: seq<GroupBy>): Option<seq<GroupBy>> {
    match PyIn("groupby", params)
    case None => None
    case Some(present) =>
      if !present then Some(current)
      else match Index(params, "groupby")
        case None => None
        case Some(v) =>
          match PyIter(v)
          case None => None
          case Some(items) => GroupBys(items)
  }

  /**
   * Building the request as the collector does, field by field; the
   * configured groupings are converted in a loop.
   */
  method BuildRequest(params: Value, window: (string, string)) returns (r: Option<CostsRequest>)
    ensures r == RequestFor(params, window)
  {
    var begin, end := Str(window.0), Str(window.1);
    var request := CostsRequest(2, begin, end, Str("NET_AMOUNT"), Str("ORIGINAL_COST"),
                                [GroupBy(Str("dimension"), Str("CHARGING_MODE"))], List([]));
    if !Truthy(params) {
      return Some(request);
    }
    var b := Override(params, "begin_time", begin);
    var e := Override(params, "end_time", end);
    if b.None? || e.None? {
      return None;
    }
    var amountType := Override(params, "amount_type", request.amountType);
    var costType := Override(params, "cost_type", request.costType);
    if amountType.None? || costType.None? {
      return None;
    }
    request := request.(beginTime := b.value, endTime := e.value, amountType := amountType.value, costType := costType.value);
    var present := PyIn("groupby", params);
    if present.None? {
      return None;
    }
    if present.value {
      var v := Index(params, "groupby");
      if v.None? {
        return None;
      }
      var items := PyIter(v.value);
      if items.None? {
        return None;
      }
      var groupby := ConvertGroupBys(items.value);
      if groupby.None? {
        return None;
      }
      request := request.(groupby := groupby.value);
    }
    var filters := Override(params, "filters", request.filters);
    if filters.None? {
      return None;
    }
    r := Some(request.(filters := filters.value));
  }

  /** The loop over the configured groupings. */
  method ConvertGroupBys(items: seq<Value>) returns (r: Option<seq<GroupBy>>)
    ensures r == GroupBys(items)
  {
    var groupby: seq<GroupBy> := [];
    var i := 0;
    while i < |items|
      invariant 0 <= i <= |items|
      invariant GroupBys(items[..i]) == Some(groupby)
    {
      assert items[..i + 1][..i] == items[..i];
      var g := GroupByOf(items[i]);
      if g.None? {
        GroupBysStop(items, i + 1);
        return None;
      }
      groupby := groupby + [g.value];
      i := i + 1;
    }
    assert items[..i] == items;
    r := Some(groupby);
  }

  /** Once a grouping raises, the conversion of any longer prefix raises too. */
  lemma {:induction false} GroupBysStop(items: seq<Value>, n: nat)
    requires n <= |items| && GroupBys(items[..n]).None?
    ensures GroupBys(items).None?
    decreases |items| - n
  {
    if n < |items| {
      assert items[..n + 1][..n] == items[..n];
      GroupBysStop(items, n + 1);
    } else {
      assert items[..n] == items;
    }
  }

  /** With params given as a dict, each configured field replaces its default and the others stay. */
  lemma ParamsOverride(params: map<string, Value>, window: (string, string))
    requires params != map[]
    requires "groupby" !in params
    ensures var r := RequestFor(Dict(params), window);
            && r.Some?
            && r.value.timeMeasureId == 2
            && r.value.beginTime == Get(params, "begin_time", Str(window.0))
            && r.value.endTime == Get(params, "end_time", Str(window.1))
            && r.value.amountType == Get(params, "amount_type", Str("NET_AMOUNT"))
            && r.value.costType == Get(params, "cost_type", Str("ORIGINAL_COST"))
            && r.value.groupby == [GroupBy(Str("dimension"), Str("CHARGING_MODE"))]
            && r.value.filters == Get(params, "filters", List([]))
  {
  }

  /** A configured grouping without a type gets the type `'dimension'`. */
  lemma GroupByDefaultType(item: map<string, Value>)
    requires "type" !in item
    ensures GroupBys([Dict(item)]) == Some([GroupBy(Str("dimension"), Get(item, "key", Null))])
  {
    assert [Dict(item)][..0] == [];
    assert [] + [GroupBy(Str("dimension"), Get(item, "key", Null))] == [GroupBy(Str("dimension"), Get(item, "key", Null))];
  }

  /** A configured grouping list is converted item by item. */
  lemma GroupByConfigured(params: map<string, Value>, window: (string, string), items: seq<Value>)
    requires "groupby" in params && params["groupby"] == List(items)
    requires GroupBys(items).Some?
    ensures RequestFor(Dict(params), window).Some?
    ensures RequestFor(Dict(params), window).value.groupby == GroupBys(items).value
  {
  }

  // ---------------------------------------------------------------- the response

  /** The dimension of a cost item: the first of its dimensions, `('unknown', 'unknown')` without any. */
  function Dimension(item: map<string, Value>): (r: Option<(string, string)>)
    ensures !Truthy(Get(item, "dimensions", List([]))) ==> r == Some(("unknown", "unknown"))
    ensures Truthy(Get(item, "dimensions", List([]))) ==>
              (r.Some? <==> First(Get(item, "dimensions", List([]))).Some? && First(Get(item, "dimensions", List([]))).value.Dict?)
  {
    var dimensions := Get(item, "dimensions", List([]));
    if !Truthy(dimensions) then Some(("unknown", "unknown"))
    else match First(dimensions)
      case None => None
      case Some(d) =>
        if d.Dict? then Some((PyStr(Get(d.fields, "key", Str("unknown"))), PyStr(Get(d.fields, "value", Str("unknown")))))
        else None
  }

  lemma FirstDimension(item: map<string, Value>, d: map<string, Value>, rest: seq<Value>)
    requires "dimensions" in item && item["dimensions"] == List([Dict(d)] + rest)
    ensures Dimension(item) == Some((PyStr(Get(d, "key", Str("unknown"))), PyStr(Get(d, "value", Str("unknown")))))
  {
  }

  function AmountSeries(account: string, dim: (string, string), time: string): Series {
    Series(CostAmount, [account, dim.0, dim.1, time, "net_amount"])
  }

  function OfficialSeries(account: string, dim: (string, string), time: string): Series {
    Series(OfficialCostAmount, [account, dim.0, dim.1, time])
  }

  function SummarySeries(account: string, dim: (string, string), summaryType: string): Series {
    Series(CostSummary, [account, dim.0, dim.1, summaryType])
  }

  /** One cost entry: both amounts are converted before either is written. */
  function CostEffect(account: string, dim: (string, string), cost: Value): Effect {
    match cost
    case Dict(c) =>
      var time := PyStr(Get(c, "time_dimension_value", Str("unknown")));
      (match (ToFloat(Get(c, "amount", Int(0))), ToFloat(Get(c, "official_amount", Int(0))))
       case (Some(amount), Some(official)) =>
         Done([SetGauge(AmountSeries(account, dim, time), amount), SetGauge(OfficialSeries(account, dim, time), official)])
       case _ => Aborted)
    case _ => Aborted
  }

  function CostFn(account: string, dim: (string, string)): Value -> Effect {
    c => CostEffect(account, dim, c)
  }

  /** The two summary gauges of a cost item, converted before either is written. */
  function SummaryEffect(account: string, dim: (string, string), item: map<string, Value>): Effect {
    match (ToFloat(Get(item, "amount_by_costs", Int(0))), ToFloat(Get(item, "official_amount_by_costs", Int(0))))
    case (Some(amount), Some(official)) =>
      Done([SetGauge(SummarySeries(account, dim, "net_amount"), amount), SetGauge(SummarySeries(account, dim, "official_amount"), official)])
    case _ => Aborted
  }

  /** The cost entries of an item: `len()` is taken first; an empty list is fine. */
  function CostsEffect(account: string, dim: (string, string), item: map<string, Value>): (e: Effect)
    ensures All(e.ops, NetAmountLabel) && Avoids(e.ops, CostSummary)
    ensures PyLen(Get(item, "costs", List([]))).None? ==> e == Aborted
    ensures !Truthy(Get(item, "costs", List([]))) && PyLen(Get(item, "costs", List([]))).Some? ==> e == Done([])
  {
    var costs := Get(item, "costs", List([]));
    if PyLen(costs).None? then Aborted
    else match PyIter(costs)
      case Some(cs) =>
        ForEachAll(cs, CostFn(account, dim), NetAmountLabel);
        ForEachAvoids(cs, CostFn(account, dim), CostSummary);
        ForEach(cs, CostFn(account, dim))
      case None => Aborted
  }

  /** One cost item: its dimension, its cost entries, then its summary. */
  function ItemEffect(account: string, item: Value): (e: Effect)
    ensures All(e.ops, NetAmountLabel)
    ensures e.completed ==> item.Dict? && Dimension(item.fields).Some?
    ensures !item.Dict? ==> e == Aborted
  {
    match item
    case Dict(f) =>
      (match Dimension(f)
       case Some(dim) =>
         ThenAll(CostsEffect(account, dim, f), SummaryEffect(account, dim, f), NetAmountLabel);
         Then(CostsEffect(account, dim, f), SummaryEffect(account, dim, f))
       case None => Aborted)
    case _ => Aborted
  }

  function ItemFn(account: string): Value -> Effect {
    i => ItemEffect(account, i)
  }

  /** The response: the cost items, unless there are none. */
  function ResponseEffect(account: string, data: map<string, Value>): (e: Effect)
    ensures All(e.ops, NetAmountLabel)
    ensures "cost_data" !in data || data["cost_data"] == List([]) ==> e == Done([])
  {
    ListAll(Get(data, "cost_data", List([])), ItemFn(account), NetAmountLabel);
    ListEffect(Get(data, "cost_data", List([])), ItemFn(account))
  }

  /**
   * `collect`: nothing without a client; the request is built from the
   * window of `now` and the params; `respond` is the SDK call.
   */
  function CollectEffect(base: Base, client: Option<SdkClient>, now: YearMonth,
                         respond: (SdkClient, CostsRequest) -> Option<map<string, Value>>): Effect {
    var request := match DefaultWindow(now) case Some(w) => RequestFor(base.params, w) case None => None;
    CallEffect(client, request, respond, data => ResponseEffect(base.name, data))
  }

  class CostsCollector {
    const base: Base
    const client: Option<SdkClient>

    /** `__init__`: the BSS client, built from the configured or environment AK/SK in `cn-north-1` by default. */
    constructor(base: Base, env: map<string, string>, knownRegion: Value -> bool)
      ensures this.base == base
      ensures client == NewSdkClient(base, env, DefaultRegion, knownRegion)
    {
      this.base := base;
      client := NewSdkClient(base, env, DefaultRegion, knownRegion);
    }

    /** `collect` against the registry; `request` is the request sent, if one was. */
    method Collect(reg: Registry, now: YearMonth, respond: (SdkClient, CostsRequest) -> Option<map<string, Value>>)
      returns (request: Option<CostsRequest>)
      modifies reg
      ensures client.None? ==> request.None?
      ensures client.Some? && DefaultWindow(now).Some? ==> request == RequestFor(base.params, DefaultWindow(now).value)
      ensures reg.State() == Apply(old(reg.State()), CollectEffect(base, client, now, respond).ops)
    {
      if client.None? {
        return None;
      }
      var window := DefaultWindow(now);
      if window.None? {
        return None;
      }
      request := BuildRequest(base.params, window.value);
      if request.None? {
        return;
      }
      var data := respond(client.value, request.value);
      if data.None? {
        return;
      }
      var items := Get(data.value, "cost_data", List([]));
      if PyLen(items).None? || !Truthy(items) {
        return;
      }
      var xs := PyIter(items);
      if xs.None? {
        return;
      }
      var _ := CollectItems(reg, base.name, xs.value);
    }

    /** The loop over the cost items, until one raises. */
    static method CollectItems(reg: Registry, account: string, xs: seq<Value>) returns (completed: bool)
      modifies reg
      ensures reg.State() == Apply(old(reg.State()), ForEach(xs, ItemFn(account)).ops)
      ensures completed == ForEach(xs, ItemFn(account)).completed
    {
      var body := ItemFn(account);
      var i := 0;
      completed := true;
      while i < |xs| && completed
        invariant 0 <= i <= |xs|
        invariant completed == ForEach(xs[..i], body).completed
        invariant reg.State() == Apply(old(reg.State()), ForEach(xs[..i], body).ops)
      {
        ForEachStepApply(old(reg.State()), xs, i, body);
        completed := CollectItem(reg, account, xs[i]);
        i := i + 1;
      }
      ForEachExit(xs, i, body);
    }

    /** One cost item: the loop over its cost entries, then the summary. */
    static method CollectItem(reg: Registry, account: string, item: Value) returns (completed: bool)
      modifies reg
      ensures reg.State() == Apply(old(reg.State()), ItemFn(account)(item).ops)
      ensures completed == ItemFn(account)(item).completed
    {
      if !item.Dict? {
        return false;
      }
      var dim := Dimension(item.fields);
      if dim.None? {
        return false;
      }
      var costs := Get(item.fields, "costs", List([]));
      if PyLen(costs).None? {
        return false;
      }
      var cs := PyIter(costs);
      if cs.None? {
        return false;
      }
      var loop := ForEach(cs.value, CostFn(account, dim.value));
      completed := reg.RunEach(cs.value, CostFn(account, dim.value));
      if !completed {
        return;
      }
      var summary := SummaryEffect(account, dim.value, item.fields);
      reg.Run(summary.ops);
      ApplyConcat(old(reg.State()), loop.ops, summary.ops);
      completed := summary.completed;
    }
  }

  // ---------------------------------------------------------------- what collect writes

  /** Without credentials there is no client, and `collect` returns before writing anything. */
  lemma MissingCredentialsWriteNothing(base: Base, env: map<string, string>, knownRegion: Value -> bool, now: YearMonth,
                                       respond: (SdkClient, CostsRequest) -> Option<map<string, Value>>)
    requires !Truthy(base.ak) && "CLOUD_SDK_AK" !in env
    ensures CollectEffect(base, NewSdkClient(base, env, DefaultRegion, knownRegion), now, respond) == Done([])
  {
  }

  /** A cost entry whose amounts convert writes the amount, labelled `net_amount`, and the official amount. */
  lemma CostWritten(account: string, dim: (string, string), c: map<string, Value>)
    requires ToFloat(Get(c, "amount", Int(0))).Some? && ToFloat(Get(c, "official_amount", Int(0))).Some?
    ensures var time := PyStr(Get(c, "time_dimension_value", Str("unknown")));
            var ops := CostEffect(account, dim, Dict(c)).ops;
            && LastGauge(ops, AmountSeries(account, dim, time)) == ToFloat(Get(c, "amount", Int(0)))
            && LastGauge(ops, OfficialSeries(account, dim, time)) == ToFloat(Get(c, "official_amount", Int(0)))
  {
    var time := PyStr(Get(c, "time_dimension_value", Str("unknown")));
    var a := SetGauge(AmountSeries(account, dim, time), ToFloat(Get(c, "amount", Int(0))).value);
    var o := SetGauge(OfficialSeries(account, dim, time), ToFloat(Get(c, "official_amount", Int(0))).value);
    assert CostEffect(account, dim, Dict(c)).ops == [] + [a] + [o] == [a] + [o] + [];
    LastGaugeOf([], a.series, a.value, [o]);
    LastGaugeOf([a], o.series, o.value, []);
  }

  /** The amount gauges written by an item, labelled by its dimension. */
  predicate NetAmountLabel(op: Op) {
    op.series.metric == CostAmount ==> |op.series.labels| == 5 && op.series.labels[4] == "net_amount"
  }

  /** The writes of a cost item: its entries', then its summary's. */
  lemma ItemOpsShape(account: string, f: map<string, Value>)
    requires Dimension(f).Some?
    requires CostsEffect(account, Dimension(f).value, f).completed
    ensures ItemEffect(account, Dict(f)).ops == CostsEffect(account, Dimension(f).value, f).ops + SummaryEffect(account, Dimension(f).value, f).ops
  {
  }

  /** The two summary writes after writes that leave the summary metric alone. */
  lemma SummaryAfter(account: string, dim: (string, string), f: map<string, Value>, before: seq<Op>)
    requires Avoids(before, CostSummary)
    requires ToFloat(Get(f, "amount_by_costs", Int(0))).Some? && ToFloat(Get(f, "official_amount_by_costs", Int(0))).Some?
    ensures var ops := before + SummaryEffect(account, dim, f).ops;
            && LastGauge(ops, SummarySeries(account, dim, "net_amount")) == ToFloat(Get(f, "amount_by_costs", Int(0)))
            && LastGauge(ops, SummarySeries(account, dim, "official_amount")) == ToFloat(Get(f, "official_amount_by_costs", Int(0)))
            && forall i :: 0 <= i < |ops| && ops[i].series.metric == CostSummary ==>
                 ops[i].series in {SummarySeries(account, dim, "net_amount"), SummarySeries(account, dim, "official_amount")}
  {
    var n := SetGauge(SummarySeries(account, dim, "net_amount"), ToFloat(Get(f, "amount_by_costs", Int(0))).value);
    var o := SetGauge(SummarySeries(account, dim, "official_amount"), ToFloat(Get(f, "official_amount_by_costs", Int(0))).value);
    assert SummaryEffect(account, dim, f).ops == [n, o];
    assert before + [n, o] == before + [n] + [o] == before + [n] + [o] + [];
    assert n.series.labels[3] != o.series.labels[3];
    assert LastGauge([o], n.series) == None by {
      assert [o][..0] == [];
    }
    LastGaugeConcat(before + [n], [o], n.series);
    LastGaugeOf(before, n.series, n.value, []);
    LastGaugeOf(before + [n], o.series, o.value, []);
  }

  /**
   * An item whose entries all went through writes exactly two summary
   * series, `net_amount` and `official_amount`, holding `float()` of the
   * item's two totals (default 0).
   */
  lemma SummaryWritten(account: string, f: map<string, Value>)
    requires Dimension(f).Some?
    requires CostsEffect(account, Dimension(f).value, f).completed
    requires ToFloat(Get(f, "amount_by_costs", Int(0))).Some? && ToFloat(Get(f, "official_amount_by_costs", Int(0))).Some?
    ensures var dim := Dimension(f).value;
            var ops := ItemEffect(account, Dict(f)).ops;
            && LastGauge(ops, SummarySeries(account, dim, "net_amount")) == ToFloat(Get(f, "amount_by_costs", Int(0)))
            && LastGauge(ops, SummarySeries(account, dim, "official_amount")) == ToFloat(Get(f, "official_amount_by_costs", Int(0)))
            && forall i :: 0 <= i < |ops| && ops[i].series.metric == CostSummary ==>
                 ops[i].series in {SummarySeries(account, dim, "net_amount"), SummarySeries(account, dim, "official_amount")}
  {
    var dim := Dimension(f).value;
    ItemOpsShape(account, f);
    SummaryAfter(account, dim, f, CostsEffect(account, dim, f).ops);
  }
}
