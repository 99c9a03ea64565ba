/**
 * `LISTFREERESOURCEINFOSCollector`: the free resource packages of an
 * account, fetched with the BSS SDK, and written as gauges per package and
 * per resource item inside a package.
 */
module FreeResources {
  import opened Wrappers
  import opened PyValue
  import opened BaseCollector
  import opened Metrics
  import opened Gauges
  import opened SdkCollector

  const TotalCount := "huaweicloud_bss_free_resource_package_total_count"
  const PackageStatus := "huaweicloud_bss_free_resource_package_status"
  const ResourceAmount := "huaweicloud_bss_free_resource_amount"
  const ResourceOriginalAmount := "huaweicloud_bss_free_resource_original_amount"
  const EffectiveTime := "huaweicloud_bss_free_resource_package_effective_timestamp"
  const ExpireTime := "huaweicloud_bss_free_resource_package_expire_timestamp"
  const ActiveExpireTime := "huaweicloud_bss_free_resource_active_package_expire_timestamp"
  const PackageInfo := "huaweicloud_bss_free_resource_package"

  const DefaultRegion := "cn-north-1"

  /** The measurement units the collector knows by id. */
  const MeasureUnits: map<int, string> :=
    map[10 := "GB", 14 := "times", 15 := "Mbps", 17 := "GB", 18 := "MB", 19 := "TB", 20 := "KB"]

  /** `_get_measure_unit`: a known id's unit, `unit_<id>` otherwise; a list or dict id raises. */
  function MeasureUnit(id: Value): (r: Option<string>)
    ensures r.None? <==> !Hashable(id)
  {
    LookupInt(MeasureUnits, id, "unit_" + PyStr(id))
  }

  /** An id equal to a table key gets that key's unit. */
  lemma MeasureUnitKnown(id: Value, n: int)
    requires Hashable(id) && NumEq(id, n) && n in MeasureUnits
    ensures MeasureUnit(id) == Some(MeasureUnits[n])
  {
    LookupIntEqualKeys(MeasureUnits, id, "unit_" + PyStr(id), n);
  }

  /** Any other id is spelled out after `unit_`. */
  lemma MeasureUnitOther(id: Value, n: int)
    requires Hashable(id) && NumEq(id, n) && n !in MeasureUnits
    ensures MeasureUnit(id) == Some("unit_" + PyStr(id))
  {
    LookupIntEqualKeys(MeasureUnits, id, "unit_" + PyStr(id), n);
  }

  /** `10.0` is the same dict key as `10`; a fractional id is not in the table. */
  lemma MeasureUnitFloatKey()
    ensures MeasureUnit(Float(10.0)) == Some("GB")
    ensures MeasureUnit(Float(10.5)) == Some("unit_" + PyStr(Float(10.5)))
  {
    assert NumEq(Float(10.0), 10);
  }

  // ---------------------------------------------------------------- one resource item

  /** The labels of a resource item's gauges. */
  function ResourceLabels(account: string, orderId: string, productName: string, f: map<string, Value>, unit: string): seq<string> {
    [account, orderId, productName, PyStr(Get(f, "usage_type_name", Str("unknown"))), unit]
  }

  /**
   * One resource item: its remaining and original amounts (`0.0` when
   * `float()` fails).  An item that is not an object, or whose measure id
   * cannot be a dict key, raises before anything is written.
   */
  function ResourceEffect(account: string, orderId: string, productName: string, resource: Value): (e: Effect)
    ensures e.completed <==> resource.Dict? && Hashable(Get(resource.fields, "measure_id", Int(0)))
    ensures !e.completed ==> e == Aborted
    ensures Writes(e.ops, {ResourceAmount, ResourceOriginalAmount})
  {
    match resource
    case Dict(f) =>
      (match MeasureUnit(Get(f, "measure_id", Int(0)))
       case Some(unit) =>
         var labels := ResourceLabels(account, orderId, productName, f, unit);
         Done([SetGauge(Series(ResourceAmount, labels), FloatOrZero(Get(f, "amount", Str("0")))),
               SetGauge(Series(ResourceOriginalAmount, labels), FloatOrZero(Get(f, "original_amount", Str("0"))))])
       case None => Aborted)
    case _ => Aborted
  }

  function ResourceFn(account: string, orderId: string, productName: string): Value -> Effect {
    r => ResourceEffect(account, orderId, productName, r)
  }

  /**
   * A resource item's amounts: `float()` of the given values, `0.0` when
   * that fails, and `0.0` too when they are missing (the default `'0'`).
   */
  lemma ResourceAmounts(account: string, orderId: string, productName: string, f: map<string, Value>)
    requires Hashable(Get(f, "measure_id", Int(0)))
    ensures var e := ResourceEffect(account, orderId, productName, Dict(f));
            var labels := ResourceLabels(account, orderId, productName, f, MeasureUnit(Get(f, "measure_id", Int(0))).value);
            && e.completed
            && LastGauge(e.ops, Series(ResourceAmount, labels)) == Some(FloatOrZero(Get(f, "amount", Str("0"))))
            && LastGauge(e.ops, Series(ResourceOriginalAmount, labels)) == Some(FloatOrZero(Get(f, "original_amount", Str("0"))))
            && ("amount" !in f ==> LastGauge(e.ops, Series(ResourceAmount, labels)) == Some(0.0))
  {
    var e := ResourceEffect(account, orderId, productName, Dict(f));
    assert e.ops == [] + [e.ops[0]] + [e.ops[1]];
    LastGaugeOf([], e.ops[0].series, e.ops[0].value, [e.ops[1]]);
    LastGaugeOf([e.ops[0]], e.ops[1].series, e.ops[1].value, []);
    if "amount" !in f {
      NatText(0);
    }
  }

  // ---------------------------------------------------------------- one package

  function OrderInstanceId(f: map<string, Value>): string { PyStr(Get(f, "order_instance_id", Str("unknown"))) }
  function ProductName(f: map<string, Value>): string { PyStr(Get(f, "product_name", Str("unknown"))) }

  /** The labels of a package's gauges: account, order instance, product and service type. */
  function PackageLabels(account: string, f: map<string, Value>): seq<string> {
    [account, OrderInstanceId(f), ProductName(f), PyStr(Get(f, "service_type_name", Str("unknown")))]
  }

  /** The info dict of a package: missing or falsy fields become `''`; two fields go through `str()` first. */
  function PackageInfoFields(f: map<string, Value>): map<string, Value> {
    map[
      "order_id" := Or(Get(f, "order_id", Str("")), Str("")),
      "product_id" := Or(Get(f, "product_id", Str("")), Str("")),
      "service_type_code" := Or(Get(f, "service_type_code", Str("")), Str("")),
      "region_code" := Or(Get(f, "region_code", Str("")), Str("")),
      "source_type" := Or(Str(PyStr(Get(f, "source_type", Str("")))), Str("")),
      "bundle_type" := Or(Get(f, "bundle_type", Str("")), Str("")),
      "quota_reuse_mode" := Or(Str(PyStr(Get(f, "quota_reuse_mode", Str("")))), Str(""))]
  }

  /** The expiry timestamp, repeated on the active-package gauge when the status equals 1. */
  function ExpireOps(labels: seq<string>, conv: string -> Option<real>, status: Value, date: Value): seq<Op> {
    if date.Str? && date.s != [] && conv(date.s).Some? then
      [SetGauge(Series(ExpireTime, labels), conv(date.s).value)]
      + (if NumEq(status, 1) then [SetGauge(Series(ActiveExpireTime, labels), conv(date.s).value)] else [])
    else []
  }

  /** The status gauge, set to `float()` of the raw status. */
  function StatusOp(account: string, f: map<string, Value>, status: real): Op {
    SetGauge(Series(PackageStatus, PackageLabels(account, f)), status)
  }

  /** The info series, labelled by account, order instance and product only. */
  function InfoOp(account: string, f: map<string, Value>): Op {
    Op.SetInfo(Series(PackageInfo, [account, OrderInstanceId(f), ProductName(f)]), PackageInfoFields(f))
  }

  /** The effective timestamp. */
  function EffectiveOps(account: string, conv: string -> Option<real>, f: map<string, Value>): seq<Op> {
    TimestampOps(Series(EffectiveTime, PackageLabels(account, f)), conv, Get(f, "effective_time", Null))
  }

  /** The expiry timestamps. */
  function ExpiryOps(account: string, conv: string -> Option<real>, f: map<string, Value>): seq<Op> {
    ExpireOps(PackageLabels(account, f), conv, Get(f, "status", Int(0)), Get(f, "expire_time", Null))
  }

  /** A package's own writes, before its resource items: status, info, effective and expiry times. */
  function PackageHead(account: string, conv: string -> Option<real>, f: map<string, Value>, status: real): seq<Op> {
    [StatusOp(account, f, status)] + [InfoOp(account, f)] + EffectiveOps(account, conv, f) + ExpiryOps(account, conv, f)
  }

  /** The inner loop over a package's resource items; `len()` is taken first and raises on a non-container. */
  function ResourcesEffect(account: string, f: map<string, Value>): (e: Effect)
    ensures PyLen(Get(f, "free_resources", List([]))).None? ==> e == Aborted
    ensures PyLen(Get(f, "free_resources", List([]))).Some? && !Truthy(Get(f, "free_resources", List([]))) ==> e == Done([])
  {
    var resources := Get(f, "free_resources", List([]));
    if PyLen(resources).None? then Aborted
    else match PyIter(resources)
      case Some(rs) => ForEach(rs, ResourceFn(account, OrderInstanceId(f), ProductName(f)))
      case None => Aborted
  }

  /**
   * One package.  `conv` is `_convert_to_timestamp` (`None` when it
   * fails).  A package that is not an object, or whose status `float()`
   * rejects, raises before anything of it is written.
   */
  function PackageEffect(account: string, conv: string -> Option<real>, package: Value): (e: Effect)
    ensures !package.Dict? || ToFloat(Get(package.fields, "status", Int(0))).None? ==> e == Aborted
    ensures package.Dict? && ToFloat(Get(package.fields, "status", Int(0))).Some? ==>
              e.completed == ResourcesEffect(account, package.fields).completed
    ensures Avoids(e.ops, TotalCount)
  {
    match package
    case Dict(f) =>
      (match ToFloat(Get(f, "status", Int(0)))
       case Some(status) =>
         HeadAvoids(account, conv, f, status, TotalCount);
         ResourcesAvoid(account, f, TotalCount);
         AvoidsConcat(PackageHead(account, conv, f, status), ResourcesEffect(account, f).ops, TotalCount);
         Then(Done(PackageHead(account, conv, f, status)), ResourcesEffect(account, f))
       case None => Aborted)
    case _ => Aborted
  }

  function PackageFn(account: string, conv: string -> Option<real>): Value -> Effect {
    p => PackageEffect(account, conv, p)
  }

  // ---------------------------------------------------------------- collect

  /** The response field holding the package list. */
  const ListKey := "free_resource_packages"

  /** The response data: the total, then, unless the package list is empty, each package. */
  function ResponseEffect(account: string, conv: string -> Option<real>, data: map<string, Value>): (e: Effect)
    ensures LastGauge(e.ops, Series(TotalCount, [account])) == ToFloat(Get(data, "total_count", Int(0)))
    ensures e.completed ==> ToFloat(Get(data, "total_count", Int(0))).Some?
  {
    TotalWrittenFirst(Series(TotalCount, [account]), data, ListKey, PackageFn(account, conv));
    TotalThenList(Series(TotalCount, [account]), data, ListKey, PackageFn(account, conv))
  }

  /**
   * `collect`: nothing without a client; the configured params are copied
   * onto the request body; `respond` is the SDK call (`None` when it
   * raises, which the collector catches and logs).
   */
  function CollectEffect(base: Base, client: Option<SdkClient>, attributes: set<string>,
                         respond: (SdkClient, map<string, Value>) -> Option<map<string, Value>>,
                         conv: string -> Option<real>): Effect {
    CallEffect(client, CopyParams(base.params, attributes), respond, data => ResponseEffect(base.name, conv, data))
  }

  class FreeResourceCollector {
    const base: Base
    const client: Option<SdkClient>

    /** `__init__`: the BSS client, built from the configured or environment AK/SK in `cn-north-1` by default. */
    constructor(base: Base, env: map<string, string>, knownRegion: Value -> bool)
      ensures this.base == base
      ensures client == NewSdkClient(base, env, DefaultRegion, knownRegion)
    {
      this.base := base;
      client := NewSdkClient(base, env, DefaultRegion, knownRegion);
    }

    /** The writes for one package, then its resource items one by one. */
    static method CollectPackage(reg: Registry, account: string, conv: string -> Option<real>, package: Value)
      returns (completed: bool)
      modifies reg
      ensures reg.State() == Apply(old(reg.State()), PackageFn(account, conv)(package).ops)
      ensures completed == PackageFn(account, conv)(package).completed
    {
      if !package.Dict? {
        return false;
      }
      var f := package.fields;
      var status := ToFloat(Get(f, "status", Int(0)));
      if status.None? {
        return false;
      }
      var head := PackageHead(account, conv, f, status.value);
      reg.Run(head);
      var resources := Get(f, "free_resources", List([]));
      if PyLen(resources).None? {
        assert head + [] == head;
        return false;
      }
      var rs := PyIter(resources);
      if rs.None? {
        assert head + [] == head;
        return false;
      }
      var body := ResourceFn(account, OrderInstanceId(f), ProductName(f));
      completed := reg.RunEach(rs.value, body);
      ApplyConcat(old(reg.State()), head, ForEach(rs.value, body).ops);
    }

    /** `collect` against the registry; `request` is the request body sent, if one was. */
    method Collect(reg: Registry, attributes: set<string>,
                   respond: (SdkClient, map<string, Value>) -> Option<map<string, Value>>,
                   conv: string -> Option<real>) returns (request: Option<map<string, Value>>)
      modifies reg
      ensures request == (if client.Some? then CopyParams(base.params, attributes) else None)
      ensures reg.State() == Apply(old(reg.State()), CollectEffect(base, client, attributes, respond, conv).ops)
    {
      if client.None? {
        return None;
      }
      request := CopyParams(base.params, attributes);
      if request.None? {
        return;
      }
      var data := respond(client.value, request.value);
      if data.None? {
        return;
      }
      var total := ToFloat(Get(data.value, "total_count", Int(0)));
      if total.None? {
        return;
      }
      var totalOps := [SetGauge(Series(TotalCount, [base.name]), total.value)];
      reg.Set(totalOps[0].series, total.value);
      var packages := Get(data.value, ListKey, List([]));
      if PyLen(packages).None? || !Truthy(packages) {
        assert totalOps + [] == totalOps;
        return;
      }
      var ps := PyIter(packages);
      if ps.None? {
        assert totalOps + [] == totalOps;
        return;
      }
      var _ := CollectPackages(reg, base.name, conv, ps.value);
      ApplyConcat(old(reg.State()), totalOps, ForEach(ps.value, PackageFn(base.name, conv)).ops);
    }

    /** The loop over the packages: each package in turn, until one raises. */
    static method CollectPackages(reg: Registry, account: string, conv: string -> Option<real>, xs: seq<Value>)
      returns (completed: bool)
      modifies reg
      ensures reg.State() == Apply(old(reg.State()), ForEach(xs, PackageFn(account, conv)).ops)
      ensures completed == ForEach(xs, PackageFn(account, conv)).completed
    {
      var body := PackageFn(account, conv);
      var i := 0;
      completed := true;
      while i < |xs| && completed
        invariant 0 <= i <= |xs|
        invariant completed == ForEach(xs[..i], body).completed
        invariant reg.State() == Apply(old(reg.State()), ForEach(xs[..i], body).ops)
      {
        ForEachStepApply(old(reg.State()), xs, i, body);
        completed := CollectPackage(reg, account, conv, xs[i]);
        i := i + 1;
      }
      ForEachExit(xs, i, body);
    }
  }

  // ---------------------------------------------------------------- what collect writes

  /** Without credentials there is no client, and `collect` returns before writing anything. */
  lemma MissingCredentialsWriteNothing(base: Base, env: map<string, string>, knownRegion: Value -> bool, attributes: set<string>,
                                       respond: (SdkClient, map<string, Value>) -> Option<map<string, Value>>,
                                       conv: string -> Option<real>)
    requires !Truthy(base.ak) && "CLOUD_SDK_AK" !in env
    ensures CollectEffect(base, NewSdkClient(base, env, DefaultRegion, knownRegion), attributes, respond, conv) == Done([])
  {
  }

  /** The effective-time write only touches its own metric. */
  lemma EffectiveAvoids(account: string, conv: string -> Option<real>, f: map<string, Value>, metric: string)
    requires metric != EffectiveTime
    ensures Avoids(EffectiveOps(account, conv, f), metric)
  {
  }

  /** The expiry writes only touch the two expiry metrics. */
  lemma ExpiryAvoids(account: string, conv: string -> Option<real>, f: map<string, Value>, metric: string)
    requires metric != ExpireTime && metric != ActiveExpireTime
    ensures Avoids(ExpiryOps(account, conv, f), metric)
  {
  }

  /** A package's own writes only touch the package metrics. */
  lemma HeadAvoids(account: string, conv: string -> Option<real>, f: map<string, Value>, status: real, metric: string)
    requires metric != PackageStatus && metric != PackageInfo
    requires metric != EffectiveTime && metric != ExpireTime && metric != ActiveExpireTime
    ensures Avoids(PackageHead(account, conv, f, status), metric)
  {
    var st, info := [StatusOp(account, f, status)], [InfoOp(account, f)];
    var eff, exp := EffectiveOps(account, conv, f), ExpiryOps(account, conv, f);
    EffectiveAvoids(account, conv, f, metric);
    ExpiryAvoids(account, conv, f, metric);
    AvoidsConcat(st, info, metric);
    AvoidsConcat(st + info, eff, metric);
    AvoidsConcat(st + info + eff, exp, metric);
  }

  /** A package writes only package and resource-item metrics. */
  lemma PackageAvoids(account: string, conv: string -> Option<real>, package: Value, metric: string)
    requires metric != PackageStatus && metric != PackageInfo
    requires metric != EffectiveTime && metric != ExpireTime && metric != ActiveExpireTime
    requires metric != ResourceAmount && metric != ResourceOriginalAmount
    ensures Avoids(PackageEffect(account, conv, package).ops, metric)
  {
    if package.Dict? && ToFloat(Get(package.fields, "status", Int(0))).Some? {
      var f := package.fields;
      var status := ToFloat(Get(f, "status", Int(0))).value;
      HeadAvoids(account, conv, f, status, metric);
      ResourcesAvoid(account, f, metric);
      AvoidsConcat(PackageHead(account, conv, f, status), ResourcesEffect(account, f).ops, metric);
    }
  }

  /** With no packages, or an empty list, the total is the only write. */
  lemma NoPackagesOnlyTotal(account: string, conv: string -> Option<real>, data: map<string, Value>)
    requires ToFloat(Get(data, "total_count", Int(0))).Some?
    requires ListKey !in data || data[ListKey] == List([])
    ensures ResponseEffect(account, conv, data) == Done([SetGauge(Series(TotalCount, [account]), ToFloat(Get(data, "total_count", Int(0))).value)])
  {
    EmptyListOnlyTotal(Series(TotalCount, [account]), data, ListKey, PackageFn(account, conv));
  }

  /** A resource item only writes the two amount gauges. */
  lemma ResourcesAvoid(account: string, f: map<string, Value>, metric: string)
    requires metric != ResourceAmount && metric != ResourceOriginalAmount
    ensures Avoids(ResourcesEffect(account, f).ops, metric)
  {
    var resources := Get(f, "free_resources", List([]));
    if PyLen(resources).Some? && PyIter(resources).Some? {
      var rs := PyIter(resources).value;
      var body := ResourceFn(account, OrderInstanceId(f), ProductName(f));
      forall i | 0 <= i < |rs|
        ensures Avoids(body(rs[i]).ops, metric)
      {
      }
      ForEachAvoids(rs, body, metric);
    }
  }

  /** A package's writes: its own writes, then its resource items'. */
  lemma PackageOpsShape(account: string, conv: string -> Option<real>, f: map<string, Value>)
    requires ToFloat(Get(f, "status", Int(0))).Some?
    ensures PackageEffect(account, conv, Dict(f)).ops ==
              PackageHead(account, conv, f, ToFloat(Get(f, "status", Int(0))).value) + ResourcesEffect(account, f).ops
  {
  }

  /** In a package's own writes followed by writes to other metrics, the status gauge holds the status. */
  lemma HeadStatus(account: string, conv: string -> Option<real>, f: map<string, Value>, status: real, rest: seq<Op>)
    requires Avoids(rest, PackageStatus)
    ensures LastGauge(PackageHead(account, conv, f, status) + rest, Series(PackageStatus, PackageLabels(account, f))) == Some(status)
  {
    var st, info := StatusOp(account, f, status), InfoOp(account, f);
    var eff, exp := EffectiveOps(account, conv, f), ExpiryOps(account, conv, f);
    Regroup([st], [info], eff, exp, rest);
    EffectiveAvoids(account, conv, f, PackageStatus);
    ExpiryAvoids(account, conv, f, PackageStatus);
    AvoidsConcat([info], eff, PackageStatus);
    AvoidsConcat([info] + eff, exp, PackageStatus);
    AvoidsConcat([info] + eff + exp, rest, PackageStatus);
    LastGaugeOf([], st.series, st.value, [info] + eff + exp + rest);
  }

  /** In a package's own writes followed by writes to other metrics, the info series holds the info dict. */
  lemma HeadInfo(account: string, conv: string -> Option<real>, f: map<string, Value>, status: real, rest: seq<Op>)
    requires Avoids(rest, PackageInfo)
    ensures LastInfo(PackageHead(account, conv, f, status) + rest, Series(PackageInfo, [account, OrderInstanceId(f), ProductName(f)]))
              == Some(PackageInfoFields(f))
  {
    var st, info := StatusOp(account, f, status), InfoOp(account, f);
    var eff, exp := EffectiveOps(account, conv, f), ExpiryOps(account, conv, f);
    Regroup([st], [info], eff, exp, rest);
    EffectiveAvoids(account, conv, f, PackageInfo);
    ExpiryAvoids(account, conv, f, PackageInfo);
    AvoidsConcat(eff, exp, PackageInfo);
    AvoidsConcat(eff + exp, rest, PackageInfo);
    LastInfoOf([st], info.series, info.info, eff + exp + rest);
  }

  /** ... and the effective-time gauge holds what the effective-time write left. */
  lemma HeadEffective(account: string, conv: string -> Option<real>, f: map<string, Value>, status: real, rest: seq<Op>)
    requires Avoids(rest, EffectiveTime)
    ensures var s := Series(EffectiveTime, PackageLabels(account, f));
            LastGauge(PackageHead(account, conv, f, status) + rest, s) == LastGauge(EffectiveOps(account, conv, f), s)
  {
    var st, info := StatusOp(account, f, status), InfoOp(account, f);
    var eff, exp := EffectiveOps(account, conv, f), ExpiryOps(account, conv, f);
    Regroup([st], [info], eff, exp, rest);
    ExpiryAvoids(account, conv, f, EffectiveTime);
    AvoidsConcat(exp, rest, EffectiveTime);
    AvoidsConcat([st], [info], EffectiveTime);
    LastGaugeWithin([st] + [info], eff, exp + rest, Series(EffectiveTime, PackageLabels(account, f)));
  }

  /** ... and the two expiry gauges hold what the expiry writes left. */
  lemma HeadExpiry(account: string, conv: string -> Option<real>, f: map<string, Value>, status: real, rest: seq<Op>, s: Series)
    requires s.metric == ExpireTime || s.metric == ActiveExpireTime
    requires Avoids(rest, s.metric)
    ensures LastGauge(PackageHead(account, conv, f, status) + rest, s) == LastGauge(ExpiryOps(account, conv, f), s)
  {
    var st, info := StatusOp(account, f, status), InfoOp(account, f);
    var eff, exp := EffectiveOps(account, conv, f), ExpiryOps(account, conv, f);
    EffectiveAvoids(account, conv, f, s.metric);
    AvoidsConcat([st], [info], s.metric);
    AvoidsConcat([st] + [info], eff, s.metric);
    LastGaugeWithin([st] + [info] + eff, exp, rest, s);
  }

  /** The status gauge holds `float()` of the raw status (default 0). */
  lemma PackageStatusWritten(account: string, conv: string -> Option<real>, f: map<string, Value>)
    requires ToFloat(Get(f, "status", Int(0))).Some?
    ensures LastGauge(PackageEffect(account, conv, Dict(f)).ops, Series(PackageStatus, PackageLabels(account, f)))
              == ToFloat(Get(f, "status", Int(0)))
  {
    PackageOpsShape(account, conv, f);
    ResourcesAvoid(account, f, PackageStatus);
    HeadStatus(account, conv, f, ToFloat(Get(f, "status", Int(0))).value, ResourcesEffect(account, f).ops);
  }

  /** The info series holds the package's info dict. */
  lemma PackageInfoWritten(account: string, conv: string -> Option<real>, f: map<string, Value>)
    requires ToFloat(Get(f, "status", Int(0))).Some?
    ensures LastInfo(PackageEffect(account, conv, Dict(f)).ops, Series(PackageInfo, [account, OrderInstanceId(f), ProductName(f)]))
              == Some(PackageInfoFields(f))
  {
    PackageOpsShape(account, conv, f);
    ResourcesAvoid(account, f, PackageInfo);
    HeadInfo(account, conv, f, ToFloat(Get(f, "status", Int(0))).value, ResourcesEffect(account, f).ops);
  }

  /** The effective time is written exactly when it is a non-empty string that converts. */
  lemma EffectiveTimeWritten(account: string, conv: string -> Option<real>, f: map<string, Value>)
    requires ToFloat(Get(f, "status", Int(0))).Some?
    ensures var ops := PackageEffect(account, conv, Dict(f)).ops;
            var date := Get(f, "effective_time", Null);
            LastGauge(ops, Series(EffectiveTime, PackageLabels(account, f))) ==
              (if date.Str? && date.s != [] then conv(date.s) else None)
  {
    PackageOpsShape(account, conv, f);
    ResourcesAvoid(account, f, EffectiveTime);
    HeadEffective(account, conv, f, ToFloat(Get(f, "status", Int(0))).value, ResourcesEffect(account, f).ops);
    TimestampWritten(Series(EffectiveTime, PackageLabels(account, f)), conv, Get(f, "effective_time", Null));
  }

  /** The expiry writes alone: the active-package gauge copies the expiry timestamp when the status equals 1. */
  lemma ExpireWritten(labels: seq<string>, conv: string -> Option<real>, status: Value, date: Value)
    ensures var ops := ExpireOps(labels, conv, status, date);
            var converted := date.Str? && date.s != [] && conv(date.s).Some?;
            && LastGauge(ops, Series(ExpireTime, labels)) == (if converted then conv(date.s) else None)
            && LastGauge(ops, Series(ActiveExpireTime, labels)) == (if converted && NumEq(status, 1) then conv(date.s) else None)
  {
    var ops := ExpireOps(labels, conv, status, date);
    if ops != [] {
      assert ops[..1] == [ops[0]];
      if |ops| == 2 {
        assert ops[..1][..0] == [];
      }
    }
  }

  /**
   * The expiry timestamp is written exactly when the expiry time converts;
   * the active-package expiry exactly when, in addition, the status equals
   * 1, and then with the same value.
   */
  lemma ActivePackageExpiry(account: string, conv: string -> Option<real>, f: map<string, Value>)
    requires ToFloat(Get(f, "status", Int(0))).Some?
    ensures var ops := PackageEffect(account, conv, Dict(f)).ops;
            var labels := PackageLabels(account, f);
            var date := Get(f, "expire_time", Null);
            var converted := date.Str? && date.s != [] && conv(date.s).Some?;
            && LastGauge(ops, Series(ExpireTime, labels)) == (if converted then conv(date.s) else None)
            && LastGauge(ops, Series(ActiveExpireTime, labels)) ==
                 (if converted && NumEq(Get(f, "status", Int(0)), 1) then LastGauge(ops, Series(ExpireTime, labels)) else None)
  {
    var labels := PackageLabels(account, f);
    var v := ToFloat(Get(f, "status", Int(0))).value;
    var rest := ResourcesEffect(account, f).ops;
    PackageOpsShape(account, conv, f);
    ResourcesAvoid(account, f, ExpireTime);
    ResourcesAvoid(account, f, ActiveExpireTime);
    HeadExpiry(account, conv, f, v, rest, Series(ExpireTime, labels));
    HeadExpiry(account, conv, f, v, rest, Series(ActiveExpireTime, labels));
    ExpireWritten(labels, conv, Get(f, "status", Int(0)), Get(f, "expire_time", Null));
  }
}
