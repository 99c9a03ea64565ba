/**
 * `LISTPAYPERUSECUSTOMERRESOURCESCollector`: the pay-per-use resources of
 * an account, fetched with the BSS SDK, one set of gauges and an info
 * series per resource.
 */
module PayPerUse {
  import opened Wrappers
  import opened PyValue
  import opened BaseCollector
  import opened Metrics
  import opened Gauges
  import opened SdkCollector

  const TotalCount := "huaweicloud_bss_resource_total_count"
  const ResourceStatus := "huaweicloud_bss_resource_status"
  const SpecSize := "huaweicloud_bss_resource_spec_size"
  const ExpireTime := "huaweicloud_bss_resource_expire_timestamp"
  const EffectiveTime := "huaweicloud_bss_resource_effective_timestamp"
  const IsMain := "huaweicloud_bss_resource_is_main"
  const ResourceInfo := "huaweicloud_bss_resource"

  const DefaultRegion := "cn-north-1"

  /** The response field holding the resource list. */
  const ListKey := "data"

  /** The specification units the collector knows by id. */
  const SpecUnits: map<int, string> := map[15 := "Mbps", 17 := "GB", 18 := "MB", 19 := "TB", 20 := "KB"]

  /** `_get_spec_unit`: a known id's unit, `unit_<id>` otherwise; a list or dict id raises. */
  function SpecUnit(id: Value): (r: Option<string>)
    ensures r.None? <==> !Hashable(id)
  {
    LookupInt(SpecUnits, id, "unit_" + PyStr(id))
  }

  /** An id equal to a table key gets that key's unit. */
  lemma SpecUnitKnown(id: Value, n: int)
    requires Hashable(id) && NumEq(id, n) && n in SpecUnits
    ensures SpecUnit(id) == Some(SpecUnits[n])
  {
    LookupIntEqualKeys(SpecUnits, id, "unit_" + PyStr(id), n);
  }

  /** Any other id is spelled out after `unit_`; `10` is not in this table. */
  lemma SpecUnitOther(id: Value, n: int)
    requires Hashable(id) && NumEq(id, n) && n !in SpecUnits
    ensures SpecUnit(id) == Some("unit_" + PyStr(id))
  {
    LookupIntEqualKeys(SpecUnits, id, "unit_" + PyStr(id), n);
  }

  // ---------------------------------------------------------------- one resource

  /** The measure id as the collector uses it: missing or `None` becomes `'unknown'`. */
  function SpecUnitId(f: map<string, Value>): Value {
    IfNone(Get(f, "spec_size_measure_id", Str("unknown")), Str("unknown"))
  }

  /** A resource without a measure id, or with `None`, gets the unit `unit_unknown`. */
  lemma MissingSpecUnit(f: map<string, Value>)
    requires "spec_size_measure_id" !in f || f["spec_size_measure_id"] == Null
    ensures SpecUnit(SpecUnitId(f)) == Some("unit_unknown")
  {
    assert "unit_" + PyStr(Str("unknown")) == "unit_unknown";
  }

  /** The labels of a resource's gauges: account, region, id, name, service type and resource type. */
  function ResourceLabels(account: string, f: map<string, Value>): seq<string> {
    [account, PyStr(Get(f, "region_code", Str("unknown"))), PyStr(Get(f, "resource_id", Str("unknown"))),
     PyStr(Get(f, "resource_name", Str("unknown"))), PyStr(Get(f, "service_type_name", Str("unknown"))),
     PyStr(Get(f, "resource_type_name", Str("unknown")))]
  }

  /** The info series is labelled by account, region, id and name only. */
  function InfoLabels(account: string, f: map<string, Value>): seq<string> {
    ResourceLabels(account, f)[..4]
  }

  /**
   * The enterprise project can be read when it is missing, `None` or an
   * object; anything else has no `get` and raises.
   */
  predicate EnterpriseReadable(f: map<string, Value>) {
    var project := Get(f, "enterprise_project", Null);
    project.Null? || project.Dict?
  }

  /** An enterprise project field: `''` when there is no project, otherwise its value or `''` when falsy. */
  function EnterpriseField(f: map<string, Value>, key: string): Value
    requires EnterpriseReadable(f)
  {
    var project := Get(f, "enterprise_project", Null);
    if project.Null? then Str("") else Or(Get(project.fields, key, Str("")), Str(""))
  }

  /** The info dict of a resource: missing or falsy fields become `''`. */
  function ResourceInfoFields(f: map<string, Value>): map<string, Value>
    requires EnterpriseReadable(f)
  {
    map[
      "id" := Or(Get(f, "id", Str("")), Str("")),
      "service_type_name" := Or(Get(f, "service_type_name", Str("")), Str("")),
      "resource_type_name" := Or(Get(f, "resource_type_name", Str("")), Str("")),
      "product_spec_desc" := Or(Get(f, "product_spec_desc", Str("")), Str("")),
      "project_id" := Or(Get(f, "project_id", Str("")), Str("")),
      "parent_resource_id" := Or(Get(f, "parent_resource_id", Str("")), Str("")),
      "enterprise_project_id" := EnterpriseField(f, "id"),
      "enterprise_project_name" := EnterpriseField(f, "name")]
  }

  /**
   * What the collector reads from one resource object: the gauge labels
   * and the shorter info labels, the status, the spec unit (`None` when
   * the measure id cannot be a dict key, which raises), the spec size, the
   * info dict (`None` when the enterprise project cannot be read, which
   * raises), the two dates and the main-resource flag.  `None` status,
   * size and flag already read as `0`.
   */
  datatype Resource = Resource(labels: seq<string>, infoLabels: seq<string>, status: Value,
                               specUnit: Option<string>, specSize: Value, info: Option<map<string, Value>>,
                               expire: Value, effective: Value, isMain: Value)

  function ReadResource(account: string, f: map<string, Value>): Resource {
    Resource(ResourceLabels(account, f), InfoLabels(account, f), IfNone(Get(f, "status", Int(0)), Int(0)),
             SpecUnit(SpecUnitId(f)), IfNone(Get(f, "spec_size", Int(0)), Int(0)),
             if EnterpriseReadable(f) then Some(ResourceInfoFields(f)) else None,
             Get(f, "expire_time", Null), Get(f, "effective_time", Null), IfNone(Get(f, "is_main_resource", Int(0)), Int(0)))
  }

  /**
   * The writes for one resource, in the collector's order: status (`1`
   * when it equals 2), spec size under its unit, info, expiry and
   * effective times, main flag.  The unit lookup, the info dict and the
   * two `float()` calls may raise.
   */
  function ResourcePieces(conv: string -> Option<real>, r: Resource): seq<Effect> {
    [Done([SetGauge(Series(ResourceStatus, r.labels), Flag(NumEq(r.status, 2)))]),
     (match r.specUnit
      case Some(unit) => SetNumber(Series(SpecSize, r.labels + [unit]), r.specSize)
      case None => Aborted),
     (match r.info
      case Some(fields) => Done([Op.SetInfo(Series(ResourceInfo, r.infoLabels), fields)])
      case None => Aborted),
     Done(TimestampOps(Series(ExpireTime, r.labels), conv, r.expire)
          + TimestampOps(Series(EffectiveTime, r.labels), conv, r.effective)),
     SetNumber(Series(IsMain, r.labels), r.isMain)]
  }

  /** The metrics each piece writes. */
  const PieceMetrics: seq<set<string>> := [{ResourceStatus}, {SpecSize}, {ResourceInfo}, {ExpireTime, EffectiveTime}, {IsMain}]

  /**
   * One resource: a value that is not an object raises before anything
   * is written; a later raise keeps the writes made before it.
   */
  function ResourceEffect(account: string, conv: string -> Option<real>, resource: Value): (e: Effect)
    ensures e.completed <==>
              && resource.Dict?
              && Hashable(SpecUnitId(resource.fields))
              && ToFloat(IfNone(Get(resource.fields, "spec_size", Int(0)), Int(0))).Some?
              && EnterpriseReadable(resource.fields)
              && ToFloat(IfNone(Get(resource.fields, "is_main_resource", Int(0)), Int(0))).Some?
    ensures !resource.Dict? ==> e == Aborted
    ensures Avoids(e.ops, TotalCount)
  {
    match resource
    case Dict(f) =>
      var r := ReadResource(account, f);
      PiecesComplete(conv, r);
      PiecesAvoidTotal(conv, r);
      Chain(ResourcePieces(conv, r))
    case _ => Aborted
  }

  function ResourceFn(account: string, conv: string -> Option<real>): Value -> Effect {
    r => ResourceEffect(account, conv, r)
  }

  // ---------------------------------------------------------------- collect

  /** The response data: the total, then, unless the resource list is empty, each resource. */
  function ResponseEffect(account: string, conv: string -> Option<real>, data: map<string, Value>): (e: Effect)
    ensures LastGauge(e.ops, Series(TotalCount, [account])) == ToFloat(Get(data, "total_count", Int(0)))
    ensures e.completed ==> ToFloat(Get(data, "total_count", Int(0))).Some?
  {
    TotalWrittenFirst(Series(TotalCount, [account]), data, ListKey, ResourceFn(account, conv));
    TotalThenList(Series(TotalCount, [account]), data, ListKey, ResourceFn(account, conv))
  }

  /**
   * `collect`: nothing without a client; the configured params are copied
   * onto the request body; `respond` is the SDK call (`None` when it
   * raises, which the collector catches and logs).
   */
  function CollectEffect(base: Base, client: Option<SdkClient>, attributes: set<string>,
                         respond: (SdkClient, map<string, Value>) -> Option<map<string, Value>>,
                         conv: string -> Option<real>): Effect {
    CallEffect(client, CopyParams(base.params, attributes), respond, data => ResponseEffect(base.name, conv, data))
  }

  class PayPerUseCollector {
    const base: Base
    const client: Option<SdkClient>

    /** `__init__`: the BSS client, built from the configured or environment AK/SK in `cn-north-1` by default. */
    constructor(base: Base, env: map<string, string>, knownRegion: Value -> bool)
      ensures this.base == base
      ensures client == NewSdkClient(base, env, DefaultRegion, knownRegion)
    {
      this.base := base;
      client := NewSdkClient(base, env, DefaultRegion, knownRegion);
    }

    /** `collect` against the registry; `request` is the request body sent, if one was. */
    method Collect(reg: Registry, attributes: set<string>,
                   respond: (SdkClient, map<string, Value>) -> Option<map<string, Value>>,
                   conv: string -> Option<real>) returns (request: Option<map<string, Value>>)
      modifies reg
      ensures request == (if client.Some? then CopyParams(base.params, attributes) else None)
      ensures reg.State() == Apply(old(reg.State()), CollectEffect(base, client, attributes, respond, conv).ops)
    {
      if client.None? {
        return None;
      }
      request := CopyParams(base.params, attributes);
      if request.None? {
        return;
      }
      var data := respond(client.value, request.value);
      if data.None? {
        return;
      }
      var _ := RunTotalThenList(reg, Series(TotalCount, [base.name]), data.value, ListKey, ResourceFn(base.name, conv));
    }
  }

  // ---------------------------------------------------------------- one resource, as read

  /** Each piece writes only its own metrics. */
  lemma PiecesWrite(conv: string -> Option<real>, r: Resource)
    ensures forall j :: 0 <= j < 5 ==> Writes(ResourcePieces(conv, r)[j].ops, PieceMetrics[j])
  {
    TimestampPairWritten(Series(ExpireTime, r.labels), r.expire, Series(EffectiveTime, r.labels), r.effective, conv);
  }

  lemma PiecesAvoidTotal(conv: string -> Option<real>, r: Resource)
    ensures Avoids(Chain(ResourcePieces(conv, r)).ops, TotalCount)
  {
    PiecesWrite(conv, r);
    ChainAvoids(ResourcePieces(conv, r), PieceMetrics, TotalCount);
  }

  /** The status write comes first and always happens. */
  lemma StatusPiece(conv: string -> Option<real>, r: Resource)
    ensures LastGauge(Chain(ResourcePieces(conv, r)).ops, Series(ResourceStatus, r.labels)) == Some(Flag(NumEq(r.status, 2)))
  {
    PiecesWrite(conv, r);
    ChainGauge(ResourcePieces(conv, r), PieceMetrics, 0, Series(ResourceStatus, r.labels));
    SingleGauge(Series(ResourceStatus, r.labels), Flag(NumEq(r.status, 2)));
  }

  /** With a unit, the spec size gauge holds `float()` of the size and is not written when that raises. */
  lemma SpecPiece(conv: string -> Option<real>, r: Resource)
    requires r.specUnit.Some?
    ensures LastGauge(Chain(ResourcePieces(conv, r)).ops, Series(SpecSize, r.labels + [r.specUnit.value])) == ToFloat(r.specSize)
  {
    var es := ResourcePieces(conv, r);
    var s := Series(SpecSize, r.labels + [r.specUnit.value]);
    PiecesWrite(conv, r);
    ChainGauge(es, PieceMetrics, 1, s);
    if es[1].completed {
      SingleGauge(s, ToFloat(r.specSize).value);
    }
  }

  /** Without a unit, the status is the only write and the resource raises. */
  lemma NoUnitPiece(conv: string -> Option<real>, r: Resource)
    requires r.specUnit.None?
    ensures Chain(ResourcePieces(conv, r)) == Effect([SetGauge(Series(ResourceStatus, r.labels), Flag(NumEq(r.status, 2)))], false)
  {
    var es := ResourcePieces(conv, r);
    assert es[1..][0] == Aborted;
    assert Chain(es[1..]) == Then(es[1..][0], Chain(es[1..][1..])) == Aborted;
    assert es[0].ops + [] == es[0].ops;
  }

  /** Once the spec size is written, the info series holds the info dict, if it could be built. */
  lemma InfoPiece(conv: string -> Option<real>, r: Resource)
    requires r.specUnit.Some? && ToFloat(r.specSize).Some?
    ensures LastInfo(Chain(ResourcePieces(conv, r)).ops, Series(ResourceInfo, r.infoLabels)) == r.info
  {
    PiecesWrite(conv, r);
    ChainInfo(ResourcePieces(conv, r), PieceMetrics, 2, Series(ResourceInfo, r.infoLabels));
    if r.info.Some? {
      SingleInfo(Series(ResourceInfo, r.infoLabels), r.info.value);
    }
  }

  /** Once the info is written, each timestamp holds the conversion of its non-empty date string. */
  lemma DatesPiece(conv: string -> Option<real>, r: Resource)
    requires r.specUnit.Some? && ToFloat(r.specSize).Some? && r.info.Some?
    ensures var ops := Chain(ResourcePieces(conv, r)).ops;
            && LastGauge(ops, Series(ExpireTime, r.labels)) == (if r.expire.Str? && r.expire.s != [] then conv(r.expire.s) else None)
            && LastGauge(ops, Series(EffectiveTime, r.labels)) == (if r.effective.Str? && r.effective.s != [] then conv(r.effective.s) else None)
  {
    var s1, s2 := Series(ExpireTime, r.labels), Series(EffectiveTime, r.labels);
    PiecesWrite(conv, r);
    ChainGauge(ResourcePieces(conv, r), PieceMetrics, 3, s1);
    ChainGauge(ResourcePieces(conv, r), PieceMetrics, 3, s2);
    TimestampPairWritten(s1, r.expire, s2, r.effective, conv);
  }

  /** Once the info is written, the main flag gauge holds `float()` of the flag and is not written when that raises. */
  lemma IsMainPiece(conv: string -> Option<real>, r: Resource)
    requires r.specUnit.Some? && ToFloat(r.specSize).Some? && r.info.Some?
    ensures LastGauge(Chain(ResourcePieces(conv, r)).ops, Series(IsMain, r.labels)) == ToFloat(r.isMain)
  {
    var es := ResourcePieces(conv, r);
    PiecesWrite(conv, r);
    ChainGauge(es, PieceMetrics, 4, Series(IsMain, r.labels));
    if es[4].completed {
      SingleGauge(Series(IsMain, r.labels), ToFloat(r.isMain).value);
    }
  }

  /** The resource's writes run to their end exactly when none of the four steps that can raise does. */
  lemma PiecesComplete(conv: string -> Option<real>, r: Resource)
    ensures Chain(ResourcePieces(conv, r)).completed <==>
              r.specUnit.Some? && ToFloat(r.specSize).Some? && r.info.Some? && ToFloat(r.isMain).Some?
  {
    var es := ResourcePieces(conv, r);
    ChainCompleted(es);
    assert es[1].completed <==> r.specUnit.Some? && ToFloat(r.specSize).Some?;
    assert es[2].completed <==> r.info.Some?;
    assert es[4].completed <==> ToFloat(r.isMain).Some?;
    if es[1].completed && es[2].completed && es[4].completed {
      forall j | 0 <= j < |es| ensures es[j].completed {
        if j == 0 || j == 3 { }
      }
    }
  }

  // ---------------------------------------------------------------- what collect writes

  /** Without credentials there is no client, and `collect` returns before writing anything. */
  lemma MissingCredentialsWriteNothing(base: Base, env: map<string, string>, knownRegion: Value -> bool, attributes: set<string>,
                                       respond: (SdkClient, map<string, Value>) -> Option<map<string, Value>>,
                                       conv: string -> Option<real>)
    requires !Truthy(base.ak) && "CLOUD_SDK_AK" !in env
    ensures CollectEffect(base, NewSdkClient(base, env, DefaultRegion, knownRegion), attributes, respond, conv) == Done([])
  {
  }

  /** With no resource list, or an empty one, the total is the only write. */
  lemma NoResourcesOnlyTotal(account: string, conv: string -> Option<real>, data: map<string, Value>)
    requires ToFloat(Get(data, "total_count", Int(0))).Some?
    requires ListKey !in data || data[ListKey] == List([])
    ensures ResponseEffect(account, conv, data) == Done([SetGauge(Series(TotalCount, [account]), ToFloat(Get(data, "total_count", Int(0))).value)])
  {
    EmptyListOnlyTotal(Series(TotalCount, [account]), data, ListKey, ResourceFn(account, conv));
  }

  /**
   * The status gauge is written for every resource object, even one that
   * raises later: `1` exactly when the status equals 2 (a missing or
   * `None` status counts as not in use).
   */
  lemma StatusWritten(account: string, conv: string -> Option<real>, f: map<string, Value>)
    ensures LastGauge(ResourceEffect(account, conv, Dict(f)).ops, Series(ResourceStatus, ResourceLabels(account, f)))
              == Some(if NumEq(Get(f, "status", Int(0)), 2) then 1.0 else 0.0)
  {
    StatusPiece(conv, ReadResource(account, f));
  }

  /**
   * The spec size gauge holds `float()` of the spec size, `0.0` when it
   * is missing or `None`, under the label of the spec unit; it is not
   * written when `float()` raises.
   */
  lemma SpecSizeWritten(account: string, conv: string -> Option<real>, f: map<string, Value>)
    requires Hashable(SpecUnitId(f))
    ensures var size := Get(f, "spec_size", Int(0));
            LastGauge(ResourceEffect(account, conv, Dict(f)).ops, Series(SpecSize, ResourceLabels(account, f) + [SpecUnit(SpecUnitId(f)).value]))
              == (if size.Null? then Some(0.0) else ToFloat(size))
  {
    SpecPiece(conv, ReadResource(account, f));
  }

  /** A measure id that is a list or a dict raises after the status write and before anything else. */
  lemma UnhashableSpecUnit(account: string, conv: string -> Option<real>, f: map<string, Value>)
    requires !Hashable(SpecUnitId(f))
    ensures ResourceEffect(account, conv, Dict(f))
              == Effect([SetGauge(Series(ResourceStatus, ResourceLabels(account, f)), Flag(NumEq(Get(f, "status", Int(0)), 2)))], false)
  {
    NoUnitPiece(conv, ReadResource(account, f));
  }

  /**
   * Once the spec size is written, the info series holds the info dict,
   * unless the enterprise project is neither missing, `None` nor an
   * object, which raises before the info is written.
   */
  lemma InfoWritten(account: string, conv: string -> Option<real>, f: map<string, Value>)
    requires Hashable(SpecUnitId(f)) && ToFloat(IfNone(Get(f, "spec_size", Int(0)), Int(0))).Some?
    ensures LastInfo(ResourceEffect(account, conv, Dict(f)).ops, Series(ResourceInfo, InfoLabels(account, f)))
              == (if EnterpriseReadable(f) then Some(ResourceInfoFields(f)) else None)
  {
    InfoPiece(conv, ReadResource(account, f));
  }

  /** Without an enterprise project, or with `None`, both enterprise fields of the info are `''`. */
  lemma NoEnterpriseProject(f: map<string, Value>)
    requires "enterprise_project" !in f || f["enterprise_project"] == Null
    ensures ResourceInfoFields(f)["enterprise_project_id"] == Str("")
    ensures ResourceInfoFields(f)["enterprise_project_name"] == Str("")
  {
  }

  /**
   * Once the info is written, the expiry and effective timestamps hold the
   * conversion of a non-empty date string and are not written otherwise.
   */
  lemma DatesWritten(account: string, conv: string -> Option<real>, f: map<string, Value>)
    requires Hashable(SpecUnitId(f)) && ToFloat(IfNone(Get(f, "spec_size", Int(0)), Int(0))).Some? && EnterpriseReadable(f)
    ensures var ops := ResourceEffect(account, conv, Dict(f)).ops;
            var expire := Get(f, "expire_time", Null);
            var effective := Get(f, "effective_time", Null);
            && LastGauge(ops, Series(ExpireTime, ResourceLabels(account, f))) == (if expire.Str? && expire.s != [] then conv(expire.s) else None)
            && LastGauge(ops, Series(EffectiveTime, ResourceLabels(account, f))) == (if effective.Str? && effective.s != [] then conv(effective.s) else None)
  {
    DatesPiece(conv, ReadResource(account, f));
  }

  /**
   * Once the info is written, the main-resource gauge holds `float()` of
   * the flag (`0.0` when missing or `None`) and is not written when that
   * raises.
   */
  lemma IsMainWritten(account: string, conv: string -> Option<real>, f: map<string, Value>)
    requires Hashable(SpecUnitId(f)) && ToFloat(IfNone(Get(f, "spec_size", Int(0)), Int(0))).Some? && EnterpriseReadable(f)
    ensures var flag := Get(f, "is_main_resource", Int(0));
            LastGauge(ResourceEffect(account, conv, Dict(f)).ops, Series(IsMain, ResourceLabels(account, f)))
              == (if flag.Null? then Some(0.0) else ToFloat(flag))
  {
    IsMainPiece(conv, ReadResource(account, f));
  }

}
