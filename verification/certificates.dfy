/**
 * `LISTCERTIFICATESCollector`: the SSL certificates of an account, fetched
 * from the SCM service with its SDK; per certificate a status (1 for
 * `ISSUED`), an expiry timestamp that is always written (0 when it cannot
 * be read) and an info series.
 */
module Certificates {
  import opened Wrappers
  import opened Text
  import opened PyValue
  import opened BaseCollector
  import opened Metrics
  import opened Gauges
  import opened SdkCollector

  const TotalCount := "huaweicloud_scm_certificate_total_count"
  const CertificateStatus := "huaweicloud_scm_certificate_status"
  const ExpireTimestamp := "huaweicloud_scm_certificate_expire_timestamp"
  const CertificateInfo := "huaweicloud_scm_certificate"

  /** The SCM region used when none is configured (the BSS collectors use `cn-north-1`). */
  const DefaultRegion := "cn-north-4"

  /** The response field holding the certificate list. */
  const ListKey := "certificates"

  /** The only params copied onto the request, in the order the collector tries them. */
  const RequestKeys := ["limit", "offset", "sort_dir", "sort_key", "status", "enterprise_project_id",
                        "deploy_support", "owned_by_self", "expired_days_since"]

  // ---------------------------------------------------------------- the request

  /**
   * `if key in params: request.key = params[key]` for each of `keys`:
   * `in` raises on a value that is neither dict, list nor string, and
   * `params[key]` raises on anything but a dict.
   */
  function Whitelisted(params: Value, keys: seq<string>): (r: Option<map<string, Value>>)
    ensures keys == [] ==> r == Some(map[])
    ensures r.Some? ==> forall k :: k in r.value ==> k in keys && Index(params, k) == Some(r.value[k])
    decreases |keys|
  {
    if keys == [] then Some(map[])
    else match PyIn(keys[0], params)
      case None => None
      case Some(present) =>
        if !present then Whitelisted(params, keys[1..])
        else match Index(params, keys[0])
          case None => None
          case Some(v) =>
            match Whitelisted(params, keys[1..])
            case None => None
            case Some(m) => Some(m[keys[0] := v])
  }

  /** The request fields set from the params; none when the params are falsy; `None` when setting them raises. */
  function CertificateRequest(params: Value): (r: Option<map<string, Value>>)
    ensures !Truthy(params) ==> r == Some(map[])
    ensures Truthy(params) && (params.Int? || params.Float? || params.Bool?) ==> r.None?
    ensures r.Some? ==> forall k :: k in r.value ==> k in RequestKeys && Index(params, k) == Some(r.value[k])
  {
    if Truthy(params) then Whitelisted(params, RequestKeys) else Some(map[])
  }

  /** From a dict, exactly the listed keys it holds are copied, with their values. */
  lemma {:induction false} WhitelistedDict(fields: map<string, Value>, keys: seq<string>)
    ensures Whitelisted(Dict(fields), keys) == Some(map k | k in fields && k in keys :: fields[k])
    decreases |keys|
  {
    if keys != [] {
      WhitelistedDict(fields, keys[1..]);
      var rest := map k | k in fields && k in keys[1..] :: fields[k];
      var all := map k | k in fields && k in keys :: fields[k];
      assert forall k :: k in keys <==> k == keys[0] || k in keys[1..];
      if keys[0] in fields {
        assert all == rest[keys[0] := fields[keys[0]]];
      } else {
        assert all == rest;
      }
    }
  }

  /** From a list, `in` looks for the key among the items: a hit raises on `params[key]`, no hit copies nothing. */
  lemma {:induction false} WhitelistedList(xs: seq<Value>, keys: seq<string>)
    ensures Whitelisted(List(xs), keys) == if exists k :: k in keys && Str(k) in xs then None else Some(map[])
    decreases |keys|
  {
    if keys != [] {
      WhitelistedList(xs, keys[1..]);
      assert forall k :: k in keys <==> k == keys[0] || k in keys[1..];
    }
  }

  /** Only the nine listed params reach the request, with their configured values; other keys are ignored. */
  lemma RequestFromDict(fields: map<string, Value>)
    ensures CertificateRequest(Dict(fields)) == Some(map k | k in fields && k in RequestKeys :: fields[k])
  {
    WhitelistedDict(fields, RequestKeys);
  }

  /** A list of params raises exactly when it names one of the listed params; otherwise the request is left alone. */
  lemma RequestFromList(xs: seq<Value>)
    ensures CertificateRequest(List(xs)).None? <==> exists k :: k in RequestKeys && Str(k) in xs
    ensures CertificateRequest(List(xs)).Some? ==> CertificateRequest(List(xs)).value == map[]
  {
    WhitelistedList(xs, RequestKeys);
  }

  // ---------------------------------------------------------------- one certificate

  /**
   * What the collector reads from one certificate object: its id and
   * domain labels, whether it is issued, the expiry timestamp and the
   * info dict.  None of this can raise once the certificate is a dict.
   */
  datatype Certificate = Certificate(account: string, id: string, domain: string,
                                     issued: bool, expire: int, info: map<string, Value>)

  /** The labels of the status and expiry gauges. */
  function GaugeLabels(c: Certificate): seq<string> {
    [c.account, c.id, c.domain]
  }

  /** The labels of the info series: no domain. */
  function InfoLabels(c: Certificate): seq<string> {
    [c.account, c.id]
  }

  /** Status and expiry labels of a certificate object: account, id and domain (`'unknown'` when missing). */
  function CertificateLabels(account: string, f: map<string, Value>): seq<string> {
    [account, PyStr(Get(f, "id", Str("unknown"))), PyStr(Get(f, "domain", Str("unknown")))]
  }

  /**
   * The expiry timestamp: 0 unless the expiry field is a non-empty string
   * whose text before the first '.' converts; `toEpoch` is
   * `int(time.mktime(datetime.strptime(text, '%Y-%m-%d %H:%M:%S').timetuple()))`,
   * `None` when that raises.  A non-string value raises on `split`, which
   * the collector catches, so it also gives 0.
   */
  function ExpireStamp(expire: Value, toEpoch: string -> Option<int>): (r: int)
    ensures !expire.Str? || expire.s == [] || toEpoch(BeforeFirst(expire.s, '.')).None? ==> r == 0
    ensures expire.Str? && expire.s != [] && toEpoch(BeforeFirst(expire.s, '.')).Some? ==> r == toEpoch(BeforeFirst(expire.s, '.')).value
  {
    if Truthy(expire) && expire.Str? then
      match toEpoch(BeforeFirst(expire.s, '.'))
      case Some(t) => t
      case None => 0
    else 0
  }

  /** The info dict: three fields through `str()`, the others as given; every missing field is `''`. */
  function CertificateInfoFields(f: map<string, Value>): map<string, Value> {
    map[
      "name" := Get(f, "name", Str("")),
      "domain" := Get(f, "domain", Str("")),
      "sans" := Get(f, "sans", Str("")),
      "type" := Get(f, "type", Str("")),
      "signature_algorithm" := Get(f, "signature_algorithm", Str("")),
      "brand" := Get(f, "brand", Str("")),
      "domain_type" := Get(f, "domain_type", Str("")),
      "validity_period" := Str(PyStr(Get(f, "validity_period", Str("")))),
      "status" := Get(f, "status", Str("")),
      "domain_count" := Str(PyStr(Get(f, "domain_count", Str("")))),
      "wildcard_count" := Str(PyStr(Get(f, "wildcard_count", Str(""))))]
  }

  /** A certificate object as read; a missing status reads as `'unknown'`, which is not `'ISSUED'`. */
  function ReadCertificate(account: string, toEpoch: string -> Option<int>, f: map<string, Value>): Certificate {
    Certificate(account, PyStr(Get(f, "id", Str("unknown"))), PyStr(Get(f, "domain", Str("unknown"))),
                Get(f, "status", Str("unknown")) == Str("ISSUED"),
                ExpireStamp(Get(f, "expire_time", Str("")), toEpoch),
                CertificateInfoFields(f))
  }

  /** The writes for one certificate, in the collector's order: status, expiry, info. */
  function CertificateOps(c: Certificate): seq<Op> {
    [SetGauge(Series(CertificateStatus, GaugeLabels(c)), if c.issued then 1.0 else 0.0),
     SetGauge(Series(ExpireTimestamp, GaugeLabels(c)), c.expire as real),
     SetInfo(Series(CertificateInfo, InfoLabels(c)), c.info)]
  }

  /** One certificate: a value that is not an object raises at its first `get`, before anything is written. */
  function CertificateEffect(account: string, toEpoch: string -> Option<int>, cert: Value): (e: Effect)
    ensures e.completed <==> cert.Dict?
    ensures !cert.Dict? ==> e == Aborted
    ensures Avoids(e.ops, TotalCount)
  {
    match cert
    case Dict(f) => Done(CertificateOps(ReadCertificate(account, toEpoch, f)))
    case _ => Aborted
  }

  function CertificateFn(account: string, toEpoch: string -> Option<int>): Value -> Effect {
    c => CertificateEffect(account, toEpoch, c)
  }

  // ---------------------------------------------------------------- collect

  /**
   * The response data: the total, then each certificate.  The collector
   * has no early return on an empty list, but the loop over an empty list
   * writes nothing, so the shared shape applies.
   */
  function ResponseEffect(account: string, toEpoch: string -> Option<int>, data: map<string, Value>): (e: Effect)
    ensures LastGauge(e.ops, Series(TotalCount, [account])) == ToFloat(Get(data, "total_count", Int(0)))
    ensures e.completed ==> ToFloat(Get(data, "total_count", Int(0))).Some?
  {
    TotalWrittenFirst(Series(TotalCount, [account]), data, ListKey, CertificateFn(account, toEpoch));
    TotalThenList(Series(TotalCount, [account]), data, ListKey, CertificateFn(account, toEpoch))
  }

  /** `collect`: nothing without a client; the whitelisted params on the request; `respond` is the SDK call. */
  function CollectEffect(base: Base, client: Option<SdkClient>,
                         respond: (SdkClient, map<string, Value>) -> Option<map<string, Value>>,
                         toEpoch: string -> Option<int>): Effect {
    CallEffect(client, CertificateRequest(base.params), respond, data => ResponseEffect(base.name, toEpoch, data))
  }

  class CertificatesCollector {
    const base: Base
    const client: Option<SdkClient>

    /** `__init__`: the SCM client, built from the configured or environment AK/SK in `cn-north-4` by default. */
    constructor(base: Base, env: map<string, string>, knownRegion: Value -> bool)
      ensures this.base == base
      ensures client == NewSdkClient(base, env, DefaultRegion, knownRegion)
    {
      this.base := base;
      client := NewSdkClient(base, env, DefaultRegion, knownRegion);
    }

    /** `collect` against the registry; `request` holds the fields set on the request sent, if one was. */
    method Collect(reg: Registry, respond: (SdkClient, map<string, Value>) -> Option<map<string, Value>>,
                   toEpoch: string -> Option<int>) returns (request: Option<map<string, Value>>)
      modifies reg
      ensures request == (if client.Some? then CertificateRequest(base.params) else None)
      ensures reg.State() == Apply(old(reg.State()), CollectEffect(base, client, respond, toEpoch).ops)
    {
      if client.None? {
        return None;
      }
      request := CertificateRequest(base.params);
      if request.None? {
        return;
      }
      var data := respond(client.value, request.value);
      if data.None? {
        return;
      }
      var _ := RunTotalThenList(reg, Series(TotalCount, [base.name]), data.value, ListKey, CertificateFn(base.name, toEpoch));
    }
  }

  // ---------------------------------------------------------------- one certificate, as read

  /** The status gauge is 1 for an issued certificate and 0 otherwise. */
  lemma StatusOp(c: Certificate)
    ensures LastGauge(CertificateOps(c), Series(CertificateStatus, GaugeLabels(c))) == Some(if c.issued then 1.0 else 0.0)
  {
    var ops := CertificateOps(c);
    assert ops == [] + [ops[0]] + ops[1..];
    LastGaugeOf([], ops[0].series, ops[0].value, ops[1..]);
  }

  /** The expiry gauge holds the timestamp read, whatever it is. */
  lemma ExpireOp(c: Certificate)
    ensures LastGauge(CertificateOps(c), Series(ExpireTimestamp, GaugeLabels(c))) == Some(c.expire as real)
  {
    var ops := CertificateOps(c);
    assert ops == ops[..1] + [ops[1]] + ops[2..];
    LastGaugeOf(ops[..1], ops[1].series, ops[1].value, ops[2..]);
  }

  /** The info series holds the info dict. */
  lemma InfoOp(c: Certificate)
    ensures LastInfo(CertificateOps(c), Series(CertificateInfo, InfoLabels(c))) == Some(c.info)
  {
    var ops := CertificateOps(c);
    assert ops == ops[..2] + [ops[2]] + [];
    LastInfoOf(ops[..2], ops[2].series, ops[2].info, []);
  }

  // ---------------------------------------------------------------- what collect writes

  /** Without credentials there is no client, and `collect` returns before writing anything. */
  lemma MissingCredentialsWriteNothing(base: Base, env: map<string, string>, knownRegion: Value -> bool,
                                       respond: (SdkClient, map<string, Value>) -> Option<map<string, Value>>,
                                       toEpoch: string -> Option<int>)
    requires !Truthy(base.sk) && "CLOUD_SDK_SK" !in env
    ensures CollectEffect(base, NewSdkClient(base, env, DefaultRegion, knownRegion), respond, toEpoch) == Done([])
  {
  }

  /** The status gauge is 1 exactly when the status is the string `'ISSUED'`; a missing status gives 0. */
  lemma StatusWritten(account: string, toEpoch: string -> Option<int>, f: map<string, Value>)
    ensures var g := LastGauge(CertificateEffect(account, toEpoch, Dict(f)).ops, Series(CertificateStatus, CertificateLabels(account, f)));
            && (g == Some(1.0) <==> "status" in f && f["status"] == Str("ISSUED"))
            && (g != Some(1.0) ==> g == Some(0.0))
  {
    StatusOp(ReadCertificate(account, toEpoch, f));
  }

  /** The expiry gauge is written for every certificate object: the timestamp read, 0 when there is none. */
  lemma ExpireWritten(account: string, toEpoch: string -> Option<int>, f: map<string, Value>)
    ensures LastGauge(CertificateEffect(account, toEpoch, Dict(f)).ops, Series(ExpireTimestamp, CertificateLabels(account, f)))
              == Some(ExpireStamp(Get(f, "expire_time", Str("")), toEpoch) as real)
  {
    ExpireOp(ReadCertificate(account, toEpoch, f));
  }

  /** Only the text before the first '.' is parsed: fractional seconds are dropped. */
  lemma ExpireIgnoresFraction(date: string, fraction: string, toEpoch: string -> Option<int>)
    requires '.' !in date
    ensures ExpireStamp(Str(date + "." + fraction), toEpoch) == (if toEpoch(date).Some? then toEpoch(date).value else 0)
  {
    BeforeFirstAt(date, fraction, '.');
  }

  /** `BeforeFirst` stops at the first separator. */
  lemma {:induction false} BeforeFirstAt(a: string, b: string, sep: char)
    requires sep !in a
    ensures BeforeFirst(a + [sep] + b, sep) == a
    decreases |a|
  {
    if a != [] {
      assert (a + [sep] + b)[1..] == a[1..] + [sep] + b;
      BeforeFirstAt(a[1..], b, sep);
    } else {
      assert (a + [sep] + b)[0] == sep;
    }
  }

  /** The info series, labelled by account and id only, holds the certificate's info dict. */
  lemma InfoWritten(account: string, toEpoch: string -> Option<int>, f: map<string, Value>)
    ensures LastInfo(CertificateEffect(account, toEpoch, Dict(f)).ops,
                     Series(CertificateInfo, [account, PyStr(Get(f, "id", Str("unknown")))])) == Some(CertificateInfoFields(f))
  {
    InfoOp(ReadCertificate(account, toEpoch, f));
  }

  /** A certificate without the info fields shows `''` for each of them. */
  lemma MissingInfoFields(f: map<string, Value>)
    requires f == map[]
    ensures forall key :: key in CertificateInfoFields(f) ==> CertificateInfoFields(f)[key] == Str("")
  {
  }

  /** The period and the two counts are shown as text: an integer `n` as its decimal digits. */
  lemma InfoCountsAsText(f: map<string, Value>, n: int)
    requires "domain_count" in f && f["domain_count"] == Int(n)
    ensures CertificateInfoFields(f)["domain_count"] == Str(IntStr(n))
    ensures CertificateInfoFields(f)["validity_period"].Str? && CertificateInfoFields(f)["wildcard_count"].Str?
  {
  }

  /** With no certificate list, or an empty one, the total is the only write. */
  lemma NoCertificatesOnlyTotal(account: string, toEpoch: string -> Option<int>, data: map<string, Value>)
    requires ToFloat(Get(data, "total_count", Int(0))).Some?
    requires ListKey !in data || data[ListKey] == List([])
    ensures ResponseEffect(account, toEpoch, data) == Done([SetGauge(Series(TotalCount, [account]), ToFloat(Get(data, "total_count", Int(0))).value)])
  {
    EmptyListOnlyTotal(Series(TotalCount, [account]), data, ListKey, CertificateFn(account, toEpoch));
  }

  /** A list of certificate objects is walked to its end: three writes per certificate after the total. */
  lemma ObjectsComplete(account: string, toEpoch: string -> Option<int>, data: map<string, Value>, xs: seq<Value>)
    requires ToFloat(Get(data, "total_count", Int(0))).Some?
    requires ListKey in data && data[ListKey] == List(xs)
    requires forall i :: 0 <= i < |xs| ==> xs[i].Dict?
    ensures ResponseEffect(account, toEpoch, data).completed
    ensures |ResponseEffect(account, toEpoch, data).ops| == 1 + 3 * |xs|
  {
    ForEachCount(account, toEpoch, xs);
  }

  /** Over objects only, `ForEach` completes with three writes each. */
  lemma {:induction false} ForEachCount(account: string, toEpoch: string -> Option<int>, xs: seq<Value>)
    requires forall i :: 0 <= i < |xs| ==> xs[i].Dict?
    ensures var e := ForEach(xs, CertificateFn(account, toEpoch));
            e.completed && |e.ops| == 3 * |xs|
    decreases |xs|
  {
    if xs != [] {
      ForEachCount(account, toEpoch, xs[..|xs| - 1]);
    }
  }
}
