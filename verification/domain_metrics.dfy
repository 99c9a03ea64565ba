/**
 * `DOMAINCollector`: the domain registrations of an account, fetched page
 * by page over the REST API with token authentication, and written as one
 * set of gauges and an info series per domain.
 */
module DomainMetrics {
  import opened Wrappers
  import opened PyValue
  import opened BaseCollector
  import opened HttpClient
  import opened Metrics
  import opened Gauges

  const TotalCount := "huaweicloud_domain_total_count"
  const Status := "huaweicloud_domain_status"
  const RegisterTimestamp := "huaweicloud_domain_register_timestamp"
  const ExpireTimestamp := "huaweicloud_domain_expire_timestamp"
  const DomainInfo := "huaweicloud_domain"
  const RemainingDays := "huaweicloud_domain_remaining_days"
  const PrivacyProtection := "huaweicloud_domain_privacy_protection"
  const AutoRenew := "huaweicloud_domain_auto_renew"

  const DefaultEndpoint := "https://domain.myhuaweicloud.com"
  const DefaultIamEndpoint := "https://iam.myhuaweicloud.com"

  /** `DOMAINCollector.__init__` after the base constructor: empty endpoints get the public ones. */
  function NewDomainCollector(base: Base): (c: Base)
    ensures Truthy(c.endpoint) && Truthy(c.iamEndpoint)
    ensures Truthy(base.endpoint) ==> c.endpoint == base.endpoint
    ensures !Truthy(base.endpoint) ==> c.endpoint == Str(DefaultEndpoint)
    ensures Truthy(base.iamEndpoint) ==> c.iamEndpoint == base.iamEndpoint
    ensures !Truthy(base.iamEndpoint) ==> c.iamEndpoint == Str(DefaultIamEndpoint)
    ensures c == base.(endpoint := c.endpoint, iamEndpoint := c.iamEndpoint)
  {
    base.(endpoint := if Truthy(base.endpoint) then base.endpoint else Str(DefaultEndpoint),
          iamEndpoint := if Truthy(base.iamEndpoint) then base.iamEndpoint else Str(DefaultIamEndpoint))
  }

  /** Applying the defaults twice changes nothing more. */
  lemma DefaultsIdempotent(base: Base)
    ensures NewDomainCollector(NewDomainCollector(base)) == NewDomainCollector(base)
  {
  }

  /** The headers of every domain query: token authentication, with no project id. */
  function QueryHeaders(c: Base): Headers {
    ChooseHeaders(Str("token"), Null, Null, c.iamEndpoint, c.domainName, c.username, c.password, Null, Null, Null)
  }

  /**
   * Domain queries are never signed with AK/SK; once the defaults are
   * applied they carry a token exactly when the account name, user name
   * and password are all set.
   */
  lemma QueryUsesToken(base: Base)
    ensures var h := QueryHeaders(NewDomainCollector(base));
            !h.AkSkHeaders? && (h.TokenHeaders? <==> Truthy(base.domainName) && Truthy(base.username) && Truthy(base.password))
  {
  }

  // ---------------------------------------------------------------- query_domains

  /** One page: the `domains` and `total` fields of the response. */
  datatype Page = Page(domains: Value, total: Value)

  /**
   * `query_domains`: the page, or `None` for `{"success": False, ...}`.
   * Every exception is caught: a call that raised or returned `None`, a
   * body that is not JSON or not an object, and `domains` without a length.
   */
  function QueryDomains(r: CallResult): (p: Option<Page>)
    ensures p.Some? ==> PyLen(p.value.domains).Some?
    ensures r.Raised? || r.NoResponse? ==> p.None?
  {
    match r
    case Returned(resp) =>
      (match resp.json
       case Some(Dict(data)) =>
         var domains := Get(data, "domains", List([]));
         if PyLen(domains).Some? then Some(Page(domains, Get(data, "total", Int(0)))) else None
       case _ => None)
    case _ => None
  }

  /** A well-formed response carrying the list `domains`. */
  function PageResponse(domains: seq<Value>): CallResult {
    Returned(Response(Some(Dict(map["domains" := List(domains)]))))
  }

  lemma QueryPage(domains: seq<Value>)
    ensures QueryDomains(PageResponse(domains)) == Some(Page(List(domains), Int(0)))
  {
  }

  // ---------------------------------------------------------------- get_all_domains

  /**
   * How the page loop ends: with every domain fetched, with a failed query
   * (earlier pages are dropped), with an exception of its own, or, in the
   * model only, when the bound on the number of requests is used up.
   */
  datatype Pages = Fetched(domains: seq<Value>) | QueryFailed | LoopRaised | OutOfFuel

  /** The loop's outcome and the offsets it requested, in order. */
  datatype Paging = Paging(outcome: Pages, offsets: seq<Value>)

  /** Earlier pages in front of what the rest of the loop fetched. */
  function Prepend(items: seq<Value>, p: Pages): Pages {
    if p.Fetched? then Fetched(items + p.domains) else p
  }

  /** One round of the loop ends it with `end`, or fetched a full page and goes on at `next`. */
  datatype Round = Stop(end: Pages) | Next(items: seq<Value>, next: Value)

  /**
   * What `all_domains.extend(domains)` appends, as many items as
   * `len(domains)`: a list's items, a string's one-character strings, one
   * string per key of an object.  The keys stand as empty strings, since
   * the map model keeps no key order; `collect` only ever calls `get` on an
   * item, which raises on every string whatever its text
   * (`KeyEndsCollection`).
   */
  function PageItems(domains: Value): (r: Option<seq<Value>>)
    ensures r.Some? <==> PyLen(domains).Some?
    ensures r.Some? ==> |r.value| == PyLen(domains).value
    ensures domains.List? ==> r == Some(domains.items)
    ensures domains.Str? || domains.Dict? ==> r.Some? && forall i :: 0 <= i < |r.value| ==> r.value[i].Str?
  {
    match domains
    case List(xs) => Some(xs)
    case Str(s) => Some(seq(|s|, i requires 0 <= i < |s| => Str([s[i]])))
    case Dict(m) => Some(seq(|m|, _ => Str("")))
    case _ => None
  }

  /**
   * Round `offset` of the loop: a failed query, an exception of the loop's
   * own (`len(domains) < limit` raises unless `limit` is a number, and
   * `offset + limit` is Python's `+`), a page shorter than `limit` (the
   * last), or a full page.
   */
  function PageRound(fetch: (Value, Value) -> CallResult, limit: Value, offset: Value): (r: Round)
    ensures r.Stop? ==> !r.end.OutOfFuel?
    ensures r.Stop? && r.end.QueryFailed? <==> QueryDomains(fetch(offset, limit)).None?
    ensures r.Next? || r.end.Fetched? ==>
              var items := if r.Next? then r.items else r.end.domains;
              var page := QueryDomains(fetch(offset, limit));
              page.Some? && |items| == PyLen(page.value.domains).value && NumberOf(limit).Some?
              && (r.Next? <==> (|items| as real) >= NumberOf(limit).value)
    ensures r.Next? ==> PyAdd(offset, limit) == Some(r.next)
  {
    match QueryDomains(fetch(offset, limit))
    case None => Stop(QueryFailed)
    case Some(page) =>
      match (PageItems(page.domains), NumberOf(limit), PyAdd(offset, limit))
      case (Some(items), Some(l), Some(next)) =>
        if (|items| as real) < l then Stop(Fetched(items)) else Next(items, next)
      case _ => Stop(LoopRaised)
  }

  /** The rounds of `get_all_domains` with this `fetch` and `limit`. */
  function RoundsOf(fetch: (Value, Value) -> CallResult, limit: Value): Value -> Round {
    offset => PageRound(fetch, limit, offset)
  }

  /**
   * The loop from `offset` on, with at most `fuel` more rounds (one
   * request each): `round(o)` is the round at offset `o`.
   */
  function Loop(round: Value -> Round, offset: Value, fuel: nat): (p: Paging)
    ensures fuel > 0 ==> p.offsets != [] && p.offsets[0] == offset
    decreases fuel
  {
    if fuel == 0 then Paging(OutOfFuel, [])
    else match round(offset)
      case Stop(end) => Paging(end, [offset])
      case Next(items, next) =>
        var rest := Loop(round, next, fuel - 1);
        Paging(Prepend(items, rest.outcome), [offset] + rest.offsets)
  }

  /** `get_all_domains`'s loop from `offset` on: `fetch(offset, limit)` is what `http_client.get` returns for that page. */
  function AllDomains(fetch: (Value, Value) -> CallResult, limit: Value, offset: Value, fuel: nat): (p: Paging)
    ensures fuel > 0 ==> p.offsets != [] && p.offsets[0] == offset
    ensures p.outcome.QueryFailed? <==> p.offsets != [] && QueryDomains(fetch(p.offsets[|p.offsets| - 1], limit)).None?
  {
    FailedLast(fetch, limit, offset, fuel);
    Loop(RoundsOf(fetch, limit), offset, fuel)
  }

  /** The loop ends with a failed query exactly when the last page it requested failed. */
  lemma {:induction false} FailedLast(fetch: (Value, Value) -> CallResult, limit: Value, offset: Value, fuel: nat)
    ensures var p := Loop(RoundsOf(fetch, limit), offset, fuel);
            p.outcome.QueryFailed? <==> p.offsets != [] && QueryDomains(fetch(p.offsets[|p.offsets| - 1], limit)).None?
    decreases fuel
  {
    if fuel > 0 {
      match PageRound(fetch, limit, offset)
      case Stop(end) =>
      case Next(items, next) =>
        FailedLast(fetch, limit, next, fuel - 1);
        var rest := Loop(RoundsOf(fetch, limit), next, fuel - 1);
        assert rest.offsets != [] ==> ([offset] + rest.offsets)[|rest.offsets|] == rest.offsets[|rest.offsets| - 1];
    }
  }

  /** One request per round: exactly `fuel` when the bound runs out, at least one and at most `fuel` otherwise. */
  lemma {:induction false} RequestCount(fetch: (Value, Value) -> CallResult, limit: Value, offset: Value, fuel: nat)
    ensures var p := AllDomains(fetch, limit, offset, fuel);
            && (p.outcome.OutOfFuel? ==> |p.offsets| == fuel)
            && (!p.outcome.OutOfFuel? ==> 1 <= |p.offsets| <= fuel)
    decreases fuel
  {
    if fuel > 0 {
      match PageRound(fetch, limit, offset)
      case Stop(end) =>
      case Next(items, next) => RequestCount(fetch, limit, next, fuel - 1);
    }
  }

  /** `get_all_domains`: `limit` comes from `params` (200 by default); `params` must be a dict. */
  function GetAllDomainsSpec(params: Value, fetch: (Value, Value) -> CallResult, fuel: nat): (p: Paging)
    ensures !params.Dict? ==> p == Paging(LoopRaised, [])
    ensures params.Dict? && fuel > 0 ==> p.offsets != [] && p.offsets[0] == Int(0)
    ensures params.Dict? && "limit" !in params.fields ==> p == AllDomains(fetch, Int(200), Int(0), fuel)
  {
    match GetOf(params, "limit", Int(200))
    case None => Paging(LoopRaised, [])
    case Some(limit) => AllDomains(fetch, limit, Int(0), fuel)
  }

  /** One full page: the loop goes on at `offset + limit`. */
  lemma NextPage(fetch: (Value, Value) -> CallResult, limit: int, offset: int, fuel: nat)
    requires fuel > 0
    ensures var p := AllDomains(fetch, Int(limit), Int(offset), fuel);
            var rest := AllDomains(fetch, Int(limit), Int(offset + limit), fuel - 1);
            p.offsets == [Int(offset)] || p.offsets == [Int(offset)] + rest.offsets
  {
    assert PyAdd(Int(offset), Int(limit)) == Some(Int(offset + limit));
    assert NumberOf(Int(limit)) == Some(limit as real);
  }

  lemma MultipleStep(offset: int, limit: int, j: int)
    ensures offset + limit + (j - 1) * limit == offset + j * limit
  {
    assert (j - 1) * limit == j * limit - limit;
  }

  /** The requests `offset`, `offset + limit`, `offset + 2 * limit`, ... for an integer limit. */
  lemma {:induction false} OffsetsStep(fetch: (Value, Value) -> CallResult, limit: int, offset: int, fuel: nat)
    ensures var p := AllDomains(fetch, Int(limit), Int(offset), fuel);
            forall j :: 0 <= j < |p.offsets| ==> p.offsets[j] == Int(offset + j * limit)
    decreases fuel
  {
    if fuel > 0 {
      var p := AllDomains(fetch, Int(limit), Int(offset), fuel);
      var rest := AllDomains(fetch, Int(limit), Int(offset + limit), fuel - 1);
      NextPage(fetch, limit, offset, fuel);
      OffsetsStep(fetch, limit, offset + limit, fuel - 1);
      forall j | 0 <= j < |p.offsets|
        ensures p.offsets[j] == Int(offset + j * limit)
      {
        if j > 0 {
          assert p.offsets[j] == rest.offsets[j - 1];
          MultipleStep(offset, limit, j);
        }
      }
    }
  }

  /** Requested offsets are `0, limit, 2 * limit, ...`. */
  lemma Offsets(fetch: (Value, Value) -> CallResult, limit: int, fuel: nat)
    ensures var p := AllDomains(fetch, Int(limit), Int(0), fuel);
            forall j :: 0 <= j < |p.offsets| ==> p.offsets[j] == Int(j * limit)
  {
    OffsetsStep(fetch, limit, 0, fuel);
  }

  /** A full page is followed by the next one, and its domains come first. */
  lemma FullPageContinues(fetch: (Value, Value) -> CallResult, limit: nat, offset: int, fuel: nat, first: seq<Value>)
    requires fuel >= 1
    requires fetch(Int(offset), Int(limit)) == PageResponse(first) && |first| == limit
    ensures var p := AllDomains(fetch, Int(limit), Int(offset), fuel);
            var rest := AllDomains(fetch, Int(limit), Int(offset + limit), fuel - 1);
            p == Paging(Prepend(first, rest.outcome), [Int(offset)] + rest.offsets)
  {
    QueryPage(first);
  }

  /** A short page is the last one requested. */
  lemma ShortPageStops(fetch: (Value, Value) -> CallResult, limit: nat, offset: int, fuel: nat, last: seq<Value>)
    requires fuel >= 1
    requires fetch(Int(offset), Int(limit)) == PageResponse(last) && |last| < limit
    ensures AllDomains(fetch, Int(limit), Int(offset), fuel) == Paging(Fetched(last), [Int(offset)])
  {
    QueryPage(last);
  }

  /**
   * Pages of 200, 200 and 3 domains: three requests, at offsets 0, 200 and
   * 400, and the 403 domains in page order.
   */
  lemma ThreePages(fetch: (Value, Value) -> CallResult, a: seq<Value>, b: seq<Value>, c: seq<Value>, fuel: nat)
    requires fuel >= 3
    requires |a| == 200 && |b| == 200 && |c| == 3
    requires fetch(Int(0), Int(200)) == PageResponse(a)
    requires fetch(Int(200), Int(200)) == PageResponse(b)
    requires fetch(Int(400), Int(200)) == PageResponse(c)
    ensures GetAllDomainsSpec(Dict(map[]), fetch, fuel) == Paging(Fetched(a + b + c), [Int(0), Int(200), Int(400)])
    ensures |a + b + c| == 403
  {
    assert GetOf(Dict(map[]), "limit", Int(200)) == Some(Int(200));
    ThreePagesFrom(fetch, a, b, c, fuel);
  }

  lemma ThreePagesFrom(fetch: (Value, Value) -> CallResult, a: seq<Value>, b: seq<Value>, c: seq<Value>, fuel: nat)
    requires fuel >= 3
    requires |a| == 200 && |b| == 200 && |c| == 3
    requires fetch(Int(0), Int(200)) == PageResponse(a)
    requires fetch(Int(200), Int(200)) == PageResponse(b)
    requires fetch(Int(400), Int(200)) == PageResponse(c)
    ensures AllDomains(fetch, Int(200), Int(0), fuel) == Paging(Fetched(a + b + c), [Int(0), Int(200), Int(400)])
  {
    ShortPageStops(fetch, 200, 400, fuel - 2, c);
    var third := AllDomains(fetch, Int(200), Int(400), fuel - 2);
    assert third == Paging(Fetched(c), [Int(400)]);
    FullPageContinues(fetch, 200, 200, fuel - 1, b);
    var second := AllDomains(fetch, Int(200), Int(200), fuel - 1);
    assert second == Paging(Fetched(b + c), [Int(200), Int(400)]);
    FullPageContinues(fetch, 200, 0, fuel, a);
    assert a + (b + c) == a + b + c;
  }

  /** A failed page drops the pages fetched before it. */
  lemma FailureDiscards(fetch: (Value, Value) -> CallResult, limit: nat, fuel: nat, first: seq<Value>)
    requires fuel >= 2
    requires fetch(Int(0), Int(limit)) == PageResponse(first) && |first| == limit
    requires QueryDomains(fetch(Int(limit), Int(limit))).None?
    ensures AllDomains(fetch, Int(limit), Int(0), fuel) == Paging(QueryFailed, [Int(0), Int(limit)])
  {
    FullPageContinues(fetch, limit, 0, fuel, first);
  }

  /**
   * A page whose `domains` is an object of fewer keys than `limit` is the
   * last: the loop extends the list with its keys, one string each.
   */
  lemma ObjectPage(fetch: (Value, Value) -> CallResult, limit: nat, offset: int, fuel: nat, m: map<string, Value>, total: Value)
    requires fuel >= 1
    requires QueryDomains(fetch(Int(offset), Int(limit))) == Some(Page(Dict(m), total)) && |m| < limit
    ensures var p := AllDomains(fetch, Int(limit), Int(offset), fuel);
            p.offsets == [Int(offset)] && p.outcome.Fetched? && |p.outcome.domains| == |m|
            && forall i :: 0 <= i < |m| ==> p.outcome.domains[i].Str?
  {
    var items := PageItems(Dict(m)).value;
    assert PageRound(fetch, Int(limit), Int(offset)) == Stop(Fetched(items));
  }

  /** The whole list in front of what is left to fetch. */
  function Extend(all: seq<Value>, offsets: seq<Value>, rest: Paging): Paging {
    Paging(Prepend(all, rest.outcome), offsets + rest.offsets)
  }

  /** A full page moves from what is left to fetch to what was fetched. */
  lemma ExtendStep(all: seq<Value>, offsets: seq<Value>, items: seq<Value>, offset: Value, rest: Paging)
    ensures Extend(all + items, offsets + [offset], rest) == Extend(all, offsets, Paging(Prepend(items, rest.outcome), [offset] + rest.offsets))
  {
    assert offsets + ([offset] + rest.offsets) == (offsets + [offset]) + rest.offsets;
    if rest.outcome.Fetched? {
      assert all + (items + rest.outcome.domains) == (all + items) + rest.outcome.domains;
    }
  }

  /** The page loop of `get_all_domains`, from offset 0; `round(offset)` is the work of one round. */
  method PageLoop(round: Value -> Round, fuel: nat) returns (p: Paging)
    ensures p == Loop(round, Int(0), fuel)
  {
    var all: seq<Value> := [];
    var offsets: seq<Value> := [];
    var offset := Int(0);
    var left := fuel;
    assert Extend([], [], Loop(round, offset, left)) == Loop(round, offset, left);
    while left > 0
      invariant Loop(round, Int(0), fuel) == Extend(all, offsets, Loop(round, offset, left))
      decreases left
    {
      match round(offset) {
        case Stop(end) =>
          return Paging(Prepend(all, end), offsets + [offset]);
        case Next(items, next) =>
          ExtendStep(all, offsets, items, offset, Loop(round, next, left - 1));
          all := all + items;
          offsets := offsets + [offset];
          offset := next;
          left := left - 1;
      }
    }
    assert offsets + [] == offsets;
    return Paging(OutOfFuel, offsets);
  }

  /** `get_all_domains`: read `limit`, then run the page loop. */
  method GetAllDomains(params: Value, fetch: (Value, Value) -> CallResult, fuel: nat) returns (p: Paging)
    ensures p == GetAllDomainsSpec(params, fetch, fuel)
  {
    var limitOf := GetOf(params, "limit", Int(200));
    if limitOf.None? {
      return Paging(LoopRaised, []);
    }
    p := PageLoop(RoundsOf(fetch, limitOf.value), fuel);
  }

  // ---------------------------------------------------------------- collect

  /** The label values of a domain's series: the account and the domain name ('unknown' when absent). */
  function DomainLabels(account: string, f: map<string, Value>): seq<string> {
    [account, PyStr(Get(f, "domain_name", Str("unknown")))]
  }

  /** The expiry timestamp and the remaining days, both only when the expiry date converts. */
  function ExpireOps(labels: seq<string>, conv: string -> Option<real>, remainingDays: string -> int, date: Value): seq<Op> {
    if date.Str? && date.s != [] && conv(date.s).Some? then
      [SetGauge(Series(ExpireTimestamp, labels), conv(date.s).value),
       SetGauge(Series(RemainingDays, labels), remainingDays(date.s) as real)]
    else []
  }

  /** The status gauge: 1 for a verified or normal domain, 0 otherwise. */
  function StatusOp(account: string, f: map<string, Value>): Op {
    var status := Get(f, "status", Str("UNKNOWN"));
    SetGauge(Series(Status, DomainLabels(account, f)), Flag(status == Str("REALNAMEVERIFY") || status == Str("NORMAL")))
  }

  /** The registration timestamp. */
  function RegisterOps(account: string, conv: string -> Option<real>, f: map<string, Value>): seq<Op> {
    TimestampOps(Series(RegisterTimestamp, DomainLabels(account, f)), conv, Get(f, "register_date", Null))
  }

  /** The expiry timestamp and the remaining days. */
  function ExpiryOps(account: string, conv: string -> Option<real>, remainingDays: string -> int, f: map<string, Value>): seq<Op> {
    ExpireOps(DomainLabels(account, f), conv, remainingDays, Get(f, "expire_date", Null))
  }

  /** The privacy and auto-renew flags, then the info series. */
  function FlagOps(account: string, f: map<string, Value>): seq<Op> {
    var labels := DomainLabels(account, f);
    [SetGauge(Series(PrivacyProtection, labels), Flag(Truthy(Get(f, "privacy_protection", Bool(false))))),
     SetGauge(Series(AutoRenew, labels), Flag(Get(f, "auto_renew", Str("0")) == Str("1"))),
     Op.SetInfo(Series(DomainInfo, labels), DomainInfoFields(f))]
  }

  /** The writes for one domain record, in the order `collect` makes them. */
  function DomainOps(account: string, conv: string -> Option<real>, remainingDays: string -> int, f: map<string, Value>): seq<Op> {
    [StatusOp(account, f)] + RegisterOps(account, conv, f) + ExpiryOps(account, conv, remainingDays, f) + FlagOps(account, f)
  }

  /**
   * One domain's writes.  `conv` is `strptime(date, '%Y-%m-%d').timestamp()`
   * (`None` when it raises), `remainingDays` is the whole days from now to
   * an expiry date.  A record that is not an object has no `get`: the
   * exception ends the collection.
   */
  function DomainEffect(account: string, conv: string -> Option<real>, remainingDays: string -> int, domain: Value): (e: Effect)
    ensures e.completed <==> domain.Dict?
    ensures !domain.Dict? ==> e == Aborted
  {
    match domain
    case Dict(f) => Done(DomainOps(account, conv, remainingDays, f))
    case _ => Aborted
  }

  /** The info dict of a domain. */
  function DomainInfoFields(f: map<string, Value>): map<string, Value> {
    map[
      "reg_type" := Get(f, "reg_type", Str("")),
      "audit_status" := Get(f, "audit_status", Str("")),
      "audit_fail_reason" := Or(Get(f, "audit_fail_reason", Str("")), Str("")),
      "transfer_status" := Or(Get(f, "transfer_status", Str("")), Str("")),
      "order_id" := Or(Get(f, "order_id", Str("")), Str(""))]
  }

  function DomainFn(account: string, conv: string -> Option<real>, remainingDays: string -> int): Value -> Effect {
    d => DomainEffect(account, conv, remainingDays, d)
  }

  /** `collect`, given the outcome of the page loop. */
  function CollectEffect(account: string, paging: Paging, conv: string -> Option<real>, remainingDays: string -> int): (e: Effect)
    ensures paging.outcome.QueryFailed? ==> e == Done([])
    ensures paging.outcome.LoopRaised? || paging.outcome.OutOfFuel? ==> e == Aborted
    ensures paging.outcome.Fetched? && paging.outcome.domains == [] ==> e.ops == [SetGauge(Series(TotalCount, [account]), 0.0)]
    ensures paging.outcome.Fetched? ==> LastGauge(e.ops, Series(TotalCount, [account])) == Some(|paging.outcome.domains| as real)
  {
    match paging.outcome
    case Fetched(all) =>
      var total := [SetGauge(Series(TotalCount, [account]), |all| as real)];
      if all == [] then Done(total)
      else
        var rest := ForEach(all, DomainFn(account, conv, remainingDays));
        DomainsAvoidTotal(all, account, conv, remainingDays);
        AvoidsLeavesAlone(rest.ops, Series(TotalCount, [account]));
        LastGaugeConcat(total, rest.ops, Series(TotalCount, [account]));
        Then(Done(total), rest)
    case QueryFailed => Done([])
    case _ => Aborted
  }

  /** `DOMAINCollector.collect` against the registry. */
  method Collect(reg: Registry, c: Base, fetch: (Value, Value) -> CallResult, fuel: nat,
                 conv: string -> Option<real>, remainingDays: string -> int) returns (paging: Paging)
    modifies reg
    ensures paging == GetAllDomainsSpec(c.params, fetch, fuel)
    ensures reg.State() == Apply(old(reg.State()), CollectEffect(c.name, paging, conv, remainingDays).ops)
  {
    paging := GetAllDomains(c.params, fetch, fuel);
    if !paging.outcome.Fetched? {
      return;
    }
    var all := paging.outcome.domains;
    reg.Set(Series(TotalCount, [c.name]), |all| as real);
    if all == [] {
      return;
    }
    var _ := reg.RunEach(all, DomainFn(c.name, conv, remainingDays));
    ApplyConcat(old(reg.State()), [SetGauge(Series(TotalCount, [c.name]), |all| as real)], ForEach(all, DomainFn(c.name, conv, remainingDays)).ops);
  }

  // ---------------------------------------------------------------- what collect writes

  /** The two date pieces only touch the three date metrics. */
  lemma DatesAvoid(account: string, conv: string -> Option<real>, remainingDays: string -> int, f: map<string, Value>, metric: string)
    requires metric != RegisterTimestamp && metric != ExpireTimestamp && metric != RemainingDays
    ensures Avoids(RegisterOps(account, conv, f) + ExpiryOps(account, conv, remainingDays, f), metric)
  {
    AvoidsConcat(RegisterOps(account, conv, f), ExpiryOps(account, conv, remainingDays, f), metric);
  }

  /** Status is 1 exactly for REALNAMEVERIFY and NORMAL; a missing status reads as UNKNOWN. */
  lemma DomainStatus(account: string, conv: string -> Option<real>, remainingDays: string -> int, f: map<string, Value>)
    ensures var e := DomainEffect(account, conv, remainingDays, Dict(f));
            e.completed
            && LastGauge(e.ops, Series(Status, DomainLabels(account, f))) ==
                 Some(if "status" in f && f["status"] in {Str("REALNAMEVERIFY"), Str("NORMAL")} then 1.0 else 0.0)
  {
    StatusWrittenFirst(account, conv, remainingDays, f);
    var status := Get(f, "status", Str("UNKNOWN"));
    assert (status == Str("REALNAMEVERIFY") || status == Str("NORMAL")) <==>
           ("status" in f && f["status"] in {Str("REALNAMEVERIFY"), Str("NORMAL")});
  }

  /** The status op is the only write to the status metric. */
  lemma StatusWrittenFirst(account: string, conv: string -> Option<real>, remainingDays: string -> int, f: map<string, Value>)
    ensures LastGauge(DomainOps(account, conv, remainingDays, f), StatusOp(account, f).series) == Some(StatusOp(account, f).value)
  {
    var st := StatusOp(account, f);
    var dates := RegisterOps(account, conv, f) + ExpiryOps(account, conv, remainingDays, f);
    var flags := FlagOps(account, f);
    DatesAvoid(account, conv, remainingDays, f, Status);
    AvoidsConcat(dates, flags, Status);
    assert DomainOps(account, conv, remainingDays, f) == [] + [st] + (dates + flags);
    LastGaugeOf([], st.series, st.value, dates + flags);
  }

  /** Privacy is 1 exactly when the flag is truthy, auto-renew exactly for the string '1' (default '0'). */
  lemma DomainFlags(account: string, conv: string -> Option<real>, remainingDays: string -> int, f: map<string, Value>)
    ensures var e := DomainEffect(account, conv, remainingDays, Dict(f));
            var labels := DomainLabels(account, f);
            && LastGauge(e.ops, Series(PrivacyProtection, labels)) ==
                 Some(if "privacy_protection" in f && Truthy(f["privacy_protection"]) then 1.0 else 0.0)
            && LastGauge(e.ops, Series(AutoRenew, labels)) ==
                 Some(if "auto_renew" in f && f["auto_renew"] == Str("1") then 1.0 else 0.0)
  {
    var head := [StatusOp(account, f)] + RegisterOps(account, conv, f) + ExpiryOps(account, conv, remainingDays, f);
    assert DomainOps(account, conv, remainingDays, f) == head + FlagOps(account, f);
    FlagsWrittenLast(head, account, f);
  }

  /** The two flag gauges keep the values the flag writes give them, whatever came before. */
  lemma FlagsWrittenLast(head: seq<Op>, account: string, f: map<string, Value>)
    ensures var flags := FlagOps(account, f);
            && LastGauge(head + flags, flags[0].series) == Some(flags[0].value)
            && LastGauge(head + flags, flags[1].series) == Some(flags[1].value)
  {
    var flags := FlagOps(account, f);
    assert flags == [flags[0]] + [flags[1]] + [flags[2]];
    LastGaugeOf(head, flags[0].series, flags[0].value, [flags[1]] + [flags[2]]);
    LastGaugeOf(head + [flags[0]], flags[1].series, flags[1].value, [flags[2]]);
    assert head + flags == head + [flags[0]] + ([flags[1]] + [flags[2]]);
    assert head + flags == head + [flags[0]] + [flags[1]] + [flags[2]];
  }

  /** The info series holds the domain's info dict. */
  lemma DomainInfoWritten(account: string, conv: string -> Option<real>, remainingDays: string -> int, f: map<string, Value>)
    ensures LastInfo(DomainEffect(account, conv, remainingDays, Dict(f)).ops, Series(DomainInfo, DomainLabels(account, f)))
              == Some(DomainInfoFields(f))
  {
    var head := [StatusOp(account, f)] + RegisterOps(account, conv, f) + ExpiryOps(account, conv, remainingDays, f);
    var flags := FlagOps(account, f);
    assert DomainOps(account, conv, remainingDays, f) == head + flags[..2] + [flags[2]] + [];
    LastInfoOf(head + flags[..2], flags[2].series, flags[2].info, []);
  }

  /** The register timestamp is written exactly when the date is a non-empty string that converts. */
  lemma DomainRegisterDate(account: string, conv: string -> Option<real>, remainingDays: string -> int, f: map<string, Value>)
    ensures var e := DomainEffect(account, conv, remainingDays, Dict(f));
            var register := Get(f, "register_date", Null);
            LastGauge(e.ops, Series(RegisterTimestamp, DomainLabels(account, f))) ==
              (if register.Str? && register.s != [] then conv(register.s) else None)
  {
    var s := Series(RegisterTimestamp, DomainLabels(account, f));
    RegisterDecides(account, conv, remainingDays, f, s);
    TimestampWritten(s, conv, Get(f, "register_date", Null));
  }

  /** Where a domain's register timestamp comes from: its register writes alone. */
  lemma RegisterDecides(account: string, conv: string -> Option<real>, remainingDays: string -> int, f: map<string, Value>, s: Series)
    requires s.metric == RegisterTimestamp
    ensures LastGauge(DomainOps(account, conv, remainingDays, f), s) == LastGauge(RegisterOps(account, conv, f), s)
  {
    var reg := RegisterOps(account, conv, f);
    var exp := ExpiryOps(account, conv, remainingDays, f);
    LastGaugeBefore([StatusOp(account, f)] + reg + exp, FlagOps(account, f), s);
    LastGaugeWithin([StatusOp(account, f)], reg, exp, s);
  }

  /** The expiry timestamp and remaining days, from the expiry date alone. */
  lemma ExpireWritten(labels: seq<string>, conv: string -> Option<real>, remainingDays: string -> int, date: Value)
    ensures var ops := ExpireOps(labels, conv, remainingDays, date);
            && (date.Str? && date.s != [] && conv(date.s).Some? ==>
                  LastGauge(ops, Series(ExpireTimestamp, labels)) == conv(date.s)
                  && LastGauge(ops, Series(RemainingDays, labels)) == Some(remainingDays(date.s) as real))
            && (!(date.Str? && date.s != [] && conv(date.s).Some?) ==> ops == [])
  {
    var ops := ExpireOps(labels, conv, remainingDays, date);
    if ops != [] {
      assert ops[..1] == [ops[0]];
    }
  }

  /** Where a domain's expiry gauges come from: its expiry writes alone. */
  lemma ExpiryDecides(account: string, conv: string -> Option<real>, remainingDays: string -> int, f: map<string, Value>, s: Series)
    requires s.metric == ExpireTimestamp || s.metric == RemainingDays
    ensures LastGauge(DomainEffect(account, conv, remainingDays, Dict(f)).ops, s) == LastGauge(ExpiryOps(account, conv, remainingDays, f), s)
  {
    var head := [StatusOp(account, f)] + RegisterOps(account, conv, f);
    AvoidsConcat([StatusOp(account, f)], RegisterOps(account, conv, f), s.metric);
    LastGaugeWithin(head, ExpiryOps(account, conv, remainingDays, f), FlagOps(account, f), s);
  }

  /**
   * A parsable expiry date sets the expiry timestamp and the remaining
   * days; a missing, empty or unparsable one sets neither.
   */
  lemma DomainExpireDate(account: string, conv: string -> Option<real>, remainingDays: string -> int, f: map<string, Value>)
    ensures var e := DomainEffect(account, conv, remainingDays, Dict(f));
            var labels := DomainLabels(account, f);
            var expire := Get(f, "expire_date", Null);
            && (expire.Str? && expire.s != [] && conv(expire.s).Some? ==>
                  LastGauge(e.ops, Series(ExpireTimestamp, labels)) == conv(expire.s)
                  && LastGauge(e.ops, Series(RemainingDays, labels)) == Some(remainingDays(expire.s) as real))
            && (!(expire.Str? && expire.s != [] && conv(expire.s).Some?) ==>
                  LastGauge(e.ops, Series(ExpireTimestamp, labels)).None? && LastGauge(e.ops, Series(RemainingDays, labels)).None?)
  {
    var labels := DomainLabels(account, f);
    ExpiryDecides(account, conv, remainingDays, f, Series(ExpireTimestamp, labels));
    ExpiryDecides(account, conv, remainingDays, f, Series(RemainingDays, labels));
    ExpireWritten(labels, conv, remainingDays, Get(f, "expire_date", Null));
  }

  /** No domain's writes touch the total-count gauge. */
  lemma DomainsAvoidTotal(all: seq<Value>, account: string, conv: string -> Option<real>, remainingDays: string -> int)
    ensures Avoids(ForEach(all, DomainFn(account, conv, remainingDays)).ops, TotalCount)
  {
    forall i | 0 <= i < |all|
      ensures Avoids(DomainFn(account, conv, remainingDays)(all[i]).ops, TotalCount)
    {
    }
    ForEachAvoids(all, DomainFn(account, conv, remainingDays), TotalCount);
  }

  /** Domains that are all objects are written one after the other, to the end. */
  lemma ObjectsComplete(before: seq<Value>, account: string, conv: string -> Option<real>, remainingDays: string -> int)
    requires forall j :: 0 <= j < |before| ==> before[j].Dict?
    ensures ForEach(before, DomainFn(account, conv, remainingDays)).completed
  {
    ForEachAllDone(before, DomainFn(account, conv, remainingDays));
  }

  /**
   * A string among the fetched domains (a key of an object page, a
   * character of a string page) ends the collection: the domains before it
   * are written, and nothing after.
   */
  lemma KeyEndsCollection(all: seq<Value>, i: nat, account: string, conv: string -> Option<real>, remainingDays: string -> int)
    requires i < |all| && all[i].Str?
    requires forall j :: 0 <= j < i ==> all[j].Dict?
    ensures var body := DomainFn(account, conv, remainingDays);
            ForEach(all, body) == Effect(ForEach(all[..i], body).ops, false)
  {
    ObjectsComplete(all[..i], account, conv, remainingDays);
    ForEachRaises(all, i, DomainFn(account, conv, remainingDays));
  }

}
