# hw-exporter core, modelled in Dafny

hw-exporter is a Prometheus exporter for Huawei Cloud. It reads a
configuration of accounts and, per account, of enabled modules. For each
enabled module it builds a collector: the domain collector over the
Domain REST API, and six collectors over the Huawei Cloud SDK (costs,
free resource packages, pay-per-use resources, stored value cards,
SSL certificates and account balances). A background loop then calls
every collector's `collect()` once per pass. Each pass writes the
exporter's own health metrics (`exporter_collector_up`, the scrape
duration histogram and `exporter_scrape_errors_total`) and then sleeps
for the smallest configured interval less the time the pass took.

The model is split into these modules:

- `PyValue` and `Text` hold the Python values of the configuration and of
  the API responses (`None`, bools, numbers, strings, lists and dicts). They
  give `dict.get`, truthiness, `x or y`, `str()`, `float()`, `len()`,
  iteration and the string helpers the collectors use.
- `Metrics` is the Prometheus registry. It keeps gauges, info series,
  counters and histogram observation counts as maps keyed by series,
  that is a metric name plus its label values.
  - A collection is described as a list of writes (`Op`) and the fold
    `Apply` over it.
  - An `Effect` is a write list plus whether the code ran to its end; a
    raised exception caught by the collector stops it part-way.
  - The class `Registry` applies the writes one at a time.
- `BaseCollector` models `BaseCollector.__init__`: credential precedence,
  the `{project_id}` endpoint template and the interval parser. It also
  has the SDK client construction and parameter copying that the six SDK
  collectors share.
- `HttpClient` models header selection and the retry loop with
  exponential back-off.
- `DomainMetrics` models the domain collector: its defaults, the page
  loop of `get_all_domains` and the per-domain gauges.
- `Costs`, `FreeResources`, `PayPerUse`, `StoredValueCards`,
  `Certificates` and `AccountBalances` model one SDK collector each.
  `SdkCollector` and `Gauges` hold the shapes they share.
- `App` models `_setup_collectors` and one pass of `_collect_metrics` as
  methods of the class `Exporter`.

Every method that changes state is proved against a function of its
inputs: `ensures reg.State() == Apply(old(reg.State()), F(...).ops)`.
The lemmas beside `F` state what the source promises about the gauges
that result.
The pass of `App.Exporter.CollectOnce` is stated for the exporter's own
self-monitoring series only; each collector's writes are stated by its
own `Collect`.

Outside inputs are parameters:

- the SDK's response to a request, with `None` for a call that raises;
- each HTTP attempt's outcome;
- a page source for the domain API;
- date-to-timestamp conversion;
- the remaining days of a domain;
- the current month;
- the elapsed time of a pass;
- whether `collect()` raised.

The cost collector's comment gives "2024-08 to 2025-08" as the default
window for September 2025. Its code computes 2024-09 to 2025-08, and the
model follows the code (`Costs.WindowExample`).

## Model

| member | source | states |
|---|---|---|
| `PyValue.Or` | collectors/domain_metrics.py:194-196 | `a or b` is `a` when `a` is truthy and `b` otherwise |
| `PyValue.Get` | collectors/domain_metrics.py:120 | `dict.get(key, default)` is the stored value when the key is present and the default otherwise |
| `PyValue.GetOf` | collectors/domain_metrics.py:253 | `.get` succeeds exactly on a dict and then agrees with `Get`; on any other value it raises |
| `PyValue.Index` | collectors/listcosts_metrics.py:182 | `v[key]` succeeds exactly on a dict holding the key |
| `PyValue.IntKeyExact` | collectors/listfreeresourceinfos_metrics.py:323 | a value compares equal to integer `n` (as `1.0 == 1` and `True == 1` do) exactly when its integer dictionary key is `n` |
| `PyValue.IntKey` | collectors/listfreeresourceinfos_metrics.py:323 | the integer key of a value, when it has one, compares equal to it |
| `PyValue.LookupInt` | collectors/listfreeresourceinfos_metrics.py:323 | `table.get(key, default)` raises exactly for unhashable keys, finds equal numeric keys, and gives the default otherwise |
| `PyValue.LookupIntEqualKeys` | collectors/showcustomeraccountbalances_metrics.py:205 | a hashable key equal to `n` finds `table[n]`, or the default when `n` is not a key |
| `PyValue.Truthy` | collectors/base_collector.py:47 | `None` is false, and a number is true exactly when it is not zero |
| `PyValue.ParseFloat` | collectors/base_collector.py:101 | `float(s)`: blank text raises; a digit string, with or without a leading minus, reads as the integer it denotes |
| `PyValue.ParseFloatFraction` | collectors/base_collector.py:101 | `float(" 12.5 ")` is 12.5: surrounding blanks are ignored |
| `PyValue.ParseFloatExponent` | collectors/base_collector.py:101 | signed exponents and a trailing point are accepted: `-1e3` and `1.` |
| `PyValue.ParseFloatRejects` | collectors/base_collector.py:101-107 | `"."`, `"abc"` and `""` are rejected |
| `PyValue.ToFloat` | collectors/listcosts_metrics.py:211 | `float()` keeps ints and floats; `None`, lists and dicts raise |
| `PyValue.PyIter` | collectors/listcertificates_metrics.py:149 | `for x in v` over a list visits its items and over a string its characters; an empty string or container visits nothing; numbers and `None` raise; a non-empty dict raises at once, since every record loop starts with `x.get` and its keys are strings |
| `PyValue.PyAdd` | collectors/domain_metrics.py:273 | `offset + limit` on numbers is their sum |
| `PyValue.PyLen` | collectors/domain_metrics.py:269 | `len(v)` is defined exactly on strings, lists and dicts, and is 0 exactly when the value is false |
| `PyValue.FloatStr` | collectors/listfreeresourceinfos_metrics.py:323 | `str()` of a float has a point, a minus sign exactly when negative, and a whole number below 10^16 prints as the integer followed by `.0` |
| `PyValue.PyStr` | collectors/listcertificates_metrics.py:192-195 | `str(v)`: a string is itself, an integer reads back through `float()` as itself, a float has a point, and only the empty string prints empty |
| `Text.StripLeft` | collectors/base_collector.py:74 | removes exactly the leading whitespace: the result is a suffix, and what was dropped is all blanks |
| `Text.StripRight` | collectors/base_collector.py:74 | removes exactly the trailing whitespace |
| `Text.StripUnchanged` | collectors/base_collector.py:74 | a string without surrounding blanks is left as it is |
| `Text.StripPadded` | collectors/base_collector.py:74 | `strip()` removes exactly the blanks around text that neither starts nor ends with one |
| `Text.Upper` | app.py:90 | `str.upper()`, character by character |
| `Text.Lower` | app.py:131 | `str.lower()`, character by character |
| `Text.LeadingDigits` | collectors/base_collector.py:74 | the longest prefix of digits: what follows it is not a digit |
| `Text.LeadingSpaces` | collectors/base_collector.py:74 | the longest prefix of blanks: what follows it is not a blank |
| `Text.NatStr` | collectors/listcertificates_metrics.py:194 | `str()` of a natural number is a non-empty digit string whose value is that number |
| `Text.BeforeFirst` | collectors/listcertificates_metrics.py:171 | `s.split(sep)[0]`: the longest prefix without `sep`, followed by `sep` if anything is left |
| `Metrics.ApplyConcat` | app.py:130-149 | applying two write lists one after the other is applying their concatenation |
| `Metrics.GaugeAfter` | app.py:139 | after a write list, a gauge holds the list's last value for it, or its old value when the list does not set it |
| `Metrics.InfoAfter` | collectors/domain_metrics.py:188-197 | the same for info series |
| `Metrics.CounterAfter` | app.py:145-149 | a counter grows by the number of increments of that series in the list |
| `Metrics.ObservationsAfter` | app.py:136 | a histogram's observation count grows by the number of observations of that series |
| `Metrics.SetsOnlyKeepCounts` | collectors/listcertificates_metrics.py:141-200 | a list of gauge and info sets leaves counters and histograms alone |
| `Metrics.SetsOnlyIdempotent` | collectors/listcertificates_metrics.py:141-200 | a list of gauge and info sets applied twice leaves the registry as applying it once: re-collecting an unchanged response changes nothing |
| `Metrics.LastGaugeConcat` | app.py:139 | the last set of a series in `a + b` is that in `b` when `b` sets it, else that in `a` |
| `Metrics.LastInfoConcat` | collectors/domain_metrics.py:188-197 | the same for info series |
| `Metrics.AvoidsConcat` | app.py:130-149 | `a + b` leaves a metric alone exactly when both halves do |
| `Metrics.AvoidsLeavesAlone` | app.py:130-149 | a write list that does not name a metric sets no gauge or info value of its series |
| `Metrics.ForEachStops` | collectors/listcertificates_metrics.py:149-203 | once a record's writes raise, later records are not processed |
| `Metrics.ForEachAllDone` | collectors/listcertificates_metrics.py:149 | when no record raises, the loop completes and its writes are the earlier records' writes followed by the last record's |
| `Metrics.ChainCompleted` | collectors/showcustomeraccountbalances_metrics.py:134-178 | a sequence of write steps completes exactly when every step does |
| `Metrics.ChainGauge` | collectors/showcustomeraccountbalances_metrics.py:143-178 | a gauge written by only one step of a sequence holds what that step wrote, provided the steps before it completed |
| `Metrics.ChainInfo` | collectors/liststoredvaluecards_metrics.py:195-206 | the same for info series |
| `Metrics.Registry.constructor` | app.py:18-34 | a new registry holds no series |
| `Metrics.Registry.Set` | app.py:139 | `.set(v)` replaces the gauge's value and changes nothing else |
| `Metrics.Registry.SetInfo` | collectors/domain_metrics.py:188-197 | `.info(d)` replaces the info series and changes nothing else |
| `Metrics.Registry.Inc` | app.py:145-149 | `.inc()` adds one to the counter and changes nothing else |
| `Metrics.Registry.Observe` | app.py:136 | a timed block records one more observation of its series and changes nothing else |
| `Metrics.Registry.Run` | app.py:130-149 | performing a list of writes in order is `Apply` of the list |
| `Metrics.Registry.RunEach` | collectors/listcertificates_metrics.py:149-203 | a loop over records performs their writes in order until one raises |
| `Gauges.SetNumber` | collectors/listfreeresourceinfos_metrics.py:172-178 | `.set(x)` writes `float(x)` and raises, writing nothing, when `float(x)` would |
| `Gauges.FloatOrZero` | collectors/listfreeresourceinfos_metrics.py:247-251 | `float(x)` with `0.0` when it raises |
| `Gauges.TimestampOps` | collectors/listfreeresourceinfos_metrics.py:199-209 | a timestamp writes at most one gauge, and only to its own series |
| `Gauges.NatText` | collectors/liststoredvaluecards_metrics.py:167-171 | `float(str(n))` of a natural number is `n`; the default text `'0'` reads as `0.0` |
| `Gauges.TimestampWritten` | collectors/listfreeresourceinfos_metrics.py:199-209 | a timestamp gauge is set exactly when the date is a non-empty string that converts, to the converted value |
| `Gauges.TimestampPairWritten` | collectors/liststoredvaluecards_metrics.py:210-231 | two timestamp gauges on different metrics are each decided by their own date |
| `Gauges.Flag` | collectors/domain_metrics.py:176 | `1 if c else 0`: 1 exactly when the condition holds |
| `BaseCollector.MatchInterval` | collectors/base_collector.py:74 | a match of the interval pattern yields a non-empty all-letter unit |
| `BaseCollector.MatchNumberUnit` | collectors/base_collector.py:74 | digits, optional blanks and letters match as that number and that unit |
| `BaseCollector.MatchFractionUnit` | collectors/base_collector.py:74 | `<digits>.<digits><blanks><letters>` matches as the number with that fraction and that unit |
| `BaseCollector.ParseTimeInterval` | collectors/base_collector.py:59-111 | an int or float is returned unchanged; `None`, lists and dicts give 60; strings are stated by the lemmas below |
| `BaseCollector.IntervalMatched` | collectors/base_collector.py:72-97 | a string whose stripped form matches the pattern is the matched number scaled by the lower-cased unit, whatever blanks surround it |
| `BaseCollector.IntervalWithUnit` | collectors/base_collector.py:74-97 | `<digits><blanks><letters>` is the digits' value scaled by the lower-cased unit |
| `BaseCollector.IntervalWithFraction` | collectors/base_collector.py:74-97 | `<digits>.<digits><blanks><letters>` is the number with its fraction scaled by the lower-cased unit |
| `BaseCollector.PaddedInterval` | collectors/base_collector.py:74 | blanks around text that matches the pattern change nothing |
| `BaseCollector.HourAndHalf` | collectors/base_collector.py:74-89 | `"1.5h"` is 5400 seconds |
| `BaseCollector.PaddedMinutes` | collectors/base_collector.py:74-85 | `" 5M "` is 300 seconds |
| `BaseCollector.FiveMinutes` | collectors/base_collector.py:82-85 | `"5M"` is 300 seconds |
| `BaseCollector.TwoHours` | collectors/base_collector.py:86-89 | `"2 Hours"` is 7200 seconds |
| `BaseCollector.OneDay` | collectors/base_collector.py:90-93 | `"1d"` is 86400 seconds |
| `BaseCollector.UnknownUnitIsSeconds` | collectors/base_collector.py:94-97 | an unknown unit leaves the bare number, as seconds |
| `BaseCollector.UnknownUnitExample` | collectors/base_collector.py:94-97 | `"3w"` is 3 seconds |
| `BaseCollector.IntervalDigitsOnly` | collectors/base_collector.py:98-103 | a string of digits with no unit is its value |
| `BaseCollector.IntervalUnmatched` | collectors/base_collector.py:98-107 | a string whose stripped form does not match is `float(s)` when that succeeds and 60 when it raises |
| `BaseCollector.IntervalFallback` | collectors/base_collector.py:104-111 | examples of the fallback: `"abc"`, `""` and `None` give 60 |
| `BaseCollector.Credential` | collectors/base_collector.py:29-34 | a truthy module value wins; otherwise the account's `auth` value; a missing or non-dict `auth` raises |
| `BaseCollector.Scoped` | collectors/base_collector.py:41-42 | as `Credential`, but a missing `auth` gives `None`; only a non-dict `auth` raises |
| `BaseCollector.FormatProjectId` | collectors/base_collector.py:48 | `format()` leaves a template without braces unchanged, and every failure is one exception kind |
| `BaseCollector.FormatAfterBraceFree` | collectors/base_collector.py:48 | a brace-free prefix is copied and the rest formatted |
| `BaseCollector.FormatSubstitutes` | collectors/base_collector.py:48 | `{project_id}` in a template is replaced by the project id |
| `BaseCollector.EndpointTemplate` | collectors/base_collector.py:46-50 | a template is formatted with a truthy project id and kept verbatim with a missing or empty one |
| `BaseCollector.EndpointDefault` | collectors/base_collector.py:46-50 | without an `endpoint` setting the endpoint is `''` |
| `BaseCollector.Endpoint` | collectors/base_collector.py:46-50 | a falsy template or project id keeps the raw setting (`''` when absent); a truthy non-string template raises `AttributeError`; a brace-free string template is kept |
| `BaseCollector.NewBase` | collectors/base_collector.py:22-53 | construction succeeds exactly when every credential, the project id, the region and the endpoint resolve; the fields are then the name, the endpoint rule, `params` (default `{}`) and the parsed interval (default 60) |
| `BaseCollector.NewBaseFields` | collectors/base_collector.py:22-53 | the collector's fields: credential precedence, `auth_type` default `'aksk'`, `params` default `{}`, interval default 60 |
| `BaseCollector.CredentialPrecedence` | collectors/base_collector.py:29-42 | a truthy module value wins, a falsy one falls back to `auth` |
| `BaseCollector.ModuleCredentialsSuffice` | collectors/base_collector.py:29-53 | with every credential in the module config, construction succeeds whatever the account holds |
| `BaseCollector.MissingAuthRaises` | collectors/base_collector.py:29 | falling back to a missing `auth` raises `KeyError`; to a non-dict one, `AttributeError` |
| `BaseCollector.NewSdkClient` | collectors/listcertificates_metrics.py:58-83 | no client without ak and sk from config or environment; otherwise the configured region, or the collector's default |
| `BaseCollector.CopyParams` | collectors/listfreeresourceinfos_metrics.py:129-135 | exactly the param keys that are request attributes are copied, with their values; empty params copy nothing |
| `HttpClient.ChooseHeaders` | utils/http_client.py:49-57 | AK/SK headers exactly when the type is `'aksk'` and ak, sk, region and service are truthy; token headers exactly for `'token'` with the four token fields; else none |
| `HttpClient.Retry` | utils/http_client.py:59-79 | no attempts are left once `k` reaches `retries`: no response |
| `HttpClient.RetryLast` | utils/http_client.py:59-79 | a returned response or a raised exception is the outcome of the last attempt made |
| `HttpClient.RetrySkips` | utils/http_client.py:59-76 | retryable failures only add attempts and the back-off delays `2^k` |
| `HttpClient.FirstSuccess` | utils/http_client.py:59-76 | the first successful attempt's response is returned, after delays `1, 2, ..., 2^(j-1)` |
| `HttpClient.AllAttemptsFail` | utils/http_client.py:72-79 | when every attempt fails, `retries` attempts are made and the last failure is re-raised |
| `HttpClient.OtherExceptionPropagates` | utils/http_client.py:71 | a non-`RequestException` is not retried and propagates at once |
| `HttpClient.DefaultBackoff` | utils/http_client.py:14-76 | with the default three retries the delays are exactly 1 and 2 seconds |
| `HttpClient.AttemptBounds` | utils/http_client.py:59-79 | at most `retries` attempts, one delay between consecutive attempts, and none at all (returning `None`) when `retries <= 0` |
| `HttpClient.HttpClient.constructor` | utils/http_client.py:14-22 | timeout and retries as given, 30 and 3 by default |
| `HttpClient.HttpClient.Send` | utils/http_client.py:59-79 | the attempt loop produces the result, attempts and delays of `Retry` |
| `HttpClient.HttpClient.Get` | utils/http_client.py:27-79 | `get`: the headers of `ChooseHeaders`, then the retry loop |
| `HttpClient.HttpClient.Post` | utils/http_client.py:81-136 | `post`: the same header rule and retry loop |
| `DomainMetrics.NewDomainCollector` | collectors/domain_metrics.py:72-80 | empty endpoints get the domain and IAM defaults, set ones are kept, nothing else changes |
| `DomainMetrics.DefaultsIdempotent` | collectors/domain_metrics.py:76-80 | applying the defaults twice changes nothing |
| `DomainMetrics.QueryUsesToken` | collectors/domain_metrics.py:221-229 | queries use token headers exactly when domain name, username and password are truthy, never AK/SK |
| `DomainMetrics.QueryDomains` | collectors/domain_metrics.py:204-243 | a raised or missing response is a failure; a page's domains have a length |
| `DomainMetrics.QueryPage` | collectors/domain_metrics.py:231-240 | a response with a domain list is a page with that list and `total` 0 by default |
| `DomainMetrics.PageItems` | collectors/domain_metrics.py:265 | `extend(domains)` adds `len(domains)` items: a list's items, one string per character of a string or key of an object; anything without a length raises |
| `DomainMetrics.PageRound` | collectors/domain_metrics.py:256-274 | a round fails exactly when its query fails; a fetched page has `len(domains)` items, a numeric limit, and continues exactly when it is not shorter than the limit, to `offset + limit` |
| `DomainMetrics.RequestCount` | collectors/domain_metrics.py:256-274 | a loop that ended by itself made between 1 and `fuel` requests; one that ran out of fuel made exactly `fuel` |
| `DomainMetrics.AllDomains` | collectors/domain_metrics.py:256-274 | the first request is at the starting offset, and the loop fails exactly when the last page it requested failed |
| `DomainMetrics.FailedLast` | collectors/domain_metrics.py:258-261 | the same for the loop over any round function of that page source |
| `DomainMetrics.NextPage` | collectors/domain_metrics.py:269-273 | a round either stops or requests the next offset, `offset + limit` |
| `DomainMetrics.OffsetsStep` | collectors/domain_metrics.py:273 | from any start, the `j`-th request is at `offset + j*limit` |
| `DomainMetrics.Offsets` | collectors/domain_metrics.py:252-273 | the requested offsets are `0, limit, 2*limit, ...` |
| `DomainMetrics.FullPageContinues` | collectors/domain_metrics.py:265-273 | a full page is followed by the next request and its domains come first |
| `DomainMetrics.ShortPageStops` | collectors/domain_metrics.py:269-271 | a page shorter than `limit` ends the loop |
| `DomainMetrics.ThreePages` | collectors/domain_metrics.py:251-283 | pages of 200, 200 and 3 give 403 domains in order from exactly three requests at 0, 200 and 400 |
| `DomainMetrics.ThreePagesFrom` | collectors/domain_metrics.py:256-274 | the same three pages through the loop itself, with limit 200 from offset 0 |
| `DomainMetrics.FailureDiscards` | collectors/domain_metrics.py:258-261 | a failed page ends the loop with a failure and the earlier pages are dropped |
| `DomainMetrics.ObjectPage` | collectors/domain_metrics.py:263-271 | a page whose `domains` is an object with fewer keys than `limit` is the last, and adds one string per key |
| `DomainMetrics.PageLoop` | collectors/domain_metrics.py:251-283 | the `while True` page loop computes the recursive page function |
| `DomainMetrics.GetAllDomains` | collectors/domain_metrics.py:245-283 | `get_all_domains`: limit from params (default 200), then the page loop |
| `DomainMetrics.GetAllDomainsSpec` | collectors/domain_metrics.py:251-283 | non-dict params raise; otherwise the first request is at offset 0, and without a `limit` setting the loop runs with limit 200 |
| `DomainMetrics.Collect` | collectors/domain_metrics.py:89-202 | the collection fetches the pages, then writes the total and each domain's gauges |
| `DomainMetrics.CollectEffect` | collectors/domain_metrics.py:97-119 | a failed query writes nothing; a loop that raised writes nothing and stops; otherwise the total is the number of domains fetched (not the API's `total`), and with no domains it is the only write |
| `DomainMetrics.DomainEffect` | collectors/domain_metrics.py:119-197 | one domain completes exactly when it is an object; anything else raises before any write |
| `DomainMetrics.DomainStatus` | collectors/domain_metrics.py:124-130 | status gauge 1 exactly for `REALNAMEVERIFY` or `NORMAL`; a missing status gives 0 |
| `DomainMetrics.DomainFlags` | collectors/domain_metrics.py:172-184 | privacy is 1 exactly when truthy; auto-renew is 1 exactly for the string `'1'` |
| `DomainMetrics.DomainInfoWritten` | collectors/domain_metrics.py:188-197 | the info series holds the five info fields |
| `DomainMetrics.DomainRegisterDate` | collectors/domain_metrics.py:134-146 | the register gauge is set exactly when the date is non-empty and converts |
| `DomainMetrics.ExpireWritten` | collectors/domain_metrics.py:149-169 | a converting expiry date sets the timestamp and the remaining days; otherwise nothing is written |
| `DomainMetrics.DomainExpireDate` | collectors/domain_metrics.py:149-169 | the same for a whole domain, whatever its other fields write |
| `DomainMetrics.DomainsAvoidTotal` | collectors/domain_metrics.py:119-197 | the per-domain writes never touch the total gauge |
| `DomainMetrics.ObjectsComplete` | collectors/domain_metrics.py:119-197 | domains that are all objects are written to the end |
| `DomainMetrics.KeyEndsCollection` | collectors/domain_metrics.py:119-120 | a string among the fetched domains (a key of an object page) ends the collection: the domains before it are written, and nothing after |
| `Costs.FromIndex` | collectors/listcosts_metrics.py:96-101 | the month with a given index counted from January of year 0 is a valid month with that index |
| `Costs.MonthsBefore` | collectors/listcosts_metrics.py:96-101 | `relativedelta(months=n)` back: a valid month exactly `n` months earlier, defined whenever at least a year remains |
| `Costs.DefaultWindow` | collectors/listcosts_metrics.py:94-101 | the default window exists exactly when two years remain before the current month, and is the texts of the months 12 and 1 before it |
| `Costs.WindowSpan` | collectors/listcosts_metrics.py:94-101 | the default window ends one month and begins twelve months before the current month |
| `Costs.WindowExample` | collectors/listcosts_metrics.py:94-101 | in September 2025 the window is `2024-09` to `2025-08` |
| `Costs.MonthTextExamples` | collectors/listcosts_metrics.py:98 | months format as `YYYY-MM` |
| `Costs.RequestFor` | collectors/listcosts_metrics.py:106-163 | measure 2 always; without params the default request (`NET_AMOUNT`, `ORIGINAL_COST`, grouping by `CHARGING_MODE`, no filters); a truthy number raises; a dict fails exactly when its grouping does, and otherwise each field is the configured value or its default |
| `Costs.GroupBys` | collectors/listcosts_metrics.py:152-160 | a successful conversion gives one grouping per configured item |
| `Costs.BuildRequest` | collectors/listcosts_metrics.py:106-163 | the step-by-step request building gives the request function's result |
| `Costs.ConvertGroupBys` | collectors/listcosts_metrics.py:152-160 | the conversion loop gives `GroupBys` |
| `Costs.GroupBysStop` | collectors/listcosts_metrics.py:153-160 | a grouping that raises ends the conversion with an exception |
| `Costs.ParamsOverride` | collectors/listcosts_metrics.py:106-163 | each configured field replaces its default and the others stay |
| `Costs.GroupByDefaultType` | collectors/listcosts_metrics.py:155 | a grouping's type defaults to `'dimension'` |
| `Costs.GroupByConfigured` | collectors/listcosts_metrics.py:150-160 | a configured grouping list replaces the default |
| `Costs.Dimension` | collectors/listcosts_metrics.py:192-200 | no dimensions give key and value `'unknown'`; otherwise the item succeeds exactly when its first dimension exists and is an object |
| `Costs.FirstDimension` | collectors/listcosts_metrics.py:197-200 | otherwise the first dimension's key and value |
| `Costs.CostsCollector.constructor` | collectors/listcosts_metrics.py:46-76 | the client, with region default `cn-north-1` |
| `Costs.CostsCollector.Collect` | collectors/listcosts_metrics.py:78-261 | no client means no request; otherwise the request is the request function of the params and the default window, and the registry receives exactly the collection's writes |
| `Costs.CostsCollector.CollectItems` | collectors/listcosts_metrics.py:191-251 | the loop over cost items |
| `Costs.CostsCollector.CollectItem` | collectors/listcosts_metrics.py:192-251 | one cost item: its entries, then its two summaries |
| `Costs.MissingCredentialsWriteNothing` | collectors/listcosts_metrics.py:53-85 | without credentials nothing is written |
| `Costs.ResponseEffect` | collectors/listcosts_metrics.py:182-251 | every amount series carries `amount_type='net_amount'`, whatever was configured; missing or empty cost data writes nothing |
| `Costs.ItemEffect` | collectors/listcosts_metrics.py:191-251 | the same label for one item; an item completes only when it is an object with a readable dimension, and a non-object raises before any write |
| `Costs.CostsEffect` | collectors/listcosts_metrics.py:205-231 | the per-entry writes carry the `net_amount` label and never touch the summary gauge; costs without a length raise, and empty ones write nothing |
| `Costs.CostWritten` | collectors/listcosts_metrics.py:209-231 | each entry sets the amount and the official amount for its month |
| `Costs.ItemOpsShape` | collectors/listcosts_metrics.py:205-251 | an item's writes are its entries' writes followed by its summaries |
| `Costs.SummaryWritten` | collectors/listcosts_metrics.py:234-251 | the item's `net_amount` and `official_amount` summaries hold `amount_by_costs` and `official_amount_by_costs`, and no other summary series is written |
| `Costs.SummaryAfter` | collectors/listcosts_metrics.py:234-251 | the summaries hold their amounts after any writes that avoid the summary gauge |
| `FreeResources.MeasureUnit` | collectors/listfreeresourceinfos_metrics.py:305-325 | the unit lookup raises exactly for unhashable ids |
| `FreeResources.MeasureUnitKnown` | collectors/listfreeresourceinfos_metrics.py:313-323 | ids 10, 14, 15, 17, 18, 19 and 20 map to their units |
| `FreeResources.MeasureUnitOther` | collectors/listfreeresourceinfos_metrics.py:323 | other ids give `unit_<id>` |
| `FreeResources.MeasureUnitFloatKey` | collectors/listfreeresourceinfos_metrics.py:323 | `10.0` finds `GB`; `10.5` gives `unit_10.5` |
| `FreeResources.ResourceEffect` | collectors/listfreeresourceinfos_metrics.py:238-273 | a resource completes exactly when it is an object with a hashable measure id, otherwise it writes nothing; it writes only the two amount metrics |
| `FreeResources.ResourcesEffect` | collectors/listfreeresourceinfos_metrics.py:235-238 | resources without a length raise, and empty ones write nothing |
| `FreeResources.ResourceAmounts` | collectors/listfreeresourceinfos_metrics.py:238-273 | amounts are parsed with `0.0` on failure and labelled with the unit |
| `FreeResources.FreeResourceCollector.constructor` | collectors/listfreeresourceinfos_metrics.py:79-109 | the client, with region default `cn-north-1` |
| `FreeResources.FreeResourceCollector.CollectPackage` | collectors/listfreeresourceinfos_metrics.py:164-273 | one package's writes, then its resource items |
| `FreeResources.FreeResourceCollector.Collect` | collectors/listfreeresourceinfos_metrics.py:111-284 | the collection's request and writes |
| `FreeResources.FreeResourceCollector.CollectPackages` | collectors/listfreeresourceinfos_metrics.py:164 | the loop over packages |
| `FreeResources.MissingCredentialsWriteNothing` | collectors/listfreeresourceinfos_metrics.py:86-118 | without credentials nothing is written |
| `FreeResources.ResponseEffect` | collectors/listfreeresourceinfos_metrics.py:146-274 | the total gauge holds `float(total_count)` (default 0) whatever the packages write, and the collection completes only if it converts |
| `FreeResources.PackageEffect` | collectors/listfreeresourceinfos_metrics.py:164-274 | a non-object package, or one whose status does not convert, raises before any write; otherwise it completes exactly when its resources do; it never touches the total gauge |
| `FreeResources.NoPackagesOnlyTotal` | collectors/listfreeresourceinfos_metrics.py:150-161 | with no packages the total is the only write |
| `FreeResources.PackageOpsShape` | collectors/listfreeresourceinfos_metrics.py:164-274 | a package's writes are its own, then its resources' |
| `FreeResources.PackageStatusWritten` | collectors/listfreeresourceinfos_metrics.py:165-178 | the raw status, default 0, with `'unknown'` label defaults |
| `FreeResources.PackageInfoWritten` | collectors/listfreeresourceinfos_metrics.py:182-195 | the info series holds the info dict |
| `FreeResources.EffectiveTimeWritten` | collectors/listfreeresourceinfos_metrics.py:199-209 | the effective time is set exactly when it converts |
| `FreeResources.ExpireWritten` | collectors/listfreeresourceinfos_metrics.py:212-232 | the expiry is set exactly when the date converts; the active expiry is set, to the same value, exactly when in addition the status equals 1 |
| `FreeResources.ActivePackageExpiry` | collectors/listfreeresourceinfos_metrics.py:212-232 | the same for a whole package |
| `PayPerUse.SpecUnit` | collectors/listpayperusecustomerresources_metrics.py:279-297 | the unit lookup raises exactly for unhashable ids |
| `PayPerUse.SpecUnitKnown` | collectors/listpayperusecustomerresources_metrics.py:287-295 | ids 15, 17, 18, 19 and 20 map to their units |
| `PayPerUse.SpecUnitOther` | collectors/listpayperusecustomerresources_metrics.py:295 | other ids, 10 and 14 included, give `unit_<id>` |
| `PayPerUse.MissingSpecUnit` | collectors/listpayperusecustomerresources_metrics.py:188-193 | a missing or `None` unit id gives `unit_unknown` |
| `PayPerUse.PayPerUseCollector.constructor` | collectors/listpayperusecustomerresources_metrics.py:72-102 | the client, with region default `cn-north-1` |
| `PayPerUse.PayPerUseCollector.Collect` | collectors/listpayperusecustomerresources_metrics.py:104-277 | the collection's request and writes |
| `PayPerUse.MissingCredentialsWriteNothing` | collectors/listpayperusecustomerresources_metrics.py:79-111 | without credentials nothing is written |
| `PayPerUse.ResponseEffect` | collectors/listpayperusecustomerresources_metrics.py:139-266 | the total gauge holds `float(total_count)` (default 0) whatever the resources write, and the collection completes only if it converts |
| `PayPerUse.NoResourcesOnlyTotal` | collectors/listpayperusecustomerresources_metrics.py:143-154 | with no resources the total is the only write |
| `PayPerUse.StatusWritten` | collectors/listpayperusecustomerresources_metrics.py:168-180 | the status gauge is 1 exactly for status 2; `None` or missing gives 0 |
| `PayPerUse.SpecSizeWritten` | collectors/listpayperusecustomerresources_metrics.py:184-202 | the spec size, with `None` or missing as 0, under its unit |
| `PayPerUse.UnhashableSpecUnit` | collectors/listpayperusecustomerresources_metrics.py:193 | an unhashable unit id raises right after the status write |
| `PayPerUse.InfoWritten` | collectors/listpayperusecustomerresources_metrics.py:206-221 | the info series holds the info dict, and nothing is written when `enterprise_project` cannot be read |
| `PayPerUse.NoEnterpriseProject` | collectors/listpayperusecustomerresources_metrics.py:213-214 | a null or missing enterprise project gives `''` id and name |
| `PayPerUse.DatesWritten` | collectors/listpayperusecustomerresources_metrics.py:225-252 | expiry and effective times are set exactly when they convert |
| `PayPerUse.IsMainWritten` | collectors/listpayperusecustomerresources_metrics.py:255-266 | the main-resource flag, with `None` or missing as 0 |
| `PayPerUse.ResourceEffect` | collectors/listpayperusecustomerresources_metrics.py:157-266 | a resource completes exactly when it is an object with a hashable unit id, numeric size and main flag, and a readable enterprise project; a non-object raises before any write; it never touches the total gauge |
| `StoredValueCards.StoredValueCardsCollector.constructor` | collectors/liststoredvaluecards_metrics.py:72-102 | the client, with region default `cn-north-1` |
| `StoredValueCards.StoredValueCardsCollector.Collect` | collectors/liststoredvaluecards_metrics.py:104-241 | the params copied onto the request, and the writes |
| `StoredValueCards.MissingCredentialsWriteNothing` | collectors/liststoredvaluecards_metrics.py:79-111 | without credentials nothing is written |
| `StoredValueCards.ResponseEffect` | collectors/liststoredvaluecards_metrics.py:133-231 | the total gauge holds `float(total_count)` (default 0) whatever the cards write, and the collection completes only if it converts |
| `StoredValueCards.NoCardsOnlyTotal` | collectors/liststoredvaluecards_metrics.py:137-148 | with no cards the total is the only write |
| `StoredValueCards.StatusWritten` | collectors/liststoredvaluecards_metrics.py:152-163 | the raw status, default 0; id and name default to `'unknown'` |
| `StoredValueCards.AmountsWritten` | collectors/liststoredvaluecards_metrics.py:167-191 | face value and balance parse with `0.0` on failure |
| `StoredValueCards.MissingAmountsZero` | collectors/liststoredvaluecards_metrics.py:167-191 | missing amounts are 0 |
| `StoredValueCards.InfoWritten` | collectors/liststoredvaluecards_metrics.py:195-206 | the info series holds the info dict |
| `StoredValueCards.MissingInfoFields` | collectors/liststoredvaluecards_metrics.py:195-201 | absent info fields are `''` |
| `StoredValueCards.InfoStatusDigits` | collectors/liststoredvaluecards_metrics.py:196 | an integer status is stringified |
| `StoredValueCards.DatesWritten` | collectors/liststoredvaluecards_metrics.py:210-231 | effective and expiry times are set exactly when they convert |
| `StoredValueCards.CardEffect` | collectors/liststoredvaluecards_metrics.py:151-231 | a card completes exactly when it is an object with a numeric status; a non-object raises before any write; every amount series is `CNY` and the total gauge is never touched |
| `StoredValueCards.CurrencyAlwaysCny` | collectors/liststoredvaluecards_metrics.py:172-191 | every amount series is labelled `CNY` |
| `Certificates.Whitelisted` | collectors/listcertificates_metrics.py:100-128 | no keys copy nothing; whatever is copied is a listed key with the value `params[key]` |
| `Certificates.WhitelistedDict` | collectors/listcertificates_metrics.py:100-128 | from dict params, exactly the listed keys present are copied |
| `Certificates.WhitelistedList` | collectors/listcertificates_metrics.py:100-128 | list params copy nothing, and raise when a listed key is an element |
| `Certificates.RequestFromDict` | collectors/listcertificates_metrics.py:100-128 | the nine request keys are copied and no others |
| `Certificates.RequestFromList` | collectors/listcertificates_metrics.py:100-128 | list params raise exactly when they contain a request key |
| `Certificates.CertificateRequest` | collectors/listcertificates_metrics.py:100-128 | falsy params copy nothing; truthy numbers raise; whatever is copied is one of the nine request keys with its value |
| `Certificates.CertificatesCollector.constructor` | collectors/listcertificates_metrics.py:53-83 | the client, with region default `cn-north-4` |
| `Certificates.CertificatesCollector.Collect` | collectors/listcertificates_metrics.py:85-211 | the collection's request and writes |
| `Certificates.MissingCredentialsWriteNothing` | collectors/listcertificates_metrics.py:60-92 | without credentials nothing is written |
| `Certificates.StatusWritten` | collectors/listcertificates_metrics.py:152-163 | the status gauge is 1 exactly for `ISSUED`; missing gives 0 |
| `Certificates.ExpireWritten` | collectors/listcertificates_metrics.py:167-181 | the expiry gauge is always written, with the parsed timestamp or 0 |
| `Certificates.ExpireStamp` | collectors/listcertificates_metrics.py:167-175 | 0 for an absent, empty, non-string or unparsable expiry; otherwise the timestamp of the text before the first `.` |
| `Certificates.ExpireIgnoresFraction` | collectors/listcertificates_metrics.py:171 | only the text before the first `.` is parsed |
| `Certificates.BeforeFirstAt` | collectors/listcertificates_metrics.py:171 | `split('.')[0]` of `a.b` is `a` |
| `Certificates.InfoWritten` | collectors/listcertificates_metrics.py:184-200 | the info series holds the info dict |
| `Certificates.MissingInfoFields` | collectors/listcertificates_metrics.py:184-196 | an empty certificate gives `''` for every info field |
| `Certificates.InfoCountsAsText` | collectors/listcertificates_metrics.py:192-195 | counts and validity are stringified |
| `Certificates.CertificateEffect` | collectors/listcertificates_metrics.py:149-200 | a certificate completes exactly when it is an object, otherwise it writes nothing; it never touches the total gauge |
| `Certificates.ResponseEffect` | collectors/listcertificates_metrics.py:136-203 | the total gauge holds `float(total_count)` (default 0) whatever the certificates write, and the collection completes only if it converts |
| `Certificates.NoCertificatesOnlyTotal` | collectors/listcertificates_metrics.py:140-149 | with no certificates the total is the only write |
| `Certificates.ForEachCount` | collectors/listcertificates_metrics.py:149-200 | dict certificates each write three series and the loop completes |
| `Certificates.ObjectsComplete` | collectors/listcertificates_metrics.py:149-200 | dict certificates complete with three writes each after the total |
| `SdkCollector.CallEffect` | collectors/listcertificates_metrics.py:90-132 | no client writes nothing; a request or call that raises stops the collection |
| `SdkCollector.ListEffect` | collectors/listfreeresourceinfos_metrics.py:155-164 | a list is processed record by record; an empty one writes nothing; one without a length raises |
| `SdkCollector.ListAvoids` | collectors/listfreeresourceinfos_metrics.py:164 | a loop whose records never write a metric leaves it alone |
| `SdkCollector.ListAll` | collectors/listcosts_metrics.py:205 | a property of every record's writes holds for the whole loop |
| `SdkCollector.HeadWrittenFirst` | collectors/showcustomeraccountbalances_metrics.py:114-134 | the gauge written before the loop holds `float(v)` whatever the loop writes, and the collection completes only if `float(v)` succeeds |
| `SdkCollector.TotalWrittenFirst` | collectors/liststoredvaluecards_metrics.py:137-151 | the total gauge holds `float(total_count)` (default 0) whatever the loop writes, and the collection completes only if it converts |
| `SdkCollector.EmptyListOnlyTotal` | collectors/liststoredvaluecards_metrics.py:137-148 | with an empty list the total is the only write |
| `SdkCollector.RunNumberThenList` | collectors/showcustomeraccountbalances_metrics.py:114-178 | the head write, then the loop over records |
| `SdkCollector.RunTotalThenList` | collectors/liststoredvaluecards_metrics.py:137-231 | the total write, then the loop over records |
| `AccountBalances.AccountTypeName` | collectors/showcustomeraccountbalances_metrics.py:199-205 | the lookup raises exactly for unhashable types; a name is a table name or starts with `unknown_type_` |
| `AccountBalances.AccountTypeKnown` | collectors/showcustomeraccountbalances_metrics.py:199-205 | types 1, 2, 5 and 7 are `balance`, `credit`, `bonus`, `deposit` |
| `AccountBalances.AccountTypeOther` | collectors/showcustomeraccountbalances_metrics.py:205 | other types give `unknown_type_<n>`; unhashable ones raise |
| `AccountBalances.MissingTypeIsUnknownZero` | collectors/showcustomeraccountbalances_metrics.py:136 | a missing type gives `unknown_type_0` |
| `AccountBalances.AccountBalancesCollector.constructor` | collectors/showcustomeraccountbalances_metrics.py:63-88 | the client, with region default `cn-north-1` |
| `AccountBalances.AccountBalancesCollector.Collect` | collectors/showcustomeraccountbalances_metrics.py:90-189 | a request is made exactly when there is a client, and the registry receives exactly the collection's writes |
| `AccountBalances.MissingCredentialsWriteNothing` | collectors/showcustomeraccountbalances_metrics.py:65-97 | without credentials nothing is written |
| `AccountBalances.ResponseEffect` | collectors/showcustomeraccountbalances_metrics.py:110-178 | the debt gauge holds `float(debt_amount)` (default 0) under the top-level currency (default `CNY`) whatever the accounts write, and the collection completes only if it converts |
| `AccountBalances.NoBalancesOnlyDebt` | collectors/showcustomeraccountbalances_metrics.py:118-134 | an empty list does not return early: the debt is the only write |
| `AccountBalances.AmountWritten` | collectors/showcustomeraccountbalances_metrics.py:142-148 | the balance gauge is `amount`, default 0 |
| `AccountBalances.AmountsWritten` | collectors/showcustomeraccountbalances_metrics.py:152-168 | designated and credit amounts, default 0 |
| `AccountBalances.TotalIsSum` | collectors/showcustomeraccountbalances_metrics.py:172-178 | the total gauge is `amount + designated + credit` |
| `AccountBalances.BalanceOnlyTotal` | collectors/showcustomeraccountbalances_metrics.py:142-178 | a balance with only an amount has that amount as its total |
| `AccountBalances.LabelsShared` | collectors/showcustomeraccountbalances_metrics.py:135-178 | the four gauges share one label tuple |
| `AccountBalances.PiecesShareLabels` | collectors/showcustomeraccountbalances_metrics.py:142-178 | every write of a balance carries that balance's label tuple |
| `AccountBalances.BalanceEffect` | collectors/showcustomeraccountbalances_metrics.py:134-178 | a non-object account, or one with an unhashable type, raises before any write; an account never touches the debt gauge |
| `App.Construct` | app.py:87-113 | an import fails exactly for a module outside the seven; otherwise the construction raises what `BaseCollector.__init__` raises, or builds a collector with its interval and its module and account labels |
| `App.ErrorType` | app.py:100-113 | `AttributeError` is counted as `import_error`, every other exception as `unexpected_error` |
| `App.ModuleSetup` | app.py:84-115 | an entry runs through exactly when its config is a dict; it adds at most one collector and one write, and a built collector sets its up gauge to 1 |
| `App.DisabledSkipped` | app.py:85-115 | a disabled module is skipped and nothing is written |
| `App.BuiltAppendsOne` | app.py:89-99 | a successful construction appends that collector and sets up to 1 |
| `App.FailureCounted` | app.py:100-113 | a failed construction appends nothing and counts one `import_error` or `unexpected_error` |
| `App.UnknownModuleImportError` | app.py:89-106 | an unknown module is an import error |
| `App.AuthFailuresCounted` | app.py:93-113 | a missing `auth` is `unexpected_error`; a non-dict one is `import_error` |
| `App.SetupNeverRaises` | app.py:79-116 | with dict module configs, setup runs through every account |
| `App.FoldStops` | app.py:79-84 | setup stops at the first entry that raises |
| `App.FoldOk` | app.py:79-115 | setup runs through when no entry raises |
| `App.FoldAdvance` | app.py:79-115 | one more entry adds its collectors and writes after the earlier ones |
| `App.ModuleLabel` | app.py:131 | the collection label has no upper-case letters |
| `App.ModuleLabelRoundTrip` | app.py:90-131 | for a lower-case name, the collection label equals the module name |
| `App.BuiltLabels` | app.py:90-131 | a built collector's labels are its module and account names |
| `App.NamesLower` | app.py:89-90 | the seven collector module names have no upper-case letters |
| `App.ReplaceSuffix` | app.py:131 | removing `Collector` from `<NAME>Collector` gives back `<NAME>` |
| `App.LowerUpper` | app.py:90-131 | upper-casing and then lower-casing a lower-case name gives it back |
| `App.Min` | app.py:157 | `min()` is an element no greater than any other |
| `App.Intervals` | app.py:157 | the collectors' intervals, in order |
| `App.CollectOps` | app.py:134-149 | up is 1 after a return and 0 after a raise; one collector's pass makes two writes, three with the error count |
| `App.CollectCounts` | app.py:136-149 | a collector's pass observes its duration once, counts an error only if it raised, and touches no other up gauge |
| `App.UpAfterPass` | app.py:130-149 | after a pass each collector's up gauge reflects its own outcome |
| `App.ErrorsCounted` | app.py:145-149 | the error counter grows by the number of that collector's failures |
| `App.IncsConcat` | app.py:145-149 | increments of two write lists add up |
| `App.ObservationsConcat` | app.py:136 | observations of two write lists add up |
| `App.EachObservedOnce` | app.py:130-137 | every collector is timed once per pass |
| `App.SleepTime` | app.py:155-166 | 60 without collectors; never negative; a positive sleep is the smallest interval less the elapsed time, and an overrun gives 0 |
| `App.PassSleep` | app.py:155-171 | the sleep after a pass is never negative, is 60 or the computed sleep, and is the computed sleep when collectors exist and `time.sleep` does not raise |
| `App.SleepBounds` | app.py:156-162 | the sleep is never negative and at most the smallest interval |
| `App.SleepIsRemainder` | app.py:157-159 | when some smallest interval is not exceeded by the elapsed time, the sleep is that interval less the elapsed time |
| `App.SleepExample` | app.py:156-162 | intervals 30, 300 and 60 with 2 seconds elapsed give 28 |
| `App.DefaultSleeps` | app.py:156-171 | no collectors, or a sleep that raises, give 60 |
| `App.Exporter.constructor` | app.py:49 | the collector list starts empty |
| `App.Exporter.SetupModule` | app.py:84-115 | one module entry |
| `App.Exporter.SetupAccount` | app.py:79-115 | one account's modules in order |
| `App.Exporter.SetupCollectors` | app.py:74-116 | every account in order |
| `App.Exporter.RecordCollect` | app.py:134-149 | one collector's self-monitoring writes |
| `App.Exporter.CollectOnce` | app.py:123-171 | one pass over the collectors: the registry receives exactly the pass's self-monitoring writes (duration, up, error count) in collector order, and the sleep is `PassSleep` |

## Left out

- `utils/auth.py` is not part of this model. It signs requests with HMAC-SHA256 and fetches tokens over the network; headers are only named by kind (AK/SK or token) with their inputs.
- Startup: threads, `start_http_server`, the shutdown join, YAML loading and log-level setup are I/O and concurrency.
- Logging and `describe()` have no effect on metrics.
- `importlib` is replaced by the closed set of seven collector modules; a name outside it is an import failure.
- An account entry without `name` or `modules` (a `KeyError` outside the setup's `try`) is not modelled: accounts are records with those fields.
- The clock and `time.sleep` are outside inputs. The pass's elapsed time is a parameter, and "the sleep raises" is a predicate on its length. The endless loop is one pass (`App.Exporter.CollectOnce`).
- Histogram buckets: a timed block is one observation of its series.
- `collect()` raising is an input sequence of the pass. Each collector's own exceptions are caught inside it and modelled as an `Effect` that did not complete. All seven `collect()` bodies are wrapped in `try`/`except Exception` (collectors/domain_metrics.py:94-200, collectors/listcosts_metrics.py:87-257, collectors/listcertificates_metrics.py:94-207, collectors/listfreeresourceinfos_metrics.py:120-280, collectors/listpayperusecustomerresources_metrics.py:113-273, collectors/liststoredvaluecards_metrics.py:113-237, collectors/showcustomeraccountbalances_metrics.py:99-185), so a raise of `collect()` cannot happen with these collectors. The pass still allows it, as app.py:141-149 does; the lemmas about a raised collector are therefore about a case the source's own collectors never produce.
- `App.Exporter.CollectOnce` does not include the writes of the `collect()` calls it makes (app.py:136-137). Its registry after a pass holds only the self-monitoring series: durations, up gauges and error counts. What each collector writes is stated by that collector's own `Collect` method (`DomainMetrics.Collect`, `Costs.CostsCollector.Collect` and the others) against its `CollectEffect`. Those writes touch only the collectors' own metrics, never the three self-monitoring ones.
- The SDK clients, their requests and `to_json_object()` are replaced by a `respond` parameter. `None` stands for any SDK exception; both `except` branches of each collector behave the same.
- The region check of `value_of` is a `knownRegion` parameter.
- The request attributes that `hasattr` finds are an `attributes` parameter.
- The HTTP transport is an attempt-outcome function.
- Timestamps from `strptime(...).timestamp()` and `time.mktime` depend on the host time zone, so conversion is a partial-function parameter. The model keeps only "no value, no gauge" (or 0 for certificates).
- `DomainMetrics.RequestCount`: the domain page loop carries a fuel bound; a source whose pages stay full for more than `fuel` requests ends as `OutOfFuel` rather than looping forever.
- `remaining_days` is a parameter because it depends on `datetime.now()`.
- `float()` covers decimal text with signs, fractions, exponents and surrounding blanks. Underscores, `inf`, `nan` and IEEE rounding are not modelled; numbers are exact reals.
- Digits are ASCII `0`-`9` only, both for `float()` and for the `\d` of the interval pattern `^(\d+(?:\.\d+)?)\s*([a-zA-Z]+)$`; Python also accepts other Unicode decimal digits in both places, and such text falls back to 60 seconds here.
- `PyValue.FloatStr` always prints fixed-point notation with up to 17 exact fraction digits. Python switches to exponent form for magnitudes of 1e16 and above and below 1e-4 (`str(1e16) == '1e+16'`, `str(1e-05) == '1e-05'`), and prints the shortest digits that read back as the same float. Such floats give different text in `unit_<id>` and `unknown_type_<id>` labels, in label values and in `str()` info fields. The contract states only what both notations share: a point, the sign, and whole numbers below 10^16.
- `PyValue.PyStr` of a list or a dict is a placeholder, not Python's `repr` text.
- Upper- and lower-casing cover ASCII letters only.
- `BaseCollector.FormatProjectId` knows only `{project_id}`, `{{` and `}}`. The conversions `{project_id!s}`, `{project_id!r}` and `{project_id!a}`, format specs such as `{project_id:>8}`, and indexing or attribute fields such as `{project_id[0]}` are valid in Python and give a URL there. Here they are a `ValueError`, so `App.Construct` counts an `unexpected_error` where the source builds the collector. `format()` errors on a template are all reported as one exception kind.
- The cost collector's grouping objects and SDK models are records; `ListCostsReq` does not check field values.
- `Certificates.CertificateEffect`, `Certificates.InfoWritten`, `DomainMetrics.DomainEffect` and `DomainMetrics.DomainInfoWritten`: info values are not checked to be strings, as `prometheus_client` would check them. A JSON `null` can reach an info value in the certificate info dict (`name`, `domain`, `sans`, `type`, `signature_algorithm`, `brand`, `domain_type` and `status` at collectors/listcertificates_metrics.py:185-193, read without `or ''`) and in the domain info dict (`reg_type` and `audit_status` at collectors/domain_metrics.py:191-192). Where `prometheus_client` rejects such a value at `.info()`, the model writes it and completes, so "completes exactly when it is an object" holds only for string-valued fields.
