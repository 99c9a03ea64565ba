/**
 * What every collector does when it is built: it resolves its credentials,
 * project and region (module configuration first, then the account's
 * `auth` section), expands `{project_id}` in the endpoint template, and
 * parses its collection interval.  Also the pieces the vendor-SDK
 * collectors share: the SDK client they build and how they copy `params`
 * onto a request object.
 */
module BaseCollector {
  import opened Wrappers
  import opened Text
  import opened PyValue

  // ---------------------------------------------------------------- collection interval

  /**
   * A full match of `^(\d+(?:\.\d+)?)\s*([a-zA-Z]+)$`: the number and the
   * unit.  No backtracking is needed: the parts after the number can never
   * start with a digit or a dot.
   */
  function MatchInterval(t: string): (r: Option<(real, string)>)
    ensures r.Some? ==> r.value.1 != [] && AllLetters(r.value.1)
  {
    var whole := LeadingDigits(t);
    if whole == [] then None
    else
      var (number, rest) := NumberAfterDigits(whole, t[|whole|..]);
      var unit := UnitPart(rest);
      if unit != [] && AllLetters(unit) then Some((number, unit)) else None
  }

  /** `\d+(?:\.\d+)?` once the leading digits `whole` are read: the number and what follows it. */
  function NumberAfterDigits(whole: string, rest: string): (real, string)
    requires AllDigits(whole)
  {
    var frac := if rest != [] && rest[0] == '.' then LeadingDigits(rest[1..]) else [];
    if frac == [] then (DigitsValue(whole) as real, rest)
    else (Number(false, DigitsValue(whole + frac), |frac|, 0), rest[1 + |frac|..])
  }

  /** `\s*` then the rest, which must be the unit. */
  function UnitPart(rest: string): string {
    rest[|LeadingSpaces(rest)|..]
  }

  predicate IsSecondsUnit(u: string) { u in {"s", "sec", "second", "seconds"} }
  predicate IsMinutesUnit(u: string) { u in {"m", "min", "minute", "minutes"} }
  predicate IsHoursUnit(u: string) { u in {"h", "hr", "hour", "hours"} }
  predicate IsDaysUnit(u: string) { u in {"d", "day", "days"} }

  /** `value` in the lower-cased unit `u`, in seconds; an unknown unit counts as seconds. */
  function InSeconds(value: real, u: string): real {
    if IsSecondsUnit(u) then value
    else if IsMinutesUnit(u) then value * 60.0
    else if IsHoursUnit(u) then value * 3600.0
    else if IsDaysUnit(u) then value * 86400.0
    else value
  }

  /** `_parse_time_interval`: a number of seconds, 60 when nothing else applies. */
  function ParseTimeInterval(v: Value): (r: real)
    ensures NumberOf(v).Some? ==> r == NumberOf(v).value
    ensures v.Null? || v.List? || v.Dict? ==> r == 60.0
  {
    match v
    case Str(s) =>
      (match MatchInterval(Strip(s))
       case Some(m) => InSeconds(m.0, Lower(m.1))
       case None => if ParseFloat(s).Some? then ParseFloat(s).value else 60.0)
    case _ => (match NumberOf(v) case Some(x) => x case None => 60.0)
  }

  lemma {:induction false} LeadingDigitsOf(a: string, b: string)
    requires AllDigits(a)
    requires b == [] || !IsDigit(b[0])
    ensures LeadingDigits(a + b) == a
    decreases |a|
  {
    if a != [] {
      assert (a + b)[1..] == a[1..] + b;
      LeadingDigitsOf(a[1..], b);
    }
  }

  lemma {:induction false} LeadingSpacesOf(a: string, b: string)
    requires AllSpaces(a)
    requires b == [] || !IsSpace(b[0])
    ensures LeadingSpaces(a + b) == a
    decreases |a|
  {
    if a != [] {
      assert (a + b)[1..] == a[1..] + b;
      LeadingSpacesOf(a[1..], b);
    }
  }

  lemma MatchNumberUnit(digits: string, spaces: string, unit: string)
    requires digits != [] && AllDigits(digits)
    requires AllSpaces(spaces)
    requires unit != [] && AllLetters(unit)
    ensures MatchInterval(digits + spaces + unit) == Some((DigitsValue(digits) as real, unit))
  {
    var t := digits + spaces + unit;
    var rest := spaces + unit;
    assert t == digits + rest;
    assert !IsDigit(rest[0]) && rest[0] != '.' by {
      if spaces != [] { assert rest[0] == spaces[0]; } else { assert rest[0] == unit[0]; }
    }
    LeadingDigitsOf(digits, rest);
    assert t[|digits|..] == rest;
    assert NumberAfterDigits(digits, rest) == (DigitsValue(digits) as real, rest);
    assert !IsSpace(unit[0]);
    LeadingSpacesOf(spaces, unit);
    assert UnitPart(rest) == unit;
  }

  /** `\.\d+` after the leading digits: the fraction is read up to the first non-digit. */
  lemma FractionAfterDigits(whole: string, frac: string, tail: string)
    requires AllDigits(whole) && frac != [] && AllDigits(frac)
    requires tail == [] || !IsDigit(tail[0])
    ensures NumberAfterDigits(whole, ['.'] + frac + tail) == (Number(false, DigitsValue(whole + frac), |frac|, 0), tail)
  {
    var rest := ['.'] + frac + tail;
    assert rest != [] && rest[0] == '.';
    assert rest[1..] == frac + tail;
    LeadingDigitsOf(frac, tail);
    assert LeadingDigits(rest[1..]) == frac;
    assert rest[1 + |frac|..] == tail;
  }

  /** `\s*([a-zA-Z]+)`: blanks and then letters leave the letters as the unit. */
  lemma UnitAfterSpaces(spaces: string, unit: string)
    requires AllSpaces(spaces)
    requires unit != [] && AllLetters(unit)
    ensures var tail := spaces + unit; !IsDigit(tail[0]) && tail[0] != '.' && UnitPart(tail) == unit
  {
    var tail := spaces + unit;
    if spaces != [] { assert tail[0] == spaces[0]; } else { assert tail[0] == unit[0]; }
    assert !IsSpace(unit[0]);
    LeadingSpacesOf(spaces, unit);
  }

  /** The number with a fraction: `\d+\.\d+`, blanks, letters. */
  lemma MatchFractionUnit(whole: string, frac: string, spaces: string, unit: string)
    requires whole != [] && AllDigits(whole) && frac != [] && AllDigits(frac)
    requires AllSpaces(spaces)
    requires unit != [] && AllLetters(unit)
    ensures MatchInterval(whole + "." + frac + spaces + unit) == Some((Number(false, DigitsValue(whole + frac), |frac|, 0), unit))
  {
    var tail := spaces + unit;
    var rest := ['.'] + frac + tail;
    var t := whole + "." + frac + spaces + unit;
    assert t == whole + rest;
    LeadingDigitsOf(whole, rest);
    assert t[|whole|..] == rest;
    UnitAfterSpaces(spaces, unit);
    FractionAfterDigits(whole, frac, tail);
  }

  /**
   * Text whose stripped form matches the pattern is its number scaled by
   * its lower-cased unit; `float()` is not consulted.
   */
  lemma IntervalMatched(t: string, n: real, unit: string)
    requires MatchInterval(Strip(t)) == Some((n, unit))
    ensures ParseTimeInterval(Str(t)) == InSeconds(n, Lower(unit))
  {
  }

  /** Blanks around text that matches the pattern are stripped before the match: they change nothing. */
  lemma PaddedInterval(lead: string, core: string, trail: string)
    requires AllSpaces(lead) && AllSpaces(trail)
    requires MatchInterval(core).Some?
    ensures ParseTimeInterval(Str(lead + core + trail)) == ParseTimeInterval(Str(core))
  {
    assert IsDigit(core[0]) && IsLetter(core[|core| - 1]);
    StripPadded(lead, core, trail);
    StripUnchanged(core);
  }

  /**
   * A whole number, optional whitespace and a unit of letters: the number
   * scaled by the unit, whatever the case of the unit.
   */
  lemma IntervalWithUnit(t: string, digits: string, spaces: string, unit: string)
    requires t == digits + spaces + unit
    requires digits != [] && AllDigits(digits)
    requires AllSpaces(spaces)
    requires unit != [] && AllLetters(unit)
    ensures ParseTimeInterval(Str(t)) == InSeconds(DigitsValue(digits) as real, Lower(unit))
  {
    assert t[0] == digits[0] && t[|t| - 1] == unit[|unit| - 1];
    assert !IsSpace(t[0]) && !IsSpace(t[|t| - 1]);
    StripUnchanged(t);
    MatchNumberUnit(digits, spaces, unit);
    IntervalMatched(t, DigitsValue(digits) as real, unit);
  }

  /**
   * A number with a fraction, optional whitespace and a unit of letters:
   * the value of the number scaled by the unit.
   */
  lemma IntervalWithFraction(t: string, whole: string, frac: string, spaces: string, unit: string)
    requires t == whole + "." + frac + spaces + unit
    requires whole != [] && AllDigits(whole) && frac != [] && AllDigits(frac)
    requires AllSpaces(spaces)
    requires unit != [] && AllLetters(unit)
    ensures ParseTimeInterval(Str(t))
              == InSeconds(Number(false, DigitsValue(whole + frac), |frac|, 0), Lower(unit))
  {
    assert t[0] == whole[0] && t[|t| - 1] == unit[|unit| - 1];
    assert !IsSpace(t[0]) && !IsSpace(t[|t| - 1]);
    StripUnchanged(t);
    MatchFractionUnit(whole, frac, spaces, unit);
    IntervalMatched(t, Number(false, DigitsValue(whole + frac), |frac|, 0), unit);
  }

  /** "1.5h" is 5400 seconds. */
  lemma HourAndHalf(t: string)
    requires t == "1.5h"
    ensures ParseTimeInterval(Str(t)) == 5400.0
  {
    var whole, frac, unit := "1", "5", "h";
    assert t == whole + "." + frac + [] + unit;
    assert whole + frac == "15" && DigitsValue("15") == 15;
    assert Number(false, 15, 1, 0) == 1.5;
    assert Lower(unit) == "h" && IsHoursUnit("h");
    IntervalWithFraction(t, whole, frac, [], unit);
  }

  /** " 5M " is 300 seconds: the blanks around it are stripped first. */
  lemma PaddedMinutes(t: string)
    requires t == " 5M "
    ensures ParseTimeInterval(Str(t)) == 300.0
  {
    var blank, core := " ", "5M";
    assert t == blank + core + blank;
    assert IsSpace(' ') && AllSpaces(blank);
    ExampleParts(core, "5", "", "M", "5M");
    MatchNumberUnit("5", "", "M");
    FiveMinutes(core);
    PaddedInterval(blank, core, blank);
  }

  /** The shape facts the interval examples below rest on. */
  lemma ExampleParts(t: string, digits: string, spaces: string, unit: string, text: string)
    requires t == text
    requires (digits, spaces, unit, text) in {("5", "", "M", "5M"), ("2", " ", "Hours", "2 Hours"), ("1", "", "d", "1d"), ("3", "", "w", "3w")}
    ensures t == digits + spaces + unit
    ensures digits != [] && AllDigits(digits) && AllSpaces(spaces) && unit != [] && AllLetters(unit)
  {
    assert IsSpace(' ');
  }

  lemma ExampleValues()
    ensures DigitsValue("5") == 5 && DigitsValue("2") == 2 && DigitsValue("1") == 1 && DigitsValue("3") == 3
    ensures Lower("M") == "m" && Lower("Hours") == "hours" && Lower("d") == "d" && Lower("w") == "w"
    ensures InSeconds(5.0, "m") == 300.0 && InSeconds(2.0, "hours") == 7200.0
    ensures InSeconds(1.0, "d") == 86400.0 && InSeconds(3.0, "w") == 3.0
  {
  }

  /** Unit families, in any letter case: "5M" is 300 seconds. */
  lemma FiveMinutes(t: string)
    requires t == "5M"
    ensures ParseTimeInterval(Str(t)) == 300.0
  {
    var digits, spaces, unit := "5", "", "M";
    ExampleParts(t, digits, spaces, unit, "5M");
    assert DigitsValue(digits) == 5 && Lower(unit) == "m" by { ExampleValues(); }
    assert InSeconds(5.0, "m") == 300.0 by { ExampleValues(); }
    IntervalWithUnit(t, digits, spaces, unit);
  }

  /** "2 Hours" is 7200 seconds. */
  lemma TwoHours(t: string)
    requires t == "2 Hours"
    ensures ParseTimeInterval(Str(t)) == 7200.0
  {
    var digits, spaces, unit := "2", " ", "Hours";
    ExampleParts(t, digits, spaces, unit, "2 Hours");
    assert DigitsValue(digits) == 2 && Lower(unit) == "hours" by { ExampleValues(); }
    assert InSeconds(2.0, "hours") == 7200.0 by { ExampleValues(); }
    IntervalWithUnit(t, digits, spaces, unit);
  }

  /** "1d" is 86400 seconds. */
  lemma OneDay(t: string)
    requires t == "1d"
    ensures ParseTimeInterval(Str(t)) == 86400.0
  {
    var digits, spaces, unit := "1", "", "d";
    ExampleParts(t, digits, spaces, unit, "1d");
    assert DigitsValue(digits) == 1 && Lower(unit) == "d" by { ExampleValues(); }
    assert InSeconds(1.0, "d") == 86400.0 by { ExampleValues(); }
    IntervalWithUnit(t, digits, spaces, unit);
  }

  /** An unrecognised unit is accepted silently and the bare number is used. */
  lemma UnknownUnitIsSeconds(digits: string, unit: string)
    requires digits != [] && AllDigits(digits)
    requires unit != [] && AllLetters(unit)
    requires var u := Lower(unit); !IsSecondsUnit(u) && !IsMinutesUnit(u) && !IsHoursUnit(u) && !IsDaysUnit(u)
    ensures ParseTimeInterval(Str(digits + unit)) == DigitsValue(digits) as real
  {
    var t := digits + unit;
    assert t == digits + "" + unit;
    IntervalWithUnit(t, digits, "", unit);
    assert InSeconds(DigitsValue(digits) as real, Lower(unit)) == DigitsValue(digits) as real;
  }

  /** "3w" is 3 seconds: an unknown unit leaves the number as it is. */
  lemma UnknownUnitExample(t: string)
    requires t == "3w"
    ensures ParseTimeInterval(Str(t)) == 3.0
  {
    var digits, spaces, unit := "3", "", "w";
    ExampleParts(t, digits, spaces, unit, "3w");
    assert DigitsValue(digits) == 3 && Lower(unit) == "w" by { ExampleValues(); }
    assert InSeconds(3.0, "w") == 3.0 by { ExampleValues(); }
    IntervalWithUnit(t, digits, spaces, unit);
  }

  /** Digits alone carry no unit; `float()` reads them: "90" is 90 seconds. */
  lemma IntervalDigitsOnly(digits: string)
    requires digits != [] && AllDigits(digits)
    ensures ParseTimeInterval(Str(digits)) == DigitsValue(digits) as real
  {
    assert IsDigit(digits[0]) && IsDigit(digits[|digits| - 1]);
    StripUnchanged(digits);
    LeadingDigitsOf(digits, []);
    assert digits + [] == digits;
    assert MatchInterval(digits).None?;
  }

  /**
   * Text whose stripped form does not match the pattern is read by
   * `float()`, and when that raises too it falls back to 60 seconds.
   */
  lemma IntervalUnmatched(s: string)
    requires MatchInterval(Strip(s)).None?
    ensures ParseFloat(s).Some? ==> ParseTimeInterval(Str(s)) == ParseFloat(s).value
    ensures ParseFloat(s).None? ==> ParseTimeInterval(Str(s)) == 60.0
  {
  }

  /** Text that is neither a number with a unit nor a number falls back to 60 seconds. */
  lemma IntervalFallback()
    ensures ParseTimeInterval(Str("abc")) == 60.0
    ensures ParseTimeInterval(Str("")) == 60.0
    ensures ParseTimeInterval(Null) == 60.0
  {
    assert MatchInterval("abc").None? && MatchInterval("").None?;
    assert Strip("abc") == "abc" by { StripUnchanged("abc"); }
    ParseFloatRejects();
  }

  // ---------------------------------------------------------------- configuration fields

  /**
   * `module_config.get(key) or account_config['auth'].get(key)`: the account
   * section is consulted only when the module value is falsy, and then
   * `auth` must be present (`KeyError`) and a dict (`AttributeError`).
   */
  function Credential(moduleConfig: map<string, Value>, account: map<string, Value>, key: string): (r: Result<Value, Exc>)
    ensures Truthy(Get(moduleConfig, key, Null)) ==> r == Ok(moduleConfig[key])
    ensures !Truthy(Get(moduleConfig, key, Null)) && "auth" in account && account["auth"].Dict? ==>
              r == Ok(Get(account["auth"].fields, key, Null))
    ensures r.Err? <==> !Truthy(Get(moduleConfig, key, Null)) && ("auth" !in account || !account["auth"].Dict?)
  {
    var own := Get(moduleConfig, key, Null);
    if Truthy(own) then Ok(own)
    else if "auth" !in account then Err(KeyError)
    else match GetOf(account["auth"], key, Null)
      case Some(v) => Ok(v)
      case None => Err(AttributeError)
  }

  /**
   * `module_config.get(key) or account_config.get('auth', {}).get(key)`:
   * a missing `auth` section reads as empty, but one that is not a dict
   * raises `AttributeError`.
   */
  function Scoped(moduleConfig: map<string, Value>, account: map<string, Value>, key: string): (r: Result<Value, Exc>)
    ensures Truthy(Get(moduleConfig, key, Null)) ==> r == Ok(moduleConfig[key])
    ensures !Truthy(Get(moduleConfig, key, Null)) && "auth" !in account ==> r == Ok(Null)
    ensures r.Err? <==> !Truthy(Get(moduleConfig, key, Null)) && "auth" in account && !account["auth"].Dict?
  {
    var own := Get(moduleConfig, key, Null);
    if Truthy(own) then Ok(own)
    else match GetOf(Get(account, "auth", Dict(map[])), key, Null)
      case Some(v) => Ok(v)
      case None => Err(AttributeError)
  }

  // ---------------------------------------------------------------- endpoint template

  /**
   * `template.format(project_id=pid)`: `{{` and `}}` stand for braces,
   * `{project_id}` for the project id; any other replacement field, and a
   * lone brace, raise (`KeyError`, `IndexError` or `ValueError` in Python;
   * all reported here as `ValueError`).
   */
  function FormatProjectId(template: string, pid: string): (r: Result<string, Exc>)
    ensures BraceFree(template) ==> r == Ok(template)
    ensures r.Err? ==> r.error == ValueError
    decreases |template|
  {
    if template == [] then Ok([])
    else if template[0] == '{' then
      if |template| >= 2 && template[1] == '{' then Prefixed("{", FormatProjectId(template[2..], pid))
      else if |template| >= 12 && template[..12] == "{project_id}" then Prefixed(pid, FormatProjectId(template[12..], pid))
      else Err(ValueError)
    else if template[0] == '}' then
      if |template| >= 2 && template[1] == '}' then Prefixed("}", FormatProjectId(template[2..], pid))
      else Err(ValueError)
    else
      assert [template[0]] + template[1..] == template;
      Prefixed([template[0]], FormatProjectId(template[1..], pid))
  }

  function Prefixed(p: string, r: Result<string, Exc>): (q: Result<string, Exc>)
    ensures q.Ok? <==> r.Ok?
    ensures r.Err? ==> q == r
  {
    match r
    case Ok(s) => Ok(p + s)
    case Err(e) => Err(e)
  }

  predicate BraceFree(s: string) {
    forall i :: 0 <= i < |s| ==> s[i] != '{' && s[i] != '}'
  }

  /** A character other than a brace is copied. */
  lemma PlainStep(s: string, pid: string)
    requires s != [] && s[0] != '{' && s[0] != '}'
    ensures FormatProjectId(s, pid) == Prefixed([s[0]], FormatProjectId(s[1..], pid))
  {
    if |s| >= 2 {
      assert s[..2][0] == s[0];
    }
    if |s| >= 12 {
      assert s[..12][0] == s[0];
    }
  }

  /** Formatting a concatenation whose first part is brace-free formats the rest. */
  lemma {:induction false} FormatAfterBraceFree(a: string, b: string, pid: string)
    requires BraceFree(a)
    ensures FormatProjectId(a + b, pid) == Prefixed(a, FormatProjectId(b, pid))
    decreases |a|
  {
    if a == [] {
      assert a + b == b;
      match FormatProjectId(b, pid) {
        case Ok(x) => assert [] + x == x;
        case Err(_) =>
      }
    } else {
      assert (a + b)[0] == a[0] && (a + b)[1..] == a[1..] + b;
      PlainStep(a + b, pid);
      FormatAfterBraceFree(a[1..], b, pid);
      match FormatProjectId(b, pid) {
        case Ok(x) => assert [a[0]] + (a[1..] + x) == a + x;
        case Err(_) =>
      }
    }
  }

  /** `head{project_id}tail` with brace-free parts becomes `head<pid>tail`. */
  lemma FormatSubstitutes(head: string, tail: string, pid: string)
    requires BraceFree(head) && BraceFree(tail)
    ensures FormatProjectId(head + "{project_id}" + tail, pid) == Ok(head + pid + tail)
  {
    var rest := "{project_id}" + tail;
    assert head + "{project_id}" + tail == head + rest;
    FormatAfterBraceFree(head, rest, pid);
    assert rest[..2] == "{p" && rest[..12] == "{project_id}" && rest[12..] == tail;
    assert FormatProjectId(rest, pid) == Prefixed(pid, FormatProjectId(tail, pid));
    assert head + (pid + tail) == head + pid + tail;
  }

  /**
   * `__init__`, endpoint: a non-empty template with a truthy project id is
   * formatted (and must be a string: anything else has no `format`);
   * otherwise the raw `endpoint` setting, `''` when absent, is kept.
   */
  function Endpoint(moduleConfig: map<string, Value>, projectId: Value): (r: Result<Value, Exc>)
    ensures !Truthy(Get(moduleConfig, "endpoint", Str(""))) || !Truthy(projectId) ==> r == Ok(Get(moduleConfig, "endpoint", Str("")))
    ensures Truthy(Get(moduleConfig, "endpoint", Str(""))) && Truthy(projectId) && !Get(moduleConfig, "endpoint", Str("")).Str? ==>
              r == Err(AttributeError)
    ensures Get(moduleConfig, "endpoint", Str("")).Str? && BraceFree(Get(moduleConfig, "endpoint", Str("")).s) ==>
              r == Ok(Get(moduleConfig, "endpoint", Str("")))
  {
    var template := Get(moduleConfig, "endpoint", Str(""));
    if Truthy(template) && Truthy(projectId) then
      if template.Str? then
        match FormatProjectId(template.s, PyStr(projectId))
        case Ok(e) => Ok(Str(e))
        case Err(x) => Err(x)
      else Err(AttributeError)
    else Ok(template)
  }

  // ---------------------------------------------------------------- the collector record

  /** The fields `BaseCollector.__init__` sets. */
  datatype Base = Base(
    name: string,
    ak: Value, sk: Value, domainName: Value, username: Value, password: Value, iamEndpoint: Value,
    authType: Value,
    projectId: Value, region: Value,
    endpoint: Value,
    params: Value,
    collectionInterval: real)

  /**
   * `BaseCollector.__init__`: the fields in the order the source computes
   * them, so the first one that raises decides the exception.
   */
  function NewBase(name: string, account: map<string, Value>, moduleConfig: map<string, Value>): (r: Result<Base, Exc>)
    ensures r.Ok? <==>
              && (forall k :: k in CredentialKeys ==> Credential(moduleConfig, account, k).Ok?)
              && Scoped(moduleConfig, account, "project_id").Ok? && Scoped(moduleConfig, account, "region").Ok?
              && Endpoint(moduleConfig, Scoped(moduleConfig, account, "project_id").value).Ok?
    ensures r.Ok? ==>
              && r.value.name == name
              && Endpoint(moduleConfig, r.value.projectId) == Ok(r.value.endpoint)
              && r.value.params == Get(moduleConfig, "params", Dict(map[]))
              && r.value.collectionInterval == ParseTimeInterval(Get(moduleConfig, "collection_interval", Int(60)))
  {
    var ak := Credential(moduleConfig, account, "ak");
    var sk := Credential(moduleConfig, account, "sk");
    var domainName := Credential(moduleConfig, account, "domain_name");
    var username := Credential(moduleConfig, account, "username");
    var password := Credential(moduleConfig, account, "password");
    var iamEndpoint := Credential(moduleConfig, account, "iam_endpoint");
    var projectId := Scoped(moduleConfig, account, "project_id");
    var region := Scoped(moduleConfig, account, "region");
    if ak.Err? then Err(ak.error)
    else if sk.Err? then Err(sk.error)
    else if domainName.Err? then Err(domainName.error)
    else if username.Err? then Err(username.error)
    else if password.Err? then Err(password.error)
    else if iamEndpoint.Err? then Err(iamEndpoint.error)
    else if projectId.Err? then Err(projectId.error)
    else if region.Err? then Err(region.error)
    else
      match Endpoint(moduleConfig, projectId.value)
      case Err(e) => Err(e)
      case Ok(endpoint) =>
        Ok(Base(name, ak.value, sk.value, domainName.value, username.value, password.value, iamEndpoint.value,
                Get(moduleConfig, "auth_type", Str("aksk")),
                projectId.value, region.value,
                endpoint,
                Get(moduleConfig, "params", Dict(map[])),
                ParseTimeInterval(Get(moduleConfig, "collection_interval", Int(60)))))
  }

  /** The keys whose module value wins over the account's `auth` value. */
  const CredentialKeys := ["ak", "sk", "domain_name", "username", "password", "iam_endpoint"]

  /**
   * Every field takes the module value when it is truthy and the account's
   * `auth` value otherwise, so an empty module value falls back; `auth_type`
   * defaults to 'aksk', `params` to an empty dict and the interval to 60.
   */
  lemma NewBaseFields(name: string, account: map<string, Value>, moduleConfig: map<string, Value>)
    requires NewBase(name, account, moduleConfig).Ok?
    ensures var b := NewBase(name, account, moduleConfig).value;
      && b.name == name
      && b.ak == Credential(moduleConfig, account, "ak").value
      && b.iamEndpoint == Credential(moduleConfig, account, "iam_endpoint").value
      && b.projectId == Scoped(moduleConfig, account, "project_id").value
      && b.region == Scoped(moduleConfig, account, "region").value
      && b.authType == (if "auth_type" in moduleConfig then moduleConfig["auth_type"] else Str("aksk"))
      && b.params == (if "params" in moduleConfig then moduleConfig["params"] else Dict(map[]))
      && ("collection_interval" !in moduleConfig ==> b.collectionInterval == 60.0)
  {
  }

  /**
   * Precedence for one field: a truthy module value wins; a falsy one
   * (empty string included) falls back to the account's `auth` value.
   */
  lemma CredentialPrecedence(account: map<string, Value>, moduleConfig: map<string, Value>, key: string, auth: map<string, Value>)
    requires "auth" in account && account["auth"] == Dict(auth)
    ensures key in moduleConfig && Truthy(moduleConfig[key]) ==> Credential(moduleConfig, account, key) == Ok(moduleConfig[key])
    ensures key in moduleConfig && !Truthy(moduleConfig[key]) ==> Credential(moduleConfig, account, key) == Ok(Get(auth, key, Null))
    ensures key in moduleConfig && Truthy(moduleConfig[key]) ==> Scoped(moduleConfig, account, key) == Ok(moduleConfig[key])
    ensures key !in moduleConfig ==> Scoped(moduleConfig, account, key) == Ok(Get(auth, key, Null))
  {
  }

  /**
   * When the module itself supplies every credential, project and region,
   * the account's `auth` section is never read: construction succeeds even
   * without one.
   */
  lemma ModuleCredentialsSuffice(name: string, account: map<string, Value>, moduleConfig: map<string, Value>)
    requires forall k :: k in CredentialKeys ==> k in moduleConfig && Truthy(moduleConfig[k])
    requires "project_id" in moduleConfig && Truthy(moduleConfig["project_id"])
    requires "region" in moduleConfig && Truthy(moduleConfig["region"])
    requires "endpoint" !in moduleConfig
    ensures NewBase(name, account, moduleConfig).Ok?
  {
    assert CredentialKeys[0] == "ak" && CredentialKeys[1] == "sk" && CredentialKeys[2] == "domain_name";
    assert CredentialKeys[3] == "username" && CredentialKeys[4] == "password" && CredentialKeys[5] == "iam_endpoint";
    assert Endpoint(moduleConfig, moduleConfig["project_id"]) == Ok(Str(""));
  }

  /**
   * A missing `auth` section raises `KeyError` as soon as a credential has
   * to fall back, and a non-dict one raises `AttributeError`.
   */
  lemma MissingAuthRaises(name: string, account: map<string, Value>, moduleConfig: map<string, Value>)
    requires "ak" !in moduleConfig
    ensures "auth" !in account ==> NewBase(name, account, moduleConfig) == Err(KeyError)
    ensures "auth" in account && !account["auth"].Dict? ==> NewBase(name, account, moduleConfig) == Err(AttributeError)
  {
  }

  /** The endpoint is the formatted template only when both template and project id are truthy. */
  lemma EndpointTemplate(moduleConfig: map<string, Value>, head: string, tail: string, pid: string)
    requires "endpoint" in moduleConfig && moduleConfig["endpoint"] == Str(head + "{project_id}" + tail)
    requires BraceFree(head) && BraceFree(tail)
    ensures pid != [] ==> Endpoint(moduleConfig, Str(pid)) == Ok(Str(head + pid + tail))
    ensures Endpoint(moduleConfig, Null) == Ok(moduleConfig["endpoint"])
    ensures Endpoint(moduleConfig, Str("")) == Ok(moduleConfig["endpoint"])
  {
    if pid != [] {
      FormatSubstitutes(head, tail, pid);
    }
  }

  /** Without an `endpoint` setting the endpoint is `''`, whatever the project id. */
  lemma EndpointDefault(moduleConfig: map<string, Value>, projectId: Value)
    requires "endpoint" !in moduleConfig
    ensures Endpoint(moduleConfig, projectId) == Ok(Str(""))
  {
  }

  // ---------------------------------------------------------------- vendor SDK clients

  /** A vendor SDK client: the credentials and the region it was built with. */
  datatype SdkClient = SdkClient(ak: Value, sk: Value, region: Value)

  /** `os.environ.get(key)`. */
  function EnvGet(env: map<string, string>, key: string): Value {
    if key in env then Str(env[key]) else Null
  }

  /**
   * The SDK collectors' constructors: the configured AK/SK or the
   * `CLOUD_SDK_AK`/`CLOUD_SDK_SK` environment variables; no client when
   * either is missing, or when the SDK does not know the region
   * (`value_of` raises and the constructor catches it).
   */
  function NewSdkClient(base: Base, env: map<string, string>, defaultRegion: string, knownRegion: Value -> bool): (r: Option<SdkClient>)
    ensures r.Some? ==> Truthy(r.value.ak) && Truthy(r.value.sk) && knownRegion(r.value.region)
    ensures !Truthy(base.ak) && "CLOUD_SDK_AK" !in env ==> r.None?
    ensures !Truthy(base.sk) && "CLOUD_SDK_SK" !in env ==> r.None?
    ensures r.Some? && !Truthy(base.region) ==> r.value.region == Str(defaultRegion)
    ensures r.Some? && Truthy(base.region) ==> r.value.region == base.region
  {
    var ak := Or(base.ak, EnvGet(env, "CLOUD_SDK_AK"));
    var sk := Or(base.sk, EnvGet(env, "CLOUD_SDK_SK"));
    if !Truthy(ak) || !Truthy(sk) then None
    else
      var region := Or(base.region, Str(defaultRegion));
      if knownRegion(region) then Some(SdkClient(ak, sk, region)) else None
  }

  /**
   * `if params: for key, value in params.items(): if hasattr(obj, key):
   * setattr(obj, key, value)`: the fields set on the request object.
   * Falsy params set nothing; params that are not a dict raise.
   */
  function CopyParams(params: Value, attributes: set<string>): (r: Option<map<string, Value>>)
    ensures !Truthy(params) ==> r == Some(map[])
    ensures r.Some? ==> r.value.Keys <= attributes
    ensures params.Dict? ==> r.Some? && forall k :: k in r.value <==> k in params.fields && k in attributes
    ensures params.Dict? ==> forall k :: k in r.value ==> r.value[k] == params.fields[k]
  {
    if !Truthy(params) then Some(map[])
    else if params.Dict? then Some(map k | k in params.fields && k in attributes :: params.fields[k])
    else None
  }
}
