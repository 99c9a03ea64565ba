/**
 * Values as the exporter sees them: the parsed YAML configuration and the
 * JSON objects the vendor APIs return.  The functions below give Python's
 * meaning to the handful of operations the collectors apply to such values
 * (`dict.get`, truthiness, `a or b`, `str(x)`, `float(x)`, `x == n`, `len`,
 * iteration, `in` and `+`).  Every operation that raises in Python returns
 * `None` here.  Python `int` and `float` are both exact numbers.
 */
module PyValue {
  import opened Wrappers
  import opened Text

  datatype Value =
    | Null
    | Bool(b: bool)
    | Int(i: int)
    | Float(r: real)
    | Str(s: string)
    | List(items: seq<Value>)
    | Dict(fields: map<string, Value>)

  /** Python truthiness (`if x:`, `not x`): `None` is false, a number is true when it is not zero. */
  predicate Truthy(v: Value)
    ensures v.Null? ==> !Truthy(v)
    ensures NumberOf(v).Some? ==> (Truthy(v) <==> NumberOf(v).value != 0.0)
  {
    match v
    case Null => false
    case Bool(b) => b
    case Int(i) => i != 0
    case Float(r) => r != 0.0
    case Str(s) => s != []
    case List(xs) => xs != []
    case Dict(m) => m != map[]
  }

  /** `if v is None: v = d`. */
  function IfNone(v: Value, d: Value): Value {
    if v.Null? then d else v
  }

  /** Python's `a or b`. */
  function Or(a: Value, b: Value): (r: Value)
    ensures Truthy(a) ==> r == a
    ensures !Truthy(a) ==> r == b
  {
    if Truthy(a) then a else b
  }

  /** `d.get(key, default)` on a dict. */
  function Get(d: map<string, Value>, key: string, default: Value): (r: Value)
    ensures key in d ==> r == d[key]
    ensures key !in d ==> r == default
  {
    if key in d then d[key] else default
  }

  /** `v.get(key, default)` on any value: only a dict has `get`. */
  function GetOf(v: Value, key: string, default: Value): (r: Option<Value>)
    ensures r.Some? <==> v.Dict?
    ensures v.Dict? ==> r == Some(Get(v.fields, key, default))
  {
    if v.Dict? then Some(Get(v.fields, key, default)) else None
  }

  /** The exceptions whose kind the exporter tells apart. */
  datatype Exc = AttributeError | KeyError | TypeError | ValueError

  /** `v[key]` for a string key: only a dict holding `key` can answer. */
  function Index(v: Value, key: string): (r: Option<Value>)
    ensures r.Some? <==> v.Dict? && key in v.fields
  {
    if v.Dict? && key in v.fields then Some(v.fields[key]) else None
  }

  /** Lists and dicts cannot be dict keys (`unhashable type`). */
  predicate Hashable(v: Value) {
    !v.List? && !v.Dict?
  }

  /** The number a value stands for in arithmetic (`bool` is an `int` in Python). */
  function NumberOf(v: Value): Option<real> {
    match v
    case Bool(b) => Some(if b then 1.0 else 0.0)
    case Int(i) => Some(i as real)
    case Float(r) => Some(r)
    case _ => None
  }

  /** The integer a `bool` or an `int` stands for. */
  function IntOf(v: Value): (r: int)
    requires v.Bool? || v.Int?
    ensures NumberOf(v) == Some(r as real)
  {
    if v.Bool? then (if v.b then 1 else 0) else v.i
  }

  /** Python's `v == n` for an integer literal `n`. */
  predicate NumEq(v: Value, n: int) {
    NumberOf(v) == Some(n as real)
  }

  /** The integer `n` with `v == n` in Python, if there is one (`10`, `10.0` and `True == 1` all qualify). */
  function IntKey(v: Value): (r: Option<int>)
    ensures r.Some? ==> NumEq(v, r.value)
  {
    match NumberOf(v)
    case Some(x) => if x.Floor as real == x then Some(x.Floor) else None
    case None => None
  }

  /** `IntKey` finds exactly the integers a value equals. */
  lemma IntKeyExact(v: Value, n: int)
    ensures NumEq(v, n) <==> IntKey(v) == Some(n)
  {
  }

  /**
   * `table.get(key, default)` on a dict with integer keys: an equal key
   * hits, anything else gets the default, and a list or dict key raises
   * (`unhashable type`).
   */
  function LookupInt(table: map<int, string>, key: Value, default: string): (r: Option<string>)
    ensures r.None? <==> !Hashable(key)
    ensures Hashable(key) && IntKey(key).Some? && IntKey(key).value in table ==> r == Some(table[IntKey(key).value])
    ensures Hashable(key) && (IntKey(key).None? || IntKey(key).value !in table) ==> r == Some(default)
  {
    if !Hashable(key) then None
    else match IntKey(key)
      case Some(n) => if n in table then Some(table[n]) else Some(default)
      case None => Some(default)
  }

  /** A key equal to a table key finds that key's value; a key equal to none gets the default. */
  lemma LookupIntEqualKeys(table: map<int, string>, key: Value, default: string, n: int)
    requires Hashable(key) && NumEq(key, n)
    ensures n in table ==> LookupInt(table, key, default) == Some(table[n])
    ensures n !in table ==> LookupInt(table, key, default) == Some(default)
  {
    IntKeyExact(key, n);
  }

  // ---------------------------------------------------------------- float()

  /** `m * 10^e`. */
  function Scale(m: real, e: int): real
    decreases if e >= 0 then e else -e
  {
    if e == 0 then m else if e > 0 then Scale(m, e - 1) * 10.0 else Scale(m, e + 1) / 10.0
  }

  /** The number `[-]n * 10^(exp - k)`. */
  function Number(neg: bool, n: nat, k: nat, exp: int): real {
    var x := Scale(n as real, exp - k);
    if neg then -x else x
  }

  function Exponent(expNeg: bool, e: nat): int {
    if expNeg then -(e as int) else e
  }

  /*
   * `float()` reads a string from left to right; each function below is
   * one place in the grammar and gives the value of the text from
   * position `i` on.  `neg` is the sign, `n` the digits read so far as an
   * integer and `k` how many of them follow the point.
   */

  /** Leading whitespace, then a sign, a digit or a point. */
  function ScanLead(s: string, i: nat): Option<real>
    requires i <= |s|
    decreases |s| - i
  {
    if i == |s| then None
    else if IsSpace(s[i]) then ScanLead(s, i + 1)
    else if s[i] == '+' || s[i] == '-' then ScanSign(s, i + 1, s[i] == '-')
    else if IsDigit(s[i]) then ScanWhole(s, i + 1, false, DigitValue(s[i]))
    else if s[i] == '.' then ScanPoint(s, i + 1, false, 0, 0, false)
    else None
  }

  /** After the sign: a digit or a point. */
  function ScanSign(s: string, i: nat, neg: bool): Option<real>
    requires i <= |s|
    decreases |s| - i
  {
    if i == |s| then None
    else if IsDigit(s[i]) then ScanWhole(s, i + 1, neg, DigitValue(s[i]))
    else if s[i] == '.' then ScanPoint(s, i + 1, neg, 0, 0, false)
    else None
  }

  /** Digits before any point. */
  function ScanWhole(s: string, i: nat, neg: bool, n: nat): Option<real>
    requires i <= |s|
    decreases |s| - i
  {
    if i == |s| then Some(Number(neg, n, 0, 0))
    else if IsDigit(s[i]) then ScanWhole(s, i + 1, neg, n * 10 + DigitValue(s[i]))
    else if s[i] == '.' then ScanPoint(s, i + 1, neg, n, 0, true)
    else if s[i] == 'e' || s[i] == 'E' then ScanExp(s, i + 1, neg, n, 0)
    else if IsSpace(s[i]) then ScanTrail(s, i + 1, Number(neg, n, 0, 0))
    else None
  }

  /** After the point; `any` tells whether a digit was read before or after it. */
  function ScanPoint(s: string, i: nat, neg: bool, n: nat, k: nat, any: bool): Option<real>
    requires i <= |s|
    decreases |s| - i
  {
    if i == |s| then (if any then Some(Number(neg, n, k, 0)) else None)
    else if IsDigit(s[i]) then ScanPoint(s, i + 1, neg, n * 10 + DigitValue(s[i]), k + 1, true)
    else if any && (s[i] == 'e' || s[i] == 'E') then ScanExp(s, i + 1, neg, n, k)
    else if any && IsSpace(s[i]) then ScanTrail(s, i + 1, Number(neg, n, k, 0))
    else None
  }

  /** After `e` or `E`: a sign or a digit. */
  function ScanExp(s: string, i: nat, neg: bool, n: nat, k: nat): Option<real>
    requires i <= |s|
    decreases |s| - i
  {
    if i == |s| then None
    else if s[i] == '+' || s[i] == '-' then ScanExpSign(s, i + 1, neg, n, k, s[i] == '-')
    else if IsDigit(s[i]) then ScanExpDigits(s, i + 1, neg, n, k, false, DigitValue(s[i]))
    else None
  }

  /** After the exponent's sign: a digit. */
  function ScanExpSign(s: string, i: nat, neg: bool, n: nat, k: nat, expNeg: bool): Option<real>
    requires i <= |s|
    decreases |s| - i
  {
    if i == |s| then None
    else if IsDigit(s[i]) then ScanExpDigits(s, i + 1, neg, n, k, expNeg, DigitValue(s[i]))
    else None
  }

  /** The exponent's digits. */
  function ScanExpDigits(s: string, i: nat, neg: bool, n: nat, k: nat, expNeg: bool, e: nat): Option<real>
    requires i <= |s|
    decreases |s| - i
  {
    if i == |s| then Some(Number(neg, n, k, Exponent(expNeg, e)))
    else if IsDigit(s[i]) then ScanExpDigits(s, i + 1, neg, n, k, expNeg, e * 10 + DigitValue(s[i]))
    else if IsSpace(s[i]) then ScanTrail(s, i + 1, Number(neg, n, k, Exponent(expNeg, e)))
    else None
  }

  /** Trailing whitespace after the number `x`. */
  function ScanTrail(s: string, i: nat, x: real): Option<real>
    requires i <= |s|
    decreases |s| - i
  {
    if i == |s| then Some(x)
    else if IsSpace(s[i]) then ScanTrail(s, i + 1, x)
    else None
  }

  /**
   * Python's `float(s)` on a string: surrounding whitespace, an optional
   * sign, digits with an optional point (at least one digit in all),
   * then an optional exponent.  Blank text raises; digits, with or without
   * a minus sign, read as the integer they denote.
   */
  function ParseFloat(s: string): (r: Option<real>)
    ensures AllSpaces(s) ==> r.None?
    ensures s != [] && AllDigits(s) ==> r == Some(DigitsValue(s) as real)
    ensures |s| > 1 && s[0] == '-' && AllDigits(s[1..]) ==> r == Some(-(DigitsValue(s[1..]) as real))
  {
    ScanBlank(s, 0);
    ScanInteger(s);
    ScanLead(s, 0)
  }

  lemma {:induction false} ScanBlank(s: string, i: nat)
    requires i <= |s|
    ensures AllSpaces(s[i..]) ==> ScanLead(s, i).None?
    decreases |s| - i
  {
    if i < |s| && AllSpaces(s[i..]) {
      assert IsSpace(s[i..][0]);
      assert s[i + 1..] == s[i..][1..];
      ScanBlank(s, i + 1);
    }
  }

  /** The digits `s[start..]`, of which `s[start..i]` are read into `n`, end the number. */
  lemma {:induction false} ScanDigits(s: string, start: nat, i: nat, neg: bool, n: nat)
    requires start < i <= |s| && AllDigits(s[start..]) && n == DigitsValue(s[start..i])
    ensures ScanWhole(s, i, neg, n) == Some(Number(neg, DigitsValue(s[start..]), 0, 0))
    decreases |s| - i
  {
    if i < |s| {
      assert IsDigit(s[start..][i - start]);
      assert s[start..i + 1][..i - start] == s[start..i];
      ScanDigits(s, start, i + 1, neg, n * 10 + DigitValue(s[i]));
    } else {
      assert s[start..i] == s[start..];
    }
  }

  lemma ScanInteger(s: string)
    ensures s != [] && AllDigits(s) ==> ScanLead(s, 0) == Some(DigitsValue(s) as real)
    ensures |s| > 1 && s[0] == '-' && AllDigits(s[1..]) ==> ScanLead(s, 0) == Some(-(DigitsValue(s[1..]) as real))
  {
    if s != [] && AllDigits(s) {
      assert IsDigit(s[0]) && !IsSpace(s[0]);
      assert s[0..1][..0] == [];
      ScanDigits(s, 0, 1, false, DigitValue(s[0]));
      assert s[0..] == s;
    }
    if |s| > 1 && s[0] == '-' && AllDigits(s[1..]) {
      assert IsDigit(s[1..][0]);
      assert s[1..2][..0] == [];
      ScanDigits(s, 1, 2, true, DigitValue(s[1]));
    }
  }

  /** Surrounding whitespace is ignored and a fraction is read after the point. */
  lemma ParseFloatFraction()
    ensures ParseFloat(" 12.5 ") == Some(12.5)
  {
    assert Number(false, 125, 1, 0) == 12.5;
    assert ScanWhole(" 12.5 ", 3, false, 12) == Some(12.5);
  }

  /** An exponent scales the number; a point needs no digits after it. */
  lemma ParseFloatExponent()
    ensures ParseFloat("-1e3") == Some(-1000.0)
    ensures ParseFloat("1.") == Some(1.0)
  {
  }

  /** A lone point, letters and the empty text make `float()` raise. */
  lemma ParseFloatRejects()
    ensures ParseFloat(".") == None
    ensures ParseFloat("abc") == None
    ensures ParseFloat("") == None
  {
  }

  /** Python's `float(v)`: numbers convert, strings are parsed, anything else raises. */
  function ToFloat(v: Value): (r: Option<real>)
    ensures v.Int? ==> r == Some(v.i as real)
    ensures v.Float? ==> r == Some(v.r)
    ensures v.Null? || v.List? || v.Dict? ==> r == None
  {
    match v
    case Str(s) => ParseFloat(s)
    case _ => NumberOf(v)
  }

  // ---------------------------------------------------------------- str()

  /** The most fractional digits a float prints with. */
  function FracPrecision(): nat { 17 }

  function FracDigits(f: real, k: nat): string
    requires 0.0 <= f < 1.0
    decreases k
  {
    if k == 0 || f == 0.0 then []
    else
      var d := (f * 10.0).Floor;
      [DigitChar(d)] + FracDigits(f * 10.0 - d as real, k - 1)
  }

  function TrimZeros(s: string): string {
    if s != [] && s[|s| - 1] == '0' then TrimZeros(s[..|s| - 1]) else s
  }

  function UnsignedFloatStr(r: real): (t: string)
    requires r >= 0.0
    ensures t != [] && IsDigit(t[0]) && '.' in t
    ensures r.Floor as real == r ==> t == NatStr(r.Floor) + ".0"
  {
    var n := r.Floor;
    var digits := TrimZeros(FracDigits(r - n as real, FracPrecision()));
    var t := NatStr(n) + "." + (if digits == [] then "0" else digits);
    assert t[0] == NatStr(n)[0] && t[|NatStr(n)|] == '.';
    assert NatStr(n) + "." + "0" == NatStr(n) + ".0";
    t
  }

  /**
   * Python's `str(x)` on a float, in fixed-point notation: always with a
   * point, with a minus sign exactly when negative, and a whole number
   * below 10^16 prints as the integer followed by `.0`.
   */
  function FloatStr(r: real): (t: string)
    ensures t != [] && '.' in t
    ensures t[0] == '-' <==> r < 0.0
    ensures r.Floor as real == r && -1e16 < r < 1e16 ==> t == IntStr(r.Floor) + ".0"
  {
    if r < 0.0 then
      assert r.Floor as real == r ==> (-r).Floor == -r.Floor;
      "-" + UnsignedFloatStr(-r)
    else UnsignedFloatStr(r)
  }

  /**
   * Python's `str(v)`, which is also how a metric label value is rendered:
   * a string is itself, an integer reads back as itself with `float()`,
   * and only the empty string renders empty.
   */
  function PyStr(v: Value): (t: string)
    ensures v.Str? ==> t == v.s
    ensures v.Int? ==> ParseFloat(t) == Some(v.i as real)
    ensures v.Float? ==> '.' in t
    ensures t == [] <==> v == Str([])
  {
    match v
    case Null => "None"
    case Bool(b) => if b then "True" else "False"
    case Int(i) => IntStr(i)
    case Float(r) => FloatStr(r)
    case Str(s) => s
    case List(_) => "[...]"
    case Dict(_) => "{...}"
  }

  // ---------------------------------------------------------------- containers

  /** Python's `len(v)`; numbers and `None` have no length.  A sized value is false exactly when it is empty. */
  function PyLen(v: Value): (r: Option<nat>)
    ensures r.Some? <==> v.Str? || v.List? || v.Dict?
    ensures r.Some? ==> (r.value == 0 <==> !Truthy(v))
  {
    match v
    case Str(s) => Some(|s|)
    case List(xs) => Some(|xs|)
    case Dict(m) => Some(|m|)
    case _ => None
  }

  /**
   * The elements `for x in v` visits, when the loop body's first action is
   * `x.get(...)`.  A non-empty dict yields string keys on which that first
   * `get` raises, so it is cut short here at the iteration itself.
   */
  function PyIter(v: Value): (r: Option<seq<Value>>)
    ensures v.List? ==> r == Some(v.items)
    ensures !Truthy(v) && !v.Null? && !v.Bool? && !v.Int? && !v.Float? ==> r == Some([])
    ensures v.Str? ==> r.Some? && |r.value| == |v.s| && forall i :: 0 <= i < |v.s| ==> r.value[i] == Str([v.s[i]])
    ensures v.Dict? ==> (r.Some? <==> v.fields == map[])
    ensures v.Null? || v.Bool? || v.Int? || v.Float? ==> r.None?
  {
    match v
    case List(xs) => Some(xs)
    case Str(s) => if s == [] then Some([]) else Some(seq(|s|, i requires 0 <= i < |s| => Str([s[i]])))
    case Dict(m) => if m == map[] then Some([]) else None
    case _ => None
  }

  /** `a` occurs in `b` at some position. */
  predicate IsSubstring(a: string, b: string)
    decreases |b|
  {
    (|a| <= |b| && b[..|a|] == a) || (b != [] && IsSubstring(a, b[1..]))
  }

  /** Python's `key in v` for a string key. */
  function PyIn(key: string, v: Value): Option<bool> {
    match v
    case Dict(m) => Some(key in m)
    case List(xs) => Some(Str(key) in xs)
    case Str(s) => Some(IsSubstring(key, s))
    case _ => None
  }

  /** `v[0]`. */
  function First(v: Value): Option<Value> {
    match v
    case List(xs) => if xs != [] then Some(xs[0]) else None
    case Str(s) => if s != [] then Some(Str([s[0]])) else None
    case _ => None
  }

  /** Python's `a + b`. */
  function PyAdd(a: Value, b: Value): (r: Option<Value>)
    ensures NumberOf(a).Some? && NumberOf(b).Some? ==>
              r.Some? && NumberOf(r.value) == Some(NumberOf(a).value + NumberOf(b).value)
  {
    if NumberOf(a).Some? && NumberOf(b).Some? then
      if a.Float? || b.Float? then Some(Float(NumberOf(a).value + NumberOf(b).value))
      else Some(Int(IntOf(a) + IntOf(b)))
    else if a.Str? && b.Str? then Some(Str(a.s + b.s))
    else if a.List? && b.List? then Some(List(a.items + b.items))
    else None
  }
}
