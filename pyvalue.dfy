/**
 * The Python values the service handles after `json.loads`, and the few
 * built-ins the core applies to them: truthiness, `str()`, `float()`,
 * `dict.get` and `type(v).__name__`.
 *
 * A JSON list or object nested inside a record field is kept abstract: it is
 * represented by the text `str()` gives for it.  A float is represented by its
 * `repr` text, which is also what `str()` gives.
 */
module PyValue {
  import opened Wrappers
  import FloatText

  datatype Value =
    | Null
    | Bool(b: bool)
    | Int(i: int)
    | Float(repr: string)
    | Str(s: string)
    | List(text: string)
    | Dict(text: string)

  /** Any JSON value other than an object. */
  type NonObject = v: Value | !v.Dict? witness Null

  /** A JSON null, boolean, number or string. */
  type Scalar = v: Value | !v.Dict? && !v.List? witness Null

  /** One element of an uploaded dataset list: a record (JSON object) or anything else. */
  datatype Row = Record(fields: map<string, Value>) | NonRecord(v: NonObject)

  /** `d.get(key)`: the stored value, or `None` when the key is absent. */
  function Get(d: map<string, Value>, key: string): (v: Value)
    ensures key !in d ==> v == Null
    ensures key in d ==> v == d[key]
  {
    if key in d then d[key] else Null
  }

  /** `bool(v)`. */
  predicate Truthy(v: Value) {
    match v
    case Null => false
    case Bool(b) => b
    case Int(i) => i != 0
    case Float(r) => r != "0.0" && r != "-0.0"
    case Str(s) => s != ""
    case List(t) => t != "[]"
    case Dict(t) => t != "{}"
  }

  function DigitChar(d: nat): (c: char)
    requires d < 10
    ensures FloatText.IsDigit(c) && c as int == '0' as int + d
  {
    ('0' as int + d) as char
  }

  /** The decimal text of `n`, as `str(n)` writes it. */
  function NatToString(n: nat): (s: string)
    ensures |s| > 0
    ensures forall k :: 0 <= k < |s| ==> FloatText.IsDigit(s[k])
    ensures |s| > 1 ==> s[0] != '0'
    decreases n
  {
    if n < 10 then [DigitChar(n)] else NatToString(n / 10) + [DigitChar(n % 10)]
  }

  /** The number a string of decimal digits denotes. */
  function DecimalValue(s: string): nat
    requires forall k :: 0 <= k < |s| ==> FloatText.IsDigit(s[k])
  {
    if s == [] then 0
    else DecimalValue(s[..|s| - 1]) * 10 + DigitValue(s[|s| - 1])
  }

  function DigitValue(c: char): (d: nat)
    requires FloatText.IsDigit(c)
    ensures d < 10 && d == c as int - '0' as int
  {
    c as int - '0' as int
  }

  lemma {:induction false} NatToStringRoundTrip(n: nat)
    ensures DecimalValue(NatToString(n)) == n
    decreases n
  {
    if n >= 10 {
      var init, last := NatToString(n / 10), DigitChar(n % 10);
      NatToStringRoundTrip(n / 10);
      assert (init + [last])[..|init|] == init;
    }
  }

  /** `str(i)` for a Python `int`. */
  function IntToString(i: int): (s: string)
    ensures |s| > 0 && (s[0] == '-' <==> i < 0)
    ensures i < 0 ==> |s| > 1 && forall k :: 1 <= k < |s| ==> FloatText.IsDigit(s[k])
    ensures i >= 0 ==> forall k :: 0 <= k < |s| ==> FloatText.IsDigit(s[k])
  {
    if i < 0 then "-" + NatToString(-i) else NatToString(i)
  }

  /** Reading `str(i)` back: the sign, then the decimal digits of `|i|`. */
  lemma IntToStringRoundTrip(i: int)
    ensures var s := IntToString(i);
            if i < 0 then s[0] == '-' && DecimalValue(s[1..]) == -i else DecimalValue(s) == i
  {
    if i < 0 {
      NatToStringRoundTrip(-i);
      assert IntToString(i)[1..] == NatToString(-i);
    } else {
      NatToStringRoundTrip(i);
    }
  }

  /** Two integers have the same `str()` exactly when they are equal. */
  lemma IntTextInjective(i: int, j: int)
    ensures ToStr(Int(i)) == ToStr(Int(j)) <==> i == j
  {
    if IntToString(i) == IntToString(j) {
      IntToStringRoundTrip(i);
      IntToStringRoundTrip(j);
    }
  }

  /** The falsy values: `None`, `False`, zero, and the empty string, list and dict. */
  lemma FalsyIff(v: Value)
    ensures !Truthy(v) <==>
              v == Null || v == Bool(false) || v == Int(0) || v == Float("0.0") || v == Float("-0.0")
              || v == Str("") || v == List("[]") || v == Dict("{}")
  {
  }

  /** `type(v).__name__` tells the seven kinds of value apart. */
  lemma TypeNameIdentifies(v: Value, w: Value)
    ensures TypeName(v) == TypeName(w) <==>
              (v.Null? && w.Null?) || (v.Bool? && w.Bool?) || (v.Int? && w.Int?) || (v.Float? && w.Float?)
              || (v.Str? && w.Str?) || (v.List? && w.List?) || (v.Dict? && w.Dict?)
  {
  }

  /** `str(v)`. */
  function ToStr(v: Value): string {
    match v
    case Null => "None"
    case Bool(b) => if b then "True" else "False"
    case Int(i) => IntToString(i)
    case Float(r) => r
    case Str(s) => s
    case List(t) => t
    case Dict(t) => t
  }

  /** `type(v).__name__`. */
  function TypeName(v: Value): string {
    match v
    case Null => "NoneType"
    case Bool(_) => "bool"
    case Int(_) => "int"
    case Float(_) => "float"
    case Str(_) => "str"
    case List(_) => "list"
    case Dict(_) => "dict"
  }

  /**
   * The smallest integer `float()` refuses with `OverflowError`: 2^1024 - 2^970,
   * halfway between the largest double (2^1024 - 2^971) and 2^1024.  An
   * integer at or above it would round to 2^1024, which is not a double.
   */
  const FloatOverflow: int := 0xfffffffffffffc00000000000000000000000000000000000000000000000000000000000000000000000000000000000000000000000000000000000000000000000000000000000000000000000000000000000000000000000000000000000000000000000000000000000000000000000000000000000000000000000000

  /** 2^1024, one past the exponent range of a double. */
  const TwoTo1024: int := 0x10000000000000000000000000000000000000000000000000000000000000000000000000000000000000000000000000000000000000000000000000000000000000000000000000000000000000000000000000000000000000000000000000000000000000000000000000000000000000000000000000000000000000000

  /** The overflow bound is 2^1024 - 2^970 (2^54 = 0x40000000000000). */
  lemma FloatOverflowValue()
    ensures FloatOverflow == TwoTo1024 - TwoTo1024 / 0x40000000000000
    ensures 0x40000000000000 * (TwoTo1024 / 0x40000000000000) == TwoTo1024
  {
  }

  /** The float that `float(source)` returned; its numeric value is not modelled. */
  datatype Num = FloatOf(source: Value)

  /** `float(v)`: `None` stands for the `TypeError`, `ValueError` or `OverflowError` it raises. */
  function ToFloat(v: Value): (r: Option<Num>)
    ensures r.Some? ==> r.value.source == v
  {
    match v
    case Null => None
    case Bool(_) => Some(FloatOf(v))
    case Int(i) => if -FloatOverflow < i < FloatOverflow then Some(FloatOf(v)) else None
    case Float(_) => Some(FloatOf(v))
    case Str(s) => if FloatText.IsFloatText(s) then Some(FloatOf(v)) else None
    case List(_) => None
    case Dict(_) => None
  }

  /**
   * `row.get(key, default)`.  `None` stands for the exception it raises: an
   * `AttributeError` when the row is not a dict, a `TypeError` when the key is
   * an unhashable list or dict.  A hashable key that is not a string never
   * equals a JSON object key, so the default comes back.
   */
  function RowGet(row: Row, key: Value, default: Value): (r: Option<Value>)
    ensures r.Some? <==> row.Record? && !key.List? && !key.Dict?
    ensures row.Record? && key.Str? && key.s in row.fields ==> r == Some(row.fields[key.s])
    ensures row.Record? && key.Str? && key.s !in row.fields ==> r == Some(default)
    ensures row.Record? && !key.Str? && !key.List? && !key.Dict? ==> r == Some(default)
  {
    match row
    case NonRecord(_) => None
    case Record(fields) =>
      match key
      case List(_) => None
      case Dict(_) => None
      case Str(s) => Some(if s in fields then fields[s] else default)
      case _ => Some(default)
  }

  // Facts about `float()` that the data-cleaning code depends on.

  lemma NumbersCoerce(v: Value)
    requires v.Float? || v.Bool? || (v.Int? && -FloatOverflow < v.i < FloatOverflow)
    ensures ToFloat(v) == Some(FloatOf(v))
  {
  }

  lemma NullAndContainersDoNotCoerce(v: Value)
    requires v.Null? || v.List? || v.Dict?
    ensures ToFloat(v) == None
  {
  }

  lemma HugeIntDoesNotCoerce(i: int)
    requires i >= FloatOverflow
    ensures ToFloat(Int(i)) == None && ToFloat(Int(-i)) == None
  {
  }

  /** The default `'nan'` used for an absent field converts. */
  lemma NanCoerces()
    ensures ToFloat(Str("nan")) == Some(FloatOf(Str("nan")))
  {
    FloatText.NanIsFloatText();
  }

  /** The text of every integer converts. */
  lemma IntegerTextCoerces(n: nat)
    ensures ToFloat(Str(NatToString(n))) == Some(FloatOf(Str(NatToString(n))))
  {
    FloatText.DigitsAreFloatText(NatToString(n));
  }

  lemma BadDoesNotCoerce()
    ensures ToFloat(Str("bad")) == None
  {
    FloatText.BadIsNotFloatText();
  }
}
