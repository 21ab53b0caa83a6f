// JSON-like values: the dictionaries, lists and scalars that manifests,
// action parameters, event payloads and run inputs are made of.
module Json {
  import opened Wrappers
  import opened Text

  datatype Value =
    | Null
    | Bool(b: bool)
    | Num(n: int)
    | Float(f: real)
    | Str(s: string)
    | Arr(items: seq<Value>)
    | Obj(fields: map<string, Value>)

  type Dict = map<string, Value>

  /** Python truthiness: None, False, 0, 0.0, "" and empty containers are false. */
  predicate Truthy(v: Value)
  {
    match v
    case Null => false
    case Bool(b) => b
    case Num(n) => n != 0
    case Float(f) => f != 0.0
    case Str(s) => s != []
    case Arr(xs) => xs != []
    case Obj(f) => f != map[]
  }

  /** Python's `d.get(k)`: a missing key reads as None. */
  function Get(d: Dict, k: string): Value
  {
    if k in d then d[k] else Null
  }

  /** Python's `d.get(k, default)`. */
  function GetOr(d: Dict, k: string, default: Value): Value
  {
    if k in d then d[k] else default
  }

  /** Python's `a or b`. */
  function Or(a: Value, b: Value): Value
  {
    if Truthy(a) then a else b
  }

  /** The name Python reports for a value's type in error messages. */
  function TypeName(v: Value): string
  {
    match v
    case Null => "NoneType"
    case Bool(_) => "bool"
    case Num(_) => "int"
    case Float(_) => "float"
    case Str(_) => "str"
    case Arr(_) => "list"
    case Obj(_) => "dict"
  }

  const InvalidLiteralPrefix := "invalid literal for int() with base 10: '"
  const IntArgumentPrefix := "int() argument must be a string, " + "a bytes-like object or a real number, not '"

  function InvalidLiteral(s: string): string
  {
    InvalidLiteralPrefix + s + "'"
  }

  function IntArgumentError(typeName: string): string
  {
    IntArgumentPrefix + typeName + "'"
  }

  /** Python's int() of a float: truncation toward zero. */
  function Truncate(f: real): int
  {
    if f >= 0.0 then f.Floor else 0 - (0.0 - f).Floor
  }

  /** Python's `int(v)`: integers and booleans convert, floats are truncated, strings are parsed as decimal, and None, lists and dictionaries raise TypeError. */
  function PyInt(v: Value): (r: Result<int, string>)
    ensures v.Num? ==> r == Ok(v.n)
    ensures v.Float? ==> r == Ok(Truncate(v.f))
    ensures v.Bool? ==> r == Ok(if v.b then 1 else 0)
    ensures v.Str? ==> (r.Ok? <==> ParseInt(v.s).Some?)
    ensures v.Str? && r.Err? ==> r.error == InvalidLiteral(v.s)
    ensures v.Null? || v.Arr? || v.Obj? ==> r == Err(IntArgumentError(TypeName(v)))
  {
    match v
    case Num(n) => Ok(n)
    case Float(f) => Ok(Truncate(f))
    case Bool(b) => Ok(if b then 1 else 0)
    case Str(s) =>
      (match ParseInt(s)
       case Some(n) => Ok(n)
       case None => Err(InvalidLiteral(s)))
    case _ => Err(IntArgumentError(TypeName(v)))
  }

  /** The decimal text of a natural number converts back to that number. */
  lemma PyIntOfDecimal(n: nat)
    ensures PyInt(Str(NatToString(n))) == Ok(n)
  {
    ParseIntOfNatToString(n);
  }

  /** int() of a float drops the fraction toward zero: the result lies between zero and the float, less than one away from it. */
  lemma TruncateTowardZero(f: real)
    ensures PyInt(Float(f)).Ok?
    ensures var n := PyInt(Float(f)).value;
      && (f >= 0.0 ==> 0 <= n && n as real <= f < n as real + 1.0)
      && (f < 0.0 ==> n <= 0 && n as real - 1.0 < f <= n as real)
  {
  }

  /** An underscore between two groups of digits is ignored, as Python's int() ignores it. */
  lemma UnderscoreIgnored(a: string, b: string)
    requires a != [] && b != [] && AllDigits(a) && AllDigits(b)
    ensures PyInt(Str(a + "_" + b)) == PyInt(Str(a + b)) == Ok(DigitsValue(a + b))
  {
    var u := a + "_" + b;
    var w := a + b;
    GroupedDigits(a, b);
    DigitsOnlyConcat(a, b);
    assert u[0] == a[0] && u[|u| - 1] == b[|b| - 1];
    TrimNoSpaceEnds(u);
    PyIntOfDigitGroups(u);
    assert AllDigits(w);
    DigitsOnlyOfDigits(w);
    DigitsAreTrimmed(w);
    assert w[0] == a[0];
    assert DigitGroups(w);
    PyIntOfDigitGroups(w);
  }

  /** Grouped digits with no surrounding space are read as the number their digits spell. */
  lemma PyIntOfDigitGroups(s: string)
    requires DigitGroups(s) && Trim(s) == s
    ensures PyInt(Str(s)) == Ok(DigitsValue(DigitsOnly(s)))
  {
    assert IsDigit(s[0]);
  }

  lemma GroupedDigits(a: string, b: string)
    requires a != [] && b != [] && AllDigits(a) && AllDigits(b)
    ensures DigitGroups(a + "_" + b)
  {
    var u := a + "_" + b;
    assert forall i :: 0 <= i < |a| ==> u[i] == a[i];
    assert u[|a|] == '_';
    assert forall i :: |a| < i < |u| ==> u[i] == b[i - |a| - 1];
  }

  lemma TrimNoSpaceEnds(s: string)
    requires s != [] && !IsSpace(s[0]) && !IsSpace(s[|s| - 1])
    ensures Trim(s) == s
  {
    assert TrimStart(s) == s;
  }

  lemma {:induction false} DigitsOnlyConcat(a: string, b: string)
    requires AllDigits(a) && AllDigits(b)
    ensures forall i :: 0 <= i < |a + "_" + b| ==> IsDigit((a + "_" + b)[i]) || (a + "_" + b)[i] == '_'
    ensures DigitsOnly(a + "_" + b) == a + b
  {
    if a == [] {
      assert "_" + b == ['_'] + b;
      assert ("_" + b)[1..] == b;
      DigitsOnlyOfDigits(b);
    } else {
      DigitsOnlyConcat(a[1..], b);
      assert (a + "_" + b)[1..] == a[1..] + "_" + b;
      assert a + b == [a[0]] + (a[1..] + b);
    }
  }
}
