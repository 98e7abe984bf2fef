/**
 * The dynamically typed values (`any`) that the services and components pass around:
 * JSON bodies, token claims, form values.  Numbers are integers here; objects are
 * finite maps from property name to value.
 */
module JsValue {
  import opened Text

  datatype Value =
    | Undefined
    | Null
    | Bool(b: bool)
    | Num(n: int)
    | Str(s: string)
    | Arr(items: seq<Value>)
    | Obj(fields: map<string, Value>)

  /** Whether a value counts as true in a JavaScript condition (`if (v)`, `!v`, `||`). */
  predicate Truthy(v: Value) {
    match v
    case Undefined => false
    case Null => false
    case Bool(b) => b
    case Num(n) => n != 0
    case Str(s) => s != ""
    case Arr(_) => true
    case Obj(_) => true
  }

  /** `a || b`: the first operand when it is truthy, otherwise the second. */
  function Or(a: Value, b: Value): Value {
    if Truthy(a) then a else b
  }

  /** `v[key]` / `v?.[key]`: a property of an object, `undefined` for anything else. */
  function Get(v: Value, key: string): Value {
    if v.Obj? && key in v.fields then v.fields[key] else Undefined
  }

  /** `v && typeof v === 'object'`: a non-null object or an array. */
  predicate IsObject(v: Value) {
    v.Obj? || v.Arr?
  }

  /** `v === null || v === undefined`. */
  predicate IsNullish(v: Value) {
    v.Null? || v.Undefined?
  }

  /** `a || b || ... || z` over a non-empty list of operands. */
  function OrAll(vs: seq<Value>): Value
    requires |vs| > 0
  {
    if |vs| == 1 then vs[0] else Or(vs[0], OrAll(vs[1..]))
  }

  /** A chain of three operands is `a || (b || c)`. */
  lemma OrAllThree(a: Value, b: Value, c: Value)
    ensures OrAll([a, b, c]) == Or(a, Or(b, c))
  {
    assert [b, c][1..] == [c];
    assert OrAll([b, c]) == Or(b, c);
    assert [a, b, c][1..] == [b, c];
  }

  /**
   * A chain of `||` yields its first truthy operand, and its last operand when none is
   * truthy.
   */
  lemma {:induction false} OrAllFirstTruthy(vs: seq<Value>)
    requires |vs| > 0
    ensures forall i :: 0 <= i < |vs| && Truthy(vs[i]) && (forall j :: 0 <= j < i ==> !Truthy(vs[j]))
              ==> OrAll(vs) == vs[i]
    ensures (forall j :: 0 <= j < |vs| ==> !Truthy(vs[j])) ==> OrAll(vs) == vs[|vs| - 1]
  {
    if |vs| > 1 {
      OrAllFirstTruthy(vs[1..]);
      forall i | 0 <= i < |vs| && Truthy(vs[i]) && (forall j :: 0 <= j < i ==> !Truthy(vs[j]))
        ensures OrAll(vs) == vs[i]
      {
        if i > 0 {
          assert !Truthy(vs[0]);
          assert vs[1..][i - 1] == vs[i];
          assert forall j :: 0 <= j < i - 1 ==> vs[1..][j] == vs[j + 1];
        }
      }
      if forall j :: 0 <= j < |vs| ==> !Truthy(vs[j]) {
        assert !Truthy(vs[0]);
        assert forall j :: 0 <= j < |vs| - 1 ==> vs[1..][j] == vs[j + 1];
      }
    }
  }

  /** A chain of `||` is truthy exactly when one of its operands is. */
  lemma {:induction false} OrAllTruthy(vs: seq<Value>)
    requires |vs| > 0
    ensures Truthy(OrAll(vs)) <==> exists i :: 0 <= i < |vs| && Truthy(vs[i])
  {
    if |vs| > 1 {
      OrAllTruthy(vs[1..]);
      if exists i :: 0 <= i < |vs| && Truthy(vs[i]) {
        var i :| 0 <= i < |vs| && Truthy(vs[i]);
        if i > 0 {
          assert vs[1..][i - 1] == vs[i];
        }
      } else {
        assert forall i :: 0 <= i < |vs| - 1 ==> vs[1..][i] == vs[i + 1];
      }
    }
  }

  function DigitChar(d: nat): char
    requires d < 10
  {
    ('0' as int + d) as char
  }

  predicate AllDigits(s: string) {
    forall i :: 0 <= i < |s| ==> '0' <= s[i] <= '9'
  }

  /** The decimal numeral of a natural number, most significant digit first. */
  function NatToString(n: nat): (s: string)
    ensures |s| > 0 && AllDigits(s)
  {
    if n < 10 then [DigitChar(n)] else NatToString(n / 10) + [DigitChar(n % 10)]
  }

  /** `String(n)` for an integer `n`. */
  function IntToString(n: int): string {
    if n < 0 then "-" + NatToString(-n) else NatToString(n)
  }

  /** The number a string of decimal digits denotes. */
  function DigitsValue(s: string): nat
    requires AllDigits(s)
  {
    if s == [] then 0 else DigitsValue(s[..|s| - 1]) * 10 + (s[|s| - 1] as int - '0' as int)
  }

  lemma {:induction false} NatToStringValue(n: nat)
    ensures DigitsValue(NatToString(n)) == n
  {
    if n >= 10 {
      var s := NatToString(n);
      assert s[..|s| - 1] == NatToString(n / 10);
      NatToStringValue(n / 10);
    }
  }

  /** `String(v)` (equivalently `v.toString()` and template interpolation). */
  function ToStr(v: Value): string {
    match v
    case Undefined => "undefined"
    case Null => "null"
    case Bool(b) => if b then "true" else "false"
    case Num(n) => IntToString(n)
    case Str(s) => s
    case Arr(items) => JoinElements(items)
    case Obj(_) => "[object Object]"
  }

  /** `items.join(',')`, where `null` and `undefined` elements become empty strings. */
  function JoinElements(items: seq<Value>): string
    decreases items
  {
    if items == [] then ""
    else
      var head := if IsNullish(items[0]) then "" else ToStr(items[0]);
      if |items| == 1 then head else head + "," + JoinElements(items[1..])
  }

  /** A JavaScript number as far as this model needs one: an integer or `NaN`. */
  datatype Number = Finite(value: int) | NaN

  /**
   * `Number(s)` for the numerals the model covers: optional white space around an
   * optional sign and decimal digits; an all-blank string is 0.
   */
  function StringToNumber(s: string): Number {
    var t := Trim(s);
    if t == "" then Finite(0)
    else if AllDigits(t) then Finite(DigitsValue(t))
    else if |t| > 1 && t[0] == '-' && AllDigits(t[1..]) then Finite(0 - DigitsValue(t[1..]))
    else if |t| > 1 && t[0] == '+' && AllDigits(t[1..]) then Finite(DigitsValue(t[1..]))
    else NaN
  }

  /** `Number(v)`; arrays and objects convert through their string form. */
  function ToNumber(v: Value): Number {
    match v
    case Undefined => NaN
    case Null => Finite(0)
    case Bool(b) => Finite(if b then 1 else 0)
    case Num(n) => Finite(n)
    case Str(s) => StringToNumber(s)
    case Arr(_) => StringToNumber(ToStr(v))
    case Obj(_) => NaN
  }

  /** `Number(String(n))` is `n` again, so a numeric claim and its string form agree. */
  lemma NumberOfNumeral(n: int)
    ensures ToNumber(Str(IntToString(n))) == Finite(n)
  {
    var s := IntToString(n);
    StringTrimmedDigits(n);
    if n < 0 {
      assert s[1..] == NatToString(-n);
      NatToStringValue(-n);
      assert !AllDigits(s) by { assert s[0] == '-'; }
    } else {
      NatToStringValue(n);
    }
  }

  lemma DigitIsNotSpace(c: char)
    requires '0' <= c <= '9' || c == '-'
    ensures !IsJsSpace(c)
  {
  }

  lemma StringTrimmedDigits(n: int)
    ensures Trim(IntToString(n)) == IntToString(n)
  {
    var s := IntToString(n);
    var digits := NatToString(if n < 0 then -n else n);
    assert s[|s| - 1] == digits[|digits| - 1];
    DigitIsNotSpace(s[0]);
    DigitIsNotSpace(s[|s| - 1]);
    assert TrimStart(s) == s;
  }
}
