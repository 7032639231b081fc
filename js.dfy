/**
 * JSON values as the request-body parser hands them to the handlers, and the
 * few pieces of JavaScript semantics the handlers apply to them: truthiness
 * (`!v`), `Object.keys(v).length`, own-property reads and the `String(v)`
 * conversion that `new URL(v)` performs on its argument.
 */
module Js {
  import opened Wrappers

  /** A parsed JSON value. Numbers are integers in this model. */
  datatype Json =
    | Null
    | Bool(b: bool)
    | Num(n: int)
    | Str(s: string)
    | Arr(items: seq<Json>)
    | Obj(fields: map<string, Json>)

  /** `!v` is false: every JSON value except null, false, 0 and "" is truthy. */
  predicate Truthy(v: Json) {
    match v
    case Null => false
    case Bool(b) => b
    case Num(n) => n != 0
    case Str(s) => s != ""
    case Arr(_) => true
    case Obj(_) => true
  }

  /** `Object.keys(v).length` for a non-null value: own keys of an object,
      indices of an array or a string, none for a number or a boolean.
      `Object.keys(null)` throws; the handler tests `!requestBody` first and
      never asks for the keys of null, so the value given for `Null` is never used. */
  function KeyCount(v: Json): (n: nat)
    ensures v.Obj? ==> n == |v.fields|
    ensures v.Arr? ==> n == |v.items|
    ensures v.Str? ==> n == |v.s|
    ensures v.Bool? || v.Num? ==> n == 0
  {
    match v
    case Obj(m) => |m|
    case Arr(xs) => |xs|
    case Str(s) => |s|
    case _ => 0
  }

  /** `v[key]` for a key that no built-in prototype defines (such as "url"):
      an own field of an object, `undefined` otherwise. */
  function Property(v: Json, key: string): (r: Option<Json>)
    ensures r.Some? <==> v.Obj? && key in v.fields
    ensures r.Some? ==> r.value == v.fields[key]
  {
    if v.Obj? && key in v.fields then Some(v.fields[key]) else None
  }

  /** An object whose `constructor` is `Object`: a parsed JSON object, unless
      the body defines its own "constructor" key, which shadows the prototype's. */
  predicate IsPlainObject(v: Json) {
    v.Obj? && "constructor" !in v.fields
  }

  /** The text of one decimal digit. */
  function DigitChar(d: nat): (c: char)
    requires d < 10
    ensures '0' <= c <= '9' && c as int - '0' as int == d
  {
    (d + '0' as int) as char
  }

  /** The numeric value of one decimal digit character. */
  function DigitValue(c: char): (d: nat)
    requires '0' <= c <= '9'
    ensures d < 10 && DigitChar(d) == c
  {
    c as int - '0' as int
  }

  predicate AllDigits(s: string) {
    forall k :: 0 <= k < |s| ==> '0' <= s[k] <= '9'
  }

  /** The shortest decimal numeral of `n`, as `${n}` prints a safe integer. */
  function Decimal(n: nat): (s: string)
    ensures |s| >= 1 && AllDigits(s)
    ensures (|s| == 1) == (n < 10)
  {
    if n < 10 then [DigitChar(n)] else Decimal(n / 10) + [DigitChar(n % 10)]
  }

  /** The value of a string of decimal digits (leading zeros allowed). */
  function DigitsValue(s: string): nat
    requires AllDigits(s)
  {
    if s == [] then 0 else DigitsValue(s[..|s| - 1]) * 10 + DigitValue(s[|s| - 1])
  }

  /** Reading a numeral back gives the number it was printed from. */
  lemma {:induction false} DigitsValueOfDecimal(n: nat)
    ensures DigitsValue(Decimal(n)) == n
  {
    var s := Decimal(n);
    if n < 10 {
      assert s[..|s| - 1] == [];
    } else {
      assert s[..|s| - 1] == Decimal(n / 10);
      DigitsValueOfDecimal(n / 10);
    }
  }

  /** Different numbers print differently, so a count can be read back from its numeral. */
  lemma DecimalInjective(m: nat, n: nat)
    requires Decimal(m) == Decimal(n)
    ensures m == n
  {
    DigitsValueOfDecimal(m);
    DigitsValueOfDecimal(n);
  }

  /** `String(n)` for an integer. */
  function IntToString(i: int): (s: string)
    ensures s != [] && (s[0] == '-' || '0' <= s[0] <= '9')
    ensures forall k :: 0 <= k < |s| ==> s[k] == '-' || '0' <= s[k] <= '9'
  {
    if i < 0 then "-" + Decimal(-i) else Decimal(i)
  }

  /**
   * `String(v)` (ToString after ToPrimitive with hint "string"). An object
   * with its own "toString" key has no callable `toString`, and its `valueOf`
   * returns the object itself, so the conversion throws a TypeError: `None`.
   * An array converts through `join(",")`, where null elements become "".
   */
  function ToJsString(v: Json): Option<string>
    decreases v, 1
  {
    match v
    case Null => Some("null")
    case Bool(b) => Some(if b then "true" else "false")
    case Num(n) => Some(IntToString(n))
    case Str(s) => Some(s)
    case Arr(_) => JoinItems(v, 0)
    case Obj(m) => if "toString" in m then None else Some("[object Object]")
  }

  /** `v.items.slice(i).join(",")`, failing when an element's conversion fails. */
  function JoinItems(v: Json, i: nat): Option<string>
    requires v.Arr? && i <= |v.items|
    decreases v, 0, |v.items| - i
  {
    if i == |v.items| then Some("")
    else
      var head := if v.items[i].Null? then Some("") else ToJsString(v.items[i]);
      var tail := JoinItems(v, i + 1);
      if head.None? || tail.None? then None
      else Some(head.value + (if i + 1 < |v.items| then "," else "") + tail.value)
  }
}
