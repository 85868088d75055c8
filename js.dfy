/**
 * The slice of JavaScript semantics the submit handler relies on: parsed
 * JSON values, truthiness for `||`, conversion to text inside a template
 * literal, and property reads, which throw on `null`.
 */
module Js {

  /** A value produced by JSON parsing. Numbers are limited to integers. */
  datatype Json =
    | JNull
    | JBool(b: bool)
    | JNum(n: int)
    | JStr(s: string)
    | JArr(items: seq<Json>)
    | JObj(fields: map<string, Json>)

  /** The result of a property read: `undefined`, or a value. */
  datatype Prop = Undefined | Defined(value: Json)

  /** How an evaluation completes: with a value, or by throwing an error with a message. */
  datatype Completion<+T> = Normal(value: T) | Throw(message: string)

  /** ToBoolean, as `||` applies it. */
  predicate Truthy(p: Prop)
  {
    match p
    case Undefined => false
    case Defined(JNull) => false
    case Defined(JBool(b)) => b
    case Defined(JNum(n)) => n != 0
    case Defined(JStr(s)) => s != ""
    case Defined(_) => true
  }

  function DigitChar(d: int): (c: char)
    requires 0 <= d < 10
    ensures '0' <= c <= '9'
  {
    ('0' as int + d) as char
  }

  /** Decimal digits of a natural number, most significant first. */
  function Digits(n: nat): string
    decreases n
  {
    if n < 10 then [DigitChar(n)] else Digits(n / 10) + [DigitChar(n % 10)]
  }

  predicate AllDigits(s: string)
  {
    forall i :: 0 <= i < |s| ==> '0' <= s[i] <= '9'
  }

  /** The number a string of decimal digits denotes. */
  function DecimalValue(s: string): nat
    requires AllDigits(s)
    decreases |s|
  {
    if s == [] then 0 else DecimalValue(s[..|s| - 1]) * 10 + (s[|s| - 1] as int - '0' as int)
  }

  /** Digits gives a canonical decimal numeral: digits only, no leading zero, and it reads back as n. */
  lemma {:induction false} DigitsRoundTrip(n: nat)
    ensures AllDigits(Digits(n)) && |Digits(n)| >= 1
    ensures |Digits(n)| > 1 ==> Digits(n)[0] != '0'
    ensures DecimalValue(Digits(n)) == n
    decreases n
  {
    if n >= 10 {
      DigitsRoundTrip(n / 10);
      var s := Digits(n);
      assert s[..|s| - 1] == Digits(n / 10);
    }
  }

  /** Number-to-string conversion, for integers of safe magnitude. */
  function NumberText(n: int): string
  {
    if n < 0 then "-" + Digits(-n) else Digits(n)
  }

  /** Reads a numeral written by NumberText back to the number. */
  function NumeralValue(s: string): int
  {
    if |s| > 0 && s[0] == '-' && AllDigits(s[1..]) then -(DecimalValue(s[1..]) as int)
    else if AllDigits(s) then DecimalValue(s)
    else 0
  }

  /** NumberText loses nothing: reading its numeral back gives the number. */
  lemma NumberTextRoundTrip(n: int)
    ensures NumeralValue(NumberText(n)) == n
    ensures |NumberText(n)| >= 1
    ensures 0 <= n < 10 ==> NumberText(n) == [DigitChar(n)]
  {
    if n < 0 {
      DigitsRoundTrip(-n);
      assert NumberText(n)[1..] == Digits(-n);
    } else {
      DigitsRoundTrip(n);
    }
  }

  /** The message of the TypeError thrown when an object cannot be converted to a primitive. */
  const NotPrimitiveMessage := "Cannot convert object to primitive value"

  /**
   * String(v), as `${v}` converts a value. An array joins its elements with
   * commas. An object prints as "[object Object]" through the inherited
   * toString, unless it has its own "toString" entry: a JSON value is never
   * callable, so that entry is skipped, valueOf gives back the object itself,
   * and the conversion throws.
   */
  function Text(v: Json): Completion<string>
    decreases v, 1
  {
    match v
    case JNull => Normal("null")
    case JBool(b) => Normal(if b then "true" else "false")
    case JNum(n) => Normal(NumberText(n))
    case JStr(s) => Normal(s)
    case JArr(items) => Joined(items)
    case JObj(m) => if "toString" in m then Throw(NotPrimitiveMessage) else Normal("[object Object]")
  }

  /**
   * Array.prototype.join(","): null elements print as nothing, the others
   * are converted left to right and the first conversion that throws ends it.
   */
  function Joined(items: seq<Json>): Completion<string>
    decreases items, 0
  {
    if items == [] then Normal("")
    else
      var first := if items[0].JNull? then Normal("") else Text(items[0]);
      if first.Throw? || |items| == 1 then first
      else
        match Joined(items[1..])
        case Throw(m) => Throw(m)
        case Normal(rest) => Normal(first.value + "," + rest)
  }

  /** The text a catch block shows for a completion: the value, or the thrown message. */
  function Shown(c: Completion<string>): string
  {
    match c
    case Normal(s) => s
    case Throw(m) => m
  }

  /** The property names the submit handler reads; no built-in prototype defines them. */
  predicate ResponseKey(key: string)
  {
    key == "error" || key == "prediction"
  }

  /** The message of the TypeError thrown by reading a property of null. */
  function NullReadMessage(key: string): string
  {
    "Cannot read properties of null (reading '" + key + "')"
  }

  /**
   * `v.key` for a response key: throws on null, finds an object's own entry,
   * and gives undefined on every other value.
   */
  function GetProp(v: Json, key: string): (r: Completion<Prop>)
    requires ResponseKey(key)
    ensures r.Throw? <==> v.JNull?
    ensures r.Normal? && r.value.Defined? <==> v.JObj? && key in v.fields
    ensures r.Normal? && r.value.Defined? ==> r.value.value == v.fields[key]
  {
    match v
    case JNull => Throw(NullReadMessage(key))
    case JObj(m) => Normal(if key in m then Defined(m[key]) else Undefined)
    case _ => Normal(Undefined)
  }

  /**
   * `${p || fallback}`: a non-empty string shows as itself and an empty one
   * gives the fallback; undefined, null, false and 0 give the fallback; an
   * array shows its joined elements even when that text is empty; an object
   * throws exactly when it has its own "toString" entry.
   */
  function TextOr(p: Prop, fallback: string): (r: Completion<string>)
    ensures p.Defined? && p.value.JStr? ==>
      r == Normal(if p.value.s != "" then p.value.s else fallback)
    ensures p in {Undefined, Defined(JNull), Defined(JBool(false)), Defined(JNum(0))} ==>
      r == Normal(fallback)
    ensures p.Defined? && p.value.JNum? && p.value.n != 0 ==> r == Normal(NumberText(p.value.n))
    ensures p == Defined(JArr([])) || p == Defined(JArr([JNull])) ==> r == Normal("")
    ensures p.Defined? && p.value.JObj? ==>
      r == if "toString" in p.value.fields then Throw(NotPrimitiveMessage) else Normal("[object Object]")
    ensures r.Throw? ==> r.message == NotPrimitiveMessage
  {
    if Truthy(p) then
      TextThrowsOnlyNotPrimitive(p.value);
      Text(p.value)
    else Normal(fallback)
  }

  /** Every conversion to text either succeeds or throws the not-a-primitive TypeError. */
  lemma {:induction false} TextThrowsOnlyNotPrimitive(v: Json)
    ensures Text(v).Throw? ==> Text(v).message == NotPrimitiveMessage
    decreases v, 1
  {
    if v.JArr? {
      JoinedThrowsOnlyNotPrimitive(v.items);
    }
  }

  lemma {:induction false} JoinedThrowsOnlyNotPrimitive(items: seq<Json>)
    ensures Joined(items).Throw? ==> Joined(items).message == NotPrimitiveMessage
    decreases items, 0
  {
    if items != [] {
      if !items[0].JNull? {
        TextThrowsOnlyNotPrimitive(items[0]);
      }
      if |items| > 1 {
        JoinedThrowsOnlyNotPrimitive(items[1..]);
      }
    }
  }
}
