/**
 * The few JavaScript value semantics the notification channel relies on:
 * truthiness (`if (x)`), string conversion (`'prefix' + x`) and reading the
 * `type` property of whatever `JSON.parse` returned.
 */
module JsValues {

  datatype Option<+T> = None | Some(value: T)

  /** A JavaScript value. Numbers are restricted to integers. */
  datatype JsValue =
    | Undefined
    | Null
    | Bool(b: bool)
    | Num(n: int)
    | Str(s: string)
    | Array(items: seq<JsValue>)
    | Object(fields: map<string, JsValue>)

  predicate Nullish(v: JsValue) {
    v.Undefined? || v.Null?
  }

  /** JavaScript's ToBoolean: the value an `if` condition sees. */
  predicate Truthy(v: JsValue)
    ensures Truthy(v) <==> v !in {Undefined, Null, Bool(false), Num(0), Str("")}
  {
    match v
    case Undefined => false
    case Null => false
    case Bool(b) => b
    case Num(n) => n != 0
    case Str(s) => s != ""
    case Array(_) => true
    case Object(_) => true
  }

  function DigitChar(d: nat): (c: char)
    requires d < 10
    ensures '0' <= c <= '9'
  {
    "0123456789"[d]
  }

  function DigitValue(c: char): (d: nat)
    requires '0' <= c <= '9'
    ensures d < 10 && DigitChar(d) == c
  {
    (c - '0') as nat
  }

  predicate IsDecimal(s: string) {
    |s| > 0 && forall i :: 0 <= i < |s| ==> '0' <= s[i] <= '9'
  }

  /** Shortest decimal spelling of a natural number, as Number.prototype.toString gives it. */
  function NaturalToString(n: nat): (s: string)
    ensures IsDecimal(s)
    ensures n < 10 <==> |s| == 1
    ensures |s| == 1 || s[0] != '0'
    decreases n
  {
    if n < 10 then [DigitChar(n)] else NaturalToString(n / 10) + [DigitChar(n % 10)]
  }

  /** The number a decimal digit string denotes (the server-side reading of a query value). */
  function DecimalValue(s: string): (n: nat)
    requires forall i :: 0 <= i < |s| ==> '0' <= s[i] <= '9'
    decreases |s|
  {
    if s == [] then 0 else DecimalValue(s[..|s| - 1]) * 10 + DigitValue(s[|s| - 1])
  }

  /** Printing a natural number and reading it back gives the number. */
  lemma {:induction false} DecimalRoundTrip(n: nat)
    ensures DecimalValue(NaturalToString(n)) == n
    decreases n
  {
    var s := NaturalToString(n);
    if n >= 10 {
      DecimalRoundTrip(n / 10);
      assert s[..|s| - 1] == NaturalToString(n / 10);
      assert DigitValue(s[|s| - 1]) == n % 10;
    } else {
      assert DigitValue(s[0]) == n;
    }
  }

  /** ToString of an integer Number. */
  function NumberToString(n: int): (s: string)
    ensures n >= 0 ==> IsDecimal(s)
    ensures n < 0 ==> |s| >= 2 && s[0] == '-' && IsDecimal(s[1..])
  {
    if n < 0 then "-" + NaturalToString(-n) else NaturalToString(n)
  }

  /**
   * Array.prototype.join over the converted elements: None as soon as one
   * element's conversion threw.
   */
  function JoinConverted(parts: seq<Option<string>>, sep: string): (r: Option<string>)
    ensures r.None? <==> exists i :: 0 <= i < |parts| && parts[i].None?
    ensures parts == [] ==> r == Some("")
    decreases |parts|
  {
    if parts == [] then Some("")
    else if parts[0].None? then None
    else if |parts| == 1 then parts[0]
    else
      var rest := JoinConverted(parts[1..], sep);
      assert forall i :: 0 <= i < |parts[1..]| ==> parts[1..][i] == parts[i + 1];
      if rest.None? then None else Some(parts[0].value + sep + rest.value)
  }

  /**
   * ToString as `+` with a string operand applies it, None when it throws a
   * TypeError. Arrays are joined with commas (null and undefined elements
   * become empty). An object prints as "[object Object]" unless it has its
   * own `toString` key: a value parsed from JSON is never callable, so
   * ToPrimitive finds no usable method and throws.
   */
  function ToStr(v: JsValue): (r: Option<string>)
    ensures !(v.Array? || v.Object?) ==> r.Some?
    ensures v.Str? ==> r == Some(v.s)
    ensures v.Object? ==> (r.None? <==> "toString" in v.fields)
    ensures v.Object? && r.Some? ==> r.value == "[object Object]"
    decreases v
  {
    match v
    case Undefined => Some("undefined")
    case Null => Some("null")
    case Bool(b) => Some(if b then "true" else "false")
    case Num(n) => Some(NumberToString(n))
    case Str(s) => Some(s)
    case Array(items) =>
      JoinConverted(seq(|items|, i requires 0 <= i < |items| =>
                      if Nullish(items[i]) then Some("") else ToStr(items[i])), ",")
    case Object(fields) => if "toString" in fields then None else Some("[object Object]")
  }

  /** Converting an array throws exactly when converting one of its non-null elements throws. */
  lemma ArrayToStrThrows(items: seq<JsValue>)
    ensures ToStr(Array(items)).None?
            <==> exists i :: 0 <= i < |items| && !Nullish(items[i]) && ToStr(items[i]).None?
  {
    var v := Array(items);
    var parts := seq(|items|, i requires 0 <= i < |items| =>
                      if Nullish(items[i]) then Some("") else ToStr(items[i]));
    assert ToStr(v) == JoinConverted(parts, ",");
    assert forall i :: 0 <= i < |items| ==> (parts[i].None? <==> !Nullish(items[i]) && ToStr(items[i]).None?);
  }

  /**
   * Reading `v.type`: None when the read throws a TypeError (v is null or
   * undefined); otherwise the property, undefined when v has none.
   */
  function TypeField(v: JsValue): (r: Option<JsValue>)
    ensures r.None? <==> Nullish(v)
    ensures v.Object? && "type" in v.fields ==> r == Some(v.fields["type"])
    ensures r.Some? && !(v.Object? && "type" in v.fields) ==> r == Some(Undefined)
  {
    match v
    case Undefined => None
    case Null => None
    case Object(fields) => Some(if "type" in fields then fields["type"] else Undefined)
    case _ => Some(Undefined)
  }
}
