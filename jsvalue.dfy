/** The JavaScript values the provider responses and the canonical records are
    made of. JSON bodies arrive already parsed; numbers are integers. */
module JsValues {
  import opened Text

  datatype JsValue =
    | Undefined
    | Null
    | Bool(b: bool)
    | Num(n: int)
    | Str(s: string)
    | Arr(items: seq<JsValue>)
    | Obj(fields: map<string, JsValue>)

  /** `null` and `undefined`: reading a property of either throws a TypeError. */
  predicate IsNullish(v: JsValue)
  {
    v.Undefined? || v.Null?
  }

  /** JavaScript truthiness (`if (v)`, `!v`, `v && …`, `v || …`). */
  predicate Truthy(v: JsValue)
  {
    match v
    case Undefined => false
    case Null => false
    case Bool(b) => b
    case Num(n) => n != 0
    case Str(s) => s != ""
    case Arr(_) => true
    case Obj(_) => true
  }

  /** `a || b` */
  function Or(a: JsValue, b: JsValue): JsValue
  {
    if Truthy(a) then a else b
  }

  /** `v.key` for one of the data keys the downloader reads (none of them is
      inherited from a prototype). */
  function Get(v: JsValue, key: string): JsValue
    requires !IsNullish(v)
  {
    match v
    case Obj(m) => if key in m then m[key] else Undefined
    case _ => Undefined
  }

  /** `String(v)`, as template literals and `parseInt` apply it: a string is
      itself, a number is written in decimal, an array joins its elements with
      commas. Only meaningful where `Stringable(v)` holds. */
  function ToJsString(v: JsValue): string
    decreases v, 1
  {
    match v
    case Undefined => "undefined"
    case Null => "null"
    case Bool(b) => if b then "true" else "false"
    case Num(n) => IntToString(n)
    case Str(s) => s
    case Arr(_) => JoinFrom(v, 0)
    case Obj(_) => "[object Object]"
  }

  /** A string converts to itself, a number to decimal digits that read back
      as its magnitude (after a minus sign when it is negative), and an empty
      array to the empty string. */
  lemma ToJsStringCases(v: JsValue)
    ensures var s := ToJsString(v);
      && (v.Str? ==> s == v.s)
      && (v.Num? && v.n >= 0 ==> AllRadixDigits(s, 10) && DigitsValue(s, 10) == v.n)
      && (v.Num? && v.n < 0 ==> |s| >= 2 && s[0] == '-' && AllRadixDigits(s[1..], 10) && DigitsValue(s[1..], 10) == -v.n)
      && (v.Arr? && v.items == [] ==> s == "")
  {
    if v.Num? {
      IntToStringValue(v.n);
    }
  }

  /** `String(v)` does not throw. A parsed JSON value is never callable, so
      an object with an own `toString` key has no callable `toString`, and its
      inherited `valueOf` returns the object itself: the conversion throws a
      TypeError. An array converts each element that is not null or
      undefined. `ToJsString` is the result wherever this holds. */
  predicate Stringable(v: JsValue)
    decreases v, 1
  {
    match v
    case Obj(m) => "toString" !in m
    case Arr(_) => StringableFrom(v, 0)
    case _ => true
  }

  /** The elements from index `k` on convert without throwing. */
  predicate StringableFrom(arr: JsValue, k: nat)
    requires arr.Arr?
    decreases arr, 0, |arr.items| - k
  {
    k >= |arr.items|
    || ((IsNullish(arr.items[k]) || Stringable(arr.items[k])) && StringableFrom(arr, k + 1))
  }

  /** Which values convert: every primitive, an object exactly when it has no
      own `toString` key, an array exactly when each of its elements is
      nullish or converts. */
  lemma StringableCases(v: JsValue)
    ensures !v.Obj? && !v.Arr? ==> Stringable(v)
    ensures v.Obj? ==> (Stringable(v) <==> "toString" !in v.fields)
    ensures v.Arr? ==> (Stringable(v) <==>
      forall i :: 0 <= i < |v.items| ==> IsNullish(v.items[i]) || Stringable(v.items[i]))
  {
    if v.Arr? {
      StringableFromAll(v, 0);
    }
  }

  lemma {:induction false} StringableFromAll(arr: JsValue, k: nat)
    requires arr.Arr?
    ensures StringableFrom(arr, k) <==>
      forall i :: k <= i < |arr.items| ==> IsNullish(arr.items[i]) || Stringable(arr.items[i])
    decreases |arr.items| - k
  {
    if k < |arr.items| {
      StringableFromAll(arr, k + 1);
    }
  }

  /** `Array.prototype.join(",")` over the elements from index `k` on; a
      nullish element renders as the empty string. */
  function JoinFrom(arr: JsValue, k: nat): string
    requires arr.Arr?
    decreases arr, 0, |arr.items| - k
  {
    if k >= |arr.items| then ""
    else
      var item := arr.items[k];
      var head := if IsNullish(item) then "" else ToJsString(item);
      if k + 1 == |arr.items| then head else head + "," + JoinFrom(arr, k + 1)
  }
}
