/**
 * The slice of JavaScript value semantics that the request handlers depend on:
 * truthiness, property access, `String(v)`, `parseInt(s, 10)`, and the
 * `error.status || fallback` idiom of every catch block.
 */
module Js {

  datatype Option<+T> = None | Some(value: T)

  /** A number as the handlers see it: `NaN` or an integer (`-0` is folded into `0`). */
  datatype JsNumber = NaN | Int(n: int)

  /**
   * A JSON-like JavaScript value. `undefined` is never a JsValue: an absent
   * property or argument is `None` of `Option<JsValue>`.
   */
  datatype JsValue =
    | Null
    | Bool(b: bool)
    | Num(num: JsNumber)
    | Str(s: string)
    | Arr(items: seq<JsValue>)
    | Obj(fields: map<string, JsValue>)

  /** An object literal `{ k: v, ... }` whose values are all defined. */
  type Record = map<string, JsValue>

  /** `!!v`, with `None` standing for `undefined`. */
  predicate Truthy(v: Option<JsValue>)
  {
    match v
    case None => false
    case Some(Null) => false
    case Some(Bool(b)) => b
    case Some(Num(x)) => x.Int? && x.n != 0
    case Some(Str(s)) => s != ""
    case Some(Arr(_)) => true
    case Some(Obj(_)) => true
  }

  /** `!!s` for a value that is a string or `undefined` (a header, a query parameter). */
  predicate Present(s: Option<string>)
  {
    s.Some? && s.value != ""
  }

  /** `v[key]` on an object; any other value has none of the keys used here. */
  function Prop(v: JsValue, key: string): Option<JsValue>
  {
    if v.Obj? && key in v.fields then Some(v.fields[key]) else None
  }

  /** `v[key] = x`; only objects carry the assignment. */
  function SetProp(v: JsValue, key: string, x: JsValue): (r: JsValue)
    ensures v.Obj? ==> r.Obj? && r.fields.Keys == v.fields.Keys + {key}
    ensures v.Obj? ==> Prop(r, key) == Some(x)
    ensures forall k :: k != key ==> Prop(r, k) == Prop(v, k)
  {
    if v.Obj? then Obj(v.fields[key := x]) else v
  }

  /** `v !== undefined && v !== null`. */
  predicate Defined(v: Option<JsValue>)
  {
    v.Some? && v.value != Null
  }

  /** `fields.every((f) => v[f] !== undefined && v[f] !== null)`. */
  function EveryDefined(fields: seq<string>, v: JsValue): (ok: bool)
    ensures ok <==> forall f :: f in fields ==> Defined(Prop(v, f))
    decreases |fields|
  {
    fields == [] || (Defined(Prop(v, fields[0])) && EveryDefined(fields[1..], v))
  }

  /** `v.length === 0` for a value the handlers already know to be truthy. */
  predicate LengthIsZero(v: JsValue)
  {
    (v.Arr? && |v.items| == 0) || Prop(v, "length") == Some(Num(Int(0)))
  }

  /** `a || b` where `a` is an optional value and `b` the fallback object `{}`. */
  function OrEmptyObject(v: Option<JsValue>): (r: JsValue)
    ensures Truthy(v) ==> r == v.value
    ensures !Truthy(v) ==> r == Obj(map[])
  {
    if Truthy(v) then v.value else Obj(map[])
  }

  // ---------------------------------------------------------------------------
  // Decimal digits
  // ---------------------------------------------------------------------------

  predicate IsDigit(c: char)
  {
    '0' <= c <= '9'
  }

  predicate AllDigits(s: string)
  {
    forall i :: 0 <= i < |s| ==> IsDigit(s[i])
  }

  function DigitChar(d: nat): char
    requires d < 10
  {
    ('0' as int + d) as char
  }

  function DigitOf(c: char): nat
    requires IsDigit(c)
  {
    (c as int - '0' as int) as nat
  }

  /** The decimal numeral of a natural number, no leading zeros. */
  function Numeral(n: nat): (s: string)
    ensures |s| > 0 && AllDigits(s)
    decreases n
  {
    if n < 10 then [DigitChar(n)] else Numeral(n / 10) + [DigitChar(n % 10)]
  }

  /** `String(n)` for an integer: `-` then the numeral of its magnitude. */
  function DecimalString(n: int): string
  {
    if n < 0 then "-" + Numeral(-n) else Numeral(n)
  }

  /** The value of a run of decimal digits, most significant first. */
  function DigitsValue(z: string): nat
    requires AllDigits(z)
    decreases |z|
  {
    if z == [] then 0 else DigitsValue(z[..|z| - 1]) * 10 + DigitOf(z[|z| - 1])
  }

  // ---------------------------------------------------------------------------
  // String(v)
  // ---------------------------------------------------------------------------

  /** `String(v)`, with `None` standing for `undefined`. */
  function ToJsString(v: Option<JsValue>): string
  {
    match v
    case None => "undefined"
    case Some(x) => ValueString(x)
  }

  function ValueString(v: JsValue): string
  {
    match v
    case Null => "null"
    case Bool(b) => if b then "true" else "false"
    case Num(NaN) => "NaN"
    case Num(Int(n)) => DecimalString(n)
    case Str(s) => s
    case Arr(items) => JoinItems(items)
    case Obj(_) => "[object Object]"
  }

  /** `items.join(",")`, where `null` elements print as the empty string. */
  function JoinItems(items: seq<JsValue>): string
    decreases items
  {
    if items == [] then ""
    else
      var head := if items[0] == Null then "" else ValueString(items[0]);
      if |items| == 1 then head else head + "," + JoinItems(items[1..])
  }

  // ---------------------------------------------------------------------------
  // parseInt(s, 10)
  // ---------------------------------------------------------------------------

  /** The characters `parseInt` skips at the front: white space and line terminators. */
  predicate IsJsWhiteSpace(c: char)
  {
    c == '\t' || c == '\U{000B}' || c == '\U{000C}' || c == ' ' || c == '\U{00A0}' || c == '\U{FEFF}'
    || c == '\U{1680}' || ('\U{2000}' <= c <= '\U{200A}') || c == '\U{202F}' || c == '\U{205F}'
    || c == '\U{3000}' || c == '\n' || c == '\r' || c == '\U{2028}' || c == '\U{2029}'
  }

  function TrimStart(s: string): (t: string)
    ensures |t| <= |s| && t == s[|s| - |t|..]
    ensures t != [] ==> !IsJsWhiteSpace(t[0])
    decreases |s|
  {
    if s != [] && IsJsWhiteSpace(s[0]) then TrimStart(s[1..]) else s
  }

  /** The longest prefix of `s` made of decimal digits. */
  function DigitPrefix(s: string): (z: string)
    ensures AllDigits(z) && |z| <= |s| && z == s[..|z|]
    decreases |s|
  {
    if s == [] || !IsDigit(s[0]) then [] else [s[0]] + DigitPrefix(s[1..])
  }

  /**
   * `parseInt(s, 10)`: skip leading white space, take one optional sign, then
   * the longest run of decimal digits; no digits at all is `NaN`.
   */
  function ParseInt(s: string): JsNumber
  {
    ParseSigned(TrimStart(s))
  }

  /** `parseInt` after the white space: an optional sign, then the digits. */
  function ParseSigned(t: string): JsNumber
  {
    if t != [] && t[0] == '-' then Negate(ParseDigits(t[1..]))
    else if t != [] && t[0] == '+' then ParseDigits(t[1..])
    else ParseDigits(t)
  }

  /** The value of the longest digit prefix, `NaN` when there is none. */
  function ParseDigits(u: string): (r: JsNumber)
    ensures r.NaN? <==> u == [] || !IsDigit(u[0])
  {
    var z := DigitPrefix(u);
    if z == [] then NaN else Int(DigitsValue(z))
  }

  function Negate(x: JsNumber): JsNumber
  {
    if x.NaN? then NaN else Int(0 - x.n)
  }

  lemma TrimStartKeeps(s: string)
    requires s == [] || !IsJsWhiteSpace(s[0])
    ensures TrimStart(s) == s
  {
  }

  lemma {:induction false} DigitPrefixOfDigits(d: string, rest: string)
    requires AllDigits(d)
    requires rest == [] || !IsDigit(rest[0])
    ensures DigitPrefix(d + rest) == d
    decreases |d|
  {
    if d == [] {
      assert d + rest == rest;
    } else {
      assert (d + rest)[1..] == d[1..] + rest;
      DigitPrefixOfDigits(d[1..], rest);
      assert [d[0]] + d[1..] == d;
    }
  }

  lemma {:induction false} DigitsValueOfNumeral(n: nat)
    ensures DigitsValue(Numeral(n)) == n
    decreases n
  {
    if n >= 10 {
      var s := Numeral(n / 10) + [DigitChar(n % 10)];
      assert s[..|s| - 1] == Numeral(n / 10);
      DigitsValueOfNumeral(n / 10);
    }
  }

  /**
   * A run of digits followed by anything that is not a digit parses to the
   * value of the digits: `parseInt("12abc", 10) == 12`.
   */
  lemma ParseIntDigitsThenJunk(d: string, rest: string)
    requires d != [] && AllDigits(d)
    requires rest == [] || !IsDigit(rest[0])
    ensures ParseInt(d + rest) == Int(DigitsValue(d))
  {
    var s := d + rest;
    assert s[0] == d[0] && IsDigit(s[0]);
    TrimStartKeeps(s);
    DigitPrefixOfDigits(d, rest);
    assert ParseSigned(s) == ParseDigits(s);
  }

  /** A non-empty run of digits never parses to `NaN`. */
  lemma ParseIntOfDigits(d: string)
    requires d != [] && AllDigits(d)
    ensures ParseInt(d) == Int(DigitsValue(d))
  {
    ParseIntDigitsThenJunk(d, []);
    assert d + [] == d;
  }

  /** A string with no digit after the white space and sign parses to `NaN`. */
  lemma ParseIntNoDigits(s: string)
    requires forall i :: 0 <= i < |s| ==> !IsDigit(s[i])
    ensures ParseInt(s) == NaN
  {
    var t := TrimStart(s);
    if t != [] {
      assert t[0] == s[|s| - |t|];
      if |t| > 1 {
        assert t[1] == s[|s| - |t| + 1];
      }
    }
  }

  /** `parseInt(String(n), 10) == n` for every integer `n`. */
  lemma ParseIntOfDecimalString(n: int)
    ensures ParseInt(DecimalString(n)) == Int(n)
  {
    if n < 0 {
      ParseIntOfNegativeNumeral(-n);
    } else {
      ParseIntOfNumeral(n);
    }
  }

  lemma ParseIntOfNumeral(m: nat)
    ensures ParseInt(Numeral(m)) == Int(m)
  {
    ParseIntOfDigits(Numeral(m));
    DigitsValueOfNumeral(m);
  }

  lemma ParseIntOfNegativeNumeral(m: nat)
    ensures ParseInt("-" + Numeral(m)) == Int(0 - m)
  {
    var d := Numeral(m);
    var s := "-" + d;
    assert s[0] == '-' && s[1..] == d;
    TrimStartKeeps(s);
    assert ParseSigned(s) == Negate(ParseDigits(d));
    DigitPrefixOfDigits(d, []);
    assert d + [] == d;
    DigitsValueOfNumeral(m);
  }

  // ---------------------------------------------------------------------------
  // String(parseInt(text, 10))
  // ---------------------------------------------------------------------------

  /**
   * `String(parseInt(text, 10))` when that is not `NaN`: the key the
   * book and library handlers pass to their services for the query text `text`.
   */
  function IdKey(text: string): Option<string>
  {
    var id := ParseInt(text);
    if id.NaN? then None else Some(DecimalString(id.n))
  }


  /** The decimal text of an integer is its own key. */
  lemma IdKeyOfDecimal(n: int)
    ensures IdKey(DecimalString(n)) == Some(DecimalString(n))
  {
    ParseIntOfDecimalString(n);
  }

  /** Normalising a key again changes nothing. */
  lemma IdKeyIdempotent(text: string)
    ensures IdKey(text).Some? ==> IdKey(IdKey(text).value) == IdKey(text)
  {
    if IdKey(text).Some? {
      IdKeyOfDecimal(ParseInt(text).n);
    }
  }

  /** Leading digits decide the key; what follows them is dropped: `"007abc"` looks up `"7"`. */
  lemma IdKeyDigitPrefix(digits: string, rest: string)
    requires digits != [] && AllDigits(digits) && (rest == [] || !IsDigit(rest[0]))
    ensures IdKey(digits + rest) == Some(DecimalString(DigitsValue(digits)))
  {
    ParseIntDigitsThenJunk(digits, rest);
  }

  /** Text without any digit has no key. */
  lemma IdKeyNoDigits(text: string)
    requires forall i :: 0 <= i < |text| ==> !IsDigit(text[i])
    ensures IdKey(text) == None
  {
    ParseIntNoDigits(text);
  }

  // ---------------------------------------------------------------------------
  // Thrown errors
  // ---------------------------------------------------------------------------

  /** An `Error` reaching a catch block: its `status` property and its `message`. */
  datatype Thrown = Thrown(status: Option<int>, message: string)

  /** The outcome of awaiting a collaborator: it returns a value or throws. */
  datatype Attempt<+T> = Returns(value: T) | Throws(error: Thrown)

  /** `error.status || fallback`. */
  function StatusOr(e: Thrown, fallback: int): (r: int)
    ensures e.status.Some? && e.status.value != 0 ==> r == e.status.value
    ensures e.status == None || e.status == Some(0) ==> r == fallback
  {
    if e.status.Some? && e.status.value != 0 then e.status.value else fallback
  }

  /** `error.message || 'An unexpected error occurred'`. */
  function MessageOrDefault(e: Thrown): string
  {
    if e.message != "" then e.message else "An unexpected error occurred"
  }
}
