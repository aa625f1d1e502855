/** The fragment of JavaScript the gateway's decisions depend on: values as
    JSON decoding produces them (plus `undefined`), truthiness, `||` and `??`,
    property reads, template-literal interpolation of a possibly absent string,
    `String.prototype.includes`, the decimal numeral of a status code,
    `Object.fromEntries`, and Error objects with `String(err?.message || err)`. */
module Js {

  datatype Option<+T> = None | Some(value: T)

  /** A JavaScript value as JSON decoding yields it, plus `undefined`.
      Numbers are reals, so the infinities, NaN and `-0` are not values here;
      the only thing the gateway asks of a number is its truthiness, and
      those agree with it (the infinities are truthy, `-0` falsy like 0). */
  datatype JsVal =
    | Undefined
    | Null
    | Bool(b: bool)
    | Num(n: real)
    | Str(s: string)
    | Arr(items: seq<JsVal>)
    | Obj(fields: map<string, JsVal>)

  /** An Error object, by its `name` ("Error", "TypeError", ...) and `message`. */
  datatype JsError = JsError(name: string, message: string)

  /** How a promise settles, or how a call that may throw ends. */
  datatype Outcome<+T> = Ok(value: T) | Err(error: JsError)

  /** `throw new Error(message)` */
  function Fail<T>(message: string): Outcome<T> {
    Err(JsError("Error", message))
  }

  /** JavaScript's ToBoolean on the values above. */
  predicate Truthy(v: JsVal) {
    match v
    case Undefined => false
    case Null => false
    case Bool(b) => b
    case Num(n) => n != 0.0
    case Str(s) => s != ""
    case Arr(_) => true
    case Obj(_) => true
  }

  /** `a || b` */
  function Or(a: JsVal, b: JsVal): JsVal {
    if Truthy(a) then a else b
  }

  /** `a ?? b` */
  function Nullish(a: JsVal, b: JsVal): JsVal {
    if a == Undefined || a == Null then b else a
  }

  /** `||` replaces every falsy operand; `??` only `undefined` and `null`, so
      `false`, `0` and `""` survive `??` but not `||`. */
  lemma OrReplacesWhatNullishKeeps(a: JsVal, b: JsVal)
    ensures Or(a, b) == a ==> Nullish(a, b) == a
    ensures Nullish(a, b) != a <==> (a == Undefined || a == Null) && b != a
    ensures a in {Bool(false), Num(0.0), Str("")} ==> Nullish(a, b) == a && Or(a, b) == b
  {
  }

  /** `v.key` (and `v?.key`) for a value that is not `null` or `undefined`,
      or under optional chaining: the own property of an object, `undefined`
      otherwise. Only keys that are not members of any built-in prototype
      are read by the gateway, so no inherited property is ever found. */
  function Get(v: JsVal, key: string): JsVal {
    if v.Obj? && key in v.fields then v.fields[key] else Undefined
  }

  /** An environment binding, which is a string or absent, as a value. */
  function OfBinding(o: Option<string>): JsVal {
    match o
    case None => Undefined
    case Some(s) => Str(s)
  }

  /** `${x}` for a binding `x`: an absent one is written "undefined". */
  function Interpolate(o: Option<string>): string {
    match o
    case None => "undefined"
    case Some(s) => s
  }

  /** `!!x` for a binding `x`: present and not the empty string. */
  predicate IsSet(o: Option<string>) {
    Truthy(OfBinding(o))
  }

  lemma IsSetMeansNonEmpty(o: Option<string>)
    ensures IsSet(o) <==> o.Some? && o.value != ""
  {
  }

  /** `sub` occurs in `s` starting at index `i`. */
  predicate OccursAt(s: string, sub: string, i: int) {
    0 <= i <= |s| - |sub| && s[i..i + |sub|] == sub
  }

  /** `s.includes(sub)` */
  predicate Contains(s: string, sub: string) {
    exists i | 0 <= i <= |s| - |sub| :: OccursAt(s, sub, i)
  }

  lemma ContainsInfix(prefix: string, sub: string, suffix: string)
    ensures Contains(prefix + sub + suffix, sub)
  {
    var s := prefix + sub + suffix;
    assert OccursAt(s, sub, |prefix|);
  }

  function DigitChar(d: nat): (c: char)
    requires d < 10
    ensures '0' <= c <= '9'
  {
    (48 + d) as char
  }

  predicate IsDigits(s: string) {
    forall i :: 0 <= i < |s| ==> '0' <= s[i] <= '9'
  }

  /** `${n}` for a non-negative integral number: its decimal numeral, with no
      leading zero. */
  function Decimal(n: nat): (r: string)
    ensures |r| >= 1 && IsDigits(r)
    ensures |r| > 1 ==> r[0] != '0'
    decreases n
  {
    if n < 10 then [DigitChar(n)] else Decimal(n / 10) + [DigitChar(n % 10)]
  }

  /** The number a decimal numeral denotes. */
  function DecimalValue(s: string): nat
    requires IsDigits(s)
  {
    if s == [] then 0 else DecimalValue(s[..|s| - 1]) * 10 + (s[|s| - 1] as int - 48)
  }

  /** The numeral written for `n` reads back as `n`: no two status codes are
      written alike. */
  lemma {:induction false} DecimalRoundTrip(n: nat)
    ensures DecimalValue(Decimal(n)) == n
    decreases n
  {
    var d := Decimal(n);
    if n >= 10 {
      DecimalRoundTrip(n / 10);
      assert d[..|d| - 1] == Decimal(n / 10);
    }
  }

  /** `Object.fromEntries(entries)` for string-valued entries, which are
      added in order, each overwriting any earlier one with the same key. */
  function FromEntries(entries: seq<(string, string)>): map<string, string> {
    if entries == [] then map[]
    else
      var last := entries[|entries| - 1];
      FromEntries(entries[..|entries| - 1])[last.0 := last.1]
  }

  /** The keys of `Object.fromEntries(entries)` are exactly the entries' keys. */
  lemma {:induction false} FromEntriesKeys(entries: seq<(string, string)>, k: string)
    ensures k in FromEntries(entries) <==> exists i :: 0 <= i < |entries| && entries[i].0 == k
  {
    if entries != [] {
      var init := entries[..|entries| - 1];
      FromEntriesKeys(init, k);
      if k in FromEntries(init) {
        var i :| 0 <= i < |init| && init[i].0 == k;
        assert entries[i].0 == k;
      }
      if exists i :: 0 <= i < |entries| && entries[i].0 == k {
        var i :| 0 <= i < |entries| && entries[i].0 == k;
        if i < |init| {
          assert init[i].0 == k;
        }
      }
    }
  }

  /** The last entry with a given key decides that key's value. */
  lemma {:induction false} FromEntriesLastWins(entries: seq<(string, string)>, i: nat)
    requires i < |entries|
    requires forall j :: i < j < |entries| ==> entries[j].0 != entries[i].0
    ensures entries[i].0 in FromEntries(entries)
    ensures FromEntries(entries)[entries[i].0] == entries[i].1
  {
    var init := entries[..|entries| - 1];
    if i < |init| {
      assert init[i] == entries[i];
      forall j | i < j < |init| ensures init[j].0 != init[i].0 {
        assert init[j] == entries[j];
      }
      FromEntriesLastWins(init, i);
    }
  }

  /** `String(err?.message || err)` for an Error object: its message, or, when
      that is empty, what `Error.prototype.toString` gives, which is its name. */
  function ErrorText(e: JsError): (r: string)
    ensures r == "" <==> e.message == "" && e.name == ""
  {
    if e.message != "" then e.message else e.name
  }

  /** An error thrown as `new Error(m)` with a non-empty `m` is shown as `m`. */
  lemma FailShownAsMessage<T>(m: string)
    requires m != ""
    ensures Fail<T>(m).Err? && ErrorText(Fail<T>(m).error) == m
  {
  }
}
