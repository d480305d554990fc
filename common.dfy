/** Shared value types: optional values, error-or-value results, JSON
    payloads as the browser sees them, and exact ratios standing in for the
    floating-point quotients of the statistics service. */
module Common {

  datatype Option<+T> = None | Some(value: T) {
    function GetOr(default: T): T {
      match this
      case Some(v) => v
      case None => default
    }
  }

  datatype Result<+T, +E> = Ok(value: T) | Err(error: E)

  /** An exact quotient num / den; the service computes these as floats. */
  datatype Ratio = Ratio(num: int, den: int)

  const Zero: Ratio := Ratio(0, 1)

  /** `num / den` when den is positive, otherwise the service's 0.0. */
  function Quotient(num: int, den: int): (r: Ratio)
    ensures r.den > 0
    ensures den > 0 ==> r.num * den == num * r.den
    ensures den <= 0 ==> r.num == 0
  {
    if den > 0 then Ratio(num, den) else Zero
  }

  /** A parsed JSON value. Objects keep their members in document order,
      which is the order `Object.entries` reports for non-numeric keys. */
  datatype Json =
    | JNull
    | JBool(b: bool)
    | JNum(n: int)
    | JStr(s: string)
    | JArray(items: seq<Json>)
    | JObject(members: seq<(string, Json)>)

  /** Property access `v.key`: None stands for JavaScript's `undefined`. */
  function Field(v: Json, key: string): (r: Option<Json>)
    ensures r.Some? ==> v.JObject? && exists i :: 0 <= i < |v.members| && v.members[i] == (key, r.value)
    ensures v.JObject? && (exists i :: 0 <= i < |v.members| && v.members[i].0 == key) ==> r.Some?
    ensures !v.JObject? ==> r.None?
  {
    if v.JObject? then Lookup(v.members, key) else None
  }

  /** The last member named `key`: JSON.parse keeps one member per name, the
      one written last. */
  function Lookup(ms: seq<(string, Json)>, key: string): (r: Option<Json>)
    ensures r.Some? <==> exists i :: 0 <= i < |ms| && ms[i].0 == key
    ensures r.Some? ==> exists i :: 0 <= i < |ms| && ms[i] == (key, r.value) && NoneNamedAfter(ms, i, key)
  {
    if |ms| == 0 then None
    else
      var n := |ms| - 1;
      if ms[n].0 == key then Some(ms[n].1)
      else
        var r := Lookup(ms[..n], key);
        assert forall i :: 0 <= i < n ==> ms[..n][i] == ms[i];
        assert forall i :: 0 <= i < n && NoneNamedAfter(ms[..n], i, key) ==> NoneNamedAfter(ms, i, key);
        r
  }

  /** No member after the `i`th is named `key`. */
  predicate NoneNamedAfter(ms: seq<(string, Json)>, i: int, key: string) {
    forall j :: 0 <= j < |ms| && i < j ==> ms[j].0 != key
  }

  /** JavaScript truthiness of a JSON value. */
  predicate Truthy(v: Json) {
    match v
    case JNull => false
    case JBool(b) => b
    case JNum(n) => n != 0
    case JStr(s) => s != ""
    case JArray(_) => true
    case JObject(_) => true
  }

  /** Truthiness of a possibly-undefined value (`undefined` is falsy). */
  predicate TruthyOpt(v: Option<Json>) {
    v.Some? && Truthy(v.value)
  }

  /** `v || fallback` */
  function OrElse(v: Option<Json>, fallback: Json): (r: Json)
    ensures TruthyOpt(v) ==> r == v.value
    ensures !TruthyOpt(v) ==> r == fallback
  {
    if TruthyOpt(v) then v.value else fallback
  }

  /** `v ?? fallback`: only null and undefined are replaced. */
  function Nullish(v: Option<Json>, fallback: Json): (r: Json)
    ensures v.Some? && v.value != JNull ==> r == v.value
    ensures v.None? || v.value == JNull ==> r == fallback
  {
    if v.Some? && v.value != JNull then v.value else fallback
  }

  /** The numeric value of a field, or None when absent or not a number. */
  function NumField(v: Json, key: string): Option<int> {
    match Field(v, key)
    case Some(JNum(n)) => Some(n)
    case _ => None
  }

  function Sum(s: seq<int>): int {
    if |s| == 0 then 0 else Sum(s[..|s| - 1]) + s[|s| - 1]
  }

  function Max(a: int, b: int): int {
    if a >= b then a else b
  }

  function Min(a: int, b: int): int {
    if a <= b then a else b
  }

  /** A prefix one element longer is the prefix and that element. */
  lemma TakeNext<T>(s: seq<T>, i: nat)
    requires i < |s|
    ensures s[..i + 1] == s[..i] + [s[i]]
  {
  }

  lemma TakeTake<T>(s: seq<T>, i: nat)
    requires i < |s|
    ensures s[..i + 1][..i] == s[..i]
  {
  }

  lemma TakeAll<T>(s: seq<T>)
    ensures s[..|s|] == s
  {
  }

  /** Sum(s) after one element is increased by d. */
  lemma {:induction false} SumUpdate(s: seq<int>, i: nat, d: int)
    requires i < |s|
    ensures Sum(s[i := s[i] + d]) == Sum(s) + d
  {
    var t := s[i := s[i] + d];
    if i == |s| - 1 {
      assert t[..|t| - 1] == s[..|s| - 1];
    } else {
      assert t[..|t| - 1] == s[..|s| - 1][i := s[i] + d];
      SumUpdate(s[..|s| - 1], i, d);
    }
  }

  /** A sequence of n zeros. */
  function Zeros(n: nat): (r: seq<int>)
    ensures |r| == n && Sum(r) == 0
    ensures forall i :: 0 <= i < n ==> r[i] == 0
  {
    if n == 0 then [] else
      var r := Zeros(n - 1) + [0];
      assert r[..n - 1] == Zeros(n - 1);
      r
  }
}
