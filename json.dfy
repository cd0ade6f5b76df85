/** JSON documents as the converters see them: Python's dict/list/str/int/bool/None. */
module Json {

  /** A JSON value. `JNull` is Python's `None`; a dict is a map, so a key that is
      absent and a key mapped to `None` are different documents. */
  datatype Json =
    | JNull
    | JBool(b: bool)
    | JInt(i: int)
    | JStr(s: string)
    | JArr(items: seq<Json>)
    | JObj(fields: map<string, Json>)

  /** Python truthiness: `None`, `False`, `0`, `''`, `[]` and `{}` are false. */
  predicate Truthy(j: Json) {
    match j
    case JNull => false
    case JBool(b) => b
    case JInt(i) => i != 0
    case JStr(s) => s != ""
    case JArr(xs) => xs != []
    case JObj(m) => m != map[]
  }

  /** The values trim_nulls removes: None, empty string, empty list, empty dict. */
  predicate IsEmpty(j: Json) {
    j == JNull || j == JStr("") || j == JArr([]) || j == JObj(map[])
  }

  predicate IsScalar(j: Json) {
    !j.JArr? && !j.JObj?
  }

  /** `d.get(k)` */
  function Get(d: map<string, Json>, k: string): Json {
    if k in d then d[k] else JNull
  }

  /** `d.get(k, default)`: the default only when the key is absent, not when it holds None. */
  function GetOr(d: map<string, Json>, k: string, default: Json): Json {
    if k in d then d[k] else default
  }

  /** Python's `a or b`. */
  function Or(a: Json, b: Json): Json {
    if Truthy(a) then a else b
  }

  predicate AllObjects(xs: seq<Json>) {
    forall i :: 0 <= i < |xs| ==> xs[i].JObj?
  }

  /** Where a Python slice bound lands: negative bounds count from the end, and
      bounds outside the sequence are clamped to it. */
  function SliceBound(i: int, n: nat): (b: nat)
    ensures b <= n
    ensures 0 <= i <= n ==> b == i
  {
    if i < 0 then (if i + n < 0 then 0 else i + n)
    else if i > n then n
    else i
  }

  /** Python's `s[start:end]` (step 1). */
  function PySlice<T>(s: seq<T>, start: int, end: int): (r: seq<T>)
    ensures |r| <= |s|
    ensures 0 <= start <= end <= |s| ==> r == s[start..end]
  {
    var lo, hi := SliceBound(start, |s|), SliceBound(end, |s|);
    if lo < hi then s[lo..hi] else []
  }

  /** Nesting height of a document: scalars are 1, a container is one more than its
      tallest member. Used only to measure recursion. */
  ghost function Height(j: Json): (h: nat)
    ensures h >= 1
    decreases j, 1
  {
    match j
    case JArr(xs) => 1 + MaxHeightFrom(xs, 0)
    case JObj(m) => 1 + MaxHeightOf(m, m.Keys)
    case _ => 1
  }

  ghost function MaxHeightFrom(xs: seq<Json>, i: nat): nat
    decreases JArr(xs), 0, |xs| - i
  {
    if i >= |xs| then 0
    else
      var h, rest := Height(xs[i]), MaxHeightFrom(xs, i + 1);
      if h < rest then rest else h
  }

  ghost function MaxHeightOf(m: map<string, Json>, ks: set<string>): nat
    requires ks <= m.Keys
    decreases JObj(m), 0, ks
  {
    if ks == {} then 0
    else
      var k :| k in ks;
      var h, rest := Height(m[k]), MaxHeightOf(m, ks - {k});
      if h < rest then rest else h
  }

  lemma {:induction false} MaxHeightOfBounds(m: map<string, Json>, ks: set<string>, k: string)
    requires ks <= m.Keys && k in ks
    ensures Height(m[k]) <= MaxHeightOf(m, ks)
    decreases ks
  {
    var k0 :| k0 in ks && MaxHeightOf(m, ks) == (
      var h, rest := Height(m[k0]), MaxHeightOf(m, ks - {k0});
      if h < rest then rest else h);
    if k != k0 {
      MaxHeightOfBounds(m, ks - {k0}, k);
    }
  }

  lemma {:induction false} MaxHeightFromBounds(xs: seq<Json>, i: nat, j: nat)
    requires i <= j < |xs|
    ensures Height(xs[j]) <= MaxHeightFrom(xs, i)
    decreases j - i
  {
    if i < j {
      MaxHeightFromBounds(xs, i + 1, j);
    }
  }

  /** A member of a dict is strictly lower than the dict. */
  lemma FieldIsLower(m: map<string, Json>, k: string)
    requires k in m
    ensures Height(m[k]) < Height(JObj(m))
  {
    MaxHeightOfBounds(m, m.Keys, k);
  }

  /** A member of a list is strictly lower than the list. */
  lemma ItemIsLower(xs: seq<Json>, j: nat)
    requires j < |xs|
    ensures Height(xs[j]) < Height(JArr(xs))
  {
    MaxHeightFromBounds(xs, 0, j);
  }

  /** A non-empty dict is at least two levels high. */
  lemma NonEmptyObjectHeight(m: map<string, Json>)
    requires m != map[]
    ensures Height(JObj(m)) >= 2
  {
    var k :| k in m;
    FieldIsLower(m, k);
  }
}
