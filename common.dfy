/** Values and helpers shared by every module: an Option type, the JSON values the
    entitlements columns hold, JavaScript truthiness, and small string helpers. */
module Common {

  datatype Option<+T> = None | Some(value: T)

  /** A value, or the message of the error thrown instead. */
  datatype Result<+T> = Ok(value: T) | Err(message: string)

  /** A JSON value as stored in a jsonb column or received in a request body.
      Numbers are integers. `JRecord(v)` is an object; `v` is its `value` field when it
      has one (other fields of objects are not modelled). */
  datatype Json =
    | JNull
    | JBool(b: bool)
    | JNum(n: int)
    | JStr(s: string)
    | JArr(items: seq<Json>)
    | JRecord(value: Option<Json>)

  /** JavaScript truthiness of a present value. */
  predicate Truthy(v: Json) {
    match v
    case JNull => false
    case JBool(b) => b
    case JNum(n) => n != 0
    case JStr(s) => s != ""
    case JArr(_) => true
    case JRecord(_) => true
  }

  /** JavaScript truthiness of a property read, where `None` is `undefined`. */
  predicate Present(v: Option<Json>) {
    v.Some? && Truthy(v.value)
  }

  /** `obj[key]`, with `None` for an absent key (`undefined`). */
  function Lookup(m: map<string, Json>, key: string): (r: Option<Json>)
    ensures r.Some? <==> key in m
    ensures r.Some? ==> r.value == m[key]
  {
    if key in m then Some(m[key]) else None
  }

  /** `v || d` on a property read. */
  function OrElse(v: Option<Json>, d: Json): (r: Json)
    ensures Present(v) ==> r == v.value
    ensures !Present(v) ==> r == d
  {
    if Present(v) then v.value else d
  }

  /** `v?.value`: the `value` field of an object, `undefined` for anything else. */
  function ValueField(v: Option<Json>): (r: Option<Json>)
    ensures r.Some? <==> v.Some? && v.value.JRecord? && v.value.value.Some?
  {
    match v
    case Some(JRecord(Some(x))) => Some(x)
    case _ => None
  }

  /** `s.startsWith(p)`. */
  predicate StartsWith(s: string, p: string) {
    |p| <= |s| && s[..|p|] == p
  }

  /** `s.includes(t)`: `t` occurs in `s` at some position. */
  predicate Includes(s: string, t: string)
    decreases |s|
  {
    StartsWith(s, t) || (|s| > 0 && Includes(s[1..], t))
  }

  /** `t` occurs in `s` starting at index `i`. */
  predicate OccursAt(s: string, t: string, i: int) {
    0 <= i <= |s| - |t| && s[i..i + |t|] == t
  }

  /** `Includes` is substring search. */
  lemma {:induction false} IncludesAt(s: string, t: string)
    ensures Includes(s, t) <==> exists i :: OccursAt(s, t, i)
    decreases |s|
  {
    if StartsWith(s, t) {
      assert OccursAt(s, t, 0);
    } else if |s| > 0 {
      IncludesAt(s[1..], t);
      if Includes(s[1..], t) {
        var i :| OccursAt(s[1..], t, i);
        assert s[i + 1..i + 1 + |t|] == s[1..][i..i + |t|];
        assert OccursAt(s, t, i + 1);
      }
      if exists i :: OccursAt(s, t, i) {
        var i :| OccursAt(s, t, i);
        assert i != 0;
        assert s[1..][i - 1..i - 1 + |t|] == s[i..i + |t|];
        assert OccursAt(s[1..], t, i - 1);
      }
    }
  }

  /** ASCII lower-casing of one character (`toLowerCase` restricted to A-Z). */
  function LowerChar(c: char): char {
    if 'A' <= c <= 'Z' then (c as int + 32) as char else c
  }

  function Lower(s: string): (r: string)
    ensures |r| == |s|
    ensures forall i :: 0 <= i < |s| ==> r[i] == LowerChar(s[i])
  {
    seq(|s|, i requires 0 <= i < |s| => LowerChar(s[i]))
  }

  /** Decimal rendering of an integer, as a template literal prints it. */
  function IntToString(n: int): string {
    if n < 0 then "-" + NatToString(-n) else NatToString(n)
  }

  function NatToString(n: nat): string
    decreases n
  {
    var d := ['0', '1', '2', '3', '4', '5', '6', '7', '8', '9'][n % 10];
    if n < 10 then [d] else NatToString(n / 10) + [d]
  }

  /** The element of a set that has exactly one, the result of `.single()`. */
  function TheOnly(s: set<string>): (r: Option<string>)
    ensures r.Some? <==> |s| == 1
    ensures r.Some? ==> s == {r.value}
  {
    if |s| == 1 then
      SingletonUnique(s);
      var x :| x in s;
      Some(x)
    else None
  }

  lemma SingletonUnique(s: set<string>)
    requires |s| == 1
    ensures exists x :: s == {x}
    ensures forall x, y :: x in s && y in s ==> x == y
  {
    var x :| x in s;
    assert |s - {x}| == 0;
    assert s == {x};
  }

  // ---------------------------------------------------------------------------
  // Lists

  /** `xs.filter(p)`. */
  function Filter<T>(xs: seq<T>, p: T -> bool): (r: seq<T>)
    ensures |r| <= |xs|
    ensures forall i :: 0 <= i < |r| ==> p(r[i]) && r[i] in xs
    ensures forall x :: x in xs && p(x) ==> x in r
    decreases |xs|
  {
    if xs == [] then []
    else
      var prefix := Filter(xs[..|xs| - 1], p);
      var last := xs[|xs| - 1];
      assert forall x :: x in xs ==> x in xs[..|xs| - 1] || x == last;
      if p(last) then prefix + [last] else prefix
  }

  /** `idx` lists, in increasing order, the positions in `b` that `a` was taken from. */
  ghost predicate Embeds<T>(a: seq<T>, b: seq<T>, idx: seq<nat>) {
    && |idx| == |a|
    && (forall i :: 0 <= i < |a| ==> idx[i] < |b| && a[i] == b[idx[i]])
    && (forall i, j :: 0 <= i < j < |a| ==> idx[i] < idx[j])
  }

  /** `a` is `b` with some elements removed, the rest kept in order. */
  ghost predicate Subsequence<T>(a: seq<T>, b: seq<T>) {
    exists idx :: Embeds(a, b, idx)
  }

  /** Filtering keeps the kept elements in their original order. */
  lemma {:induction false} FilterIsSubsequence<T>(xs: seq<T>, p: T -> bool)
    ensures Subsequence(Filter(xs, p), xs)
    decreases |xs|
  {
    if xs == [] {
      assert Embeds(Filter(xs, p), xs, []);
    } else {
      var n := |xs| - 1;
      FilterIsSubsequence(xs[..n], p);
      var prefix := Filter(xs[..n], p);
      var idx :| Embeds(prefix, xs[..n], idx);
      if p(xs[n]) {
        assert Embeds(Filter(xs, p), xs, idx + [n]);
      } else {
        assert Embeds(Filter(xs, p), xs, idx);
      }
    }
  }

  /** The last element satisfying `p`: what a `Map` built from a list of rows by id returns
      for one id, since a later row overwrites an earlier one. */
  function Last<T>(xs: seq<T>, p: T -> bool): (r: Option<T>)
    ensures r.Some? <==> exists j :: 0 <= j < |xs| && p(xs[j])
    ensures r.Some? ==> p(r.value) && r.value in xs
    decreases |xs|
  {
    if xs == [] then None
    else if p(xs[|xs| - 1]) then Some(xs[|xs| - 1])
    else
      assert forall j :: 0 <= j < |xs| - 1 ==> xs[..|xs| - 1][j] == xs[j];
      Last(xs[..|xs| - 1], p)
  }

  /** Looking an element up in a batch fetched with a wider condition `q` finds what the
      lookup in the whole table finds. */
  lemma {:induction false} LastOfFilter<T>(xs: seq<T>, q: T -> bool, p: T -> bool)
    requires forall x :: p(x) ==> q(x)
    ensures Last(Filter(xs, q), p) == Last(xs, p)
    decreases |xs|
  {
    if xs != [] {
      var n := |xs| - 1;
      LastOfFilter(xs[..n], q, p);
      var f := Filter(xs[..n], q);
      if q(xs[n]) {
        assert Filter(xs, q) == f + [xs[n]];
        assert (f + [xs[n]])[..|f|] == f;
      } else {
        assert Filter(xs, q) == f;
      }
    }
  }

  /** `.range(offset, offset + limit - 1)` applied to rows in query order. */
  function Window<T>(xs: seq<T>, offset: nat, limit: nat): (r: seq<T>)
    ensures |r| <= limit
    ensures offset >= |xs| ==> r == []
    ensures offset < |xs| ==> |r| == (if offset + limit <= |xs| then limit else |xs| - offset)
    ensures offset < |xs| ==> r == xs[offset..offset + |r|]
  {
    if offset >= |xs| then []
    else if offset + limit <= |xs| then xs[offset..offset + limit]
    else xs[offset..]
  }

  /** A row of a page taken from filtered rows satisfies the filter and comes from the rows. */
  lemma InWindowOfFilter<T>(xs: seq<T>, p: T -> bool, offset: nat, limit: nat, x: T)
    requires x in Window(Filter(xs, p), offset, limit)
    ensures p(x) && x in xs
  {
    var w := Window(Filter(xs, p), offset, limit);
    var k :| 0 <= k < |w| && w[k] == x;
    assert w[k] == Filter(xs, p)[offset + k];
  }

  /** The page size of a listing query when the caller gives no `limit`. */
  const DEFAULT_PAGE_SIZE: nat := 50

  /** An optional text filter is applied only when it is given and non-empty (`if (f)`). */
  predicate Given(f: Option<string>) {
    f.Some? && f.value != ""
  }
}
