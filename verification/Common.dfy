/** Small vocabulary shared by the protocol models: optional values, thrown errors,
    distinct sequences, stable sorting and sums over maps. */
module Common {

  datatype Option<+T> = None | Some(value: T) {
    function GetOr(default: T): T { if Some? then value else default }
  }

  /** A call that either returns a value or throws. */
  datatype Result<+T> = Ok(value: T) | Err(error: string)

  /** The state after a call that may throw: a call that throws changes nothing. */
  function OrElse<S>(r: Result<S>, s: S): S { if r.Ok? then r.value else s }

  /** A call returns and moves to the state its step gives, or throws and changes nothing. */
  ghost predicate Performs<S>(r: Result<()>, step: Result<S>, before: S, after: S) {
    match step
    case Ok(s) => r == Ok(()) && after == s
    case Err(e) => r == Err(e) && after == before
  }

  function Min(a: int, b: int): int { if a <= b then a else b }

  function Max(a: int, b: int): int { if a <= b then b else a }

  /** JavaScript truthiness of an optional string: absent and empty are both false. */
  predicate Truthy(s: Option<string>) { s.Some? && s.value != "" }

  function Pow2(n: nat): nat { if n == 0 then 1 else 2 * Pow2(n - 1) }

  /** All but the element at i. */
  function DropAt<T>(s: seq<T>, i: nat): seq<T>
    requires i < |s|
  {
    s[..i] + s[i + 1..]
  }

  predicate Distinct<T(==)>(s: seq<T>) {
    forall i, j :: 0 <= i < j < |s| ==> s[i] != s[j]
  }

  ghost function Elems<T>(s: seq<T>): set<T> { set x | x in s }

  lemma {:induction false} DistinctCardinality<T>(s: seq<T>)
    requires Distinct(s)
    ensures |Elems(s)| == |s|
  {
    if s != [] {
      var last := |s| - 1;
      DistinctCardinality(s[..last]);
      assert Elems(s) == Elems(s[..last]) + {s[last]};
    }
  }

  /** Finite sets related by an injection. */
  lemma {:induction false} InjectionCardinality<A, B>(a: set<A>, b: set<B>, f: A -> B)
    requires forall x :: x in a ==> f(x) in b
    requires forall x, y :: x in a && y in a && x != y ==> f(x) != f(y)
    ensures |a| <= |b|
  {
    if a != {} {
      var x :| x in a;
      forall y | y in a - {x} ensures f(y) in b - {f(x)} {}
      InjectionCardinality(a - {x}, b - {f(x)}, f);
    }
  }

  lemma {:induction false} SubsetCardinality<A>(a: set<A>, b: set<A>)
    requires a <= b
    ensures |a| <= |b|
  {
    assert b == a + (b - a);
  }

  function Filter<T(!new)>(s: seq<T>, p: T -> bool): (r: seq<T>)
    ensures forall x :: x in r <==> x in s && p(x)
  {
    if s == [] then []
    else if p(s[0]) then [s[0]] + Filter(s[1..], p)
    else Filter(s[1..], p)
  }

  lemma {:induction false} FilterAppend<T(!new)>(s: seq<T>, t: seq<T>, p: T -> bool)
    ensures Filter(s + t, p) == Filter(s, p) + Filter(t, p)
  {
    if s == [] {
      assert s + t == t;
    } else {
      FilterAppend(s[1..], t, p);
      assert (s + t)[1..] == s[1..] + t;
    }
  }

  lemma {:induction false} FilterDistinct<T(!new)>(s: seq<T>, p: T -> bool)
    requires Distinct(s)
    ensures Distinct(Filter(s, p))
  {
    if s != [] {
      FilterDistinct(s[1..], p);
      assert s[0] !in s[1..];
    }
  }

  // ---- stable sorting (the behaviour of Array.prototype.sort) ----

  ghost predicate TotalPreorder<T(!new)>(le: (T, T) -> bool) {
    && (forall a, b :: le(a, b) || le(b, a))
    && (forall a, b, c :: le(a, b) && le(b, c) ==> le(a, c))
  }

  ghost predicate SortedBy<T>(s: seq<T>, le: (T, T) -> bool) {
    forall i, j :: 0 <= i < j < |s| ==> le(s[i], s[j])
  }

  function Insert<T>(x: T, s: seq<T>, le: (T, T) -> bool): (r: seq<T>)
    ensures multiset(r) == multiset{x} + multiset(s)
  {
    if s == [] || le(x, s[0]) then [x] + s
    else
      assert s == [s[0]] + s[1..];
      [s[0]] + Insert(x, s[1..], le)
  }

  function Sort<T>(s: seq<T>, le: (T, T) -> bool): (r: seq<T>)
    ensures multiset(r) == multiset(s)
    ensures |r| == |s|
  {
    if s == [] then []
    else
      assert s == [s[0]] + s[1..];
      var r := Insert(s[0], Sort(s[1..], le), le);
      assert |multiset(r)| == |r| && |multiset(s)| == |s|;
      r
  }

  lemma {:induction false} InsertSorts<T(!new)>(x: T, s: seq<T>, le: (T, T) -> bool)
    requires TotalPreorder(le) && SortedBy(s, le)
    ensures SortedBy(Insert(x, s, le), le)
  {
    if s != [] && !le(x, s[0]) {
      var t := Insert(x, s[1..], le);
      InsertSorts(x, s[1..], le);
      forall j | 0 <= j < |t| ensures le(s[0], t[j]) {
        assert t[j] in multiset(t);
        assert t[j] == x || t[j] in s[1..];
      }
    }
  }

  lemma {:induction false} SortSorts<T(!new)>(s: seq<T>, le: (T, T) -> bool)
    requires TotalPreorder(le)
    ensures SortedBy(Sort(s, le), le)
  {
    if s != [] {
      SortSorts(s[1..], le);
      InsertSorts(s[0], Sort(s[1..], le), le);
    }
  }

  lemma SortElems<T>(s: seq<T>, le: (T, T) -> bool)
    ensures forall x :: x in Sort(s, le) <==> x in s
  {
    forall x ensures x in Sort(s, le) <==> x in s {
      assert x in Sort(s, le) <==> x in multiset(Sort(s, le));
      assert x in s <==> x in multiset(s);
    }
  }

  lemma SortDistinct<T>(s: seq<T>, le: (T, T) -> bool)
    requires Distinct(s)
    ensures Distinct(Sort(s, le))
  {
    var r := Sort(s, le);
    forall i, j | 0 <= i < j < |r| ensures r[i] != r[j] {
      if r[i] == r[j] {
        TwiceInMultiset(r, i, j);
        OnceInMultiset(s, r[i]);
      }
    }
  }

  lemma TwiceInMultiset<T>(s: seq<T>, i: nat, j: nat)
    requires i < j < |s| && s[i] == s[j]
    ensures multiset(s)[s[i]] >= 2
  {
    assert s == s[..i] + [s[i]] + s[i + 1..j] + [s[j]] + s[j + 1..];
  }

  lemma {:induction false} OnceInMultiset<T>(s: seq<T>, x: T)
    requires Distinct(s)
    ensures multiset(s)[x] <= 1
  {
    if s != [] {
      OnceInMultiset(s[1..], x);
      assert s == [s[0]] + s[1..];
      assert s[0] !in s[1..];
    }
  }

  /** filter, sort, slice(0, limit): how every store method picks its batch. */
  function FirstSorted<T(!new)>(s: seq<T>, p: T -> bool, le: (T, T) -> bool, limit: nat): seq<T> {
    var sorted := Sort(Filter(s, p), le);
    sorted[..Min(limit, |sorted|)]
  }

  /** A batch is in order, without repeats, and leaves out a candidate only when it is full
      and the candidate comes no earlier than anything in it. */
  lemma FirstSortedMeaning<T(!new)>(s: seq<T>, p: T -> bool, le: (T, T) -> bool, limit: nat)
    requires Distinct(s) && TotalPreorder(le)
    ensures var out := FirstSorted(s, p, le, limit);
            && |out| <= limit && Distinct(out) && SortedBy(out, le)
            && (forall x :: x in out ==> x in s && p(x))
            && (forall x :: x in s && p(x) && x !in out ==> |out| == limit && forall y :: y in out ==> le(y, x))
  {
    var candidates := Filter(s, p);
    var sorted := Sort(candidates, le);
    SortSorts(candidates, le);
    SortElems(candidates, le);
    FilterDistinct(s, p);
    SortDistinct(candidates, le);
    var out := FirstSorted(s, p, le, limit);
    forall x | x in out ensures x in candidates {
      assert x in sorted;
    }
    forall x | x in s && p(x) && x !in out ensures |out| == limit && forall y :: y in out ==> le(y, x) {
      assert x in candidates && x in sorted;
      var k :| 0 <= k < |sorted| && sorted[k] == x;
      assert forall i :: 0 <= i < |out| ==> out[i] == sorted[i] && out[i] != x;
    }
  }

  // ---- sums over a map's values ----

  ghost function Total<K>(m: map<K, nat>): nat
    decreases |m|
  {
    if m == map[] then 0
    else
      var k :| k in m;
      assert |m - {k}| < |m| by { assert m.Keys == (m - {k}).Keys + {k}; }
      m[k] + Total(m - {k})
  }

  lemma Smaller<K>(m: map<K, nat>, k: K)
    requires k in m
    ensures |m - {k}| < |m|
  {
    assert m.Keys == (m - {k}).Keys + {k};
  }

  /** The value of Total does not depend on the keys it happens to pick. */
  lemma {:induction false} TotalRemove<K>(m: map<K, nat>, k: K)
    requires k in m
    ensures Total(m) == m[k] + Total(m - {k})
    decreases |m|
  {
    assert m != map[];
    var p :| p in m && Total(m) == m[p] + Total(m - {p});
    if p != k {
      Smaller(m, p);
      Smaller(m, k);
      TotalRemove(m - {p}, k);
      TotalRemove(m - {k}, p);
      assert m - {p} - {k} == m - {k} - {p};
    }
  }

  lemma TotalUpdate<K>(m: map<K, nat>, k: K, v: nat)
    ensures Total(m[k := v]) == Total(m) - (if k in m then m[k] else 0) + v
  {
    TotalRemove(m[k := v], k);
    if k in m {
      TotalRemove(m, k);
    }
    assert m[k := v] - {k} == m - {k};
    assert k !in m ==> m - {k} == m;
  }

  lemma {:induction false} TotalMono<K>(m: map<K, nat>, n: map<K, nat>)
    requires m.Keys == n.Keys && forall k :: k in m ==> m[k] <= n[k]
    ensures Total(m) <= Total(n)
    decreases |m|
  {
    if m != map[] {
      var k :| k in m;
      TotalRemove(m, k);
      TotalRemove(n, k);
      Smaller(m, k);
      assert (m - {k}).Keys == (n - {k}).Keys;
      TotalMono(m - {k}, n - {k});
    } else {
      assert n == map[];
    }
  }

  lemma {:induction false} TotalSum<K>(m: map<K, nat>, n: map<K, nat>, sum: map<K, nat>)
    requires m.Keys == n.Keys == sum.Keys && forall k :: k in m ==> sum[k] == m[k] + n[k]
    ensures Total(sum) == Total(m) + Total(n)
    decreases |m|
  {
    if m != map[] {
      var k :| k in m;
      TotalRemove(m, k);
      TotalRemove(n, k);
      TotalRemove(sum, k);
      Smaller(m, k);
      assert (m - {k}).Keys == (n - {k}).Keys == (sum - {k}).Keys;
      TotalSum(m - {k}, n - {k}, sum - {k});
    } else {
      assert n == map[] && sum == map[];
    }
  }

  lemma {:induction false} TotalZero<K>(m: map<K, nat>)
    ensures Total(m) == 0 <==> forall k :: k in m ==> m[k] == 0
    decreases |m|
  {
    if m != map[] {
      var k :| k in m;
      TotalRemove(m, k);
      Smaller(m, k);
      TotalZero(m - {k});
      assert forall x :: x in m ==> x == k || x in m - {k};
    }
  }
}
