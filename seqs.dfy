/** Sequence helpers behind the source's `filter`, `find`, `map` and `.length` counts. */
module Seqs {
  import opened Wrappers

  /** `s.filter(p)`: the elements satisfying `p`, in their original order. */
  function Filter<T(!new)>(s: seq<T>, p: T -> bool): (r: seq<T>)
    ensures |r| <= |s|
    ensures forall x :: x in r <==> x in s && p(x)
  {
    if s == [] then [] else (if p(s[0]) then [s[0]] else []) + Filter(s[1..], p)
  }

  /** `s.filter(p).length`. */
  function Count<T(!new)>(s: seq<T>, p: T -> bool): nat {
    |Filter(s, p)|
  }

  /** `a` is `b` with some elements dropped and the rest kept in order. */
  ghost predicate SubsequenceOf<T>(a: seq<T>, b: seq<T>) {
    if a == [] then true
    else if b == [] then false
    else (a[0] == b[0] && SubsequenceOf(a[1..], b[1..])) || SubsequenceOf(a, b[1..])
  }

  /** No value occurs twice. */
  predicate Distinct<T(==)>(s: seq<T>) {
    forall i, j :: 0 <= i < j < |s| ==> s[i] != s[j]
  }

  lemma {:induction false} FilterIsSubsequence<T(!new)>(s: seq<T>, p: T -> bool)
    ensures SubsequenceOf(Filter(s, p), s)
  {
    if s != [] {
      FilterIsSubsequence(s[1..], p);
      var r := Filter(s, p);
      if p(s[0]) {
        assert r[0] == s[0] && r[1..] == Filter(s[1..], p);
      } else {
        assert r == Filter(s[1..], p);
        if r != [] { SubsequenceOfDropHead(r, s); }
      }
    }
  }

  lemma {:induction false} SubsequenceOfDropHead<T>(a: seq<T>, b: seq<T>)
    requires b != [] && SubsequenceOf(a, b[1..])
    ensures SubsequenceOf(a, b)
  {
  }

  /** When every element passes, filtering changes nothing. */
  lemma {:induction false} FilterKeepsAll<T(!new)>(s: seq<T>, p: T -> bool)
    requires forall x :: x in s ==> p(x)
    ensures Filter(s, p) == s
  {
    if s != [] { FilterKeepsAll(s[1..], p); }
  }

  lemma {:induction false} FilterAppend<T(!new)>(a: seq<T>, b: seq<T>, p: T -> bool)
    ensures Filter(a + b, p) == Filter(a, p) + Filter(b, p)
  {
    if a == [] {
      assert a + b == b;
    } else {
      assert (a + b)[1..] == a[1..] + b;
      FilterAppend(a[1..], b, p);
    }
  }

  /** Filtering by a stronger predicate keeps no more elements. */
  lemma {:induction false} CountMonotone<T(!new)>(s: seq<T>, p: T -> bool, q: T -> bool)
    requires forall x :: x in s && p(x) ==> q(x)
    ensures Count(s, p) <= Count(s, q)
  {
    if s != [] { CountMonotone(s[1..], p, q); }
  }

  /** Counting inside a filtered sequence finds no more than counting in the whole one. */
  lemma {:induction false} CountWithinFilter<T(!new)>(s: seq<T>, w: T -> bool, p: T -> bool)
    ensures Count(Filter(s, w), p) <= Count(s, p)
  {
    if s != [] {
      CountWithinFilter(s[1..], w, p);
      var f := Filter(s, w);
      if w(s[0]) {
        assert f == [s[0]] + Filter(s[1..], w);
        assert f[1..] == Filter(s[1..], w);
      } else {
        assert f == Filter(s[1..], w);
      }
    }
  }

  /** Counting `p || q` is counting `p`, counting `q` and taking away the overlap. */
  lemma {:induction false} CountUnion<T(!new)>(s: seq<T>, p: T -> bool, q: T -> bool, both: T -> bool, either: T -> bool)
    requires forall x :: either(x) == (p(x) || q(x))
    requires forall x :: both(x) == (p(x) && q(x))
    ensures Count(s, either) + Count(s, both) == Count(s, p) + Count(s, q)
  {
    if s != [] { CountUnion(s[1..], p, q, both, either); }
  }

  /** Counting three predicates that no element satisfies two of at once. */
  lemma {:induction false} CountDisjoint3<T(!new)>(s: seq<T>, p: T -> bool, q: T -> bool, r: T -> bool)
    requires forall x :: !(p(x) && q(x)) && !(p(x) && r(x)) && !(q(x) && r(x))
    ensures Count(s, p) + Count(s, q) + Count(s, r) <= |s|
  {
    if s != [] { CountDisjoint3(s[1..], p, q, r); }
  }

  /** `s.find(p)`: the first element satisfying `p`, if any. */
  function Find<T(==,!new)>(s: seq<T>, p: T -> bool): (r: Option<T>)
    ensures r.None? <==> forall x :: x in s ==> !p(x)
    ensures r.Some? ==> exists i :: 0 <= i < |s| && s[i] == r.value && p(s[i]) &&
                                    forall j :: 0 <= j < i ==> !p(s[j])
  {
    if s == [] then None
    else if p(s[0]) then Some(s[0])
    else
      var r := Find(s[1..], p);
      if r.Some? then
        assert exists i :: 0 <= i < |s| - 1 && s[1..][i] == r.value && p(s[1..][i]) &&
                          forall j :: 0 <= j < i ==> !p(s[1..][j]);
        var i :| 0 <= i < |s| - 1 && s[1..][i] == r.value && p(s[1..][i]) &&
                 forall j :: 0 <= j < i ==> !p(s[1..][j]);
        assert s[i + 1] == r.value && forall j :: 0 <= j < i + 1 ==> !p(s[j]) by {
          forall j | 0 <= j < i + 1 ensures !p(s[j]) {
            if j > 0 { assert s[j] == s[1..][j - 1]; }
          }
        }
        r
      else r
  }

  /** `s.map(f)`. */
  function Map<T, U>(s: seq<T>, f: T -> U): (r: seq<U>)
    ensures |r| == |s|
    ensures forall i :: 0 <= i < |s| ==> r[i] == f(s[i])
  {
    seq(|s|, i requires 0 <= i < |s| => f(s[i]))
  }

  /** Mapping one more element appends its image. */
  lemma MapSnoc<T, U>(a: seq<T>, x: T, f: T -> U)
    ensures Map(a + [x], f) == Map(a, f) + [f(x)]
  {
    MapAppend(a, [x], f);
    assert Map([x], f) == [f(x)];
  }

  lemma MapAppend<T, U>(a: seq<T>, b: seq<T>, f: T -> U)
    ensures Map(a + b, f) == Map(a, f) + Map(b, f)
  {
    assert forall i :: 0 <= i < |a| ==> (a + b)[i] == a[i];
  }

  /** `s.map(x => hit(x) ? f(x) : x)`: the update-by-id shape of the store's actions. */
  function MapWhere<T>(s: seq<T>, hit: T -> bool, f: T -> T): (r: seq<T>)
    ensures |r| == |s|
  {
    seq(|s|, i requires 0 <= i < |s| => if hit(s[i]) then f(s[i]) else s[i])
  }

  /** Nothing is hit: the sequence comes back identical. */
  lemma MapWhereNoHit<T(!new)>(s: seq<T>, hit: T -> bool, f: T -> T)
    requires forall x :: x in s ==> !hit(x)
    ensures MapWhere(s, hit, f) == s
  {
    assert forall i :: 0 <= i < |s| ==> MapWhere(s, hit, f)[i] == s[i];
  }

  /** The values `f` accepts, in order: a loop that skips the elements `f` rejects and keeps
      the others' results. `ctx` is the data `f` reads besides the element. */
  function Collect<T, C, U>(s: seq<T>, ctx: C, f: (T, C) -> Option<U>): seq<U> {
    if s == [] then []
    else
      var last := f(s[|s| - 1], ctx);
      Collect(s[..|s| - 1], ctx, f) + (if last.Some? then [last.value] else [])
  }

  /** Collecting one more element adds its result, if any, at the end. */
  lemma CollectSnoc<T, C, U>(s: seq<T>, x: T, ctx: C, f: (T, C) -> Option<U>)
    ensures Collect(s + [x], ctx, f) == Collect(s, ctx, f) + (if f(x, ctx).Some? then [f(x, ctx).value] else [])
  {
    assert (s + [x])[..|s|] == s;
  }

  /** When every element is accepted, the result lists the accepted values position by position. */
  lemma {:induction false} CollectAll<T, C, U>(s: seq<T>, ctx: C, f: (T, C) -> Option<U>, out: seq<U>)
    requires |s| == |out|
    requires forall k :: 0 <= k < |s| ==> f(s[k], ctx) == Some(out[k])
    ensures Collect(s, ctx, f) == out
  {
    if s != [] {
      var n := |s| - 1;
      assert forall k :: 0 <= k < n ==> s[..n][k] == s[k];
      CollectAll(s[..n], ctx, f, out[..n]);
      assert out == out[..n] + [out[n]];
    }
  }

  /** Every collected value is `f`'s result on some element. */
  lemma {:induction false} CollectFrom<T, C, U>(s: seq<T>, ctx: C, f: (T, C) -> Option<U>)
    ensures forall u :: u in Collect(s, ctx, f) ==> exists k :: 0 <= k < |s| && f(s[k], ctx) == Some(u)
  {
    if s != [] {
      var n := |s| - 1;
      CollectFrom(s[..n], ctx, f);
      forall u | u in Collect(s, ctx, f) ensures exists k :: 0 <= k < |s| && f(s[k], ctx) == Some(u) {
        if u in Collect(s[..n], ctx, f) {
          var k :| 0 <= k < n && f(s[..n][k], ctx) == Some(u);
          assert s[..n][k] == s[k];
        } else {
          assert f(s[n], ctx) == Some(u);
        }
      }
    }
  }
}
