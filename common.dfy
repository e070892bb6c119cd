/** Shared vocabulary: optional JavaScript values, the partial records passed
    to an object spread, and the two list rebuilds every store uses
    (`Array.prototype.filter` and a `map` that rewrites matching records). */
module Common {

  /** A JavaScript value that may be `null` / `undefined`. */
  datatype Option<T> = None | Some(value: T)

  /** One property of a partial record merged with `{ ...old, ...patch }`:
      absent from the patch (the old value survives) or present. */
  datatype Field<T> = Keep | Put(value: T) {
    function Over(current: T): (r: T)
      ensures Keep? ==> r == current
      ensures Put? ==> r == value
    {
      if Put? then value else current
    }
  }

  /** JavaScript `v || d` on an optional string: `undefined`, `null` and the
      empty string are all falsy and fall through to `d`. */
  function OrElse(v: Option<string>, d: string): (r: string)
    ensures r == d || (v.Some? && r == v.value && r != "")
    ensures v.Some? && v.value != "" ==> r == v.value
  {
    if v.Some? && v.value != "" then v.value else d
  }

  /** JavaScript `s || undefined` on a string. */
  function NonEmpty(s: string): (r: Option<string>)
    ensures r.None? <==> s == ""
    ensures r.Some? ==> r.value == s
  {
    if s == "" then None else Some(s)
  }

  /** `xs.filter(p)`: keeps, in their original order, the elements satisfying `p`
      (the order is `FilterAppend`, the multiplicities `FilterMultiplicity`). */
  function Filter<T(!new)>(s: seq<T>, p: T -> bool): (r: seq<T>)
    ensures |r| <= |s|
    ensures forall x :: x in r <==> x in s && p(x)
  {
    if s == [] then [] else (if p(s[0]) then [s[0]] else []) + Filter(s[1..], p)
  }

  /** Every element that passes is kept as often as it occurs, and no other is kept. */
  lemma {:induction false} FilterMultiplicity<T(!new)>(s: seq<T>, p: T -> bool, x: T)
    ensures multiset(Filter(s, p))[x] == if p(x) then multiset(s)[x] else 0
  {
    if s != [] {
      assert s == [s[0]] + s[1..];
      FilterMultiplicity(s[1..], p, x);
    }
  }

  /** `xs.find(p)`: the first element satisfying `p`, which is the head of
      what `filter` would keep. */
  function Find<T(!new)>(s: seq<T>, p: T -> bool): (r: Option<T>)
    ensures r.None? <==> forall x :: x in s ==> !p(x)
    ensures r.Some? ==> r.value in s && p(r.value)
    ensures var m := Filter(s, p); r == if m == [] then None else Some(m[0])
    ensures forall k :: FirstWhere(s, p, k) ==> r == Some(s[k])
  {
    if s == [] then None
    else if p(s[0]) then Some(s[0])
    else
      assert forall k :: FirstWhere(s, p, k) ==> FirstWhere(s[1..], p, k - 1);
      Find(s[1..], p)
  }

  /** `s[k]` is the first element of `s` satisfying `p`. */
  predicate FirstWhere<T>(s: seq<T>, p: T -> bool, k: int)
  {
    0 <= k < |s| && p(s[k]) && forall j :: 0 <= j < k ==> !p(s[j])
  }

  /** `xs.map(x => hit(x) ? f(x) : x)`: rewrites every matching element in place. */
  function UpdateWhere<T>(s: seq<T>, hit: T -> bool, f: T -> T): (r: seq<T>)
    ensures |r| == |s|
    ensures forall i :: 0 <= i < |s| ==> r[i] == if hit(s[i]) then f(s[i]) else s[i]
  {
    if s == [] then [] else [if hit(s[0]) then f(s[0]) else s[0]] + UpdateWhere(s[1..], hit, f)
  }

  /** Filtering distributes over concatenation: this is what "in original
      order" means for `filter`. */
  lemma {:induction false} FilterAppend<T(!new)>(a: seq<T>, b: seq<T>, p: T -> bool)
    ensures Filter(a + b, p) == Filter(a, p) + Filter(b, p)
  {
    if a == [] {
      assert a + b == b;
    } else {
      assert (a + b)[1..] == a[1..] + b;
      FilterAppend(a[1..], b, p);
    }
  }

  /** Filtering keeps the whole list when every element passes. */
  lemma {:induction false} FilterAll<T(!new)>(s: seq<T>, p: T -> bool)
    requires forall x :: x in s ==> p(x)
    ensures Filter(s, p) == s
  {
    if s != [] {
      assert forall x :: x in s[1..] ==> x in s;
      FilterAll(s[1..], p);
    }
  }

  /** A filter and its complement split the list: the two counts add up. */
  lemma {:induction false} FilterPartition<T(!new)>(s: seq<T>, p: T -> bool, q: T -> bool)
    requires forall x :: q(x) == !p(x)
    ensures |Filter(s, p)| + |Filter(s, q)| == |s|
  {
    if s != [] {
      FilterPartition(s[1..], p, q);
    }
  }

  /** Two successive filters are one filter on the conjunction. */
  lemma {:induction false} FilterFilter<T(!new)>(s: seq<T>, p: T -> bool, q: T -> bool)
    ensures Filter(Filter(s, p), q) == Filter(s, x => p(x) && q(x))
  {
    if s != [] {
      FilterFilter(s[1..], p, q);
      var head := if p(s[0]) then [s[0]] else [];
      FilterAppend(head, Filter(s[1..], p), q);
    }
  }

  /** Filters by two predicates that agree on every element are the same. */
  lemma {:induction false} FilterCongruent<T(!new)>(s: seq<T>, p: T -> bool, q: T -> bool)
    requires forall x :: x in s ==> p(x) == q(x)
    ensures Filter(s, p) == Filter(s, q)
  {
    if s != [] {
      assert forall x :: x in s[1..] ==> x in s;
      FilterCongruent(s[1..], p, q);
    }
  }

  /** Rewriting matching elements commutes with appending one at the end. */
  lemma {:induction false} UpdateWhereAppend<T>(s: seq<T>, x: T, hit: T -> bool, f: T -> T)
    ensures UpdateWhere(s + [x], hit, f) == UpdateWhere(s, hit, f) + [if hit(x) then f(x) else x]
  {
    var l := UpdateWhere(s + [x], hit, f);
    var r := UpdateWhere(s, hit, f) + [if hit(x) then f(x) else x];
    assert |l| == |r|;
    forall i | 0 <= i < |l| ensures l[i] == r[i] {
      if i < |s| { assert (s + [x])[i] == s[i]; }
    }
  }

  /** Applying the same rewrite twice is the same as once, when the rewrite
      is idempotent on the elements it touches. */
  lemma UpdateWhereIdempotent<T>(s: seq<T>, hit: T -> bool, f: T -> T)
    requires forall x :: hit(x) ==> f(f(x)) == f(x)
    ensures UpdateWhere(UpdateWhere(s, hit, f), hit, f) == UpdateWhere(s, hit, f)
  {
    var once := UpdateWhere(s, hit, f);
    var twice := UpdateWhere(once, hit, f);
    forall i | 0 <= i < |s| ensures twice[i] == once[i] {
      if hit(s[i]) {
        assert once[i] == f(s[i]);
      }
    }
  }
}
