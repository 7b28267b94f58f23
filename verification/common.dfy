/** Shared vocabulary: optional values, JavaScript's `||` fallback on
    strings, and the list operations (`filter`, counting, `slice(0, n)`)
    the pages apply to already-fetched records. */
module Common {

  datatype Option<+T> = None | Some(value: T)

  datatype Result<+T, +E> = Success(value: T) | Failure(error: E)

  /** A property of a plain object, or `undefined` when the object lacks it. */
  function Lookup(m: map<string, string>, key: string): (v: Option<string>)
    ensures v.Some? <==> key in m
    ensures v.Some? ==> v.value == m[key]
  {
    if key in m then Some(m[key]) else None
  }

  /** `o || d` for a string that may be missing: a missing or empty
      string is falsy in JavaScript and gives way to the default. */
  function Fallback(o: Option<string>, d: string): (r: string)
    ensures r == d <== (o == None || o == Some(""))
    ensures o.Some? && o.value != "" ==> r == o.value
    ensures d != "" ==> r != ""
  {
    match o
    case Some(s) => if s != "" then s else d
    case None => d
  }

  /** `s || d` for a string that is always present. */
  function Or(s: string, d: string): (r: string)
    ensures s != "" ==> r == s
    ensures s == "" ==> r == d
  {
    if s != "" then s else d
  }

  /** How a missing value reads when interpolated into a template string. */
  function Show(o: Option<string>): (r: string)
    ensures o.Some? ==> r == o.value
    ensures o.None? ==> r == "undefined"
  {
    if o.Some? then o.value else "undefined"
  }

  /** `Array.prototype.filter`: the elements that satisfy `p`, in order. */
  function Filter<T(==)>(s: seq<T>, p: T -> bool): (r: seq<T>)
    ensures |r| <= |s|
    ensures forall i :: 0 <= i < |r| ==> r[i] in s && p(r[i])
    ensures forall i :: 0 <= i < |s| && p(s[i]) ==> s[i] in r
  {
    if |s| == 0 then [] else
    var init := Filter(s[..|s| - 1], p);
    assert s == s[..|s| - 1] + [s[|s| - 1]];
    if p(s[|s| - 1]) then init + [s[|s| - 1]] else init
  }

  /** `s[i]` is the first element that satisfies `p`. */
  ghost predicate FirstAt<T>(s: seq<T>, p: T -> bool, i: int) {
    0 <= i < |s| && p(s[i]) && forall j :: 0 <= j < i ==> !p(s[j])
  }

  /** `Array.prototype.find`: the first element that satisfies `p`. */
  function Find<T>(s: seq<T>, p: T -> bool): (r: Option<T>)
    ensures r.None? <==> forall i :: 0 <= i < |s| ==> !p(s[i])
    ensures r.Some? ==> exists i :: FirstAt(s, p, i) && s[i] == r.value
    ensures r.Some? ==> p(r.value)
  {
    if |s| == 0 then None
    else if p(s[0]) then
      assert FirstAt(s, p, 0);
      Some(s[0])
    else
      var r := Find(s[1..], p);
      assert r.Some? ==> exists i :: FirstAt(s, p, i) && s[i] == r.value by {
        if r.Some? {
          var i :| FirstAt(s[1..], p, i) && s[1..][i] == r.value;
          assert FirstAt(s, p, i + 1);
        }
      }
      r
  }

  /** Filtering distributes over concatenation, which pins down the order
      of the result: each element keeps its place relative to the others. */
  lemma {:induction false} FilterConcat<T>(a: seq<T>, b: seq<T>, p: T -> bool)
    ensures Filter(a + b, p) == Filter(a, p) + Filter(b, p)
    decreases |b|
  {
    if |b| == 0 {
      assert a + b == a;
    } else {
      var b' := b[..|b| - 1];
      assert (a + b)[..|a + b| - 1] == a + b';
      assert b[..|b| - 1] == b';
      FilterConcat(a, b', p);
    }
  }

  /** Filtering with a predicate every element satisfies changes nothing. */
  lemma {:induction false} FilterAll<T>(s: seq<T>, p: T -> bool)
    requires forall i :: 0 <= i < |s| ==> p(s[i])
    ensures Filter(s, p) == s
  {
    if |s| > 0 {
      FilterAll(s[..|s| - 1], p);
      assert s == s[..|s| - 1] + [s[|s| - 1]];
    }
  }

  /** Filtering with a predicate no element satisfies gives the empty list. */
  lemma {:induction false} FilterNone<T>(s: seq<T>, p: T -> bool)
    requires forall i :: 0 <= i < |s| ==> !p(s[i])
    ensures Filter(s, p) == []
  {
    if |s| > 0 {
      FilterNone(s[..|s| - 1], p);
    }
  }

  /** Two predicates that agree on every element of `s` filter it alike. */
  lemma {:induction false} FilterCongruent<T>(s: seq<T>, p: T -> bool, q: T -> bool)
    requires forall i :: 0 <= i < |s| ==> p(s[i]) == q(s[i])
    ensures Filter(s, p) == Filter(s, q)
  {
    if |s| > 0 {
      FilterCongruent(s[..|s| - 1], p, q);
    }
  }

  /** `s.filter(p).length`. */
  function Count<T(==)>(s: seq<T>, p: T -> bool): (n: nat)
    ensures n <= |s|
  {
    |Filter(s, p)|
  }

  /** Counting with two predicates that never hold together counts each
      element at most once, so the two counts add up to at most `|s|`. */
  lemma {:induction false} DisjointCounts<T>(s: seq<T>, p: T -> bool, q: T -> bool)
    requires forall i :: 0 <= i < |s| ==> !(p(s[i]) && q(s[i]))
    ensures Count(s, p) + Count(s, q) <= |s|
  {
    if |s| > 0 {
      DisjointCounts(s[..|s| - 1], p, q);
    }
  }

  /** `s.slice(0, n)`: at most the first `n` elements. */
  function Take<T>(s: seq<T>, n: nat): (r: seq<T>)
    ensures |r| == if n < |s| then n else |s|
    ensures forall i :: 0 <= i < |r| ==> r[i] == s[i]
  {
    if n < |s| then s[..n] else s
  }

  /** No value occurs twice. */
  predicate NoDup<T(==)>(s: seq<T>) {
    forall i, j :: 0 <= i < j < |s| ==> s[i] != s[j]
  }

  /** Filtering a list without duplicates gives a list without duplicates. */
  lemma {:induction false} FilterNoDup<T>(s: seq<T>, p: T -> bool)
    requires NoDup(s)
    ensures NoDup(Filter(s, p))
  {
    if |s| > 0 {
      var init := s[..|s| - 1];
      assert NoDup(init);
      FilterNoDup(init, p);
      var x := s[|s| - 1];
      if p(x) {
        var f := Filter(init, p);
        forall i | 0 <= i < |f|
          ensures f[i] != x
        {
          var k :| 0 <= k < |init| && init[k] == f[i];
        }
      }
    }
  }
}
