/** Sequence and string helpers shared by the page components: the JavaScript
    idioms `Array.prototype.filter`, `s.split(sep)[0]`, truthiness of an
    optional string, and "which buttons of a row are highlighted". */
module Common {

  datatype Option<+T> = None | Some(value: T)

  /** JavaScript truthiness of an optional string field: `undefined` and `""` are falsy. */
  predicate Truthy(s: Option<string>) {
    s.Some? && s.value != ""
  }

  predicate Distinct<T(==)>(s: seq<T>) {
    forall i, j :: 0 <= i < j < |s| ==> s[i] != s[j]
  }

  /** `xs.map(f)`: the image of each element, in order. */
  function MapSeq<T, U>(xs: seq<T>, f: T -> U): (r: seq<U>)
    ensures |r| == |xs| && forall k :: 0 <= k < |xs| ==> r[k] == f(xs[k])
  {
    seq(|xs|, k requires 0 <= k < |xs| => f(xs[k]))
  }

  /** `s.filter(f)`: the elements of `s` that satisfy `f`, in their original order. */
  function Keep<T(!new)>(s: seq<T>, f: T -> bool): (r: seq<T>)
    ensures |r| <= |s|
    ensures forall x :: x in r <==> x in s && f(x)
  {
    if s == [] then [] else (if f(s[0]) then [s[0]] else []) + Keep(s[1..], f)
  }

  /** Filtering a single element keeps it exactly when it satisfies `f`. */
  lemma KeepSingleton<T(!new)>(x: T, f: T -> bool)
    ensures Keep([x], f) == if f(x) then [x] else []
  {
    assert [x][1..] == [];
  }

  /** Filtering distributes over concatenation, so it keeps the original order. */
  lemma {:induction false} KeepConcat<T(!new)>(a: seq<T>, b: seq<T>, f: T -> bool)
    ensures Keep(a + b, f) == Keep(a, f) + Keep(b, f)
  {
    if a == [] {
      assert a + b == b;
    } else {
      assert (a + b)[1..] == a[1..] + b;
      KeepConcat(a[1..], b, f);
    }
  }

  /** Filtering by a predicate and by its negation splits `s` into two parts
      that together hold every element exactly as often as `s` does. */
  lemma {:induction false} KeepPartition<T(!new)>(s: seq<T>, f: T -> bool, g: T -> bool)
    requires forall x :: g(x) == !f(x)
    ensures multiset(Keep(s, f)) + multiset(Keep(s, g)) == multiset(s)
  {
    if s != [] {
      var x, rest := s[0], s[1..];
      KeepPartition(rest, f, g);
      assert s == [x] + rest;
      assert Keep(s, f) == (if f(x) then [x] else []) + Keep(rest, f);
      assert Keep(s, g) == (if g(x) then [x] else []) + Keep(rest, g);
      assert multiset(s) == multiset{x} + multiset(rest);
      assert multiset(if f(x) then [x] else []) + multiset(if g(x) then [x] else []) == multiset{x};
    }
  }

  /** `s.split(sep)[0]`: the part of `s` before the first `sep`, or all of `s`
      when `sep` does not occur. */
  function SplitFirst(s: string, sep: char): (r: string)
    ensures |r| <= |s| && r == s[..|r|]
    ensures sep !in r
    ensures |r| == |s| || s[|r|] == sep
  {
    if s == [] then []
    else if s[0] == sep then []
    else [s[0]] + SplitFirst(s[1..], sep)
  }

  /** The part before the first separator is determined by where the first
      separator is: splitting `a + b`, where `a` has no separator and `b` is
      empty or starts with one, gives back `a`. */
  lemma {:induction false} SplitFirstAt(a: string, b: string, sep: char)
    requires sep !in a
    requires b == [] || b[0] == sep
    ensures SplitFirst(a + b, sep) == a
  {
    if a == [] {
      assert a + b == b;
    } else {
      assert (a + b)[0] == a[0] && (a + b)[1..] == a[1..] + b;
      SplitFirstAt(a[1..], b, sep);
      assert a == [a[0]] + a[1..];
    }
  }

  /** The positions of a row of buttons whose key equals `x`: the highlighted ones. */
  function Positions<T(==)>(s: seq<T>, x: T): (r: set<int>)
    ensures forall k :: k in r <==> 0 <= k < |s| && s[k] == x
  {
    set k | 0 <= k < |s| && s[k] == x
  }

  /** With distinct keys, exactly one button is highlighted when `x` is a key
      and none otherwise. */
  lemma DistinctPositions<T>(s: seq<T>, x: T)
    requires Distinct(s)
    ensures |Positions(s, x)| == if x in s then 1 else 0
  {
    if x in s {
      var k :| 0 <= k < |s| && s[k] == x;
      assert Positions(s, x) == {k};
    } else {
      assert Positions(s, x) == {};
    }
  }
}
