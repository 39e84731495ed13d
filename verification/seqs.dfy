/** The LINQ sequence operators the modelled code uses: `Where`, `Distinct`,
    `Union` and `Except`. */
module Seqs {
  import opened Wrappers

  /** `Where(f)`: the elements satisfying `f`, in their original order. */
  function Filter<T(!new)>(s: seq<T>, f: T -> bool): (r: seq<T>)
    ensures |r| <= |s|
    ensures forall x :: x in r <==> x in s && f(x)
  {
    if s == [] then [] else (if f(s[0]) then [s[0]] else []) + Filter(s[1..], f)
  }

  /** Filtering commutes with concatenation, so the filter keeps the relative order. */
  lemma {:induction false} FilterConcat<T(!new)>(s: seq<T>, t: seq<T>, f: T -> bool)
    ensures Filter(s + t, f) == Filter(s, f) + Filter(t, f)
    decreases |s|
  {
    if s == [] {
      assert s + t == t;
    } else {
      assert (s + t)[1..] == s[1..] + t;
      FilterConcat(s[1..], t, f);
    }
  }

  /** Filtering keeps every element satisfying `f` exactly as often as it occurs. */
  lemma {:induction false} FilterMultiset<T(!new)>(s: seq<T>, f: T -> bool, x: T)
    ensures multiset(Filter(s, f))[x] == if f(x) then multiset(s)[x] else 0
    decreases |s|
  {
    if s != [] {
      FilterMultiset(s[1..], f, x);
      assert s == [s[0]] + s[1..];
    }
  }

  /** Replacing an element that `f` rejects by another that `f` rejects
      does not change the filter. */
  lemma {:induction false} FilterUpdateRejected<T(!new)>(s: seq<T>, i: nat, v: T, f: T -> bool)
    requires i < |s| && !f(s[i]) && !f(v)
    ensures Filter(s[i := v], f) == Filter(s, f)
  {
    assert s == s[..i] + [s[i]] + s[i + 1..];
    assert s[i := v] == s[..i] + [v] + s[i + 1..];
    FilterConcat(s[..i] + [s[i]], s[i + 1..], f);
    FilterConcat(s[..i], [s[i]], f);
    FilterConcat(s[..i] + [v], s[i + 1..], f);
    FilterConcat(s[..i], [v], f);
    assert Filter([v], f) == [] by { assert [v][1..] == []; }
    assert Filter([s[i]], f) == [] by { assert [s[i]][1..] == []; }
  }

  /** Deleting an element that `f` rejects does not change the filter. */
  lemma {:induction false} FilterDeleteRejected<T(!new)>(s: seq<T>, i: nat, f: T -> bool)
    requires i < |s| && !f(s[i])
    ensures Filter(s[..i] + s[i + 1..], f) == Filter(s, f)
  {
    var pre, post := s[..i], s[i + 1..];
    assert s == (pre + [s[i]]) + post;
    FilterConcat(pre + [s[i]], post, f);
    FilterConcat(pre, [s[i]], f);
    FilterConcat(pre, post, f);
    assert Filter([s[i]], f) == [] by { assert [s[i]][1..] == []; }
    assert Filter(pre + [s[i]], f) == Filter(pre, f);
  }

  ghost predicate NoDuplicates<T>(s: seq<T>) {
    forall i, j :: 0 <= i < j < |s| ==> s[i] != s[j]
  }

  /** Two duplicate-free sequences with no element in common concatenate to
      a duplicate-free sequence. */
  lemma NoDuplicatesConcat<T>(a: seq<T>, b: seq<T>)
    requires NoDuplicates(a) && NoDuplicates(b)
    requires forall x :: x in a ==> x !in b
    ensures NoDuplicates(a + b)
  {
    forall i, j | 0 <= i < j < |a + b| ensures (a + b)[i] != (a + b)[j] {
      if i < |a| <= j {
        assert (a + b)[j] == b[j - |a|] && b[j - |a|] in b;
      }
    }
  }

  /** `Distinct`: the first occurrence of every element, in order. */
  function Distinct<T(==,!new)>(s: seq<T>): (r: seq<T>)
    ensures NoDuplicates(r)
    ensures forall x :: x in r <==> x in s
    decreases |s|
  {
    if s == [] then []
    else
      var prefix := Distinct(s[..|s| - 1]);
      assert forall x :: x in s <==> x in s[..|s| - 1] || x == s[|s| - 1] by {
        assert s == s[..|s| - 1] + [s[|s| - 1]];
      }
      if s[|s| - 1] in prefix then prefix else prefix + [s[|s| - 1]]
  }

  /** A sequence without duplicates is its own `Distinct`. */
  lemma {:induction false} DistinctOfNoDuplicates<T(!new)>(s: seq<T>)
    requires NoDuplicates(s)
    ensures Distinct(s) == s
    decreases |s|
  {
    if s != [] {
      var init := s[..|s| - 1];
      assert NoDuplicates(init);
      DistinctOfNoDuplicates(init);
      assert s[|s| - 1] !in init;
      assert s == init + [s[|s| - 1]];
    }
  }

  /** `first.Union(second)`: the distinct elements of `first`, then those of `second`. */
  function Union<T(==,!new)>(first: seq<T>, second: seq<T>): (r: seq<T>)
    ensures NoDuplicates(r)
    ensures forall x :: x in r <==> x in first || x in second
  {
    Distinct(first + second)
  }

  /** `first.Except(second)`: the distinct elements of `first` not in `second`. */
  function Except<T(==,!new)>(first: seq<T>, second: seq<T>): (r: seq<T>)
    ensures NoDuplicates(r)
    ensures forall x :: x in r <==> x in first && x !in second
  {
    Distinct(Filter(first, x => x !in second))
  }

  /** The position of the first element satisfying `f`, if any. */
  function FirstIndex<T>(s: seq<T>, f: T -> bool): (r: Option<nat>)
    ensures r.None? <==> forall i :: 0 <= i < |s| ==> !f(s[i])
    ensures r.Some? ==> r.value < |s| && f(s[r.value])
    ensures r.Some? ==> forall j :: 0 <= j < r.value ==> !f(s[j])
  {
    if s == [] then None
    else if f(s[0]) then Some(0)
    else match FirstIndex(s[1..], f)
      case None => None
      case Some(i) => Some(i + 1)
  }
}
