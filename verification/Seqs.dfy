/** Duplicate-free sequences and the removals the scheduler and the caches perform on them. */
module Seqs {
  ghost predicate Distinct<T>(s: seq<T>) {
    forall i, j :: 0 <= i < j < |s| ==> s[i] != s[j]
  }

  /** `retain(|x| x != gone)`. */
  function Without<T(==,!new)>(s: seq<T>, gone: T): (r: seq<T>)
    ensures |r| <= |s|
    ensures gone in s ==> |r| < |s|
    ensures forall x :: x in r <==> x in s && x != gone
    ensures gone !in s ==> r == s
  {
    if s == [] then []
    else if s[0] == gone then Without(s[1..], gone)
    else [s[0]] + Without(s[1..], gone)
  }

  function RemoveAt<T>(s: seq<T>, i: nat): seq<T>
    requires i < |s|
  {
    s[..i] + s[i + 1..]
  }

  /** The last `n` elements, or all there are. */
  function LastN<T>(s: seq<T>, n: nat): seq<T> {
    if |s| > n then s[|s| - n..] else s
  }

  lemma {:induction false} WithoutDistinct<T(!new)>(s: seq<T>, gone: T)
    requires Distinct(s)
    ensures Distinct(Without(s, gone))
    ensures gone in s ==> |Without(s, gone)| == |s| - 1
  {
    if s != [] {
      WithoutDistinct(s[1..], gone);
      if s[0] == gone {
        assert gone !in s[1..];
      } else {
        assert s[0] !in s[1..];
        var rest := Without(s[1..], gone);
        assert s[0] !in rest;
        var r := [s[0]] + rest;
        forall i, j | 0 <= i < j < |r| ensures r[i] != r[j] {
          assert r[j] == rest[j - 1];
          if i > 0 { assert r[i] == rest[i - 1]; }
        }
      }
    }
  }

  /** Removing the element at `i` of a duplicate-free sequence is removing its value. */
  lemma {:induction false} RemoveAtIsWithout<T(!new)>(s: seq<T>, i: nat)
    requires i < |s| && Distinct(s)
    ensures RemoveAt(s, i) == Without(s, s[i])
  {
    if i == 0 {
      assert s[0] !in s[1..];
      assert RemoveAt(s, 0) == s[1..];
    } else {
      RemoveAtIsWithout(s[1..], i - 1);
      assert RemoveAt(s, i) == [s[0]] + RemoveAt(s[1..], i - 1);
    }
  }

  /** `Without` keeps the relative order: any relation between earlier and later
      elements that held before holds after. */
  lemma {:induction false} WithoutOrder<T(!new)>(s: seq<T>, gone: T, before: (T, T) -> bool)
    requires forall i, j :: 0 <= i < j < |s| ==> before(s[i], s[j])
    ensures forall i, j :: 0 <= i < j < |Without(s, gone)| ==> before(Without(s, gone)[i], Without(s, gone)[j])
  {
    if s != [] {
      var rest := Without(s[1..], gone);
      WithoutOrder(s[1..], gone, before);
      var r := Without(s, gone);
      if s[0] != gone {
        forall i, j | 0 <= i < j < |r| ensures before(r[i], r[j]) {
          assert r[j] == rest[j - 1] && rest[j - 1] in s[1..];
          if i > 0 { assert r[i] == rest[i - 1]; }
        }
      }
    }
  }

  ghost function ToSet<T>(s: seq<T>): set<T> {
    set x | x in s
  }

  lemma {:induction false} DistinctSize<T>(s: seq<T>)
    requires Distinct(s)
    ensures |ToSet(s)| == |s|
  {
    if s == [] {
      assert ToSet(s) == {};
    } else {
      DistinctSize(s[1..]);
      assert s[0] !in s[1..];
      assert ToSet(s) == {s[0]} + ToSet(s[1..]);
    }
  }

  lemma SubsetSize<T>(a: set<T>, b: set<T>)
    requires a <= b
    ensures |a| <= |b|
  {
    assert b == a + (b - a);
  }

  lemma AppendedDistinct<T>(s: seq<T>, x: T)
    requires Distinct(s) && x !in s
    ensures Distinct(s + [x])
  {
    var r := s + [x];
    forall i, j | 0 <= i < j < |r| ensures r[i] != r[j] {
      assert r[i] in s;
    }
  }

  lemma Associate<T>(a: seq<T>, b: seq<T>, c: seq<T>)
    ensures a + (b + c) == (a + b) + c
  {
  }

  lemma ToSetNone<T>()
    ensures ToSet<T>([]) == {}
  {
  }

  lemma ToSetNext<T>(s: seq<T>, i: nat)
    requires i < |s|
    ensures ToSet(s[..i + 1]) == ToSet(s[..i]) + {s[i]}
  {
    assert s[..i + 1] == s[..i] + [s[i]];
  }

  /** Any order in which a set can be walked. */
  method Enumerate<T(!new)>(s: set<T>) returns (r: seq<T>)
    ensures Distinct(r) && ToSet(r) == s && forall x :: x in r <==> x in s
  {
    r := [];
    var rest := s;
    while rest != {}
      invariant rest <= s && Distinct(r) && forall x :: x in r <==> x in s && x !in rest
      decreases |rest|
    {
      var x :| x in rest;
      rest := rest - {x};
      AppendedDistinct(r, x);
      r := r + [x];
    }
  }
}
