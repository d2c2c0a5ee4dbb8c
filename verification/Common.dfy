/** Vocabulary shared by every module: optional values, results and bytes. */
module Common {

  datatype Option<+T> = None | Some(value: T)

  datatype Result<+T, +E> = Ok(value: T) | Err(error: E)

  newtype byte = x: int | 0 <= x < 256

  function Min(a: nat, b: nat): nat { if a <= b then a else b }

  /** The elements of `s` that satisfy `p`, in order. */
  function Filter<T>(s: seq<T>, p: T -> bool): (r: seq<T>)
    ensures |r| <= |s|
  {
    if s == [] then [] else (if p(s[0]) then [s[0]] else []) + Filter(s[1..], p)
  }

  lemma {:induction false} FilterAll<T>(s: seq<T>, p: T -> bool)
    requires forall x :: x in s ==> p(x)
    ensures Filter(s, p) == s
  {
    if s != [] {
      FilterAll(s[1..], p);
    }
  }

  function Map<A, B>(s: seq<A>, f: A -> B): (r: seq<B>)
    ensures |r| == |s| && forall i :: 0 <= i < |s| ==> r[i] == f(s[i])
  {
    seq(|s|, i requires 0 <= i < |s| => f(s[i]))
  }

  lemma {:induction false} MapAppend<A, B>(s: seq<A>, t: seq<A>, f: A -> B)
    ensures Map(s + t, f) == Map(s, f) + Map(t, f)
  {
  }

  lemma {:induction false} Associative<T>(a: seq<T>, b: seq<T>, c: seq<T>)
    ensures (a + b) + c == a + (b + c)
  {
  }

  ghost predicate Distinct<T>(s: seq<T>) {
    forall i, j :: 0 <= i < j < |s| ==> s[i] != s[j]
  }

  /** A sequence without repeats has as many elements as the set it spans. */
  lemma {:induction false} DistinctCardinality<T>(s: seq<T>)
    ensures |(set x | x in s)| <= |s|
    ensures Distinct(s) <==> |(set x | x in s)| == |s|
  {
    if s == [] {
      assert (set x | x in s) == {};
    } else {
      var n := |s| - 1;
      var r := s[..n];
      DistinctCardinality(r);
      assert s == r + [s[n]];
      assert (set x | x in s) == (set x | x in r) + {s[n]};
      if s[n] in r {
        var k :| 0 <= k < n && r[k] == s[n];
        assert s[k] == s[n];
        assert (set x | x in s) == (set x | x in r);
      } else {
        assert forall i :: 0 <= i < n ==> s[i] == r[i] && s[i] in r;
        assert Distinct(s) <==> Distinct(r);
      }
    }
  }
}
