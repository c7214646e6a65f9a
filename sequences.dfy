/** LINQ's `Where`, with the facts about it that the planning rules rely on. */
module Sequences {

  /** The elements of `s` that satisfy `p`, in their original order. */
  function Filter<T>(s: seq<T>, p: T -> bool): (r: seq<T>)
    ensures |r| <= |s|
    ensures forall i :: 0 <= i < |r| ==> r[i] in s && p(r[i])
    ensures forall i :: 0 <= i < |s| && p(s[i]) ==> s[i] in r
  {
    if s == [] then [] else (if p(s[0]) then [s[0]] else []) + Filter(s[1..], p)
  }

  /** `k` is the first position of `s` whose element satisfies `p`. */
  ghost predicate IsFirst<T>(s: seq<T>, p: T -> bool, k: int) {
    0 <= k < |s| && p(s[k]) && forall j :: 0 <= j < k ==> !p(s[j])
  }

  /** `k` is the only position of `s` whose element satisfies `p`. */
  ghost predicate IsOnly<T>(s: seq<T>, p: T -> bool, k: int) {
    0 <= k < |s| && p(s[k]) && forall j :: 0 <= j < |s| && p(s[j]) ==> j == k
  }

  lemma {:induction false} FilterEmpty<T>(s: seq<T>, p: T -> bool)
    ensures Filter(s, p) == [] <==> forall i :: 0 <= i < |s| ==> !p(s[i])
  {
    if s != [] {
      FilterEmpty(s[1..], p);
      if !p(s[0]) {
        assert Filter(s, p) == Filter(s[1..], p);
        assert (forall i :: 0 <= i < |s| ==> !p(s[i])) <==> (forall i :: 0 <= i < |s[1..]| ==> !p(s[1..][i]));
      }
    }
  }

  /** The first element that `Where` yields is the first element that satisfies the predicate. */
  lemma {:induction false} FilterFirst<T>(s: seq<T>, p: T -> bool, k: int)
    requires IsFirst(s, p, k)
    ensures |Filter(s, p)| >= 1 && Filter(s, p)[0] == s[k]
  {
    if k > 0 {
      assert !p(s[0]);
      assert IsFirst(s[1..], p, k - 1);
      FilterFirst(s[1..], p, k - 1);
    }
  }

  /** `Where` yields exactly one element precisely when exactly one position satisfies the predicate. */
  lemma {:induction false} FilterSingleton<T>(s: seq<T>, p: T -> bool)
    ensures |Filter(s, p)| == 1 <==> exists k :: IsOnly(s, p, k)
    ensures forall k :: IsOnly(s, p, k) ==> Filter(s, p) == [s[k]]
  {
    if s != [] {
      var rest := s[1..];
      FilterSingleton(rest, p);
      FilterEmpty(rest, p);
      if p(s[0]) {
        assert Filter(s, p) == [s[0]] + Filter(rest, p);
        if Filter(rest, p) == [] {
          assert IsOnly(s, p, 0);
        }
        forall k | IsOnly(s, p, k) ensures k == 0 && Filter(rest, p) == [] {
          forall i | 0 <= i < |rest| ensures !p(rest[i]) {
            assert s[i + 1] == rest[i];
          }
        }
      } else {
        assert Filter(s, p) == Filter(rest, p);
        forall k | IsOnly(s, p, k) ensures k >= 1 && IsOnly(rest, p, k - 1) {
          forall j | 0 <= j < |rest| && p(rest[j]) ensures j == k - 1 {
            assert s[j + 1] == rest[j];
          }
        }
        forall k | IsOnly(rest, p, k) ensures IsOnly(s, p, k + 1) {
          forall j | 0 <= j < |s| && p(s[j]) ensures j == k + 1 {
            assert j > 0 && rest[j - 1] == s[j];
          }
        }
        if exists k :: IsOnly(rest, p, k) {
          var k :| IsOnly(rest, p, k);
          assert IsOnly(s, p, k + 1);
        }
      }
    }
  }

  /** `Where` distributes over concatenation. */
  lemma {:induction false} FilterAppend<T>(a: seq<T>, b: seq<T>, p: T -> bool)
    ensures Filter(a + b, p) == Filter(a, p) + Filter(b, p)
  {
    if a != [] {
      assert (a + b)[1..] == a[1..] + b;
      FilterAppend(a[1..], b, p);
      assert Filter(a + b, p) == (if p(a[0]) then [a[0]] else []) + Filter((a + b)[1..], p);
    } else {
      assert a + b == b;
    }
  }

  lemma {:induction false} FilterAll<T>(s: seq<T>, p: T -> bool)
    requires forall i :: 0 <= i < |s| ==> p(s[i])
    ensures Filter(s, p) == s
  {
    if s != [] {
      FilterAll(s[1..], p);
    }
  }

  /** Two predicates that never hold together select at most `|s|` elements between them. */
  lemma {:induction false} FilterDisjointSize<T>(s: seq<T>, p: T -> bool, q: T -> bool)
    requires forall i :: 0 <= i < |s| ==> !(p(s[i]) && q(s[i]))
    ensures |Filter(s, p)| + |Filter(s, q)| <= |s|
  {
    if s != [] {
      FilterDisjointSize(s[1..], p, q);
    }
  }
}
