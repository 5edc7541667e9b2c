/**
 Generic facts about sequences that the password evaluator relies on: counting
 the true entries of a boolean sequence (how a score is summed) and keeping the
 entries of a fixed list whose flag is set (how a list of conditional appends
 in a fixed order behaves).
 */
module Sequences {

  /** The number of `true` entries of `bs`. */
  function CountTrue(bs: seq<bool>): (n: nat)
    ensures n <= |bs|
    ensures n == 0 <==> forall k :: 0 <= k < |bs| ==> !bs[k]
    ensures n == |bs| <==> forall k :: 0 <= k < |bs| ==> bs[k]
  {
    if |bs| == 0 then 0
    else (if bs[0] then 1 else 0) + CountTrue(bs[1..])
  }

  /** The entries `xs[k]` whose flag `keep[k]` holds, in their original order. */
  function Select<T>(xs: seq<T>, keep: seq<bool>): (selected: seq<T>)
    requires |xs| == |keep|
  {
    if |xs| == 0 then []
    else (if keep[0] then [xs[0]] else []) + Select(xs[1..], keep[1..])
  }

  /** No value occurs twice in `xs`. */
  predicate Distinct<T(==)>(xs: seq<T>)
  {
    forall i, j :: 0 <= i < j < |xs| ==> xs[i] != xs[j]
  }

  /** `a` can be obtained from `b` by deleting entries, keeping the order. */
  predicate SubsequenceOf<T(==)>(a: seq<T>, b: seq<T>)
    decreases |b|
  {
    if a == [] then true
    else if b == [] then false
    else (a[0] == b[0] && SubsequenceOf(a[1..], b[1..])) || SubsequenceOf(a, b[1..])
  }

  /** A value is selected exactly when it sits at a position whose flag is set. */
  lemma {:induction false} SelectMembers<T>(xs: seq<T>, keep: seq<bool>, x: T)
    requires |xs| == |keep|
    ensures x in Select(xs, keep) <==> exists k :: 0 <= k < |xs| && keep[k] && xs[k] == x
  {
    if xs != [] {
      SelectMembers(xs[1..], keep[1..], x);
      var head: seq<T> := if keep[0] then [xs[0]] else [];
      assert Select(xs, keep) == head + Select(xs[1..], keep[1..]);
      if exists k :: 0 <= k < |xs| && keep[k] && xs[k] == x {
        var k :| 0 <= k < |xs| && keep[k] && xs[k] == x;
        if k > 0 {
          assert keep[1..][k - 1] && xs[1..][k - 1] == x;
        }
      }
      if x in Select(xs[1..], keep[1..]) {
        var k :| 0 <= k < |xs| - 1 && keep[1..][k] && xs[1..][k] == x;
        assert keep[k + 1] && xs[k + 1] == x;
      }
    }
  }

  /** As many entries are selected as flags are set; none exactly when no flag is set. */
  lemma {:induction false} SelectLength<T>(xs: seq<T>, keep: seq<bool>)
    requires |xs| == |keep|
    ensures |Select(xs, keep)| == CountTrue(keep) <= |xs|
    ensures Select(xs, keep) == [] <==> forall k :: 0 <= k < |keep| ==> !keep[k]
  {
    if xs != [] {
      SelectLength(xs[1..], keep[1..]);
      assert forall k :: 0 < k < |keep| ==> keep[k] == keep[1..][k - 1];
    }
  }

  /** Selecting from a list without repetitions yields a list without repetitions. */
  lemma {:induction false} SelectDistinct<T>(xs: seq<T>, keep: seq<bool>)
    requires |xs| == |keep|
    requires Distinct(xs)
    ensures Distinct(Select(xs, keep))
  {
    if xs != [] {
      var tail := Select(xs[1..], keep[1..]);
      assert Distinct(xs[1..]) by {
        forall i, j | 0 <= i < j < |xs| - 1 ensures xs[1..][i] != xs[1..][j] {
          assert xs[i + 1] != xs[j + 1];
        }
      }
      SelectDistinct(xs[1..], keep[1..]);
      if keep[0] {
        SelectMembers(xs[1..], keep[1..], xs[0]);
        assert xs[0] !in tail by {
          forall k | 0 <= k < |xs| - 1 ensures xs[1..][k] != xs[0] {
            assert xs[k + 1] != xs[0];
          }
        }
        var r := [xs[0]] + tail;
        assert Select(xs, keep) == r;
        forall i, j | 0 <= i < j < |r| ensures r[i] != r[j] {
          if i == 0 {
            assert r[j] == tail[j - 1];
            assert r[j] in tail;
          } else {
            assert r[i] == tail[i - 1] && r[j] == tail[j - 1];
          }
        }
      } else {
        assert Select(xs, keep) == tail;
      }
    }
  }

  /** What is selected keeps the relative order of `xs`. */
  lemma {:induction false} SelectSubsequence<T>(xs: seq<T>, keep: seq<bool>)
    requires |xs| == |keep|
    ensures SubsequenceOf(Select(xs, keep), xs)
  {
    if xs != [] {
      var tail := Select(xs[1..], keep[1..]);
      SelectSubsequence(xs[1..], keep[1..]);
      if keep[0] {
        var r := [xs[0]] + tail;
        assert Select(xs, keep) == r;
        assert r[0] == xs[0] && r[1..] == tail;
      } else {
        assert Select(xs, keep) == tail;
        if tail != [] {
          assert SubsequenceOf(tail, xs[1..]);
        }
      }
    }
  }

  /**
   The list `s` after appending, one after another, each `xs[j]` with `k <= j`
   whose flag `keep[j]` is set: a run of conditional appends.
   */
  function AppendFrom<T>(s: seq<T>, xs: seq<T>, keep: seq<bool>, k: nat): (appended: seq<T>)
    requires |xs| == |keep| && k <= |xs|
    decreases |xs| - k
  {
    if k == |xs| then s
    else AppendFrom(if keep[k] then s + [xs[k]] else s, xs, keep, k + 1)
  }

  /** `[x]` when `keep` holds, and the empty sequence otherwise. */
  function Opt<T>(keep: bool, x: T): (entry: seq<T>)
  {
    if keep then [x] else []
  }

  /** One conditional append, written with `Opt`. */
  lemma AppendFromStep<T>(s: seq<T>, xs: seq<T>, keep: seq<bool>, k: nat)
    requires |xs| == |keep| && k < |xs|
    ensures AppendFrom(s, xs, keep, k) == AppendFrom(s + Opt(keep[k], xs[k]), xs, keep, k + 1)
  {
    if !keep[k] {
      assert s + [] == s;
    }
  }

  /** A run of conditional appends adds exactly the selected entries, in order. */
  lemma {:induction false} AppendFromSelect<T>(s: seq<T>, xs: seq<T>, keep: seq<bool>, k: nat)
    requires |xs| == |keep| && k <= |xs|
    ensures AppendFrom(s, xs, keep, k) == s + Select(xs[k..], keep[k..])
    decreases |xs| - k
  {
    if k < |xs| {
      var s' := if keep[k] then s + [xs[k]] else s;
      AppendFromSelect(s', xs, keep, k + 1);
      assert xs[k..][1..] == xs[k + 1..] && keep[k..][1..] == keep[k + 1..];
      assert s' + Select(xs[k + 1..], keep[k + 1..]) == s + Select(xs[k..], keep[k..]);
    }
  }

  /** Seven conditional appends, written out one optional entry at a time. */
  lemma AppendSeven<T>(xs: seq<T>, keep: seq<bool>)
    requires |xs| == |keep| == 7
    ensures AppendFrom([], xs, keep, 0) ==
      Opt(keep[0], xs[0]) + Opt(keep[1], xs[1]) + Opt(keep[2], xs[2]) + Opt(keep[3], xs[3]) +
      Opt(keep[4], xs[4]) + Opt(keep[5], xs[5]) + Opt(keep[6], xs[6])
  {
    var s0: seq<T> := [];
    AppendFromStep(s0, xs, keep, 0);
    var s1 := s0 + Opt(keep[0], xs[0]);
    AppendFromStep(s1, xs, keep, 1);
    var s2 := s1 + Opt(keep[1], xs[1]);
    AppendFromStep(s2, xs, keep, 2);
    var s3 := s2 + Opt(keep[2], xs[2]);
    AppendFromStep(s3, xs, keep, 3);
    var s4 := s3 + Opt(keep[3], xs[3]);
    AppendFromStep(s4, xs, keep, 4);
    var s5 := s4 + Opt(keep[4], xs[4]);
    AppendFromStep(s5, xs, keep, 5);
    var s6 := s5 + Opt(keep[5], xs[5]);
    AppendFromStep(s6, xs, keep, 6);
    var s7 := s6 + Opt(keep[6], xs[6]);
    assert s0 + Opt(keep[0], xs[0]) == Opt(keep[0], xs[0]);
  }
}
