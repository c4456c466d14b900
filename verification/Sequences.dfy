/**
 * What every protocol model needs of sequences. The sum of a function over a sequence counts threads and adds up
 * the steps that they have left: a step of one thread changes one term, so an update changes the sum by the
 * difference, and a drop of one term outweighs a small growth of all others. A sequence of threads without
 * duplicates, such as a queue, is no longer than there are threads. A subsequence is what a log keeps of another
 * when entries are skipped: here the entries into a lock among the exchanges that joined its queue.
 */
module Sequences {

  function Sum<T>(s: seq<T>, f: T -> int): int {
    SumTo(s, f, |s|)
  }

  function SumTo<T>(s: seq<T>, f: T -> int, k: nat): int
    requires k <= |s|
  {
    if k == 0 then 0 else SumTo(s, f, k - 1) + f(s[k - 1])
  }

  // Each lemma speaks of the first `k` terms, by default of all.

  lemma {:induction false} SumUpdate<T>(s: seq<T>, f: T -> int, i: nat, x: T, k: nat := |s|)
    requires i < |s| && k <= |s|
    ensures SumTo(s[i := x], f, k) == SumTo(s, f, k) + if i < k then f(x) - f(s[i]) else 0
  {
    if k > 0 { SumUpdate(s, f, i, x, k - 1); }
  }

  /** One term falls by `drop` while no other grows by more than `slack`. */
  lemma {:induction false} SumDrop<T>(s: seq<T>, f: T -> int, s': seq<T>, f': T -> int,
                                      t: nat, drop: int, slack: nat, k: nat := |s|)
    requires |s| == |s'| && k <= |s|
    requires forall i :: 0 <= i < |s| && i != t ==> f'(s'[i]) <= f(s[i]) + slack
    requires t < |s| ==> f'(s'[t]) + drop <= f(s[t])
    ensures SumTo(s', f', k) + (if t < k then drop else 0) <= SumTo(s, f, k) + slack * k
  {
    if k > 0 { SumDrop(s, f, s', f', t, drop, slack, k - 1); }
  }

  lemma {:induction false} SumSame<T>(s: seq<T>, f: T -> int, s': seq<T>, f': T -> int, k: nat := |s|)
    requires |s| == |s'| && k <= |s| && forall i :: 0 <= i < |s| ==> f'(s'[i]) == f(s[i])
    ensures SumTo(s', f', k) == SumTo(s, f, k)
  {
    if k > 0 { SumSame(s, f, s', f', k - 1); }
  }

  lemma {:induction false} SumConstant<T>(s: seq<T>, f: T -> int, c: int, k: nat := |s|)
    requires k <= |s| && forall i :: 0 <= i < |s| ==> f(s[i]) == c
    ensures SumTo(s, f, k) == k * c
  {
    if k > 0 { SumConstant(s, f, c, k - 1); }
  }

  /** A sum of non-negative terms is at least as large as any one of them. */
  lemma {:induction false} SumAtLeast<T>(s: seq<T>, f: T -> int, i: nat, k: nat := |s|)
    requires k <= |s| && forall j :: 0 <= j < |s| ==> 0 <= f(s[j])
    ensures 0 <= SumTo(s, f, k) && (i < k ==> f(s[i]) <= SumTo(s, f, k))
  {
    if k > 0 { SumAtLeast(s, f, i, k - 1); }
  }

  /** A smaller sum has a smaller term. */
  lemma {:induction false} SumLess<T>(s: seq<T>, f: T -> int, g: T -> int, k: nat := |s|) returns (i: nat)
    requires k <= |s| && SumTo(s, f, k) < SumTo(s, g, k)
    ensures i < k && f(s[i]) < g(s[i])
  {
    if f(s[k - 1]) < g(s[k - 1]) {
      i := k - 1;
    } else {
      i := SumLess(s, f, g, k - 1);
    }
  }

  predicate NoDup<T(==)>(s: seq<T>) {
    forall i, j :: 0 <= i < j < |s| ==> s[i] != s[j]
  }

  lemma {:induction false} Pigeonhole(q: seq<nat>, n: nat)
    requires NoDup(q) && forall i :: 0 <= i < |q| ==> q[i] < n
    ensures |q| <= n
  {
    if i :| 0 <= i < |q| && q[i] == n - 1 {
      var rest := q[..i] + q[i + 1..];
      forall j | 0 <= j < |rest| ensures rest[j] < n - 1 {
        assert rest[j] == q[if j < i then j else j + 1];
      }
      Pigeonhole(rest, n - 1);
    } else if q != [] {
      assert q[0] < n;
      Pigeonhole(q, n - 1);
    }
  }

  // ---------------------------------------------------------------- subsequences

  /** `xs` is what is left of `ys` when some of its elements are skipped. */
  predicate Subsequence<T(==)>(xs: seq<T>, ys: seq<T>)
    decreases |ys|
  {
    || xs == []
    || (ys != [] && Subsequence(xs, ys[..|ys| - 1]))
    || (ys != [] && xs[|xs| - 1] == ys[|ys| - 1] && Subsequence(xs[..|xs| - 1], ys[..|ys| - 1]))
  }

  lemma TakeOne<T>(xs: seq<T>, ys: seq<T>, z: T)
    requires Subsequence(xs, ys)
    ensures Subsequence(xs + [z], ys + [z])
  {
    assert (xs + [z])[..|xs|] == xs && (ys + [z])[..|ys|] == ys;
  }

  lemma SkipOne<T>(xs: seq<T>, ys: seq<T>, z: T)
    requires Subsequence(xs, ys)
    ensures Subsequence(xs, ys + [z])
  {
    assert (ys + [z])[..|ys|] == ys;
  }

  lemma {:induction false} SubsequenceFront<T>(xs: seq<T>, ys: seq<T>, k: nat)
    requires k <= |xs| && Subsequence(xs, ys)
    ensures Subsequence(xs[..k], ys)
    decreases |ys|
  {
    if k == |xs| {
      assert xs[..k] == xs;
    } else if k > 0 {
      var front := ys[..|ys| - 1];
      if Subsequence(xs, front) {
        SubsequenceFront(xs, front, k);
      } else {
        SubsequenceFront(xs[..|xs| - 1], front, k);
        assert xs[..|xs| - 1][..k] == xs[..k];
      }
    }
  }

  lemma {:induction false} SubsequenceTrans<T>(xs: seq<T>, ys: seq<T>, zs: seq<T>)
    requires Subsequence(xs, ys) && Subsequence(ys, zs)
    ensures Subsequence(xs, zs)
    decreases |zs|
  {
    if xs != [] {
      var front := zs[..|zs| - 1];
      if Subsequence(ys, front) {
        SubsequenceTrans(xs, ys, front);
      } else if Subsequence(xs, ys[..|ys| - 1]) {
        SubsequenceTrans(xs, ys[..|ys| - 1], front);
      } else {
        SubsequenceTrans(xs[..|xs| - 1], ys[..|ys| - 1], front);
      }
    }
  }
}
