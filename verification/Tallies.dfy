/**
 * How many threads hold, wait for and sleep on a reader/writer lock, added up over all threads: five sums at once.
 * A thread's weight says what it adds to each, so a move of one thread changes the tally by the difference of its
 * weights, and a tally is as large as any one weight in it. The lock's counters are compared with these sums, which
 * is how a counter comes to say something about the threads.
 */
module Tallies {
  import opened Sequences

  /** What the counters count of the threads, and how many are asleep. */
  datatype Tally = Tally(readers: int, writers: int, pending: int, sleepingReaders: int, sleepingWriters: int)
  {
    function Plus(w: Tally): Tally {
      Tally(readers + w.readers, writers + w.writers, pending + w.pending,
            sleepingReaders + w.sleepingReaders, sleepingWriters + w.sleepingWriters)
    }

    predicate Covers(w: Tally) {
      && 0 <= w.readers <= readers && 0 <= w.writers <= writers && 0 <= w.pending <= pending
      && 0 <= w.sleepingReaders <= sleepingReaders && 0 <= w.sleepingWriters <= sleepingWriters
    }
  }

  const NOBODY := Tally(0, 0, 0, 0, 0)

  /** The tally of the first `k` elements, each counted with its weight. */
  function TallyTo<T>(s: seq<T>, weight: T -> Tally, k: nat): Tally
    requires k <= |s|
  {
    if k == 0 then NOBODY else TallyTo(s, weight, k - 1).Plus(weight(s[k - 1]))
  }

  lemma {:induction false} UpdateTally<T>(s: seq<T>, weight: T -> Tally, t: nat, x: T, k: nat)
    requires t < |s| && k <= |s|
    ensures TallyTo(s[t := x], weight, k).Plus(if t < k then weight(s[t]) else NOBODY)
         == TallyTo(s, weight, k).Plus(if t < k then weight(x) else NOBODY)
  {
    if k > 0 { UpdateTally(s, weight, t, x, k - 1); }
  }

  /** With no negative weights and every sleeping writer pending, the tally covers each element and keeps both. */
  lemma {:induction false} BoundTally<T>(s: seq<T>, weight: T -> Tally, t: nat, k: nat)
    requires k <= |s|
    requires forall i :: 0 <= i < |s| ==>
      weight(s[i]).Covers(NOBODY) && weight(s[i]).sleepingWriters <= weight(s[i]).pending
    ensures TallyTo(s, weight, k).Covers(if t < k then weight(s[t]) else NOBODY)
    ensures TallyTo(s, weight, k).sleepingWriters <= TallyTo(s, weight, k).pending
  {
    if k > 0 { BoundTally(s, weight, t, k - 1); }
  }

  lemma {:induction false} EmptyTally<T>(s: seq<T>, weight: T -> Tally, k: nat)
    requires k <= |s| && forall i :: 0 <= i < |s| ==> weight(s[i]) == NOBODY
    ensures TallyTo(s, weight, k) == NOBODY
  {
    if k > 0 { EmptyTally(s, weight, k - 1); }
  }

  /** A tally whose weights agree with three others counts what those count. */
  lemma {:induction false} TallyIsSums<T>(s: seq<T>, weight: T -> Tally, readers: T -> int, writers: T -> int,
                                          pending: T -> int, k: nat)
    requires k <= |s|
    requires forall i :: 0 <= i < |s| ==> weight(s[i]).readers == readers(s[i])
    requires forall i :: 0 <= i < |s| ==> weight(s[i]).writers == writers(s[i])
    requires forall i :: 0 <= i < |s| ==> weight(s[i]).pending == pending(s[i])
    ensures TallyTo(s, weight, k).readers == SumTo(s, readers, k)
    ensures TallyTo(s, weight, k).writers == SumTo(s, writers, k)
    ensures TallyTo(s, weight, k).pending == SumTo(s, pending, k)
  {
    if k > 0 { TallyIsSums(s, weight, readers, writers, pending, k - 1); }
  }

  function Woken(w: Tally, readers: bool): Tally {
    if readers then w.(sleepingReaders := 0) else w.(sleepingWriters := 0)
  }

  /** Waking every sleeper of one side changes nothing but their number. */
  lemma {:induction false} WakeTally<T>(s: seq<T>, weight: T -> Tally, s': seq<T>, readers: bool, k: nat)
    requires k <= |s| == |s'| && forall i :: 0 <= i < |s| ==> weight(s'[i]) == Woken(weight(s[i]), readers)
    ensures TallyTo(s', weight, k) == Woken(TallyTo(s, weight, k), readers)
  {
    if k > 0 { WakeTally(s, weight, s', readers, k - 1); }
  }
}
