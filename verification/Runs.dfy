/** Runs of a transition system: its steps along a schedule, and why every fair one ends. */
module Runs {

  function Run<S, E>(step: (S, E) -> S, s: S, events: seq<E>): S
    decreases |events|
  {
    if events == [] then s else Run(step, step(s, events[0]), events[1..])
  }

  /** The events of a run that meet a condition in the state in which they happen, in order. */
  function Picked<S, E>(step: (S, E) -> S, pick: (S, E) -> bool, s: S, events: seq<E>): seq<E>
    decreases |events|
  {
    if events == [] then []
    else (if pick(s, events[0]) then [events[0]] else []) + Picked(step, pick, step(s, events[0]), events[1..])
  }

  /** The number of steps of a run that change the state. */
  function Effective<S(==), E>(step: (S, E) -> S, s: S, events: seq<E>): nat
    decreases |events|
  {
    if events == [] then 0
    else (if step(s, events[0]) != s then 1 else 0) + Effective(step, step(s, events[0]), events[1..])
  }

  lemma {:induction false} RunAppend<S, E>(step: (S, E) -> S, s: S, first: seq<E>, second: seq<E>)
    ensures Run(step, s, first + second) == Run(step, Run(step, s, first), second)
    decreases |first|
  {
    if first == [] {
      assert first + second == second;
    } else {
      assert (first + second)[1..] == first[1..] + second;
      RunAppend(step, step(s, first[0]), first[1..], second);
    }
  }

  lemma RunOne<S, E>(step: (S, E) -> S, s: S, e: E)
    ensures Run(step, s, [e]) == step(s, e)
  {
    assert [e][1..] == [];
  }

  lemma RunTwo<S, E>(step: (S, E) -> S, s: S, e: E, f: E, rest: seq<E>)
    ensures Run(step, s, [e, f] + rest) == Run(step, step(step(s, e), f), rest)
  {
    var events := [e, f] + rest;
    assert events[1..] == [f] + rest && events[1..][1..] == rest;
  }

  // ---------------------------------------------------------------- fair runs

  type Tid = nat

  predicate Covers(segment: seq<Tid>, threads: nat) {
    forall t :: 0 <= t < threads ==> t in segment
  }

  /** Every segment has a step of every thread. */
  predicate Fair(segments: seq<seq<Tid>>, threads: nat) {
    forall i :: 0 <= i < |segments| ==> Covers(segments[i], threads)
  }

  function Flat(segments: seq<seq<Tid>>): seq<Tid> {
    if segments == [] then [] else segments[0] + Flat(segments[1..])
  }

  /** A system of threads, what its reachable states satisfy, when it is finished, and a measure of what is left. */
  datatype System<!S(!new)> =
    System(threads: nat, step: (S, Tid) -> S, good: S -> bool, done: S -> bool, measure: S -> int)

  /** The thread's step brings the end nearer. */
  ghost predicate Helps<S(!new)>(y: System<S>, s: S, t: Tid) {
    y.measure(y.step(s, t)) < y.measure(s)
  }

  /** No step leads away from the end, and a step that leads nearer stays possible until one is taken. */
  ghost predicate StepOk<S(!new)>(y: System<S>, s: S, t: Tid) {
    && y.good(y.step(s, t))
    && y.measure(y.step(s, t)) <= y.measure(s)
    && (y.done(s) ==> y.step(s, t) == s)
    && (forall u: Tid :: Helps(y, s, u) ==> Helps(y, s, t) || Helps(y, y.step(s, t), u))
  }

  /** Until the end some thread's step leads nearer. */
  ghost predicate StateOk<S(!new)>(y: System<S>, s: S) {
    && 0 <= y.measure(s)
    && (y.done(s) || exists t: Tid :: t < y.threads && Helps(y, s, t))
  }

  ghost predicate Progresses<S(!new)>(y: System<S>) {
    && (forall s :: y.good(s) ==> StateOk(y, s))
    && (forall s, t: Tid :: y.good(s) ==> StepOk(y, s, t))
  }

  /** Every step that changes the state leads nearer to the end. */
  ghost predicate Strict<S(!new)>(y: System<S>) {
    forall s, t: Tid :: y.good(s) ==> y.step(s, t) == s || Helps(y, s, t)
  }

  /** Then however the threads are scheduled, only so many steps change anything. */
  lemma {:induction false} WorkIsBounded<S(!new)>(y: System<S>, s: S, schedule: seq<Tid>)
    requires Progresses(y) && Strict(y) && y.good(s)
    ensures Effective(y.step, s, schedule) <= y.measure(s)
    decreases |schedule|
  {
    assert StateOk(y, s);
    if schedule != [] {
      assert StepOk(y, s, schedule[0]);
      assert y.step(s, schedule[0]) == s || Helps(y, s, schedule[0]);
      WorkIsBounded(y, y.step(s, schedule[0]), schedule[1..]);
    }
  }

  /** A run never leads away from the end, and a finished system stays as it is. */
  lemma {:induction false} RunKeeps<S(!new)>(y: System<S>, s: S, schedule: seq<Tid>)
    requires Progresses(y) && y.good(s)
    ensures var s' := Run(y.step, s, schedule);
            y.good(s') && 0 <= y.measure(s') <= y.measure(s) && (y.done(s) ==> s' == s)
    decreases |schedule|
  {
    assert StateOk(y, s);
    if schedule != [] {
      assert StepOk(y, s, schedule[0]);
      RunKeeps(y, y.step(s, schedule[0]), schedule[1..]);
    }
  }

  /** A schedule with a step of a thread that helps leads nearer to the end, whatever else it has. */
  lemma {:induction false} SegmentHelps<S(!new)>(y: System<S>, s: S, t: Tid, segment: seq<Tid>)
    requires Progresses(y) && y.good(s) && Helps(y, s, t) && t in segment
    ensures y.measure(Run(y.step, s, segment)) < y.measure(s)
    decreases |segment|
  {
    assert StepOk(y, s, segment[0]);
    var s' := y.step(s, segment[0]);
    RunKeeps(y, s', segment[1..]);
    if !Helps(y, s, segment[0]) {
      SegmentHelps(y, s', t, segment[1..]);
    }
  }

  /** Every schedule made of enough segments, each with a step of every thread, ends with the system finished. */
  lemma {:induction false} FairRunEnds<S(!new)>(y: System<S>, s: S, segments: seq<seq<Tid>>)
    requires Progresses(y) && y.good(s) && Fair(segments, y.threads) && y.measure(s) <= |segments|
    ensures y.done(Run(y.step, s, Flat(segments)))
    decreases |segments|
  {
    assert StateOk(y, s);
    if y.done(s) {
      RunKeeps(y, s, Flat(segments));
    } else {
      var t: Tid :| t < y.threads && Helps(y, s, t);
      assert StepOk(y, s, t) && StateOk(y, y.step(s, t));
      SegmentHelps(y, s, t, segments[0]);
      RunKeeps(y, s, segments[0]);
      RunAppend(y.step, s, segments[0], Flat(segments[1..]));
      FairRunEnds(y, Run(y.step, s, segments[0]), segments[1..]);
    }
  }

  lemma InOrder(turn: seq<Tid>, threads: nat)
    requires |turn| == threads && forall t :: 0 <= t < threads ==> turn[t] == t
    ensures Covers(turn, threads)
  {
    forall t | 0 <= t < threads ensures t in turn {
      assert turn[t] == t;
    }
  }

  /** So many segments with one step of every thread. */
  function RoundRobin(threads: nat, count: nat): (segments: seq<seq<Tid>>)
    ensures |segments| == count && Fair(segments, threads)
  {
    var turn: seq<Tid> := seq(threads, t requires 0 <= t => t);
    assert Covers(turn, threads) by { InOrder(turn, threads); }
    seq(count, _ => turn)
  }
}
