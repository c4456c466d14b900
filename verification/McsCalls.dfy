/** The paths of single calls of the MCS lock: alone, after a failed swap, and from release to entry. */
module McsCalls {
  import opened Pointers
  import F = FifoLock
  import Runs
  import opened McsLock
  import opened McsCorrectness
  import opened McsProgress

  lemma TwoSteps(cfg: F.Config, s: State, t: Tid, rest: seq<Tid>)
    ensures Run(cfg, s, [t, t] + rest) == Run(cfg, Step(cfg, Step(cfg, s, t), t), rest)
  {
    Runs.RunTwo(Stepper(cfg), s, t, t, rest);
  }

  lemma StepKeepsOthers(cfg: F.Config, s: State, u: Tid, t: Tid)
    requires t < |s.threads| == |s.nodes| && u != t
    ensures var s' := Step(cfg, s, u); |s'.threads| == |s'.nodes| == |s.threads| && s'.threads[t] == s.threads[t]
  {
  }

  /** On every run, with the lock free a thread that takes the next six steps is in, and its node is the queue. */
  lemma FreeLockTakesSixSteps(cfg: F.Config, schedule: seq<Tid>, t: Tid)
    requires var s := Run(cfg, Init(cfg), schedule);
             t < |s.threads| && s.threads[t].pc == Start && s.threads[t].work.rounds < cfg.rounds && s.tail == None
    ensures var s' := Run(cfg, Run(cfg, Init(cfg), schedule), [t, t] + ([t, t] + ([t, t] + [])));
            && Critical(s', t) && s'.tail == Some(t)
            && t < |s'.nodes| && s'.nodes[t] == Node(1, None)
  {
    RefinesFifoLock(cfg, schedule);
    var s := Run(cfg, Init(cfg), schedule);
    var s2 := Step(cfg, Step(cfg, s, t), t);
    var s4 := Step(cfg, Step(cfg, s2, t), t);
    TwoSteps(cfg, s, t, [t, t] + ([t, t] + []));
    TwoSteps(cfg, s2, t, [t, t] + []);
    TwoSteps(cfg, s4, t, []);
    FirstHalf(cfg, s, t);
    SecondHalf(cfg, s2, t);
  }

  lemma FirstHalf(cfg: F.Config, s: State, t: Tid)
    requires t < |s.threads| == |s.nodes| && s.threads[t].pc == Start && s.threads[t].work.rounds < cfg.rounds
    ensures var s2 := Step(cfg, Step(cfg, s, t), t);
            && |s2.threads| == |s2.nodes| == |s.threads| && s2.threads[t].pc == ClearNext
            && s2.nodes[t].lock == 1 && s2.tail == s.tail
  {
  }

  lemma SecondHalf(cfg: F.Config, s: State, t: Tid)
    requires t < |s.threads| == |s.nodes| && s.threads[t].pc == ClearNext && s.nodes[t].lock == 1 && s.tail == None
    ensures var s4 := Step(cfg, Step(cfg, Step(cfg, Step(cfg, s, t), t), t), t);
            && |s4.threads| == |s4.nodes| == |s.threads| && s4.threads[t].pc == Ready
            && s4.nodes[t] == Node(1, None) && s4.tail == Some(t)
  {
    var s2 := Step(cfg, Step(cfg, s, t), t);
    assert s2.threads[t].pc == SwapTail && s2.threads[t].pred == None && s2.nodes[t] == Node(1, None);
  }

  lemma TailIsAlone(s: State, a: F.State, t: Tid)
    requires F.QueueOk(a) && TailOk(s, a) && s.tail == Some(t)
    requires t < |a.clients| && a.clients[t].phase != F.Idle && a.clients[t].ticket == a.served < |a.arrivals|
    ensures a.served + 1 == |a.arrivals|
  {
    PlaceOf(a, t, |a.arrivals| - 1);
  }

  /** A thread inside whose node is the tail has nobody linked behind it. */
  lemma NobodyBehind(cfg: F.Config, s: State, a: F.State, t: Tid)
    requires Represents(cfg, s, a) && Critical(s, t) && s.tail == Some(t)
    ensures t < |s.nodes| && s.nodes[t].next == None
  {
    AtThread(cfg, s, a, t);
    TailIsAlone(s, a, t);
  }

  lemma Frees(cfg: F.Config, s: State, t: Tid)
    requires t < |s.threads| == |s.nodes| && s.threads[t].pc == CheckNext
    requires s.tail == Some(t) && s.nodes[t].next == None
    ensures var s2 := Step(cfg, Step(cfg, s, t), t);
            && s2.tail == None && |s2.threads| == |s.threads|
            && s2.threads[t].pc == Start && s2.threads[t].work.rounds == s.threads[t].work.rounds + 1
  {
  }

  /** The loop over the increments ends with a step to the first test of unlock. */
  lemma LoopEnds(cfg: F.Config, s: State, t: Tid)
    requires t < |s.threads| == |s.nodes| && s.threads[t].pc == Ready && s.threads[t].work.iters >= cfg.times
    ensures var s' := Step(cfg, s, t);
            && s'.tail == s.tail && s'.nodes == s.nodes && s'.threads == s.threads[t := s'.threads[t]]
            && s'.threads[t].pc == CheckNext && s'.threads[t].work == s.threads[t].work
  {
  }

  /** On every run, with nobody behind it a thread is out three steps after its last increment, and the lock is free. */
  lemma FreeingTakesThreeSteps(cfg: F.Config, schedule: seq<Tid>, t: Tid)
    requires var s := Run(cfg, Init(cfg), schedule);
             t < |s.threads| && s.threads[t].pc == Ready && s.threads[t].work.iters >= cfg.times && s.tail == Some(t)
    ensures var s, s' := Run(cfg, Init(cfg), schedule), Run(cfg, Run(cfg, Init(cfg), schedule), [t] + ([t, t] + []));
            && s'.tail == None && t < |s'.threads| && s'.threads[t].pc == Start
            && s'.threads[t].work.rounds == s.threads[t].work.rounds + 1
  {
    RefinesFifoLock(cfg, schedule);
    var s := Run(cfg, Init(cfg), schedule);
    NobodyBehind(cfg, s, Abstraction(cfg, schedule), t);
    LoopEnds(cfg, s, t);
    Frees(cfg, Step(cfg, s, t), t);
    Runs.RunAppend(Stepper(cfg), s, [t], [t, t] + []);
    Runs.RunOne(Stepper(cfg), s, t);
    TwoSteps(cfg, Step(cfg, s, t), t, []);
  }

  lemma GetsToRelease(cfg: F.Config, s: State, t: Tid)
    requires t < |s.threads| == |s.nodes| && s.threads[t].pc == CheckNext && s.nodes[t].next.Some?
    ensures var s2 := Step(cfg, Step(cfg, s, t), t);
            && s2.tail == s.tail && s2.nodes == s.nodes && |s2.threads| == |s.threads|
            && s2.threads[t].pc == Release && s2.threads[t].next == s.nodes[t].next
            && s2.threads[t].work == s.threads[t].work
  {
  }

  lemma Releases(cfg: F.Config, s: State, t: Tid, u: Tid)
    requires t < |s.threads| == |s.nodes| && s.threads[t].pc == Release && s.threads[t].next == Some(u)
    requires Spinning(s, u) && u < |s.nodes| && u != t
    ensures var s' := Step(cfg, s, t);
            && Released(s', u) && s'.tail == s.tail && |s'.threads| == |s.threads|
            && s'.threads[t].pc == Start && s'.threads[t].work.rounds == s.threads[t].work.rounds + 1
  {
  }

  /** On every run, with a successor linked a thread is out four steps after its last increment, and has released it. */
  lemma HandOffTakesFourSteps(cfg: F.Config, schedule: seq<Tid>, t: Tid)
    requires var s := Run(cfg, Init(cfg), schedule);
             && t < |s.threads| && t < |s.nodes| && s.threads[t].pc == Ready
             && s.threads[t].work.iters >= cfg.times && s.nodes[t].next.Some?
    ensures var s := Run(cfg, Init(cfg), schedule);
            var s' := Run(cfg, s, [t] + ([t, t] + [t]));
            && s'.tail == s.tail && t < |s'.threads| && s'.threads[t].pc == Start
            && s'.threads[t].work.rounds == s.threads[t].work.rounds + 1
            && Released(s', s.nodes[t].next.value)
  {
    RefinesFifoLock(cfg, schedule);
    var s, a := Run(cfg, Init(cfg), schedule), Abstraction(cfg, schedule);
    var s1 := Step(cfg, s, t);
    LoopEnds(cfg, s, t);
    LinkedIsNext(cfg, s, a, t);
    Runs.RunAppend(Stepper(cfg), s, [t], [t, t] + [t]);
    Runs.RunOne(Stepper(cfg), s, t);
    HandsOverAlone(cfg, s1, t, s.nodes[t].next.value);
  }

  lemma HandsOverAlone(cfg: F.Config, s: State, t: Tid, u: Tid)
    requires t < |s.threads| == |s.nodes| && s.threads[t].pc == CheckNext && s.nodes[t].next == Some(u)
    requires Spinning(s, u) && u < |s.nodes| && u != t
    ensures var s' := Run(cfg, s, [t, t] + [t]);
            && Released(s', u) && s'.tail == s.tail && |s'.threads| == |s.threads|
            && s'.threads[t].pc == Start && s'.threads[t].work.rounds == s.threads[t].work.rounds + 1
  {
    TwoSteps(cfg, s, t, [t]);
    Runs.RunOne(Stepper(cfg), Step(cfg, Step(cfg, s, t), t), t);
    GetsToRelease(cfg, s, t);
    StillSpins(cfg, s, t, u);
    Releases(cfg, Step(cfg, Step(cfg, s, t), t), t, u);
  }

  /** Whoever is linked behind a thread inside spins on its own node. */
  lemma LinkedIsNext(cfg: F.Config, s: State, a: F.State, t: Tid)
    requires Represents(cfg, s, a) && Critical(s, t) && s.nodes[t].next.Some?
    ensures var u := s.nodes[t].next.value; Spinning(s, u) && u < |s.nodes| && u != t
  {
    AtThread(cfg, s, a, t);
    assert LinkOk(s, a, a.served);
    AtPlace(cfg, s, a, a.served + 1);
    PlaceOf(a, t, a.served + 1);
  }

  lemma StillSpins(cfg: F.Config, s: State, t: Tid, u: Tid)
    requires t < |s.threads| == |s.nodes| && Spinning(s, u) && u != t
    ensures Spinning(Step(cfg, Step(cfg, s, t), t), u)
  {
    StepKeepsOthers(cfg, s, t, u);
    StepKeepsOthers(cfg, Step(cfg, s, t), t, u);
  }

  /** The own steps from a failed swap, or from the load before a swap, to the next swap. */
  function ToSwap(pc: Pc, t: Tid): seq<Tid> {
    if pc == SwapTail then [t, t] else [t]
  }

  lemma LoadsTail(cfg: F.Config, s: State, t: Tid)
    requires t < |s.threads| == |s.nodes|
    requires s.threads[t].pc == LoadTail || (s.threads[t].pc == SwapTail && s.tail != s.threads[t].pred)
    ensures var s' := Run(cfg, s, ToSwap(s.threads[t].pc, t));
            && |s'.threads| == |s.threads| && s'.nodes == s.nodes && s'.tail == s.tail
            && s'.threads[t].pc == SwapTail && s'.threads[t].pred == s.tail
  {
    if s.threads[t].pc == SwapTail {
      assert [t, t] + [] == [t, t];
      TwoSteps(cfg, s, t, []);
    } else {
      Runs.RunOne(Stepper(cfg), s, t);
    }
  }

  lemma {:induction false} OthersKeepThread(cfg: F.Config, s: State, t: Tid, schedule: seq<Tid>)
    requires t < |s.threads| == |s.nodes| && t !in schedule
    ensures var s' := Run(cfg, s, schedule); |s'.threads| == |s'.nodes| == |s.threads| && s'.threads[t] == s.threads[t]
    decreases |schedule|
  {
    if schedule != [] {
      assert schedule[0] in schedule && forall u :: u in schedule[1..] ==> u in schedule;
      StepKeepsOthers(cfg, s, schedule[0], t);
      OthersKeepThread(cfg, Step(cfg, s, schedule[0]), t, schedule[1..]);
    }
  }

  /**
   * A failed swap only reloads tail, and a thread that has loaded it joins the queue with its swap, whatever the
   * others do between the two, if tail is then as it was.
   */
  lemma SwapSucceedsOnSameTail(cfg: F.Config, s: State, t: Tid, between: seq<Tid>)
    requires t < |s.threads| == |s.nodes| && t !in between
    requires s.threads[t].pc == LoadTail || (s.threads[t].pc == SwapTail && s.tail != s.threads[t].pred)
    requires Run(cfg, Run(cfg, s, ToSwap(s.threads[t].pc, t)), between).tail == s.tail
    ensures var s' := Step(cfg, Run(cfg, Run(cfg, s, ToSwap(s.threads[t].pc, t)), between), t);
            && t < |s'.threads| && s'.threads[t].pc == CheckPred
            && s'.tail == Some(t) && s'.threads[t].pred == s.tail
  {
    LoadsTail(cfg, s, t);
    OthersKeepThread(cfg, Run(cfg, s, ToSwap(s.threads[t].pc, t)), t, between);
  }

  /** On every run, from the release store on the successor gets in with its next step, however late that comes. */
  lemma ReleasedGetsIn(cfg: F.Config, before: seq<Tid>, t: Tid, after: seq<Tid>)
    requires var s := Run(cfg, Init(cfg), before); t < |s.threads| && s.threads[t].pc == Release
    requires var s := Run(cfg, Init(cfg), before); s.threads[t].next.Some? && s.threads[t].next.value !in after
    ensures var s := Run(cfg, Init(cfg), before);
            var u := s.threads[t].next.value;
            Critical(Step(cfg, Run(cfg, Step(cfg, s, t), after), u), u)
  {
    HandOffNotLost(cfg, before, t, after);
  }
}
