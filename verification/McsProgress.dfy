/** The MCS lock loses no hand-off and never gets stuck: its runs are bounded and its fair runs finish. */
module McsProgress {
  import opened Sequences
  import opened Pointers
  import F = FifoLock
  import Runs
  import opened McsLock
  import opened McsCorrectness

  // ---------------------------------------------------------------- hand-off

  /** The unlocker always finds its successor, and the node it writes belongs to the next in line, still spinning. */
  lemma HandOffReachesSuccessor(cfg: F.Config, schedule: seq<Tid>, t: Tid)
    requires var s := Run(cfg, Init(cfg), schedule);
             t < |s.threads| && (s.threads[t].pc == LoadNext || s.threads[t].pc == Release)
    ensures exists q :: IsQueue(Run(cfg, Init(cfg), schedule), q) && HandsOver(Run(cfg, Init(cfg), schedule), q, t)
  {
    RefinesFifoLock(cfg, schedule);
    var s, a := Run(cfg, Init(cfg), schedule), Abstraction(cfg, schedule);
    RepresentedQueue(cfg, s, a);
    HandOffTarget(cfg, s, a, t);
    assert HandsOver(s, a.Queue(), t);
  }

  predicate HandsOver(s: State, q: seq<Tid>, t: Tid) {
    && |q| >= 2 && q[0] == t && t < |s.threads| && t < |s.nodes|
    && s.nodes[t].next == Some(q[1])
    && (s.threads[t].pc == Release ==> s.threads[t].next == Some(q[1]))
    && Spinning(s, q[1])
  }

  /** A released waiter: its wait is over as soon as it looks. */
  predicate Released(s: State, t: Tid) {
    Spinning(s, t) && t < |s.nodes| && s.nodes[t].lock == 0
  }

  /** Nobody else can take a release back. */
  lemma ReleasedStays(cfg: F.Config, s: State, a: F.State, t: Tid, u: Tid)
    requires Represents(cfg, s, a) && F.Inv(cfg, a) && Released(s, t) && u != t
    ensures Released(Step(cfg, s, u), t)
  {
    if u < |s.threads| && s.threads[u].pc == LinkPred {
      LinkPredTarget(cfg, s, a, u);
    }
  }

  lemma {:induction false} ReleasedStaysOnRun(cfg: F.Config, s: State, a: F.State, t: Tid, schedule: seq<Tid>)
    requires Represents(cfg, s, a) && F.Inv(cfg, a) && Released(s, t) && t !in schedule
    ensures Released(Run(cfg, s, schedule), t)
    decreases |schedule|
  {
    if schedule != [] {
      ReleasedStays(cfg, s, a, t, schedule[0]);
      StepSimulates(cfg, s, a, schedule[0]);
      ReleasedStaysOnRun(cfg, Step(cfg, s, schedule[0]), AbstractStep(cfg, s, a, schedule[0]), t, schedule[1..]);
    }
  }

  /** A hand-off is never lost: once released, the successor stays released however long it is not scheduled. */
  lemma HandOffNotLost(cfg: F.Config, before: seq<Tid>, t: Tid, after: seq<Tid>)
    requires var s := Run(cfg, Init(cfg), before); t < |s.threads| && s.threads[t].pc == Release
    requires var s := Run(cfg, Init(cfg), before); s.threads[t].next.Some? && s.threads[t].next.value !in after
    ensures var s := Run(cfg, Init(cfg), before); Released(Run(cfg, Step(cfg, s, t), after), s.threads[t].next.value)
  {
    RefinesFifoLock(cfg, before);
    var s, a := Run(cfg, Init(cfg), before), Abstraction(cfg, before);
    HandOffTarget(cfg, s, a, t);
    StepSimulates(cfg, s, a, t);
    ReleasedStaysOnRun(cfg, Step(cfg, s, t), AbstractStep(cfg, s, a, t), s.threads[t].next.value, after);
  }

  // ---------------------------------------------------------------- a bound on the work of any run

  /** A store to tail can send any thread's pending swap back by two steps, so it must pay for all of them. */
  function TailCost(cfg: F.Config): nat {
    2 * cfg.threads + 1
  }

  /** The most steps that a round can take, tail stores counted at their full cost. */
  function RoundCost(cfg: F.Config): nat {
    2 * cfg.times + 2 * TailCost(cfg) + 15
  }

  /** What is left of the current round. */
  function Left(cfg: F.Config, tail: Option<Tid>, th: Thread): int {
    var work := 2 * (cfg.times - th.work.iters);
    var cost := TailCost(cfg);
    match th.pc
    case Start => 0
    case SetLock => work + 2 * cost + 14
    case ClearNext => work + 2 * cost + 13
    case SwapTail => if tail == th.pred then work + 2 * cost + 10 else work + 2 * cost + 12
    case LoadTail => work + 2 * cost + 11
    case CheckPred => work + cost + 9
    case LinkPred => work + cost + 8
    case SpinLock => work + cost + 7
    case Ready => work + cost + 6
    case Loaded => work + cost + 5
    case CheckNext => cost + 5
    case ClearTail => cost + 4
    case AwaitNext => 3
    case LoadNext => 2
    case Release => 1
  }

  function Remaining(cfg: F.Config, tail: Option<Tid>, th: Thread): int {
    F.Budget(cfg.rounds - th.work.rounds - (if th.pc == Start then 0 else 1), RoundCost(cfg)) + Left(cfg, tail, th)
  }

  function RemainingFor(cfg: F.Config, tail: Option<Tid>): Thread -> int {
    (th: Thread) => Remaining(cfg, tail, th)
  }

  function Measure(cfg: F.Config, s: State): int {
    Sum(s.threads, RemainingFor(cfg, s.tail))
  }

  /** The number of steps of a run that change the state. */
  function Effective(cfg: F.Config, s: State, schedule: seq<Tid>): nat {
    Runs.Effective(Stepper(cfg), s, schedule)
  }

  /** What the invariant says about a thread's loop variables. */
  predicate WorkFits(cfg: F.Config, th: Thread) {
    && th.work.iters <= cfg.times
    && (PhaseOf(th.pc) == F.Idle || PhaseOf(th.pc) == F.Waiting ==> th.work.iters == 0)
    && (th.pc == Loaded ==> th.work.iters < cfg.times)
    && (Unlocking(th.pc) ==> th.work.iters == cfg.times)
  }

  /** The step takes the thread further, and it is not one that changes tail. */
  predicate Proceeds(cfg: F.Config, s: State, t: Tid) {
    && t < |s.threads| && t < |s.nodes|
    && Step(cfg, s, t).threads[t].pc != s.threads[t].pc && Step(cfg, s, t).tail == s.tail
  }

  lemma StepMovesThread(cfg: F.Config, s: State, t: Tid)
    requires t < |s.threads| == |s.nodes| && Step(cfg, s, t) != s
    ensures Step(cfg, s, t).threads[t].pc != s.threads[t].pc
  {
  }

  /** The steps between the ends of a round and of the increment loop: the loop variables stay as they are. */
  predicate Onward(tail: Option<Tid>, th: Thread, th': Thread) {
    && th'.work == th.work
    && match th.pc
       case SetLock => th'.pc == ClearNext
       case ClearNext => th'.pc == LoadTail
       case LoadTail => th'.pc == SwapTail && th'.pred == tail
       case SwapTail => th'.pc == CheckPred || (th'.pc == LoadTail && th.pred != tail)
       case CheckPred => th'.pc == Ready || th'.pc == LinkPred
       case LinkPred => th'.pc == SpinLock
       case SpinLock => th'.pc == Ready
       case CheckNext => th'.pc == ClearTail || th'.pc == LoadNext
       case ClearTail => th'.pc == AwaitNext
       case AwaitNext => th'.pc == LoadNext
       case LoadNext => th'.pc == Release
       case Start | Ready | Loaded | Release => false
  }

  lemma OnwardPays(cfg: F.Config, tail: Option<Tid>, th: Thread, th': Thread)
    requires Onward(tail, th, th') && th.work.iters <= cfg.times
    ensures Remaining(cfg, tail, th') + 1 <= Remaining(cfg, tail, th)
  {
  }

  lemma StepIsOnward(cfg: F.Config, s: State, t: Tid)
    requires Proceeds(cfg, s, t)
    requires var pc := s.threads[t].pc; pc != Start && pc != Ready && pc != Loaded && pc != Release
    requires s.threads[t].pc == ClearTail ==> s.tail != Some(t)
    ensures Onward(s.tail, s.threads[t], Step(cfg, s, t).threads[t])
  {
  }

  lemma BodyPays(cfg: F.Config, s: State, t: Tid)
    requires Proceeds(cfg, s, t) && WorkFits(cfg, s.threads[t])
    requires s.threads[t].pc == Ready || s.threads[t].pc == Loaded
    ensures Remaining(cfg, s.tail, Step(cfg, s, t).threads[t]) + 1 <= Remaining(cfg, s.tail, s.threads[t])
  {
  }

  lemma RoundPays(cfg: F.Config, s: State, t: Tid)
    requires Proceeds(cfg, s, t) && WorkFits(cfg, s.threads[t])
    requires s.threads[t].pc == Start || s.threads[t].pc == Release
    ensures Remaining(cfg, s.tail, Step(cfg, s, t).threads[t]) + 1 <= Remaining(cfg, s.tail, s.threads[t])
  {
  }

  /** A step that leaves tail alone and takes the thread further is paid for with at least one. */
  lemma MoverPays(cfg: F.Config, s: State, t: Tid)
    requires Proceeds(cfg, s, t) && WorkFits(cfg, s.threads[t])
    ensures Remaining(cfg, s.tail, Step(cfg, s, t).threads[t]) + 1 <= Remaining(cfg, s.tail, s.threads[t])
  {
    var pc := s.threads[t].pc;
    if pc == Start || pc == Release {
      RoundPays(cfg, s, t);
    } else if pc == Ready || pc == Loaded {
      BodyPays(cfg, s, t);
    } else {
      StepIsOnward(cfg, s, t);
      OnwardPays(cfg, s.tail, s.threads[t], Step(cfg, s, t).threads[t]);
    }
  }

  /** The two stores to tail: the swap that joins the queue, and the one that ends a round with nobody behind. */
  predicate StoresTail(tail: Option<Tid>, th: Thread, th': Thread) {
    || (th.pc == SwapTail && tail == th.pred && th' == th.(pc := CheckPred))
    || (th.pc == ClearTail && th' == th.(pc := Start, work := F.EndRound(th.work)))
  }

  lemma StepStoresTail(cfg: F.Config, s: State, t: Tid)
    requires t < |s.threads| == |s.nodes| && Step(cfg, s, t).tail != s.tail
    ensures StoresTail(s.tail, s.threads[t], Step(cfg, s, t).threads[t])
  {
  }

  lemma JoinPays(cfg: F.Config, tail: Option<Tid>, tail': Option<Tid>, th: Thread)
    requires th.pc == SwapTail && tail == th.pred && th.work.iters <= cfg.times
    ensures Remaining(cfg, tail', th.(pc := CheckPred)) + TailCost(cfg) <= Remaining(cfg, tail, th)
  {
  }

  lemma EndPays(cfg: F.Config, tail: Option<Tid>, tail': Option<Tid>, th: Thread)
    requires th.pc == ClearTail && th.work.iters == cfg.times
    ensures Remaining(cfg, tail', th.(pc := Start, work := F.EndRound(th.work))) + TailCost(cfg)
         <= Remaining(cfg, tail, th)
  {
  }

  /** A store to tail is paid for with enough for everybody's retry. */
  lemma TailStorePays(cfg: F.Config, tail: Option<Tid>, tail': Option<Tid>, th: Thread, th': Thread)
    requires StoresTail(tail, th, th') && WorkFits(cfg, th)
    ensures Remaining(cfg, tail', th') + TailCost(cfg) <= Remaining(cfg, tail, th)
  {
    if th.pc == SwapTail {
      JoinPays(cfg, tail, tail', th);
    } else {
      EndPays(cfg, tail, tail', th);
    }
  }

  /** The most that a store to tail can add to a thread is the retry of its swap. */
  lemma RetryCost(cfg: F.Config, tail: Option<Tid>, tail': Option<Tid>, th: Thread)
    ensures Remaining(cfg, tail', th) <= Remaining(cfg, tail, th) + (if tail' == tail then 0 else 2)
  {
  }

  lemma OthersGrowLittle(cfg: F.Config, s: State, t: Tid, slack: int)
    requires t < |s.threads| == |s.nodes| && slack == if Step(cfg, s, t).tail == s.tail then 0 else 2
    ensures var s' := Step(cfg, s, t);
            forall u :: 0 <= u < |s.threads| && u != t ==>
              RemainingFor(cfg, s'.tail)(s'.threads[u]) <= RemainingFor(cfg, s.tail)(s.threads[u]) + slack
  {
    var s' := Step(cfg, s, t);
    forall u | 0 <= u < |s.threads| && u != t
      ensures RemainingFor(cfg, s'.tail)(s'.threads[u]) <= RemainingFor(cfg, s.tail)(s.threads[u]) + slack
    {
      RetryCost(cfg, s.tail, s'.tail, s.threads[u]);
    }
  }

  lemma EffectiveStepPays(cfg: F.Config, s: State, a: F.State, t: Tid)
    requires Represents(cfg, s, a) && F.Inv(cfg, a) && Step(cfg, s, t) != s
    ensures Measure(cfg, Step(cfg, s, t)) < Measure(cfg, s)
  {
    assert ThreadOk(cfg, s, a, t) && F.WorkOk(cfg, a.clients[t], a.shared);
    WorkPays(cfg, s, t);
  }

  lemma WorkPays(cfg: F.Config, s: State, t: Tid)
    requires t < |s.threads| == |s.nodes| && |s.threads| <= cfg.threads && Step(cfg, s, t) != s
    requires WorkFits(cfg, s.threads[t])
    ensures Measure(cfg, Step(cfg, s, t)) < Measure(cfg, s)
  {
    var s' := Step(cfg, s, t);
    if s'.tail == s.tail {
      StepMovesThread(cfg, s, t);
      MoverPays(cfg, s, t);
      OthersGrowLittle(cfg, s, t, 0);
      SumDrop(s.threads, RemainingFor(cfg, s.tail), s'.threads, RemainingFor(cfg, s'.tail), t, 1, 0);
    } else {
      StepStoresTail(cfg, s, t);
      TailStorePays(cfg, s.tail, s'.tail, s.threads[t], s'.threads[t]);
      OthersGrowLittle(cfg, s, t, 2);
      SumDrop(s.threads, RemainingFor(cfg, s.tail), s'.threads, RemainingFor(cfg, s'.tail), t, TailCost(cfg), 2);
    }
  }

  lemma RemainingNonNegative(cfg: F.Config, s: State, a: F.State, t: Tid)
    requires ThreadOk(cfg, s, a, t) && F.WorkOk(cfg, a.clients[t], a.shared)
    ensures 0 <= Remaining(cfg, s.tail, s.threads[t])
  {
  }

  lemma MeasureNonNegative(cfg: F.Config, s: State, a: F.State)
    requires Represents(cfg, s, a) && F.Inv(cfg, a)
    ensures 0 <= Measure(cfg, s)
  {
    forall t | 0 <= t < |s.threads|
      ensures 0 <= RemainingFor(cfg, s.tail)(s.threads[t])
    {
      assert ThreadOk(cfg, s, a, t) && F.WorkOk(cfg, a.clients[t], a.shared);
      RemainingNonNegative(cfg, s, a, t);
    }
    SumAtLeast(s.threads, RemainingFor(cfg, s.tail), 0);
  }

  // ---------------------------------------------------------------- no deadlock

  /** The place behind one whose next is still NULL has its link step to come. */
  lemma LateLinker(s: State, a: F.State, k: nat)
    requires a.served <= k && k + 1 < |a.arrivals| && LinkOk(s, a, k) && WaitOk(s, a, k + 1)
    requires s.nodes[a.arrivals[k]].next == None && PhaseOf(s.threads[a.arrivals[k + 1]].pc) == F.Waiting
    ensures var u := s.threads[a.arrivals[k + 1]];
            (u.pc == CheckPred || u.pc == LinkPred) && u.pred == Some(a.arrivals[k])
  {
  }

  lemma FollowerWaits(cfg: F.Config, s: State, a: F.State, k: nat)
    requires Represents(cfg, s, a) && a.served < k < |a.arrivals|
    ensures WaitOk(s, a, k) && PhaseOf(s.threads[a.arrivals[k]].pc) == F.Waiting
  {
    AtPlace(cfg, s, a, k);
    assert F.TicketOk(a, a.arrivals[k]);
  }

  /** While a thread waits for its successor to link itself, that successor still has its link step to come. */
  lemma AwaitedLinkIsPending(cfg: F.Config, s: State, a: F.State, t: Tid)
    requires Represents(cfg, s, a) && t < |s.threads|
    requires s.threads[t].pc == AwaitNext && s.nodes[t].next == None
    ensures a.IsHead(t) && a.served + 1 < |a.arrivals| && a.arrivals[a.served + 1] < |s.threads|
    ensures var u := a.arrivals[a.served + 1]; s.threads[u].pc == CheckPred || s.threads[u].pc == LinkPred
    ensures var u := a.arrivals[a.served + 1]; s.threads[u].pred == Some(t)
  {
    AtThread(cfg, s, a, t);
    assert a.IsHead(t) && LinkOk(s, a, a.served) && TailOk(s, a);
    FollowerWaits(cfg, s, a, a.served + 1);
    LateLinker(s, a, a.served);
  }

  /** Of the pcs of a thread in the queue, only the spin and the wait for a late link can leave the state as it is. */
  lemma QueuedCanMove(cfg: F.Config, s: State, t: Tid)
    requires t < |s.threads| == |s.nodes| && PhaseOf(s.threads[t].pc) != F.Idle
    requires s.threads[t].pc == SpinLock ==> s.nodes[t].lock != 1
    requires s.threads[t].pc == AwaitNext ==> s.nodes[t].next != None
    ensures Step(cfg, s, t) != s
  {
    assert Step(cfg, s, t).threads[t].pc != s.threads[t].pc;
  }

  lemma HeadCanMove(cfg: F.Config, s: State, a: F.State) returns (t: Tid)
    requires Represents(cfg, s, a) && a.served < |a.arrivals|
    ensures Step(cfg, s, t) != s
  {
    t := a.arrivals[a.served];
    AtPlace(cfg, s, a, a.served);
    if s.threads[t].pc == AwaitNext && s.nodes[t].next == None {
      AwaitedLinkIsPending(cfg, s, a, t);
      t := a.arrivals[a.served + 1];
    }
    QueuedCanMove(cfg, s, t);
  }

  /** No reachable state has every thread spinning: some thread can move until all are done. */
  lemma SomeThreadCanMove(cfg: F.Config, s: State, a: F.State) returns (t: Tid)
    requires Represents(cfg, s, a) && F.Inv(cfg, a) && !AllDone(cfg, s)
    ensures Step(cfg, s, t) != s
  {
    if a.served < |a.arrivals| {
      t := HeadCanMove(cfg, s, a);
    } else {
      t :| 0 <= t < |s.threads| && !(s.threads[t].pc == Start && s.threads[t].work.rounds == cfg.rounds);
      AtThread(cfg, s, a, t);
      assert F.WorkOk(cfg, a.clients[t], a.shared);
      assert Step(cfg, s, t).threads[t] != s.threads[t];
    }
  }

  // ---------------------------------------------------------------- what that means for every run

  ghost predicate Good(cfg: F.Config, s: State) {
    exists a :: Represents(cfg, s, a) && F.Inv(cfg, a)
  }

  ghost function SystemOf(cfg: F.Config): Runs.System<State> {
    Runs.System(cfg.threads, Stepper(cfg), (s: State) => Good(cfg, s), (s: State) => AllDone(cfg, s),
                (s: State) => Measure(cfg, s))
  }

  lemma StateProgresses(cfg: F.Config, s: State)
    requires Good(cfg, s)
    ensures Runs.StateOk(SystemOf(cfg), s)
  {
    var a :| Represents(cfg, s, a) && F.Inv(cfg, a);
    MeasureNonNegative(cfg, s, a);
    if !AllDone(cfg, s) {
      var t := SomeThreadCanMove(cfg, s, a);
      EffectiveStepPays(cfg, s, a, t);
      assert Runs.Helps(SystemOf(cfg), s, t);
    }
  }

  lemma StepProgresses(cfg: F.Config, s: State, t: Tid)
    requires Good(cfg, s)
    ensures Runs.StepOk(SystemOf(cfg), s, t)
    ensures Step(cfg, s, t) == s || Runs.Helps(SystemOf(cfg), s, t)
  {
    var a :| Represents(cfg, s, a) && F.Inv(cfg, a);
    StepSimulates(cfg, s, a, t);
    if Step(cfg, s, t) != s { EffectiveStepPays(cfg, s, a, t); }
  }

  lemma Progresses(cfg: F.Config)
    ensures Runs.Progresses(SystemOf(cfg)) && Runs.Strict(SystemOf(cfg))
  {
    forall s | Good(cfg, s) ensures Runs.StateOk(SystemOf(cfg), s) {
      StateProgresses(cfg, s);
    }
    forall s, t: Tid | Good(cfg, s)
      ensures Runs.StepOk(SystemOf(cfg), s, t) && (Step(cfg, s, t) == s || Runs.Helps(SystemOf(cfg), s, t))
    {
      StepProgresses(cfg, s, t);
    }
  }

  lemma InitialMeasure(cfg: F.Config)
    ensures Good(cfg, Init(cfg)) && Measure(cfg, Init(cfg)) == cfg.threads * (cfg.rounds * RoundCost(cfg))
  {
    InitRepresents(cfg);
    F.InitInv(cfg);
    SumConstant(Init(cfg).threads, RemainingFor(cfg, None), F.Budget(cfg.rounds, RoundCost(cfg)));
    F.BudgetIsProduct(cfg.rounds, RoundCost(cfg));
  }

  /** However the threads are scheduled, a run has at most so many steps that change anything. */
  lemma EveryRunIsBounded(cfg: F.Config, schedule: seq<Tid>)
    ensures Effective(cfg, Init(cfg), schedule) <= cfg.threads * (cfg.rounds * RoundCost(cfg))
  {
    Progresses(cfg);
    InitialMeasure(cfg);
    Runs.WorkIsBounded(SystemOf(cfg), Init(cfg), schedule);
  }

  lemma NeverStuck(cfg: F.Config, schedule: seq<Tid>)
    requires !AllDone(cfg, Run(cfg, Init(cfg), schedule))
    ensures exists t :: Step(cfg, Run(cfg, Init(cfg), schedule), t) != Run(cfg, Init(cfg), schedule)
  {
    RefinesFifoLock(cfg, schedule);
    var t := SomeThreadCanMove(cfg, Run(cfg, Init(cfg), schedule), Abstraction(cfg, schedule));
  }

  /**
   * Every fair run finishes: however it began, any continuation made of so many segments with a step of every
   * thread in each, in any order and with any others between them, ends with every increment counted.
   */
  lemma EveryFairRunFinishes(cfg: F.Config, schedule: seq<Tid>, segments: seq<seq<Tid>>)
    requires Runs.Fair(segments, cfg.threads) && cfg.threads * (cfg.rounds * RoundCost(cfg)) <= |segments|
    ensures var s := Run(cfg, Run(cfg, Init(cfg), schedule), Runs.Flat(segments));
            AllDone(cfg, s) && s.shared == cfg.threads * cfg.rounds * cfg.times
  {
    Progresses(cfg);
    InitialMeasure(cfg);
    Runs.RunKeeps(SystemOf(cfg), Init(cfg), schedule);
    Runs.FairRunEnds(SystemOf(cfg), Run(cfg, Init(cfg), schedule), segments);
    Runs.RunAppend(Stepper(cfg), Init(cfg), schedule, Runs.Flat(segments));
    NoLostIncrements(cfg, schedule + Runs.Flat(segments));
  }

  /** Such a continuation exists, so every run can be completed. */
  lemma EveryRunCanFinish(cfg: F.Config, schedule: seq<Tid>)
    ensures exists more: seq<Tid> ::
      var s := Run(cfg, Run(cfg, Init(cfg), schedule), more);
      AllDone(cfg, s) && s.shared == cfg.threads * cfg.rounds * cfg.times
  {
    var segments := Runs.RoundRobin(cfg.threads, cfg.threads * (cfg.rounds * RoundCost(cfg)));
    EveryFairRunFinishes(cfg, schedule, segments);
  }
}
