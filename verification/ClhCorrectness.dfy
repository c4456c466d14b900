/** What every run of the CLH lock keeps, the life of its nodes, and why its fair runs finish. */
module ClhCorrectness {
  import opened Sequences
  import opened Pointers
  import F = FifoLock
  import Runs
  import opened ClhLock

  predicate Critical(s: State, t: Tid) {
    t < |s.threads| && F.Inside(F.Client(PhaseOf(s.threads[t].pc), 0, s.threads[t].work))
  }

  predicate AllDone(cfg: F.Config, s: State) {
    forall t :: 0 <= t < |s.threads| ==> s.threads[t].pc == Start && s.threads[t].work.rounds == cfg.rounds
  }

  /** The threads in the order of their exchanges on tail. */
  function SwapOrder(cfg: F.Config, s: State, schedule: seq<Tid>): seq<Tid> {
    Runs.Picked(Stepper(cfg), Joins, s, schedule)
  }

  /** The threads in the order in which their spins end. */
  function EntryOrder(cfg: F.Config, s: State, schedule: seq<Tid>): seq<Tid> {
    Runs.Picked(Stepper(cfg), GetsIn, s, schedule)
  }

  function AbstractSchedule(cfg: F.Config, s: State, schedule: seq<Tid>): seq<Tid> {
    Runs.Picked(Stepper(cfg), (s: State, t: Tid) => Moves(cfg, s, t), s, schedule)
  }

  function NodesRun(cfg: F.Config, s: State, g: Nodes, schedule: seq<Tid>): Nodes
    decreases |schedule|
  {
    if schedule == [] then g
    else NodesRun(cfg, Step(cfg, s, schedule[0]), NodesStep(cfg, s, g, schedule[0]), schedule[1..])
  }

  lemma StepLogs(cfg: F.Config, s: State, a: F.State, g: Nodes, t: Tid)
    requires Represents(cfg, s, a, g)
    ensures var a' := AbstractStep(cfg, s, a, t);
            && a'.arrivals == a.arrivals + (if Joins(s, t) then [t] else [])
            && a'.grants == a.grants + (if GetsIn(s, t) then [t] else [])
  {
    if t < |s.threads| {
      AtThread(cfg, s, a, g, t);
      AbstractStepIs(cfg, s, a, g, t);
    }
  }

  lemma {:induction false} RunSimulates(cfg: F.Config, s: State, a: F.State, g: Nodes, schedule: seq<Tid>)
    requires Represents(cfg, s, a, g) && F.Inv(cfg, a)
    ensures var a' := F.Run(cfg, a, AbstractSchedule(cfg, s, schedule));
            && Represents(cfg, Run(cfg, s, schedule), a', NodesRun(cfg, s, g, schedule))
            && a'.arrivals == a.arrivals + SwapOrder(cfg, s, schedule)
            && a'.grants == a.grants + EntryOrder(cfg, s, schedule)
    decreases |schedule|
  {
    if schedule != [] {
      var t, rest := schedule[0], schedule[1..];
      var s', a' := Step(cfg, s, t), AbstractStep(cfg, s, a, t);
      StepSimulates(cfg, s, a, g, t);
      StepLogs(cfg, s, a, g, t);
      RunSimulates(cfg, s', a', NodesStep(cfg, s, g, t), rest);
      F.RunAfter(cfg, a, Moves(cfg, s, t), t, AbstractSchedule(cfg, s', rest));
      F.LogGrows(a.arrivals, Joins(s, t), t, a'.arrivals, SwapOrder(cfg, s', rest));
      F.LogGrows(a.grants, GetsIn(s, t), t, a'.grants, EntryOrder(cfg, s', rest));
    }
  }

  function Abstraction(cfg: F.Config, junk: int, schedule: seq<Tid>): F.State {
    F.Run(cfg, F.Init(cfg), AbstractSchedule(cfg, Init(cfg, junk), schedule))
  }

  function History(cfg: F.Config, junk: int, schedule: seq<Tid>): Nodes {
    NodesRun(cfg, Init(cfg, junk), InitNodes(), schedule)
  }

  /** Every run of the CLH lock is, step for step, a run of the abstract first-in first-out lock. */
  lemma RefinesFifoLock(cfg: F.Config, junk: int, schedule: seq<Tid>)
    ensures var s, a := Init(cfg, junk), Abstraction(cfg, junk, schedule);
            && Represents(cfg, Run(cfg, s, schedule), a, History(cfg, junk, schedule)) && F.Inv(cfg, a)
            && a.arrivals == SwapOrder(cfg, s, schedule)
            && a.grants == EntryOrder(cfg, s, schedule)
  {
    InitRepresents(cfg, junk);
    F.InitInv(cfg);
    RunSimulates(cfg, Init(cfg, junk), F.Init(cfg), InitNodes(), schedule);
    F.RunInv(cfg, F.Init(cfg), AbstractSchedule(cfg, Init(cfg, junk), schedule));
  }

  lemma MutualExclusion(cfg: F.Config, junk: int, schedule: seq<Tid>, t: Tid, u: Tid)
    requires Critical(Run(cfg, Init(cfg, junk), schedule), t)
    requires Critical(Run(cfg, Init(cfg, junk), schedule), u)
    ensures t == u
  {
    RefinesFifoLock(cfg, junk, schedule);
    var s, a, g := Run(cfg, Init(cfg, junk), schedule), Abstraction(cfg, junk, schedule), History(cfg, junk, schedule);
    assert ThreadOk(cfg, s, a, g, t) && ThreadOk(cfg, s, a, g, u);
    F.MutualExclusion(cfg, AbstractSchedule(cfg, Init(cfg, junk), schedule), t, u);
  }

  lemma GrantedInSwapOrder(cfg: F.Config, junk: int, schedule: seq<Tid>)
    ensures EntryOrder(cfg, Init(cfg, junk), schedule) <= SwapOrder(cfg, Init(cfg, junk), schedule)
  {
    RefinesFifoLock(cfg, junk, schedule);
    F.GrantedInArrivalOrder(cfg, AbstractSchedule(cfg, Init(cfg, junk), schedule));
  }

  lemma DoneTotal(cfg: F.Config, s: State, a: F.State, g: Nodes)
    requires Represents(cfg, s, a, g) && F.Inv(cfg, a) && AllDone(cfg, s)
    ensures s.shared == cfg.threads * cfg.rounds * cfg.times
  {
    forall t | 0 <= t < |a.clients|
      ensures a.clients[t].phase == F.Idle && a.clients[t].work.rounds == cfg.rounds
    {
      assert ThreadOk(cfg, s, a, g, t);
    }
    F.DoneTotal(cfg, a);
  }

  lemma NoLostIncrements(cfg: F.Config, junk: int, schedule: seq<Tid>)
    requires AllDone(cfg, Run(cfg, Init(cfg, junk), schedule))
    ensures Run(cfg, Init(cfg, junk), schedule).shared == cfg.threads * cfg.rounds * cfg.times
  {
    RefinesFifoLock(cfg, junk, schedule);
    DoneTotal(cfg, Run(cfg, Init(cfg, junk), schedule), Abstraction(cfg, junk, schedule), History(cfg, junk, schedule));
  }

  // ---------------------------------------------------------------- the life of a node

  /** Nobody shares a predecessor. */
  lemma OneWaiterPerNode(cfg: F.Config, junk: int, schedule: seq<Tid>, t: Tid, u: Tid)
    requires var s := Run(cfg, Init(cfg, junk), schedule);
             && t < |s.threads| && u < |s.threads| && s.threads[t].pc == Spin && s.threads[u].pc == Spin
             && s.threads[t].pre == s.threads[u].pre
    ensures t == u
  {
    RefinesFifoLock(cfg, junk, schedule);
    var s, a, g := Run(cfg, Init(cfg, junk), schedule), Abstraction(cfg, junk, schedule), History(cfg, junk, schedule);
    AtThread(cfg, s, a, g, t);
    AtThread(cfg, s, a, g, u);
  }

  /** A node is published with its flag up. */
  lemma PublishedWithFlagUp(cfg: F.Config, junk: int, schedule: seq<Tid>, t: Tid)
    requires Joins(Run(cfg, Init(cfg, junk), schedule), t)
    ensures var s := Run(cfg, Init(cfg, junk), schedule); FlagIsOne(Step(cfg, s, t), s.threads[t].my)
    ensures var s := Run(cfg, Init(cfg, junk), schedule); s.threads[t].my.value !in History(cfg, junk, schedule).chain
  {
    RefinesFifoLock(cfg, junk, schedule);
    var s, a, g := Run(cfg, Init(cfg, junk), schedule), Abstraction(cfg, junk, schedule), History(cfg, junk, schedule);
    AtThread(cfg, s, a, g, t);
    forall k | 0 <= k < |g.chain| ensures g.chain[k] != s.threads[t].my.value {
      assert NodeOk(s, a, g, k);
    }
  }

  lemma StepKeepsFlags(cfg: F.Config, s: State, a: F.State, g: Nodes, t: Tid, k: nat)
    requires Represents(cfg, s, a, g) && F.Inv(cfg, a) && k < |g.chain|
    ensures var g' := NodesStep(cfg, s, g, t); k < |g'.chain| && g'.chain[k] == g.chain[k]
    ensures var s', n := Step(cfg, s, t), g.chain[k];
            n < |s.flags| && n < |s'.flags| && 0 <= s'.flags[n] <= s.flags[n] <= 1
  {
    StepSimulates(cfg, s, a, g, t);
    assert NodeOk(s, a, g, k);
    assert NodeOk(Step(cfg, s, t), AbstractStep(cfg, s, a, t), NodesStep(cfg, s, g, t), k);
  }

  lemma {:induction false} RunKeepsFlags(cfg: F.Config, s: State, a: F.State, g: Nodes, schedule: seq<Tid>, k: nat)
    requires Represents(cfg, s, a, g) && F.Inv(cfg, a) && k < |g.chain| && g.chain[k] < |s.flags|
    ensures var s' := Run(cfg, s, schedule);
            g.chain[k] < |s'.flags| && 0 <= s'.flags[g.chain[k]] <= s.flags[g.chain[k]] <= 1
    decreases |schedule|
  {
    if schedule == [] {
      assert NodeOk(s, a, g, k);
    } else {
      var t := schedule[0];
      StepKeepsFlags(cfg, s, a, g, t, k);
      StepSimulates(cfg, s, a, g, t);
      RunKeepsFlags(cfg, Step(cfg, s, t), AbstractStep(cfg, s, a, t), NodesStep(cfg, s, g, t), schedule[1..], k);
    }
  }

  /** From publication on a flag can only fall: once it is 0 no later step of any thread raises it again. */
  lemma PublishedFlagsOnlyFall(cfg: F.Config, junk: int, before: seq<Tid>, after: seq<Tid>, n: NodeId)
    requires n in History(cfg, junk, before).chain
    ensures var s := Run(cfg, Init(cfg, junk), before);
            var s' := Run(cfg, s, after);
            n < |s.flags| && n < |s'.flags| && 0 <= s'.flags[n] <= s.flags[n] <= 1
  {
    RefinesFifoLock(cfg, junk, before);
    var s, a, g := Run(cfg, Init(cfg, junk), before), Abstraction(cfg, junk, before), History(cfg, junk, before);
    var k :| 0 <= k < |g.chain| && g.chain[k] == n;
    assert NodeOk(s, a, g, k);
    RunKeepsFlags(cfg, s, a, g, after, k);
  }

  /** When all threads are done every published flag has fallen. */
  lemma AllFlagsDownWhenDone(cfg: F.Config, junk: int, schedule: seq<Tid>, n: NodeId)
    requires AllDone(cfg, Run(cfg, Init(cfg, junk), schedule)) && n in History(cfg, junk, schedule).chain
    ensures var s := Run(cfg, Init(cfg, junk), schedule); n < |s.flags| && s.flags[n] == 0
  {
    RefinesFifoLock(cfg, junk, schedule);
    var s, a, g := Run(cfg, Init(cfg, junk), schedule), Abstraction(cfg, junk, schedule), History(cfg, junk, schedule);
    var k :| 0 <= k < |g.chain| && g.chain[k] == n;
    assert NodeOk(s, a, g, k);
    F.HeadIsBusy(a);
    forall t | 0 <= t < |a.clients| ensures a.clients[t].phase == F.Idle {
      assert ThreadOk(cfg, s, a, g, t);
    }
  }

  predicate Holds(s: State, t: Tid, my: Option<NodeId>, rounds: nat) {
    t < |s.threads| &&
    var th := s.threads[t];
    (th.work.rounds == rounds && PhaseOf(th.pc) != F.Idle && th.my == my) || th.work.rounds > rounds
  }

  lemma {:induction false} SlotKept(cfg: F.Config, s: State, t: Tid, my: Option<NodeId>, rounds: nat,
                                    schedule: seq<Tid>)
    requires Holds(s, t, my, rounds) && my.Some?
    ensures Holds(Run(cfg, s, schedule), t, my, rounds)
    decreases |schedule|
  {
    if schedule != [] {
      SlotKept(cfg, Step(cfg, s, schedule[0]), t, my, rounds, schedule[1..]);
    }
  }

  /** The slot read by unlock still names the node that the matching lock published. */
  lemma UnlockReadsPublishedNode(cfg: F.Config, s: State, t: Tid, after: seq<Tid>)
    requires Joins(s, t)
    requires var s' := Run(cfg, Step(cfg, s, t), after);
             t < |s'.threads| && s'.threads[t].work.rounds == s.threads[t].work.rounds
    ensures Run(cfg, Step(cfg, s, t), after).threads[t].my == s.threads[t].my
  {
    SlotKept(cfg, Step(cfg, s, t), t, s.threads[t].my, s.threads[t].work.rounds, after);
  }

  // ---------------------------------------------------------------- progress

  function RoundCost(cfg: F.Config): nat {
    2 * cfg.times + 7
  }

  function Remaining(cfg: F.Config, th: Thread): int {
    var work := 2 * (cfg.times - th.work.iters);
    match th.pc
    case Start => F.Budget(cfg.rounds - th.work.rounds, RoundCost(cfg))
    case SetFlag => F.Budget(cfg.rounds - th.work.rounds - 1, RoundCost(cfg)) + work + 6
    case Swap => F.Budget(cfg.rounds - th.work.rounds - 1, RoundCost(cfg)) + work + 5
    case Spin => F.Budget(cfg.rounds - th.work.rounds - 1, RoundCost(cfg)) + work + 4
    case Ready => F.Budget(cfg.rounds - th.work.rounds - 1, RoundCost(cfg)) + work + 3
    case Loaded => F.Budget(cfg.rounds - th.work.rounds - 1, RoundCost(cfg)) + work + 2
    case ClearFlag => F.Budget(cfg.rounds - th.work.rounds - 1, RoundCost(cfg)) + 2
    case Forget => F.Budget(cfg.rounds - th.work.rounds, RoundCost(cfg)) + 1
  }

  function RemainingFor(cfg: F.Config): Thread -> int {
    (th: Thread) => Remaining(cfg, th)
  }

  function Measure(cfg: F.Config, s: State): int {
    Sum(s.threads, RemainingFor(cfg))
  }

  /** The number of steps of a run that change the state. */
  function Effective(cfg: F.Config, s: State, schedule: seq<Tid>): nat {
    Runs.Effective(Stepper(cfg), s, schedule)
  }

  lemma MoverPays(cfg: F.Config, s: State, a: F.State, g: Nodes, t: Tid)
    requires t < |s.threads| && Step(cfg, s, t) != s
    requires ThreadOk(cfg, s, a, g, t) && F.WorkOk(cfg, a.clients[t], a.shared)
    ensures Remaining(cfg, Step(cfg, s, t).threads[t]) < Remaining(cfg, s.threads[t])
  {
  }

  lemma EffectiveStepPays(cfg: F.Config, s: State, a: F.State, g: Nodes, t: Tid)
    requires Represents(cfg, s, a, g) && F.Inv(cfg, a) && Step(cfg, s, t) != s
    ensures Measure(cfg, Step(cfg, s, t)) < Measure(cfg, s)
  {
    assert ThreadOk(cfg, s, a, g, t) && F.WorkOk(cfg, a.clients[t], a.shared);
    MoverPays(cfg, s, a, g, t);
    SumDrop(s.threads, RemainingFor(cfg), Step(cfg, s, t).threads, RemainingFor(cfg), t, 1, 0);
  }

  lemma MeasureNonNegative(cfg: F.Config, s: State, a: F.State, g: Nodes)
    requires Represents(cfg, s, a, g) && F.Inv(cfg, a)
    ensures 0 <= Measure(cfg, s)
  {
    forall t | 0 <= t < |s.threads|
      ensures 0 <= RemainingFor(cfg)(s.threads[t])
    {
      assert ThreadOk(cfg, s, a, g, t) && F.WorkOk(cfg, a.clients[t], a.shared);
    }
    SumAtLeast(s.threads, RemainingFor(cfg), 0);
  }

  /** While work remains the head of the queue, or with an empty queue any unfinished thread, can move. */
  lemma SomeThreadCanMove(cfg: F.Config, s: State, a: F.State, g: Nodes) returns (t: Tid)
    requires Represents(cfg, s, a, g) && F.Inv(cfg, a) && !AllDone(cfg, s)
    ensures Step(cfg, s, t) != s
  {
    if a.served < |a.arrivals| {
      t := a.arrivals[a.served];
      assert F.PlaceOk(a, a.served) && NodeOk(s, a, g, a.served);
    } else {
      t :| 0 <= t < |s.threads| && !(s.threads[t].pc == Start && s.threads[t].work.rounds == cfg.rounds);
    }
    AtThread(cfg, s, a, g, t);
    assert F.WorkOk(cfg, a.clients[t], a.shared);
    assert Step(cfg, s, t).threads[t] != s.threads[t];
  }

  // ---------------------------------------------------------------- what that means for every run

  ghost predicate Good(cfg: F.Config, s: State) {
    exists a, g :: Represents(cfg, s, a, g) && F.Inv(cfg, a)
  }

  ghost function SystemOf(cfg: F.Config): Runs.System<State> {
    Runs.System(cfg.threads, Stepper(cfg), (s: State) => Good(cfg, s), (s: State) => AllDone(cfg, s),
                (s: State) => Measure(cfg, s))
  }

  lemma StateProgresses(cfg: F.Config, s: State)
    requires Good(cfg, s)
    ensures Runs.StateOk(SystemOf(cfg), s)
  {
    var a, g :| Represents(cfg, s, a, g) && F.Inv(cfg, a);
    MeasureNonNegative(cfg, s, a, g);
    if !AllDone(cfg, s) {
      var t := SomeThreadCanMove(cfg, s, a, g);
      EffectiveStepPays(cfg, s, a, g, t);
      assert Runs.Helps(SystemOf(cfg), s, t);
    }
  }

  lemma StepProgresses(cfg: F.Config, s: State, t: Tid)
    requires Good(cfg, s)
    ensures Runs.StepOk(SystemOf(cfg), s, t)
    ensures Step(cfg, s, t) == s || Runs.Helps(SystemOf(cfg), s, t)
  {
    var a, g :| Represents(cfg, s, a, g) && F.Inv(cfg, a);
    StepSimulates(cfg, s, a, g, t);
    if Step(cfg, s, t) != s { EffectiveStepPays(cfg, s, a, g, t); }
  }

  lemma Progresses(cfg: F.Config)
    ensures Runs.Progresses(SystemOf(cfg)) && Runs.Strict(SystemOf(cfg))
  {
    forall s | Good(cfg, s) ensures Runs.StateOk(SystemOf(cfg), s) {
      StateProgresses(cfg, s);
    }
    forall s, t: Tid | Good(cfg, s)
      ensures Runs.StepOk(SystemOf(cfg), s, t) && (Step(cfg, s, t) == s || Runs.Helps(SystemOf(cfg), s, t))
    {
      StepProgresses(cfg, s, t);
    }
  }

  lemma InitialMeasure(cfg: F.Config, junk: int)
    ensures Good(cfg, Init(cfg, junk)) && Measure(cfg, Init(cfg, junk)) == cfg.threads * (cfg.rounds * RoundCost(cfg))
  {
    InitRepresents(cfg, junk);
    F.InitInv(cfg);
    SumConstant(Init(cfg, junk).threads, RemainingFor(cfg), F.Budget(cfg.rounds, RoundCost(cfg)));
    F.BudgetIsProduct(cfg.rounds, RoundCost(cfg));
  }

  /** However the threads are scheduled, a run has at most so many steps that change anything. */
  lemma EveryRunIsBounded(cfg: F.Config, junk: int, schedule: seq<Tid>)
    ensures Effective(cfg, Init(cfg, junk), schedule) <= cfg.threads * (cfg.rounds * RoundCost(cfg))
  {
    Progresses(cfg);
    InitialMeasure(cfg, junk);
    Runs.WorkIsBounded(SystemOf(cfg), Init(cfg, junk), schedule);
  }

  lemma NeverStuck(cfg: F.Config, junk: int, schedule: seq<Tid>)
    requires !AllDone(cfg, Run(cfg, Init(cfg, junk), schedule))
    ensures exists t :: Step(cfg, Run(cfg, Init(cfg, junk), schedule), t) != Run(cfg, Init(cfg, junk), schedule)
  {
    RefinesFifoLock(cfg, junk, schedule);
    var t := SomeThreadCanMove(cfg, Run(cfg, Init(cfg, junk), schedule), Abstraction(cfg, junk, schedule),
                               History(cfg, junk, schedule));
  }

  /**
   * Every fair run finishes: however it began, any continuation made of so many segments with a step of every
   * thread in each, in any order and with any others between them, ends with every increment counted.
   */
  lemma EveryFairRunFinishes(cfg: F.Config, junk: int, schedule: seq<Tid>, segments: seq<seq<Tid>>)
    requires Runs.Fair(segments, cfg.threads)
    requires cfg.threads * (cfg.rounds * RoundCost(cfg)) <= |segments|
    ensures var s := Run(cfg, Run(cfg, Init(cfg, junk), schedule), Runs.Flat(segments));
            AllDone(cfg, s) && s.shared == cfg.threads * cfg.rounds * cfg.times
  {
    Progresses(cfg);
    InitialMeasure(cfg, junk);
    Runs.RunKeeps(SystemOf(cfg), Init(cfg, junk), schedule);
    Runs.FairRunEnds(SystemOf(cfg), Run(cfg, Init(cfg, junk), schedule), segments);
    Runs.RunAppend(Stepper(cfg), Init(cfg, junk), schedule, Runs.Flat(segments));
    NoLostIncrements(cfg, junk, schedule + Runs.Flat(segments));
  }

  /** Such a continuation exists, so every run can be completed. */
  lemma EveryRunCanFinish(cfg: F.Config, junk: int, schedule: seq<Tid>)
    ensures exists more: seq<Tid> ::
      var s := Run(cfg, Run(cfg, Init(cfg, junk), schedule), more);
      AllDone(cfg, s) && s.shared == cfg.threads * cfg.rounds * cfg.times
  {
    var segments := Runs.RoundRobin(cfg.threads, cfg.threads * (cfg.rounds * RoundCost(cfg)));
    EveryFairRunFinishes(cfg, junk, schedule, segments);
  }
}
