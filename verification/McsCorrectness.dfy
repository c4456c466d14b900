/** What every run of the MCS lock keeps, inherited from the abstract first-in first-out lock. */
module McsCorrectness {
  import opened Sequences
  import opened Pointers
  import F = FifoLock
  import Runs
  import opened McsLock

  predicate Critical(s: State, t: Tid) {
    t < |s.threads| && (PhaseOf(s.threads[t].pc) == F.Ready || PhaseOf(s.threads[t].pc) == F.Loaded)
  }

  predicate AllDone(cfg: F.Config, s: State) {
    forall t :: 0 <= t < |s.threads| ==> s.threads[t].pc == Start && s.threads[t].work.rounds == cfg.rounds
  }

  /** The threads in the order of their successful swaps on tail. */
  function SwapOrder(cfg: F.Config, s: State, schedule: seq<Tid>): seq<Tid> {
    Runs.Picked(Stepper(cfg), Joins, s, schedule)
  }

  /** The threads in the order in which they get past their wait. */
  function EntryOrder(cfg: F.Config, s: State, schedule: seq<Tid>): seq<Tid> {
    Runs.Picked(Stepper(cfg), GetsIn, s, schedule)
  }

  /** The schedule of the abstract lock: the same threads, at the steps that matter to it. */
  function AbstractSchedule(cfg: F.Config, s: State, schedule: seq<Tid>): seq<Tid> {
    Runs.Picked(Stepper(cfg), (s: State, t: Tid) => Moves(cfg, s, t), s, schedule)
  }

  /** A step logs an arrival exactly when it is a successful swap and a grant exactly when it ends a wait. */
  lemma StepLogs(cfg: F.Config, s: State, a: F.State, t: Tid)
    requires Represents(cfg, s, a)
    ensures var a' := AbstractStep(cfg, s, a, t);
            && a'.arrivals == a.arrivals + (if Joins(s, t) then [t] else [])
            && a'.grants == a.grants + (if GetsIn(s, t) then [t] else [])
  {
    if t < |s.threads| {
      AtThread(cfg, s, a, t);
      AbstractStepIs(cfg, s, a, t);
    }
  }

  lemma {:induction false} RunSimulates(cfg: F.Config, s: State, a: F.State, schedule: seq<Tid>)
    requires Represents(cfg, s, a) && F.Inv(cfg, a)
    ensures var a' := F.Run(cfg, a, AbstractSchedule(cfg, s, schedule));
            && Represents(cfg, Run(cfg, s, schedule), a')
            && a'.arrivals == a.arrivals + SwapOrder(cfg, s, schedule)
            && a'.grants == a.grants + EntryOrder(cfg, s, schedule)
    decreases |schedule|
  {
    if schedule != [] {
      var t, rest := schedule[0], schedule[1..];
      var s', a' := Step(cfg, s, t), AbstractStep(cfg, s, a, t);
      StepSimulates(cfg, s, a, t);
      StepLogs(cfg, s, a, t);
      RunSimulates(cfg, s', a', rest);
      F.RunAfter(cfg, a, Moves(cfg, s, t), t, AbstractSchedule(cfg, s', rest));
      F.LogGrows(a.arrivals, Joins(s, t), t, a'.arrivals, SwapOrder(cfg, s', rest));
      F.LogGrows(a.grants, GetsIn(s, t), t, a'.grants, EntryOrder(cfg, s', rest));
    }
  }

  /** The state of the abstract lock that a run of the MCS lock reaches. */
  function Abstraction(cfg: F.Config, schedule: seq<Tid>): F.State {
    F.Run(cfg, F.Init(cfg), AbstractSchedule(cfg, Init(cfg), schedule))
  }

  /** Every run of the MCS lock is, step for step, a run of the abstract first-in first-out lock. */
  lemma RefinesFifoLock(cfg: F.Config, schedule: seq<Tid>)
    ensures var a := Abstraction(cfg, schedule);
            && Represents(cfg, Run(cfg, Init(cfg), schedule), a) && F.Inv(cfg, a)
            && a.arrivals == SwapOrder(cfg, Init(cfg), schedule)
            && a.grants == EntryOrder(cfg, Init(cfg), schedule)
  {
    InitRepresents(cfg);
    F.InitInv(cfg);
    RunSimulates(cfg, Init(cfg), F.Init(cfg), schedule);
    F.RunInv(cfg, F.Init(cfg), AbstractSchedule(cfg, Init(cfg), schedule));
  }

  lemma MutualExclusion(cfg: F.Config, schedule: seq<Tid>, t: Tid, u: Tid)
    requires Critical(Run(cfg, Init(cfg), schedule), t)
    requires Critical(Run(cfg, Init(cfg), schedule), u)
    ensures t == u
  {
    RefinesFifoLock(cfg, schedule);
    var s, a := Run(cfg, Init(cfg), schedule), Abstraction(cfg, schedule);
    assert ThreadOk(cfg, s, a, t) && ThreadOk(cfg, s, a, u);
    F.MutualExclusion(cfg, AbstractSchedule(cfg, Init(cfg), schedule), t, u);
  }

  /** The critical section is granted exactly in the order of the swaps. */
  lemma GrantedInSwapOrder(cfg: F.Config, schedule: seq<Tid>)
    ensures EntryOrder(cfg, Init(cfg), schedule) <= SwapOrder(cfg, Init(cfg), schedule)
  {
    RefinesFifoLock(cfg, schedule);
    F.GrantedInArrivalOrder(cfg, AbstractSchedule(cfg, Init(cfg), schedule));
  }

  lemma DoneTotal(cfg: F.Config, s: State, a: F.State)
    requires Represents(cfg, s, a) && F.Inv(cfg, a) && AllDone(cfg, s)
    ensures s.shared == cfg.threads * cfg.rounds * cfg.times
  {
    forall t | 0 <= t < |a.clients|
      ensures a.clients[t].phase == F.Idle && a.clients[t].work.rounds == cfg.rounds
    {
      assert ThreadOk(cfg, s, a, t);
    }
    F.DoneTotal(cfg, a);
  }

  lemma NoLostIncrements(cfg: F.Config, schedule: seq<Tid>)
    requires AllDone(cfg, Run(cfg, Init(cfg), schedule))
    ensures Run(cfg, Init(cfg), schedule).shared == cfg.threads * cfg.rounds * cfg.times
  {
    RefinesFifoLock(cfg, schedule);
    DoneTotal(cfg, Run(cfg, Init(cfg), schedule), Abstraction(cfg, schedule));
  }

  /** The queue as the pointers show it. */
  predicate IsQueue(s: State, q: seq<Tid>) {
    && NoDup(q)
    && s.tail == (if q == [] then None else Some(q[|q| - 1]))
    && (forall t :: 0 <= t < |s.threads| && PhaseOf(s.threads[t].pc) != F.Idle ==> t in q)
    && (forall i :: 0 <= i < |q| ==> QueuePlace(s, q, i))
  }

  predicate QueuePlace(s: State, q: seq<Tid>, i: nat) {
    && i < |q| && q[i] < |s.threads| && q[i] < |s.nodes|
    && PhaseOf(s.threads[q[i]].pc) != F.Idle
    && s.nodes[q[i]].next == (if i + 1 < |q| && Spinning(s, q[i + 1]) then Some(q[i + 1]) else None)
    && (i > 0 ==> s.nodes[q[i]].lock == 1 && !Critical(s, q[i]))
  }

  lemma QueueNoDup(a: F.State)
    requires F.QueueOk(a)
    ensures NoDup(a.Queue())
  {
    forall i, j | 0 <= i < j < |a.Queue()|
      ensures a.Queue()[i] != a.Queue()[j]
    {
      assert F.PlaceOk(a, a.served + i) && F.PlaceOk(a, a.served + j);
    }
  }

  lemma QueueCovers(a: F.State, t: Tid)
    requires F.QueueOk(a) && t < |a.clients| && a.clients[t].phase != F.Idle
    ensures t in a.Queue()
  {
    assert F.TicketOk(a, t);
    assert a.Queue()[a.clients[t].ticket - a.served] == t;
  }

  lemma ShownPlace(s: State, a: F.State, q: seq<Tid>, i: nat)
    requires a.served + i < |a.arrivals| && |q| == |a.arrivals| - a.served
    requires q[i] == a.arrivals[a.served + i]
    requires i + 1 < |q| ==> q[i + 1] == a.arrivals[a.served + i + 1]
    requires WaitOk(s, a, a.served + i) && LinkOk(s, a, a.served + i)
    requires PhaseOf(s.threads[q[i]].pc) != F.Idle && (i > 0 ==> !Critical(s, q[i]))
    ensures QueuePlace(s, q, i)
  {
  }

  lemma RepresentedPlace(cfg: F.Config, s: State, a: F.State, i: nat)
    requires Represents(cfg, s, a) && i < |a.Queue()|
    ensures QueuePlace(s, a.Queue(), i)
  {
    var k := a.served + i;
    assert F.PlaceOk(a, k);
    PlaceOf(a, a.arrivals[k], k);
    AtThread(cfg, s, a, a.arrivals[k]);
    ShownPlace(s, a, a.Queue(), i);
  }

  /** In every reachable state the pointers spell out one duplicate-free queue. */
  lemma QueueExists(cfg: F.Config, schedule: seq<Tid>)
    ensures exists q :: IsQueue(Run(cfg, Init(cfg), schedule), q)
  {
    RefinesFifoLock(cfg, schedule);
    RepresentedQueue(cfg, Run(cfg, Init(cfg), schedule), Abstraction(cfg, schedule));
  }

  lemma RepresentedQueue(cfg: F.Config, s: State, a: F.State)
    requires Represents(cfg, s, a)
    ensures IsQueue(s, a.Queue())
  {
    QueueNoDup(a);
    forall i | 0 <= i < |a.Queue()|
      ensures QueuePlace(s, a.Queue(), i)
    {
      RepresentedPlace(cfg, s, a, i);
    }
    forall t | 0 <= t < |s.threads| && PhaseOf(s.threads[t].pc) != F.Idle
      ensures t in a.Queue()
    {
      assert ThreadOk(cfg, s, a, t);
      QueueCovers(a, t);
    }
  }
}
