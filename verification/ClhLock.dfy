/**
 * The CLH queue lock as a transition system, and its simulation by the abstract first-in first-out lock. A node is
 * allocated for every acquisition and named by its number; a waiter spins on the flag of the node ahead of its own.
 * The invariant says what every published node has been used for, that its flag is up exactly while its user holds
 * or waits, and that a thread in the queue spins on its predecessor's node. Every step keeps it while the abstract
 * lock takes the same thread's step or none.
 */
module ClhLock {
  import opened Pointers
  import F = FifoLock
  import Runs

  type Tid = F.Tid
  /** Nodes are numbered in the order of their allocation; node 0 is the one made by init. */
  type NodeId = nat

  datatype Pc =
    | Start      // outside the lock, before get_slot
    | SetFlag    // about to store flag = 1 in its node
    | Swap       // about to exchange tail for its node
    | Spin       // reading the predecessor's flag until it is no longer 1
    | Ready      // inside, at the head of the increment loop
    | Loaded     // inside, the shared value is in the register
    | ClearFlag  // about to store flag = 0 in its node
    | Forget     // about to clear its thread-local slot

  /** `my` and `pre` are the two thread-local slots. */
  datatype Thread = Thread(pc: Pc, my: Option<NodeId>, pre: Option<NodeId>, work: F.Work)

  /** `junk` is whatever a freshly allocated node holds before it is written. */
  datatype State = State(tail: NodeId, flags: seq<int>, threads: seq<Thread>, shared: int, junk: int)

  function Init(cfg: F.Config, junk: int): State {
    State(0, [0], seq(cfg.threads, _ => Thread(Start, None, None, F.NOTHING_DONE)), 0, junk)
  }

  function Put(s: State, t: Tid, th: Thread): State
    requires t < |s.threads|
  {
    s.(threads := s.threads[t := th])
  }

  /** The thread-local slot of the own node; an empty slot is filled with a new node. */
  function GetSlot(s: State, t: Tid): State
    requires t < |s.threads|
  {
    if s.threads[t].my.Some? then s
    else Put(s, t, s.threads[t].(my := Some(|s.flags|))).(flags := s.flags + [s.junk])
  }

  function SetFlagOf(flags: seq<int>, n: Option<NodeId>, flag: int): seq<int> {
    if n.Some? && n.value < |flags| then flags[n.value := flag] else flags
  }

  predicate FlagIsOne(s: State, n: Option<NodeId>) {
    n.Some? && n.value < |s.flags| && s.flags[n.value] == 1
  }

  /** One step of thread `t`; a spinning or finished thread leaves the state as it is. */
  function Step(cfg: F.Config, s: State, t: Tid): State {
    if t >= |s.threads| then s else
      var th := s.threads[t];
      match th.pc
      case Start =>
        if th.work.rounds < cfg.rounds
        then var s1 := GetSlot(s, t); Put(s1, t, s1.threads[t].(pc := SetFlag))
        else s
      case SetFlag => Put(s, t, th.(pc := Swap)).(flags := SetFlagOf(s.flags, th.my, 1))
      case Swap =>
        if th.my.Some?
        then Put(s, t, th.(pc := Spin, pre := Some(s.tail))).(tail := th.my.value)
        else s
      case Spin => if FlagIsOne(s, th.pre) then s else Put(s, t, th.(pc := Ready))
      case Ready =>
        if th.work.iters < cfg.times
        then Put(s, t, th.(pc := Loaded, work := F.Load(th.work, s.shared)))
        else Put(s, t, th.(pc := ClearFlag))
      case Loaded => Put(s, t, th.(pc := Ready, work := F.Store(th.work))).(shared := th.work.reg + 1)
      case ClearFlag =>
        var s1 := GetSlot(s, t);
        Put(s1, t, s1.threads[t].(pc := Forget, work := F.EndRound(th.work)))
        .(flags := SetFlagOf(s1.flags, s1.threads[t].my, 0))
      case Forget => Put(s, t, th.(pc := Start, my := None))
  }

  function Stepper(cfg: F.Config): (State, Tid) -> State {
    (s: State, t: Tid) => Step(cfg, s, t)
  }

  function Run(cfg: F.Config, s: State, schedule: seq<Tid>): State {
    Runs.Run(Stepper(cfg), s, schedule)
  }

  // ---------------------------------------------------------------- refinement of the abstract lock

  function PhaseOf(pc: Pc): F.Phase {
    match pc
    case Start | SetFlag | Swap | Forget => F.Idle
    case Spin => F.Waiting
    case Loaded => F.Loaded
    case Ready | ClearFlag => F.Ready
  }

  /** Is thread `t`'s next step the exchange that joins the queue? */
  predicate Joins(s: State, t: Tid) {
    t < |s.threads| && s.threads[t].pc == Swap && s.threads[t].my.Some?
  }

  /** Is thread `t`'s next step the one that ends its spin? */
  predicate GetsIn(s: State, t: Tid) {
    t < |s.threads| && s.threads[t].pc == Spin && !FlagIsOne(s, s.threads[t].pre)
  }

  /** Is thread `t`'s next step one that the abstract lock takes too? */
  predicate Moves(cfg: F.Config, s: State, t: Tid) {
    t < |s.threads| &&
    var th := s.threads[t];
    || Joins(s, t)
    || GetsIn(s, t)
    || (th.pc == Ready && th.work.iters < cfg.times)
    || th.pc == Loaded
    || th.pc == ClearFlag
  }

  function AbstractStep(cfg: F.Config, s: State, a: F.State, t: Tid): F.State {
    if Moves(cfg, s, t) then F.Step(cfg, a, t) else a
  }

  /**
   * What the nodes have been used for: `chain` lists the published nodes in order, the initial one first,
   * so arrival `k` published chain[k + 1]; `place` gives each node's position in it, or -1 before publication;
   * `maker` is the thread that allocated it.
   */
  datatype Nodes = Nodes(chain: seq<NodeId>, place: seq<int>, maker: seq<Tid>)

  function InitNodes(): Nodes {
    Nodes([0], [0], [0])
  }

  function NodesStep(cfg: F.Config, s: State, g: Nodes, t: Tid): Nodes {
    if t < |s.threads| && s.threads[t].pc == Start && s.threads[t].work.rounds < cfg.rounds && s.threads[t].my.None?
    then g.(place := g.place + [-1], maker := g.maker + [t])
    else if Joins(s, t) && s.threads[t].my.value < |g.place|
    then g.(chain := g.chain + [s.threads[t].my.value], place := g.place[s.threads[t].my.value := |g.chain|])
    else g
  }

  /** Position `k` of the chain: published once, and its flag has fallen exactly if its owner has left. */
  predicate NodeOk(s: State, a: F.State, g: Nodes, k: nat) {
    && k < |g.chain| && g.chain[k] < |s.flags| && g.chain[k] < |g.place|
    && g.place[g.chain[k]] == k
    && s.flags[g.chain[k]] == if k <= a.served then 0 else 1
  }

  /** The node a thread has prepared but not published is its own and nobody else's. */
  predicate Prepared(s: State, g: Nodes, t: Tid, n: Option<NodeId>) {
    && n.Some? && n.value < |s.flags| && n.value < |g.place| && n.value < |g.maker|
    && g.place[n.value] == -1 && g.maker[n.value] == t
  }

  predicate ThreadOk(cfg: F.Config, s: State, a: F.State, g: Nodes, t: Tid) {
    t < |s.threads| && t < |a.clients| &&
    var th, c := s.threads[t], a.clients[t];
    && c.phase == PhaseOf(th.pc)
    && c.work == th.work
    && (th.pc == SetFlag || th.pc == Swap ==> th.work.rounds < cfg.rounds && Prepared(s, g, t, th.my))
    && (th.pc == Swap ==> FlagIsOne(s, th.my))
    && (th.pc == Start ==> th.my == None)
    && (c.phase != F.Idle ==> c.ticket + 1 < |g.chain| && th.my == Some(g.chain[c.ticket + 1]))
    && (th.pc == Spin ==> c.ticket < |g.chain| && th.pre == Some(g.chain[c.ticket]))
    && (th.pc == ClearFlag ==> th.work.iters == cfg.times)
  }

  predicate ThreadsOk(cfg: F.Config, s: State, a: F.State, g: Nodes) {
    forall t :: 0 <= t < |s.threads| ==> ThreadOk(cfg, s, a, g, t)
  }

  predicate NodesOk(s: State, a: F.State, g: Nodes) {
    forall k :: 0 <= k < |g.chain| ==> NodeOk(s, a, g, k)
  }

  predicate Sized(s: State, a: F.State, g: Nodes) {
    && |s.threads| == |a.clients|
    && |s.flags| == |g.place| == |g.maker|
    && |g.chain| == |a.arrivals| + 1
    && s.tail == g.chain[|a.arrivals|]
    && s.shared == a.shared
  }

  /** The invariant that ties the nodes to the queue of the abstract lock. */
  predicate Represents(cfg: F.Config, s: State, a: F.State, g: Nodes) {
    && Sized(s, a, g)
    && F.QueueOk(a)
    && ThreadsOk(cfg, s, a, g)
    && NodesOk(s, a, g)
  }

  lemma InitRepresents(cfg: F.Config, junk: int)
    ensures Represents(cfg, Init(cfg, junk), F.Init(cfg), InitNodes())
  {
    var s, a, g := Init(cfg, junk), F.Init(cfg), InitNodes();
    assert NodeOk(s, a, g, 0);
    forall t | 0 <= t < |s.threads| ensures ThreadOk(cfg, s, a, g, t) { }
    forall t | 0 <= t < |a.clients| ensures F.TicketOk(a, t) { }
  }

  lemma AtThread(cfg: F.Config, s: State, a: F.State, g: Nodes, t: Tid)
    requires Represents(cfg, s, a, g) && t < |s.threads|
    ensures ThreadOk(cfg, s, a, g, t) && F.TicketOk(a, t)
    ensures a.clients[t].phase != F.Idle ==>
              NodeOk(s, a, g, a.clients[t].ticket) && NodeOk(s, a, g, a.clients[t].ticket + 1)
  {
    assert ThreadOk(cfg, s, a, g, t) && F.TicketOk(a, t);
  }

  /** A step that changes no node: the chain and the other threads stay as they are. */
  lemma LocalStep(cfg: F.Config, s: State, a: F.State, s': State, a': F.State, g: Nodes, t: Tid)
    requires Represents(cfg, s, a, g) && F.QueueOk(a') && Sized(s', a', g) && t < |s.threads|
    requires s'.flags == s.flags && |s'.threads| == |s.threads| && s'.threads == s.threads[t := s'.threads[t]]
    requires |a'.clients| == |a.clients| && a'.clients == a.clients[t := a'.clients[t]] && a'.served == a.served
    requires ThreadOk(cfg, s', a', g, t)
    ensures Represents(cfg, s', a', g)
  {
    forall u | 0 <= u < |s'.threads| ensures ThreadOk(cfg, s', a', g, u) {
      assert ThreadOk(cfg, s, a, g, u);
    }
    forall k | 0 <= k < |g.chain| ensures NodeOk(s', a', g, k) {
      assert NodeOk(s, a, g, k);
    }
  }

  lemma AllocateStep(cfg: F.Config, s: State, a: F.State, g: Nodes, t: Tid)
    requires Represents(cfg, s, a, g) && t < |s.threads| && s.threads[t].pc == Start
    ensures Represents(cfg, Step(cfg, s, t), a, NodesStep(cfg, s, g, t))
  {
    var s', g' := Step(cfg, s, t), NodesStep(cfg, s, g, t);
    AtThread(cfg, s, a, g, t);
    forall u | 0 <= u < |s'.threads| ensures ThreadOk(cfg, s', a, g', u) {
      assert ThreadOk(cfg, s, a, g, u);
    }
    forall k | 0 <= k < |g'.chain| ensures NodeOk(s', a, g', k) {
      assert NodeOk(s, a, g, k);
    }
  }

  /** Raising the flag of a node nobody else has seen. */
  lemma SetFlagStep(cfg: F.Config, s: State, a: F.State, g: Nodes, t: Tid)
    requires Represents(cfg, s, a, g) && t < |s.threads| && s.threads[t].pc == SetFlag
    ensures Represents(cfg, Step(cfg, s, t), a, g)
  {
    var s' := Step(cfg, s, t);
    AtThread(cfg, s, a, g, t);
    forall u | 0 <= u < |s'.threads| ensures ThreadOk(cfg, s', a, g, u) {
      assert ThreadOk(cfg, s, a, g, u);
    }
    forall k | 0 <= k < |g.chain| ensures NodeOk(s', a, g, k) {
      assert NodeOk(s, a, g, k);
    }
  }

  /** Publishing: the node joins the end of the chain with its flag up. */
  lemma JoinStep(cfg: F.Config, s: State, a: F.State, a': F.State, g: Nodes, t: Tid)
    requires Represents(cfg, s, a, g) && Joins(s, t)
    requires a' == F.Enqueue(a, t) && F.QueueOk(a')
    ensures Represents(cfg, Step(cfg, s, t), a', NodesStep(cfg, s, g, t))
  {
    var s', g' := Step(cfg, s, t), NodesStep(cfg, s, g, t);
    AtThread(cfg, s, a, g, t);
    forall u | 0 <= u < |s'.threads| ensures ThreadOk(cfg, s', a', g', u) {
      assert ThreadOk(cfg, s, a, g, u) && F.TicketOk(a, u);
    }
    forall k | 0 <= k < |g'.chain| ensures NodeOk(s', a', g', k) {
      if k < |g.chain| { assert NodeOk(s, a, g, k); }
    }
  }

  /** Whoever sees its predecessor's flag down is the head of the queue. */
  lemma GetsInIsHead(cfg: F.Config, s: State, a: F.State, g: Nodes, t: Tid)
    requires Represents(cfg, s, a, g) && GetsIn(s, t)
    ensures a.IsHead(t)
  {
    AtThread(cfg, s, a, g, t);
  }

  /** Leaving: exactly the flag of the head's own node falls. */
  lemma LeaveStep(cfg: F.Config, s: State, a: F.State, a': F.State, g: Nodes, t: Tid)
    requires Represents(cfg, s, a, g) && t < |s.threads| && s.threads[t].pc == ClearFlag
    requires a' == F.Leave(a, t) && F.QueueOk(a')
    ensures Represents(cfg, Step(cfg, s, t), a', g)
  {
    var s' := Step(cfg, s, t);
    AtThread(cfg, s, a, g, t);
    forall u | 0 <= u < |s'.threads| ensures ThreadOk(cfg, s', a', g, u) {
      assert ThreadOk(cfg, s, a, g, u);
    }
    forall k | 0 <= k < |g.chain| ensures NodeOk(s', a', g, k) {
      assert NodeOk(s, a, g, k);
    }
  }

  /** What the abstract lock does at each step that it takes part in. */
  lemma AbstractStepIs(cfg: F.Config, s: State, a: F.State, g: Nodes, t: Tid)
    requires Represents(cfg, s, a, g) && t < |s.threads|
    ensures Joins(s, t) ==> AbstractStep(cfg, s, a, t) == F.Enqueue(a, t)
    ensures GetsIn(s, t) ==> AbstractStep(cfg, s, a, t) == F.Enter(a, t)
    ensures s.threads[t].pc == ClearFlag ==> AbstractStep(cfg, s, a, t) == F.Leave(a, t)
  {
    AtThread(cfg, s, a, g, t);
    if GetsIn(s, t) { GetsInIsHead(cfg, s, a, g, t); }
  }

  lemma QuietStep(cfg: F.Config, s: State, a: F.State, a': F.State, g: Nodes, t: Tid)
    requires Represents(cfg, s, a, g) && a' == AbstractStep(cfg, s, a, t) && F.QueueOk(a')
    requires t < |s.threads| && s.threads[t].work.iters <= cfg.times
    requires var pc := s.threads[t].pc; pc == Spin || pc == Ready || pc == Loaded || pc == Forget
    ensures Represents(cfg, Step(cfg, s, t), a', g)
  {
    AbstractStepIs(cfg, s, a, g, t);
    AtThread(cfg, s, a, g, t);
    LocalStep(cfg, s, a, Step(cfg, s, t), a', g, t);
  }

  lemma StepRepresents(cfg: F.Config, s: State, a: F.State, a': F.State, g: Nodes, t: Tid)
    requires Represents(cfg, s, a, g) && a' == AbstractStep(cfg, s, a, t) && F.QueueOk(a')
    requires t < |s.threads| && s.threads[t].work.iters <= cfg.times
    ensures Represents(cfg, Step(cfg, s, t), a', NodesStep(cfg, s, g, t))
  {
    AbstractStepIs(cfg, s, a, g, t);
    match s.threads[t].pc
    case Start => AllocateStep(cfg, s, a, g, t);
    case SetFlag => SetFlagStep(cfg, s, a, g, t);
    case Swap =>
      AtThread(cfg, s, a, g, t);
      JoinStep(cfg, s, a, a', g, t);
    case ClearFlag => LeaveStep(cfg, s, a, a', g, t);
    case Spin | Ready | Loaded | Forget => QuietStep(cfg, s, a, a', g, t);
  }

  lemma StepSimulates(cfg: F.Config, s: State, a: F.State, g: Nodes, t: Tid)
    requires Represents(cfg, s, a, g) && F.Inv(cfg, a)
    ensures Represents(cfg, Step(cfg, s, t), AbstractStep(cfg, s, a, t), NodesStep(cfg, s, g, t))
    ensures F.Inv(cfg, AbstractStep(cfg, s, a, t))
  {
    F.StepInv(cfg, a, t);
    if t < |s.threads| {
      assert ThreadOk(cfg, s, a, g, t) && F.WorkOk(cfg, a.clients[t], a.shared);
      StepRepresents(cfg, s, a, AbstractStep(cfg, s, a, t), g, t);
    }
  }
}
