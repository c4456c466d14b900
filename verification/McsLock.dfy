/**
 * The MCS queue lock as a transition system, and its simulation by the abstract first-in first-out lock.
 * Every thread owns one node; a node is named by its owner. Each shared read, write or compare-and-swap is one step.
 * The invariant ties tail, the partly built chain of next pointers and the lock bytes to the abstract queue, and
 * every step keeps it while the abstract lock takes the same thread's step or none.
 */
module McsLock {
  import opened Pointers
  import F = FifoLock
  import Runs

  type Tid = F.Tid

  datatype Pc =
    | Start       // outside the lock, before get_node
    | SetLock     // about to store lock = 1 in its own node
    | ClearNext   // about to store next = NULL in its own node
    | LoadTail    // about to read tail, first time or after a failed swap
    | SwapTail    // about to compare-and-swap tail from pred to its own node
    | CheckPred   // swap done, about to test pred against NULL
    | LinkPred    // about to store itself in pred->next
    | SpinLock    // reading its own lock until it is no longer 1
    | Ready       // inside, at the head of the increment loop
    | Loaded      // inside, the shared value is in the register
    | CheckNext   // unlocking, about to test its own next against NULL
    | ClearTail   // about to compare-and-swap tail from its own node to NULL
    | AwaitNext   // reading its own next until it is no longer NULL
    | LoadNext    // about to read its own next for the hand-off
    | Release     // about to store lock = 0 in the successor's node

  datatype Node = Node(lock: int, next: Option<Tid>)

  datatype Thread = Thread(pc: Pc, pred: Option<Tid>, next: Option<Tid>, work: F.Work)

  datatype State = State(tail: Option<Tid>, nodes: seq<Node>, threads: seq<Thread>, shared: int)

  function Init(cfg: F.Config): State {
    State(None, seq(cfg.threads, _ => Node(0, None)),
          seq(cfg.threads, _ => Thread(Start, None, None, F.NOTHING_DONE)), 0)
  }

  function Put(s: State, t: Tid, th: Thread): State
    requires t < |s.threads|
  {
    s.(threads := s.threads[t := th])
  }

  function Go(s: State, t: Tid, pc: Pc): State
    requires t < |s.threads|
  {
    Put(s, t, s.threads[t].(pc := pc))
  }

  /** Storing through a pointer that names no node has no effect; the invariant shows this never happens. */
  function SetNodeLock(nodes: seq<Node>, n: Option<Tid>, lock: int): seq<Node> {
    if n.Some? && n.value < |nodes| then nodes[n.value := nodes[n.value].(lock := lock)] else nodes
  }

  function SetNodeNext(nodes: seq<Node>, n: Option<Tid>, next: Option<Tid>): seq<Node> {
    if n.Some? && n.value < |nodes| then nodes[n.value := nodes[n.value].(next := next)] else nodes
  }

  /** One step of thread `t`; a spinning or finished thread leaves the state as it is. */
  function Step(cfg: F.Config, s: State, t: Tid): State {
    if t >= |s.threads| || t >= |s.nodes| then s else
      var th := s.threads[t];
      match th.pc
      case Start => if th.work.rounds < cfg.rounds then Go(s, t, SetLock) else s
      case SetLock => Go(s, t, ClearNext).(nodes := SetNodeLock(s.nodes, Some(t), 1))
      case ClearNext => Go(s, t, LoadTail).(nodes := SetNodeNext(s.nodes, Some(t), None))
      case LoadTail => Put(s, t, th.(pc := SwapTail, pred := s.tail))
      case SwapTail =>
        if s.tail == th.pred then Go(s, t, CheckPred).(tail := Some(t)) else Go(s, t, LoadTail)
      case CheckPred => if th.pred == None then Go(s, t, Ready) else Go(s, t, LinkPred)
      case LinkPred => Go(s, t, SpinLock).(nodes := SetNodeNext(s.nodes, th.pred, Some(t)))
      case SpinLock => if s.nodes[t].lock == 1 then s else Go(s, t, Ready)
      case Ready =>
        if th.work.iters < cfg.times
        then Put(s, t, th.(pc := Loaded, work := F.Load(th.work, s.shared)))
        else Go(s, t, CheckNext)
      case Loaded => Put(s, t, th.(pc := Ready, work := F.Store(th.work))).(shared := th.work.reg + 1)
      case CheckNext => if s.nodes[t].next == None then Go(s, t, ClearTail) else Go(s, t, LoadNext)
      case ClearTail =>
        if s.tail == Some(t)
        then Put(s, t, th.(pc := Start, work := F.EndRound(th.work))).(tail := None)
        else Go(s, t, AwaitNext)
      case AwaitNext => if s.nodes[t].next == None then s else Go(s, t, LoadNext)
      case LoadNext => Put(s, t, th.(pc := Release, next := s.nodes[t].next))
      case Release =>
        Put(s, t, th.(pc := Start, work := F.EndRound(th.work))).(nodes := SetNodeLock(s.nodes, th.next, 0))
  }

  function Stepper(cfg: F.Config): (State, Tid) -> State {
    (s: State, t: Tid) => Step(cfg, s, t)
  }

  function Run(cfg: F.Config, s: State, schedule: seq<Tid>): State {
    Runs.Run(Stepper(cfg), s, schedule)
  }

  // ---------------------------------------------------------------- refinement of the abstract lock

  function PhaseOf(pc: Pc): F.Phase {
    match pc
    case Start | SetLock | ClearNext | LoadTail | SwapTail => F.Idle
    case CheckPred | LinkPred | SpinLock => F.Waiting
    case Loaded => F.Loaded
    case Ready | CheckNext | ClearTail | AwaitNext | LoadNext | Release => F.Ready
  }

  predicate Unlocking(pc: Pc) {
    (pc == CheckNext || pc == ClearTail || pc == AwaitNext || pc == LoadNext || pc == Release)
  }

  /** Is thread `t`'s next step the successful swap that joins the queue? */
  predicate Joins(s: State, t: Tid) {
    t < |s.threads| && s.threads[t].pc == SwapTail && s.tail == s.threads[t].pred
  }

  /** Is thread `t`'s next step the one that takes it out of its wait? */
  predicate GetsIn(s: State, t: Tid) {
    && t < |s.threads| && t < |s.nodes|
    && (|| (s.threads[t].pc == CheckPred && s.threads[t].pred == None)
        || (s.threads[t].pc == SpinLock && s.nodes[t].lock != 1))
  }

  /** Is thread `t`'s next step the one that gives the lock up? */
  predicate Leaves(s: State, t: Tid) {
    && t < |s.threads|
    && ((s.threads[t].pc == ClearTail && s.tail == Some(t)) || s.threads[t].pc == Release)
  }

  /** Is thread `t`'s next step one that the abstract lock takes too? All others change nothing abstractly. */
  predicate Moves(cfg: F.Config, s: State, t: Tid) {
    t < |s.threads| && t < |s.nodes| &&
    var th := s.threads[t];
    || Joins(s, t)
    || GetsIn(s, t)
    || (th.pc == Ready && th.work.iters < cfg.times)
    || th.pc == Loaded
    || Leaves(s, t)
  }

  function AbstractStep(cfg: F.Config, s: State, a: F.State, t: Tid): F.State {
    if Moves(cfg, s, t) then F.Step(cfg, a, t) else a
  }

  /** Queue position `k`, seen backwards: a waiter knows its predecessor and is locked, the head is free to go. */
  predicate WaitOk(s: State, a: F.State, k: nat) {
    k < |a.arrivals| && a.arrivals[k] < |s.threads| && a.arrivals[k] < |s.nodes| &&
    var th, lock := s.threads[a.arrivals[k]], s.nodes[a.arrivals[k]].lock;
    if k == a.served then
      && th.pc != LinkPred
      && (th.pc == CheckPred ==> th.pred == None)
      && (th.pc == SpinLock ==> lock == 0)
    else
      && lock == 1
      && (th.pc == CheckPred || th.pc == LinkPred ==> k > 0 && th.pred == Some(a.arrivals[k - 1]))
  }

  /** Queue position `k`, seen forwards: `next` names the successor once that has linked itself, until then nobody. */
  predicate LinkOk(s: State, a: F.State, k: nat) {
    k < |a.arrivals| && a.arrivals[k] < |s.nodes| &&
    s.nodes[a.arrivals[k]].next == if k + 1 < |a.arrivals| && Spinning(s, a.arrivals[k + 1])
                                   then Some(a.arrivals[k + 1]) else None
  }

  predicate Spinning(s: State, t: Tid) {
    t < |s.threads| && s.threads[t].pc == SpinLock
  }

  /** What a thread's own position says about its node, its registers and its client part. */
  predicate ThreadOk(cfg: F.Config, s: State, a: F.State, t: Tid) {
    t < |s.threads| && t < |s.nodes| && t < |a.clients| &&
    var c := a.clients[t];
    var th, node := s.threads[t], s.nodes[t];
    && c.phase == PhaseOf(th.pc)
    && c.work == th.work
    && (th.pc != Start ==> th.work.rounds < cfg.rounds)
    && (th.pc == ClearNext || th.pc == LoadTail || th.pc == SwapTail ==> node.lock == 1)
    && (th.pc == LoadTail || th.pc == SwapTail ==> node.next == None)
    && (Unlocking(th.pc) ==> th.work.iters == cfg.times)
    && (th.pc == AwaitNext ==> s.tail != Some(t))
    && (th.pc == LoadNext || th.pc == Release ==> node.next.Some?)
    && (th.pc == Release ==> th.next == node.next)
  }

  predicate TailOk(s: State, a: F.State) {
    s.tail == if a.served < |a.arrivals| then Some(a.arrivals[|a.arrivals| - 1]) else None
  }

  predicate ThreadsOk(cfg: F.Config, s: State, a: F.State) {
    forall t :: 0 <= t < |s.threads| ==> ThreadOk(cfg, s, a, t)
  }

  predicate WaitsOk(s: State, a: F.State) {
    forall k :: a.served <= k < |a.arrivals| ==> WaitOk(s, a, k)
  }

  predicate LinksOk(s: State, a: F.State) {
    forall k :: a.served <= k < |a.arrivals| ==> LinkOk(s, a, k)
  }

  /** The invariant that ties the pointers to the queue of the abstract lock. */
  predicate Represents(cfg: F.Config, s: State, a: F.State) {
    && |s.nodes| == |s.threads| == |a.clients|
    && F.QueueOk(a)
    && s.shared == a.shared
    && TailOk(s, a)
    && ThreadsOk(cfg, s, a)
    && WaitsOk(s, a)
    && LinksOk(s, a)
  }

  lemma InitRepresents(cfg: F.Config)
    ensures Represents(cfg, Init(cfg), F.Init(cfg))
  {
  }

  /** Everything the invariant says about one queue place and the thread that holds it. */
  lemma AtPlace(cfg: F.Config, s: State, a: F.State, k: nat)
    requires Represents(cfg, s, a) && a.served <= k < |a.arrivals|
    ensures WaitOk(s, a, k) && LinkOk(s, a, k) && F.PlaceOk(a, k)
    ensures ThreadOk(cfg, s, a, a.arrivals[k])
  {
    assert WaitOk(s, a, k) && LinkOk(s, a, k) && F.PlaceOk(a, k);
  }

  /** Everything the invariant says about one thread. */
  lemma AtThread(cfg: F.Config, s: State, a: F.State, t: Tid)
    requires Represents(cfg, s, a) && t < |s.threads|
    ensures ThreadOk(cfg, s, a, t) && F.TicketOk(a, t)
    ensures a.clients[t].phase != F.Idle ==> WaitOk(s, a, a.clients[t].ticket) && LinkOk(s, a, a.clients[t].ticket)
    ensures F.Inside(a.clients[t]) ==> a.IsHead(t) && a.clients[t].ticket == a.served
  {
    assert ThreadOk(cfg, s, a, t) && F.TicketOk(a, t);
  }

  /** Threads other than the one that moves, and other than the owner of a node it writes, keep their condition. */
  lemma ThreadsFrame(cfg: F.Config, s: State, a: F.State, s': State, a': F.State, t: Tid, x: Tid)
    requires ThreadsOk(cfg, s, a) && ThreadOk(cfg, s', a', t) && ThreadOk(cfg, s', a', x)
    requires x < |s.nodes| == |s.threads| == |a.clients| && t < |s.threads|
    requires s'.threads == s.threads[t := s'.threads[t]] && a'.clients == a.clients[t := a'.clients[t]]
    requires s'.nodes == s.nodes[x := s'.nodes[x]]
    requires s'.tail == s.tail || s'.tail == None || s'.tail == Some(t)
    ensures ThreadsOk(cfg, s', a')
  {
    forall u | 0 <= u < |s'.threads|
      ensures ThreadOk(cfg, s', a', u)
    {
      assert ThreadOk(cfg, s, a, u);
    }
  }

  /** Who holds a queue place, seen from one thread: an idle thread holds none, the head only the first. */
  lemma PlaceOf(a: F.State, t: Tid, k: nat)
    requires F.QueueOk(a) && t < |a.clients| && a.served <= k < |a.arrivals|
    ensures a.clients[t].phase == F.Idle ==> a.arrivals[k] != t
    ensures a.clients[t].phase != F.Idle && a.arrivals[k] == t ==> k == a.clients[t].ticket
    ensures a.arrivals[k] < |a.clients| && a.clients[a.arrivals[k]].phase != F.Idle
  {
    assert F.PlaceOk(a, k);
  }

  lemma FrameAt(s: State, a: F.State, s': State, a': F.State, t: Tid, k: nat)
    requires t < |s.threads| == |s.nodes| && t < |s'.threads| && a.served <= k < |a.arrivals|
    requires WaitOk(s, a, k) && LinkOk(s, a, k)
    requires s'.threads == s.threads[t := s'.threads[t]] && a'.arrivals == a.arrivals && a'.served == a.served
    requires PhaseOf(s'.threads[t].pc) != F.Waiting
    requires a.arrivals[k] == t ==> k == a.served
    requires k + 1 < |a.arrivals| ==> a.arrivals[k + 1] != t
    requires s'.nodes == s.nodes || (a.arrivals[k] != t && t < |s'.nodes| && s'.nodes == s.nodes[t := s'.nodes[t]])
    ensures WaitOk(s', a', k) && LinkOk(s', a', k)
  {
  }

  /** The queue's pointers stay right when only an idle thread or the thread inside changes. */
  lemma QueueFrame(s: State, a: F.State, s': State, a': F.State, t: Tid)
    requires F.QueueOk(a) && WaitsOk(s, a) && LinksOk(s, a)
    requires t < |s.threads| == |s.nodes| == |a.clients| && t < |s'.threads|
    requires s'.threads == s.threads[t := s'.threads[t]] && a'.arrivals == a.arrivals && a'.served == a.served
    requires PhaseOf(s'.threads[t].pc) != F.Waiting
    requires a.clients[t].phase == F.Idle || a.clients[t].ticket == a.served
    requires s'.nodes == s.nodes
          || (a.clients[t].phase == F.Idle && t < |s'.nodes| && s'.nodes == s.nodes[t := s'.nodes[t]])
    ensures WaitsOk(s', a') && LinksOk(s', a')
  {
    forall k | a'.served <= k < |a'.arrivals|
      ensures WaitOk(s', a', k) && LinkOk(s', a', k)
    {
      PlaceOf(a, t, k);
      if k + 1 < |a.arrivals| { PlaceOf(a, t, k + 1); }
      FrameAt(s, a, s', a', t, k);
    }
  }

  lemma LocalStep(cfg: F.Config, s: State, a: F.State, s': State, a': F.State, t: Tid)
    requires Represents(cfg, s, a) && t < |s.threads| && t < |s'.threads| && t < |a'.clients|
    requires ThreadOk(cfg, s', a', t) && F.QueueOk(a') && s'.shared == a'.shared
    requires s'.threads == s.threads[t := s'.threads[t]] && a'.clients == a.clients[t := a'.clients[t]]
    requires s'.tail == s.tail && a'.arrivals == a.arrivals && a'.served == a.served
    requires PhaseOf(s'.threads[t].pc) != F.Waiting
    requires a.clients[t].phase == F.Idle || a.clients[t].ticket == a.served
    requires s'.nodes == s.nodes
          || (a.clients[t].phase == F.Idle && t < |s'.nodes| && s'.nodes == s.nodes[t := s'.nodes[t]])
    ensures Represents(cfg, s', a')
  {
    ThreadsFrame(cfg, s, a, s', a', t, t);
    QueueFrame(s, a, s', a', t);
  }

  /** Steps before the swap touch only the thread's own node, which no queue position uses. */
  lemma PrepareStep(cfg: F.Config, s: State, a: F.State, t: Tid)
    requires Represents(cfg, s, a) && t < |s.threads| && PhaseOf(s.threads[t].pc) == F.Idle && !Joins(s, t)
    ensures Represents(cfg, Step(cfg, s, t), a)
  {
    AtThread(cfg, s, a, t);
    LocalStep(cfg, s, a, Step(cfg, s, t), a, t);
  }

  lemma JoinAt(s: State, a: F.State, s': State, a': F.State, t: Tid, k: nat)
    requires t < |s.threads| == |s.nodes| && a.served <= k < |a.arrivals| && WaitOk(s, a, k) && LinkOk(s, a, k)
    requires s'.threads == s.threads[t := s.threads[t].(pc := CheckPred)] && s'.nodes == s.nodes
    requires a'.arrivals == a.arrivals + [t] && a'.served == a.served
    requires a.arrivals[k] != t && (k + 1 < |a.arrivals| ==> a.arrivals[k + 1] != t)
    ensures WaitOk(s', a', k) && LinkOk(s', a', k)
  {
  }

  lemma JoinLast(cfg: F.Config, s: State, a: F.State, a': F.State, t: Tid)
    requires t < |s.threads| == |s.nodes| && a.served <= |a.arrivals|
    requires TailOk(s, a) && ThreadOk(cfg, s, a, t) && Joins(s, t)
    requires a'.arrivals == a.arrivals + [t] && a'.served == a.served
    ensures WaitOk(Step(cfg, s, t), a', |a.arrivals|) && LinkOk(Step(cfg, s, t), a', |a.arrivals|)
  {
  }

  lemma JoinPlace(cfg: F.Config, s: State, a: F.State, a': F.State, t: Tid, k: nat)
    requires F.QueueOk(a) && t < |s.threads| == |s.nodes| == |a.clients| && Joins(s, t) && a.clients[t].phase == F.Idle
    requires a.served <= k < |a.arrivals| && WaitOk(s, a, k) && LinkOk(s, a, k)
    requires a'.arrivals == a.arrivals + [t] && a'.served == a.served
    ensures WaitOk(Step(cfg, s, t), a', k) && LinkOk(Step(cfg, s, t), a', k)
  {
    PlaceOf(a, t, k);
    if k + 1 < |a.arrivals| { PlaceOf(a, t, k + 1); }
    JoinAt(s, a, Step(cfg, s, t), a', t, k);
  }

  lemma JoinQueue(cfg: F.Config, s: State, a: F.State, a': F.State, t: Tid)
    requires Represents(cfg, s, a) && t < |s.threads| && Joins(s, t)
    requires a' == F.Enqueue(a, t)
    ensures WaitsOk(Step(cfg, s, t), a') && LinksOk(Step(cfg, s, t), a')
  {
    AtThread(cfg, s, a, t);
    JoinLast(cfg, s, a, a', t);
    forall k | a'.served <= k < |a'.arrivals|
      ensures WaitOk(Step(cfg, s, t), a', k) && LinkOk(Step(cfg, s, t), a', k)
    {
      if k < |a.arrivals| { JoinPlace(cfg, s, a, a', t, k); }
    }
  }

  lemma JoinStep(cfg: F.Config, s: State, a: F.State, a': F.State, t: Tid)
    requires Represents(cfg, s, a) && t < |s.threads| && Joins(s, t)
    requires a' == F.Enqueue(a, t) && F.QueueOk(a')
    ensures Represents(cfg, Step(cfg, s, t), a')
  {
    AtThread(cfg, s, a, t);
    ThreadsFrame(cfg, s, a, Step(cfg, s, t), a', t, t);
    JoinQueue(cfg, s, a, a', t);
  }

  /** Whoever gets in is the head of the queue. */
  lemma GetsInIsHead(cfg: F.Config, s: State, a: F.State, t: Tid)
    requires Represents(cfg, s, a) && GetsIn(s, t)
    ensures a.IsHead(t)
  {
    AtThread(cfg, s, a, t);
  }

  lemma EnterStep(cfg: F.Config, s: State, a: F.State, a': F.State, t: Tid)
    requires Represents(cfg, s, a) && GetsIn(s, t)
    requires a' == F.Enter(a, t) && F.QueueOk(a')
    ensures Represents(cfg, Step(cfg, s, t), a')
  {
    AtThread(cfg, s, a, t);
    LocalStep(cfg, s, a, Step(cfg, s, t), a', t);
  }

  lemma CheckPredQueue(cfg: F.Config, s: State, a: F.State, t: Tid)
    requires Represents(cfg, s, a) && t < |s.threads| && s.threads[t].pc == CheckPred && s.threads[t].pred != None
    ensures WaitsOk(Step(cfg, s, t), a) && LinksOk(Step(cfg, s, t), a)
  {
    AtThread(cfg, s, a, t);
    var s' := Step(cfg, s, t);
    forall k | a.served <= k < |a.arrivals|
      ensures WaitOk(s', a, k) && LinkOk(s', a, k)
    {
      AtPlace(cfg, s, a, k);
      if k + 1 < |a.arrivals| { AtPlace(cfg, s, a, k + 1); }
    }
  }

  /** Finding a predecessor: only the program counter of a waiter that is not the head moves. */
  lemma CheckPredStep(cfg: F.Config, s: State, a: F.State, t: Tid)
    requires Represents(cfg, s, a) && t < |s.threads| && s.threads[t].pc == CheckPred && s.threads[t].pred != None
    ensures Represents(cfg, Step(cfg, s, t), a)
  {
    AtThread(cfg, s, a, t);
    ThreadsFrame(cfg, s, a, Step(cfg, s, t), a, t, t);
    CheckPredQueue(cfg, s, a, t);
  }

  /** Linking: the node written is the one just before in the queue, and nobody has linked to it yet. */
  lemma LinkPredTarget(cfg: F.Config, s: State, a: F.State, t: Tid)
    requires Represents(cfg, s, a) && t < |s.threads| && s.threads[t].pc == LinkPred
    ensures var k := a.clients[t].ticket; a.served < k < |a.arrivals| && a.arrivals[k] == t
    ensures var p := a.arrivals[a.clients[t].ticket - 1];
            p < |s.threads| && p != t && s.threads[t].pred == Some(p) && s.nodes[p].next == None
    ensures s.nodes[t].lock == 1
  {
    AtThread(cfg, s, a, t);
    var k := a.clients[t].ticket - 1;
    assert LinkOk(s, a, k);
    PlaceOf(a, t, k);
  }

  lemma LinkPredQueue(cfg: F.Config, s: State, a: F.State, t: Tid, p: Tid)
    requires Represents(cfg, s, a) && t < |s.threads| && s.threads[t].pc == LinkPred && s.threads[t].pred == Some(p)
    ensures WaitsOk(Step(cfg, s, t), a) && LinksOk(Step(cfg, s, t), a)
  {
    LinkPredTarget(cfg, s, a, t);
    var s', j := Step(cfg, s, t), a.clients[t].ticket;
    AtPlace(cfg, s, a, j - 1);
    forall k | a.served <= k < |a.arrivals|
      ensures WaitOk(s', a, k) && LinkOk(s', a, k)
    {
      AtPlace(cfg, s, a, k);
      if k + 1 < |a.arrivals| { AtPlace(cfg, s, a, k + 1); }
    }
  }

  lemma LinkPredStep(cfg: F.Config, s: State, a: F.State, t: Tid)
    requires Represents(cfg, s, a) && t < |s.threads| && s.threads[t].pc == LinkPred
    ensures Represents(cfg, Step(cfg, s, t), a)
  {
    LinkPredTarget(cfg, s, a, t);
    var p := s.threads[t].pred.value;
    AtThread(cfg, s, a, t);
    AtPlace(cfg, s, a, a.clients[t].ticket - 1);
    ThreadsFrame(cfg, s, a, Step(cfg, s, t), a, t, p);
    LinkPredQueue(cfg, s, a, t, p);
  }

  /** Reading and writing the shared counter. */
  lemma LoadStep(cfg: F.Config, s: State, a: F.State, a': F.State, t: Tid)
    requires Represents(cfg, s, a) && t < |s.threads|
    requires s.threads[t].pc == Ready && s.threads[t].work.iters < cfg.times
    requires a' == F.Step(cfg, a, t) && F.QueueOk(a')
    ensures Represents(cfg, Step(cfg, s, t), a')
  {
    AtThread(cfg, s, a, t);
    LocalStep(cfg, s, a, Step(cfg, s, t), a', t);
  }

  lemma StoreStep(cfg: F.Config, s: State, a: F.State, a': F.State, t: Tid)
    requires Represents(cfg, s, a) && t < |s.threads| && s.threads[t].pc == Loaded
    requires a' == F.Step(cfg, a, t) && F.QueueOk(a')
    ensures Represents(cfg, Step(cfg, s, t), a')
  {
    AtThread(cfg, s, a, t);
    LocalStep(cfg, s, a, Step(cfg, s, t), a', t);
  }

  /** Looking for a successor on the way out changes only the thread's own position. */
  lemma ProbeStep(cfg: F.Config, s: State, a: F.State, t: Tid)
    requires Represents(cfg, s, a) && t < |s.threads| && !Leaves(s, t)
    requires Unlocking(s.threads[t].pc) || (s.threads[t].pc == Ready && s.threads[t].work.iters == cfg.times)
    ensures Represents(cfg, Step(cfg, s, t), a)
  {
    AtThread(cfg, s, a, t);
    LocalStep(cfg, s, a, Step(cfg, s, t), a, t);
  }

  /** Leaving an otherwise empty queue. */
  lemma ClearTailStep(cfg: F.Config, s: State, a: F.State, a': F.State, t: Tid)
    requires Represents(cfg, s, a) && t < |s.threads| && s.threads[t].pc == ClearTail && Leaves(s, t)
    requires a' == F.Leave(a, t) && F.QueueOk(a')
    ensures Represents(cfg, Step(cfg, s, t), a')
  {
    AtThread(cfg, s, a, t);
    PlaceOf(a, t, |a.arrivals| - 1);
    assert a.served == |a.arrivals| - 1;
    ThreadsFrame(cfg, s, a, Step(cfg, s, t), a', t, t);
  }

  /** The hand-off writes to the second node of the queue, whose owner is spinning on it. */
  lemma HandOffTarget(cfg: F.Config, s: State, a: F.State, t: Tid)
    requires Represents(cfg, s, a) && t < |s.threads|
    requires s.threads[t].pc == LoadNext || s.threads[t].pc == Release
    ensures a.IsHead(t) && a.served + 1 < |a.arrivals|
    ensures s.nodes[t].next == Some(a.arrivals[a.served + 1])
    ensures s.threads[t].pc == Release ==> s.threads[t].next == s.nodes[t].next
    ensures Spinning(s, a.arrivals[a.served + 1]) && a.arrivals[a.served + 1] != t
    ensures a.arrivals[a.served + 1] < |s.nodes| && s.nodes[a.arrivals[a.served + 1]].lock == 1
  {
    AtThread(cfg, s, a, t);
    assert LinkOk(s, a, a.served);
    assert WaitOk(s, a, a.served + 1);
    PlaceOf(a, t, a.served + 1);
  }

  lemma ReleaseAt(s: State, a: F.State, s': State, a': F.State, t: Tid, k: nat)
    requires t < |s.threads| == |s.nodes| && a.served < k < |a.arrivals| && WaitOk(s, a, k) && LinkOk(s, a, k)
    requires t < |s'.threads| && s'.threads == s.threads[t := s'.threads[t]] && s'.threads[t].pc == Start
    requires a.arrivals[a.served + 1] < |s.nodes| && Spinning(s, a.arrivals[a.served + 1])
    requires var n := a.arrivals[a.served + 1]; s'.nodes == s.nodes[n := s.nodes[n].(lock := 0)]
    requires a'.arrivals == a.arrivals && a'.served == a.served + 1
    requires a.arrivals[k] != t && (k + 1 < |a.arrivals| ==> a.arrivals[k + 1] != t)
    requires k != a.served + 1 ==> a.arrivals[k] != a.arrivals[a.served + 1]
    ensures WaitOk(s', a', k) && LinkOk(s', a', k)
  {
  }

  lemma ReleaseQueue(cfg: F.Config, s: State, a: F.State, a': F.State, t: Tid)
    requires Represents(cfg, s, a) && t < |s.threads| && s.threads[t].pc == Release
    requires a' == F.Leave(a, t)
    ensures WaitsOk(Step(cfg, s, t), a') && LinksOk(Step(cfg, s, t), a')
  {
    var s' := Step(cfg, s, t);
    HandOffTarget(cfg, s, a, t);
    AtThread(cfg, s, a, t);
    PlaceOf(a, a.arrivals[a.served + 1], a.served + 1);
    forall k | a'.served <= k < |a'.arrivals|
      ensures WaitOk(s', a', k) && LinkOk(s', a', k)
    {
      PlaceOf(a, t, k);
      PlaceOf(a, a.arrivals[a.served + 1], k);
      if k + 1 < |a.arrivals| { PlaceOf(a, t, k + 1); }
      ReleaseAt(s, a, s', a', t, k);
    }
  }

  lemma ReleaseThreads(cfg: F.Config, s: State, a: F.State, a': F.State, t: Tid, n: Tid)
    requires ThreadsOk(cfg, s, a) && t < |s.threads| == |s.nodes| == |a.clients|
    requires s.threads[t].pc == Release && s.threads[t].next == Some(n) && n != t && Spinning(s, n)
    requires a' == F.Leave(a, t)
    ensures ThreadsOk(cfg, Step(cfg, s, t), a')
  {
    assert ThreadOk(cfg, s, a, t) && ThreadOk(cfg, s, a, n);
    ThreadsFrame(cfg, s, a, Step(cfg, s, t), a', t, n);
  }

  lemma ReleaseStep(cfg: F.Config, s: State, a: F.State, a': F.State, t: Tid)
    requires Represents(cfg, s, a) && t < |s.threads| && s.threads[t].pc == Release
    requires a' == F.Leave(a, t) && F.QueueOk(a')
    ensures Represents(cfg, Step(cfg, s, t), a')
  {
    HandOffTarget(cfg, s, a, t);
    ReleaseThreads(cfg, s, a, a', t, a.arrivals[a.served + 1]);
    ReleaseQueue(cfg, s, a, a', t);
  }

  /** What the abstract lock does at each step that it takes part in. */
  lemma AbstractStepIs(cfg: F.Config, s: State, a: F.State, t: Tid)
    requires Represents(cfg, s, a) && t < |s.threads|
    ensures Joins(s, t) ==> AbstractStep(cfg, s, a, t) == F.Enqueue(a, t)
    ensures GetsIn(s, t) ==> AbstractStep(cfg, s, a, t) == F.Enter(a, t)
    ensures Leaves(s, t) ==> AbstractStep(cfg, s, a, t) == F.Leave(a, t)
  {
    AtThread(cfg, s, a, t);
    if GetsIn(s, t) { GetsInIsHead(cfg, s, a, t); }
  }

  lemma StepRepresents(cfg: F.Config, s: State, a: F.State, a': F.State, t: Tid)
    requires Represents(cfg, s, a) && a' == AbstractStep(cfg, s, a, t) && F.QueueOk(a')
    requires t < |s.threads| && s.threads[t].work.iters <= cfg.times
    ensures Represents(cfg, Step(cfg, s, t), a')
  {
    AbstractStepIs(cfg, s, a, t);
    match s.threads[t].pc
    case Start | SetLock | ClearNext | LoadTail => PrepareStep(cfg, s, a, t);
    case SwapTail => if Joins(s, t) { JoinStep(cfg, s, a, a', t); } else { PrepareStep(cfg, s, a, t); }
    case CheckPred => if GetsIn(s, t) { EnterStep(cfg, s, a, a', t); } else { CheckPredStep(cfg, s, a, t); }
    case LinkPred => LinkPredStep(cfg, s, a, t);
    case SpinLock => if GetsIn(s, t) { EnterStep(cfg, s, a, a', t); }
    case Ready =>
      if s.threads[t].work.iters < cfg.times { LoadStep(cfg, s, a, a', t); } else { ProbeStep(cfg, s, a, t); }
    case Loaded => StoreStep(cfg, s, a, a', t);
    case ClearTail => if Leaves(s, t) { ClearTailStep(cfg, s, a, a', t); } else { ProbeStep(cfg, s, a, t); }
    case Release => ReleaseStep(cfg, s, a, a', t);
    case CheckNext | AwaitNext | LoadNext => ProbeStep(cfg, s, a, t);
  }

  lemma StepSimulates(cfg: F.Config, s: State, a: F.State, t: Tid)
    requires Represents(cfg, s, a) && F.Inv(cfg, a)
    ensures Represents(cfg, Step(cfg, s, t), AbstractStep(cfg, s, a, t))
    ensures F.Inv(cfg, AbstractStep(cfg, s, a, t))
  {
    F.StepInv(cfg, a, t);
    if t < |s.threads| {
      assert ThreadOk(cfg, s, a, t) && F.WorkOk(cfg, a.clients[t], a.shared);
      StepRepresents(cfg, s, a, AbstractStep(cfg, s, a, t), t);
    }
  }
}
