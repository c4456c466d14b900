/**
 * The abstract first-in first-out lock, which the queue locks without timeouts refine: threads join a queue and only
 * its head may enter. Its clients lock for a number of rounds and increment a shared counter in each, with a read and
 * a write of their own. What is proved here once for every run, mutual exclusion, grants in the order of arrivals and
 * the final count, each of the three locks inherits by its simulation.
 */
module FifoLock {
  import opened Sequences
  import Runs

  type Tid = nat

  /**
   * Each thread runs `rounds` times: lock, then `times` increments of the shared counter
   * (a read step and a separate write step), then unlock.
   */
  datatype Config = Config(threads: nat, rounds: nat, times: nat)

  /** The client's part of a thread: finished rounds, increments in this round, its register. */
  datatype Work = Work(rounds: nat, iters: nat, reg: int)

  datatype Phase = Idle | Waiting | Ready | Loaded

  /** `ticket` is the thread's place in the order of arrivals; it matters only while the thread is not idle. */
  datatype Client = Client(phase: Phase, ticket: nat, work: Work)

  /**
   * `arrivals` lists everyone who ever joined, `served` counts those who have left again,
   * so the queue is what remains; `grants` lists those who were let in, in order.
   */
  datatype State = State(arrivals: seq<Tid>, served: nat, grants: seq<Tid>, clients: seq<Client>, shared: int)
  {
    function Queue(): seq<Tid>
      requires served <= |arrivals|
    {
      arrivals[served..]
    }

    predicate IsHead(t: Tid) {
      served < |arrivals| && arrivals[served] == t
    }
  }

  const NOTHING_DONE := Work(0, 0, 0)

  function Init(cfg: Config): State {
    State([], 0, [], seq(cfg.threads, _ => Client(Idle, 0, NOTHING_DONE)), 0)
  }

  function Load(w: Work, shared: int): Work {
    w.(reg := shared)
  }

  function Store(w: Work): Work {
    w.(iters := w.iters + 1)
  }

  function EndRound(w: Work): Work {
    w.(rounds := w.rounds + 1, iters := 0)
  }

  function Put(s: State, t: Tid, c: Client): State
    requires t < |s.clients|
  {
    s.(clients := s.clients[t := c])
  }

  function Enqueue(s: State, t: Tid): State
    requires t < |s.clients|
  {
    Put(s, t, s.clients[t].(phase := Waiting, ticket := |s.arrivals|)).(arrivals := s.arrivals + [t])
  }

  function Enter(s: State, t: Tid): State
    requires t < |s.clients|
  {
    Put(s, t, s.clients[t].(phase := Ready)).(grants := s.grants + [t])
  }

  function Leave(s: State, t: Tid): State
    requires t < |s.clients|
  {
    var c := s.clients[t];
    Put(s, t, c.(phase := Idle, work := EndRound(c.work))).(served := s.served + 1)
  }

  /** One step of thread `t`; a thread that cannot move leaves the state as it is. */
  function Step(cfg: Config, s: State, t: Tid): State {
    if t >= |s.clients| then s else
      var c := s.clients[t];
      match c.phase
      case Idle => if c.work.rounds < cfg.rounds then Enqueue(s, t) else s
      case Waiting => if s.IsHead(t) then Enter(s, t) else s
      case Ready =>
        if c.work.iters < cfg.times
        then Put(s, t, c.(phase := Loaded, work := Load(c.work, s.shared)))
        else Leave(s, t)
      case Loaded =>
        Put(s, t, c.(phase := Ready, work := Store(c.work))).(shared := c.work.reg + 1)
  }

  function Stepper(cfg: Config): (State, Tid) -> State {
    (s: State, t: Tid) => Step(cfg, s, t)
  }

  function Run(cfg: Config, s: State, schedule: seq<Tid>): State {
    Runs.Run(Stepper(cfg), s, schedule)
  }

  // ---------------------------------------------------------------- invariant

  function Completed(w: Work, times: nat): int {
    w.rounds * times + w.iters
  }

  function CompletedBy(times: nat): Client -> int {
    (c: Client) => Completed(c.work, times)
  }

  predicate Inside(c: Client) {
    c.phase == Ready || c.phase == Loaded
  }

  predicate Critical(s: State, t: Tid) {
    t < |s.clients| && Inside(s.clients[t])
  }

  predicate WorkOk(cfg: Config, c: Client, shared: int) {
    && c.work.iters <= cfg.times
    && c.work.rounds <= cfg.rounds
    && (!Inside(c) ==> c.work.iters == 0)
    && (c.phase != Idle ==> c.work.rounds < cfg.rounds)
    && (c.phase == Loaded ==> c.work.iters < cfg.times && c.work.reg == shared)
  }

  /** Place `k` of the queue is held by the thread that arrived with that ticket. */
  predicate PlaceOk(s: State, k: nat) {
    && k < |s.arrivals| && s.arrivals[k] < |s.clients|
    && s.clients[s.arrivals[k]].phase != Idle
    && s.clients[s.arrivals[k]].ticket == k
  }

  /** A thread that is not idle has an outstanding ticket, and only the ticket being served may be inside. */
  predicate TicketOk(s: State, t: Tid) {
    t < |s.clients| &&
    var c := s.clients[t];
    && (c.phase != Idle ==> s.served <= c.ticket < |s.arrivals| && s.arrivals[c.ticket] == t)
    && (Inside(c) ==> c.ticket == s.served)
  }

  predicate QueueOk(s: State) {
    && s.served <= |s.arrivals|
    && (forall k :: s.served <= k < |s.arrivals| ==> PlaceOk(s, k))
    && (forall t :: 0 <= t < |s.clients| ==> TicketOk(s, t))
  }

  predicate HeadInside(s: State) {
    s.served < |s.arrivals| && Critical(s, s.arrivals[s.served])
  }

  predicate HistoryOk(s: State) {
    && |s.grants| == s.served + (if HeadInside(s) then 1 else 0)
    && s.grants <= s.arrivals
  }

  predicate WorksOk(cfg: Config, s: State) {
    forall t :: 0 <= t < |s.clients| ==> WorkOk(cfg, s.clients[t], s.shared)
  }

  predicate CountOk(cfg: Config, s: State) {
    s.shared == Sum(s.clients, CompletedBy(cfg.times))
  }

  predicate Inv(cfg: Config, s: State) {
    && |s.clients| == cfg.threads
    && QueueOk(s)
    && HistoryOk(s)
    && WorksOk(cfg, s)
    && CountOk(cfg, s)
  }

  lemma InitInv(cfg: Config)
    ensures Inv(cfg, Init(cfg))
  {
    var clients := Init(cfg).clients;
    assert forall t :: 0 <= t < |clients| ==> CompletedBy(cfg.times)(clients[t]) == 0;
    SumConstant(clients, CompletedBy(cfg.times), 0);
  }

  lemma EnqueueQueue(s: State, t: Tid)
    requires QueueOk(s) && HistoryOk(s) && t < |s.clients| && s.clients[t].phase == Idle
    ensures QueueOk(Enqueue(s, t)) && HistoryOk(Enqueue(s, t))
  {
    var s' := Enqueue(s, t);
    forall k | s'.served <= k < |s'.arrivals| ensures PlaceOk(s', k) {
      if k < |s.arrivals| { assert PlaceOk(s, k); }
    }
    forall u | 0 <= u < |s'.clients| ensures TicketOk(s', u) {
      assert TicketOk(s, u);
    }
    if s.served < |s.arrivals| { assert PlaceOk(s, s.served); }
  }

  lemma EnterQueue(s: State, t: Tid)
    requires QueueOk(s) && HistoryOk(s) && t < |s.clients| && s.clients[t].phase == Waiting && s.IsHead(t)
    ensures QueueOk(Enter(s, t)) && HistoryOk(Enter(s, t))
  {
    var s' := Enter(s, t);
    assert PlaceOk(s, s.served);
    forall k | s'.served <= k < |s'.arrivals| ensures PlaceOk(s', k) {
      assert PlaceOk(s, k);
    }
    forall u | 0 <= u < |s'.clients| ensures TicketOk(s', u) {
      assert TicketOk(s, u);
    }
  }

  lemma LeaveQueue(s: State, t: Tid)
    requires QueueOk(s) && HistoryOk(s) && Critical(s, t)
    ensures QueueOk(Leave(s, t)) && HistoryOk(Leave(s, t))
  {
    var s' := Leave(s, t);
    assert TicketOk(s, t);
    forall k | s'.served <= k < |s'.arrivals| ensures PlaceOk(s', k) {
      assert PlaceOk(s, k);
    }
    forall u | 0 <= u < |s'.clients| ensures TicketOk(s', u) {
      assert TicketOk(s, u);
    }
    if s'.served < |s'.arrivals| { assert PlaceOk(s, s'.served) && TicketOk(s, s.arrivals[s'.served]); }
  }

  /** Reading or writing the counter inside leaves the queue alone. */
  lemma WorkQueue(s: State, t: Tid, c: Client, shared: int)
    requires QueueOk(s) && HistoryOk(s) && Critical(s, t)
    requires Inside(c) && c.ticket == s.clients[t].ticket
    ensures var s' := Put(s, t, c).(shared := shared); QueueOk(s') && HistoryOk(s')
  {
    var s' := Put(s, t, c).(shared := shared);
    assert TicketOk(s, t);
    forall k | s'.served <= k < |s'.arrivals| ensures PlaceOk(s', k) {
      assert PlaceOk(s, k);
    }
    forall u | 0 <= u < |s'.clients| ensures TicketOk(s', u) {
      assert TicketOk(s, u);
    }
  }

  lemma StepQueue(cfg: Config, s: State, t: Tid)
    requires QueueOk(s) && HistoryOk(s)
    ensures QueueOk(Step(cfg, s, t)) && HistoryOk(Step(cfg, s, t))
  {
    if t < |s.clients| {
      var c := s.clients[t];
      match c.phase
      case Idle => EnqueueQueue(s, t);
      case Waiting => if s.IsHead(t) { EnterQueue(s, t); }
      case Ready =>
        if c.work.iters < cfg.times {
          WorkQueue(s, t, c.(phase := Loaded, work := Load(c.work, s.shared)), s.shared);
        } else {
          LeaveQueue(s, t);
        }
      case Loaded => WorkQueue(s, t, c.(phase := Ready, work := Store(c.work)), c.work.reg + 1);
    }
  }

  /** Two threads inside are the same thread: both hold the ticket being served. */
  lemma InsideIsHead(s: State, t: Tid)
    requires QueueOk(s) && Critical(s, t)
    ensures s.IsHead(t) && s.clients[t].ticket == s.served
  {
    assert TicketOk(s, t);
  }

  /** What a thread inside has read stays current, because no other thread is inside. */
  lemma StepWorks(cfg: Config, s: State, t: Tid)
    requires QueueOk(s) && WorksOk(cfg, s)
    ensures WorksOk(cfg, Step(cfg, s, t))
  {
    var s' := Step(cfg, s, t);
    forall u | 0 <= u < |s'.clients| ensures WorkOk(cfg, s'.clients[u], s'.shared) {
      assert WorkOk(cfg, s.clients[u], s.shared);
      if Critical(s, u) { InsideIsHead(s, u); }
      if Critical(s, t) { InsideIsHead(s, t); }
    }
  }

  lemma EndRoundCompletes(w: Work, times: nat)
    ensures Completed(EndRound(w), times) == Completed(w, times) - w.iters + times
  {
  }

  lemma StepCount(cfg: Config, s: State, t: Tid)
    requires WorksOk(cfg, s) && CountOk(cfg, s)
    ensures CountOk(cfg, Step(cfg, s, t))
  {
    var s' := Step(cfg, s, t);
    if s' != s {
      SumUpdate(s.clients, CompletedBy(cfg.times), t, s'.clients[t]);
      EndRoundCompletes(s.clients[t].work, cfg.times);
    }
  }

  lemma StepInv(cfg: Config, s: State, t: Tid)
    requires Inv(cfg, s)
    ensures Inv(cfg, Step(cfg, s, t))
  {
    StepQueue(cfg, s, t);
    StepWorks(cfg, s, t);
    StepCount(cfg, s, t);
  }

  lemma {:induction false} RunInv(cfg: Config, s: State, schedule: seq<Tid>)
    requires Inv(cfg, s)
    ensures Inv(cfg, Run(cfg, s, schedule))
    decreases |schedule|
  {
    if schedule != [] {
      StepInv(cfg, s, schedule[0]);
      RunInv(cfg, Step(cfg, s, schedule[0]), schedule[1..]);
    }
  }

  lemma HeadIsBusy(s: State)
    requires QueueOk(s)
    ensures s.served < |s.arrivals| ==>
      s.arrivals[s.served] < |s.clients| && s.clients[s.arrivals[s.served]].phase != Idle
  {
    if s.served < |s.arrivals| {
      assert PlaceOk(s, s.served);
    }
  }

  // ---------------------------------------------------------------- what every run keeps

  predicate AllDone(cfg: Config, s: State) {
    forall t :: 0 <= t < |s.clients| ==> s.clients[t].phase == Idle && s.clients[t].work.rounds == cfg.rounds
  }

  lemma MutualExclusion(cfg: Config, schedule: seq<Tid>, t: Tid, u: Tid)
    requires Critical(Run(cfg, Init(cfg), schedule), t)
    requires Critical(Run(cfg, Init(cfg), schedule), u)
    ensures t == u
  {
    InitInv(cfg);
    RunInv(cfg, Init(cfg), schedule);
    InsideIsHead(Run(cfg, Init(cfg), schedule), t);
    InsideIsHead(Run(cfg, Init(cfg), schedule), u);
  }

  lemma GrantedInArrivalOrder(cfg: Config, schedule: seq<Tid>)
    ensures var s := Run(cfg, Init(cfg), schedule); s.grants <= s.arrivals
  {
    InitInv(cfg);
    RunInv(cfg, Init(cfg), schedule);
  }

  lemma DoneTotal(cfg: Config, s: State)
    requires Inv(cfg, s) && AllDone(cfg, s)
    ensures s.shared == cfg.threads * cfg.rounds * cfg.times
  {
    SumConstant(s.clients, CompletedBy(cfg.times), cfg.rounds * cfg.times);
    assert cfg.threads * (cfg.rounds * cfg.times) == cfg.threads * cfg.rounds * cfg.times;
  }

  lemma NoLostIncrements(cfg: Config, schedule: seq<Tid>)
    requires AllDone(cfg, Run(cfg, Init(cfg), schedule))
    ensures Run(cfg, Init(cfg), schedule).shared == cfg.threads * cfg.rounds * cfg.times
  {
    InitInv(cfg);
    RunInv(cfg, Init(cfg), schedule);
    DoneTotal(cfg, Run(cfg, Init(cfg), schedule));
  }

  /** A log that grows by at most one entry, followed by the rest of the run's entries. */
  lemma LogGrows(log: seq<Tid>, logged: bool, t: Tid, log': seq<Tid>, rest: seq<Tid>)
    requires log' == log + (if logged then [t] else [])
    ensures log' + rest == log + ((if logged then [t] else []) + rest)
  {
  }

  /** A schedule that starts with one step or with none. */
  lemma RunAfter(cfg: Config, s: State, moves: bool, t: Tid, rest: seq<Tid>)
    ensures Run(cfg, s, (if moves then [t] else []) + rest) == Run(cfg, if moves then Step(cfg, s, t) else s, rest)
  {
    if moves {
      assert ([t] + rest)[1..] == rest;
    } else {
      assert [] + rest == rest;
    }
  }

  // ---------------------------------------------------------------- counting the steps of a run

  /** The cost of so many whole rounds, as a sum so that no proof has to multiply. */
  function Budget(rounds: int, roundCost: nat): nat
    decreases rounds
  {
    if rounds <= 0 then 0 else roundCost + Budget(rounds - 1, roundCost)
  }

  lemma {:induction false} BudgetIsProduct(rounds: nat, roundCost: nat)
    ensures Budget(rounds, roundCost) == rounds * roundCost
  {
    if rounds > 0 {
      BudgetIsProduct(rounds - 1, roundCost);
    }
  }
}
