/** The Anderson array lock: a ticket counter and a circular array of flags, one slot per thread. */
module AndersonLock {
  import opened Numbers
  import opened Sequences
  import opened Slots
  import F = FifoLock
  import Runs

  type Tid = F.Tid

  datatype System = System(client: F.Config, capacity: Positive)

  /** One slot for every thread. */
  predicate Enough(sys: System) {
    sys.client.threads <= sys.capacity
  }

  datatype Pc =
    | Start   // outside the lock, before fetch-and-add
    | Spin    // reading the flag of its slot until it is no longer 1
    | Ready   // inside, at the head of the increment loop
    | Loaded  // inside, the shared value is in the register
    | Close   // about to store 1 in its own flag
    | Open    // about to store 0 in the next flag

  /** `index` is the ticket held in a local variable of the lock function, `slot` the thread-local slot. */
  datatype Thread = Thread(pc: Pc, index: nat, slot: nat, work: F.Work)

  /** A flag is 0 when its slot is open and 1 when it is closed. */
  datatype State = State(tail: nat, flags: seq<int>, threads: seq<Thread>, shared: int)

  function Init(sys: System): State {
    State(0, seq(sys.capacity, i => if i == 0 then 0 else 1),
          seq(sys.client.threads, _ => Thread(Start, 0, 0, F.NOTHING_DONE)), 0)
  }

  function Put(s: State, t: Tid, th: Thread): State
    requires t < |s.threads|
  {
    s.(threads := s.threads[t := th])
  }

  function SetFlag(flags: seq<int>, slot: nat, flag: int): seq<int> {
    if slot < |flags| then flags[slot := flag] else flags
  }

  predicate Closed(s: State, slot: nat) {
    slot < |s.flags| && s.flags[slot] == 1
  }

  /** One step of thread `t`; a spinning or finished thread leaves the state as it is. */
  function Step(sys: System, s: State, t: Tid): State {
    if t >= |s.threads| then s else
      var th := s.threads[t];
      match th.pc
      case Start =>
        if th.work.rounds < sys.client.rounds
        then Put(s, t, th.(pc := Spin, index := s.tail, slot := SlotOf(s.tail, sys.capacity))).(tail := s.tail + 1)
        else s
      case Spin => if Closed(s, SlotOf(th.index, sys.capacity)) then s else Put(s, t, th.(pc := Ready))
      case Ready =>
        if th.work.iters < sys.client.times
        then Put(s, t, th.(pc := Loaded, work := F.Load(th.work, s.shared)))
        else Put(s, t, th.(pc := Close))
      case Loaded => Put(s, t, th.(pc := Ready, work := F.Store(th.work))).(shared := th.work.reg + 1)
      case Close => Put(s, t, th.(pc := Open)).(flags := SetFlag(s.flags, th.slot, 1))
      case Open =>
        Put(s, t, th.(pc := Start, work := F.EndRound(th.work)))
        .(flags := SetFlag(s.flags, SlotOf(th.slot + 1, sys.capacity), 0))
  }

  function Stepper(sys: System): (State, Tid) -> State {
    (s: State, t: Tid) => Step(sys, s, t)
  }

  function Run(sys: System, s: State, schedule: seq<Tid>): State {
    Runs.Run(Stepper(sys), s, schedule)
  }

  // ---------------------------------------------------------------- refinement of the abstract lock

  function PhaseOf(pc: Pc): F.Phase {
    match pc
    case Start => F.Idle
    case Spin => F.Waiting
    case Loaded => F.Loaded
    case Ready | Close | Open => F.Ready
  }

  /** Is thread `t`'s next step the fetch-and-add that draws a ticket? */
  predicate Joins(sys: System, s: State, t: Tid) {
    t < |s.threads| && s.threads[t].pc == Start && s.threads[t].work.rounds < sys.client.rounds
  }

  /** Is thread `t`'s next step the one that ends its spin? */
  predicate GetsIn(sys: System, s: State, t: Tid) {
    t < |s.threads| && s.threads[t].pc == Spin && !Closed(s, SlotOf(s.threads[t].index, sys.capacity))
  }

  /** Is thread `t`'s next step one that the abstract lock takes too? */
  predicate Moves(sys: System, s: State, t: Tid) {
    t < |s.threads| &&
    var th := s.threads[t];
    || Joins(sys, s, t)
    || GetsIn(sys, s, t)
    || (th.pc == Ready && th.work.iters < sys.client.times)
    || th.pc == Loaded
    || th.pc == Open
  }

  function AbstractStep(sys: System, s: State, a: F.State, t: Tid): F.State {
    if Moves(sys, s, t) then F.Step(sys.client, a, t) else a
  }

  predicate ThreadOk(sys: System, s: State, a: F.State, t: Tid) {
    t < |s.threads| && t < |a.clients| &&
    var th, c := s.threads[t], a.clients[t];
    && c.phase == PhaseOf(th.pc)
    && c.work == th.work
    && (th.pc != Start ==> th.index == c.ticket && th.slot == SlotOf(c.ticket, sys.capacity))
    && (th.pc == Close || th.pc == Open ==> th.work.iters == sys.client.times)
  }

  /** The head has closed its own slot and not yet opened the next. */
  predicate HandingOver(s: State, a: F.State) {
    && a.served < |a.arrivals| && a.arrivals[a.served] < |s.threads|
    && s.threads[a.arrivals[a.served]].pc == Open
  }

  /** At most one flag is open: that of the ticket being served, and none during a hand-over. */
  predicate FlagOk(sys: System, s: State, a: F.State, slot: nat) {
    && slot < |s.flags|
    && s.flags[slot] == if slot == SlotOf(a.served, sys.capacity) && !HandingOver(s, a) then 0 else 1
  }

  predicate ThreadsOk(sys: System, s: State, a: F.State) {
    forall t :: 0 <= t < |s.threads| ==> ThreadOk(sys, s, a, t)
  }

  predicate FlagsOk(sys: System, s: State, a: F.State) {
    forall slot :: 0 <= slot < sys.capacity ==> FlagOk(sys, s, a, slot)
  }

  /** The invariant that ties tickets and flags to the queue of the abstract lock. */
  predicate Represents(sys: System, s: State, a: F.State) {
    && |s.threads| == |a.clients| == sys.client.threads
    && |s.flags| == sys.capacity
    && s.tail == |a.arrivals|
    && s.shared == a.shared
    && F.QueueOk(a)
    && ThreadsOk(sys, s, a)
    && FlagsOk(sys, s, a)
  }

  lemma InitRepresents(sys: System)
    ensures Represents(sys, Init(sys), F.Init(sys.client))
  {
    var s, a := Init(sys), F.Init(sys.client);
    forall t | 0 <= t < |s.threads| ensures ThreadOk(sys, s, a, t) { }
    forall t | 0 <= t < |a.clients| ensures F.TicketOk(a, t) { }
    forall slot | 0 <= slot < sys.capacity ensures FlagOk(sys, s, a, slot) { }
  }

  lemma AtThread(sys: System, s: State, a: F.State, t: Tid)
    requires Represents(sys, s, a) && t < |s.threads|
    ensures ThreadOk(sys, s, a, t) && F.TicketOk(a, t)
    ensures s.threads[t].pc != Start ==> FlagOk(sys, s, a, SlotOf(a.clients[t].ticket, sys.capacity))
  {
    assert ThreadOk(sys, s, a, t) && F.TicketOk(a, t);
  }

  /** No more tickets are outstanding than there are threads, so with a slot for each thread none share a slot. */
  lemma OutstandingFit(a: F.State)
    requires F.QueueOk(a)
    ensures |a.arrivals| - a.served <= |a.clients|
  {
    var q := a.Queue();
    forall i | 0 <= i < |q| ensures q[i] < |a.clients| {
      assert F.PlaceOk(a, a.served + i);
    }
    forall i, j | 0 <= i < j < |q| ensures q[i] != q[j] {
      assert F.PlaceOk(a, a.served + i) && F.PlaceOk(a, a.served + j);
    }
    Pigeonhole(q, |a.clients|);
  }

  /** With enough slots the one thread that finds its flag open is the head of the queue. */
  lemma GetsInIsHead(sys: System, s: State, a: F.State, t: Tid)
    requires Represents(sys, s, a) && GetsIn(sys, s, t) && Enough(sys)
    ensures a.IsHead(t)
  {
    AtThread(sys, s, a, t);
    OutstandingFit(a);
    SlotUnique(a.served, a.clients[t].ticket, sys.capacity);
  }

  /** A step that stores no flag. */
  lemma LocalStep(sys: System, s: State, a: F.State, s': State, a': F.State, t: Tid)
    requires Represents(sys, s, a) && F.QueueOk(a') && t < |s.threads|
    requires s'.flags == s.flags && |s'.threads| == |s.threads| && s'.threads == s.threads[t := s'.threads[t]]
    requires |a'.clients| == |a.clients| && a'.clients == a.clients[t := a'.clients[t]] && a'.served == a.served
    requires a'.arrivals == a.arrivals || a'.arrivals == a.arrivals + [t]
    requires s'.tail == |a'.arrivals| && s'.shared == a'.shared
    requires ThreadOk(sys, s', a', t)
    requires s.threads[t].pc != Open && s'.threads[t].pc != Open
    ensures Represents(sys, s', a')
  {
    forall u | 0 <= u < |s'.threads| ensures ThreadOk(sys, s', a', u) {
      assert ThreadOk(sys, s, a, u);
    }
    assert HandingOver(s', a') == HandingOver(s, a);
    forall slot | 0 <= slot < sys.capacity ensures FlagOk(sys, s', a', slot) {
      assert FlagOk(sys, s, a, slot);
    }
  }

  lemma CloseStep(sys: System, s: State, a: F.State, t: Tid)
    requires Represents(sys, s, a) && t < |s.threads| && s.threads[t].pc == Close
    ensures Represents(sys, Step(sys, s, t), a)
  {
    var s' := Step(sys, s, t);
    AtThread(sys, s, a, t);
    forall u | 0 <= u < |s'.threads| ensures ThreadOk(sys, s', a, u) {
      assert ThreadOk(sys, s, a, u);
    }
    forall slot | 0 <= slot < sys.capacity ensures FlagOk(sys, s', a, slot) {
      assert FlagOk(sys, s, a, slot);
    }
  }

  lemma OpenStep(sys: System, s: State, a: F.State, a': F.State, t: Tid)
    requires Represents(sys, s, a) && t < |s.threads| && s.threads[t].pc == Open
    requires a' == F.Leave(a, t) && F.QueueOk(a')
    ensures Represents(sys, Step(sys, s, t), a')
  {
    var s' := Step(sys, s, t);
    AtThread(sys, s, a, t);
    NextSlot(a.served, sys.capacity);
    forall u | 0 <= u < |s'.threads| ensures ThreadOk(sys, s', a', u) {
      assert ThreadOk(sys, s, a, u);
    }
    NobodyElseHandsOver(sys, s, a, t);
    forall slot | 0 <= slot < sys.capacity ensures FlagOk(sys, s', a', slot) {
      assert FlagOk(sys, s, a, slot);
    }
  }

  lemma NobodyElseHandsOver(sys: System, s: State, a: F.State, t: Tid)
    requires Represents(sys, s, a) && t < |s.threads| && s.threads[t].pc == Open
    ensures a.served + 1 < |a.arrivals| ==>
      var u := a.arrivals[a.served + 1]; u != t && u < |s.threads| && s.threads[u].pc == Spin
  {
    AtThread(sys, s, a, t);
    if a.served + 1 < |a.arrivals| {
      assert F.PlaceOk(a, a.served + 1);
      AtThread(sys, s, a, a.arrivals[a.served + 1]);
    }
  }

  /** What the abstract lock does at each step that it takes part in. */
  lemma AbstractStepIs(sys: System, s: State, a: F.State, t: Tid)
    requires Represents(sys, s, a) && t < |s.threads| && Enough(sys)
    ensures Joins(sys, s, t) ==> AbstractStep(sys, s, a, t) == F.Enqueue(a, t)
    ensures GetsIn(sys, s, t) ==> AbstractStep(sys, s, a, t) == F.Enter(a, t)
    ensures s.threads[t].pc == Open ==> AbstractStep(sys, s, a, t) == F.Leave(a, t)
  {
    AtThread(sys, s, a, t);
    if GetsIn(sys, s, t) { GetsInIsHead(sys, s, a, t); }
  }

  lemma StepRepresents(sys: System, s: State, a: F.State, a': F.State, t: Tid)
    requires Represents(sys, s, a) && a' == AbstractStep(sys, s, a, t) && F.QueueOk(a')
    requires t < |s.threads| && s.threads[t].work.iters <= sys.client.times && Enough(sys)
    ensures Represents(sys, Step(sys, s, t), a')
  {
    AbstractStepIs(sys, s, a, t);
    AtThread(sys, s, a, t);
    match s.threads[t].pc
    case Close => CloseStep(sys, s, a, t);
    case Open => OpenStep(sys, s, a, a', t);
    case Start | Spin | Ready | Loaded => LocalStep(sys, s, a, Step(sys, s, t), a', t);
  }

  lemma StepSimulates(sys: System, s: State, a: F.State, t: Tid)
    requires Represents(sys, s, a) && F.Inv(sys.client, a) && Enough(sys)
    ensures Represents(sys, Step(sys, s, t), AbstractStep(sys, s, a, t))
    ensures F.Inv(sys.client, AbstractStep(sys, s, a, t))
  {
    F.StepInv(sys.client, a, t);
    if t < |s.threads| {
      assert ThreadOk(sys, s, a, t) && F.WorkOk(sys.client, a.clients[t], a.shared);
      StepRepresents(sys, s, a, AbstractStep(sys, s, a, t), t);
    }
  }

  // ---------------------------------------------------------------- runs

  predicate Critical(s: State, t: Tid) {
    t < |s.threads| && F.Inside(F.Client(PhaseOf(s.threads[t].pc), 0, s.threads[t].work))
  }

  predicate AllDone(sys: System, s: State) {
    forall t :: 0 <= t < |s.threads| ==> s.threads[t].pc == Start && s.threads[t].work.rounds == sys.client.rounds
  }

  /** The threads in the order of their fetch-and-add on tail. */
  function TicketOrder(sys: System, s: State, schedule: seq<Tid>): seq<Tid> {
    Runs.Picked(Stepper(sys), (s: State, t: Tid) => Joins(sys, s, t), s, schedule)
  }

  /** The threads in the order in which their spins end. */
  function EntryOrder(sys: System, s: State, schedule: seq<Tid>): seq<Tid> {
    Runs.Picked(Stepper(sys), (s: State, t: Tid) => GetsIn(sys, s, t), s, schedule)
  }

  function AbstractSchedule(sys: System, s: State, schedule: seq<Tid>): seq<Tid> {
    Runs.Picked(Stepper(sys), (s: State, t: Tid) => Moves(sys, s, t), s, schedule)
  }

  lemma StepLogs(sys: System, s: State, a: F.State, t: Tid)
    requires Represents(sys, s, a) && Enough(sys)
    ensures var a' := AbstractStep(sys, s, a, t);
            && a'.arrivals == a.arrivals + (if Joins(sys, s, t) then [t] else [])
            && a'.grants == a.grants + (if GetsIn(sys, s, t) then [t] else [])
  {
    if t < |s.threads| {
      AtThread(sys, s, a, t);
      AbstractStepIs(sys, s, a, t);
    }
  }

  lemma {:induction false} RunSimulates(sys: System, s: State, a: F.State, schedule: seq<Tid>)
    requires Represents(sys, s, a) && F.Inv(sys.client, a) && Enough(sys)
    ensures var a' := F.Run(sys.client, a, AbstractSchedule(sys, s, schedule));
            && Represents(sys, Run(sys, s, schedule), a')
            && a'.arrivals == a.arrivals + TicketOrder(sys, s, schedule)
            && a'.grants == a.grants + EntryOrder(sys, s, schedule)
    decreases |schedule|
  {
    if schedule != [] {
      var t, rest := schedule[0], schedule[1..];
      var s', a' := Step(sys, s, t), AbstractStep(sys, s, a, t);
      StepSimulates(sys, s, a, t);
      StepLogs(sys, s, a, t);
      RunSimulates(sys, s', a', rest);
      F.RunAfter(sys.client, a, Moves(sys, s, t), t, AbstractSchedule(sys, s', rest));
      F.LogGrows(a.arrivals, Joins(sys, s, t), t, a'.arrivals, TicketOrder(sys, s', rest));
      F.LogGrows(a.grants, GetsIn(sys, s, t), t, a'.grants, EntryOrder(sys, s', rest));
    }
  }

  function Abstraction(sys: System, schedule: seq<Tid>): F.State {
    F.Run(sys.client, F.Init(sys.client), AbstractSchedule(sys, Init(sys), schedule))
  }

  /** Every run of the Anderson lock is, step for step, a run of the abstract first-in first-out lock. */
  lemma RefinesFifoLock(sys: System, schedule: seq<Tid>)
    requires Enough(sys)
    ensures var s, a := Init(sys), Abstraction(sys, schedule);
            && Represents(sys, Run(sys, s, schedule), a) && F.Inv(sys.client, a)
            && a.arrivals == TicketOrder(sys, s, schedule)
            && a.grants == EntryOrder(sys, s, schedule)
  {
    InitRepresents(sys);
    F.InitInv(sys.client);
    RunSimulates(sys, Init(sys), F.Init(sys.client), schedule);
    F.RunInv(sys.client, F.Init(sys.client), AbstractSchedule(sys, Init(sys), schedule));
  }

  lemma MutualExclusion(sys: System, schedule: seq<Tid>, t: Tid, u: Tid)
    requires Enough(sys)
    requires Critical(Run(sys, Init(sys), schedule), t)
    requires Critical(Run(sys, Init(sys), schedule), u)
    ensures t == u
  {
    RefinesFifoLock(sys, schedule);
    var s, a := Run(sys, Init(sys), schedule), Abstraction(sys, schedule);
    assert ThreadOk(sys, s, a, t) && ThreadOk(sys, s, a, u);
    F.MutualExclusion(sys.client, AbstractSchedule(sys, Init(sys), schedule), t, u);
  }

  lemma GrantedInTicketOrder(sys: System, schedule: seq<Tid>)
    requires Enough(sys)
    ensures EntryOrder(sys, Init(sys), schedule) <= TicketOrder(sys, Init(sys), schedule)
  {
    RefinesFifoLock(sys, schedule);
    F.GrantedInArrivalOrder(sys.client, AbstractSchedule(sys, Init(sys), schedule));
  }

  lemma DoneTotal(sys: System, s: State, a: F.State)
    requires Represents(sys, s, a) && F.Inv(sys.client, a) && AllDone(sys, s)
    ensures s.shared == sys.client.threads * sys.client.rounds * sys.client.times
  {
    forall t | 0 <= t < |a.clients|
      ensures a.clients[t].phase == F.Idle && a.clients[t].work.rounds == sys.client.rounds
    {
      assert ThreadOk(sys, s, a, t);
    }
    F.DoneTotal(sys.client, a);
  }

  lemma NoLostIncrements(sys: System, schedule: seq<Tid>)
    requires Enough(sys)
    requires AllDone(sys, Run(sys, Init(sys), schedule))
    ensures Run(sys, Init(sys), schedule).shared == sys.client.threads * sys.client.rounds * sys.client.times
  {
    RefinesFifoLock(sys, schedule);
    DoneTotal(sys, Run(sys, Init(sys), schedule), Abstraction(sys, schedule));
  }

  // ---------------------------------------------------------------- the window of tickets

  /** The tickets drawn and not yet given back form a window no longer than the array. */
  lemma TicketWindow(sys: System, schedule: seq<Tid>)
    requires Enough(sys)
    ensures var s, a := Run(sys, Init(sys), schedule), Abstraction(sys, schedule);
            a.served <= s.tail <= a.served + sys.capacity
  {
    RefinesFifoLock(sys, schedule);
    OutstandingFit(Abstraction(sys, schedule));
  }

  /** Threads between their ticket and the end of their unlock never share a slot. */
  lemma SlotsAreDistinct(sys: System, schedule: seq<Tid>, t: Tid, u: Tid)
    requires Enough(sys)
    requires var s := Run(sys, Init(sys), schedule);
             && t < |s.threads| && u < |s.threads| && s.threads[t].pc != Start && s.threads[u].pc != Start
             && s.threads[t].slot == s.threads[u].slot
    ensures t == u
  {
    RefinesFifoLock(sys, schedule);
    var s, a := Run(sys, Init(sys), schedule), Abstraction(sys, schedule);
    AtThread(sys, s, a, t);
    AtThread(sys, s, a, u);
    OutstandingFit(a);
    var k, l := a.clients[t].ticket, a.clients[u].ticket;
    if k <= l { SlotUnique(k, l, sys.capacity); } else { SlotUnique(l, k, sys.capacity); }
  }

  /** A flag is open only if it is the slot of the oldest ticket, and between the two stores of unlock none is. */
  lemma OpenFlagIsServedSlot(sys: System, schedule: seq<Tid>, slot: nat)
    requires Enough(sys) && slot < sys.capacity
    ensures var s, a := Run(sys, Init(sys), schedule), Abstraction(sys, schedule);
            && |s.flags| == sys.capacity
            && (s.flags[slot] != 1 <==>
                  slot == SlotOf(a.served, sys.capacity) &&
                   !exists t :: 0 <= t < |s.threads| && s.threads[t].pc == Open)
  {
    RefinesFifoLock(sys, schedule);
    var s, a := Run(sys, Init(sys), schedule), Abstraction(sys, schedule);
    assert FlagOk(sys, s, a, slot);
    forall t | 0 <= t < |s.threads| && s.threads[t].pc == Open
      ensures HandingOver(s, a)
    {
      AtThread(sys, s, a, t);
    }
  }

  // ---------------------------------------------------------------- how many slots are enough

  ghost predicate Excludes(sys: System, schedule: seq<Tid>) {
    forall t, u :: Critical(Run(sys, Init(sys), schedule), t) && Critical(Run(sys, Init(sys), schedule), u) ==> t == u
  }

  function FirstThreads(n: nat): (schedule: seq<Tid>)
    ensures |schedule| == n && forall i :: 0 <= i < n ==> schedule[i] == i
  {
    seq(n, i requires 0 <= i => i)
  }

  /** After the first `n` threads have each drawn a ticket they hold the tickets 0 to n - 1, in order. */
  predicate Drawn(sys: System, s: State, n: nat) {
    && s.tail == n && s.flags == Init(sys).flags && |s.threads| == sys.client.threads
    && (forall i :: 0 <= i < |s.threads| ==> DrawnThread(sys, s.threads[i], i, n))
  }

  predicate DrawnThread(sys: System, th: Thread, i: nat, n: nat) {
    && th.work == F.NOTHING_DONE
    && (if i < n then th.pc == Spin && th.index == i else th.pc == Start)
  }

  lemma {:induction false} DrawTickets(sys: System, n: nat)
    requires n <= sys.client.threads && 1 <= sys.client.rounds
    ensures Drawn(sys, Run(sys, Init(sys), FirstThreads(n)), n)
  {
    if n == 0 {
      forall i | 0 <= i < sys.client.threads ensures DrawnThread(sys, Init(sys).threads[i], i, 0) { }
    } else {
      DrawTickets(sys, n - 1);
      assert FirstThreads(n) == FirstThreads(n - 1) + [n - 1];
      var t: Tid := n - 1;
      var s := Run(sys, Init(sys), FirstThreads(n - 1));
      var s' := Step(sys, s, t);
      Runs.RunAppend(Stepper(sys), Init(sys), FirstThreads(n - 1), [t]);
      Runs.RunOne(Stepper(sys), s, t);
      forall i | 0 <= i < |s'.threads| ensures DrawnThread(sys, s'.threads[i], i, n) {
        assert DrawnThread(sys, s.threads[i], i, n - 1);
        assert DrawnThread(sys, s.threads[n - 1], n - 1, n - 1);
      }
    }
  }

  /** Everybody up to thread `capacity` draws a ticket, then the first and the last of them look at their flag. */
  function Overfull(sys: System): seq<Tid> {
    var last: Tid := sys.capacity;
    FirstThreads(last + 1) + [0, last]
  }

  /** With more threads than slots the ticket `capacity` shares slot 0 with ticket 0, and both get in. */
  lemma TooFewSlots(sys: System)
    requires sys.client.threads > sys.capacity && 1 <= sys.client.rounds
    ensures !Excludes(sys, Overfull(sys))
  {
    var last: Tid := sys.capacity;
    var looks: seq<Tid> := [0, last];
    DrawTickets(sys, last + 1);
    Runs.RunAppend(Stepper(sys), Init(sys), FirstThreads(last + 1), looks);
    var s := Run(sys, Init(sys), FirstThreads(last + 1));
    assert DrawnThread(sys, s.threads[0], 0, last + 1) && DrawnThread(sys, s.threads[last], last, last + 1);
    AddCapacity(0, sys.capacity);
    var s1 := Step(sys, s, 0);
    var s2 := Step(sys, s1, last);
    assert looks == looks + [];
    Runs.RunTwo(Stepper(sys), s, 0, last, []);
    assert Run(sys, Init(sys), Overfull(sys)) == s2;
    assert Critical(s2, 0) && Critical(s2, last);
  }

  /** The lock excludes on every run exactly when there is a slot for every thread. */
  lemma ExcludesIffEnoughSlots(sys: System)
    requires 1 <= sys.client.rounds
    ensures (forall schedule :: Excludes(sys, schedule)) <==> Enough(sys)
  {
    if Enough(sys) {
      forall schedule ensures Excludes(sys, schedule) {
        forall t, u | Critical(Run(sys, Init(sys), schedule), t) && Critical(Run(sys, Init(sys), schedule), u)
          ensures t == u
        {
          MutualExclusion(sys, schedule, t, u);
        }
      }
    } else {
      TooFewSlots(sys);
    }
  }

  // ---------------------------------------------------------------- progress

  function RoundCost(sys: System): nat {
    2 * sys.client.times + 5
  }

  function Remaining(sys: System, th: Thread): int {
    var work := 2 * (sys.client.times - th.work.iters);
    match th.pc
    case Start => F.Budget(sys.client.rounds - th.work.rounds, RoundCost(sys))
    case Spin => F.Budget(sys.client.rounds - th.work.rounds - 1, RoundCost(sys)) + work + 4
    case Ready => F.Budget(sys.client.rounds - th.work.rounds - 1, RoundCost(sys)) + work + 3
    case Loaded => F.Budget(sys.client.rounds - th.work.rounds - 1, RoundCost(sys)) + work + 2
    case Close => F.Budget(sys.client.rounds - th.work.rounds - 1, RoundCost(sys)) + 2
    case Open => F.Budget(sys.client.rounds - th.work.rounds - 1, RoundCost(sys)) + 1
  }

  function RemainingFor(sys: System): Thread -> int {
    (th: Thread) => Remaining(sys, th)
  }

  function Measure(sys: System, s: State): int {
    Sum(s.threads, RemainingFor(sys))
  }

  /** The number of steps of a run that change the state. */
  function Effective(sys: System, s: State, schedule: seq<Tid>): nat {
    Runs.Effective(Stepper(sys), s, schedule)
  }

  lemma MoverPays(sys: System, s: State, a: F.State, t: Tid)
    requires t < |s.threads| && Step(sys, s, t) != s
    requires ThreadOk(sys, s, a, t) && F.WorkOk(sys.client, a.clients[t], a.shared)
    ensures Remaining(sys, Step(sys, s, t).threads[t]) < Remaining(sys, s.threads[t])
  {
  }

  lemma EffectiveStepPays(sys: System, s: State, a: F.State, t: Tid)
    requires Represents(sys, s, a) && F.Inv(sys.client, a) && Enough(sys) && Step(sys, s, t) != s
    ensures Measure(sys, Step(sys, s, t)) < Measure(sys, s)
  {
    assert ThreadOk(sys, s, a, t) && F.WorkOk(sys.client, a.clients[t], a.shared);
    MoverPays(sys, s, a, t);
    SumDrop(s.threads, RemainingFor(sys), Step(sys, s, t).threads, RemainingFor(sys), t, 1, 0);
  }

  lemma MeasureNonNegative(sys: System, s: State, a: F.State)
    requires Represents(sys, s, a) && F.Inv(sys.client, a) && Enough(sys)
    ensures 0 <= Measure(sys, s)
  {
    forall t | 0 <= t < |s.threads|
      ensures 0 <= RemainingFor(sys)(s.threads[t])
    {
      assert ThreadOk(sys, s, a, t) && F.WorkOk(sys.client, a.clients[t], a.shared);
    }
    SumAtLeast(s.threads, RemainingFor(sys), 0);
  }

  /** While work remains the head of the queue, or with an empty queue any unfinished thread, can move. */
  lemma SomeThreadCanMove(sys: System, s: State, a: F.State) returns (t: Tid)
    requires Represents(sys, s, a) && F.Inv(sys.client, a) && Enough(sys) && !AllDone(sys, s)
    ensures Step(sys, s, t) != s
  {
    if a.served < |a.arrivals| {
      t := a.arrivals[a.served];
      assert F.PlaceOk(a, a.served);
    } else {
      t :| 0 <= t < |s.threads| && !(s.threads[t].pc == Start && s.threads[t].work.rounds == sys.client.rounds);
    }
    AtThread(sys, s, a, t);
    assert F.WorkOk(sys.client, a.clients[t], a.shared);
    assert Step(sys, s, t).threads[t] != s.threads[t];
  }

  // ---------------------------------------------------------------- what that means for every run

  ghost predicate Good(sys: System, s: State) {
    Enough(sys) && exists a :: Represents(sys, s, a) && F.Inv(sys.client, a)
  }

  ghost function SystemOf(sys: System): Runs.System<State> {
    Runs.System(sys.client.threads, Stepper(sys), (s: State) => Good(sys, s), (s: State) => AllDone(sys, s),
                (s: State) => Measure(sys, s))
  }

  lemma StateProgresses(sys: System, s: State)
    requires Good(sys, s)
    ensures Runs.StateOk(SystemOf(sys), s)
  {
    var a :| Represents(sys, s, a) && F.Inv(sys.client, a);
    MeasureNonNegative(sys, s, a);
    if !AllDone(sys, s) {
      var t := SomeThreadCanMove(sys, s, a);
      EffectiveStepPays(sys, s, a, t);
      assert Runs.Helps(SystemOf(sys), s, t);
    }
  }

  lemma StepProgresses(sys: System, s: State, t: Tid)
    requires Good(sys, s)
    ensures Runs.StepOk(SystemOf(sys), s, t)
    ensures Step(sys, s, t) == s || Runs.Helps(SystemOf(sys), s, t)
  {
    var a :| Represents(sys, s, a) && F.Inv(sys.client, a);
    StepSimulates(sys, s, a, t);
    if Step(sys, s, t) != s { EffectiveStepPays(sys, s, a, t); }
  }

  lemma Progresses(sys: System)
    ensures Runs.Progresses(SystemOf(sys)) && Runs.Strict(SystemOf(sys))
  {
    forall s | Good(sys, s) ensures Runs.StateOk(SystemOf(sys), s) {
      StateProgresses(sys, s);
    }
    forall s, t: Tid | Good(sys, s)
      ensures Runs.StepOk(SystemOf(sys), s, t) && (Step(sys, s, t) == s || Runs.Helps(SystemOf(sys), s, t))
    {
      StepProgresses(sys, s, t);
    }
  }

  lemma InitialMeasure(sys: System)
    requires Enough(sys)
    ensures Good(sys, Init(sys)) && Measure(sys, Init(sys)) == sys.client.threads * (sys.client.rounds * RoundCost(sys))
  {
    InitRepresents(sys);
    F.InitInv(sys.client);
    SumConstant(Init(sys).threads, RemainingFor(sys), F.Budget(sys.client.rounds, RoundCost(sys)));
    F.BudgetIsProduct(sys.client.rounds, RoundCost(sys));
  }

  /** However the threads are scheduled, a run has at most so many steps that change anything. */
  lemma EveryRunIsBounded(sys: System, schedule: seq<Tid>)
    requires Enough(sys)
    ensures Effective(sys, Init(sys), schedule) <= sys.client.threads * (sys.client.rounds * RoundCost(sys))
  {
    Progresses(sys);
    InitialMeasure(sys);
    Runs.WorkIsBounded(SystemOf(sys), Init(sys), schedule);
  }

  lemma NeverStuck(sys: System, schedule: seq<Tid>)
    requires Enough(sys)
    requires !AllDone(sys, Run(sys, Init(sys), schedule))
    ensures exists t :: Step(sys, Run(sys, Init(sys), schedule), t) != Run(sys, Init(sys), schedule)
  {
    RefinesFifoLock(sys, schedule);
    var t := SomeThreadCanMove(sys, Run(sys, Init(sys), schedule), Abstraction(sys, schedule));
  }

  /**
   * Every fair run finishes: however it began, any continuation made of so many segments with a step of every
   * thread in each, in any order and with any others between them, ends with every increment counted.
   */
  lemma EveryFairRunFinishes(sys: System, schedule: seq<Tid>, segments: seq<seq<Tid>>)
    requires Enough(sys)
    requires Runs.Fair(segments, sys.client.threads)
    requires sys.client.threads * (sys.client.rounds * RoundCost(sys)) <= |segments|
    ensures var s := Run(sys, Run(sys, Init(sys), schedule), Runs.Flat(segments));
            AllDone(sys, s) && s.shared == sys.client.threads * sys.client.rounds * sys.client.times
  {
    Progresses(sys);
    InitialMeasure(sys);
    Runs.RunKeeps(SystemOf(sys), Init(sys), schedule);
    Runs.FairRunEnds(SystemOf(sys), Run(sys, Init(sys), schedule), segments);
    Runs.RunAppend(Stepper(sys), Init(sys), schedule, Runs.Flat(segments));
    NoLostIncrements(sys, schedule + Runs.Flat(segments));
  }

  /** Such a continuation exists, so every run can be completed. */
  lemma EveryRunCanFinish(sys: System, schedule: seq<Tid>)
    requires Enough(sys)
    ensures exists more: seq<Tid> ::
      var s := Run(sys, Run(sys, Init(sys), schedule), more);
      AllDone(sys, s) && s.shared == sys.client.threads * sys.client.rounds * sys.client.times
  {
    var segments := Runs.RoundRobin(sys.client.threads, sys.client.threads * (sys.client.rounds * RoundCost(sys)));
    EveryFairRunFinishes(sys, schedule, segments);
  }
}
