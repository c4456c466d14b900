/** The Anderson lock that stores raw tickets and opens with 1, in step with the other encoding. */
module AndersonTickets {
  import opened Slots
  import F = FifoLock
  import A = AndersonLock
  import Runs

  type Tid = F.Tid
  type State = A.State

  function Init(sys: A.System): State {
    A.Init(sys).(flags := seq(sys.capacity, i => if i == 0 then 1 else 0))
  }

  predicate Closed(s: State, slot: nat) {
    slot < |s.flags| && s.flags[slot] == 0
  }

  /** One step of thread `t`; a spinning or finished thread leaves the state as it is. */
  function Step(sys: A.System, s: State, t: Tid): State {
    if t >= |s.threads| then s else
      var th := s.threads[t];
      match th.pc
      case Start =>
        if th.work.rounds < sys.client.rounds
        then A.Put(s, t, th.(pc := A.Spin, index := s.tail, slot := s.tail)).(tail := s.tail + 1)
        else s
      case Spin => if Closed(s, SlotOf(th.index, sys.capacity)) then s else A.Put(s, t, th.(pc := A.Ready))
      case Ready =>
        if th.work.iters < sys.client.times
        then A.Put(s, t, th.(pc := A.Loaded, work := F.Load(th.work, s.shared)))
        else A.Put(s, t, th.(pc := A.Close))
      case Loaded => A.Put(s, t, th.(pc := A.Ready, work := F.Store(th.work))).(shared := th.work.reg + 1)
      case Close => A.Put(s, t, th.(pc := A.Open)).(flags := A.SetFlag(s.flags, SlotOf(th.slot, sys.capacity), 0))
      case Open =>
        A.Put(s, t, th.(pc := A.Start, work := F.EndRound(th.work)))
        .(flags := A.SetFlag(s.flags, SlotOf(th.slot + 1, sys.capacity), 1))
  }

  function Stepper(sys: A.System): (State, Tid) -> State {
    (s: State, t: Tid) => Step(sys, s, t)
  }

  function Run(sys: A.System, s: State, schedule: seq<Tid>): State {
    Runs.Run(Stepper(sys), s, schedule)
  }

  // ---------------------------------------------------------------- the two encodings agree

  predicate SameThread(sys: A.System, th: A.Thread, th': A.Thread) {
    && th'.pc == th.pc && th'.index == th.index && th'.work == th.work
    && (th.pc != A.Start ==> th'.slot == th'.index && th.slot == SlotOf(th'.slot, sys.capacity))
  }

  predicate OppositeFlag(s: State, s': State, i: nat) {
    i < |s.flags| && i < |s'.flags| && (s.flags[i] == 0 || s.flags[i] == 1) && s'.flags[i] == 1 - s.flags[i]
  }

  /** Same tickets, same positions, opposite flags; one encoding stores the ticket, the other the slot it reduces to. */
  predicate Corresponds(sys: A.System, s: State, s': State) {
    && s'.tail == s.tail && s'.shared == s.shared
    && |s'.threads| == |s.threads| && |s.flags| == |s'.flags| == sys.capacity
    && (forall t :: 0 <= t < |s.threads| ==> SameThread(sys, s.threads[t], s'.threads[t]))
    && (forall i :: 0 <= i < |s.flags| ==> OppositeFlag(s, s', i))
  }

  lemma InitCorresponds(sys: A.System)
    ensures Corresponds(sys, A.Init(sys), Init(sys))
  {
  }

  /** Whatever the number of threads, each step of one encoding is matched by the same thread's step of the other. */
  lemma StepCorresponds(sys: A.System, s: State, s': State, t: Tid)
    requires Corresponds(sys, s, s')
    ensures Corresponds(sys, A.Step(sys, s, t), Step(sys, s', t))
    ensures A.Step(sys, s, t) == s <==> Step(sys, s', t) == s'
  {
    if t < |s.threads| {
      var th, th' := s.threads[t], s'.threads[t];
      assert SameThread(sys, th, th');
      assert OppositeFlag(s, s', SlotOf(th.index, sys.capacity));
      NextSlot(th'.slot, sys.capacity);
      var n, n' := A.Step(sys, s, t), Step(sys, s', t);
      forall u | 0 <= u < |n.threads| ensures SameThread(sys, n.threads[u], n'.threads[u]) {
        assert SameThread(sys, s.threads[u], s'.threads[u]);
      }
      forall i | 0 <= i < |n.flags| ensures OppositeFlag(n, n', i) {
        assert OppositeFlag(s, s', i);
      }
      if n != s { assert n.threads[t].pc != th.pc; }
      if n' != s' { assert n'.threads[t].pc != th'.pc; }
    }
  }

  lemma {:induction false} RunCorresponds(sys: A.System, s: State, s': State, schedule: seq<Tid>)
    requires Corresponds(sys, s, s')
    ensures Corresponds(sys, A.Run(sys, s, schedule), Run(sys, s', schedule))
    decreases |schedule|
  {
    if schedule != [] {
      StepCorresponds(sys, s, s', schedule[0]);
      RunCorresponds(sys, A.Step(sys, s, schedule[0]), Step(sys, s', schedule[0]), schedule[1..]);
    }
  }

  /** On every run the two encodings stay in step. */
  lemma EncodingsAgree(sys: A.System, schedule: seq<Tid>)
    ensures Corresponds(sys, A.Run(sys, A.Init(sys), schedule), Run(sys, Init(sys), schedule))
  {
    InitCorresponds(sys);
    RunCorresponds(sys, A.Init(sys), Init(sys), schedule);
  }

  // ---------------------------------------------------------------- what this encoding stores

  /** The threads in the order of their fetch-and-adds. */
  function TicketOrder(sys: A.System, s: State, schedule: seq<Tid>): seq<Tid> {
    Runs.Picked(Stepper(sys), (s: State, t: Tid) => A.Joins(sys, s, t), s, schedule)
  }

  /** Between its fetch-and-add and its return from unlock a thread stores its raw place in the order of tickets. */
  predicate StoresPlace(s: State, order: seq<Tid>, t: Tid) {
    t < |s.threads| &&
    (s.threads[t].pc != A.Start ==>
       && s.threads[t].slot == s.threads[t].index < |order|
       && order[s.threads[t].index] == t
       && forall k :: s.threads[t].index < k < |order| ==> order[k] != t)
  }

  predicate TicketsOk(s: State, order: seq<Tid>) {
    s.tail == |order| && forall t :: 0 <= t < |s.threads| ==> StoresPlace(s, order, t)
  }

  lemma StepTickets(sys: A.System, s: State, order: seq<Tid>, t: Tid)
    requires TicketsOk(s, order)
    ensures TicketsOk(Step(sys, s, t), order + if A.Joins(sys, s, t) then [t] else [])
  {
    var s', order' := Step(sys, s, t), order + if A.Joins(sys, s, t) then [t] else [];
    forall u | 0 <= u < |s'.threads| ensures StoresPlace(s', order', u) {
      assert StoresPlace(s, order, u);
    }
  }

  lemma {:induction false} RunTickets(sys: A.System, s: State, order: seq<Tid>, schedule: seq<Tid>)
    requires TicketsOk(s, order)
    ensures TicketsOk(Run(sys, s, schedule), order + TicketOrder(sys, s, schedule))
    ensures |Run(sys, s, schedule).threads| == |s.threads|
    decreases |schedule|
  {
    if schedule == [] {
      assert order + [] == order;
    } else {
      var t, rest := schedule[0], schedule[1..];
      var joined := if A.Joins(sys, s, t) then [t] else [];
      StepTickets(sys, s, order, t);
      RunTickets(sys, Step(sys, s, t), order + joined, rest);
      assert order + joined + TicketOrder(sys, Step(sys, s, t), rest)
          == order + (joined + TicketOrder(sys, Step(sys, s, t), rest));
    }
  }

  /**
   * On every run, whatever the number of threads, a thread in the lock function or inside stores its raw ticket,
   * and that is its place in the order of the fetch-and-adds: the number of those before its own last one.
   */
  lemma StoresRawTicket(sys: A.System, schedule: seq<Tid>, t: Tid)
    requires t < sys.client.threads
    ensures StoresPlace(Run(sys, Init(sys), schedule), TicketOrder(sys, Init(sys), schedule), t)
  {
    RunTickets(sys, Init(sys), [], schedule);
    assert [] + TicketOrder(sys, Init(sys), schedule) == TicketOrder(sys, Init(sys), schedule);
  }

  // ---------------------------------------------------------------- what this encoding inherits

  ghost predicate Excludes(sys: A.System, schedule: seq<Tid>) {
    forall t, u ::
      A.Critical(Run(sys, Init(sys), schedule), t) && A.Critical(Run(sys, Init(sys), schedule), u) ==> t == u
  }

  lemma ExcludesAlike(sys: A.System, schedule: seq<Tid>)
    ensures Excludes(sys, schedule) <==> A.Excludes(sys, schedule)
  {
    EncodingsAgree(sys, schedule);
    var s, s' := A.Run(sys, A.Init(sys), schedule), Run(sys, Init(sys), schedule);
    forall t: Tid ensures A.Critical(s, t) <==> A.Critical(s', t) {
      if t < |s.threads| { assert SameThread(sys, s.threads[t], s'.threads[t]); }
    }
  }

  lemma ExcludesIffEnoughSlots(sys: A.System)
    requires 1 <= sys.client.rounds
    ensures (forall schedule :: Excludes(sys, schedule)) <==> A.Enough(sys)
  {
    A.ExcludesIffEnoughSlots(sys);
    forall schedule ensures Excludes(sys, schedule) <==> A.Excludes(sys, schedule) {
      ExcludesAlike(sys, schedule);
    }
  }

  lemma DoneAlike(sys: A.System, s: State, s': State)
    requires Corresponds(sys, s, s')
    ensures A.AllDone(sys, s') <==> A.AllDone(sys, s)
  {
    forall t | 0 <= t < |s.threads|
      ensures s'.threads[t].pc == s.threads[t].pc && s'.threads[t].work == s.threads[t].work
    {
      assert SameThread(sys, s.threads[t], s'.threads[t]);
    }
  }

  lemma NoLostIncrements(sys: A.System, schedule: seq<Tid>)
    requires A.Enough(sys) && A.AllDone(sys, Run(sys, Init(sys), schedule))
    ensures Run(sys, Init(sys), schedule).shared == sys.client.threads * sys.client.rounds * sys.client.times
  {
    EncodingsAgree(sys, schedule);
    DoneAlike(sys, A.Run(sys, A.Init(sys), schedule), Run(sys, Init(sys), schedule));
    A.NoLostIncrements(sys, schedule);
  }

  /** Every fair run of this encoding finishes too, because the other encoding's run on the same schedule does. */
  lemma EveryFairRunFinishes(sys: A.System, schedule: seq<Tid>, segments: seq<seq<Tid>>)
    requires A.Enough(sys) && Runs.Fair(segments, sys.client.threads)
    requires sys.client.threads * (sys.client.rounds * A.RoundCost(sys)) <= |segments|
    ensures var s := Run(sys, Run(sys, Init(sys), schedule), Runs.Flat(segments));
            A.AllDone(sys, s) && s.shared == sys.client.threads * sys.client.rounds * sys.client.times
  {
    var s, s' := A.Run(sys, A.Init(sys), schedule), Run(sys, Init(sys), schedule);
    A.EveryFairRunFinishes(sys, schedule, segments);
    EncodingsAgree(sys, schedule);
    RunCorresponds(sys, s, s', Runs.Flat(segments));
    DoneAlike(sys, A.Run(sys, s, Runs.Flat(segments)), Run(sys, s', Runs.Flat(segments)));
  }

  lemma EveryRunCanFinish(sys: A.System, schedule: seq<Tid>)
    requires A.Enough(sys)
    ensures exists more: seq<Tid> ::
      var s := Run(sys, Run(sys, Init(sys), schedule), more);
      A.AllDone(sys, s) && s.shared == sys.client.threads * sys.client.rounds * sys.client.times
  {
    var segments := Runs.RoundRobin(sys.client.threads, sys.client.threads * (sys.client.rounds * A.RoundCost(sys)));
    EveryFairRunFinishes(sys, schedule, segments);
  }
}
