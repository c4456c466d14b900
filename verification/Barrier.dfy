/** The one-shot barrier: an arrival counter under a mutex and one condition variable, tested in a loop. */
module Barrier {
  import opened Sequences
  import opened Pointers
  import Runs

  type Tid = nat

  /** Waiting on the condition releases the mutex and falls asleep in one step; a sleeper may wake for no reason. */
  datatype Pc =
    | Enter    // about to take the mutex
    | Arrive   // about to increment the counter
    | Test     // about to test the counter
    | Asleep   // waiting on the condition
    | Woken    // woken, before retaking the mutex
    | Notify   // past the loop, about to broadcast
    | Exit     // about to release the mutex
    | Left     // has returned

  /** `expected` is the number of threads the barrier waits for, one for each thread of the program. */
  datatype State = State(expected: nat, current: int, mutex: Option<Tid>, pcs: seq<Pc>)

  /** A thread's own step, or a wake-up for no reason. */
  datatype Event = Move(t: Tid) | Spurious(t: Tid)

  function Init(threads: nat): State {
    State(threads, 0, None, seq(threads, _ => Enter))
  }

  function Go(s: State, t: Tid, pc: Pc): State
    requires t < |s.pcs|
  {
    s.(pcs := s.pcs[t := pc])
  }

  function Wake(pc: Pc): Pc {
    if pc == Asleep then Woken else pc
  }

  function WakeAll(pcs: seq<Pc>): seq<Pc> {
    seq(|pcs|, i requires 0 <= i < |pcs| => Wake(pcs[i]))
  }

  /** The next step of thread `t`; one that is asleep, has left or is kept from the mutex leaves the state as it is. */
  function Step(s: State, t: Tid): State
    requires t < |s.pcs|
  {
    match s.pcs[t]
    case Enter => if s.mutex == None then Go(s, t, Arrive).(mutex := Some(t)) else s
    case Arrive => Go(s, t, Test).(current := s.current + 1)
    case Test => if s.current < s.expected then Go(s, t, Asleep).(mutex := None) else Go(s, t, Notify)
    case Woken => if s.mutex == None then Go(s, t, Test).(mutex := Some(t)) else s
    case Notify => Go(s.(pcs := WakeAll(s.pcs)), t, Exit)
    case Exit => Go(s, t, Left).(mutex := None)
    case Asleep | Left => s
  }

  function Next(s: State, e: Event): State {
    if e.t >= |s.pcs| then s else
      match e
      case Move(t) => Step(s, t)
      case Spurious(t) => Go(s, t, Wake(s.pcs[t]))
  }

  function Run(s: State, events: seq<Event>): State {
    Runs.Run(Next, s, events)
  }

  // ---------------------------------------------------------------- invariant

  predicate InMonitor(pc: Pc) {
    pc == Arrive || pc == Test || pc == Notify || pc == Exit
  }

  predicate Arrived(pc: Pc) {
    pc != Enter && pc != Arrive
  }

  predicate PastLoop(pc: Pc) {
    pc == Notify || pc == Exit || pc == Left
  }

  function AsArrived(pc: Pc): int {
    if Arrived(pc) then 1 else 0
  }

  /** All have arrived and the thread in the monitor is on its way to a broadcast. */
  predicate BroadcastPending(s: State) {
    && s.mutex.Some? && s.mutex.value < |s.pcs|
    && (s.pcs[s.mutex.value] == Test || s.pcs[s.mutex.value] == Notify)
  }

  predicate PcOk(s: State, t: Tid) {
    t < |s.pcs| &&
    var pc := s.pcs[t];
    && (InMonitor(pc) <==> s.mutex == Some(t))
    && (PastLoop(pc) ==> s.current >= s.expected)
    && (pc == Asleep && s.current >= s.expected ==> BroadcastPending(s))
  }

  predicate Inv(s: State) {
    && s.expected == |s.pcs|
    && s.current == Sum(s.pcs, AsArrived)
    && (s.mutex.Some? ==> s.mutex.value < |s.pcs|)
    && (forall t :: 0 <= t < |s.pcs| ==> PcOk(s, t))
  }

  lemma InitInv(threads: nat)
    ensures Inv(Init(threads))
  {
    var s := Init(threads);
    SumConstant(s.pcs, AsArrived, 0);
    forall t | 0 <= t < |s.pcs| ensures PcOk(s, t) { }
  }

  /** The counter never exceeds the number of threads, and reaches it only when all have arrived. */
  lemma ArrivedBound(s: State, t: Tid)
    requires Inv(s) && t < |s.pcs|
    ensures s.current <= s.expected
    ensures s.current == s.expected ==> Arrived(s.pcs[t])
  {
    var all := (pc: Pc) => 1;
    SumConstant(s.pcs, all, 1);
    SumDrop(s.pcs, all, s.pcs, AsArrived, if Arrived(s.pcs[t]) then |s.pcs| else t, 1, 0);
  }

  lemma StepCount(s: State, t: Tid)
    requires s.current == Sum(s.pcs, AsArrived) && t < |s.pcs|
    ensures Step(s, t).current == Sum(Step(s, t).pcs, AsArrived)
  {
    var s' := Step(s, t);
    var woken := if s.pcs[t] == Notify then WakeAll(s.pcs) else s.pcs;
    SumSame(s.pcs, AsArrived, woken, AsArrived);
    SumUpdate(woken, AsArrived, t, s'.pcs[t]);
    assert s'.pcs == woken[t := s'.pcs[t]];
  }

  lemma StepPc(s: State, t: Tid, u: Tid)
    requires PcOk(s, t) && PcOk(s, u) && (s.mutex.Some? ==> s.mutex.value < |s.pcs|)
    ensures PcOk(Step(s, t), u)
  {
  }

  lemma StepInv(s: State, t: Tid)
    requires Inv(s) && t < |s.pcs|
    ensures Inv(Step(s, t))
  {
    var s' := Step(s, t);
    assert PcOk(s, t);
    StepCount(s, t);
    forall u | 0 <= u < |s'.pcs| ensures PcOk(s', u) {
      assert PcOk(s, u);
      StepPc(s, t, u);
    }
  }

  lemma NextInv(s: State, e: Event)
    requires Inv(s)
    ensures Inv(Next(s, e))
  {
    if e.t < |s.pcs| {
      match e
      case Move(t) => StepInv(s, t);
      case Spurious(t) =>
        var s' := Next(s, e);
        assert PcOk(s, t);
        SumUpdate(s.pcs, AsArrived, t, Wake(s.pcs[t]));
        forall u | 0 <= u < |s'.pcs| ensures PcOk(s', u) {
          assert PcOk(s, u);
        }
    }
  }

  lemma {:induction false} RunInv(s: State, events: seq<Event>)
    requires Inv(s)
    ensures Inv(Run(s, events))
    decreases |events|
  {
    if events != [] {
      NextInv(s, events[0]);
      RunInv(Next(s, events[0]), events[1..]);
    }
  }

  // ---------------------------------------------------------------- what every run keeps

  /** Nobody passes the loop before everybody has arrived. */
  lemma NobodyPassesEarly(threads: nat, events: seq<Event>, t: Tid, u: Tid)
    requires var s := Run(Init(threads), events); t < |s.pcs| && u < |s.pcs| && PastLoop(s.pcs[t])
    ensures Arrived(Run(Init(threads), events).pcs[u])
  {
    InitInv(threads);
    RunInv(Init(threads), events);
    var s := Run(Init(threads), events);
    assert PcOk(s, t);
    ArrivedBound(s, u);
  }

  predicate AllArrived(s: State) {
    forall t :: 0 <= t < |s.pcs| ==> Arrived(s.pcs[t])
  }

  lemma AllArrivedIsFull(s: State)
    requires Inv(s) && AllArrived(s)
    ensures s.current == s.expected
  {
    forall u | 0 <= u < |s.pcs| ensures AsArrived(s.pcs[u]) == 1 { }
    SumConstant(s.pcs, AsArrived, 1);
  }

  /** Once everybody has arrived, a sleeper has a broadcast coming from the thread in the monitor. */
  lemma SleepersAreWoken(threads: nat, events: seq<Event>, t: Tid)
    requires var s := Run(Init(threads), events);
             t < |s.pcs| && s.pcs[t] == Asleep && AllArrived(s)
    ensures BroadcastPending(Run(Init(threads), events))
  {
    InitInv(threads);
    RunInv(Init(threads), events);
    var s := Run(Init(threads), events);
    AllArrivedIsFull(s);
    assert PcOk(s, t);
  }

  /** Does this event wake the sleeper: a broadcast, or no reason at all? */
  predicate Wakes(s: State, e: Event, t: Tid) {
    e == Spurious(t) || (e.Move? && e.t < |s.pcs| && s.pcs[e.t] == Notify)
  }

  function WakeUps(t: Tid, s: State, events: seq<Event>): seq<Event> {
    Runs.Picked(Next, (s: State, e: Event) => Wakes(s, e, t), s, events)
  }

  lemma SleeperStays(s: State, e: Event, t: Tid)
    requires t < |s.pcs| && s.pcs[t] == Asleep
    ensures |Next(s, e).pcs| == |s.pcs| && Next(s, e).pcs[t] == if Wakes(s, e, t) then Woken else Asleep
  {
  }

  lemma {:induction false} SleepsOn(s: State, events: seq<Event>, t: Tid)
    requires t < |s.pcs| && s.pcs[t] == Asleep && WakeUps(t, s, events) == []
    ensures t < |Run(s, events).pcs| && Run(s, events).pcs[t] == Asleep
    decreases |events|
  {
    if events != [] {
      SleeperStays(s, events[0], t);
      SleepsOn(Next(s, events[0]), events[1..], t);
    }
  }

  /** A thread that tests too early gives the mutex up and sleeps until a broadcast or a chance wake-up. */
  lemma WaitsAsleep(threads: nat, before: seq<Event>, t: Tid, after: seq<Event>, u: Tid)
    requires var s := Run(Init(threads), before); t < |s.pcs| && s.pcs[t] == Test && u < |s.pcs| && !Arrived(s.pcs[u])
    requires WakeUps(t, Step(Run(Init(threads), before), t), after) == []
    ensures var s := Step(Run(Init(threads), before), t);
            s.mutex == None && t < |Run(s, after).pcs| && Run(s, after).pcs[t] == Asleep
  {
    InitInv(threads);
    RunInv(Init(threads), before);
    var s := Run(Init(threads), before);
    ArrivedBound(s, u);
    SleepsOn(Step(s, t), after, t);
  }

  // ---------------------------------------------------------------- everybody leaves

  /** The steps left once everybody has arrived. */
  function Remaining(pc: Pc): int {
    match pc
    case Enter => 7
    case Arrive => 6
    case Asleep => 5
    case Woken => 4
    case Test => 3
    case Notify => 2
    case Exit => 1
    case Left => 0
  }

  function Measure(s: State): int {
    Sum(s.pcs, Remaining)
  }

  /** After the last arrival every event that changes anything, a chance wake-up included, brings the end nearer. */
  lemma MeasureFalls(s: State, e: Event)
    requires Inv(s) && s.current == s.expected && Next(s, e) != s
    ensures Measure(Next(s, e)) < Measure(s)
  {
    var s' := Next(s, e);
    assert PcOk(s, e.t);
    ArrivedBound(s, e.t);
    forall u | 0 <= u < |s.pcs| && u != e.t ensures Remaining(s'.pcs[u]) <= Remaining(s.pcs[u]) {
      assert PcOk(s, u);
    }
    SumDrop(s.pcs, Remaining, s'.pcs, Remaining, e.t, 1, 0);
  }

  /** After the last arrival somebody can move until all have left. */
  lemma SomebodyMoves(s: State) returns (t: Tid)
    requires Inv(s) && s.current == s.expected && exists u :: 0 <= u < |s.pcs| && s.pcs[u] != Left
    ensures t < |s.pcs| && Step(s, t) != s
  {
    var u: Tid :| u < |s.pcs| && s.pcs[u] != Left;
    t := if s.mutex.Some? then s.mutex.value else u;
    assert PcOk(s, t) && PcOk(s, u);
    assert Step(s, t).pcs[t] != s.pcs[t];
  }

  predicate AllLeft(s: State) {
    forall t :: 0 <= t < |s.pcs| ==> s.pcs[t] == Left
  }

  function Effective(s: State, events: seq<Event>): nat {
    Runs.Effective(Next, s, events)
  }

  lemma NextKeepsFull(s: State, e: Event)
    requires Inv(s) && s.current == s.expected
    ensures Next(s, e).current == Next(s, e).expected == s.expected
  {
    if e.t < |s.pcs| {
      assert PcOk(s, e.t);
      ArrivedBound(s, e.t);
    }
  }

  /** After the last arrival at most five events for each thread change anything, whatever the schedule. */
  lemma {:induction false} LeavingIsBounded(s: State, events: seq<Event>)
    requires Inv(s) && s.current == s.expected
    ensures Effective(s, events) <= Measure(s) <= 5 * |s.pcs|
    decreases |events|
  {
    forall t | 0 <= t < |s.pcs| ensures 0 <= Remaining(s.pcs[t]) <= 5 {
      ArrivedBound(s, t);
    }
    SumAtLeast(s.pcs, Remaining, 0);
    var five := (pc: Pc) => 5;
    SumConstant(s.pcs, five, 5);
    SumDrop(s.pcs, five, s.pcs, Remaining, |s.pcs|, 0, 0);
    if events != [] {
      if Next(s, events[0]) != s { MeasureFalls(s, events[0]); }
      NextInv(s, events[0]);
      NextKeepsFull(s, events[0]);
      LeavingIsBounded(Next(s, events[0]), events[1..]);
    }
  }

  lemma {:induction false} Finish(s: State) returns (more: seq<Event>)
    requires Inv(s) && s.current == s.expected
    ensures AllLeft(Run(s, more))
    decreases Measure(s)
  {
    LeavingIsBounded(s, []);
    if AllLeft(s) {
      more := [];
    } else {
      var t := SomebodyMoves(s);
      MeasureFalls(s, Move(t));
      NextInv(s, Move(t));
      NextKeepsFull(s, Move(t));
      LeavingIsBounded(Next(s, Move(t)), []);
      var rest := Finish(Next(s, Move(t)));
      more := [Move(t)] + rest;
      assert more[1..] == rest;
    }
  }

  /** From the last arrival on every run can be completed, and no run can be kept from it by more than the bound. */
  lemma EverybodyLeaves(threads: nat, events: seq<Event>, after: seq<Event>)
    requires AllArrived(Run(Init(threads), events))
    ensures var s := Run(Init(threads), events);
            && Effective(s, after) <= 5 * threads
            && exists more :: AllLeft(Run(Run(s, after), more))
  {
    InitInv(threads);
    RunInv(Init(threads), events);
    var s := Run(Init(threads), events);
    AllArrivedIsFull(s);
    LeavingIsBounded(s, after);
    ThreadsKept(Init(threads), events);
    RunInv(s, after);
    RunKeepsFull(s, after);
    var more := Finish(Run(s, after));
  }

  lemma {:induction false} RunKeepsFull(s: State, events: seq<Event>)
    requires Inv(s) && s.current == s.expected
    ensures Run(s, events).current == Run(s, events).expected
    decreases |events|
  {
    if events != [] {
      NextInv(s, events[0]);
      NextKeepsFull(s, events[0]);
      RunKeepsFull(Next(s, events[0]), events[1..]);
    }
  }

  lemma {:induction false} ThreadsKept(s: State, events: seq<Event>)
    ensures |Run(s, events).pcs| == |s.pcs|
    decreases |events|
  {
    if events != [] {
      ThreadsKept(Next(s, events[0]), events[1..]);
    }
  }

  /** While the barrier is not full there is a thread that has not arrived. */
  lemma SomebodyIsMissing(s: State) returns (t: Tid)
    requires Inv(s) && s.current != s.expected
    ensures t < |s.pcs| && !Arrived(s.pcs[t]) && s.current < s.expected
  {
    if AllArrived(s) {
      AllArrivedIsFull(s);
    }
    t :| t < |s.pcs| && !Arrived(s.pcs[t]);
    ArrivedBound(s, t);
  }

  /** The thread to run next so that the barrier fills: the one in the monitor, else one that is missing. */
  lemma {:induction false} Fill(s: State) returns (more: seq<Event>)
    requires Inv(s) && s.current <= s.expected
    ensures Run(s, more).current == Run(s, more).expected
    decreases s.expected - s.current, if s.mutex == None then 1
              else if s.mutex.value < |s.pcs| && s.pcs[s.mutex.value] == Arrive then 0 else 2
  {
    if s.current == s.expected {
      more := [];
    } else {
      var missing := SomebodyIsMissing(s);
      var t: Tid := if s.mutex.Some? then s.mutex.value else missing;
      assert PcOk(s, t) && PcOk(s, missing);
      var s' := Next(s, Move(t));
      NextInv(s, Move(t));
      var rest := Fill(s');
      more := [Move(t)] + rest;
      assert more[1..] == rest;
    }
  }

  /** Every run, however it began, can be completed: all arrive and all leave. */
  lemma EveryRunCanFinish(threads: nat, events: seq<Event>)
    ensures exists more :: AllLeft(Run(Init(threads), events + more))
  {
    InitInv(threads);
    RunInv(Init(threads), events);
    var s := Run(Init(threads), events);
    if s.pcs != [] { ArrivedBound(s, 0); }
    var fill := Fill(s);
    RunInv(s, fill);
    var leave := Finish(Run(s, fill));
    Runs.RunAppend(Next, s, fill, leave);
    Runs.RunAppend(Next, Init(threads), events, fill + leave);
  }
}
