/** Bounded producers and consumers: one counter under a mutex, with a condition variable for each side. */
module ProducerConsumer {
  import opened Numbers
  import opened Pointers
  import Runs

  type Tid = nat

  datatype Role = Producer | Consumer

  /** Waiting on a condition releases the mutex and falls asleep in one step; a sleeper may also wake for no reason. */
  datatype Pc =
    | Enter   // about to take the mutex
    | Test    // about to test the counter
    | Asleep  // waiting on its side's condition
    | Woken   // woken, before retaking the mutex
    | Change  // about to change the counter
    | Notify  // about to broadcast to the other side
    | Exit    // about to release the mutex

  datatype Thread = Thread(role: Role, pc: Pc)

  /** `produced` and `consumed` count the increments and decrements so far. */
  datatype State = State(value: int, mutex: Option<Tid>, threads: seq<Thread>, produced: nat, consumed: nat)

  /** A thread's own step, or a wake-up for no reason. */
  datatype Event = Move(t: Tid) | Spurious(t: Tid)

  function Init(roles: seq<Role>): State {
    State(0, None, seq(|roles|, i requires 0 <= i < |roles| => Thread(roles[i], Enter)), 0, 0)
  }

  function Go(s: State, t: Tid, pc: Pc): State
    requires t < |s.threads|
  {
    s.(threads := s.threads[t := s.threads[t].(pc := pc)])
  }

  function WakeIf(th: Thread, role: Role): Thread {
    if th.role == role && th.pc == Asleep then th.(pc := Woken) else th
  }

  function WakeAll(threads: seq<Thread>, role: Role): seq<Thread> {
    seq(|threads|, i requires 0 <= i < |threads| => WakeIf(threads[i], role))
  }

  function OtherSide(role: Role): Role {
    if role == Producer then Consumer else Producer
  }

  predicate MustWait(capacity: Positive, s: State, role: Role) {
    if role == Producer then s.value >= capacity else s.value <= 0
  }

  /** The next step of thread `t`; a thread that is asleep or kept from the mutex leaves the state as it is. */
  function Step(capacity: Positive, s: State, t: Tid): State
    requires t < |s.threads|
  {
    var role := s.threads[t].role;
    match s.threads[t].pc
    case Enter | Woken => if s.mutex == None then Go(s, t, Test).(mutex := Some(t)) else s
    case Test => if MustWait(capacity, s, role) then Go(s, t, Asleep).(mutex := None) else Go(s, t, Change)
    case Asleep => s
    case Change =>
      if role == Producer
      then Go(s, t, Notify).(value := s.value + 1, produced := s.produced + 1)
      else Go(s, t, Notify).(value := s.value - 1, consumed := s.consumed + 1)
    case Notify => Go(s.(threads := WakeAll(s.threads, OtherSide(role))), t, Exit)
    case Exit => Go(s, t, Enter).(mutex := None)
  }

  function Next(capacity: Positive, s: State, e: Event): State {
    if e.t >= |s.threads| then s else
      match e
      case Move(t) => Step(capacity, s, t)
      case Spurious(t) => s.(threads := s.threads[t := WakeIf(s.threads[t], s.threads[t].role)])
  }

  function Nexter(capacity: Positive): (State, Event) -> State {
    (s: State, e: Event) => Next(capacity, s, e)
  }

  function Run(capacity: Positive, s: State, events: seq<Event>): State {
    Runs.Run(Nexter(capacity), s, events)
  }

  // ---------------------------------------------------------------- invariant

  predicate InMonitor(pc: Pc) {
    pc == Test || pc == Change || pc == Notify || pc == Exit
  }

  /** Somebody is about to broadcast to the given side. */
  predicate Notifying(s: State, role: Role) {
    && s.mutex.Some? && s.mutex.value < |s.threads|
    && s.threads[s.mutex.value] == Thread(OtherSide(role), Notify)
  }

  predicate ThreadOk(capacity: Positive, s: State, t: Tid) {
    t < |s.threads| &&
    var th := s.threads[t];
    && (InMonitor(th.pc) <==> s.mutex == Some(t))
    && (th.pc == Change ==> !MustWait(capacity, s, th.role))
    && (th.pc == Asleep ==> MustWait(capacity, s, th.role) || Notifying(s, th.role))
  }

  predicate Inv(capacity: Positive, s: State) {
    && 0 <= s.value <= capacity
    && s.value == s.produced - s.consumed
    && (s.mutex.Some? ==> s.mutex.value < |s.threads|)
    && (forall t :: 0 <= t < |s.threads| ==> ThreadOk(capacity, s, t))
  }

  lemma InitInv(capacity: Positive, roles: seq<Role>)
    ensures Inv(capacity, Init(roles))
  {
    var s := Init(roles);
    forall t | 0 <= t < |s.threads| ensures ThreadOk(capacity, s, t) { }
  }

  lemma StepInv(capacity: Positive, s: State, t: Tid)
    requires Inv(capacity, s) && t < |s.threads|
    ensures Inv(capacity, Step(capacity, s, t))
  {
    var s' := Step(capacity, s, t);
    assert ThreadOk(capacity, s, t);
    forall u | 0 <= u < |s'.threads| ensures ThreadOk(capacity, s', u) {
      assert ThreadOk(capacity, s, u);
    }
  }

  lemma NextInv(capacity: Positive, s: State, e: Event)
    requires Inv(capacity, s)
    ensures Inv(capacity, Next(capacity, s, e))
  {
    if e.t < |s.threads| {
      match e
      case Move(t) => StepInv(capacity, s, t);
      case Spurious(t) =>
        var s' := Next(capacity, s, e);
        assert ThreadOk(capacity, s, t);
        forall u | 0 <= u < |s'.threads| ensures ThreadOk(capacity, s', u) {
          assert ThreadOk(capacity, s, u);
        }
    }
  }

  lemma {:induction false} RunInv(capacity: Positive, s: State, events: seq<Event>)
    requires Inv(capacity, s)
    ensures Inv(capacity, Run(capacity, s, events))
    decreases |events|
  {
    if events != [] {
      NextInv(capacity, s, events[0]);
      RunInv(capacity, Next(capacity, s, events[0]), events[1..]);
    }
  }

  // ---------------------------------------------------------------- what every run keeps

  /** Is this event the change that a thread of the given role makes to the counter? */
  predicate Changes(s: State, e: Event, role: Role) {
    e.Move? && e.t < |s.threads| && s.threads[e.t] == Thread(role, Change)
  }

  /** The increments, or the decrements, of a run: the changes by the threads of one role. */
  function ChangesBy(capacity: Positive, role: Role, s: State, events: seq<Event>): seq<Event> {
    Runs.Picked(Nexter(capacity), (s: State, e: Event) => Changes(s, e, role), s, events)
  }

  lemma ChangeOf(capacity: Positive, s: State, e: Event)
    ensures var s' := Next(capacity, s, e);
            var up, down := if Changes(s, e, Producer) then 1 else 0, if Changes(s, e, Consumer) then 1 else 0;
            s'.value == s.value + up - down && s'.produced == s.produced + up && s'.consumed == s.consumed + down
  {
  }

  lemma {:induction false} RunBalance(capacity: Positive, s: State, events: seq<Event>)
    ensures var s' := Run(capacity, s, events);
            var up, down := |ChangesBy(capacity, Producer, s, events)|, |ChangesBy(capacity, Consumer, s, events)|;
            s'.value == s.value + up - down && s'.produced == s.produced + up && s'.consumed == s.consumed + down
    decreases |events|
  {
    if events != [] {
      ChangeOf(capacity, s, events[0]);
      RunBalance(capacity, Next(capacity, s, events[0]), events[1..]);
    }
  }

  /** On every run the counter is the number of times a producer has changed it less the number a consumer has. */
  lemma ProducersRaiseConsumersLower(capacity: Positive, roles: seq<Role>, events: seq<Event>)
    ensures var s := Run(capacity, Init(roles), events);
            var up := |ChangesBy(capacity, Producer, Init(roles), events)|;
            var down := |ChangesBy(capacity, Consumer, Init(roles), events)|;
            s.value == up - down && s.produced == up && s.consumed == down
  {
    RunBalance(capacity, Init(roles), events);
  }

  /** The counter stays within its bounds and is what producers have added and consumers not yet taken. */
  lemma CounterIsBalance(capacity: Positive, roles: seq<Role>, events: seq<Event>)
    ensures var s := Run(capacity, Init(roles), events);
            && 0 <= s.value <= capacity && s.value == s.produced - s.consumed
            && s.produced == |ChangesBy(capacity, Producer, Init(roles), events)|
            && s.consumed == |ChangesBy(capacity, Consumer, Init(roles), events)|
  {
    InitInv(capacity, roles);
    RunInv(capacity, Init(roles), events);
    ProducersRaiseConsumersLower(capacity, roles, events);
  }

  /** The changes that one thread makes to the counter. */
  function ChangesOf(capacity: Positive, t: Tid, s: State, events: seq<Event>): seq<Event> {
    Runs.Picked(Nexter(capacity),
                (s: State, e: Event) => e == Move(t) && t < |s.threads| && s.threads[t].pc == Change, s, events)
  }

  /** The times that one thread gets to the end of its loop. */
  function PassesOf(capacity: Positive, t: Tid, s: State, events: seq<Event>): seq<Event> {
    Runs.Picked(Nexter(capacity),
                (s: State, e: Event) => e == Move(t) && t < |s.threads| && s.threads[t].pc == Exit, s, events)
  }

  /** 1 for a thread that has changed the counter in its present pass. */
  function HasChanged(s: State, t: Tid): int {
    if t < |s.threads| && (s.threads[t].pc == Notify || s.threads[t].pc == Exit) then 1 else 0
  }

  lemma PassOf(capacity: Positive, s: State, e: Event, t: Tid)
    ensures var changed := e == Move(t) && t < |s.threads| && s.threads[t].pc == Change;
            var passed := e == Move(t) && t < |s.threads| && s.threads[t].pc == Exit;
            HasChanged(Next(capacity, s, e), t)
              == HasChanged(s, t) + (if changed then 1 else 0) - (if passed then 1 else 0)
  {
  }

  lemma {:induction false} RunPasses(capacity: Positive, s: State, events: seq<Event>, t: Tid)
    ensures HasChanged(Run(capacity, s, events), t)
         == HasChanged(s, t) + |ChangesOf(capacity, t, s, events)| - |PassesOf(capacity, t, s, events)|
    decreases |events|
  {
    if events != [] {
      PassOf(capacity, s, events[0], t);
      RunPasses(capacity, Next(capacity, s, events[0]), events[1..], t);
    }
  }

  /** Each pass of a thread's loop changes the counter exactly once. */
  lemma OneChangeEachPass(capacity: Positive, roles: seq<Role>, events: seq<Event>, t: Tid)
    ensures var s := Run(capacity, Init(roles), events);
            |ChangesOf(capacity, t, Init(roles), events)|
              == |PassesOf(capacity, t, Init(roles), events)| + HasChanged(s, t)
  {
    RunPasses(capacity, Init(roles), events, t);
  }

  predicate Sleeps(s: State, t: Tid, role: Role) {
    t < |s.threads| && s.threads[t] == Thread(role, Asleep)
  }

  /** With the mutex free, producers sleep only on a full counter and consumers only on an empty one. */
  lemma SleepersHaveReason(capacity: Positive, roles: seq<Role>, events: seq<Event>, t: Tid)
    requires Run(capacity, Init(roles), events).mutex == None
    ensures Sleeps(Run(capacity, Init(roles), events), t, Producer) ==>
              Run(capacity, Init(roles), events).value == capacity
    ensures Sleeps(Run(capacity, Init(roles), events), t, Consumer) ==> Run(capacity, Init(roles), events).value == 0
  {
    InitInv(capacity, roles);
    RunInv(capacity, Init(roles), events);
    var s := Run(capacity, Init(roles), events);
    if t < |s.threads| { assert ThreadOk(capacity, s, t); }
  }

  /** Does this event wake the sleeper: a broadcast by the other side, or no reason at all? */
  predicate Wakes(s: State, e: Event, t: Tid) {
    t < |s.threads| &&
    (e == Spurious(t)
     || (e.Move? && e.t < |s.threads| && s.threads[e.t] == Thread(OtherSide(s.threads[t].role), Notify)))
  }

  function WakeUps(capacity: Positive, t: Tid, s: State, events: seq<Event>): seq<Event> {
    Runs.Picked(Nexter(capacity), (s: State, e: Event) => Wakes(s, e, t), s, events)
  }

  lemma SleeperStays(capacity: Positive, s: State, e: Event, t: Tid)
    requires t < |s.threads| && s.threads[t].pc == Asleep
    ensures var s' := Next(capacity, s, e);
            |s'.threads| == |s.threads| && s'.threads[t].pc == if Wakes(s, e, t) then Woken else Asleep
  {
  }

  /** An event takes a thread to where it retakes the mutex if and only if it wakes that thread from its sleep. */
  lemma OnlySleepersWake(capacity: Positive, s: State, e: Event, t: Tid)
    requires t < |s.threads| && s.threads[t].pc != Woken
    ensures Next(capacity, s, e).threads[t].pc == Woken <==> s.threads[t].pc == Asleep && Wakes(s, e, t)
  {
    if s.threads[t].pc == Asleep { SleeperStays(capacity, s, e, t); }
  }

  lemma {:induction false} SleepsOn(capacity: Positive, s: State, events: seq<Event>, t: Tid)
    requires t < |s.threads| && s.threads[t].pc == Asleep && WakeUps(capacity, t, s, events) == []
    ensures var s' := Run(capacity, s, events); t < |s'.threads| && s'.threads[t].pc == Asleep
    decreases |events|
  {
    if events != [] {
      SleeperStays(capacity, s, events[0], t);
      SleepsOn(capacity, Next(capacity, s, events[0]), events[1..], t);
    }
  }

  /** A thread that must wait gives the mutex up and sleeps until the other side broadcasts or it wakes by chance. */
  lemma WaitsAsleep(capacity: Positive, s: State, t: Tid, events: seq<Event>)
    requires t < |s.threads| && s.threads[t].pc == Test && MustWait(capacity, s, s.threads[t].role)
    requires WakeUps(capacity, t, Step(capacity, s, t), events) == []
    ensures Step(capacity, s, t).mutex == None
    ensures var s' := Run(capacity, Step(capacity, s, t), events); t < |s'.threads| && s'.threads[t].pc == Asleep
  {
    SleepsOn(capacity, Step(capacity, s, t), events, t);
  }

  /** The two sides are never asleep together while the mutex is free. */
  lemma NotBothSidesAsleep(capacity: Positive, roles: seq<Role>, events: seq<Event>, t: Tid, u: Tid)
    requires Run(capacity, Init(roles), events).mutex == None
    ensures var s := Run(capacity, Init(roles), events); !(Sleeps(s, t, Producer) && Sleeps(s, u, Consumer))
  {
    SleepersHaveReason(capacity, roles, events, t);
    SleepersHaveReason(capacity, roles, events, u);
  }

  lemma {:induction false} RolesKept(capacity: Positive, s: State, events: seq<Event>, t: Tid)
    requires t < |s.threads|
    ensures var s' := Run(capacity, s, events); |s'.threads| == |s.threads| && s'.threads[t].role == s.threads[t].role
    decreases |events|
  {
    if events != [] {
      RolesKept(capacity, Next(capacity, s, events[0]), events[1..], t);
    }
  }

  /** With at least one thread on each side some thread can always take a step of its own. */
  lemma NeverStuck(capacity: Positive, roles: seq<Role>, events: seq<Event>, p: Tid, c: Tid)
    requires p < |roles| && roles[p] == Producer && c < |roles| && roles[c] == Consumer
    ensures exists t: Tid :: var s := Run(capacity, Init(roles), events);
              t < |s.threads| && Step(capacity, s, t) != s
  {
    InitInv(capacity, roles);
    RunInv(capacity, Init(roles), events);
    var s := Run(capacity, Init(roles), events);
    RolesKept(capacity, Init(roles), events, p);
    RolesKept(capacity, Init(roles), events, c);
    var t: Tid := if s.mutex.Some? then s.mutex.value else if s.threads[p].pc == Asleep then c else p;
    assert ThreadOk(capacity, s, p) && ThreadOk(capacity, s, c) && ThreadOk(capacity, s, t);
    assert Step(capacity, s, t).threads[t] != s.threads[t];
  }

  /** Three steps of one thread in a row. */
  function Thrice(capacity: Positive, s: State, t: Tid): State
    requires t < |s.threads|
  {
    Step(capacity, Step(capacity, Step(capacity, s, t), t), t)
  }

  lemma AwakeThreadWorks(capacity: Positive, s: State, t: Tid)
    requires t < |s.threads| && s.mutex == None && (s.threads[t].pc == Enter || s.threads[t].pc == Woken)
    requires !MustWait(capacity, s, s.threads[t].role)
    ensures var s' := Thrice(capacity, s, t); s'.produced + s'.consumed == s.produced + s.consumed + 1
  {
  }

  /** With the mutex free, some thread can produce or consume by its own steps alone. */
  lemma SomebodyCanWork(capacity: Positive, roles: seq<Role>, events: seq<Event>, p: Tid, c: Tid)
    requires p < |roles| && roles[p] == Producer && c < |roles| && roles[c] == Consumer
    requires Run(capacity, Init(roles), events).mutex == None
    ensures exists t: Tid :: var s := Run(capacity, Init(roles), events);
              t < |s.threads| && var s' := Thrice(capacity, s, t); s'.produced + s'.consumed > s.produced + s.consumed
  {
    InitInv(capacity, roles);
    RunInv(capacity, Init(roles), events);
    var s := Run(capacity, Init(roles), events);
    RolesKept(capacity, Init(roles), events, p);
    RolesKept(capacity, Init(roles), events, c);
    var t: Tid := if s.value < capacity then p else c;
    assert ThreadOk(capacity, s, t);
    AwakeThreadWorks(capacity, s, t);
  }
}
