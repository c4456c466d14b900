/** What a call on the reader/writer lock gives its caller, and whom an unlock wakes. */
module ReadWriteCalls {
  import opened Pointers
  import opened Sequences
  import opened Tallies
  import Runs
  import opened ReadWriteLock
  import opened ReadWriteCorrectness

  // ---------------------------------------------------------------- a call keeps to its kind

  /** In a lock call of the given kind, or holding what it gave. */
  predicate InCall(pc: Pc, hold: Hold) {
    match pc
    case ReadEnter | ReadTest | ReadAsleep | ReadWoken | ReadCount | ReadExit | Reading => hold == Read
    case WriteEnter | WriteAnnounce | WriteTest | WriteAsleep => hold == Write
    case WriteWoken | WriteSettle | WriteCount | WriteExit | Writing => hold == Write
    case _ => false
  }

  /** Has the hold, and has not yet asked to give it back. */
  predicate Has(pc: Pc, hold: Hold) {
    if hold == Read then pc == ReadExit || pc == Reading else pc == WriteExit || pc == Writing
  }

  predicate Unlocking(pc: Pc) {
    pc.DropEnter? || pc.DropCount? || pc == DropWake || pc == DropExit
  }

  /** Nobody else does more to a thread than wake it. */
  lemma OthersOnlyWake(version: Version, s: State, e: Event, t: Tid)
    requires t < |s.pcs| && e.t != t
    ensures |Next(version, s, e).pcs| == |s.pcs|
    ensures var pc, pc' := s.pcs[t], Next(version, s, e).pcs[t];
            pc' == pc || (pc == ReadAsleep && pc' == ReadWoken) || (pc == WriteAsleep && pc' == WriteWoken)
  {
  }

  lemma OwnMoveStays(version: Version, s: State, t: Tid, choice: Tid, hold: Hold)
    requires t < |s.pcs| && InCall(s.pcs[t], hold)
    ensures var s' := Step(version, s, t, choice);
            |s'.pcs| == |s.pcs| && InCall(s'.pcs[t], hold) && (Has(s.pcs[t], hold) ==> Has(s'.pcs[t], hold))
  {
  }

  lemma CallStays(version: Version, s: State, e: Event, t: Tid, hold: Hold)
    requires t < |s.pcs| && InCall(s.pcs[t], hold) && e != AskDrop(t)
    ensures var s' := Next(version, s, e);
            |s'.pcs| == |s.pcs| && InCall(s'.pcs[t], hold) && (Has(s.pcs[t], hold) ==> Has(s'.pcs[t], hold))
  {
    if e.t != t {
      OthersOnlyWake(version, s, e, t);
    } else if e.Move? {
      OwnMoveStays(version, s, t, e.choice, hold);
    }
  }

  lemma {:induction false} CallRun(version: Version, s: State, events: seq<Event>, t: Tid, hold: Hold)
    requires t < |s.pcs| && InCall(s.pcs[t], hold) && AskDrop(t) !in events
    ensures var s' := Run(version, s, events);
            t < |s'.pcs| && InCall(s'.pcs[t], hold) && (Has(s.pcs[t], hold) ==> Has(s'.pcs[t], hold))
    decreases |events|
  {
    if events != [] {
      assert events[0] in events && forall e :: e in events[1..] ==> e in events;
      CallStays(version, s, events[0], t, hold);
      CallRun(version, Next(version, s, events[0]), events[1..], t, hold);
    }
  }

  /** A call gives no other kind of hold than the one asked for: until its unlock a thread stays with its kind. */
  lemma CallGivesItsKind(version: Version, s: State, t: Tid, hold: Hold, after: seq<Event>)
    requires t < |s.pcs| && s.pcs[t] == Outside && AskDrop(t) !in after
    ensures var asked := Next(version, s, if hold == Read then AskRead(t) else AskWrite(t));
            var s' := Run(version, asked, after);
            t < |s'.pcs| && InCall(s'.pcs[t], hold) && (Held(s', t) <==> Has(s'.pcs[t], hold))
  {
    CallRun(version, Next(version, s, if hold == Read then AskRead(t) else AskWrite(t)), after, t, hold);
  }

  /** On every run a thread that has the lock keeps it, and the kind it has, until it asks to give it back. */
  lemma HeldUntilDropped(version: Version, threads: nat, before: seq<Event>, t: Tid, after: seq<Event>)
    requires var s := Run(version, Init(threads), before); Held(s, t) && !Unlocking(s.pcs[t])
    requires AskDrop(t) !in after
    ensures var s, s' := Run(version, Init(threads), before), Run(version, Run(version, Init(threads), before), after);
            Held(s', t) && !Unlocking(s'.pcs[t]) && forall hold :: Has(s.pcs[t], hold) ==> Has(s'.pcs[t], hold)
  {
    var s := Run(version, Init(threads), before);
    CallRun(version, s, after, t, if Has(s.pcs[t], Read) then Read else Write);
  }

  // ---------------------------------------------------------------- a call that need not wait any more returns

  /** The own steps to the return of a call that is past its last test, or of an unlock. */
  function StepsLeft(pc: Pc): Option<nat> {
    match pc
    case Reading | Writing | Outside => Some(0)
    case ReadExit | WriteExit | DropExit => Some(1)
    case ReadCount | WriteCount | DropWake => Some(2)
    case WriteSettle | DropCount(_) => Some(3)
    case DropEnter(_) => Some(4)
    case _ => None
  }

  /** Still in the same lock call, or in the same unlock or outside after it. */
  predicate SameCall(pc: Pc, pc': Pc) {
    && (forall hold :: InCall(pc, hold) ==> InCall(pc', hold))
    && (Unlocking(pc) || pc == Outside ==> Unlocking(pc') || pc' == Outside)
  }

  predicate Asks(e: Event, t: Tid) {
    e == AskRead(t) || e == AskWrite(t) || e == AskDrop(t)
  }

  predicate OwnStep(version: Version, s: State, e: Event, t: Tid) {
    e.Move? && e.t == t && Next(version, s, e) != s
  }

  /** The steps of a run that thread `t` takes, leaving out those that it is kept from taking. */
  function OwnSteps(version: Version, t: Tid, s: State, events: seq<Event>): seq<Event> {
    Runs.Picked(Nexter(version), (s: State, e: Event) => OwnStep(version, s, e, t), s, events)
  }

  lemma OwnStepCounts(version: Version, s: State, t: Tid, choice: Tid)
    requires t < |s.pcs| && StepsLeft(s.pcs[t]).Some? && Step(version, s, t, choice) != s
    ensures var s' := Step(version, s, t, choice);
            && |s'.pcs| == |s.pcs| && StepsLeft(s'.pcs[t]).Some?
            && StepsLeft(s'.pcs[t]).value == StepsLeft(s.pcs[t]).value - 1
  {
  }

  lemma UnlockStays(version: Version, s: State, t: Tid, choice: Tid)
    requires t < |s.pcs| && (Unlocking(s.pcs[t]) || s.pcs[t] == Outside)
    ensures var s' := Step(version, s, t, choice);
            |s'.pcs| == |s.pcs| && (Unlocking(s'.pcs[t]) || s'.pcs[t] == Outside)
  {
  }

  lemma StepToReturn(version: Version, s: State, e: Event, t: Tid)
    requires t < |s.pcs| && StepsLeft(s.pcs[t]).Some? && !Asks(e, t)
    ensures var s' := Next(version, s, e);
            && |s'.pcs| == |s.pcs| && StepsLeft(s'.pcs[t]).Some? && SameCall(s.pcs[t], s'.pcs[t])
            && StepsLeft(s'.pcs[t]).value == StepsLeft(s.pcs[t]).value - (if OwnStep(version, s, e, t) then 1 else 0)
  {
    if e.t != t {
      OthersOnlyWake(version, s, e, t);
    } else if OwnStep(version, s, e, t) {
      OwnStepCounts(version, s, t, e.choice);
      forall hold | InCall(s.pcs[t], hold) ensures InCall(Next(version, s, e).pcs[t], hold) {
        OwnMoveStays(version, s, t, e.choice, hold);
      }
      if Unlocking(s.pcs[t]) || s.pcs[t] == Outside { UnlockStays(version, s, t, e.choice); }
    }
  }

  /** Every own step of such a call brings its return one step nearer, and nobody else's makes a difference. */
  lemma {:induction false} CallReturns(version: Version, s: State, events: seq<Event>, t: Tid)
    requires t < |s.pcs| && StepsLeft(s.pcs[t]).Some? && forall e :: e in events ==> !Asks(e, t)
    ensures var s' := Run(version, s, events);
            && t < |s'.pcs| && StepsLeft(s'.pcs[t]).Some? && SameCall(s.pcs[t], s'.pcs[t])
            && StepsLeft(s'.pcs[t]).value == StepsLeft(s.pcs[t]).value - |OwnSteps(version, t, s, events)|
    decreases |events|
  {
    if events != [] {
      assert events[0] in events && forall e :: e in events[1..] ==> e in events;
      StepToReturn(version, s, events[0], t);
      CallReturns(version, Next(version, s, events[0]), events[1..], t);
    }
  }

  /** An unlock that has the mutex always has a step to take, until it has returned and holds nothing. */
  lemma UnlockGoesOn(version: Version, s: State, t: Tid) returns (choice: Tid)
    requires t < |s.pcs| && Unlocking(s.pcs[t]) && (s.pcs[t].DropEnter? ==> s.mutex == None)
    ensures OwnStep(version, s, Move(t, choice), t)
  {
    if u: Tid :| u < |s.pcs| && s.pcs[u] == WriteAsleep { choice := u; } else { choice := 0; }
    var s' := Step(version, s, t, choice);
    assert s'.pcs[t] != s.pcs[t];
  }

  /** A holder of either kind that calls unlock is in it for four own steps, then outside, whatever happens between. */
  lemma UnlockTakesFourSteps(version: Version, s: State, t: Tid, after: seq<Event>)
    requires t < |s.pcs| && (s.pcs[t] == Reading || s.pcs[t] == Writing)
    requires forall e :: e in after ==> !Asks(e, t)
    ensures var s' := Run(version, Next(version, s, AskDrop(t)), after);
            var steps := |OwnSteps(version, t, Next(version, s, AskDrop(t)), after)|;
            && t < |s'.pcs| && (Unlocking(s'.pcs[t]) || s'.pcs[t] == Outside)
            && steps <= 4 && (s'.pcs[t] == Outside <==> steps == 4)
  {
    CallReturns(version, Next(version, s, AskDrop(t)), after, t);
  }

  // ---------------------------------------------------------------- whom a call waits for

  predicate WriterWaits(s: State, u: Tid) {
    u < |s.pcs| && WaitsToWrite(s.pcs[u]) == 1
  }

  /** A counter that counts nothing of any thread is zero. */
  lemma NothingCounted(pcs: seq<Pc>)
    ensures (forall i :: 0 <= i < |pcs| ==> Weight(pcs[i]).readers == 0) ==> TallyOf(pcs).readers == 0
    ensures (forall i :: 0 <= i < |pcs| ==> Weight(pcs[i]).writers == 0) ==> TallyOf(pcs).writers == 0
    ensures (forall i :: 0 <= i < |pcs| ==> Weight(pcs[i]).pending == 0) ==> TallyOf(pcs).pending == 0
  {
    var readers, writers, pending :=
      (pc: Pc) => Weight(pc).readers, (pc: Pc) => Weight(pc).writers, (pc: Pc) => Weight(pc).pending;
    TallyIsSums(pcs, Weight, readers, writers, pending, |pcs|);
    if forall i :: 0 <= i < |pcs| ==> Weight(pcs[i]).readers == 0 { SumConstant(pcs, readers, 0); }
    if forall i :: 0 <= i < |pcs| ==> Weight(pcs[i]).writers == 0 { SumConstant(pcs, writers, 0); }
    if forall i :: 0 <= i < |pcs| ==> Weight(pcs[i]).pending == 0 { SumConstant(pcs, pending, 0); }
  }

  lemma OutsideMonitor(s: State, t: Tid, u: Tid)
    requires PcsOk(s) && t < |s.pcs| && InMonitor(s.pcs[t]) && u < |s.pcs| && u != t
    ensures var w := Weight(s.pcs[u]);
            w.readers == HoldsRead(s.pcs[u]) && w.writers == HoldsWrite(s.pcs[u]) && w.pending == WaitsToWrite(s.pcs[u])
  {
    assert PcOk(s, t) && PcOk(s, u);
  }

  /** To a thread in the monitor, with nothing of its own counted, the counters show whether others hold the lock. */
  lemma CountersShowHolders(s: State, t: Tid)
    requires Inv(s) && t < |s.pcs| && InMonitor(s.pcs[t]) && HoldsRead(s.pcs[t]) == HoldsWrite(s.pcs[t]) == 0
    requires Weight(s.pcs[t]).readers == Weight(s.pcs[t]).writers == 0
    ensures s.readers > 0 <==> exists u :: IsReading(s, u)
    ensures s.writers > 0 <==> exists u :: IsWriting(s, u)
  {
    forall u: Tid | u < |s.pcs| && u != t
      ensures Weight(s.pcs[u]).readers == HoldsRead(s.pcs[u]) && Weight(s.pcs[u]).writers == HoldsWrite(s.pcs[u])
    {
      OutsideMonitor(s, t, u);
    }
    if u: Tid :| IsReading(s, u) { TallyBounds(s.pcs, u); }
    if u: Tid :| IsWriting(s, u) { TallyBounds(s.pcs, u); }
    forall i | 0 <= i < |s.pcs|
      ensures (forall u :: !IsReading(s, u)) ==> Weight(s.pcs[i]).readers == 0
      ensures (forall u :: !IsWriting(s, u)) ==> Weight(s.pcs[i]).writers == 0
    {
      assert !IsReading(s, i) ==> Weight(s.pcs[i]).readers == 0;
      assert !IsWriting(s, i) ==> Weight(s.pcs[i]).writers == 0;
    }
    NothingCounted(s.pcs);
  }

  /** And whether a writer waits. */
  lemma CountersShowWaiting(s: State, t: Tid)
    requires Inv(s) && t < |s.pcs| && InMonitor(s.pcs[t])
    requires Weight(s.pcs[t]).pending == WaitsToWrite(s.pcs[t]) == 0
    ensures s.pending > 0 <==> exists u :: WriterWaits(s, u)
  {
    forall u: Tid | u < |s.pcs| && u != t ensures Weight(s.pcs[u]).pending == WaitsToWrite(s.pcs[u]) {
      OutsideMonitor(s, t, u);
    }
    if u: Tid :| WriterWaits(s, u) {
      TallyBounds(s.pcs, u);
    } else {
      forall i | 0 <= i < |s.pcs| ensures Weight(s.pcs[i]).pending == 0 { assert !WriterWaits(s, i); }
      NothingCounted(s.pcs);
    }
  }

  /** On every run a reader that tests goes on if and only if no writer has the lock or waits; other readers may. */
  lemma ReaderWaitsIffWriter(version: Version, threads: nat, events: seq<Event>, t: Tid, choice: Tid)
    requires var s := Run(version, Init(threads), events); t < |s.pcs| && s.pcs[t] == ReadTest
    ensures var s := Run(version, Init(threads), events);
            Step(version, s, t, choice).pcs[t] ==
              if exists u :: IsWriting(s, u) || WriterWaits(s, u) then ReadAsleep else ReadCount
  {
    InitInv(threads);
    RunInv(version, Init(threads), events);
    CountersShowHolders(Run(version, Init(threads), events), t);
    CountersShowWaiting(Run(version, Init(threads), events), t);
  }

  /** On every run a writer that tests goes on if and only if nobody has the lock. */
  lemma WriterWaitsIffHeld(version: Version, threads: nat, events: seq<Event>, t: Tid, choice: Tid)
    requires var s := Run(version, Init(threads), events); t < |s.pcs| && s.pcs[t] == WriteTest
    ensures var s := Run(version, Init(threads), events);
            Step(version, s, t, choice).pcs[t] ==
              if exists u :: IsReading(s, u) || IsWriting(s, u) then WriteAsleep else WriteSettle
  {
    InitInv(threads);
    RunInv(version, Init(threads), events);
    CountersShowHolders(Run(version, Init(threads), events), t);
  }

  /** May this event wake the sleeper: the wake-up of somebody's unlock, or no reason at all? */
  predicate MayWake(s: State, e: Event, t: Tid) {
    e == Spurious(t) || (e.Move? && e.t < |s.pcs| && s.pcs[e.t] == DropWake)
  }

  function WakeUps(version: Version, t: Tid, s: State, events: seq<Event>): seq<Event> {
    Runs.Picked(Nexter(version), (s: State, e: Event) => MayWake(s, e, t), s, events)
  }

  lemma SleeperStays(version: Version, s: State, e: Event, t: Tid)
    requires t < |s.pcs| && (s.pcs[t] == ReadAsleep || s.pcs[t] == WriteAsleep) && !MayWake(s, e, t)
    ensures |Next(version, s, e).pcs| == |s.pcs| && Next(version, s, e).pcs[t] == s.pcs[t]
  {
  }

  /** A sleeper takes no step and leaves the mutex alone until it is woken. */
  lemma {:induction false} SleepsUntilWoken(version: Version, s: State, events: seq<Event>, t: Tid)
    requires t < |s.pcs| && (s.pcs[t] == ReadAsleep || s.pcs[t] == WriteAsleep)
    requires WakeUps(version, t, s, events) == []
    ensures var s' := Run(version, s, events); t < |s'.pcs| && s'.pcs[t] == s.pcs[t]
    decreases |events|
  {
    if events != [] {
      SleeperStays(version, s, events[0], t);
      SleepsUntilWoken(version, Next(version, s, events[0]), events[1..], t);
    }
  }

  // ---------------------------------------------------------------- whom an unlock wakes

  /** Only sleepers of one kind are woken by the step, and nobody else but its thread moves. */
  predicate WakesOnly(s: State, s': State, t: Tid, asleep: Pc, woken: Pc) {
    && |s'.pcs| == |s.pcs|
    && forall u :: 0 <= u < |s.pcs| && u != t ==>
         s'.pcs[u] == s.pcs[u] || (s.pcs[u] == asleep && s'.pcs[u] == woken)
  }

  predicate NobodyAt(s: State, pc: Pc) {
    forall u :: 0 <= u < |s.pcs| ==> s.pcs[u] != pc
  }

  /** On every run of the version that broadcasts, an unlock with a writer waiting leaves no writer asleep. */
  lemma BroadcastWakesAllWriters(threads: nat, events: seq<Event>, t: Tid, choice: Tid, u: Tid)
    requires var s := Run(Broadcast, Init(threads), events); t < |s.pcs| && s.pcs[t] == DropWake && WriterWaits(s, u)
    ensures var s := Run(Broadcast, Init(threads), events);
            var s' := Step(Broadcast, s, t, choice);
            s'.pcs[t] == DropExit && NobodyAt(s', WriteAsleep) && WakesOnly(s, s', t, WriteAsleep, WriteWoken)
  {
    InitInv(threads);
    RunInv(Broadcast, Init(threads), events);
    CountersShowWaiting(Run(Broadcast, Init(threads), events), t);
  }

  /** On every run of the version that signals, it wakes one sleeping writer if there is one, and any can be chosen. */
  lemma SignalWakesOneWriter(threads: nat, events: seq<Event>, t: Tid, choice: Tid, u: Tid)
    requires var s := Run(Signal, Init(threads), events); t < |s.pcs| && s.pcs[t] == DropWake && WriterWaits(s, u)
    requires var s := Run(Signal, Init(threads), events); choice < |s.pcs|
    ensures var s := Run(Signal, Init(threads), events);
            var s' := Step(Signal, s, t, choice);
            if s.pcs[choice] == WriteAsleep
            then s' == Go(Go(s, choice, WriteWoken), t, DropExit)
            else if NobodyAt(s, WriteAsleep) then s' == Go(s, t, DropExit)
            else s' == s
  {
    InitInv(threads);
    RunInv(Signal, Init(threads), events);
    var s := Run(Signal, Init(threads), events);
    CountersShowWaiting(s, t);
    assert s.pcs[choice] != WriteAsleep ==> s.pcs[choice := s.pcs[choice]] == s.pcs;
  }

  /** On every run of either version, an unlock with no writer waiting leaves no reader asleep. */
  lemma UnlockWakesAllReaders(version: Version, threads: nat, events: seq<Event>, t: Tid, choice: Tid)
    requires var s := Run(version, Init(threads), events);
             t < |s.pcs| && s.pcs[t] == DropWake && forall u :: !WriterWaits(s, u)
    ensures var s := Run(version, Init(threads), events);
            var s' := Step(version, s, t, choice);
            s'.pcs[t] == DropExit && NobodyAt(s', ReadAsleep) && WakesOnly(s, s', t, ReadAsleep, ReadWoken)
  {
    InitInv(threads);
    RunInv(version, Init(threads), events);
    CountersShowWaiting(Run(version, Init(threads), events), t);
  }
}
