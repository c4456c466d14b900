/** What every run of the reader/writer lock keeps, in both versions: true counters, and no lost wake-up. */
module ReadWriteCorrectness {
  import opened Sequences
  import opened Pointers
  import opened Tallies
  import opened ReadWriteLock

  /** 1 for a thread that holds the read lock, from the point where it leaves the monitor. */
  function HoldsRead(pc: Pc): int {
    if pc == Reading || pc == DropEnter(Read) then 1 else 0
  }

  function HoldsWrite(pc: Pc): int {
    if pc == Writing || pc == DropEnter(Write) then 1 else 0
  }

  function WaitsToWrite(pc: Pc): int {
    if pc == WriteAsleep || pc == WriteWoken then 1 else 0
  }

  /** With the mutex free the counters are the numbers of read holders, write holders and waiting writers. */
  lemma CountersAreReal(version: Version, threads: nat, events: seq<Event>)
    requires Run(version, Init(threads), events).mutex == None
    ensures var s := Run(version, Init(threads), events);
            && s.readers == Sum(s.pcs, HoldsRead)
            && s.writers == Sum(s.pcs, HoldsWrite)
            && s.pending == Sum(s.pcs, WaitsToWrite)
  {
    InitInv(threads);
    RunInv(version, Init(threads), events);
    RealTally(Run(version, Init(threads), events));
  }

  /** Nobody is in the monitor, so what the counters count of a thread is what it holds or waits for. */
  lemma RealWeight(s: State, t: Tid)
    requires PcsOk(s) && s.mutex == None && t < |s.pcs|
    ensures var pc := s.pcs[t]; var w := Weight(pc);
            w.readers == HoldsRead(pc) && w.writers == HoldsWrite(pc) && w.pending == WaitsToWrite(pc)
  {
    assert PcOk(s, t);
  }

  lemma RealTally(s: State)
    requires PcsOk(s) && s.mutex == None
    ensures var tally := TallyTo(s.pcs, Weight, |s.pcs|);
            && tally.readers == Sum(s.pcs, HoldsRead)
            && tally.writers == Sum(s.pcs, HoldsWrite)
            && tally.pending == Sum(s.pcs, WaitsToWrite)
  {
    forall t | 0 <= t < |s.pcs|
      ensures Weight(s.pcs[t]).readers == HoldsRead(s.pcs[t])
      ensures Weight(s.pcs[t]).writers == HoldsWrite(s.pcs[t])
      ensures Weight(s.pcs[t]).pending == WaitsToWrite(s.pcs[t])
    {
      RealWeight(s, t);
    }
    TallyIsSums(s.pcs, Weight, HoldsRead, HoldsWrite, WaitsToWrite, |s.pcs|);
  }

  predicate IsReading(s: State, t: Tid) {
    t < |s.pcs| && HoldsRead(s.pcs[t]) == 1
  }

  predicate IsWriting(s: State, t: Tid) {
    t < |s.pcs| && HoldsWrite(s.pcs[t]) == 1
  }

  /** A writer excludes everybody else, at every moment of every run. */
  lemma WriterExcludesAll(version: Version, threads: nat, events: seq<Event>, t: Tid, u: Tid)
    requires IsWriting(Run(version, Init(threads), events), t)
    requires IsReading(Run(version, Init(threads), events), u) || IsWriting(Run(version, Init(threads), events), u)
    ensures t == u
  {
    InitInv(threads);
    RunInv(version, Init(threads), events);
    var s := Run(version, Init(threads), events);
    TallyBounds(s.pcs, t);
    TallyBounds(s.pcs, u);
    if t != u {
      TallyChange(s.pcs, t, Outside);
      TallyBounds(s.pcs[t := Outside], u);
    }
  }

  /** The one shared unlock always releases the kind of hold that its caller has. */
  lemma UnlockReleasesOwnHold(version: Version, threads: nat, events: seq<Event>, t: Tid, choice: Tid)
    requires var s := Run(version, Init(threads), events); t < |s.pcs| && s.pcs[t].DropCount?
    ensures var s := Run(version, Init(threads), events);
            var s' := Step(version, s, t, choice);
            && s'.pending == s.pending
            && (s.pcs[t].hold == Read ==> s'.readers == s.readers - 1 && s'.writers == s.writers)
            && (s.pcs[t].hold == Write ==> s'.writers == s.writers - 1 == 0 && s'.readers == s.readers == 0)
  {
    InitInv(threads);
    RunInv(version, Init(threads), events);
    var s := Run(version, Init(threads), events);
    assert PcOk(s, t);
    DropCounters(version, s, t, choice);
    TallyBounds(s.pcs, t);
  }

  /** No reader is let in past a waiting writer. */
  lemma ReadersYieldToWriters(version: Version, threads: nat, events: seq<Event>, t: Tid)
    requires var s := Run(version, Init(threads), events); t < |s.pcs| && s.pcs[t] == ReadCount
    ensures var s := Run(version, Init(threads), events); s.pending == 0 && s.writers == 0
  {
    InitInv(threads);
    RunInv(version, Init(threads), events);
    assert PcOk(Run(version, Init(threads), events), t);
  }

  predicate AwakePending(s: State, t: Tid) {
    t < |s.pcs| && (s.pcs[t] == WriteWoken || s.pcs[t] == WriteTest || s.pcs[t] == WriteSettle)
  }

  lemma {:induction false} SomePendingAwake(s: State, k: nat := |s.pcs|) returns (t: Tid)
    requires k <= |s.pcs| && TallyTo(s.pcs, Weight, k).sleepingWriters < TallyTo(s.pcs, Weight, k).pending
    ensures AwakePending(s, t)
  {
    if AwakePending(s, k - 1) {
      t := k - 1;
    } else {
      t := SomePendingAwake(s, k - 1);
    }
  }

  /** No wake-up is lost, one signal at a time or all at once, with wake-ups for no reason thrown in. */
  lemma NoLostWakeUp(version: Version, threads: nat, events: seq<Event>)
    requires Run(version, Init(threads), events).mutex == None
    ensures var s := Run(version, Init(threads), events);
            && (s.readers == 0 && s.writers == 0 && s.pending > 0 ==> exists t :: AwakePending(s, t))
            && (s.writers == 0 && s.pending == 0 ==> forall t :: 0 <= t < |s.pcs| ==> s.pcs[t] != ReadAsleep)
  {
    InitInv(threads);
    RunInv(version, Init(threads), events);
    var s := Run(version, Init(threads), events);
    if s.readers == 0 && s.writers == 0 && s.pending > 0 {
      var t := SomePendingAwake(s);
      assert AwakePending(s, t);
    }
    if s.writers == 0 && s.pending == 0 {
      forall t | 0 <= t < |s.pcs| ensures s.pcs[t] != ReadAsleep {
        TallyBounds(s.pcs, t);
      }
    }
  }

  /** Wants the lock or is on its way out of it. */
  predicate Busy(pc: Pc) {
    pc != Outside && pc != Reading && pc != Writing
  }

  /** Whoever is in the monitor can go on. */
  lemma HolderCanMove(version: Version, s: State) returns (choice: Tid)
    requires Inv(s) && s.mutex.Some?
    ensures s.mutex.value < |s.pcs| && Step(version, s, s.mutex.value, choice) != s
  {
    assert PcOk(s, s.mutex.value);
    if t: Tid :| t < |s.pcs| && s.pcs[t] == WriteAsleep { choice := t; } else { choice := 0; }
    WokenPcs(version, s, choice, s.mutex.value);
    assert Step(version, s, s.mutex.value, choice).pcs[s.mutex.value] != s.pcs[s.mutex.value];
  }

  /**
   * No deadlock: while some thread has a call in progress and nobody holds the lock,
   * some thread can take a step of its own, without help from a client or a chance wake-up.
   */
  lemma SomebodyCanMove(version: Version, threads: nat, events: seq<Event>, t: Tid)
    requires var s := Run(version, Init(threads), events);
             t < |s.pcs| && Busy(s.pcs[t]) && s.readers == 0 && s.writers == 0
    ensures exists u: Tid, choice: Tid :: var s := Run(version, Init(threads), events);
              u < |s.pcs| && Step(version, s, u, choice) != s
  {
    InitInv(threads);
    RunInv(version, Init(threads), events);
    var s := Run(version, Init(threads), events);
    assert PcOk(s, t);
    if s.mutex.Some? {
      var choice := HolderCanMove(version, s);
    } else {
      NoLostWakeUp(version, threads, events);
      if s.pcs[t] == ReadAsleep || s.pcs[t] == WriteAsleep {
        TallyBounds(s.pcs, t);
        var u: Tid :| AwakePending(s, u);
        assert PcOk(s, u);
        assert Step(version, s, u, 0).mutex != s.mutex;
      } else {
        assert Step(version, s, t, 0).mutex != s.mutex;
      }
    }
  }

  /** So many steps of one thread in a row. */
  function Solo(version: Version, s: State, t: Tid, steps: nat): State
    decreases steps
  {
    if steps == 0 || t >= |s.pcs| then s else Solo(version, Step(version, s, t, 0), t, steps - 1)
  }

  predicate Held(s: State, t: Tid) {
    t < |s.pcs| && Weight(s.pcs[t]).readers + Weight(s.pcs[t]).writers == 1
  }

  lemma WriterSettles(version: Version, s: State, t: Tid)
    requires t < |s.pcs| && s.readers == 0 && s.writers == 0 && s.pcs[t] == WriteTest
    ensures Held(Solo(version, s, t, 3), t)
  {
    var s1 := Step(version, s, t, 0);
    var s2 := Step(version, s1, t, 0);
    assert Solo(version, s2, t, 1) == Step(version, s2, t, 0);
  }

  lemma WriterEntersAlone(version: Version, s: State, t: Tid) returns (steps: nat)
    requires t < |s.pcs| && s.mutex == None && s.readers == 0 && s.writers == 0
    requires s.pcs[t] == WriteEnter || s.pcs[t] == WriteWoken
    ensures Held(Solo(version, s, t, steps), t)
  {
    var s1 := Step(version, s, t, 0);
    if s.pcs[t] == WriteWoken {
      WriterSettles(version, s1, t);
      steps := 4;
    } else {
      WriterSettles(version, Step(version, s1, t, 0), t);
      assert Solo(version, s1, t, 4) == Solo(version, Step(version, s1, t, 0), t, 3);
      steps := 5;
    }
  }

  lemma ReaderEntersAlone(version: Version, s: State, t: Tid)
    requires t < |s.pcs| && s.mutex == None && s.writers == 0 && s.pending == 0
    requires s.pcs[t] == ReadEnter || s.pcs[t] == ReadWoken
    ensures Held(Solo(version, s, t, 3), t)
  {
    var s1 := Step(version, s, t, 0);
    var s2 := Step(version, s1, t, 0);
    assert Solo(version, s2, t, 1) == Step(version, s2, t, 0);
  }

  lemma DropperHolds(s: State, t: Tid)
    requires t < |s.pcs|
    ensures s.pcs[t].DropEnter? ==> Held(s, t)
  {
    if s.pcs[t].DropEnter? {
      match s.pcs[t].hold
      case Read => assert s.pcs[t] == DropEnter(Read);
      case Write => assert s.pcs[t] == DropEnter(Write);
    }
  }

  lemma SomeCallerEnters(version: Version, s: State, t: Tid) returns (u: Tid, steps: nat)
    requires PcOk(s, t) && Busy(s.pcs[t]) && !Held(s, t) && s.mutex == None && s.readers == 0 && s.writers == 0
    requires s.pending >= 0
    requires s.pending > 0 ==> exists v: Tid :: AwakePending(s, v) && PcOk(s, v)
    requires s.pending == 0 ==> s.pcs[t] != ReadAsleep && Weight(s.pcs[t]).pending == 0
    ensures !Held(s, u) && Held(Solo(version, s, u, steps), u)
  {
    if s.pending > 0 {
      u :| AwakePending(s, u) && PcOk(s, u);
      steps := WriterEntersAlone(version, s, u);
    } else if s.pcs[t] == WriteEnter {
      u := t;
      steps := WriterEntersAlone(version, s, u);
    } else {
      DropperHolds(s, t);
      u, steps := t, 3;
      ReaderEntersAlone(version, s, u);
    }
  }

  /** A free lock that somebody wants can be had: some caller gets it by its own steps alone. */
  lemma FreeLockCanBeTaken(version: Version, threads: nat, events: seq<Event>, t: Tid)
    requires var s := Run(version, Init(threads), events);
             t < |s.pcs| && Busy(s.pcs[t]) && s.mutex == None && s.readers == 0 && s.writers == 0
    ensures exists u: Tid, steps: nat :: var s := Run(version, Init(threads), events);
              !Held(s, u) && Held(Solo(version, s, u, steps), u)
  {
    InitInv(threads);
    RunInv(version, Init(threads), events);
    var s := Run(version, Init(threads), events);
    NoLostWakeUp(version, threads, events);
    assert PcOk(s, t);
    TallyBounds(s.pcs, t);
    if s.pending > 0 {
      var v: Tid :| AwakePending(s, v);
      assert PcOk(s, v);
    }
    var u, steps := SomeCallerEnters(version, s, t);
  }
}
