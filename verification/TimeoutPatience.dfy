/** How a wait for the timeout lock ends: with the lock, or without it once the patience is used up. */
module TimeoutPatience {
  import Runs
  import opened TimeoutLock
  import opened TimeoutCorrectness

  /** The events of one thread. */
  function Own(events: seq<Event>, t: Tid): seq<Event>
    decreases |events|
  {
    if events == [] then []
    else (if events[0].t == t then [events[0]] else []) + Own(events[1..], t)
  }

  lemma OwnFirst(events: seq<Event>, t: Tid)
    requires events != []
    ensures events[0].t != t ==> Own(events, t) == Own(events[1..], t)
    ensures events[0].t == t ==> Own(events, t) != [] && Own(events, t)[0] == events[0]
    ensures events[0].t == t ==> Own(events, t)[1..] == Own(events[1..], t)
  {
  }

  /** Nobody else changes where a thread is or what it waits on. */
  lemma OthersKeepThread(s: State, e: Event, t: Tid)
    requires t < |s.threads| && e.t != t
    ensures |Next(s, e).threads| == |s.threads| && Next(s, e).threads[t] == s.threads[t]
  {
  }

  lemma OwnKeepsSize(s: State, e: Event)
    ensures |Next(s, e).threads| == |s.threads|
  {
  }

  lemma PredsStay(s: State, e: Event)
    requires PredsOk(s)
    ensures PredsOk(Next(s, e))
  {
  }

  // ---------------------------------------------------------------- a wait that has lasted too long

  /** The last `n` of the events of a wait that ends with a timeout: a poll, the clock test, and two more steps. */
  function LastEvents(t: Tid, n: nat): seq<Event> {
    if n == 0 then [] else [if n == 3 then Timeout(t) else Move(t)] + LastEvents(t, n - 1)
  }

  lemma FirstOfLast(t: Tid, n: nat)
    requires n > 0
    ensures |LastEvents(t, n)| > 0 && LastEvents(t, n)[0] == (if n == 3 then Timeout(t) else Move(t))
    ensures LastEvents(t, n)[1..] == LastEvents(t, n - 1)
  {
  }

  /** Where a thread can be with so many of these events to come. */
  predicate Leaving(pc: Pc, n: nat) {
    || (n == 4 && pc == LoadPred)
    || (n == 3 && (pc == Clock || pc == Inside))
    || (n == 2 && (pc == GiveUp || pc == Inside))
    || (n == 1 && (pc == StoreGiveUp || pc == Abandoned || pc == Loaded))
    || (n == 0 && (pc == Abandoned || pc == Unlock))
  }

  lemma LeavingStep(s: State, t: Tid, n: nat)
    requires t < |s.threads| && 0 < n <= 4 && Leaving(s.threads[t].pc, n)
    requires PredOf(s, s.threads[t].wait) == Null || PredOf(s, s.threads[t].wait) == Available
    ensures Leaving(Next(s, if n == 3 then Timeout(t) else Move(t)).threads[t].pc, n - 1)
  {
  }

  lemma {:induction false} LeavingRun(s: State, t: Tid, n: nat, events: seq<Event>)
    requires PredsOk(s) && t < |s.threads| && n <= 4 && Leaving(s.threads[t].pc, n)
    requires Own(events, t) == LastEvents(t, n)
    ensures t < |Run(s, events).threads| && Leaving(Run(s, events).threads[t].pc, 0)
    decreases |events|
  {
    if events == [] {
      assert n == 0;
    } else {
      var e, rest := events[0], events[1..];
      OwnFirst(events, t);
      OwnKeepsSize(s, e);
      PredsStay(s, e);
      if e.t == t {
        FirstOfLast(t, n);
        LeavingStep(s, t, n);
        LeavingRun(Next(s, e), t, n - 1, rest);
      } else {
        OthersKeepThread(s, e, t);
        LeavingRun(Next(s, e), t, n, rest);
      }
    }
  }

  /** The number of own events that a waiter whose patience is used up still needs. */
  function EventsLeft(pc: Pc): nat {
    if pc == LoadPred then 4 else if pc == Clock then 3 else 2
  }

  /**
   * On every run, whatever the others do meanwhile: a waiter looks at the clock again after each poll, and once it
   * finds the patience used up it has returned without the lock, or has the lock, two own steps later.
   */
  lemma TimeoutEndsWait(threads: nat, before: seq<Event>, t: Tid, after: seq<Event>)
    requires Waiting(Run(Init(threads), before), t)
    requires var pc := Run(Init(threads), before).threads[t].pc; Own(after, t) == LastEvents(t, EventsLeft(pc))
    ensures var s := Run(Run(Init(threads), before), after);
            t < |s.threads| && (s.threads[t].pc == Abandoned || Holding(s, t))
  {
    RunPreds(Init(threads), before);
    var s := Run(Init(threads), before);
    LeavingRun(s, t, EventsLeft(s.threads[t].pc), after);
  }

  // ---------------------------------------------------------------- a wait that is long enough

  /** A thread that has made its leaving visible has returned, and stores no more. */
  predicate ShownIsFinal(s: State) {
    |s.pred| == |s.threads| &&
    forall u :: 0 <= u < |s.threads| ==> s.pred[u] == Available ==> Finished(s.threads[u])
  }

  lemma {:induction false} RunShown(s: State, events: seq<Event>)
    requires ShownIsFinal(s)
    ensures ShownIsFinal(Run(s, events))
    decreases |events|
  {
    if events != [] { RunShown(Next(s, events[0]), events[1..]); }
  }

  lemma ShownStays(s: State, e: Event, r: Ref)
    requires ShownIsFinal(s) && PredOf(s, r) == Available
    ensures ShownIsFinal(Next(s, e)) && PredOf(Next(s, e), r) == Available
  {
  }

  predicate Polling(pc: Pc) {
    pc == Clock || pc == LoadPred
  }

  lemma {:induction false} ShownRun(s: State, t: Tid, events: seq<Event>)
    requires ShownIsFinal(s) && t < |s.threads|
    requires Polling(s.threads[t].pc) ==> PredOf(s, s.threads[t].wait) == Available
    requires Own(events, t) == (match s.threads[t].pc
                                case Clock => [Move(t), Move(t)]
                                case LoadPred => [Move(t)]
                                case _ => [])
    requires Polling(s.threads[t].pc) || s.threads[t].pc == Inside
    ensures t < |Run(s, events).threads| && Run(s, events).threads[t].pc == Inside
    decreases |events|
  {
    if events != [] {
      var e := events[0];
      OwnFirst(events, t);
      OwnKeepsSize(s, e);
      if Polling(s.threads[t].pc) { ShownStays(s, e, s.threads[t].wait); }
      RunShown(s, [e]);
      Runs.RunOne(Next, s, e);
      if e.t != t { OthersKeepThread(s, e, t); }
      ShownRun(Next(s, e), t, events[1..]);
    }
  }

  /**
   * On every run, whatever the others do meanwhile: once the node that a waiter waits on shows AVAILABLE it does so
   * for good, and the waiter has the lock after its next poll, one clock test away at most.
   */
  lemma ReleaseEndsWait(threads: nat, before: seq<Event>, t: Tid, after: seq<Event>)
    requires var s := Run(Init(threads), before);
             t < |s.threads| && Polling(s.threads[t].pc) && PredOf(s, s.threads[t].wait) == Available
    requires var pc := Run(Init(threads), before).threads[t].pc;
             Own(after, t) == if pc == Clock then [Move(t), Move(t)] else [Move(t)]
    ensures var s := Run(Run(Init(threads), before), after); t < |s.threads| && s.threads[t].pc == Inside
  {
    RunShown(Init(threads), before);
    ShownRun(Run(Init(threads), before), t, after);
  }

  /** A waiter that is never told that its patience is used up does not give up. */
  lemma {:induction false} PatientStays(s: State, t: Tid, events: seq<Event>)
    requires t < |s.threads| && Timeout(t) !in events
    requires var pc := s.threads[t].pc; pc != GiveUp && pc != StoreGiveUp && pc != Abandoned
    ensures t < |Run(s, events).threads|
    ensures var pc := Run(s, events).threads[t].pc; pc != GiveUp && pc != StoreGiveUp && pc != Abandoned
    decreases |events|
  {
    if events != [] {
      assert events[0] in events && forall e :: e in events[1..] ==> e in events;
      OwnKeepsSize(s, events[0]);
      PatientStays(Next(s, events[0]), t, events[1..]);
    }
  }

  // ---------------------------------------------------------------- what a thread that leaves shows

  /** Where a call that is leaving returns: without the lock after a give-up, with it behind after an unlock. */
  function Returned(pc: Pc): Pc {
    if pc == GiveUp || pc == StoreGiveUp then Abandoned else Done
  }

  /** Has returned, and shows this for good. */
  predicate Shows(s: State, t: Tid, pc: Pc, shown: Ref) {
    t < |s.threads| && t < |s.pred| && s.threads[t].pc == pc && s.pred[t] == shown
  }

  lemma ShowsStill(s: State, e: Event, t: Tid, pc: Pc, shown: Ref)
    requires Shows(s, t, pc, shown) && (pc == Abandoned || pc == Done)
    ensures Shows(Next(s, e), t, pc, shown)
  {
  }

  lemma {:induction false} ShowsForGood(s: State, events: seq<Event>, t: Tid, pc: Pc, shown: Ref)
    requires Shows(s, t, pc, shown) && (pc == Abandoned || pc == Done)
    ensures Shows(Run(s, events), t, pc, shown)
    decreases |events|
  {
    if events != [] {
      ShowsStill(s, events[0], t, pc, shown);
      ShowsForGood(Next(s, events[0]), events[1..], t, pc, shown);
    }
  }

  lemma {:induction false} StoresAvailable(s: State, events: seq<Event>, t: Tid)
    requires t < |s.threads| == |s.pred| && Pending(s, t) && Move(t) in events
    ensures Shows(Run(s, events), t, Returned(s.threads[t].pc), Available)
    decreases |events|
  {
    var e := events[0];
    OwnKeepsSize(s, e);
    if e == Move(t) {
      ShowsForGood(Next(s, e), events[1..], t, Returned(s.threads[t].pc), Available);
    } else {
      StoresAvailable(Next(s, e), events[1..], t);
    }
  }

  lemma {:induction false} RunNullWhileQueued(s: State, events: seq<Event>)
    requires |s.pred| == |s.threads|
    requires forall t :: 0 <= t < |s.threads| ==> Queued(s, t) || s.threads[t].pc == Swap ==> s.pred[t] == Null
    ensures |Run(s, events).pred| == |Run(s, events).threads| == |s.threads|
    ensures forall t :: 0 <= t < |s.threads| ==>
              Queued(Run(s, events), t) || Run(s, events).threads[t].pc == Swap ==> Run(s, events).pred[t] == Null
    decreases |events|
  {
    if events != [] { RunNullWhileQueued(Next(s, events[0]), events[1..]); }
  }

  /**
   * On every run, for a give-up and for an unlock alike: a thread that is still the tail returns with its swap and
   * never shows AVAILABLE; any other stores it with its next step, returns and shows it for good.
   */
  lemma LeaverShows(threads: nat, before: seq<Event>, t: Tid, after: seq<Event>)
    requires var s := Run(Init(threads), before);
             t < |s.threads| && (s.threads[t].pc == GiveUp || s.threads[t].pc == Unlock)
    requires Run(Init(threads), before).tail == Node(t) || Move(t) in after
    ensures var s := Run(Init(threads), before);
            Shows(Run(Step(s, t), after), t, Returned(s.threads[t].pc), if s.tail == Node(t) then Null else Available)
  {
    RunNullWhileQueued(Init(threads), before);
    var s := Run(Init(threads), before);
    if s.tail == Node(t) {
      ShowsForGood(Step(s, t), after, t, Returned(s.threads[t].pc), Null);
    } else {
      StoresAvailable(Step(s, t), after, t);
    }
  }
}
