/**
 * The barrier in place: the arrival counter, changed by the threads' own steps.
 * Each method takes one step of one thread, exactly the step of the transition system.
 * The closing method takes any sequence of steps and chance wake-ups and reports what the run shows.
 */
module BarrierProgram {
  import opened Pointers
  import B = Barrier

  type Tid = B.Tid

  class Program {
    const expected: nat
    var current: int
    /** Who holds the mutex. */
    var mutex: Option<Tid>
    /** Where each thread is; who sleeps on the condition is part of that. */
    var pcs: seq<B.Pc>

    function Snapshot(): B.State
      reads this
    {
      B.State(expected, current, mutex, pcs)
    }

    ghost predicate Valid()
      reads this
    {
      B.Inv(Snapshot())
    }

    constructor (threads: nat)
      ensures Valid() && Snapshot() == B.Init(threads)
    {
      expected := threads;
      current := 0;
      mutex := None;
      pcs := seq(threads, _ => B.Enter);
      new;
      B.InitInv(threads);
    }

    method Go(t: Tid, pc: B.Pc)
      requires t < |pcs|
      modifies `pcs
      ensures pcs == old(pcs)[t := pc]
    {
      pcs := pcs[t := pc];
    }

    method TakeMutex(t: Tid, pc: B.Pc)
      requires t < |pcs|
      modifies `pcs, `mutex
      ensures old(mutex) == None ==> mutex == Some(t) && pcs == old(pcs)[t := pc]
      ensures old(mutex) != None ==> mutex == old(mutex) && pcs == old(pcs)
    {
      if mutex == None {
        mutex := Some(t);
        Go(t, pc);
      }
    }

    /** The thread's way through the barrier. */
    method Pass(t: Tid)
      requires Valid() && t < |pcs|
      modifies this
      ensures Valid() && Snapshot() == B.Step(old(Snapshot()), t)
    {
      B.StepInv(Snapshot(), t);
      match pcs[t]
      case Enter => TakeMutex(t, B.Arrive);
      case Arrive =>
        current := current + 1;
        Go(t, B.Test);
      case Test =>
        if current < expected {
          mutex := None;
          Go(t, B.Asleep);
        } else {
          Go(t, B.Notify);
        }
      case Woken => TakeMutex(t, B.Test);
      case Notify =>
        pcs := B.WakeAll(pcs);
        Go(t, B.Exit);
      case Exit =>
        mutex := None;
        Go(t, B.Left);
      case Asleep | Left =>
    }

    method Advance(e: B.Event)
      requires Valid()
      modifies this
      ensures Valid() && Snapshot() == B.Next(old(Snapshot()), e)
    {
      B.NextInv(Snapshot(), e);
      if e.t < |pcs| {
        match e
        case Move(t) => Pass(t);
        case Spurious(t) => Go(t, B.Wake(pcs[t]));
      }
    }
  }

  predicate SomebodyPast(s: B.State) {
    exists t :: 0 <= t < |s.pcs| && B.PastLoop(s.pcs[t])
  }

  /** A run of the barrier: at no moment is one thread past the loop while another has still to arrive. */
  method RunThreads(threads: nat, events: seq<B.Event>) returns (s: B.State, early: bool)
    ensures s == B.Run(B.Init(threads), events)
    ensures !early
  {
    var program := new Program(threads);
    early := false;
    var i := 0;
    while i < |events|
      invariant i <= |events| && program.Valid() && fresh(program) && !early
      invariant B.Run(program.Snapshot(), events[i..]) == B.Run(B.Init(threads), events)
    {
      program.Advance(events[i]);
      NobodyEarly(program.Snapshot());
      early := early || (SomebodyPast(program.Snapshot()) && !B.AllArrived(program.Snapshot()));
      i := i + 1;
    }
    s := program.Snapshot();
  }

  lemma NobodyEarly(s: B.State)
    requires B.Inv(s)
    ensures SomebodyPast(s) ==> B.AllArrived(s)
  {
    if t: Tid :| t < |s.pcs| && B.PastLoop(s.pcs[t]) {
      assert B.PcOk(s, t);
      forall u | 0 <= u < |s.pcs| ensures B.Arrived(s.pcs[u]) {
        B.ArrivedBound(s, u);
      }
    }
  }
}
