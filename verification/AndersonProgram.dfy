/**
 * The two Anderson locks in place: a ticket counter and an array of flags, and a counting client.
 * Each method takes one step of one thread, exactly the step of the transition system.
 * The closing methods run it to its end.
 */
module AndersonProgram {
  import opened Numbers
  import opened Slots
  import F = FifoLock
  import A = AndersonLock
  import B = AndersonTickets

  type Tid = F.Tid

  /** Only the first slot is open at the start. */
  method InitialFlags(capacity: Positive, open: int, closed: int) returns (flags: array<int>)
    ensures flags.Length == capacity && fresh(flags)
    ensures forall i :: 0 <= i < capacity ==> flags[i] == if i == 0 then open else closed
  {
    flags := new int[capacity];
    for i := 0 to capacity
      invariant forall k :: 0 <= k < i ==> flags[k] == closed
    {
      flags[i] := closed;
    }
    flags[0] := open;
  }

  /** The lock that stores the reduced slot, with 0 for an open flag. */
  class SlotLock {
    const sys: A.System
    const flags: array<int>
    var tail: nat
    var threads: seq<A.Thread>
    var shared: int
    /** The state of the abstract lock. */
    ghost var queue: F.State

    function Snapshot(): A.State
      reads `tail, `threads, `shared, flags
    {
      A.State(tail, flags[..], threads, shared)
    }

    ghost predicate Valid()
      reads this, flags
    {
      A.Enough(sys) && A.Represents(sys, Snapshot(), queue) && F.Inv(sys.client, queue)
    }

    predicate CanMove(t: Tid)
      reads `tail, `threads, `shared, flags
    {
      A.Step(sys, Snapshot(), t) != Snapshot()
    }

    constructor (sys: A.System)
      requires A.Enough(sys)
      ensures Valid() && this.sys == sys && fresh(flags)
      ensures Snapshot() == A.Init(sys)
    {
      this.sys := sys;
      tail := 0;
      threads := seq(sys.client.threads, _ => A.Thread(A.Start, 0, 0, F.NOTHING_DONE));
      shared := 0;
      var initial := InitialFlags(sys.capacity, 0, 1);
      flags := initial;
      queue := F.Init(sys.client);
      new;
      assert flags[..] == A.Init(sys).flags;
      assert Snapshot() == A.Init(sys);
      A.InitRepresents(sys);
      F.InitInv(sys.client);
    }

    method Lock(t: Tid)
      requires Valid() && t < |threads|
      requires threads[t].pc == A.Start || threads[t].pc == A.Spin
      modifies this
      ensures Valid() && Snapshot() == A.Step(sys, old(Snapshot()), t)
    {
      A.StepSimulates(sys, Snapshot(), queue, t);
      queue := A.AbstractStep(sys, Snapshot(), queue, t);
      var th := threads[t];
      if th.pc == A.Start {
        if th.work.rounds < sys.client.rounds {
          threads := threads[t := th.(pc := A.Spin, index := tail, slot := SlotOf(tail, sys.capacity))];
          tail := tail + 1;
        }
      } else if flags[SlotOf(th.index, sys.capacity)] != 1 {
        threads := threads[t := th.(pc := A.Ready)];
      }
    }

    /** The increment loop, its read and its write being two steps. */
    method Body(t: Tid)
      requires Valid() && t < |threads|
      requires threads[t].pc == A.Ready || threads[t].pc == A.Loaded
      modifies this
      ensures Valid() && Snapshot() == A.Step(sys, old(Snapshot()), t)
    {
      A.StepSimulates(sys, Snapshot(), queue, t);
      queue := A.AbstractStep(sys, Snapshot(), queue, t);
      var th := threads[t];
      if th.pc == A.Loaded {
        shared := th.work.reg + 1;
        threads := threads[t := th.(pc := A.Ready, work := F.Store(th.work))];
      } else if th.work.iters < sys.client.times {
        threads := threads[t := th.(pc := A.Loaded, work := F.Load(th.work, shared))];
      } else {
        threads := threads[t := th.(pc := A.Close)];
      }
    }

    method Unlock(t: Tid)
      requires Valid() && t < |threads|
      requires threads[t].pc == A.Close || threads[t].pc == A.Open
      modifies this, flags
      ensures Valid() && Snapshot() == A.Step(sys, old(Snapshot()), t)
    {
      ghost var before := Snapshot();
      A.StepSimulates(sys, before, queue, t);
      A.AtThread(sys, before, queue, t);
      queue := A.AbstractStep(sys, before, queue, t);
      var th := threads[t];
      if th.pc == A.Close {
        flags[th.slot] := 1;
        threads := threads[t := th.(pc := A.Open)];
      } else {
        flags[SlotOf(th.slot + 1, sys.capacity)] := 0;
        threads := threads[t := th.(pc := A.Start, work := F.EndRound(th.work))];
      }
      assert Snapshot() == A.Step(sys, before, t);
    }

    method Advance(t: Tid)
      requires Valid()
      modifies this, flags
      ensures Valid() && Snapshot() == A.Step(sys, old(Snapshot()), t)
    {
      if t < |threads| {
        match threads[t].pc
        case Start | Spin => Lock(t);
        case Ready | Loaded => Body(t);
        case Close | Open => Unlock(t);
      }
    }
  }

  /** The lock that stores the raw ticket, with 1 for an open flag. */
  class TicketLock {
    const sys: A.System
    const flags: array<int>
    var tail: nat
    var threads: seq<A.Thread>
    var shared: int
    /** The state of the other encoding, which this one stays in step with, and of the abstract lock. */
    ghost var slots: A.State
    ghost var queue: F.State

    function Snapshot(): A.State
      reads `tail, `threads, `shared, flags
    {
      A.State(tail, flags[..], threads, shared)
    }

    ghost predicate Valid()
      reads this, flags
    {
      && A.Enough(sys) && B.Corresponds(sys, slots, Snapshot())
      && A.Represents(sys, slots, queue) && F.Inv(sys.client, queue)
    }

    predicate CanMove(t: Tid)
      reads `tail, `threads, `shared, flags
    {
      B.Step(sys, Snapshot(), t) != Snapshot()
    }

    constructor (sys: A.System)
      requires A.Enough(sys)
      ensures Valid() && this.sys == sys && fresh(flags)
      ensures Snapshot() == B.Init(sys)
    {
      this.sys := sys;
      tail := 0;
      threads := seq(sys.client.threads, _ => A.Thread(A.Start, 0, 0, F.NOTHING_DONE));
      shared := 0;
      var initial := InitialFlags(sys.capacity, 1, 0);
      flags := initial;
      slots := A.Init(sys);
      queue := F.Init(sys.client);
      new;
      assert flags[..] == B.Init(sys).flags;
      assert Snapshot() == B.Init(sys);
      B.InitCorresponds(sys);
      A.InitRepresents(sys);
      F.InitInv(sys.client);
    }

    /** Both encodings and the abstract lock take the step. */
    ghost method StepAlong(t: Tid)
      requires Valid()
      modifies `slots, `queue
      ensures B.Corresponds(sys, slots, B.Step(sys, Snapshot(), t))
      ensures A.Represents(sys, slots, queue) && F.Inv(sys.client, queue)
      ensures slots == A.Step(sys, old(slots), t)
    {
      B.StepCorresponds(sys, slots, Snapshot(), t);
      A.StepSimulates(sys, slots, queue, t);
      queue := A.AbstractStep(sys, slots, queue, t);
      slots := A.Step(sys, slots, t);
    }

    method Lock(t: Tid)
      requires Valid() && t < |threads|
      requires threads[t].pc == A.Start || threads[t].pc == A.Spin
      modifies this
      ensures Valid() && Snapshot() == B.Step(sys, old(Snapshot()), t)
      ensures slots == A.Step(sys, old(slots), t)
    {
      StepAlong(t);
      var th := threads[t];
      if th.pc == A.Start {
        if th.work.rounds < sys.client.rounds {
          threads := threads[t := th.(pc := A.Spin, index := tail, slot := tail)];
          tail := tail + 1;
        }
      } else if flags[SlotOf(th.index, sys.capacity)] != 0 {
        threads := threads[t := th.(pc := A.Ready)];
      }
    }

    /** The increment loop, its read and its write being two steps. */
    method Body(t: Tid)
      requires Valid() && t < |threads|
      requires threads[t].pc == A.Ready || threads[t].pc == A.Loaded
      modifies this
      ensures Valid() && Snapshot() == B.Step(sys, old(Snapshot()), t)
      ensures slots == A.Step(sys, old(slots), t)
    {
      StepAlong(t);
      var th := threads[t];
      if th.pc == A.Loaded {
        shared := th.work.reg + 1;
        threads := threads[t := th.(pc := A.Ready, work := F.Store(th.work))];
      } else if th.work.iters < sys.client.times {
        threads := threads[t := th.(pc := A.Loaded, work := F.Load(th.work, shared))];
      } else {
        threads := threads[t := th.(pc := A.Close)];
      }
    }

    method Unlock(t: Tid)
      requires Valid() && t < |threads|
      requires threads[t].pc == A.Close || threads[t].pc == A.Open
      modifies this, flags
      ensures Valid() && Snapshot() == B.Step(sys, old(Snapshot()), t)
      ensures slots == A.Step(sys, old(slots), t)
    {
      ghost var before := Snapshot();
      StepAlong(t);
      var th := threads[t];
      if th.pc == A.Close {
        flags[SlotOf(th.slot, sys.capacity)] := 0;
        threads := threads[t := th.(pc := A.Open)];
      } else {
        flags[SlotOf(th.slot + 1, sys.capacity)] := 1;
        threads := threads[t := th.(pc := A.Start, work := F.EndRound(th.work))];
      }
      assert Snapshot() == B.Step(sys, before, t);
    }

    method Advance(t: Tid)
      requires Valid()
      modifies this, flags
      ensures Valid() && Snapshot() == B.Step(sys, old(Snapshot()), t)
      ensures slots == A.Step(sys, old(slots), t)
    {
      if t < |threads| {
        match threads[t].pc
        case Start | Spin => Lock(t);
        case Ready | Loaded => Body(t);
        case Close | Open => Unlock(t);
      } else {
        StepAlong(t);
      }
    }
  }

  /**
   * The whole program: while some thread can move, an arbitrary one of them does. It ends on every
   * choice of interleaving, and then every increment has been counted.
   */
  method CountWithSlots(sys: A.System) returns (total: int)
    requires A.Enough(sys)
    ensures total == sys.client.threads * sys.client.rounds * sys.client.times
  {
    var lock := new SlotLock(sys);
    while exists t: Tid :: t < sys.client.threads && lock.CanMove(t)
      invariant lock.Valid() && lock.sys == sys && fresh(lock) && fresh(lock.flags)
      decreases A.Measure(sys, lock.Snapshot())
    {
      var t: Tid :| t < sys.client.threads && lock.CanMove(t);
      A.EffectiveStepPays(sys, lock.Snapshot(), lock.queue, t);
      A.MeasureNonNegative(sys, lock.Snapshot(), lock.queue);
      lock.Advance(t);
    }
    ghost var s, a := lock.Snapshot(), lock.queue;
    if !A.AllDone(sys, s) {
      var t := A.SomeThreadCanMove(sys, s, a);
      assert lock.CanMove(t);
    }
    A.DoneTotal(sys, s, a);
    total := lock.shared;
  }

  /** The same for the other encoding, which ends because the first one does. */
  method CountWithTickets(sys: A.System) returns (total: int)
    requires A.Enough(sys)
    ensures total == sys.client.threads * sys.client.rounds * sys.client.times
  {
    var lock := new TicketLock(sys);
    while exists t: Tid :: t < sys.client.threads && lock.CanMove(t)
      invariant lock.Valid() && lock.sys == sys && fresh(lock) && fresh(lock.flags)
      decreases A.Measure(sys, lock.slots)
    {
      var t: Tid :| t < sys.client.threads && lock.CanMove(t);
      B.StepCorresponds(sys, lock.slots, lock.Snapshot(), t);
      A.EffectiveStepPays(sys, lock.slots, lock.queue, t);
      A.MeasureNonNegative(sys, lock.slots, lock.queue);
      lock.Advance(t);
    }
    ghost var s, a := lock.slots, lock.queue;
    if !A.AllDone(sys, s) {
      var t := A.SomeThreadCanMove(sys, s, a);
      B.StepCorresponds(sys, s, lock.Snapshot(), t);
      assert lock.CanMove(t);
    }
    A.DoneTotal(sys, s, a);
    total := lock.shared;
  }
}
