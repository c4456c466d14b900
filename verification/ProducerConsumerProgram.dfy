/**
 * The producers and consumers in place: the shared counter, changed by the threads' own steps.
 * Each method takes one step of one thread, exactly the step of the transition system.
 * The closing method takes any sequence of steps and chance wake-ups and reports what the run shows.
 */
module ProducerConsumerProgram {
  import opened Numbers
  import opened Pointers
  import P = ProducerConsumer

  type Tid = P.Tid

  class Program {
    const capacity: Positive
    var value: int
    /** Who holds the mutex. */
    var mutex: Option<Tid>
    /** Where each thread is; who sleeps on which condition is part of that. */
    var threads: seq<P.Thread>
    ghost var produced: nat
    ghost var consumed: nat

    ghost function Snapshot(): P.State
      reads this
    {
      P.State(value, mutex, threads, produced, consumed)
    }

    ghost predicate Valid()
      reads this
    {
      P.Inv(capacity, Snapshot())
    }

    constructor (capacity: Positive, roles: seq<P.Role>)
      ensures Valid() && this.capacity == capacity && Snapshot() == P.Init(roles)
    {
      this.capacity := capacity;
      value := 0;
      mutex := None;
      threads := seq(|roles|, i requires 0 <= i < |roles| => P.Thread(roles[i], P.Enter));
      produced := 0;
      consumed := 0;
      new;
      assert Snapshot() == P.Init(roles);
      P.InitInv(capacity, roles);
    }

    method Go(t: Tid, pc: P.Pc)
      requires t < |threads|
      modifies `threads
      ensures threads == old(threads)[t := old(threads)[t].(pc := pc)]
    {
      threads := threads[t := threads[t].(pc := pc)];
    }

    method TakeMutex(t: Tid)
      requires t < |threads|
      modifies `threads, `mutex
      ensures old(mutex) == None ==> mutex == Some(t) && threads == old(threads)[t := old(threads)[t].(pc := P.Test)]
      ensures old(mutex) != None ==> mutex == old(mutex) && threads == old(threads)
    {
      if mutex == None {
        mutex := Some(t);
        Go(t, P.Test);
      }
    }

    method Produce(t: Tid)
      requires Valid() && t < |threads| && threads[t].role == P.Producer && threads[t].pc != P.Asleep
      modifies this
      ensures Valid() && Snapshot() == P.Step(capacity, old(Snapshot()), t)
    {
      P.StepInv(capacity, Snapshot(), t);
      match threads[t].pc
      case Enter | Woken => TakeMutex(t);
      case Test =>
        if value >= capacity {
          mutex := None;
          Go(t, P.Asleep);
        } else {
          Go(t, P.Change);
        }
      case Change =>
        value, produced := value + 1, produced + 1;
        Go(t, P.Notify);
      case Notify =>
        threads := P.WakeAll(threads, P.Consumer);
        Go(t, P.Exit);
      case Exit =>
        mutex := None;
        Go(t, P.Enter);
    }

    method Consume(t: Tid)
      requires Valid() && t < |threads| && threads[t].role == P.Consumer && threads[t].pc != P.Asleep
      modifies this
      ensures Valid() && Snapshot() == P.Step(capacity, old(Snapshot()), t)
    {
      P.StepInv(capacity, Snapshot(), t);
      match threads[t].pc
      case Enter | Woken => TakeMutex(t);
      case Test =>
        if value <= 0 {
          mutex := None;
          Go(t, P.Asleep);
        } else {
          Go(t, P.Change);
        }
      case Change =>
        value, consumed := value - 1, consumed + 1;
        Go(t, P.Notify);
      case Notify =>
        threads := P.WakeAll(threads, P.Producer);
        Go(t, P.Exit);
      case Exit =>
        mutex := None;
        Go(t, P.Enter);
    }

    method Advance(e: P.Event)
      requires Valid()
      modifies this
      ensures Valid() && Snapshot() == P.Next(capacity, old(Snapshot()), e)
    {
      P.NextInv(capacity, Snapshot(), e);
      if e.t < |threads| {
        if e.Spurious? {
          threads := threads[e.t := P.WakeIf(threads[e.t], threads[e.t].role)];
        } else if threads[e.t].pc != P.Asleep {
          if threads[e.t].role == P.Producer {
            Produce(e.t);
          } else {
            Consume(e.t);
          }
        }
      }
    }
  }

  /** A run of the program: the counter never leaves its bounds. */
  method RunThreads(capacity: Positive, roles: seq<P.Role>, events: seq<P.Event>) returns (value: int, inBounds: bool)
    ensures inBounds && 0 <= value <= capacity
    ensures value == P.Run(capacity, P.Init(roles), events).value
  {
    var program := new Program(capacity, roles);
    inBounds := true;
    var i := 0;
    while i < |events|
      invariant i <= |events| && program.Valid() && fresh(program) && program.capacity == capacity && inBounds
      invariant P.Run(capacity, program.Snapshot(), events[i..]) == P.Run(capacity, P.Init(roles), events)
    {
      program.Advance(events[i]);
      inBounds := inBounds && 0 <= program.value <= capacity;
      i := i + 1;
    }
    value := program.value;
  }
}
