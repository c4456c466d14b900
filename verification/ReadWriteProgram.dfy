/**
 * The reader/writer lock in place: the fields of the lock, changed by the threads' own steps, for both versions.
 * Each method takes one step of one thread, exactly the step of the transition system.
 * The closing method takes any sequence of steps, client calls and chance wake-ups and reports what the run shows.
 */
module ReadWriteProgram {
  import opened Sequences
  import opened Pointers
  import Runs
  import L = ReadWriteLock
  import C = ReadWriteCorrectness

  type Tid = L.Tid

  class Lock {
    const version: L.Version
    var readers: int
    var writers: int
    var pendingWriters: int
    /** Who holds the mutex. */
    var mutex: Option<Tid>
    /** Where each thread is; who sleeps on which condition is part of that. */
    var pcs: seq<L.Pc>
    /** What has happened so far. */
    ghost var events: seq<L.Event>

    function Snapshot(): L.State
      reads this
    {
      L.State(readers, writers, pendingWriters, mutex, pcs)
    }

    /** The state is one that a run of the transition system reaches. */
    ghost predicate Valid()
      reads this
    {
      Snapshot() == L.Run(version, L.Init(|pcs|), events)
    }

    constructor (version: L.Version, threads: nat)
      ensures Valid() && this.version == version && Snapshot() == L.Init(threads)
    {
      this.version := version;
      readers := 0;
      writers := 0;
      pendingWriters := 0;
      mutex := None;
      pcs := seq(threads, _ => L.Outside);
      events := [];
    }

    /** The event is the next one of the run. */
    ghost method Record(e: L.Event)
      requires Valid()
      modifies `events
      ensures L.Next(version, Snapshot(), e) == L.Run(version, L.Init(|pcs|), events)
    {
      Runs.RunAppend(L.Nexter(version), L.Init(|pcs|), events, [e]);
      Runs.RunOne(L.Nexter(version), Snapshot(), e);
      events := events + [e];
    }

    method Go(t: Tid, pc: L.Pc)
      requires t < |pcs|
      modifies `pcs
      ensures pcs == old(pcs)[t := pc]
    {
      pcs := pcs[t := pc];
    }

    method TakeMutex(t: Tid, pc: L.Pc)
      requires t < |pcs|
      modifies `pcs, `mutex
      ensures Snapshot() == L.Lock(old(Snapshot()), t, pc)
    {
      if mutex == None {
        mutex := Some(t);
        Go(t, pc);
      }
    }

    /** Also the first half of a wait: the mutex is released and the thread falls asleep in one step. */
    method ReleaseMutex(t: Tid, pc: L.Pc)
      requires t < |pcs|
      modifies `pcs, `mutex
      ensures Snapshot() == L.Unlock(old(Snapshot()), t, pc)
    {
      mutex := None;
      Go(t, pc);
    }

    method ReadLock(t: Tid)
      requires Valid() && t < |pcs|
      requires pcs[t] == L.ReadEnter || pcs[t] == L.ReadTest || pcs[t] == L.ReadWoken
            || pcs[t] == L.ReadCount || pcs[t] == L.ReadExit
      modifies this
      ensures Valid() && Snapshot() == L.Step(version, old(Snapshot()), t, 0)
    {
      ghost var before := Snapshot();
      Record(L.Move(t, 0));
      match pcs[t]
      case ReadEnter | ReadWoken => TakeMutex(t, L.ReadTest);
      case ReadTest =>
        if writers > 0 || pendingWriters > 0 {
          ReleaseMutex(t, L.ReadAsleep);
        } else {
          Go(t, L.ReadCount);
        }
      case ReadCount =>
        readers := readers + 1;
        Go(t, L.ReadExit);
      case ReadExit => ReleaseMutex(t, L.Reading);
      assert Snapshot() == L.Step(version, before, t, 0);
    }

    method WriteLock(t: Tid)
      requires Valid() && t < |pcs|
      requires pcs[t] == L.WriteEnter || pcs[t] == L.WriteAnnounce || pcs[t] == L.WriteTest || pcs[t] == L.WriteWoken
            || pcs[t] == L.WriteSettle || pcs[t] == L.WriteCount || pcs[t] == L.WriteExit
      modifies this
      ensures Valid() && Snapshot() == L.Step(version, old(Snapshot()), t, 0)
    {
      ghost var before := Snapshot();
      Record(L.Move(t, 0));
      match pcs[t]
      case WriteEnter => TakeMutex(t, L.WriteAnnounce);
      case WriteWoken => TakeMutex(t, L.WriteTest);
      case WriteAnnounce =>
        pendingWriters := pendingWriters + 1;
        Go(t, L.WriteTest);
      case WriteTest =>
        if readers > 0 || writers > 0 {
          ReleaseMutex(t, L.WriteAsleep);
        } else {
          Go(t, L.WriteSettle);
        }
      case WriteSettle =>
        pendingWriters := pendingWriters - 1;
        Go(t, L.WriteCount);
      case WriteCount =>
        writers := 1;
        Go(t, L.WriteExit);
      case WriteExit => ReleaseMutex(t, L.Writing);
      assert Snapshot() == L.Step(version, before, t, 0);
    }

    /** The one unlock for both kinds of hold, except for its wake-up. */
    method Unlock(t: Tid)
      requires Valid() && t < |pcs|
      requires pcs[t].DropEnter? || pcs[t].DropCount? || pcs[t] == L.DropExit
      modifies this
      ensures Valid() && Snapshot() == L.Step(version, old(Snapshot()), t, 0)
    {
      ghost var before := Snapshot();
      Record(L.Move(t, 0));
      match pcs[t]
      case DropEnter(hold) => TakeMutex(t, L.DropCount(hold));
      case DropCount(_) =>
        if readers > 0 {
          readers := readers - 1;
        } else if writers > 0 {
          writers := 0;
        }
        Go(t, L.DropWake);
      case DropExit => ReleaseMutex(t, L.Outside);
      assert Snapshot() == L.Step(version, before, t, 0);
    }

    /** The wake-up before it releases the mutex; `choice` is the writer that a signal would wake. */
    method WakeOthers(t: Tid, choice: Tid)
      requires Valid() && t < |pcs| && pcs[t] == L.DropWake
      modifies this
      ensures Valid() && Snapshot() == L.Step(version, old(Snapshot()), t, choice)
    {
      ghost var before := Snapshot();
      Record(L.Move(t, choice));
      if pendingWriters <= 0 {
        pcs := L.WakeAllReaders(pcs);
        Go(t, L.DropExit);
      } else if version == L.Broadcast {
        pcs := L.WakeAllWriters(pcs);
        Go(t, L.DropExit);
      } else if L.ValidChoice(Snapshot(), choice) {
        if choice < |pcs| {
          Go(choice, L.WakeWriter(pcs[choice]));
        }
        Go(t, L.DropExit);
      }
      assert Snapshot() == L.Step(version, before, t, choice);
    }

    method Advance(e: L.Event)
      requires Valid()
      modifies this
      ensures Valid() && Snapshot() == L.Next(version, old(Snapshot()), e)
    {
      if e.t < |pcs| {
        match e
        case Move(t, choice) =>
          match pcs[t] {
            case Outside | ReadAsleep | Reading | WriteAsleep | Writing =>
            case ReadEnter | ReadTest | ReadWoken | ReadCount | ReadExit => ReadLock(t);
            case WriteEnter | WriteAnnounce | WriteTest | WriteWoken
               | WriteSettle | WriteCount | WriteExit => WriteLock(t);
            case DropEnter(_) | DropCount(_) | DropExit => Unlock(t);
            case DropWake => WakeOthers(t, choice);
          }
        case AskRead(_) | AskWrite(_) | AskDrop(_) | Spurious(_) => Ask(e);
      }
    }

    /** A client's call, or a wake-up for no reason. */
    method Ask(e: L.Event)
      requires Valid() && e.t < |pcs| && !e.Move?
      modifies this
      ensures Valid() && Snapshot() == L.Next(version, old(Snapshot()), e)
    {
      Record(e);
      match e
      case AskRead(t) => if pcs[t] == L.Outside { Go(t, L.ReadEnter); }
      case AskWrite(t) => if pcs[t] == L.Outside { Go(t, L.WriteEnter); }
      case AskDrop(t) =>
        if pcs[t] == L.Reading { Go(t, L.DropEnter(L.Read)); }
        else if pcs[t] == L.Writing { Go(t, L.DropEnter(L.Write)); }
      case Spurious(t) => Go(t, L.WakeReader(L.WakeWriter(pcs[t])));
    }
  }

  /** A run of the lock under any clients: when the mutex is free at its end, the fields say who holds and who waits. */
  method RunThreads(version: L.Version, threads: nat, events: seq<L.Event>) returns (s: L.State)
    ensures s == L.Run(version, L.Init(threads), events)
    ensures s.mutex == None ==>
      && s.readers == Sum(s.pcs, C.HoldsRead)
      && s.writers == Sum(s.pcs, C.HoldsWrite)
      && s.pending == Sum(s.pcs, C.WaitsToWrite)
    ensures s.writers == 0 || s.readers == 0
  {
    var lock := new Lock(version, threads);
    var i := 0;
    while i < |events|
      invariant i <= |events| && lock.Valid() && fresh(lock) && lock.version == version
      invariant L.Run(version, lock.Snapshot(), events[i..]) == L.Run(version, L.Init(threads), events)
    {
      lock.Advance(events[i]);
      i := i + 1;
    }
    s := lock.Snapshot();
    L.InitInv(threads);
    L.RunInv(version, L.Init(threads), events);
    if s.mutex == None {
      C.CountersAreReal(version, threads, events);
    }
  }
}
