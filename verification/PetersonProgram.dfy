/**
 * Peterson's lock in place: two flags, victim, and two threads that count.
 * Each method takes one step of one thread, exactly the step of the transition system.
 * The closing method takes the steps of any schedule and reports what the run shows.
 */
module PetersonProgram {
  import F = FifoLock
  import L = PetersonLock

  type Tid = L.Tid

  /** Where a thread is in its code and in its counting. */
  datatype Registers = Registers(pc: L.Pc, work: F.Work)

  class Program {
    const cfg: L.Config
    const flags: array<bool>
    const threads: array<Registers>
    var victim: nat
    var shared: int

    function Thread(t: Tid): L.Thread
      requires t < flags.Length && t < threads.Length
      reads flags, threads
    {
      L.Thread(threads[t].pc, flags[t], threads[t].work)
    }

    predicate Shaped() {
      flags.Length == threads.Length == 2
    }

    function Snapshot(): L.State
      requires Shaped()
      reads this, flags, threads
    {
      L.State(Thread(0), Thread(1), victim, shared)
    }

    ghost predicate Valid()
      reads this, flags, threads
    {
      Shaped() && L.Inv(cfg, Snapshot()) && L.CountOk(cfg, Snapshot())
    }

    constructor (cfg: L.Config)
      ensures Valid() && this.cfg == cfg && Snapshot() == L.Init() && fresh(flags) && fresh(threads)
    {
      this.cfg := cfg;
      flags := new bool[2](_ => false);
      threads := new Registers[2](_ => Registers(L.Start, F.NOTHING_DONE));
      victim := 0;
      shared := 0;
    }

    method Lock(t: Tid)
      requires Valid() && t < 2
      requires threads[t].pc == L.Start || threads[t].pc == L.SetVictim || L.Waiting(Snapshot(), t)
      modifies this, flags, threads
      ensures Valid() && Snapshot() == L.Step(cfg, old(Snapshot()), t)
    {
      L.StepInv(cfg, Snapshot(), t);
      L.StepCount(cfg, Snapshot(), t);
      var r, other := threads[t], 1 - t;
      match r.pc
      case Start =>
        if r.work.rounds < cfg.rounds {
          flags[t] := true;
          threads[t] := r.(pc := L.SetVictim);
        }
      case SetVictim =>
        victim := t;
        threads[t] := r.(pc := L.ReadFlag);
      case ReadFlag =>
        threads[t] := r.(pc := if flags[other] then L.ReadVictim else L.Ready);
      case ReadVictim =>
        threads[t] := r.(pc := if victim == t then L.ReadFlag else L.Ready);
    }

    /** The increments, their read and their write being two steps, and then unlock. */
    method BodyAndUnlock(t: Tid)
      requires Valid() && t < 2 && L.Critical(Snapshot(), t)
      modifies this, flags, threads
      ensures Valid() && Snapshot() == L.Step(cfg, old(Snapshot()), t)
    {
      L.StepInv(cfg, Snapshot(), t);
      L.StepCount(cfg, Snapshot(), t);
      var r := threads[t];
      match r.pc
      case Ready =>
        if r.work.iters < cfg.times {
          threads[t] := r.(pc := L.Loaded, work := F.Load(r.work, shared));
        } else {
          threads[t] := r.(pc := L.ClearFlag);
        }
      case Loaded =>
        shared := r.work.reg + 1;
        threads[t] := r.(pc := L.Ready, work := F.Store(r.work));
      case ClearFlag =>
        flags[t] := false;
        threads[t] := r.(pc := L.Start, work := F.EndRound(r.work));
    }

    method Advance(t: Tid)
      requires Valid()
      modifies this, flags, threads
      ensures Valid() && Snapshot() == L.Step(cfg, old(Snapshot()), t)
    {
      if t < 2 {
        match threads[t].pc
        case Start | SetVictim | ReadFlag | ReadVictim => Lock(t);
        case Ready | Loaded | ClearFlag => BodyAndUnlock(t);
      }
    }
  }

  /** A run of the program on any schedule: the threads are never inside together, and no increment is lost. */
  method CountTogether(cfg: L.Config, schedule: seq<Tid>) returns (bothInside: bool, done: bool, total: int)
    ensures !bothInside
    ensures done <==> L.AllDone(cfg, L.Run(cfg, L.Init(), schedule))
    ensures done ==> total == 2 * cfg.rounds * cfg.times
  {
    var program := new Program(cfg);
    bothInside := false;
    var i := 0;
    while i < |schedule|
      invariant i <= |schedule| && program.Valid() && program.cfg == cfg && !bothInside
      invariant fresh(program) && fresh(program.flags) && fresh(program.threads)
      invariant L.Run(cfg, program.Snapshot(), schedule[i..]) == L.Run(cfg, L.Init(), schedule)
    {
      program.Advance(schedule[i]);
      bothInside := bothInside || (L.Critical(program.Snapshot(), 0) && L.Critical(program.Snapshot(), 1));
      i := i + 1;
    }
    done, total := L.AllDone(cfg, program.Snapshot()), program.shared;
  }
}
