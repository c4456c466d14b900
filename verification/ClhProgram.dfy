/**
 * The CLH lock in place: a node object allocated for every acquisition, and a counting client.
 * Each method takes one step of one thread, exactly the step of the transition system.
 * The closing method runs it to its end.
 */
module ClhProgram {
  import opened Pointers
  import Runs
  import F = FifoLock
  import L = ClhLock
  import C = ClhCorrectness

  type Tid = F.Tid

  /** `id` is the node's number in the order of allocation. */
  class Node {
    const id: nat
    var flag: int

    constructor (id: nat, flag: int)
      ensures this.id == id && this.flag == flag
    {
      this.id := id;
      this.flag := flag;
    }
  }

  /** Where a thread is and what its thread-local slots hold. */
  datatype Registers = Registers(pc: L.Pc, my: Node?, pre: Node?, work: F.Work)

  function Name(n: Node?): Option<nat> {
    if n == null then None else Some(n.id)
  }

  function FlagValues(nodes: seq<Node>): seq<int>
    reads nodes
  {
    seq(|nodes|, i requires 0 <= i < |nodes| reads nodes => nodes[i].flag)
  }

  function ThreadValue(r: Registers): L.Thread {
    L.Thread(r.pc, Name(r.my), Name(r.pre), r.work)
  }

  function ThreadValues(threads: seq<Registers>): seq<L.Thread> {
    seq(|threads|, i requires 0 <= i < |threads| => ThreadValue(threads[i]))
  }

  class Program {
    const cfg: F.Config
    /** What freshly allocated memory holds. */
    const junk: int
    /** Every node allocated so far. */
    var nodes: seq<Node>
    var tail: Node
    var threads: seq<Registers>
    var shared: int
    /** The threads that have taken the steps so far. */
    ghost var schedule: seq<Tid>

    function Snapshot(): L.State
      reads `tail, `nodes, `threads, `shared, nodes
    {
      L.State(tail.id, FlagValues(nodes), ThreadValues(threads), shared, junk)
    }

    /** A pointer is NULL or points to an allocated node. */
    predicate Known(n: Node?)
      reads `nodes
    {
      n != null ==> n.id < |nodes| && nodes[n.id] == n
    }

    predicate Shaped()
      reads `tail, `nodes, `threads
    {
      && |threads| == cfg.threads
      && (forall i :: 0 <= i < |nodes| ==> nodes[i].id == i)
      && Known(tail)
      && (forall t :: 0 <= t < |threads| ==> Known(threads[t].my) && Known(threads[t].pre))
    }

    /** The state is one that a run of the transition system reaches. */
    ghost predicate Valid()
      reads this, nodes
    {
      Shaped() && Snapshot() == L.Run(cfg, L.Init(cfg, junk), schedule)
    }

    predicate CanMove(t: Tid)
      reads `tail, `nodes, `threads, `shared, nodes
    {
      L.Step(cfg, Snapshot(), t) != Snapshot()
    }

    constructor (cfg: F.Config, junk: int)
      ensures Valid() && this.cfg == cfg && this.junk == junk && fresh(nodes)
      ensures Snapshot() == L.Init(cfg, junk)
    {
      this.cfg := cfg;
      this.junk := junk;
      var first := new Node(0, 0);
      nodes := [first];
      tail := first;
      threads := seq(cfg.threads, _ => Registers(L.Start, null, null, F.NOTHING_DONE));
      shared := 0;
      schedule := [];
      new;
      assert Snapshot() == L.Init(cfg, junk);
    }

    // ---------------------------------------------------------------- atomic stores

    method StoreFlag(n: Node, value: int)
      requires Shaped() && Known(n)
      modifies n
      ensures Shaped()
      ensures Snapshot() == old(Snapshot()).(flags := L.SetFlagOf(old(Snapshot()).flags, Some(n.id), value))
    {
      n.flag := value;
      assert Snapshot().flags == L.SetFlagOf(old(Snapshot()).flags, Some(n.id), value);
    }

    method StoreTail(n: Node)
      requires Shaped() && Known(n)
      modifies this`tail
      ensures Shaped() && Snapshot() == old(Snapshot()).(tail := n.id)
    {
      tail := n;
    }

    method StoreShared(value: int)
      requires Shaped()
      modifies this`shared
      ensures Shaped() && Snapshot() == old(Snapshot()).(shared := value)
    {
      shared := value;
    }

    method StoreRegisters(t: Tid, r: Registers)
      requires Shaped() && t < |threads| && Known(r.my) && Known(r.pre)
      modifies this`threads
      ensures Shaped() && threads == old(threads)[t := r]
      ensures Snapshot() == L.Put(old(Snapshot()), t, ThreadValue(r))
    {
      threads := threads[t := r];
      assert Snapshot().threads == old(Snapshot()).threads[t := ThreadValue(r)];
    }

    method Allocate() returns (n: Node)
      requires Shaped()
      modifies this`nodes
      ensures Shaped() && Known(n) && fresh(n) && nodes == old(nodes) + [n] && n.id == |old(nodes)|
      ensures Snapshot() == old(Snapshot()).(flags := old(Snapshot()).flags + [junk])
    {
      n := new Node(|nodes|, junk);
      nodes := nodes + [n];
      assert Snapshot().flags == old(Snapshot()).flags + [junk];
    }

    /** The own node; an empty slot is filled with a new one. */
    method GetSlot(t: Tid) returns (n: Node)
      requires Shaped() && t < |threads|
      modifies this`nodes, this`threads
      ensures Shaped() && Known(n) && |threads| == |old(threads)| && threads[t].my == n
      ensures threads[t] == old(threads)[t].(my := n)
      ensures nodes == old(nodes) || (nodes == old(nodes) + [n] && fresh(n))
      ensures Snapshot() == L.GetSlot(old(Snapshot()), t)
    {
      if threads[t].my != null {
        n := threads[t].my;
      } else {
        n := Allocate();
        StoreRegisters(t, threads[t].(my := n));
      }
    }

    // ---------------------------------------------------------------- the steps of a thread

    /** The thread's step is the next one of the run. */
    ghost method Record(t: Tid)
      requires Valid()
      modifies this`schedule
      ensures L.Step(cfg, Snapshot(), t) == L.Run(cfg, L.Init(cfg, junk), schedule)
    {
      Runs.RunAppend(L.Stepper(cfg), L.Init(cfg, junk), schedule, [t]);
      Runs.RunOne(L.Stepper(cfg), Snapshot(), t);
      schedule := schedule + [t];
    }

    /** The pointers that the steps of a thread follow are never NULL. */
    lemma PointersFollowed(t: Tid)
      requires Valid() && t < |threads|
      ensures threads[t].pc != L.Start && threads[t].pc != L.Forget ==> threads[t].my != null
      ensures threads[t].pc == L.Spin ==> threads[t].pre != null
    {
      C.RefinesFifoLock(cfg, junk, schedule);
      var a, g := C.Abstraction(cfg, junk, schedule), C.History(cfg, junk, schedule);
      L.AtThread(cfg, Snapshot(), a, g, t);
    }

    /** Locking begins with a node in the thread's slot. */
    method TakeNode(t: Tid)
      requires Valid() && t < |threads| && threads[t].pc == L.Start
      modifies this
      ensures Valid() && Snapshot() == L.Step(cfg, old(Snapshot()), t)
      ensures nodes == old(nodes) || (exists n :: nodes == old(nodes) + [n] && fresh(n))
    {
      Record(t);
      if threads[t].work.rounds < cfg.rounds {
        var n := GetSlot(t);
        StoreRegisters(t, threads[t].(pc := L.SetFlag));
      }
    }

    /** Its flag goes up while nobody else can see it. */
    method RaiseFlag(t: Tid)
      requires Valid() && t < |threads| && threads[t].pc == L.SetFlag
      modifies this, nodes
      ensures Valid() && Snapshot() == L.Step(cfg, old(Snapshot()), t) && nodes == old(nodes)
    {
      PointersFollowed(t);
      Record(t);
      StoreFlag(threads[t].my, 1);
      StoreRegisters(t, threads[t].(pc := L.Swap));
    }

    /** The exchange on tail, which publishes the node and shows the one ahead. */
    method SwapTail(t: Tid)
      requires Valid() && t < |threads| && threads[t].pc == L.Swap
      modifies this
      ensures Valid() && Snapshot() == L.Step(cfg, old(Snapshot()), t) && nodes == old(nodes)
    {
      PointersFollowed(t);
      Record(t);
      StoreRegisters(t, threads[t].(pc := L.Spin, pre := tail));
      StoreTail(threads[t].my);
    }

    /** One look at the flag of the node ahead. */
    method Spin(t: Tid)
      requires Valid() && t < |threads| && threads[t].pc == L.Spin
      modifies this
      ensures Valid() && Snapshot() == L.Step(cfg, old(Snapshot()), t) && nodes == old(nodes)
    {
      PointersFollowed(t);
      Record(t);
      if threads[t].pre.flag != 1 {
        StoreRegisters(t, threads[t].(pc := L.Ready));
      }
    }

    /** The increment loop: its test, and the read of the counter. */
    method Load(t: Tid)
      requires Valid() && t < |threads| && threads[t].pc == L.Ready
      modifies this
      ensures Valid() && Snapshot() == L.Step(cfg, old(Snapshot()), t) && nodes == old(nodes)
    {
      Record(t);
      var r := threads[t];
      if r.work.iters < cfg.times {
        StoreRegisters(t, r.(pc := L.Loaded, work := F.Load(r.work, shared)));
      } else {
        StoreRegisters(t, r.(pc := L.ClearFlag));
      }
    }

    /** The write of the counter. */
    method Store(t: Tid)
      requires Valid() && t < |threads| && threads[t].pc == L.Loaded
      modifies this
      ensures Valid() && Snapshot() == L.Step(cfg, old(Snapshot()), t) && nodes == old(nodes)
    {
      Record(t);
      var r := threads[t];
      StoreShared(r.work.reg + 1);
      StoreRegisters(t, r.(pc := L.Ready, work := F.Store(r.work)));
    }

    /** Unlocking: the flag of the published node falls. */
    method ClearFlag(t: Tid)
      requires Valid() && t < |threads| && threads[t].pc == L.ClearFlag
      modifies this, nodes
      ensures Valid() && Snapshot() == L.Step(cfg, old(Snapshot()), t) && nodes == old(nodes)
    {
      PointersFollowed(t);
      Record(t);
      var r := threads[t];
      StoreFlag(r.my, 0);
      StoreRegisters(t, r.(pc := L.Forget, work := F.EndRound(r.work)));
    }

    /** The slot is emptied, so that the next round gets a new node. */
    method Forget(t: Tid)
      requires Valid() && t < |threads| && threads[t].pc == L.Forget
      modifies this
      ensures Valid() && Snapshot() == L.Step(cfg, old(Snapshot()), t) && nodes == old(nodes)
    {
      Record(t);
      StoreRegisters(t, threads[t].(pc := L.Start, my := null));
    }

    lemma StepPays(t: Tid)
      requires Valid() && CanMove(t)
      ensures 0 <= C.Measure(cfg, Snapshot())
      ensures C.Measure(cfg, L.Step(cfg, Snapshot(), t)) < C.Measure(cfg, Snapshot())
    {
      C.RefinesFifoLock(cfg, junk, schedule);
      var a, g := C.Abstraction(cfg, junk, schedule), C.History(cfg, junk, schedule);
      C.EffectiveStepPays(cfg, Snapshot(), a, g, t);
      C.MeasureNonNegative(cfg, Snapshot(), a, g);
    }

    /** If nobody can move, everybody is done, and every increment has been counted. */
    lemma NobodyMoves()
      requires Valid() && forall t: Tid :: t < cfg.threads ==> !CanMove(t)
      ensures shared == cfg.threads * cfg.rounds * cfg.times
    {
      if !C.AllDone(cfg, Snapshot()) {
        C.NeverStuck(cfg, junk, schedule);
        var t :| L.Step(cfg, Snapshot(), t) != Snapshot();
        assert CanMove(t);
      }
      C.NoLostIncrements(cfg, junk, schedule);
    }

    method Advance(t: Tid)
      requires Valid()
      modifies this, nodes
      ensures Valid() && Snapshot() == L.Step(cfg, old(Snapshot()), t)
      ensures |old(nodes)| <= |nodes| && forall i :: 0 <= i < |old(nodes)| ==> nodes[i] == old(nodes)[i]
      ensures forall i :: |old(nodes)| <= i < |nodes| ==> fresh(nodes[i])
    {
      if t < |threads| {
        match threads[t].pc
        case Start => TakeNode(t);
        case SetFlag => RaiseFlag(t);
        case Swap => SwapTail(t);
        case Spin => Spin(t);
        case Ready => Load(t);
        case Loaded => Store(t);
        case ClearFlag => ClearFlag(t);
        case Forget => Forget(t);
      }
    }
  }

  /**
   * The whole program: while some thread can move, an arbitrary one of them does. It ends on every
   * choice of interleaving, and then every increment has been counted.
   */
  method CountTogether(cfg: F.Config, junk: int) returns (total: int)
    ensures total == cfg.threads * cfg.rounds * cfg.times
  {
    var program := new Program(cfg, junk);
    while exists t: Tid :: t < cfg.threads && program.CanMove(t)
      invariant program.Valid() && program.cfg == cfg && fresh(program)
      invariant forall i :: 0 <= i < |program.nodes| ==> fresh(program.nodes[i])
      decreases C.Measure(cfg, program.Snapshot())
    {
      var t: Tid :| t < cfg.threads && program.CanMove(t);
      program.StepPays(t);
      program.Advance(t);
    }
    program.NobodyMoves();
    total := program.shared;
  }
}
