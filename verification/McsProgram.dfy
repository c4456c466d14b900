/**
 * The MCS lock in place: node objects linked by pointers, and a counting client.
 * Each method takes one step of one thread, exactly the step of the transition system.
 * The closing method runs it to its end, an arbitrary thread moving each time.
 */
module McsProgram {
  import opened Pointers
  import Runs
  import F = FifoLock
  import L = McsLock
  import C = McsCorrectness
  import P = McsProgress

  type Tid = F.Tid

  class Node {
    const owner: Tid
    var lock: int
    var next: Node?

    constructor (owner: Tid)
      ensures this.owner == owner && lock == 0 && next == null
    {
      this.owner := owner;
      lock := 0;
      next := null;
    }
  }

  /** Where a thread is and what its local variables hold. */
  datatype Registers = Registers(pc: L.Pc, pred: Node?, next: Node?, work: F.Work)

  function Name(n: Node?): Option<Tid> {
    if n == null then None else Some(n.owner)
  }

  function NodeValue(n: Node): L.Node
    reads n
  {
    L.Node(n.lock, Name(n.next))
  }

  function ThreadValue(r: Registers): L.Thread {
    L.Thread(r.pc, Name(r.pred), Name(r.next), r.work)
  }

  function NodeValues(nodes: seq<Node>): seq<L.Node>
    reads nodes
  {
    seq(|nodes|, i requires 0 <= i < |nodes| reads nodes => NodeValue(nodes[i]))
  }

  function ThreadValues(threads: seq<Registers>): seq<L.Thread> {
    seq(|threads|, i requires 0 <= i < |threads| => ThreadValue(threads[i]))
  }

  method MakeNodes(count: nat) returns (nodes: seq<Node>)
    ensures |nodes| == count && fresh(nodes)
    ensures forall i :: 0 <= i < count ==> nodes[i].owner == i && nodes[i].lock == 0 && nodes[i].next == null
  {
    nodes := [];
    while |nodes| < count
      invariant |nodes| <= count && fresh(nodes)
      invariant forall i :: 0 <= i < |nodes| ==> nodes[i].owner == i && nodes[i].lock == 0 && nodes[i].next == null
    {
      var node := new Node(|nodes|);
      nodes := nodes + [node];
    }
  }

  class Program {
    const cfg: F.Config
    const nodes: seq<Node>
    var tail: Node?
    var threads: seq<Registers>
    var shared: int
    /** The threads that have taken the steps so far. */
    ghost var schedule: seq<Tid>

    function Snapshot(): L.State
      reads `tail, `threads, `shared, nodes
    {
      L.State(Name(tail), NodeValues(nodes), ThreadValues(threads), shared)
    }

    /** A pointer is NULL or points to one of the threads' nodes. */
    predicate Known(n: Node?) {
      n != null ==> n.owner < |nodes| && nodes[n.owner] == n
    }

    predicate Shaped()
      reads `tail, `threads, nodes
    {
      && |nodes| == |threads| == cfg.threads
      && (forall i :: 0 <= i < |nodes| ==> nodes[i].owner == i)
      && Known(tail)
      && (forall i :: 0 <= i < |nodes| ==> Known(nodes[i].next))
      && (forall t :: 0 <= t < |threads| ==> Known(threads[t].pred) && Known(threads[t].next))
    }

    /** The state is one that a run of the transition system reaches. */
    ghost predicate Valid()
      reads this, nodes
    {
      Shaped() && Snapshot() == L.Run(cfg, L.Init(cfg), schedule)
    }

    predicate CanMove(t: Tid)
      reads `tail, `threads, `shared, nodes
    {
      L.Step(cfg, Snapshot(), t) != Snapshot()
    }

    constructor (cfg: F.Config)
      ensures Valid() && this.cfg == cfg && fresh(nodes)
      ensures Snapshot() == L.Init(cfg)
    {
      this.cfg := cfg;
      var made := MakeNodes(cfg.threads);
      nodes := made;
      tail := null;
      threads := seq(cfg.threads, _ => Registers(L.Start, null, null, F.NOTHING_DONE));
      shared := 0;
      schedule := [];
      new;
      assert Snapshot() == L.Init(cfg);
    }

    // ---------------------------------------------------------------- atomic stores

    method StoreLock(n: Node, value: int)
      requires Shaped() && Known(n)
      modifies n`lock
      ensures Shaped()
      ensures Snapshot() == old(Snapshot()).(nodes := L.SetNodeLock(old(Snapshot()).nodes, Some(n.owner), value))
    {
      n.lock := value;
      assert Snapshot().nodes == L.SetNodeLock(old(Snapshot()).nodes, Some(n.owner), value);
    }

    method StoreNext(n: Node, next: Node?)
      requires Shaped() && Known(n) && Known(next)
      modifies n`next
      ensures Shaped()
      ensures Snapshot() == old(Snapshot()).(nodes := L.SetNodeNext(old(Snapshot()).nodes, Some(n.owner), Name(next)))
    {
      n.next := next;
      assert Snapshot().nodes == L.SetNodeNext(old(Snapshot()).nodes, Some(n.owner), Name(next));
    }

    method StoreRegisters(t: Tid, r: Registers)
      requires Shaped() && t < |threads| && Known(r.pred) && Known(r.next)
      modifies this`threads
      ensures Shaped() && threads == old(threads)[t := r]
      ensures Snapshot() == L.Put(old(Snapshot()), t, ThreadValue(r))
    {
      threads := threads[t := r];
      assert Snapshot().threads == old(Snapshot()).threads[t := ThreadValue(r)];
    }

    method StoreTail(n: Node?)
      requires Shaped() && Known(n)
      modifies this`tail
      ensures Shaped() && Snapshot() == old(Snapshot()).(tail := Name(n))
    {
      tail := n;
    }

    method StoreShared(value: int)
      requires Shaped()
      modifies this`shared
      ensures Shaped() && Snapshot() == old(Snapshot()).(shared := value)
    {
      shared := value;
    }

    lemma SameName(m: Node?, n: Node?)
      requires Known(m) && Known(n)
      ensures m == n <==> Name(m) == Name(n)
    {
    }

    // ---------------------------------------------------------------- the steps of a thread

    /** The thread's step is the next one of the run. */
    ghost method Record(t: Tid)
      requires Valid()
      modifies this`schedule
      ensures L.Step(cfg, Snapshot(), t) == L.Run(cfg, L.Init(cfg), schedule)
    {
      Runs.RunAppend(L.Stepper(cfg), L.Init(cfg), schedule, [t]);
      Runs.RunOne(L.Stepper(cfg), Snapshot(), t);
      schedule := schedule + [t];
    }

    /** The pointers that the steps of a thread follow are never NULL. */
    lemma PointersFollowed(t: Tid)
      requires Valid() && t < |threads|
      ensures threads[t].pc == L.LinkPred ==> threads[t].pred != null
      ensures threads[t].pc == L.LoadNext ==> nodes[t].next != null
      ensures threads[t].pc == L.Release ==> threads[t].next != null
    {
      C.RefinesFifoLock(cfg, schedule);
      var a := C.Abstraction(cfg, schedule);
      if threads[t].pc == L.LinkPred {
        L.LinkPredTarget(cfg, Snapshot(), a, t);
      } else if threads[t].pc == L.LoadNext || threads[t].pc == L.Release {
        L.HandOffTarget(cfg, Snapshot(), a, t);
      }
    }

    /** Before the swap: get_node resets the thread's own node. */
    method GetNode(t: Tid)
      requires Valid() && t < |threads|
      requires threads[t].pc == L.Start || threads[t].pc == L.SetLock || threads[t].pc == L.ClearNext
      modifies this, nodes
      ensures Valid() && Snapshot() == L.Step(cfg, old(Snapshot()), t)
    {
      Record(t);
      var r := threads[t];
      match r.pc
      case Start =>
        if r.work.rounds < cfg.rounds {
          StoreRegisters(t, r.(pc := L.SetLock));
        }
      case SetLock =>
        StoreLock(nodes[t], 1);
        StoreRegisters(t, r.(pc := L.ClearNext));
      case ClearNext =>
        StoreNext(nodes[t], null);
        StoreRegisters(t, r.(pc := L.LoadTail));
    }

    /** The compare-and-swap loop on tail. */
    method SwapTail(t: Tid)
      requires Valid() && t < |threads|
      requires threads[t].pc == L.LoadTail || threads[t].pc == L.SwapTail
      modifies this
      ensures Valid() && Snapshot() == L.Step(cfg, old(Snapshot()), t)
    {
      Record(t);
      var r := threads[t];
      SameName(tail, r.pred);
      if r.pc == L.LoadTail {
        StoreRegisters(t, r.(pc := L.SwapTail, pred := tail));
      } else if tail == r.pred {
        StoreTail(nodes[t]);
        StoreRegisters(t, r.(pc := L.CheckPred));
      } else {
        StoreRegisters(t, r.(pc := L.LoadTail));
      }
    }

    /** After the swap: enter at once, or link to the predecessor's node and spin on the own one. */
    method LinkAndSpin(t: Tid)
      requires Valid() && t < |threads| && L.PhaseOf(threads[t].pc) == F.Waiting
      modifies this, nodes
      ensures Valid() && Snapshot() == L.Step(cfg, old(Snapshot()), t)
    {
      PointersFollowed(t);
      Record(t);
      var r := threads[t];
      match r.pc
      case CheckPred =>
        StoreRegisters(t, r.(pc := if r.pred == null then L.Ready else L.LinkPred));
      case LinkPred =>
        StoreNext(r.pred, nodes[t]);
        StoreRegisters(t, r.(pc := L.SpinLock));
      case SpinLock =>
        if nodes[t].lock != 1 {
          StoreRegisters(t, r.(pc := L.Ready));
        }
    }

    /** The increment loop: its test, and the read of the counter. */
    method Load(t: Tid)
      requires Valid() && t < |threads| && threads[t].pc == L.Ready
      modifies this
      ensures Valid() && Snapshot() == L.Step(cfg, old(Snapshot()), t)
    {
      Record(t);
      var r := threads[t];
      if r.work.iters < cfg.times {
        StoreRegisters(t, r.(pc := L.Loaded, work := F.Load(r.work, shared)));
      } else {
        StoreRegisters(t, r.(pc := L.CheckNext));
      }
    }

    /** The write of the counter. */
    method Store(t: Tid)
      requires Valid() && t < |threads| && threads[t].pc == L.Loaded
      modifies this
      ensures Valid() && Snapshot() == L.Step(cfg, old(Snapshot()), t)
    {
      Record(t);
      var r := threads[t];
      StoreShared(r.work.reg + 1);
      StoreRegisters(t, r.(pc := L.Ready, work := F.Store(r.work)));
    }

    /** Unlocking: has a successor linked itself? */
    method CheckNext(t: Tid)
      requires Valid() && t < |threads| && threads[t].pc == L.CheckNext
      modifies this
      ensures Valid() && Snapshot() == L.Step(cfg, old(Snapshot()), t)
    {
      Record(t);
      StoreRegisters(t, threads[t].(pc := if nodes[t].next == null then L.ClearTail else L.LoadNext));
    }

    /** The wait for a late link. */
    method AwaitNext(t: Tid)
      requires Valid() && t < |threads| && threads[t].pc == L.AwaitNext
      modifies this
      ensures Valid() && Snapshot() == L.Step(cfg, old(Snapshot()), t)
    {
      Record(t);
      if nodes[t].next != null {
        StoreRegisters(t, threads[t].(pc := L.LoadNext));
      }
    }

    /** Unlocking with nobody behind: the compare-and-swap back to NULL. */
    method ClearTail(t: Tid)
      requires Valid() && t < |threads| && threads[t].pc == L.ClearTail
      modifies this
      ensures Valid() && Snapshot() == L.Step(cfg, old(Snapshot()), t)
    {
      Record(t);
      var r := threads[t];
      SameName(tail, nodes[t]);
      if tail == nodes[t] {
        StoreTail(null);
        StoreRegisters(t, r.(pc := L.Start, work := F.EndRound(r.work)));
      } else {
        StoreRegisters(t, r.(pc := L.AwaitNext));
      }
    }

    /** Unlocking with somebody behind: the successor is read from the own node, and is never NULL here. */
    method LoadNext(t: Tid)
      requires Valid() && t < |threads| && threads[t].pc == L.LoadNext
      modifies this
      ensures Valid() && Snapshot() == L.Step(cfg, old(Snapshot()), t) && threads[t].next != null
    {
      PointersFollowed(t);
      Record(t);
      StoreRegisters(t, threads[t].(pc := L.Release, next := nodes[t].next));
    }

    /** The store through that pointer, which ends the successor's spin. */
    method Release(t: Tid)
      requires Valid() && t < |threads| && threads[t].pc == L.Release
      modifies this, nodes
      ensures Valid() && Snapshot() == L.Step(cfg, old(Snapshot()), t)
    {
      PointersFollowed(t);
      Record(t);
      var r := threads[t];
      StoreLock(r.next, 0);
      StoreRegisters(t, r.(pc := L.Start, work := F.EndRound(r.work)));
    }

    lemma StepPays(t: Tid)
      requires Valid() && CanMove(t)
      ensures 0 <= P.Measure(cfg, Snapshot())
      ensures P.Measure(cfg, L.Step(cfg, Snapshot(), t)) < P.Measure(cfg, Snapshot())
    {
      C.RefinesFifoLock(cfg, schedule);
      P.EffectiveStepPays(cfg, Snapshot(), C.Abstraction(cfg, schedule), t);
      P.MeasureNonNegative(cfg, Snapshot(), C.Abstraction(cfg, schedule));
    }

    /** If nobody can move, everybody is done, and every increment has been counted. */
    lemma NobodyMoves()
      requires Valid() && forall t: Tid :: t < cfg.threads ==> !CanMove(t)
      ensures shared == cfg.threads * cfg.rounds * cfg.times
    {
      if !C.AllDone(cfg, Snapshot()) {
        P.NeverStuck(cfg, schedule);
        var t :| L.Step(cfg, Snapshot(), t) != Snapshot();
        assert CanMove(t);
      }
      C.NoLostIncrements(cfg, schedule);
    }

    method Advance(t: Tid)
      requires Valid()
      modifies this, nodes
      ensures Valid() && Snapshot() == L.Step(cfg, old(Snapshot()), t)
    {
      if t < |threads| {
        match threads[t].pc
        case Start | SetLock | ClearNext => GetNode(t);
        case LoadTail | SwapTail => SwapTail(t);
        case CheckPred | LinkPred | SpinLock => LinkAndSpin(t);
        case Ready => Load(t);
        case Loaded => Store(t);
        case CheckNext => CheckNext(t);
        case ClearTail => ClearTail(t);
        case AwaitNext => AwaitNext(t);
        case LoadNext => LoadNext(t);
        case Release => Release(t);
      }
    }
  }

  /**
   * The whole program: while some thread can move, an arbitrary one of them does. It ends on every
   * choice of interleaving, and then every increment has been counted.
   */
  method CountTogether(cfg: F.Config) returns (total: int)
    ensures total == cfg.threads * cfg.rounds * cfg.times
  {
    var program := new Program(cfg);
    while exists t: Tid :: t < cfg.threads && program.CanMove(t)
      invariant program.Valid() && program.cfg == cfg && fresh(program) && fresh(program.nodes)
      decreases P.Measure(cfg, program.Snapshot())
    {
      var t: Tid :| t < cfg.threads && program.CanMove(t);
      program.StepPays(t);
      program.Advance(t);
    }
    program.NobodyMoves();
    total := program.shared;
  }
}
