/**
 * The timeout lock in place: node objects linked backwards by pred, and threads that lock once.
 * Each method takes one step of one thread, exactly the step of the transition system.
 * No pointer that a thread follows is NULL, whoever times out and whenever. The closing method takes any sequence
 * of steps and timeouts and reports what the run shows.
 */
module TimeoutProgram {
  import opened Sequences
  import L = TimeoutLock
  import C = TimeoutCorrectness

  type Tid = L.Tid

  class Node {
    const owner: nat
    var pred: Node?

    constructor (owner: nat)
      ensures this.owner == owner && pred == null
    {
      this.owner := owner;
      pred := null;
    }
  }

  /** Where a thread is, the node it waits on, and its register. */
  datatype Registers = Registers(pc: L.Pc, wait: Node?, reg: int)

  function Name(available: Node, n: Node?): L.Ref {
    if n == null then L.Null else if n == available then L.Available else L.Node(n.owner)
  }

  function PredValues(available: Node, nodes: seq<Node>): seq<L.Ref>
    reads nodes
  {
    seq(|nodes|, i requires 0 <= i < |nodes| reads nodes => Name(available, nodes[i].pred))
  }

  function ThreadValue(available: Node, r: Registers): L.Thread {
    L.Thread(r.pc, Name(available, r.wait), r.reg)
  }

  function ThreadValues(available: Node, threads: seq<Registers>): seq<L.Thread> {
    seq(|threads|, i requires 0 <= i < |threads| => ThreadValue(available, threads[i]))
  }

  method MakeNodes(count: nat) returns (nodes: seq<Node>)
    ensures |nodes| == count && fresh(nodes)
    ensures forall i :: 0 <= i < count ==> nodes[i].owner == i && nodes[i].pred == null
  {
    nodes := [];
    while |nodes| < count
      invariant |nodes| <= count && fresh(nodes)
      invariant forall i :: 0 <= i < |nodes| ==> nodes[i].owner == i && nodes[i].pred == null
    {
      var node := new Node(|nodes|);
      nodes := nodes + [node];
    }
  }

  class Program {
    /** The static node that stands for a free lock. */
    const available: Node
    const nodes: seq<Node>
    var tail: Node
    var threads: seq<Registers>
    var shared: int

    function Snapshot(): L.State
      reads `tail, `threads, `shared, nodes
    {
      L.State(Name(available, tail), PredValues(available, nodes), ThreadValues(available, threads), shared)
    }

    predicate Known(n: Node?) {
      n != null && n != available ==> n.owner < |nodes| && nodes[n.owner] == n
    }

    predicate MustWaitOn(pc: L.Pc) {
      pc == L.Clock || pc == L.LoadPred || pc == L.GiveUp
    }

    ghost predicate Valid()
      reads `tail, `threads, nodes, available
    {
      && |nodes| == |threads| && available !in nodes && available.pred == null
      && (forall i :: 0 <= i < |nodes| ==> nodes[i].owner == i)
      && Known(tail)
      && (forall i :: 0 <= i < |nodes| ==> Known(nodes[i].pred))
      && (forall t :: 0 <= t < |threads| ==>
            Known(threads[t].wait) && (MustWaitOn(threads[t].pc) ==> threads[t].wait != null))
    }

    lemma SameName(m: Node?, n: Node?)
      requires Known(m) && Known(n)
      ensures m == n <==> Name(available, m) == Name(available, n)
    {
    }

    constructor (count: nat)
      ensures Valid() && Snapshot() == L.Init(count) && fresh(nodes) && fresh(available)
    {
      var free := new Node(0);
      var made := MakeNodes(count);
      available := free;
      nodes := made;
      tail := free;
      threads := seq(count, _ => Registers(L.Start, null, 0));
      shared := 0;
      new;
      assert Snapshot() == L.Init(count);
    }

    // ---------------------------------------------------------------- atomic stores

    method StorePred(n: Node, pred: Node?)
      requires Valid() && Known(n) && n != available && Known(pred)
      modifies n
      ensures Valid() && Snapshot() == L.StorePred(old(Snapshot()), n.owner, Name(available, pred))
    {
      n.pred := pred;
      assert Snapshot().pred == old(Snapshot()).pred[n.owner := Name(available, pred)];
    }

    method StoreTail(n: Node)
      requires Valid() && Known(n)
      modifies `tail
      ensures Valid() && Snapshot() == old(Snapshot()).(tail := Name(available, n))
    {
      tail := n;
    }

    method StoreShared(value: int)
      requires Valid()
      modifies `shared
      ensures Valid() && Snapshot() == old(Snapshot()).(shared := value)
    {
      shared := value;
    }

    method StoreRegisters(t: Tid, r: Registers)
      requires Valid() && t < |threads| && Known(r.wait) && (MustWaitOn(r.pc) ==> r.wait != null)
      modifies `threads
      ensures Valid() && threads == old(threads)[t := r]
      ensures Snapshot() == L.Put(old(Snapshot()), t, ThreadValue(available, r))
    {
      threads := threads[t := r];
      assert Snapshot().threads == old(Snapshot()).threads[t := ThreadValue(available, r)];
    }

    // ---------------------------------------------------------------- the steps of a thread

    method Enqueue(t: Tid)
      requires Valid() && t < |threads| && (threads[t].pc == L.Start || threads[t].pc == L.Swap)
      modifies this, nodes
      ensures Valid() && Snapshot() == L.Step(old(Snapshot()), t)
    {
      var r := threads[t];
      if r.pc == L.Start {
        StorePred(nodes[t], null);
        StoreRegisters(t, r.(pc := L.Swap));
      } else {
        var ahead := tail;
        StoreTail(nodes[t]);
        StoreRegisters(t, if ahead == available then r.(pc := L.Inside) else r.(pc := L.Clock, wait := ahead));
      }
    }

    /** One test of the clock, which may find the patience used up, or one poll of the node ahead. */
    method Poll(t: Tid, timeout: bool)
      requires Valid() && t < |threads| && (threads[t].pc == L.Clock || threads[t].pc == L.LoadPred)
      modifies this, nodes
      ensures Valid() && Snapshot() == L.Next(old(Snapshot()), if timeout then L.Timeout(t) else L.Move(t))
    {
      var r := threads[t];
      if r.pc == L.Clock {
        StoreRegisters(t, r.(pc := if timeout then L.GiveUp else L.LoadPred));
      } else if !timeout {
        var ahead := r.wait.pred;
        if ahead == available {
          StoreRegisters(t, r.(pc := L.Inside));
        } else if ahead != null {
          StoreRegisters(t, r.(pc := L.Clock, wait := ahead));
        } else {
          StoreRegisters(t, r.(pc := L.Clock));
        }
      }
    }

    method GiveUp(t: Tid)
      requires Valid() && t < |threads| && (threads[t].pc == L.GiveUp || threads[t].pc == L.StoreGiveUp)
      modifies this, nodes
      ensures Valid() && Snapshot() == L.Step(old(Snapshot()), t)
    {
      var r := threads[t];
      SameName(tail, nodes[t]);
      if r.pc == L.StoreGiveUp {
        StorePred(nodes[t], available);
        StoreRegisters(t, r.(pc := L.Abandoned));
      } else if tail == nodes[t] {
        StoreTail(r.wait);
        StoreRegisters(t, r.(pc := L.Abandoned));
      } else {
        StoreRegisters(t, r.(pc := L.StoreGiveUp));
      }
    }

    /** The increment, its read and its write being two steps. */
    method Body(t: Tid)
      requires Valid() && t < |threads| && (threads[t].pc == L.Inside || threads[t].pc == L.Loaded)
      modifies this, nodes
      ensures Valid() && Snapshot() == L.Step(old(Snapshot()), t)
    {
      var r := threads[t];
      if r.pc == L.Inside {
        StoreRegisters(t, r.(pc := L.Loaded, reg := shared));
      } else {
        StoreShared(r.reg + 1);
        StoreRegisters(t, r.(pc := L.Unlock));
      }
    }

    method Unlock(t: Tid)
      requires Valid() && t < |threads| && (threads[t].pc == L.Unlock || threads[t].pc == L.StoreRelease)
      modifies this, nodes
      ensures Valid() && Snapshot() == L.Step(old(Snapshot()), t)
    {
      var r := threads[t];
      SameName(tail, nodes[t]);
      if r.pc == L.StoreRelease {
        StorePred(nodes[t], available);
        StoreRegisters(t, r.(pc := L.Done));
      } else if tail == nodes[t] {
        StoreTail(available);
        StoreRegisters(t, r.(pc := L.Done));
      } else {
        StoreRegisters(t, r.(pc := L.StoreRelease));
      }
    }

    method Advance(e: L.Event)
      requires Valid()
      modifies this, nodes
      ensures Valid() && Snapshot() == L.Next(old(Snapshot()), e)
    {
      if e.t < |threads| {
        match threads[e.t].pc
        case Clock | LoadPred => Poll(e.t, e.Timeout?);
        case Start | Swap => if e.Move? { Enqueue(e.t); }
        case GiveUp | StoreGiveUp => if e.Move? { GiveUp(e.t); }
        case Inside | Loaded => if e.Move? { Body(e.t); }
        case Unlock | StoreRelease => if e.Move? { Unlock(e.t); }
        case Abandoned | Done =>
      }
    }
  }

  /** A run of the program. If it is orderly, the counter is at its end the number of threads that have written it. */
  method RunThreads(count: nat, events: seq<L.Event>) returns (threads: seq<L.Thread>, shared: int)
    ensures threads == L.Run(L.Init(count), events).threads
    ensures L.OrderlyRun(L.Init(count), events) ==> shared == Sum(threads, L.AsCounted)
  {
    var program := new Program(count);
    var i := 0;
    while i < |events|
      invariant i <= |events| && program.Valid() && fresh(program) && fresh(program.nodes)
      invariant L.Run(program.Snapshot(), events[i..]) == L.Run(L.Init(count), events)
    {
      program.Advance(events[i]);
      i := i + 1;
    }
    threads, shared := program.Snapshot().threads, program.shared;
    if L.OrderlyRun(L.Init(count), events) {
      C.NoLostIncrements(count, events);
    }
  }
}
