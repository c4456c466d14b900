/**
 * The queue lock whose waiters may time out, as a transition system with its queue and its invariant. A waiter polls
 * the pred field of the node ahead of it; one that gives up takes its node off the end of the queue if it is still
 * the tail, and stores AVAILABLE in it otherwise. The invariant holds as long as every thread that gives up is the
 * tail or need not wait any more, and the end of the file shows that every such step keeps it.
 */
module TimeoutLock {
  import opened Sequences
  import Runs

  type Tid = nat

  datatype Ref = Null | Available | Node(owner: Tid)

  datatype Pc =
    | Start         // about to store NULL in its own pred
    | Swap          // about to exchange tail for its own node
    | Clock         // waiting, about to look at the clock
    | LoadPred      // waiting, about to read pred of the node it waits on
    | GiveUp        // timed out, about to compare-and-swap tail from its own node to the node it waits on
    | StoreGiveUp   // the swap failed, about to store AVAILABLE in its own pred
    | Abandoned     // has returned without the lock
    | Inside        // holds the lock, about to read the shared counter
    | Loaded        // about to write the shared counter
    | Unlock        // about to compare-and-swap tail from its own node to AVAILABLE
    | StoreRelease  // the swap failed, about to store AVAILABLE in its own pred
    | Done          // has returned after holding the lock

  datatype Thread = Thread(pc: Pc, wait: Ref, reg: int)

  /** Every thread locks once, so a node is named by its owner; `pred` is its field. */
  datatype State = State(tail: Ref, pred: seq<Ref>, threads: seq<Thread>, shared: int)

  /**
   * A thread's own step, in which a clock test finds the patience not yet used up, or a clock test that finds
   * it is: the clock is a free choice at every test.
   */
  datatype Event = Move(t: Tid) | Timeout(t: Tid)

  function Init(threads: nat): State {
    State(Available, seq(threads, _ => Null), seq(threads, _ => Thread(Start, Null, 0)), 0)
  }

  function Put(s: State, t: Tid, th: Thread): State
    requires t < |s.threads|
  {
    s.(threads := s.threads[t := th])
  }

  function Go(s: State, t: Tid, pc: Pc): State
    requires t < |s.threads|
  {
    Put(s, t, s.threads[t].(pc := pc))
  }

  function StorePred(s: State, t: Tid, r: Ref): State {
    if t < |s.pred| then s.(pred := s.pred[t := r]) else s
  }

  /** The pred field behind a reference; the static AVAILABLE node holds NULL. */
  function PredOf(s: State, r: Ref): Ref {
    if r.Node? && r.owner < |s.pred| then s.pred[r.owner] else Null
  }

  function Step(s: State, t: Tid): State
    requires t < |s.threads|
  {
    var th := s.threads[t];
    match th.pc
    case Start => Go(StorePred(s, t, Null), t, Swap)
    case Swap =>
      (if s.tail == Available then Go(s, t, Inside) else Put(s, t, th.(pc := Clock, wait := s.tail)))
      .(tail := Node(t))
    case Clock => Go(s, t, LoadPred)
    case LoadPred =>
      var ahead := PredOf(s, th.wait);
      if ahead == Available then Go(s, t, Inside)
      else if ahead != Null then Put(s, t, th.(pc := Clock, wait := ahead))
      else Go(s, t, Clock)
    case GiveUp => if s.tail == Node(t) then Go(s, t, Abandoned).(tail := th.wait) else Go(s, t, StoreGiveUp)
    case StoreGiveUp => Go(StorePred(s, t, Available), t, Abandoned)
    case Inside => Put(s, t, th.(pc := Loaded, reg := s.shared))
    case Loaded => Go(s, t, Unlock).(shared := th.reg + 1)
    case Unlock => if s.tail == Node(t) then Go(s, t, Done).(tail := Available) else Go(s, t, StoreRelease)
    case StoreRelease => Go(StorePred(s, t, Available), t, Done)
    case Abandoned | Done => s
  }

  function Next(s: State, e: Event): State {
    if e.t >= |s.threads| then s else
      match e
      case Move(t) => Step(s, t)
      case Timeout(t) => if s.threads[t].pc == Clock then Go(s, t, GiveUp) else s
  }

  function Run(s: State, events: seq<Event>): State {
    Runs.Run(Next, s, events)
  }

  predicate Holding(s: State, t: Tid) {
    t < |s.threads| && (s.threads[t].pc == Inside || s.threads[t].pc == Loaded || s.threads[t].pc == Unlock)
  }

  predicate Waiting(s: State, t: Tid) {
    t < |s.threads| && (s.threads[t].pc == Clock || s.threads[t].pc == LoadPred || s.threads[t].pc == GiveUp)
  }

  /** Between its failed swap and its store of AVAILABLE. */
  predicate Pending(s: State, t: Tid) {
    t < |s.threads| && (s.threads[t].pc == StoreRelease || s.threads[t].pc == StoreGiveUp)
  }

  predicate Queued(s: State, t: Tid) {
    Holding(s, t) || Waiting(s, t)
  }

  // ---------------------------------------------------------------- the queue

  /**
   * The queue: `order` from position `served` on. Holders leave at its front, waiters who give up at its end;
   * `place` is each queued thread's position.
   */
  datatype Queue = Queue(order: seq<Tid>, served: nat, place: seq<nat>)
  {
    function Members(): seq<Tid>
      requires served <= |order|
    {
      order[served..]
    }

    predicate IsFront(t: Tid) {
      served < |order| && order[served] == t
    }
  }

  function InitQueue(threads: nat): Queue {
    Queue([], 0, seq(threads, _ => 0))
  }

  function QueueNext(s: State, q: Queue, e: Event): Queue {
    if e.t >= |s.threads| || e.Timeout? then q else
      match s.threads[e.t].pc
      case Swap => if e.t < |q.place| then q.(order := q.order + [e.t], place := q.place[e.t := |q.order|]) else q
      case GiveUp =>
        if s.tail == Node(e.t) && q.order != []
        then q.(order := q.order[..|q.order| - 1])
        else q.(served := q.served + 1)
      case Unlock => q.(served := q.served + 1)
      case _ => q
  }

  /** No longer queued, and the next in line can see that or is about to. */
  predicate Vacated(s: State, t: Tid) {
    t < |s.threads| && t < |s.pred| && !Queued(s, t) && (s.pred[t] == Available || Pending(s, t))
  }

  predicate VacatedRef(s: State, r: Ref) {
    r.Node? && Vacated(s, r.owner)
  }

  /** Position `k`: only the front holds the lock; everybody else waits on the one ahead. */
  predicate PlaceOk(s: State, q: Queue, k: nat) {
    && k < |q.order| && q.order[k] < |s.threads| && q.order[k] < |q.place| && q.order[k] < |s.pred|
    && q.place[q.order[k]] == k
    && Queued(s, q.order[k])
    && (if k == q.served
        then Waiting(s, q.order[k]) ==> VacatedRef(s, s.threads[q.order[k]].wait)
        else Waiting(s, q.order[k]) && k > 0 && s.threads[q.order[k]].wait == Node(q.order[k - 1]))
  }

  predicate ThreadOk(s: State, q: Queue, t: Tid) {
    t < |s.threads| && t < |q.place| && t < |s.pred| &&
    var th := s.threads[t];
    && (Queued(s, t) ==> q.served <= q.place[t] < |q.order| && q.order[q.place[t]] == t)
    && (th.pc == Start || th.pc == Swap || Queued(s, t) ==> s.pred[t] == Null)
    && (s.pred[t] == Null || s.pred[t] == Available)
    && (th.pc == Loaded ==> th.reg == s.shared)
  }

  predicate TailOk(s: State, q: Queue) {
    if q.served < |q.order| then s.tail == Node(q.order[|q.order| - 1])
    else s.tail == Available || VacatedRef(s, s.tail)
  }

  /** 1 for a thread whose increment is in. */
  function AsCounted(th: Thread): int {
    if th.pc == Unlock || th.pc == StoreRelease || th.pc == Done then 1 else 0
  }

  predicate Inv(s: State, q: Queue) {
    && |s.threads| == |s.pred| == |q.place|
    && q.served <= |q.order|
    && TailOk(s, q)
    && (forall t :: 0 <= t < |s.threads| ==> ThreadOk(s, q, t))
    && (forall k :: q.served <= k < |q.order| ==> PlaceOk(s, q, k))
    && s.shared == Sum(s.threads, AsCounted)
  }

  /**
   * May this event happen? A thread may give up if it is still the tail, or if it need not wait any longer:
   * the thread ahead of it has left the queue.
   */
  predicate Orderly(s: State, e: Event) {
    e.Move? && e.t < |s.threads| && s.threads[e.t].pc == GiveUp ==>
      s.tail == Node(e.t) || VacatedRef(s, s.threads[e.t].wait)
  }

  predicate OrderlyRun(s: State, events: seq<Event>)
    decreases |events|
  {
    events == [] || (Orderly(s, events[0]) && OrderlyRun(Next(s, events[0]), events[1..]))
  }

  lemma InitInv(threads: nat)
    ensures Inv(Init(threads), InitQueue(threads))
  {
    var s, q := Init(threads), InitQueue(threads);
    SumConstant(s.threads, AsCounted, 0);
    forall t | 0 <= t < |s.threads| ensures ThreadOk(s, q, t) { }
  }

  lemma AtThread(s: State, q: Queue, t: Tid)
    requires Inv(s, q) && t < |s.threads|
    ensures ThreadOk(s, q, t)
    ensures Queued(s, t) ==> PlaceOk(s, q, q.place[t])
    ensures Holding(s, t) ==> q.IsFront(t)
  {
    assert ThreadOk(s, q, t);
    if Queued(s, t) { assert PlaceOk(s, q, q.place[t]); }
  }

  /** Threads outside the queue stay vacated while others move. */
  lemma VacatedStays(s: State, q: Queue, t: Tid, u: Tid)
    requires |s.threads| == |s.pred| && ThreadOk(s, q, t) && Vacated(s, u)
    ensures Vacated(Step(s, t), u)
  {
  }

  lemma VacatedRefStays(s: State, q: Queue, t: Tid, r: Ref)
    requires |s.threads| == |s.pred| && ThreadOk(s, q, t) && VacatedRef(s, r)
    ensures VacatedRef(Step(s, t), r)
  {
    VacatedStays(s, q, t, r.owner);
  }

  lemma StepCount(s: State, q: Queue, t: Tid)
    requires ThreadOk(s, q, t) && s.shared == Sum(s.threads, AsCounted)
    ensures Step(s, t).shared == Sum(Step(s, t).threads, AsCounted)
  {
    SumUpdate(s.threads, AsCounted, t, Step(s, t).threads[t]);
  }

  /** A waiter that is not the front waits on a queued thread, whose pred field is NULL. */
  lemma NonFrontWaits(s: State, q: Queue, t: Tid)
    requires Inv(s, q) && Waiting(s, t) && !q.IsFront(t)
    ensures !VacatedRef(s, s.threads[t].wait) && PredOf(s, s.threads[t].wait) == Null
  {
    AtThread(s, q, t);
    var k := q.place[t] - 1;
    assert PlaceOk(s, q, k);
    AtThread(s, q, q.order[k]);
  }

  /** Whoever waits on a vacated node is the front. */
  lemma VacatedIsFront(s: State, q: Queue, t: Tid)
    requires Inv(s, q) && Waiting(s, t) && VacatedRef(s, s.threads[t].wait)
    ensures q.IsFront(t)
  {
    if !q.IsFront(t) { NonFrontWaits(s, q, t); }
  }

  /** A poll that finds AVAILABLE is made by the front. */
  lemma PollSees(s: State, q: Queue, t: Tid)
    requires Inv(s, q) && Waiting(s, t)
    ensures PredOf(s, s.threads[t].wait) == Available ==> q.IsFront(t)
  {
    if !q.IsFront(t) { NonFrontWaits(s, q, t); }
  }

  /** A queue place stays right if its thread, its neighbour ahead and what that one shows stay as they are. */
  lemma PlaceFrame(s: State, q: Queue, s': State, q': Queue, k: nat)
    requires PlaceOk(s, q, k) && k < |q'.order| && q'.order[k] == q.order[k] && q'.served == q.served
    requires k > 0 ==> q'.order[k - 1] == q.order[k - 1]
    requires var u := q.order[k]; u < |s'.threads| && u < |s'.pred| && u < |q'.place|
    requires var u := q.order[k]; s'.threads[u] == s.threads[u] && q'.place[u] == q.place[u]
    requires var r := s.threads[q.order[k]].wait; VacatedRef(s, r) ==> VacatedRef(s', r)
    ensures PlaceOk(s', q', k)
  {
  }

  lemma PlaceKept(s: State, q: Queue, t: Tid, k: nat)
    requires |s.threads| == |s.pred| && ThreadOk(s, q, t) && PlaceOk(s, q, k) && q.order[k] != t
    ensures PlaceOk(Step(s, t), q, k)
  {
    var r := s.threads[q.order[k]].wait;
    if VacatedRef(s, r) { VacatedRefStays(s, q, t, r); }
    PlaceFrame(s, q, Step(s, t), q, k);
  }

  /** A waiter that looks stays where it is in the queue, or gets in as its front. */
  lemma OwnPlaceKept(s: State, q: Queue, t: Tid)
    requires Inv(s, q) && Queued(s, t) && s.threads[t].pc != GiveUp && s.threads[t].pc != Unlock
    ensures PlaceOk(Step(s, t), q, q.place[t])
  {
    AtThread(s, q, t);
    if q.IsFront(t) { assert PlaceOk(s, q, q.served); }
    if Waiting(s, t) {
      PollSees(s, q, t);
      WaitKept(s, q, t);
      if VacatedRef(s, s.threads[t].wait) { VacatedRefStays(s, q, t, s.threads[t].wait); }
    }
  }

  lemma WaitKept(s: State, q: Queue, t: Tid)
    requires Inv(s, q) && Waiting(s, t)
    ensures Step(s, t).threads[t].wait == s.threads[t].wait
  {
    var r := s.threads[t].wait;
    if r.Node? && r.owner < |s.pred| { assert ThreadOk(s, q, r.owner); }
  }

  lemma ThreadsKept(s: State, q: Queue, t: Tid)
    requires Inv(s, q) && t < |s.threads|
    requires s.threads[t].pc != Swap && s.threads[t].pc != GiveUp && s.threads[t].pc != Unlock
    ensures forall u :: 0 <= u < |s.threads| ==> ThreadOk(Step(s, t), q, u)
  {
    AtThread(s, q, t);
    forall u | 0 <= u < |s.threads| ensures ThreadOk(Step(s, t), q, u) {
      AtThread(s, q, u);
    }
  }

  /** A step that keeps the queue: the thread stays in its place, or stays out. */
  lemma LocalStep(s: State, q: Queue, t: Tid)
    requires Inv(s, q) && t < |s.threads|
    requires s.threads[t].pc != Swap && s.threads[t].pc != GiveUp && s.threads[t].pc != Unlock
    ensures Inv(Step(s, t), q)
  {
    var s' := Step(s, t);
    StepCount(s, q, t);
    ThreadsKept(s, q, t);
    if Queued(s, t) { OwnPlaceKept(s, q, t); }
    forall k | q.served <= k < |q.order| ensures PlaceOk(s', q, k) {
      assert PlaceOk(s, q, k);
      if q.order[k] != t { PlaceKept(s, q, t, k); }
    }
    if VacatedRef(s, s.tail) { VacatedRefStays(s, q, t, s.tail); }
  }

  lemma JoinPlaces(s: State, q: Queue, t: Tid, k: nat)
    requires |s.threads| == |s.pred| && ThreadOk(s, q, t) && PlaceOk(s, q, k) && s.threads[t].pc == Swap
    ensures PlaceOk(Step(s, t), QueueNext(s, q, Move(t)), k)
  {
    var r := s.threads[q.order[k]].wait;
    if VacatedRef(s, r) { VacatedRefStays(s, q, t, r); }
    PlaceFrame(s, q, Step(s, t), QueueNext(s, q, Move(t)), k);
  }

  lemma JoinLast(s: State, q: Queue, t: Tid)
    requires Inv(s, q) && t < |s.threads| && s.threads[t].pc == Swap
    ensures PlaceOk(Step(s, t), QueueNext(s, q, Move(t)), |q.order|)
  {
    AtThread(s, q, t);
    if VacatedRef(s, s.tail) { VacatedRefStays(s, q, t, s.tail); }
  }

  lemma JoinThreads(s: State, q: Queue, t: Tid)
    requires Inv(s, q) && t < |s.threads| && s.threads[t].pc == Swap
    ensures forall u :: 0 <= u < |s.threads| ==> ThreadOk(Step(s, t), QueueNext(s, q, Move(t)), u)
  {
    AtThread(s, q, t);
    forall u | 0 <= u < |s.threads| ensures ThreadOk(Step(s, t), QueueNext(s, q, Move(t)), u) {
      AtThread(s, q, u);
    }
  }

  lemma JoinStep(s: State, q: Queue, t: Tid)
    requires Inv(s, q) && t < |s.threads| && s.threads[t].pc == Swap
    ensures Inv(Step(s, t), QueueNext(s, q, Move(t)))
  {
    var s', q' := Step(s, t), QueueNext(s, q, Move(t));
    StepCount(s, q, t);
    JoinThreads(s, q, t);
    JoinLast(s, q, t);
    forall k | q'.served <= k < |q'.order| ensures PlaceOk(s', q', k) {
      if k < |q.order| { JoinPlaces(s, q, t, k); }
    }
  }

  lemma QuitPlaces(s: State, q: Queue, t: Tid, k: nat)
    requires |s.threads| == |s.pred| && ThreadOk(s, q, t) && s.threads[t].pc == GiveUp && s.tail == Node(t)
    requires k < |q.order| - 1 && PlaceOk(s, q, k) && q.order[k] != t
    ensures PlaceOk(Step(s, t), QueueNext(s, q, Move(t)), k)
  {
    var r := s.threads[q.order[k]].wait;
    if VacatedRef(s, r) { VacatedRefStays(s, q, t, r); }
    PlaceFrame(s, q, Step(s, t), QueueNext(s, q, Move(t)), k);
  }

  /** Nobody else is affected: the quitter alone holds the last place. */
  lemma QuitThread(s: State, q: Queue, t: Tid, u: Tid)
    requires ThreadOk(s, q, t) && ThreadOk(s, q, u) && s.threads[t].pc == GiveUp && s.tail == Node(t)
    requires q.order != [] && q.order[|q.order| - 1] == t
    ensures ThreadOk(Step(s, t), QueueNext(s, q, Move(t)), u)
  {
  }

  /** The quitter that is the tail holds the last place. */
  lemma TailIsLast(s: State, q: Queue, t: Tid)
    requires Inv(s, q) && t < |s.threads| && s.threads[t].pc == GiveUp && s.tail == Node(t)
    ensures q.served < |q.order| && q.order[|q.order| - 1] == t && q.place[t] == |q.order| - 1
  {
    AtThread(s, q, t);
    assert PlaceOk(s, q, |q.order| - 1);
  }

  lemma QuitTail(s: State, q: Queue, t: Tid)
    requires |s.threads| == |s.pred| && ThreadOk(s, q, t) && s.threads[t].pc == GiveUp && s.tail == Node(t)
    requires q.served < |q.order| && q.order[|q.order| - 1] == t && PlaceOk(s, q, |q.order| - 1)
    ensures TailOk(Step(s, t), QueueNext(s, q, Move(t)))
  {
    var r := s.threads[t].wait;
    if VacatedRef(s, r) { VacatedRefStays(s, q, t, r); }
  }

  lemma WithoutLast(order: seq<Tid>, served: nat)
    requires served < |order|
    ensures order[served..] == order[..|order| - 1][served..] + [order[|order| - 1]]
  {
  }

  /** Giving up from the end: the queue is exactly what it was without the quitter. */
  lemma QuitStep(s: State, q: Queue, t: Tid)
    requires Inv(s, q) && t < |s.threads| && s.threads[t].pc == GiveUp && s.tail == Node(t)
    ensures Inv(Step(s, t), QueueNext(s, q, Move(t)))
    ensures q.served < |q.order| && q.Members() == QueueNext(s, q, Move(t)).Members() + [t]
  {
    var s', q' := Step(s, t), QueueNext(s, q, Move(t));
    TailIsLast(s, q, t);
    StepCount(s, q, t);
    assert ThreadOk(s, q, t) && PlaceOk(s, q, |q.order| - 1);
    QuitTail(s, q, t);
    WithoutLast(q.order, q.served);
    forall u | 0 <= u < |s'.threads| ensures ThreadOk(s', q', u) {
      assert ThreadOk(s, q, t) && ThreadOk(s, q, u);
      QuitThread(s, q, t, u);
    }
    forall k | q'.served <= k < |q'.order| ensures PlaceOk(s', q', k) {
      assert ThreadOk(s, q, t) && PlaceOk(s, q, k);
      QuitPlaces(s, q, t, k);
    }
  }

  /** The places behind the front: the first of them now waits on a thread that has left. */
  lemma LeavePlaces(s: State, q: Queue, t: Tid, k: nat)
    requires |s.threads| == |s.pred| && ThreadOk(s, q, t) && q.IsFront(t) && s.tail != Node(t)
    requires s.threads[t].pc == Unlock || s.threads[t].pc == GiveUp
    requires q.served < k && PlaceOk(s, q, k) && q.order[k] != t
    ensures PlaceOk(Step(s, t), QueueNext(s, q, Move(t)), k)
  {
  }

  lemma LeaveThreads(s: State, q: Queue, t: Tid)
    requires Inv(s, q) && t < |s.threads| && q.IsFront(t)
    requires s.threads[t].pc == Unlock || (s.threads[t].pc == GiveUp && s.tail != Node(t))
    ensures forall u :: 0 <= u < |s.threads| ==> ThreadOk(Step(s, t), QueueNext(s, q, Move(t)), u)
  {
    AtThread(s, q, t);
    forall u | 0 <= u < |s.threads| ensures ThreadOk(Step(s, t), QueueNext(s, q, Move(t)), u) {
      AtThread(s, q, u);
    }
  }

  lemma LeaveTail(s: State, q: Queue, t: Tid)
    requires TailOk(s, q) && t < |s.threads| && q.IsFront(t)
    requires q.served + 1 < |q.order| ==> q.order[|q.order| - 1] != t
    requires s.threads[t].pc == Unlock || (s.threads[t].pc == GiveUp && s.tail != Node(t))
    ensures TailOk(Step(s, t), QueueNext(s, q, Move(t)))
  {
  }

  /** The front leaves: by its release, or by a give-up when it need not wait any longer. */
  lemma LeaveStep(s: State, q: Queue, t: Tid)
    requires Inv(s, q) && t < |s.threads| && q.IsFront(t)
    requires s.threads[t].pc == Unlock || (s.threads[t].pc == GiveUp && s.tail != Node(t))
    ensures Inv(Step(s, t), QueueNext(s, q, Move(t)))
  {
    var s', q' := Step(s, t), QueueNext(s, q, Move(t));
    StepCount(s, q, t);
    assert PlaceOk(s, q, q.served) && PlaceOk(s, q, |q.order| - 1);
    LeaveTail(s, q, t);
    LeaveThreads(s, q, t);
    forall k | q'.served <= k < |q'.order| ensures PlaceOk(s', q', k) {
      assert ThreadOk(s, q, t) && PlaceOk(s, q, k) && PlaceOk(s, q, q.served);
      LeavePlaces(s, q, t, k);
    }
  }

  lemma NextInv(s: State, q: Queue, e: Event)
    requires Inv(s, q) && Orderly(s, e)
    ensures Inv(Next(s, e), QueueNext(s, q, e))
  {
    if e.t < |s.threads| {
      match e
      case Move(t) =>
        match s.threads[t].pc {
          case Swap => JoinStep(s, q, t);
          case GiveUp =>
            if s.tail == Node(t) { QuitStep(s, q, t); } else { VacatedIsFront(s, q, t); LeaveStep(s, q, t); }
          case Unlock => AtThread(s, q, t); LeaveStep(s, q, t);
          case _ => LocalStep(s, q, t);
        }
      case Timeout(t) => TimeoutInv(s, q, t);
    }
  }

  lemma TimeoutInv(s: State, q: Queue, t: Tid)
    requires Inv(s, q) && t < |s.threads|
    ensures Inv(Next(s, Timeout(t)), q)
  {
    var s' := Next(s, Timeout(t));
    if s' != s {
      AtThread(s, q, t);
      SumUpdate(s.threads, AsCounted, t, s'.threads[t]);
      forall u | 0 <= u < |s'.threads| ensures ThreadOk(s', q, u) {
        AtThread(s, q, u);
      }
      forall k | q.served <= k < |q.order| ensures PlaceOk(s', q, k) {
        assert PlaceOk(s, q, k);
      }
    }
  }

  lemma {:induction false} RunInv(s: State, q: Queue, events: seq<Event>)
    requires Inv(s, q) && OrderlyRun(s, events)
    ensures Inv(Run(s, events), QueueRun(s, q, events))
    decreases |events|
  {
    if events != [] {
      NextInv(s, q, events[0]);
      RunInv(Next(s, events[0]), QueueNext(s, q, events[0]), events[1..]);
    }
  }

  function QueueRun(s: State, q: Queue, events: seq<Event>): Queue
    decreases |events|
  {
    if events == [] then q else QueueRun(Next(s, events[0]), QueueNext(s, q, events[0]), events[1..])
  }
}
