/** What every run of the timeout lock keeps, and how many threads it is safe for. */
module TimeoutCorrectness {
  import opened Sequences
  import Runs
  import opened TimeoutLock

  // ---------------------------------------------------------------- what polls find on every run

  predicate PredsOk(s: State) {
    forall t :: 0 <= t < |s.pred| ==> s.pred[t] == Null || s.pred[t] == Available
  }

  lemma {:induction false} RunPreds(s: State, events: seq<Event>)
    requires PredsOk(s)
    ensures PredsOk(Run(s, events))
    decreases |events|
  {
    if events != [] { RunPreds(Next(s, events[0]), events[1..]); }
  }

  /**
   * On every run, orderly or not, a poll finds NULL or AVAILABLE: no thread ever stores a reference to another
   * node, so a waiter never moves on from the node that it first waited on.
   */
  lemma PollNeverFollows(threads: nat, events: seq<Event>, t: Tid)
    requires var s := Run(Init(threads), events); t < |s.threads| && s.threads[t].pc == LoadPred
    ensures var s := Run(Init(threads), events);
            && (PredOf(s, s.threads[t].wait) == Null || PredOf(s, s.threads[t].wait) == Available)
            && Step(s, t).threads[t].wait == s.threads[t].wait
  {
    RunPreds(Init(threads), events);
  }

  // ---------------------------------------------------------------- what every orderly run keeps

  lemma MutualExclusion(threads: nat, events: seq<Event>, t: Tid, u: Tid)
    requires OrderlyRun(Init(threads), events)
    requires Holding(Run(Init(threads), events), t) && Holding(Run(Init(threads), events), u)
    ensures t == u
  {
    InitInv(threads);
    RunInv(Init(threads), InitQueue(threads), events);
    AtThread(Run(Init(threads), events), QueueRun(Init(threads), InitQueue(threads), events), t);
    AtThread(Run(Init(threads), events), QueueRun(Init(threads), InitQueue(threads), events), u);
  }

  /** Every thread that gives up does so while it is still the tail. */
  predicate QuitsFromTail(s: State, events: seq<Event>)
    decreases |events|
  {
    events == [] ||
    ((events[0].Move? && events[0].t < |s.threads| && s.threads[events[0].t].pc == GiveUp ==>
        s.tail == Node(events[0].t))
     && QuitsFromTail(Next(s, events[0]), events[1..]))
  }

  /** Runs on which every give-up swap succeeds are among the orderly ones. */
  lemma {:induction false} TailQuitsAreOrderly(s: State, events: seq<Event>)
    requires QuitsFromTail(s, events)
    ensures OrderlyRun(s, events)
    decreases |events|
  {
    if events != [] {
      TailQuitsAreOrderly(Next(s, events[0]), events[1..]);
    }
  }

  lemma MutualExclusionWhenQuitsSucceed(threads: nat, events: seq<Event>, t: Tid, u: Tid)
    requires QuitsFromTail(Init(threads), events)
    requires Holding(Run(Init(threads), events), t) && Holding(Run(Init(threads), events), u)
    ensures t == u
  {
    TailQuitsAreOrderly(Init(threads), events);
    MutualExclusion(threads, events, t, u);
  }

  /** A successful give-up takes the quitter, and nobody else, off the end of the queue. */
  lemma GiveUpRestoresQueue(threads: nat, events: seq<Event>, t: Tid)
    requires OrderlyRun(Init(threads), events)
    requires var s := Run(Init(threads), events); t < |s.threads| && s.threads[t].pc == GiveUp && s.tail == Node(t)
    ensures var s, q := Run(Init(threads), events), QueueRun(Init(threads), InitQueue(threads), events);
            var q' := QueueNext(s, q, Move(t));
            && q.served <= |q.order| && q'.served <= |q'.order|
            && q.Members() == q'.Members() + [t]
            && Inv(Step(s, t), q')
  {
    InitInv(threads);
    RunInv(Init(threads), InitQueue(threads), events);
    QuitStep(Run(Init(threads), events), QueueRun(Init(threads), InitQueue(threads), events), t);
  }

  /** The counter is the number of threads that have written it. */
  lemma NoLostIncrements(threads: nat, events: seq<Event>)
    requires OrderlyRun(Init(threads), events)
    ensures Run(Init(threads), events).shared == Sum(Run(Init(threads), events).threads, AsCounted)
  {
    InitInv(threads);
    RunInv(Init(threads), InitQueue(threads), events);
  }

  /** The thread at the front gets the lock at its next poll, once the one ahead has made its release visible. */
  lemma FrontGetsIn(threads: nat, events: seq<Event>, t: Tid)
    requires OrderlyRun(Init(threads), events)
    requires var s, q := Run(Init(threads), events), QueueRun(Init(threads), InitQueue(threads), events);
             q.IsFront(t) && t < |s.threads| && s.threads[t].pc == LoadPred
    ensures var s := Run(Init(threads), events);
            s.threads[t].wait.Node? &&
            var ahead := s.threads[t].wait.owner;
            if Pending(s, ahead) then ahead != t && Holding(Step(Step(s, ahead), t), t) else Holding(Step(s, t), t)
  {
    InitInv(threads);
    RunInv(Init(threads), InitQueue(threads), events);
    var s, q := Run(Init(threads), events), QueueRun(Init(threads), InitQueue(threads), events);
    assert PlaceOk(s, q, q.served);
  }

  // ---------------------------------------------------------------- progress

  predicate Finished(th: Thread) {
    th.pc == Done || th.pc == Abandoned
  }

  predicate AllFinished(s: State) {
    forall t :: 0 <= t < |s.threads| ==> Finished(s.threads[t])
  }

  /** The steps a thread still needs if every poll of its succeeds. */
  function Remaining(th: Thread): int {
    match th.pc
    case Start => 10
    case Swap => 9
    case Clock => 8
    case LoadPred => 7
    case Inside => 6
    case Loaded => 5
    case Unlock => 4
    case StoreRelease => 3
    case GiveUp => 2
    case StoreGiveUp => 1
    case Abandoned | Done => 0
  }

  function Measure(s: State): int {
    Sum(s.threads, Remaining)
  }

  predicate Advances(s: State, t: Tid) {
    t < |s.threads| && Orderly(s, Move(t)) && Remaining(Step(s, t).threads[t]) < Remaining(s.threads[t])
  }

  /** A thread that need not wait always advances. */
  lemma MoverAdvances(s: State, t: Tid)
    requires t < |s.threads| && !Finished(s.threads[t]) && !Waiting(s, t)
    ensures Advances(s, t)
  {
  }

  /** A waiter advances once the one ahead has made its leaving visible. */
  lemma WaiterAdvances(s: State, t: Tid)
    requires Waiting(s, t) && VacatedRef(s, s.threads[t].wait) && !Pending(s, s.threads[t].wait.owner)
    ensures Advances(s, t)
  {
  }

  /** Some thread has an orderly step that brings it nearer to its end: any that need not wait, else the front. */
  lemma SomebodyAdvances(s: State, q: Queue) returns (t: Tid)
    requires Inv(s, q) && !AllFinished(s)
    ensures Advances(s, t)
  {
    if u: Tid :| u < |s.threads| && !Finished(s.threads[u]) && !Waiting(s, u) {
      t := u;
      MoverAdvances(s, t);
    } else {
      var u: Tid :| u < |s.threads| && Waiting(s, u);
      AtThread(s, q, u);
      assert PlaceOk(s, q, q.served);
      t := q.order[q.served];
      WaiterAdvances(s, t);
    }
  }

  lemma AdvanceLowersMeasure(s: State, t: Tid)
    requires Advances(s, t)
    ensures 0 <= Measure(Step(s, t)) < Measure(s)
  {
    SumDrop(s.threads, Remaining, Step(s, t).threads, Remaining, t, 1, 0);
    SumAtLeast(Step(s, t).threads, Remaining, 0);
  }

  /** 1 for a thread that had the lock. */
  function HadLock(th: Thread): int {
    if th.pc == Done then 1 else 0
  }

  lemma {:induction false} Finish(s: State, q: Queue) returns (more: seq<Event>)
    requires Inv(s, q)
    ensures OrderlyRun(s, more) && AllFinished(Run(s, more))
    ensures Run(s, more).shared == Sum(Run(s, more).threads, HadLock)
    decreases Measure(s)
  {
    SumAtLeast(s.threads, Remaining, 0);
    if AllFinished(s) {
      more := [];
      SumSame(s.threads, AsCounted, s.threads, HadLock);
    } else {
      var t := SomebodyAdvances(s, q);
      AdvanceLowersMeasure(s, t);
      NextInv(s, q, Move(t));
      var rest := Finish(Next(s, Move(t)), QueueNext(s, q, Move(t)));
      more := [Move(t)] + rest;
      assert more[1..] == rest;
    }
  }

  /** Every orderly run can be completed in an orderly way; then the counter tells how many threads got the lock. */
  lemma EveryRunCanFinish(threads: nat, events: seq<Event>)
    requires OrderlyRun(Init(threads), events)
    ensures exists more: seq<Event> ::
      var s := Run(Run(Init(threads), events), more);
      OrderlyRun(Run(Init(threads), events), more) && AllFinished(s) && s.shared == Sum(s.threads, HadLock)
  {
    InitInv(threads);
    RunInv(Init(threads), InitQueue(threads), events);
    var more := Finish(Run(Init(threads), events), QueueRun(Init(threads), InitQueue(threads), events));
  }

  // ---------------------------------------------------------------- why quitters must be orderly

  /** The successor of a quitter polls on past it. */
  predicate FollowsPolling(s: State, u: Tid, t: Tid) {
    u < |s.threads| && s.threads[u].pc == LoadPred && s.threads[u].wait == Node(t)
  }

  /**
   * Whenever a waiter gives up while it is neither the tail nor next in line, its failed swap publishes AVAILABLE
   * too early: with a holder inside and a successor about to poll, three steps let the successor in as well.
   */
  lemma DisorderlyQuitBreaksExclusion(s: State, q: Queue, t: Tid, u: Tid, h: Tid)
    requires Inv(s, q) && t < |s.threads| && s.threads[t].pc == GiveUp && !Orderly(s, Move(t))
    requires FollowsPolling(s, u, t) && Holding(s, h)
    ensures var s' := Run(s, [Move(t), Move(t), Move(u)]); u != h && Holding(s', u) && Holding(s', h)
  {
    var s2 := Next(Next(s, Move(t)), Move(t));
    assert [Move(t), Move(t), Move(u)] == [Move(t), Move(t)] + [Move(u)];
    Runs.RunTwo(Next, s, Move(t), Move(t), [Move(u)]);
    Runs.RunOne(Next, s2, Move(u));
    AtThread(s, q, t);
  }

  // ---------------------------------------------------------------- how many threads are safe

  ghost predicate Excludes(threads: nat, events: seq<Event>) {
    forall t, u :: Holding(Run(Init(threads), events), t) && Holding(Run(Init(threads), events), u) ==> t == u
  }

  /** A disorderly quitter needs somebody ahead of it and somebody behind it. */
  lemma TwoThreadsAreOrderly(s: State, q: Queue, e: Event)
    requires Inv(s, q) && |s.threads| <= 2
    ensures Orderly(s, e)
  {
    if e.Move? && e.t < |s.threads| && s.threads[e.t].pc == GiveUp && s.tail != Node(e.t) {
      AtThread(s, q, e.t);
      assert PlaceOk(s, q, |q.order| - 1) && PlaceOk(s, q, q.served);
    }
  }

  lemma {:induction false} TwoThreadRunIsOrderly(s: State, q: Queue, events: seq<Event>)
    requires Inv(s, q) && |s.threads| <= 2
    ensures OrderlyRun(s, events)
    decreases |events|
  {
    if events != [] {
      TwoThreadsAreOrderly(s, q, events[0]);
      NextInv(s, q, events[0]);
      TwoThreadRunIsOrderly(Next(s, events[0]), QueueNext(s, q, events[0]), events[1..]);
    }
  }

  /** Thread 0 takes the lock, 1 and 2 queue up behind it, */
  const QUEUE_UP: seq<Event> := [Move(0), Move(0)] + ([Move(1), Move(1)] + ([Move(2), Move(2)] + []))

  /** 1 times out and 2 polls. */
  const QUIT_AND_POLL: seq<Event> := [Move(2), Timeout(1)] + ([Move(1), Move(1)] + [Move(2)])

  /** The part of a state that the first three threads show. */
  predicate Shows(s: State, tail: Ref, pcs: (Pc, Pc, Pc), waits: (Ref, Ref), pred1: Ref) {
    && |s.threads| == |s.pred| >= 3 && s.tail == tail
    && s.threads[0].pc == pcs.0 && s.threads[1].pc == pcs.1 && s.threads[2].pc == pcs.2
    && s.threads[1].wait == waits.0 && s.threads[2].wait == waits.1 && s.pred[1] == pred1
  }

  lemma FirstGetsIn(threads: nat)
    requires threads >= 3
    ensures Shows(Next(Next(Init(threads), Move(0)), Move(0)), Node(0), (Inside, Start, Start), (Null, Null), Null)
  {
  }

  lemma SecondQueuesUp(s: State)
    requires Shows(s, Node(0), (Inside, Start, Start), (Null, Null), Null)
    ensures Shows(Next(Next(s, Move(1)), Move(1)), Node(1), (Inside, Clock, Start), (Node(0), Null), Null)
  {
  }

  lemma ThirdQueuesUp(s: State)
    requires Shows(s, Node(1), (Inside, Clock, Start), (Node(0), Null), Null)
    ensures Shows(Next(Next(s, Move(2)), Move(2)), Node(2), (Inside, Clock, Clock), (Node(0), Node(1)), Null)
  {
  }

  lemma ThreeQueueUp(threads: nat)
    requires threads >= 3
    ensures Shows(Run(Init(threads), QUEUE_UP), Node(2), (Inside, Clock, Clock), (Node(0), Node(1)), Null)
  {
    var s2 := Next(Next(Init(threads), Move(0)), Move(0));
    var s4 := Next(Next(s2, Move(1)), Move(1));
    var last := [Move(2), Move(2)] + [];
    FirstGetsIn(threads);
    SecondQueuesUp(s2);
    ThirdQueuesUp(s4);
    Runs.RunTwo(Next, Init(threads), Move(0), Move(0), [Move(1), Move(1)] + last);
    Runs.RunTwo(Next, s2, Move(1), Move(1), last);
    Runs.RunTwo(Next, s4, Move(2), Move(2), []);
  }

  lemma MiddleOneQuits(s: State)
    requires Shows(s, Node(2), (Inside, Clock, Clock), (Node(0), Node(1)), Null)
    ensures Shows(Run(s, QUIT_AND_POLL), Node(2), (Inside, Abandoned, Inside), (Node(0), Node(1)), Available)
  {
    var s2 := Next(Next(s, Move(2)), Timeout(1));
    assert Shows(s2, Node(2), (Inside, GiveUp, LoadPred), (Node(0), Node(1)), Null);
    var s4 := Next(Next(s2, Move(1)), Move(1));
    assert Shows(s4, Node(2), (Inside, Abandoned, LoadPred), (Node(0), Node(1)), Available);
    Runs.RunTwo(Next, s, Move(2), Timeout(1), [Move(1), Move(1)] + [Move(2)]);
    Runs.RunTwo(Next, s2, Move(1), Move(1), [Move(2)]);
    Runs.RunOne(Next, s4, Move(2));
  }

  lemma ThreeThreadsBreakExclusion(threads: nat)
    requires threads >= 3
    ensures !Excludes(threads, QUEUE_UP + QUIT_AND_POLL)
  {
    ThreeQueueUp(threads);
    MiddleOneQuits(Run(Init(threads), QUEUE_UP));
    Runs.RunAppend(Next, Init(threads), QUEUE_UP, QUIT_AND_POLL);
    var s := Run(Init(threads), QUEUE_UP + QUIT_AND_POLL);
    assert Holding(s, 0) && Holding(s, 2);
  }

  /** With timeouts unrestricted the lock excludes on every run exactly when at most two threads use it. */
  lemma ExcludesIffAtMostTwo(threads: nat)
    ensures (forall events :: Excludes(threads, events)) <==> threads <= 2
  {
    if threads <= 2 {
      forall events ensures Excludes(threads, events) {
        InitInv(threads);
        TwoThreadRunIsOrderly(Init(threads), InitQueue(threads), events);
        forall t, u | Holding(Run(Init(threads), events), t) && Holding(Run(Init(threads), events), u) ensures t == u {
          MutualExclusion(threads, events, t, u);
        }
      }
    } else {
      ThreeThreadsBreakExclusion(threads);
    }
  }
}
