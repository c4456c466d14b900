/** The order of grants of the timeout lock: that of the exchanges, those who give up skipped. */
module TimeoutOrder {
  import opened Sequences
  import Runs
  import opened TimeoutLock

  /** Is this event an exchange on tail? */
  predicate Exchanges(s: State, e: Event) {
    e.Move? && e.t < |s.threads| && s.threads[e.t].pc == Swap
  }

  /** Does this event give a thread the lock? */
  predicate Enters(s: State, e: Event) {
    !Holding(s, e.t) && Holding(Next(s, e), e.t)
  }

  function ExchangeLog(s: State, events: seq<Event>): seq<Event> {
    Runs.Picked(Next, Exchanges, s, events)
  }

  function EntryLog(s: State, events: seq<Event>): seq<Event> {
    Runs.Picked(Next, Enters, s, events)
  }

  function OrderLog(order: seq<Tid>): seq<Event> {
    seq(|order|, i requires 0 <= i < |order| => Move(order[i]))
  }

  /** The places of the queue's order that have been granted or passed over: those served, and a front that holds. */
  function Passed(s: State, q: Queue): nat {
    q.served + if q.served < |q.order| && Holding(s, q.order[q.served]) then 1 else 0
  }

  /** The order is what quitters have left of the exchanges, and the entries are what they have left of its front. */
  predicate LogsOk(s: State, q: Queue, exchanges: seq<Event>, entries: seq<Event>) {
    && Subsequence(OrderLog(q.order), exchanges)
    && Passed(s, q) <= |q.order|
    && Subsequence(entries, OrderLog(q.order[..Passed(s, q)]))
  }

  function Logged(log: seq<Event>, logged: bool, e: Event): seq<Event> {
    if logged then log + [e] else log
  }

  lemma OrderLogEnd(order: seq<Tid>, k: nat)
    requires k < |order|
    ensures OrderLog(order[..k + 1]) == OrderLog(order[..k]) + [Move(order[k])]
  {
  }

  lemma PassedAtExchange(s: State, q: Queue, t: Tid)
    requires ThreadOk(s, q, t) && TailOk(s, q) && s.threads[t].pc == Swap && q.served <= |q.order|
    requires q.served < |q.order| ==> PlaceOk(s, q, q.served)
    ensures var s', q' := Next(s, Move(t)), QueueNext(s, q, Move(t));
            && q'.order == q.order + [t]
            && Passed(s', q') == Passed(s, q) + (if Enters(s, Move(t)) then 1 else 0)
            && (Enters(s, Move(t)) ==> q.served == |q.order|)
  {
  }

  /** An exchange joins the order at its end, and enters at once only if the queue was empty. */
  lemma ExchangeLogs(s: State, q: Queue, t: Tid, exchanges: seq<Event>, entries: seq<Event>)
    requires Inv(s, q) && LogsOk(s, q, exchanges, entries) && t < |s.threads| && s.threads[t].pc == Swap
    ensures var e := Move(t);
            LogsOk(Next(s, e), QueueNext(s, q, e), exchanges + [e], Logged(entries, Enters(s, e), e))
  {
    var e, n := Move(t), Passed(s, q);
    assert ThreadOk(s, q, t);
    if q.served < |q.order| { assert PlaceOk(s, q, q.served); }
    PassedAtExchange(s, q, t);
    var order := q.order + [t];
    assert OrderLog(order) == OrderLog(q.order) + [e];
    TakeOne(OrderLog(q.order), exchanges, e);
    if Enters(s, e) {
      assert q.order[..n] == q.order && order[..n + 1] == order;
      TakeOne(entries, OrderLog(q.order), e);
    } else {
      assert order[..n] == q.order[..n];
    }
  }

  /** A give-up from the end takes the quitter off the order; what was passed stays. */
  lemma QuitLogs(s: State, q: Queue, t: Tid, exchanges: seq<Event>, entries: seq<Event>)
    requires Inv(s, q) && LogsOk(s, q, exchanges, entries) && t < |s.threads|
    requires s.threads[t].pc == GiveUp && s.tail == Node(t)
    ensures LogsOk(Next(s, Move(t)), QueueNext(s, q, Move(t)), exchanges, entries)
  {
    TailIsLast(s, q, t);
    var s', q', n := Next(s, Move(t)), QueueNext(s, q, Move(t)), |q.order| - 1;
    assert PlaceOk(s, q, q.served);
    assert OrderLog(q'.order) == OrderLog(q.order)[..n];
    SubsequenceFront(OrderLog(q.order), exchanges, n);
    assert Passed(s', q') == Passed(s, q) && q'.order[..Passed(s, q)] == q.order[..Passed(s, q)];
  }

  /** The front leaves, by its release or when it need not wait; nobody behind it holds the lock. */
  lemma LeaveLogs(s: State, q: Queue, t: Tid, exchanges: seq<Event>, entries: seq<Event>)
    requires Inv(s, q) && LogsOk(s, q, exchanges, entries) && t < |s.threads| && q.IsFront(t)
    requires s.threads[t].pc == Unlock || (s.threads[t].pc == GiveUp && s.tail != Node(t))
    ensures LogsOk(Next(s, Move(t)), QueueNext(s, q, Move(t)), exchanges, entries)
  {
    var s', q' := Next(s, Move(t)), QueueNext(s, q, Move(t));
    if q'.served < |q.order| { assert PlaceOk(s, q, q'.served) && PlaceOk(s, q, q.served); }
    assert Passed(s', q') == q.served + 1;
    if Passed(s, q) == q.served {
      OrderLogEnd(q.order, q.served);
      SkipOne(entries, OrderLog(q.order[..q.served]), Move(t));
    }
  }

  predicate Looks(s: State, e: Event) {
    e.t < |s.threads| &&
    (e.Timeout? || (s.threads[e.t].pc != Swap && s.threads[e.t].pc != GiveUp && s.threads[e.t].pc != Unlock))
  }

  lemma PassedAtLook(s: State, q: Queue, e: Event)
    requires Looks(s, e) && (q.served < |q.order| ==> q.order[q.served] < |s.threads|)
    requires Enters(s, e) ==> q.IsFront(e.t)
    ensures Passed(Next(s, e), q) == Passed(s, q) + (if Enters(s, e) then 1 else 0)
    ensures Enters(s, e) ==> e == Move(e.t) && Passed(s, q) == q.served < |q.order|
  {
  }

  lemma EntersAsFront(s: State, q: Queue, e: Event)
    requires Inv(s, q) && Looks(s, e) && Enters(s, e)
    ensures q.IsFront(e.t)
  {
    PollSees(s, q, e.t);
  }

  /** Any other event leaves the order alone, and whoever enters is its front. */
  lemma OtherLogs(s: State, q: Queue, e: Event, exchanges: seq<Event>, entries: seq<Event>)
    requires Inv(s, q) && LogsOk(s, q, exchanges, entries) && Looks(s, e)
    ensures LogsOk(Next(s, e), q, exchanges, Logged(entries, Enters(s, e), e))
  {
    if q.served < |q.order| { assert PlaceOk(s, q, q.served); }
    if Enters(s, e) { EntersAsFront(s, q, e); }
    PassedAtLook(s, q, e);
    if Enters(s, e) {
      OrderLogEnd(q.order, q.served);
      TakeOne(entries, OrderLog(q.order[..q.served]), e);
    }
  }

  lemma NextLogs(s: State, q: Queue, e: Event, exchanges: seq<Event>, entries: seq<Event>)
    requires Inv(s, q) && Orderly(s, e) && LogsOk(s, q, exchanges, entries)
    ensures LogsOk(Next(s, e), QueueNext(s, q, e),
                   Logged(exchanges, Exchanges(s, e), e), Logged(entries, Enters(s, e), e))
  {
    if e.t < |s.threads| {
      if e.Move? && s.threads[e.t].pc == Swap {
        ExchangeLogs(s, q, e.t, exchanges, entries);
      } else if e.Move? && s.threads[e.t].pc == GiveUp && s.tail == Node(e.t) {
        QuitLogs(s, q, e.t, exchanges, entries);
      } else if e.Move? && (s.threads[e.t].pc == GiveUp || s.threads[e.t].pc == Unlock) {
        AtThread(s, q, e.t);
        if s.threads[e.t].pc == GiveUp { VacatedIsFront(s, q, e.t); }
        LeaveLogs(s, q, e.t, exchanges, entries);
      } else {
        OtherLogs(s, q, e, exchanges, entries);
      }
    }
  }

  lemma LoggedThen(log: seq<Event>, logged: bool, e: Event, rest: seq<Event>)
    ensures Logged(log, logged, e) + rest == log + ((if logged then [e] else []) + rest)
  {
  }

  lemma {:induction false} RunLogs(s: State, q: Queue, events: seq<Event>, exchanges: seq<Event>, entries: seq<Event>)
    requires Inv(s, q) && OrderlyRun(s, events) && LogsOk(s, q, exchanges, entries)
    ensures LogsOk(Run(s, events), QueueRun(s, q, events),
                   exchanges + ExchangeLog(s, events), entries + EntryLog(s, events))
    decreases |events|
  {
    if events == [] {
      assert exchanges + [] == exchanges && entries + [] == entries;
    } else {
      var e, rest := events[0], events[1..];
      var s', x, y := Next(s, e), Exchanges(s, e), Enters(s, e);
      NextInv(s, q, e);
      NextLogs(s, q, e, exchanges, entries);
      RunLogs(s', QueueNext(s, q, e), rest, Logged(exchanges, x, e), Logged(entries, y, e));
      LoggedThen(exchanges, x, e, ExchangeLog(s', rest));
      LoggedThen(entries, y, e, EntryLog(s', rest));
    }
  }

  /** On every orderly run the threads that enter do so in the order of their exchanges. */
  lemma EntersInExchangeOrder(threads: nat, events: seq<Event>)
    requires OrderlyRun(Init(threads), events)
    ensures Subsequence(EntryLog(Init(threads), events), ExchangeLog(Init(threads), events))
  {
    var s, q := Init(threads), InitQueue(threads);
    InitInv(threads);
    RunLogs(s, q, events, [], []);
    var s', q', entries := Run(s, events), QueueRun(s, q, events), EntryLog(s, events);
    assert [] + entries == entries && [] + ExchangeLog(s, events) == ExchangeLog(s, events);
    SubsequenceFront(OrderLog(q'.order), ExchangeLog(s, events), Passed(s', q'));
    assert OrderLog(q'.order)[..Passed(s', q')] == OrderLog(q'.order[..Passed(s', q')]);
    SubsequenceTrans(entries, OrderLog(q'.order[..Passed(s', q')]), ExchangeLog(s, events));
  }

  // ---------------------------------------------------------------- only those who give up are skipped

  predicate GaveUp(th: Thread) {
    th.pc == StoreGiveUp || th.pc == Abandoned
  }

  /** Thread `t` comes after `u`: as long as `u` waits, `t` has not exchanged, waits further back or has given up. */
  predicate Behind(s: State, q: Queue, u: Tid, t: Tid) {
    && u < |s.threads| && t < |s.threads| && u < |q.place| && t < |q.place|
    && s.threads[u].pc != Start && s.threads[u].pc != Swap
    && (Waiting(s, u) ==>
          || s.threads[t].pc == Start || s.threads[t].pc == Swap || GaveUp(s.threads[t])
          || (Waiting(s, t) && q.place[u] < q.place[t]))
  }

  /** The step of a third thread, or of the one in front, which waits after it only if it did before. */
  lemma OthersBehind(s: State, q: Queue, e: Event, u: Tid, t: Tid)
    requires Behind(s, q, u, t) && e.t != t
    ensures Behind(Next(s, e), QueueNext(s, q, e), u, t)
  {
  }

  /** The step of the one behind: it joins further back, and it cannot get in while the other waits before it. */
  lemma FollowerBehind(s: State, q: Queue, e: Event, u: Tid)
    requires Behind(s, q, u, e.t) && u != e.t
    requires Waiting(s, u) ==> q.served <= q.place[u] < |q.order| && s.tail != Available
    requires Waiting(s, e.t) && Holding(Next(s, e), e.t) ==> q.place[e.t] == q.served
    ensures Behind(Next(s, e), QueueNext(s, q, e), u, e.t)
  {
  }

  /** Whoever gets in from its wait holds the first place. */
  lemma FirstPlaceEnters(s: State, q: Queue, e: Event)
    requires Inv(s, q) && Waiting(s, e.t) && Holding(Next(s, e), e.t)
    ensures q.place[e.t] == q.served
  {
    PollSees(s, q, e.t);
    assert PlaceOk(s, q, q.served);
  }

  lemma StepBehind(s: State, q: Queue, e: Event, u: Tid, t: Tid)
    requires Inv(s, q) && Behind(s, q, u, t) && u != t
    ensures Behind(Next(s, e), QueueNext(s, q, e), u, t)
  {
    if e.t != t {
      OthersBehind(s, q, e, u, t);
    } else {
      assert ThreadOk(s, q, u) && TailOk(s, q);
      if Waiting(s, t) && Holding(Next(s, e), t) { FirstPlaceEnters(s, q, e); }
      FollowerBehind(s, q, e, u);
    }
  }

  lemma {:induction false} RunBehind(s: State, q: Queue, events: seq<Event>, u: Tid, t: Tid)
    requires Inv(s, q) && OrderlyRun(s, events) && Behind(s, q, u, t) && u != t
    ensures Behind(Run(s, events), QueueRun(s, q, events), u, t)
    decreases |events|
  {
    if events != [] {
      NextInv(s, q, events[0]);
      StepBehind(s, q, events[0], u, t);
      RunBehind(Next(s, events[0]), QueueNext(s, q, events[0]), events[1..], u, t);
    }
  }

  /** A thread that waits is not overtaken: whoever had not exchanged by then has not had the lock while it waits. */
  lemma NoOvertaking(threads: nat, before: seq<Event>, after: seq<Event>, u: Tid, t: Tid)
    requires OrderlyRun(Init(threads), before) && OrderlyRun(Run(Init(threads), before), after)
    requires var s := Run(Init(threads), before);
             Waiting(s, u) && t < |s.threads| && (s.threads[t].pc == Start || s.threads[t].pc == Swap)
    requires Waiting(Run(Run(Init(threads), before), after), u)
    ensures var s := Run(Run(Init(threads), before), after);
            t < |s.threads| &&
            (s.threads[t].pc == Start || s.threads[t].pc == Swap || Waiting(s, t) || GaveUp(s.threads[t]))
  {
    InitInv(threads);
    RunInv(Init(threads), InitQueue(threads), before);
    var s, q := Run(Init(threads), before), QueueRun(Init(threads), InitQueue(threads), before);
    AtThread(s, q, u);
    AtThread(s, q, t);
    RunBehind(s, q, after, u, t);
  }
}
