/**
 * The writer-preferring reader/writer lock as a transition system, and its invariant. The lock is three counters
 * under a mutex and two condition variables. Waiting on a condition releases the mutex and falls asleep in one
 * step; a sleeper is woken by a signal, a broadcast or for no reason at all, and then competes for the mutex before
 * it tests its condition again. The invariant says that the counters count and that no wake-up is lost.
 */
module ReadWriteLock {
  import opened Pointers
  import opened Tallies
  import Runs

  type Tid = nat

  /** How unlock wakes writers: one of them, or all. */
  datatype Version = Signal | Broadcast

  datatype Hold = Read | Write

  datatype Pc =
    | Outside            // holds nothing and wants nothing
    | ReadEnter          // read lock, before taking the mutex
    | ReadTest           // about to test writers and pending writers
    | ReadAsleep         // waiting on the reader condition
    | ReadWoken          // woken, before retaking the mutex
    | ReadCount          // about to increment readers
    | ReadExit           // about to release the mutex
    | Reading            // holds the read lock
    | WriteEnter         // write lock, before taking the mutex
    | WriteAnnounce      // about to increment the pending writers
    | WriteTest          // about to test readers and writers
    | WriteAsleep        // waiting on the writer condition
    | WriteWoken         // woken, before retaking the mutex
    | WriteSettle        // about to decrement the pending writers
    | WriteCount         // about to set writers to 1
    | WriteExit          // about to release the mutex
    | Writing            // holds the write lock
    | DropEnter(hold: Hold)  // unlock, before taking the mutex
    | DropCount(hold: Hold)  // about to lower a counter
    | DropWake           // about to wake somebody
    | DropExit           // about to release the mutex

  datatype State = State(readers: int, writers: int, pending: int, mutex: Option<Tid>, pcs: seq<Pc>)

  /** A thread's own step (`choice` is the thread a signal wakes), a client's call, or a wake-up for no reason. */
  datatype Event =
    | Move(t: Tid, choice: Tid)
    | AskRead(t: Tid)
    | AskWrite(t: Tid)
    | AskDrop(t: Tid)
    | Spurious(t: Tid)

  function Init(threads: nat): State {
    State(0, 0, 0, None, seq(threads, _ => Outside))
  }

  function Go(s: State, t: Tid, pc: Pc): State
    requires t < |s.pcs|
  {
    s.(pcs := s.pcs[t := pc])
  }

  function WakeReader(pc: Pc): Pc {
    if pc == ReadAsleep then ReadWoken else pc
  }

  function WakeWriter(pc: Pc): Pc {
    if pc == WriteAsleep then WriteWoken else pc
  }

  function WakeAllReaders(pcs: seq<Pc>): seq<Pc> {
    seq(|pcs|, i requires 0 <= i < |pcs| => WakeReader(pcs[i]))
  }

  function WakeAllWriters(pcs: seq<Pc>): seq<Pc> {
    seq(|pcs|, i requires 0 <= i < |pcs| => WakeWriter(pcs[i]))
  }

  /** May a signal wake the chosen thread? It must wake a sleeping writer if there is one. */
  predicate ValidChoice(s: State, choice: Tid) {
    (choice < |s.pcs| && s.pcs[choice] == WriteAsleep) || (forall t :: 0 <= t < |s.pcs| ==> s.pcs[t] != WriteAsleep)
  }

  function Woken(version: Version, s: State, choice: Tid): seq<Pc> {
    if s.pending <= 0 then WakeAllReaders(s.pcs)
    else if version == Broadcast then WakeAllWriters(s.pcs)
    else if choice < |s.pcs| then s.pcs[choice := WakeWriter(s.pcs[choice])]
    else s.pcs
  }

  function Lock(s: State, t: Tid, pc: Pc): State
    requires t < |s.pcs|
  {
    if s.mutex == None then Go(s, t, pc).(mutex := Some(t)) else s
  }

  function Unlock(s: State, t: Tid, pc: Pc): State
    requires t < |s.pcs|
  {
    Go(s, t, pc).(mutex := None)
  }

  /** The next step of thread `t`; a thread that is asleep, blocked or has no call to make leaves the state as it is. */
  function Step(version: Version, s: State, t: Tid, choice: Tid): State
    requires t < |s.pcs|
  {
    match s.pcs[t]
    case ReadEnter => Lock(s, t, ReadTest)
    case ReadTest => if s.writers > 0 || s.pending > 0 then Unlock(s, t, ReadAsleep) else Go(s, t, ReadCount)
    case ReadWoken => Lock(s, t, ReadTest)
    case ReadCount => Go(s, t, ReadExit).(readers := s.readers + 1)
    case ReadExit => Unlock(s, t, Reading)
    case WriteEnter => Lock(s, t, WriteAnnounce)
    case WriteAnnounce => Go(s, t, WriteTest).(pending := s.pending + 1)
    case WriteTest => if s.readers > 0 || s.writers > 0 then Unlock(s, t, WriteAsleep) else Go(s, t, WriteSettle)
    case WriteWoken => Lock(s, t, WriteTest)
    case WriteSettle => Go(s, t, WriteCount).(pending := s.pending - 1)
    case WriteCount => Go(s, t, WriteExit).(writers := 1)
    case WriteExit => Unlock(s, t, Writing)
    case DropEnter(hold) => Lock(s, t, DropCount(hold))
    case DropCount(hold) =>
      if s.readers > 0 then Go(s, t, DropWake).(readers := s.readers - 1)
      else if s.writers > 0 then Go(s, t, DropWake).(writers := 0)
      else Go(s, t, DropWake)
    case DropWake =>
      if version == Signal && s.pending > 0 && !ValidChoice(s, choice) then s
      else Go(s.(pcs := Woken(version, s, choice)), t, DropExit)
    case DropExit => Unlock(s, t, Outside)
    case Outside | ReadAsleep | Reading | WriteAsleep | Writing => s
  }

  function Next(version: Version, s: State, e: Event): State {
    if e.t >= |s.pcs| then s else
      match e
      case Move(t, choice) => Step(version, s, t, choice)
      case AskRead(t) => if s.pcs[t] == Outside then Go(s, t, ReadEnter) else s
      case AskWrite(t) => if s.pcs[t] == Outside then Go(s, t, WriteEnter) else s
      case AskDrop(t) =>
        if s.pcs[t] == Reading then Go(s, t, DropEnter(Read))
        else if s.pcs[t] == Writing then Go(s, t, DropEnter(Write))
        else s
      case Spurious(t) => Go(s, t, WakeReader(WakeWriter(s.pcs[t])))
  }

  function Nexter(version: Version): (State, Event) -> State {
    (s: State, e: Event) => Next(version, s, e)
  }

  function Run(version: Version, s: State, events: seq<Event>): State {
    Runs.Run(Nexter(version), s, events)
  }

  // ---------------------------------------------------------------- invariant

  predicate InMonitor(pc: Pc) {
    match pc
    case ReadTest | ReadCount | ReadExit => true
    case WriteAnnounce | WriteTest | WriteSettle | WriteCount | WriteExit => true
    case DropCount(_) | DropWake | DropExit => true
    case _ => false
  }

  const READER := Tally(1, 0, 0, 0, 0)
  const WRITER := Tally(0, 1, 0, 0, 0)

  function Weight(pc: Pc): Tally {
    match pc
    case ReadExit | Reading => READER
    case WriteExit | Writing => WRITER
    case DropEnter(hold) => if hold == Read then READER else WRITER
    case DropCount(hold) => if hold == Read then READER else WRITER
    case WriteTest | WriteWoken | WriteSettle => Tally(0, 0, 1, 0, 0)
    case WriteAsleep => Tally(0, 0, 1, 0, 1)
    case ReadAsleep => Tally(0, 0, 0, 1, 0)
    case _ => NOBODY
  }

  function TallyOf(pcs: seq<Pc>): Tally {
    TallyTo(pcs, Weight, |pcs|)
  }

  predicate PcOk(s: State, t: Tid) {
    t < |s.pcs| &&
    var pc := s.pcs[t];
    && (InMonitor(pc) <==> s.mutex == Some(t))
    && (pc == ReadCount ==> s.writers == 0 && s.pending == 0)
    && (pc == WriteSettle || pc == WriteCount ==> s.readers == 0 && s.writers == 0)
  }

  predicate PcsOk(s: State) {
    && (s.mutex.Some? ==> s.mutex.value < |s.pcs|)
    && (forall t :: 0 <= t < |s.pcs| ==> PcOk(s, t))
  }

  predicate CountersOk(s: State) {
    var tally := TallyOf(s.pcs);
    s.readers == tally.readers && s.writers == tally.writers && s.pending == tally.pending
  }

  predicate HoldsOk(s: State) {
    && s.readers >= 0 && s.pending >= 0 && 0 <= s.writers <= 1
    && (s.readers == 0 || s.writers == 0)
  }

  /** Inside the monitor a wake-up or a write lock is about to be given. */
  predicate AboutToSettle(s: State) {
    && s.mutex.Some? && s.mutex.value < |s.pcs|
    && (s.pcs[s.mutex.value] == DropWake || s.pcs[s.mutex.value] == WriteCount)
  }

  /** No lost wake-up for writers: of those waiting for a free lock one is awake. */
  predicate WriterWakeOk(s: State) {
    s.readers == 0 && s.writers == 0 && s.pending > 0 ==> TallyOf(s.pcs).sleepingWriters < s.pending || AboutToSettle(s)
  }

  /** No lost wake-up for readers: none sleeps without a writer. */
  predicate ReaderWakeOk(s: State) {
    s.writers == 0 && s.pending == 0 ==> TallyOf(s.pcs).sleepingReaders == 0 || AboutToSettle(s)
  }

  predicate WakesOk(s: State) {
    WriterWakeOk(s) && ReaderWakeOk(s)
  }

  predicate Inv(s: State) {
    && PcsOk(s)
    && CountersOk(s)
    && HoldsOk(s)
    && WakesOk(s)
  }

  lemma InitInv(threads: nat)
    ensures Inv(Init(threads))
  {
    EmptyTally(Init(threads).pcs, Weight, threads);
    forall t | 0 <= t < threads ensures PcOk(Init(threads), t) { }
  }

  /** How one thread's move changes the tally. */
  lemma TallyChange(pcs: seq<Pc>, t: Tid, pc: Pc)
    requires t < |pcs|
    ensures TallyOf(pcs[t := pc]).Plus(Weight(pcs[t])) == TallyOf(pcs).Plus(Weight(pc))
  {
    UpdateTally(pcs, Weight, t, pc, |pcs|);
  }

  /** Nothing is negative, sleeping writers are pending, and each thread is counted. */
  lemma TallyBounds(pcs: seq<Pc>, t: Tid)
    ensures TallyOf(pcs).Covers(if t < |pcs| then Weight(pcs[t]) else NOBODY)
    ensures TallyOf(pcs).sleepingWriters <= TallyOf(pcs).pending
  {
    BoundTally(pcs, Weight, t, |pcs|);
  }

  /** A move of one thread that stays within the counters it may touch keeps everybody's condition. */
  lemma MoveKeepsPcs(s: State, s': State, t: Tid)
    requires PcsOk(s) && t < |s.pcs| == |s'.pcs| && s'.pcs == s.pcs[t := s'.pcs[t]]
    requires PcOk(s', t)
    requires s.mutex == None || s.mutex == Some(t) || (s'.mutex == s.mutex && s'.readers == s.readers
          && s'.writers == s.writers && s'.pending == s.pending)
    requires s'.mutex == s.mutex || s'.mutex == Some(t) || s'.mutex == None
    ensures PcsOk(s')
  {
    forall u | 0 <= u < |s'.pcs| ensures PcOk(s', u) {
      assert PcOk(s, u);
    }
  }

  lemma OwnPc(version: Version, s: State, t: Tid, choice: Tid)
    requires PcOk(s, t) && HoldsOk(s) && s.pcs[t] != DropWake
    ensures PcOk(Step(version, s, t, choice), t)
  {
  }

  lemma MovePcs(version: Version, s: State, t: Tid, choice: Tid)
    requires PcsOk(s) && HoldsOk(s) && t < |s.pcs| && s.pcs[t] != DropWake
    ensures PcsOk(Step(version, s, t, choice))
  {
    assert PcOk(s, t);
    OwnPc(version, s, t, choice);
    MoveKeepsPcs(s, Step(version, s, t, choice), t);
  }

  /** The shared unlock lowers the counter that counts its caller, and no other. */
  lemma DropCounters(version: Version, s: State, t: Tid, choice: Tid)
    requires PcOk(s, t) && CountersOk(s) && HoldsOk(s) && s.pcs[t].DropCount?
    ensures var s' := Step(version, s, t, choice);
            && s'.pending == s.pending && s'.pcs == s.pcs[t := DropWake]
            && s'.readers == s.readers - Weight(s.pcs[t]).readers && s'.writers == s.writers - Weight(s.pcs[t]).writers
  {
    TallyBounds(s.pcs, t);
  }

  /** One thread has moved, and each counter has changed by what has changed of that thread's weight. */
  predicate Balanced(s: State, s': State, t: Tid) {
    && t < |s.pcs| == |s'.pcs| && s'.pcs == s.pcs[t := s'.pcs[t]]
    && s'.readers - s.readers == Weight(s'.pcs[t]).readers - Weight(s.pcs[t]).readers
    && s'.writers - s.writers == Weight(s'.pcs[t]).writers - Weight(s.pcs[t]).writers
    && s'.pending - s.pending == Weight(s'.pcs[t]).pending - Weight(s.pcs[t]).pending
  }

  /** The steps that leave the counters alone. */
  predicate Uncounted(pc: Pc) {
    match pc
    case ReadCount | WriteAnnounce | WriteSettle | WriteCount | DropCount(_) | DropWake => false
    case _ => true
  }

  lemma UncountedWeights(version: Version, s: State, t: Tid, choice: Tid)
    requires t < |s.pcs| && HoldsOk(s) && Uncounted(s.pcs[t])
    ensures HoldsOk(Step(version, s, t, choice)) && Balanced(s, Step(version, s, t, choice), t)
  {
  }

  lemma CountedWeights(version: Version, s: State, t: Tid, choice: Tid)
    requires PcOk(s, t) && HoldsOk(s) && !Uncounted(s.pcs[t]) && s.pcs[t] != DropWake
    requires s.pcs[t].DropCount? ==> Weight(s.pcs[t]).readers <= s.readers && Weight(s.pcs[t]).writers <= s.writers
    requires s.pcs[t] == WriteSettle ==> s.pending > 0
    ensures HoldsOk(Step(version, s, t, choice)) && Balanced(s, Step(version, s, t, choice), t)
  {
  }

  /** A step changes each counter by what it changes of the thread's weight. */
  lemma StepWeights(version: Version, s: State, t: Tid, choice: Tid)
    requires PcOk(s, t) && CountersOk(s) && HoldsOk(s) && s.pcs[t] != DropWake
    ensures HoldsOk(Step(version, s, t, choice)) && Balanced(s, Step(version, s, t, choice), t)
  {
    if Uncounted(s.pcs[t]) {
      UncountedWeights(version, s, t, choice);
    } else {
      TallyBounds(s.pcs, t);
      CountedWeights(version, s, t, choice);
    }
  }

  lemma MoveCounters(s: State, s': State, t: Tid)
    requires CountersOk(s) && Balanced(s, s', t)
    ensures CountersOk(s')
  {
    TallyChange(s.pcs, t, s'.pcs[t]);
  }

  lemma MoveWakesWriters(version: Version, s: State, t: Tid, choice: Tid)
    requires PcOk(s, t) && CountersOk(s) && HoldsOk(s) && WakesOk(s) && s.pcs[t] != DropWake
    ensures WriterWakeOk(Step(version, s, t, choice))
  {
    TallyChange(s.pcs, t, Step(version, s, t, choice).pcs[t]);
    TallyBounds(s.pcs, t);
    TallyBounds(Step(version, s, t, choice).pcs, t);
  }

  lemma MoveWakesReaders(version: Version, s: State, t: Tid, choice: Tid)
    requires PcOk(s, t) && CountersOk(s) && HoldsOk(s) && WakesOk(s) && s.pcs[t] != DropWake
    ensures ReaderWakeOk(Step(version, s, t, choice))
  {
    TallyChange(s.pcs, t, Step(version, s, t, choice).pcs[t]);
    TallyBounds(s.pcs, t);
  }

  /** Steps outside the unlock's wake-up: one thread moves. */
  lemma MoveInv(version: Version, s: State, t: Tid, choice: Tid)
    requires Inv(s) && t < |s.pcs| && s.pcs[t] != DropWake
    ensures Inv(Step(version, s, t, choice))
  {
    assert PcOk(s, t);
    MovePcs(version, s, t, choice);
    StepWeights(version, s, t, choice);
    MoveCounters(s, Step(version, s, t, choice), t);
    MoveWakesWriters(version, s, t, choice);
    MoveWakesReaders(version, s, t, choice);
  }

  lemma AskInv(s: State, t: Tid, pc: Pc)
    requires Inv(s) && t < |s.pcs|
    requires (s.pcs[t] == Outside && (pc == ReadEnter || pc == WriteEnter))
          || (s.pcs[t] == Reading && pc == DropEnter(Read)) || (s.pcs[t] == Writing && pc == DropEnter(Write))
    ensures Inv(Go(s, t, pc))
  {
    assert PcOk(s, t);
    TallyChange(s.pcs, t, pc);
    MoveKeepsPcs(s, Go(s, t, pc), t);
  }

  lemma SpuriousInv(s: State, t: Tid)
    requires Inv(s) && t < |s.pcs|
    ensures Inv(Go(s, t, WakeReader(WakeWriter(s.pcs[t]))))
  {
    var pc := WakeReader(WakeWriter(s.pcs[t]));
    assert PcOk(s, t);
    TallyChange(s.pcs, t, pc);
    TallyBounds(s.pcs[t := pc], t);
    MoveKeepsPcs(s, Go(s, t, pc), t);
  }

  // ---------------------------------------------------------------- waking

  lemma WokenWeight(pc: Pc)
    ensures Weight(WakeReader(pc)) == Weight(pc).(sleepingReaders := 0)
    ensures Weight(WakeWriter(pc)) == Weight(pc).(sleepingWriters := 0)
  {
  }

  lemma WakeAllTally(pcs: seq<Pc>)
    ensures TallyOf(WakeAllReaders(pcs)) == TallyOf(pcs).(sleepingReaders := 0)
    ensures TallyOf(WakeAllWriters(pcs)) == TallyOf(pcs).(sleepingWriters := 0)
  {
    var r, w := WakeAllReaders(pcs), WakeAllWriters(pcs);
    forall i | 0 <= i < |pcs|
      ensures Weight(r[i]) == Tallies.Woken(Weight(pcs[i]), true)
      ensures Weight(w[i]) == Tallies.Woken(Weight(pcs[i]), false)
    {
      WokenWeight(pcs[i]);
    }
    WakeTally(pcs, Weight, r, true, |pcs|);
    WakeTally(pcs, Weight, w, false, |pcs|);
  }

  lemma NoWriterAsleep(pcs: seq<Pc>)
    requires forall t :: 0 <= t < |pcs| ==> pcs[t] != WriteAsleep
    ensures TallyOf(pcs).sleepingWriters == 0
  {
    WakeTally(pcs, Weight, pcs, false, |pcs|);
  }

  /** A wake-up changes no counter, and afterwards either a pending writer is awake or no reader sleeps. */
  lemma WokenTally(version: Version, s: State, choice: Tid)
    requires CountersOk(s) && HoldsOk(s) && (version == Signal && s.pending > 0 ==> ValidChoice(s, choice))
    ensures var before, after := TallyOf(s.pcs), TallyOf(Woken(version, s, choice));
            && after.readers == before.readers && after.writers == before.writers && after.pending == before.pending
            && (s.pending > 0 ==> after.sleepingWriters < s.pending)
            && (s.pending == 0 ==> after.sleepingReaders == 0)
  {
    WakeAllTally(s.pcs);
    TallyBounds(s.pcs, choice);
    if s.pending > 0 && version == Signal {
      if choice < |s.pcs| { TallyChange(s.pcs, choice, WakeWriter(s.pcs[choice])); }
      if forall t :: 0 <= t < |s.pcs| ==> s.pcs[t] != WriteAsleep { NoWriterAsleep(s.pcs); }
    }
  }

  /** Waking changes only sleepers, and those only to woken. */
  lemma WokenPcs(version: Version, s: State, choice: Tid, u: Tid)
    requires PcOk(s, u)
    ensures |Woken(version, s, choice)| == |s.pcs|
    ensures Woken(version, s, choice)[u] == s.pcs[u]
         || (s.pcs[u] == ReadAsleep && Woken(version, s, choice)[u] == ReadWoken)
         || (s.pcs[u] == WriteAsleep && Woken(version, s, choice)[u] == WriteWoken)
  {
  }

  lemma WakePcs(version: Version, s: State, s': State, t: Tid, choice: Tid)
    requires PcsOk(s) && t < |s.pcs| && s.pcs[t] == DropWake
    requires s' == s.(pcs := Woken(version, s, choice)[t := DropExit]) && |s'.pcs| == |s.pcs|
    ensures PcsOk(s')
  {
    assert PcOk(s, t);
    forall u | 0 <= u < |s'.pcs| ensures PcOk(s', u) {
      assert PcOk(s, u);
      WokenPcs(version, s, choice, u);
    }
  }

  lemma WakeCounts(version: Version, s: State, t: Tid, choice: Tid)
    requires PcOk(s, t) && CountersOk(s) && HoldsOk(s) && s.pcs[t] == DropWake
    requires version == Signal && s.pending > 0 ==> ValidChoice(s, choice)
    ensures var s' := Step(version, s, t, choice); CountersOk(s') && WakesOk(s')
  {
    WokenTally(version, s, choice);
    WokenPcs(version, s, choice, t);
    TallyChange(Woken(version, s, choice), t, DropExit);
  }

  lemma WakeInv(version: Version, s: State, t: Tid, choice: Tid)
    requires Inv(s) && t < |s.pcs| && s.pcs[t] == DropWake
    ensures Inv(Step(version, s, t, choice))
  {
    var s' := Step(version, s, t, choice);
    if s' != s {
      assert PcOk(s, t);
      WakePcs(version, s, s', t, choice);
      WakeCounts(version, s, t, choice);
    }
  }

  lemma NextInv(version: Version, s: State, e: Event)
    requires Inv(s)
    ensures Inv(Next(version, s, e))
  {
    if e.t < |s.pcs| {
      match e
      case Move(t, choice) =>
        if s.pcs[t] == DropWake { WakeInv(version, s, t, choice); } else { MoveInv(version, s, t, choice); }
      case AskRead(t) => if s.pcs[t] == Outside { AskInv(s, t, ReadEnter); }
      case AskWrite(t) => if s.pcs[t] == Outside { AskInv(s, t, WriteEnter); }
      case AskDrop(t) =>
        if s.pcs[t] == Reading { AskInv(s, t, DropEnter(Read)); }
        else if s.pcs[t] == Writing { AskInv(s, t, DropEnter(Write)); }
      case Spurious(t) => SpuriousInv(s, t);
    }
  }

  lemma {:induction false} RunInv(version: Version, s: State, events: seq<Event>)
    requires Inv(s)
    ensures Inv(Run(version, s, events))
    decreases |events|
  {
    if events != [] {
      NextInv(version, s, events[0]);
      RunInv(version, Next(version, s, events[0]), events[1..]);
    }
  }
}
