/** Peterson's lock for two threads. Its wait reads first the other's flag, then victim: two steps. */
module PetersonLock {
  import F = FifoLock
  import Runs

  type Tid = nat

  datatype Config = Config(rounds: nat, times: nat)

  datatype Pc =
    | Start       // outside the lock, about to store true in its own flag
    | SetVictim   // about to store itself in victim
    | ReadFlag    // waiting, about to read the other's flag
    | ReadVictim  // waiting, the other's flag was up, about to read victim
    | Ready       // inside, at the head of the increment loop
    | Loaded      // inside, the shared value is in temp
    | ClearFlag   // about to store false in its own flag

  datatype Thread = Thread(pc: Pc, flag: bool, work: F.Work)

  /** The two threads and their flags, victim, and the shared counter. */
  datatype State = State(first: Thread, second: Thread, victim: nat, shared: int)
  {
    function Of(t: Tid): Thread {
      if t == 0 then first else second
    }

    function With(t: Tid, th: Thread): State {
      if t == 0 then this.(first := th) else this.(second := th)
    }
  }

  function Init(): State {
    State(Thread(Start, false, F.NOTHING_DONE), Thread(Start, false, F.NOTHING_DONE), 0, 0)
  }

  function Other(t: Tid): Tid {
    if t == 0 then 1 else 0
  }

  /** One step of thread `t`, which is 0 or 1; a finished thread leaves the state as it is. */
  function Step(cfg: Config, s: State, t: Tid): State {
    if t > 1 then s else
      var th := s.Of(t);
      match th.pc
      case Start => if th.work.rounds < cfg.rounds then s.With(t, th.(pc := SetVictim, flag := true)) else s
      case SetVictim => s.With(t, th.(pc := ReadFlag)).(victim := t)
      case ReadFlag => s.With(t, th.(pc := if s.Of(Other(t)).flag then ReadVictim else Ready))
      case ReadVictim => s.With(t, th.(pc := if s.victim == t then ReadFlag else Ready))
      case Ready =>
        if th.work.iters < cfg.times
        then s.With(t, th.(pc := Loaded, work := F.Load(th.work, s.shared)))
        else s.With(t, th.(pc := ClearFlag))
      case Loaded => s.With(t, th.(pc := Ready, work := F.Store(th.work))).(shared := th.work.reg + 1)
      case ClearFlag => s.With(t, th.(pc := Start, flag := false, work := F.EndRound(th.work)))
  }

  function Stepper(cfg: Config): (State, Tid) -> State {
    (s: State, t: Tid) => Step(cfg, s, t)
  }

  function Run(cfg: Config, s: State, schedule: seq<Tid>): State {
    Runs.Run(Stepper(cfg), s, schedule)
  }

  // ---------------------------------------------------------------- invariant

  predicate Waiting(s: State, t: Tid) {
    t <= 1 && (s.Of(t).pc == ReadFlag || s.Of(t).pc == ReadVictim)
  }

  predicate Critical(s: State, t: Tid) {
    t <= 1 && (s.Of(t).pc == Ready || s.Of(t).pc == Loaded || s.Of(t).pc == ClearFlag)
  }

  predicate ThreadOk(cfg: Config, s: State, t: Tid) {
    var th := s.Of(t);
    && (th.flag <==> th.pc != Start)
    && th.work.iters <= cfg.times && th.work.rounds <= cfg.rounds
    && (th.pc != Start ==> th.work.rounds < cfg.rounds)
    && (!Critical(s, t) ==> th.work.iters == 0)
    && (th.pc == Loaded ==> th.work.iters < cfg.times && th.work.reg == s.shared)
    && (th.pc == ClearFlag ==> th.work.iters == cfg.times)
  }

  /** At most one thread is inside, and a thread that waits for it is the victim. */
  predicate Excludes(s: State) {
    && s.victim <= 1
    && !(Critical(s, 0) && Critical(s, 1))
    && (Critical(s, 0) && Waiting(s, 1) ==> s.victim == 1)
    && (Critical(s, 1) && Waiting(s, 0) ==> s.victim == 0)
  }

  predicate Inv(cfg: Config, s: State) {
    ThreadOk(cfg, s, 0) && ThreadOk(cfg, s, 1) && Excludes(s)
  }

  predicate CountOk(cfg: Config, s: State) {
    s.shared == F.Completed(s.first.work, cfg.times) + F.Completed(s.second.work, cfg.times)
  }

  lemma StepThreadOk(cfg: Config, s: State, t: Tid, u: Tid)
    requires Inv(cfg, s) && t <= 1 && u <= 1
    ensures ThreadOk(cfg, Step(cfg, s, t), u)
  {
  }

  lemma StepExcludes(cfg: Config, s: State, t: Tid)
    requires Inv(cfg, s)
    ensures Excludes(Step(cfg, s, t))
  {
  }

  lemma StepInv(cfg: Config, s: State, t: Tid)
    requires Inv(cfg, s)
    ensures Inv(cfg, Step(cfg, s, t))
  {
    if t <= 1 {
      StepThreadOk(cfg, s, t, 0);
      StepThreadOk(cfg, s, t, 1);
      StepExcludes(cfg, s, t);
    }
  }

  lemma StepCount(cfg: Config, s: State, t: Tid)
    requires Inv(cfg, s) && CountOk(cfg, s)
    ensures CountOk(cfg, Step(cfg, s, t))
  {
    if t <= 1 { F.EndRoundCompletes(s.Of(t).work, cfg.times); }
  }

  lemma {:induction false} RunInv(cfg: Config, s: State, schedule: seq<Tid>)
    requires Inv(cfg, s) && CountOk(cfg, s)
    ensures Inv(cfg, Run(cfg, s, schedule)) && CountOk(cfg, Run(cfg, s, schedule))
    decreases |schedule|
  {
    if schedule != [] {
      StepInv(cfg, s, schedule[0]);
      StepCount(cfg, s, schedule[0]);
      RunInv(cfg, Step(cfg, s, schedule[0]), schedule[1..]);
    }
  }

  lemma MutualExclusion(cfg: Config, schedule: seq<Tid>)
    ensures !(Critical(Run(cfg, Init(), schedule), 0) && Critical(Run(cfg, Init(), schedule), 1))
  {
    RunInv(cfg, Init(), schedule);
  }

  // ---------------------------------------------------------------- no lost increments, no deadlock

  predicate AllDone(cfg: Config, s: State) {
    && s.first.pc == Start && s.first.work.rounds == cfg.rounds
    && s.second.pc == Start && s.second.work.rounds == cfg.rounds
  }

  lemma NoLostIncrements(cfg: Config, schedule: seq<Tid>)
    requires AllDone(cfg, Run(cfg, Init(), schedule))
    ensures Run(cfg, Init(), schedule).shared == 2 * cfg.rounds * cfg.times
  {
    RunInv(cfg, Init(), schedule);
  }

  /** In any state in which both threads wait, at most two steps of the one that is not the victim take it inside. */
  lemma NeverBothBlocked(cfg: Config, s: State)
    requires Waiting(s, 0) && Waiting(s, 1)
    ensures var t := Other(s.victim); Critical(Step(cfg, s, t), t) || Critical(Step(cfg, Step(cfg, s, t), t), t)
  {
  }

  /** With the other thread outside, three own steps get in: the two stores, and one read of a flag that is down. */
  lemma UncontendedGetsIn(cfg: Config, schedule: seq<Tid>, t: Tid)
    requires var s := Run(cfg, Init(), schedule);
             t <= 1 && s.Of(t).pc == s.Of(Other(t)).pc == Start && s.Of(t).work.rounds < cfg.rounds
    ensures Critical(Run(cfg, Run(cfg, Init(), schedule), [t, t] + [t]), t)
  {
    RunInv(cfg, Init(), schedule);
    var s := Run(cfg, Init(), schedule);
    var s2 := Step(cfg, Step(cfg, s, t), t);
    Runs.RunTwo(Stepper(cfg), s, t, t, [t]);
    Runs.RunOne(Stepper(cfg), s2, t);
    assert ThreadOk(cfg, s, Other(t));
  }

  // ---------------------------------------------------------------- every fair run finishes

  function RoundCost(cfg: Config): nat {
    2 * cfg.times + 5
  }

  /** The steps still to come, counting a wait as one however often it is repeated. */
  function Remaining(cfg: Config, th: Thread): int {
    var left := F.Budget(cfg.rounds - th.work.rounds - 1, RoundCost(cfg)) + 2 * (cfg.times - th.work.iters);
    match th.pc
    case Start => F.Budget(cfg.rounds - th.work.rounds, RoundCost(cfg))
    case SetVictim => left + 4
    case ReadFlag | ReadVictim => left + 3
    case Ready => left + 2
    case Loaded => left + 1
    case ClearFlag => left + 1
  }

  /** The reads that a waiter still needs; nothing is counted while it is the victim and the other's flag is up. */
  function Reads(s: State, t: Tid): int {
    if !Waiting(s, t) then 0
    else if !s.Of(Other(t)).flag then (if s.Of(t).pc == ReadFlag then 1 else 2)
    else if s.victim != t then (if s.Of(t).pc == ReadFlag then 2 else 1)
    else 0
  }

  /** A step of the code pays for the at most four reads that it may cause. */
  function Measure(cfg: Config, s: State): int {
    5 * (Remaining(cfg, s.first) + Remaining(cfg, s.second)) + Reads(s, 0) + Reads(s, 1)
  }

  ghost function SystemOf(cfg: Config): Runs.System<State> {
    Runs.System(2, Stepper(cfg), (s: State) => Inv(cfg, s) && CountOk(cfg, s), (s: State) => AllDone(cfg, s),
                (s: State) => Measure(cfg, s))
  }

  /** Outside its wait an unfinished thread always comes nearer to the end, and inside it unless it is blocked. */
  predicate Free(cfg: Config, s: State, t: Tid) {
    t <= 1 &&
    if Waiting(s, t) then s.victim != t || !s.Of(Other(t)).flag
    else s.Of(t).pc != Start || s.Of(t).work.rounds < cfg.rounds
  }

  predicate Advances(cfg: Config, s: State, t: Tid) {
    if Free(cfg, s, t) then Measure(cfg, Step(cfg, s, t)) < Measure(cfg, s)
    else Measure(cfg, Step(cfg, s, t)) == Measure(cfg, s)
  }

  lemma WaiterAdvances(cfg: Config, s: State, t: Tid)
    requires Inv(cfg, s) && Waiting(s, t)
    ensures Advances(cfg, s, t)
  {
  }

  /** What a step of the code does to its own thread's share; the other's reads cost at most four. */
  lemma OwnShareFalls(cfg: Config, s: State, t: Tid)
    requires t <= 1 && ThreadOk(cfg, s, t) && !Waiting(s, t) && Free(cfg, s, t)
    ensures Remaining(cfg, Step(cfg, s, t).Of(t)) < Remaining(cfg, s.Of(t))
    ensures Step(cfg, s, t).Of(Other(t)) == s.Of(Other(t))
  {
  }

  lemma MoverAdvances(cfg: Config, s: State, t: Tid)
    requires Inv(cfg, s) && t <= 1 && !Waiting(s, t)
    ensures Advances(cfg, s, t)
  {
    if Free(cfg, s, t) { OwnShareFalls(cfg, s, t); }
  }

  lemma FreeAdvances(cfg: Config, s: State, t: Tid)
    requires Inv(cfg, s)
    ensures Advances(cfg, s, t)
  {
    if Waiting(s, t) {
      WaiterAdvances(cfg, s, t);
    } else if t <= 1 {
      MoverAdvances(cfg, s, t);
    }
  }

  /** A free thread stays free while the other only looks or is done. */
  lemma FreeStays(cfg: Config, s: State, t: Tid, u: Tid)
    requires Inv(cfg, s) && Free(cfg, s, u) && !Free(cfg, s, t)
    ensures Free(cfg, Step(cfg, s, t), u)
  {
  }

  lemma StepProgresses(cfg: Config, s: State, t: Tid)
    requires Inv(cfg, s) && CountOk(cfg, s)
    ensures Runs.StepOk(SystemOf(cfg), s, t)
  {
    StepInv(cfg, s, t);
    StepCount(cfg, s, t);
    FreeAdvances(cfg, s, t);
    forall u: Tid | Runs.Helps(SystemOf(cfg), s, u)
      ensures Runs.Helps(SystemOf(cfg), s, t) || Runs.Helps(SystemOf(cfg), Step(cfg, s, t), u)
    {
      FreeAdvances(cfg, s, u);
      FreeAdvances(cfg, Step(cfg, s, t), u);
      if !Free(cfg, s, t) { FreeStays(cfg, s, t, u); }
    }
  }

  lemma StateProgresses(cfg: Config, s: State)
    requires Inv(cfg, s) && CountOk(cfg, s)
    ensures Runs.StateOk(SystemOf(cfg), s)
  {
    if !AllDone(cfg, s) {
      var t: Tid := if Free(cfg, s, 0) then 0 else 1;
      FreeAdvances(cfg, s, t);
      assert Runs.Helps(SystemOf(cfg), s, t);
    }
  }

  lemma Progresses(cfg: Config)
    ensures Runs.Progresses(SystemOf(cfg))
  {
    forall s | Inv(cfg, s) && CountOk(cfg, s) ensures Runs.StateOk(SystemOf(cfg), s) {
      StateProgresses(cfg, s);
    }
    forall s, t: Tid | Inv(cfg, s) && CountOk(cfg, s) ensures Runs.StepOk(SystemOf(cfg), s, t) {
      StepProgresses(cfg, s, t);
    }
  }

  lemma InitialMeasure(cfg: Config)
    ensures Inv(cfg, Init()) && CountOk(cfg, Init()) && Measure(cfg, Init()) == 10 * (cfg.rounds * RoundCost(cfg))
  {
    F.BudgetIsProduct(cfg.rounds, RoundCost(cfg));
  }

  /**
   * Every fair run finishes: however it began, any continuation made of so many segments with a step of both
   * threads in each, in any order, ends with every increment counted.
   */
  lemma EveryFairRunFinishes(cfg: Config, schedule: seq<Tid>, segments: seq<seq<Tid>>)
    requires Runs.Fair(segments, 2) && 10 * (cfg.rounds * RoundCost(cfg)) <= |segments|
    ensures var s := Run(cfg, Run(cfg, Init(), schedule), Runs.Flat(segments));
            AllDone(cfg, s) && s.shared == 2 * cfg.rounds * cfg.times
  {
    Progresses(cfg);
    InitialMeasure(cfg);
    Runs.RunKeeps(SystemOf(cfg), Init(), schedule);
    Runs.FairRunEnds(SystemOf(cfg), Run(cfg, Init(), schedule), segments);
    Runs.RunAppend(Stepper(cfg), Init(), schedule, Runs.Flat(segments));
    NoLostIncrements(cfg, schedule + Runs.Flat(segments));
  }

  /** Such a continuation exists, so every run can be completed. */
  lemma EveryRunCanFinish(cfg: Config, schedule: seq<Tid>)
    ensures exists more: seq<Tid> ::
      var s := Run(cfg, Init(), schedule + more);
      AllDone(cfg, s) && s.shared == 2 * cfg.rounds * cfg.times
  {
    var segments := Runs.RoundRobin(2, 10 * (cfg.rounds * RoundCost(cfg)));
    EveryFairRunFinishes(cfg, schedule, segments);
    Runs.RunAppend(Stepper(cfg), Init(), schedule, Runs.Flat(segments));
  }

  // ---------------------------------------------------------------- bounded bypass

  /** How often thread `t` gets past its wait during a run. */
  function Entries(cfg: Config, s: State, schedule: seq<Tid>, t: Tid): nat
    decreases |schedule|
  {
    if schedule == [] then 0
    else (if !Critical(s, t) && Critical(Step(cfg, s, schedule[0]), t) then 1 else 0)
         + Entries(cfg, Step(cfg, s, schedule[0]), schedule[1..], t)
  }

  /** Thread `t` waits throughout a run. */
  predicate WaitsThroughout(cfg: Config, s: State, schedule: seq<Tid>, t: Tid)
    decreases |schedule|
  {
    Waiting(s, t) && (schedule == [] || WaitsThroughout(cfg, Step(cfg, s, schedule[0]), schedule[1..], t))
  }

  /** The entries the other thread still has: one if `t` is the victim and the other is already waiting. */
  function Allowed(s: State, t: Tid): nat {
    if s.victim == t && Waiting(s, Other(t)) then 1 else 0
  }

  lemma {:induction false} BypassIsBounded(cfg: Config, s: State, schedule: seq<Tid>, t: Tid)
    requires Inv(cfg, s) && WaitsThroughout(cfg, s, schedule, t)
    ensures Entries(cfg, s, schedule, Other(t)) <= Allowed(s, t)
    decreases |schedule|
  {
    if schedule != [] {
      StepInv(cfg, s, schedule[0]);
      BypassIsBounded(cfg, Step(cfg, s, schedule[0]), schedule[1..], t);
    }
  }

  /** While a thread that has written victim waits, the other gets in at most once. */
  lemma BypassedAtMostOnce(cfg: Config, before: seq<Tid>, during: seq<Tid>, t: Tid)
    requires t <= 1 && WaitsThroughout(cfg, Run(cfg, Init(), before), during, t)
    ensures Entries(cfg, Run(cfg, Init(), before), during, Other(t)) <= 1
  {
    RunInv(cfg, Init(), before);
    BypassIsBounded(cfg, Run(cfg, Init(), before), during, t);
  }
}
