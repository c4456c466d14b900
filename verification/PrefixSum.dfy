/** The blocked prefix sum of a team: each scans its block, all meet, each adds the sums before it. */
module PrefixSum {
  import opened Numbers
  import Runs

  type Tid = nat

  /** `size` is the length of every block but the last. */
  datatype Config = Config(input: seq<int>, team: Positive, size: nat)

  function ConfigFor(input: seq<int>, team: Positive): Config {
    Config(input, team, |input| / team)
  }

  datatype Pc =
    | First    // about to copy the first cell of the block
    | Scan     // in the loop over the rest of the block
    | SaveSum  // about to store the block's sum
    | Barrier  // waiting for the rest of the team
    | Collect  // in the loop over the sums of the blocks before
    | Shift    // in the loop that adds the offset to the block
    | Done
    | Fault    // has used an index outside an array

  /** `i` is the variable of the loop the thread is in. */
  datatype Thread = Thread(pc: Pc, i: int, offset: int)

  datatype State = State(output: seq<int>, blockSum: seq<int>, threads: seq<Thread>)

  /** A product as a sum, so that no proof about blocks has to multiply. */
  function Times(k: nat, n: nat): nat {
    if k == 0 then 0 else Times(k - 1, n) + n
  }

  function Start(cfg: Config, t: Tid): nat {
    Times(t, cfg.size)
  }

  function End(cfg: Config, t: Tid): nat {
    if t == cfg.team - 1 then |cfg.input| else Start(cfg, t) + cfg.size
  }

  /** Both arrays start with whatever their memory held. */
  function Init(cfg: Config, output: seq<int>, blockSum: seq<int>): State {
    State(output, blockSum, seq(cfg.team, _ => Thread(First, 0, 0)))
  }

  predicate PastScan(pc: Pc) {
    pc == Barrier || pc == Collect || pc == Shift || pc == Done
  }

  predicate PastBarrier(pc: Pc) {
    pc == Collect || pc == Shift || pc == Done
  }

  predicate AllArrived(threads: seq<Thread>) {
    forall u :: 0 <= u < |threads| ==> PastScan(threads[u].pc)
  }

  function Put(s: State, t: Tid, th: Thread): State
    requires t < |s.threads|
  {
    s.(threads := s.threads[t := th])
  }

  /** The next step of thread `t`, one loop iteration at most; one kept at the barrier or at its end changes nothing. */
  function Step(cfg: Config, s: State, t: Tid): State {
    if t >= |s.threads| then s else
      var th := s.threads[t];
      var start, end, i := Start(cfg, t), End(cfg, t), th.i;
      match th.pc
      case First =>
        if start < |s.output| && start < |cfg.input|
        then Put(s, t, Thread(Scan, start + 1, 0)).(output := s.output[start := cfg.input[start]])
        else Put(s, t, th.(pc := Fault))
      case Scan =>
        if i >= end then Put(s, t, th.(pc := SaveSum))
        else if 0 < i < |s.output| && i < |cfg.input|
        then Put(s, t, th.(i := i + 1)).(output := s.output[i := cfg.input[i] + s.output[i - 1]])
        else Put(s, t, th.(pc := Fault))
      case SaveSum =>
        if 0 <= end - 1 < |s.output| && t < |s.blockSum|
        then Put(s, t, th.(pc := Barrier)).(blockSum := s.blockSum[t := s.output[end - 1]])
        else Put(s, t, th.(pc := Fault))
      case Barrier => if AllArrived(s.threads) then Put(s, t, Thread(Collect, 0, 0)) else s
      case Collect =>
        if i >= t then Put(s, t, th.(pc := Shift, i := start))
        else if 0 <= i < |s.blockSum| then Put(s, t, th.(i := i + 1, offset := th.offset + s.blockSum[i]))
        else Put(s, t, th.(pc := Fault))
      case Shift =>
        if i >= end then Put(s, t, th.(pc := Done))
        else if 0 <= i < |s.output|
        then Put(s, t, th.(i := i + 1)).(output := s.output[i := s.output[i] + th.offset])
        else Put(s, t, th.(pc := Fault))
      case Done | Fault => s
  }

  function Stepper(cfg: Config): (State, Tid) -> State {
    (s: State, t: Tid) => Step(cfg, s, t)
  }

  function Run(cfg: Config, s: State, schedule: seq<Tid>): State {
    Runs.Run(Stepper(cfg), s, schedule)
  }

  // ---------------------------------------------------------------- blocks

  lemma {:induction false} TimesIsProduct(k: nat, n: nat)
    ensures Times(k, n) == k * n
  {
    if k > 0 { TimesIsProduct(k - 1, n); }
  }

  lemma {:induction false} TimesGrows(t: nat, u: nat, n: nat)
    requires t <= u
    ensures Times(t, n) <= Times(u, n) && (t < u ==> Times(t, n) + n <= Times(u, n))
  {
    if t < u { TimesGrows(t, u - 1, n); }
  }

  lemma {:induction false} TimesZero(k: nat)
    ensures Times(k, 0) == 0
  {
    if k > 0 { TimesZero(k - 1); }
  }

  /** `size` is the quotient of the inputs by the threads. */
  predicate Sized(cfg: Config) {
    Times(cfg.team, cfg.size) <= |cfg.input| < Times(cfg.team, cfg.size) + cfg.team
  }

  lemma QuotientIsSized(input: seq<int>, team: Positive)
    ensures Sized(ConfigFor(input, team))
  {
    TimesIsProduct(team, |input| / team);
  }

  /** Blocks follow each other without a gap, and the last one takes the remainder. */
  lemma BlockBounds(cfg: Config, t: Tid)
    requires Sized(cfg) && t < cfg.team
    ensures Start(cfg, t) + cfg.size <= End(cfg, t) <= |cfg.input|
    ensures t + 1 < cfg.team ==> End(cfg, t) == Start(cfg, t + 1)
    ensures cfg.team <= |cfg.input| ==> 1 <= cfg.size && Start(cfg, t) < End(cfg, t)
  {
    TimesGrows(t + 1, cfg.team, cfg.size);
    if cfg.size == 0 { TimesZero(cfg.team); }
  }

  lemma BlocksApart(cfg: Config, t: Tid, u: Tid)
    requires t < u < cfg.team
    ensures End(cfg, t) <= Start(cfg, u)
  {
    TimesGrows(t, u, cfg.size);
  }

  predicate InBlock(cfg: Config, t: Tid, j: nat) {
    t < cfg.team && Start(cfg, t) <= j < End(cfg, t)
  }

  /** The owner of a cell, found by walking down from the last block. */
  lemma {:induction false} FindBlock(cfg: Config, u: Tid, j: nat) returns (t: Tid)
    requires Sized(cfg) && u < cfg.team && j < End(cfg, u)
    ensures t <= u && InBlock(cfg, t, j)
  {
    if Start(cfg, u) <= j {
      t := u;
    } else {
      BlockBounds(cfg, u - 1);
      t := FindBlock(cfg, u - 1, j);
    }
  }

  /** The blocks partition the cells: each belongs to exactly one thread. */
  lemma BlocksPartition(cfg: Config, j: nat)
    requires Sized(cfg) && j < |cfg.input|
    ensures exists t :: InBlock(cfg, t, j)
    ensures forall t, u :: InBlock(cfg, t, j) && InBlock(cfg, u, j) ==> t == u
  {
    var t := FindBlock(cfg, cfg.team - 1, j);
    forall t, u | InBlock(cfg, t, j) && InBlock(cfg, u, j) ensures t == u {
      if t < u { BlocksApart(cfg, t, u); }
      if u < t { BlocksApart(cfg, u, t); }
    }
  }

  // ---------------------------------------------------------------- invariant

  /** The sum of the first `k` inputs: what a sequential scan leaves in cell `k - 1`. */
  function Prefix(input: seq<int>, k: nat): int
    requires k <= |input|
  {
    if k == 0 then 0 else Prefix(input, k - 1) + input[k - 1]
  }

  function BlockPrefix(cfg: Config, t: Tid, k: nat): int
    requires Start(cfg, t) <= k <= |cfg.input|
  {
    Prefix(cfg.input, k) - Prefix(cfg.input, Start(cfg, t))
  }

  predicate Scanned(th: Thread, j: nat) {
    || (th.pc == Scan && j < th.i) || th.pc == SaveSum || th.pc == Barrier || th.pc == Collect
    || (th.pc == Shift && th.i <= j)
  }

  predicate Shifted(th: Thread, j: nat) {
    th.pc == Done || (th.pc == Shift && j < th.i)
  }

  /** What cell `j` of thread `t`'s block holds. */
  predicate CellOk(cfg: Config, s: State, t: Tid, j: nat) {
    && t < |s.threads| && j < |s.output| && j < |cfg.input| && Start(cfg, t) <= j
    && (Scanned(s.threads[t], j) ==> s.output[j] == BlockPrefix(cfg, t, j + 1))
    && (Shifted(s.threads[t], j) ==> s.output[j] == Prefix(cfg.input, j + 1))
  }

  /** Where thread `t`'s loops are, and what it has collected. */
  predicate ThreadOk(cfg: Config, s: State, t: Tid) {
    t < |s.threads| && t < cfg.team && Start(cfg, t) < End(cfg, t) <= |cfg.input| &&
    var th := s.threads[t];
    && th.pc != Fault
    && (th.pc == Scan ==> Start(cfg, t) < th.i <= End(cfg, t))
    && (th.pc == Collect ==> 0 <= th.i <= t && Start(cfg, th.i) <= |cfg.input|
                             && th.offset == Prefix(cfg.input, Start(cfg, th.i)))
    && (th.pc == Shift ==> Start(cfg, t) <= th.i <= End(cfg, t) && th.offset == Prefix(cfg.input, Start(cfg, t)))
    && (PastBarrier(th.pc) ==> AllArrived(s.threads))
  }

  predicate SumOk(cfg: Config, s: State, t: Tid) {
    t < |s.threads| && t < |s.blockSum| && Start(cfg, t) <= End(cfg, t) <= |cfg.input| &&
    (PastScan(s.threads[t].pc) ==> s.blockSum[t] == BlockPrefix(cfg, t, End(cfg, t)))
  }

  predicate BlockOk(cfg: Config, s: State, t: Tid) {
    && ThreadOk(cfg, s, t)
    && SumOk(cfg, s, t)
    && (forall j :: Start(cfg, t) <= j < End(cfg, t) ==> CellOk(cfg, s, t, j))
  }

  predicate Inv(cfg: Config, s: State) {
    && Sized(cfg)
    && |s.output| == |cfg.input|
    && |s.threads| == |s.blockSum| == cfg.team
    && (forall t :: 0 <= t < |s.threads| ==> BlockOk(cfg, s, t))
  }

  lemma InitInv(cfg: Config, output: seq<int>, blockSum: seq<int>)
    requires Sized(cfg) && cfg.team <= |cfg.input| == |output| && |blockSum| == cfg.team
    ensures Inv(cfg, Init(cfg, output, blockSum))
  {
    var s := Init(cfg, output, blockSum);
    forall t | 0 <= t < |s.threads| ensures BlockOk(cfg, s, t) {
      BlockBounds(cfg, t);
    }
  }

  lemma ScanStep(cfg: Config, s: State, t: Tid)
    requires Inv(cfg, s) && t < |s.threads|
    requires s.threads[t].pc == First || s.threads[t].pc == Scan || s.threads[t].pc == SaveSum
    ensures BlockOk(cfg, Step(cfg, s, t), t)
  {
    var s' := Step(cfg, s, t);
    assert BlockOk(cfg, s, t);
    if s.threads[t].pc == Scan && s.threads[t].i < End(cfg, t) {
      assert CellOk(cfg, s, t, s.threads[t].i - 1);
    }
    if s.threads[t].pc == SaveSum {
      assert CellOk(cfg, s, t, End(cfg, t) - 1);
    }
    forall j | Start(cfg, t) <= j < End(cfg, t) ensures CellOk(cfg, s', t, j) {
      assert CellOk(cfg, s, t, j);
    }
  }

  lemma CollectStep(cfg: Config, s: State, t: Tid)
    requires Inv(cfg, s) && t < |s.threads| && s.threads[t].pc == Collect
    ensures BlockOk(cfg, Step(cfg, s, t), t)
  {
    var s' := Step(cfg, s, t);
    var i := s.threads[t].i;
    assert BlockOk(cfg, s, t);
    if i < t {
      assert BlockOk(cfg, s, i);
      BlockBounds(cfg, i);
    }
    forall j | Start(cfg, t) <= j < End(cfg, t) ensures CellOk(cfg, s', t, j) {
      assert CellOk(cfg, s, t, j);
    }
  }

  lemma ShiftStep(cfg: Config, s: State, t: Tid)
    requires Inv(cfg, s) && t < |s.threads|
    requires s.threads[t].pc == Barrier || s.threads[t].pc == Shift
    ensures BlockOk(cfg, Step(cfg, s, t), t)
  {
    var s' := Step(cfg, s, t);
    assert BlockOk(cfg, s, t);
    forall j | Start(cfg, t) <= j < End(cfg, t) ensures CellOk(cfg, s', t, j) {
      assert CellOk(cfg, s, t, j);
    }
  }

  lemma ArrivedStays(cfg: Config, s: State, t: Tid)
    requires t < |s.threads| && |s.blockSum| == |s.threads| && |s.output| == |cfg.input|
    requires ThreadOk(cfg, s, t) && AllArrived(s.threads)
    ensures AllArrived(Step(cfg, s, t).threads)
  {
  }

  lemma OtherThread(cfg: Config, s: State, t: Tid, u: Tid)
    requires t < |s.threads| && |s.blockSum| == |s.threads| && |s.output| == |cfg.input| && u != t
    requires ThreadOk(cfg, s, t) && ThreadOk(cfg, s, u) && SumOk(cfg, s, u)
    ensures ThreadOk(cfg, Step(cfg, s, t), u) && SumOk(cfg, Step(cfg, s, t), u)
  {
    if AllArrived(s.threads) { ArrivedStays(cfg, s, t); }
  }

  /** A thread writes to its own block only. */
  lemma OtherCell(cfg: Config, s: State, t: Tid, u: Tid, j: nat)
    requires t < |s.threads| && u != t && ThreadOk(cfg, s, t) && CellOk(cfg, s, u, j)
    requires j < Start(cfg, t) || End(cfg, t) <= j
    ensures CellOk(cfg, Step(cfg, s, t), u, j)
  {
  }

  /** A step of one thread leaves every other thread's block, sum and loop alone. */
  lemma OtherBlock(cfg: Config, s: State, t: Tid, u: Tid)
    requires Inv(cfg, s) && t < |s.threads| && u < |s.threads| && u != t
    ensures BlockOk(cfg, Step(cfg, s, t), u)
  {
    assert BlockOk(cfg, s, u) && BlockOk(cfg, s, t);
    OtherThread(cfg, s, t, u);
    if t < u { BlocksApart(cfg, t, u); } else { BlocksApart(cfg, u, t); }
    forall j | Start(cfg, u) <= j < End(cfg, u) ensures CellOk(cfg, Step(cfg, s, t), u, j) {
      assert CellOk(cfg, s, u, j);
      OtherCell(cfg, s, t, u, j);
    }
  }

  lemma StepBlock(cfg: Config, s: State, t: Tid, u: Tid)
    requires Inv(cfg, s) && t < |s.threads| && u < |s.threads|
    ensures BlockOk(cfg, Step(cfg, s, t), u)
  {
    if u != t {
      OtherBlock(cfg, s, t, u);
    } else {
      assert BlockOk(cfg, s, t);
      match s.threads[t].pc
      case First | Scan | SaveSum => ScanStep(cfg, s, t);
      case Collect => CollectStep(cfg, s, t);
      case Barrier | Shift => ShiftStep(cfg, s, t);
      case Done | Fault =>
    }
  }

  lemma StepSizes(cfg: Config, s: State, t: Tid)
    ensures var s' := Step(cfg, s, t);
            |s'.output| == |s.output| && |s'.blockSum| == |s.blockSum| && |s'.threads| == |s.threads|
  {
  }

  lemma StepInv(cfg: Config, s: State, t: Tid)
    requires Inv(cfg, s)
    ensures Inv(cfg, Step(cfg, s, t))
  {
    if t < |s.threads| {
      var s' := Step(cfg, s, t);
      StepSizes(cfg, s, t);
      forall u | 0 <= u < |s'.threads| ensures BlockOk(cfg, s', u) {
        StepBlock(cfg, s, t, u);
      }
    }
  }

  lemma {:induction false} RunInv(cfg: Config, s: State, schedule: seq<Tid>)
    requires Inv(cfg, s)
    ensures Inv(cfg, Run(cfg, s, schedule))
    decreases |schedule|
  {
    if schedule != [] {
      StepInv(cfg, s, schedule[0]);
      RunInv(cfg, Step(cfg, s, schedule[0]), schedule[1..]);
    }
  }

  // ---------------------------------------------------------------- the result

  /** What the function sets up: the block size, and arrays with a cell for each input and for each thread. */
  predicate Fits(cfg: Config, output: seq<int>, blockSum: seq<int>) {
    cfg.size == |cfg.input| / cfg.team && |output| == |cfg.input| && |blockSum| == cfg.team
  }

  lemma FittingInit(cfg: Config, output: seq<int>, blockSum: seq<int>)
    requires Fits(cfg, output, blockSum) && cfg.team <= |cfg.input|
    ensures Inv(cfg, Init(cfg, output, blockSum))
  {
    QuotientIsSized(cfg.input, cfg.team);
    InitInv(cfg, output, blockSum);
  }

  predicate AllDone(s: State) {
    forall t :: 0 <= t < |s.threads| ==> s.threads[t].pc == Done
  }

  predicate IsPrefixSum(input: seq<int>, output: seq<int>) {
    |output| == |input| && forall j :: 0 <= j < |output| ==> output[j] == Prefix(input, j + 1)
  }

  /** Whatever the interleaving and whatever the arrays held before, the team leaves the sequential prefix sums. */
  lemma SequentialResult(cfg: Config, output: seq<int>, blockSum: seq<int>, schedule: seq<Tid>)
    requires Fits(cfg, output, blockSum) && cfg.team <= |cfg.input|
    requires AllDone(Run(cfg, Init(cfg, output, blockSum), schedule))
    ensures IsPrefixSum(cfg.input, Run(cfg, Init(cfg, output, blockSum), schedule).output)
  {
    FittingInit(cfg, output, blockSum);
    RunInv(cfg, Init(cfg, output, blockSum), schedule);
    DoneIsPrefixSum(cfg, Run(cfg, Init(cfg, output, blockSum), schedule));
  }

  lemma DoneIsPrefixSum(cfg: Config, s: State)
    requires Inv(cfg, s) && AllDone(s)
    ensures IsPrefixSum(cfg.input, s.output)
  {
    forall j | 0 <= j < |s.output| ensures s.output[j] == Prefix(cfg.input, j + 1) {
      var t := FindBlock(cfg, cfg.team - 1, j);
      assert BlockOk(cfg, s, t) && CellOk(cfg, s, t, j);
    }
  }

  lemma ArrivedKeepsSums(cfg: Config, s: State, t: Tid)
    requires AllArrived(s.threads)
    ensures Step(cfg, s, t).blockSum == s.blockSum
  {
  }

  lemma StaysPastBarrier(cfg: Config, s: State, t: Tid, u: Tid)
    requires t < |s.threads| && PastBarrier(s.threads[t].pc) && Step(cfg, s, u).threads[t].pc != Fault
    ensures PastBarrier(Step(cfg, s, u).threads[t].pc)
  {
  }

  /** Once any thread is past the barrier, no step changes the sums of the blocks. */
  lemma {:induction false} SumsFrozen(cfg: Config, s: State, t: Tid, schedule: seq<Tid>)
    requires Inv(cfg, s) && t < |s.threads| && PastBarrier(s.threads[t].pc)
    ensures Run(cfg, s, schedule).blockSum == s.blockSum
    decreases |schedule|
  {
    if schedule != [] {
      var s' := Step(cfg, s, schedule[0]);
      assert BlockOk(cfg, s, t);
      ArrivedKeepsSums(cfg, s, schedule[0]);
      StepInv(cfg, s, schedule[0]);
      assert BlockOk(cfg, s', t);
      StaysPastBarrier(cfg, s, t, schedule[0]);
      SumsFrozen(cfg, s', t, schedule[1..]);
    }
  }

  lemma BlockSumsFrozenAfterBarrier(cfg: Config, output: seq<int>, blockSum: seq<int>,
                                    before: seq<Tid>, t: Tid, after: seq<Tid>)
    requires Fits(cfg, output, blockSum) && cfg.team <= |cfg.input|
    requires var s := Run(cfg, Init(cfg, output, blockSum), before); t < |s.threads| && PastBarrier(s.threads[t].pc)
    ensures var s := Run(cfg, Init(cfg, output, blockSum), before);
            && Run(cfg, s, after).blockSum == s.blockSum
            && forall u :: 0 <= u < cfg.team ==> SumOk(cfg, s, u) && PastScan(s.threads[u].pc)
  {
    FittingInit(cfg, output, blockSum);
    RunInv(cfg, Init(cfg, output, blockSum), before);
    var s := Run(cfg, Init(cfg, output, blockSum), before);
    assert BlockOk(cfg, s, t);
    forall u | 0 <= u < cfg.team ensures SumOk(cfg, s, u) && PastScan(s.threads[u].pc) {
      assert BlockOk(cfg, s, u);
    }
    SumsFrozen(cfg, s, t, after);
  }

  // ---------------------------------------------------------------- indices

  predicate FaultFree(s: State) {
    forall t :: 0 <= t < |s.threads| ==> s.threads[t].pc != Fault
  }

  ghost predicate NeverFaults(cfg: Config, s: State) {
    forall schedule: seq<Tid> :: FaultFree(Run(cfg, s, schedule))
  }

  lemma InvIsFaultFree(cfg: Config, s: State)
    requires Inv(cfg, s)
    ensures FaultFree(s)
  {
    forall t | 0 <= t < |s.threads| ensures s.threads[t].pc != Fault {
      assert BlockOk(cfg, s, t);
    }
  }

  lemma EmptyBlock(cfg: Config)
    requires cfg.size == |cfg.input| / cfg.team && |cfg.input| < cfg.team
    ensures Start(cfg, 0) == 0 && End(cfg, 0) == 0
  {
  }

  lemma NothingToSave(cfg: Config, s: State)
    requires |s.threads| > 0 && s.threads[0].pc == First && Start(cfg, 0) == 0 && End(cfg, 0) == 0
    ensures Step(cfg, Step(cfg, Step(cfg, s, 0), 0), 0).threads[0].pc == Fault
  {
    var s1 := Step(cfg, s, 0);
    assert s1.threads[0].pc == Fault || (s1.threads[0].pc == Scan && s1.threads[0].i == 1);
    var s2 := Step(cfg, s1, 0);
    assert s2.threads[0].pc == Fault || s2.threads[0].pc == SaveSum;
  }

  /** With more threads than inputs every block but the last is empty, and the first thread reads the cell before it. */
  lemma EmptyBlockFaults(cfg: Config, output: seq<int>, blockSum: seq<int>)
    requires Fits(cfg, output, blockSum) && |cfg.input| < cfg.team
    ensures !FaultFree(Run(cfg, Init(cfg, output, blockSum), [0, 0, 0]))
  {
    var s := Init(cfg, output, blockSum);
    EmptyBlock(cfg);
    NothingToSave(cfg, s);
    var s2 := Step(cfg, Step(cfg, s, 0), 0);
    Runs.RunTwo(Stepper(cfg), s, 0, 0, [0]);
    Runs.RunOne(Stepper(cfg), s2, 0);
    assert [0, 0] + [0] == [0, 0, 0];
  }

  /** No run leaves an array's bounds exactly when there are at least as many inputs as threads. */
  lemma InBoundsIffTeamFits(cfg: Config, output: seq<int>, blockSum: seq<int>)
    requires Fits(cfg, output, blockSum)
    ensures NeverFaults(cfg, Init(cfg, output, blockSum)) <==> cfg.team <= |cfg.input|
  {
    if cfg.team <= |cfg.input| {
      forall schedule: seq<Tid> ensures FaultFree(Run(cfg, Init(cfg, output, blockSum), schedule)) {
        FittingInit(cfg, output, blockSum);
        RunInv(cfg, Init(cfg, output, blockSum), schedule);
        InvIsFaultFree(cfg, Run(cfg, Init(cfg, output, blockSum), schedule));
      }
    } else {
      EmptyBlockFaults(cfg, output, blockSum);
    }
  }

  // ---------------------------------------------------------------- progress

  /** The steps thread `t` has left. */
  function Remaining(cfg: Config, t: Tid, th: Thread): int {
    var length := End(cfg, t) - Start(cfg, t);
    match th.pc
    case First => 2 * length + t + 5
    case Scan => End(cfg, t) - th.i + length + t + 5
    case SaveSum => length + t + 4
    case Barrier => length + t + 3
    case Collect => t - th.i + length + 2
    case Shift => End(cfg, t) - th.i + 1
    case Done | Fault => 0
  }

  function Total(cfg: Config, s: State, k: nat): int
    requires k <= |s.threads|
  {
    if k == 0 then 0 else Total(cfg, s, k - 1) + Remaining(cfg, k - 1, s.threads[k - 1])
  }

  function Measure(cfg: Config, s: State): int {
    Total(cfg, s, |s.threads|)
  }

  /** The number of steps of a run that change the state. */
  function Effective(cfg: Config, s: State, schedule: seq<Tid>): nat {
    Runs.Effective(Stepper(cfg), s, schedule)
  }

  lemma MoverPays(cfg: Config, s: State, t: Tid)
    requires Inv(cfg, s) && t < |s.threads| && Step(cfg, s, t) != s
    ensures Remaining(cfg, t, Step(cfg, s, t).threads[t]) == Remaining(cfg, t, s.threads[t]) - 1
  {
    assert BlockOk(cfg, s, t);
  }

  lemma {:induction false} TotalFalls(cfg: Config, s: State, s': State, t: Tid, k: nat)
    requires t < |s.threads| == |s'.threads| && k <= |s.threads| && s'.threads == s.threads[t := s'.threads[t]]
    requires Remaining(cfg, t, s'.threads[t]) == Remaining(cfg, t, s.threads[t]) - 1
    ensures Total(cfg, s', k) == Total(cfg, s, k) - (if t < k then 1 else 0)
  {
    if k > 0 { TotalFalls(cfg, s, s', t, k - 1); }
  }

  lemma {:induction false} TotalNonNegative(cfg: Config, s: State, k: nat)
    requires Inv(cfg, s) && k <= |s.threads|
    ensures 0 <= Total(cfg, s, k)
  {
    if k > 0 {
      TotalNonNegative(cfg, s, k - 1);
      assert BlockOk(cfg, s, k - 1);
    }
  }

  lemma EffectiveStepPays(cfg: Config, s: State, t: Tid)
    requires Inv(cfg, s) && Step(cfg, s, t) != s
    ensures 0 <= Measure(cfg, Step(cfg, s, t)) == Measure(cfg, s) - 1
  {
    var s' := Step(cfg, s, t);
    MoverPays(cfg, s, t);
    TotalFalls(cfg, s, s', t, |s.threads|);
    StepInv(cfg, s, t);
    TotalNonNegative(cfg, s', |s'.threads|);
  }

  /** Every step that changes anything brings the end exactly one step nearer. */
  lemma {:induction false} StepsAddUp(cfg: Config, s: State, schedule: seq<Tid>)
    requires Inv(cfg, s)
    ensures Effective(cfg, s, schedule) + Measure(cfg, Run(cfg, s, schedule)) == Measure(cfg, s)
    decreases |schedule|
  {
    if schedule != [] {
      var t := schedule[0];
      if Step(cfg, s, t) != s { EffectiveStepPays(cfg, s, t); }
      StepInv(cfg, s, t);
      StepsAddUp(cfg, Step(cfg, s, t), schedule[1..]);
    }
  }

  /** The steps of `k` threads that do not depend on the lengths of their blocks. */
  function Overhead(k: nat): nat {
    if k == 0 then 0 else Overhead(k - 1) + k + 4
  }

  lemma {:induction false} OverheadIsQuadratic(k: nat)
    ensures 2 * Overhead(k) == k * (k + 9)
  {
    if k > 0 { OverheadIsQuadratic(k - 1); }
  }

  lemma {:induction false} InitialTotal(cfg: Config, s: State, k: nat)
    requires Sized(cfg) && |s.threads| == cfg.team && k < cfg.team
    requires forall t :: 0 <= t < |s.threads| ==> s.threads[t].pc == First
    ensures Total(cfg, s, k) == 2 * Start(cfg, k) + Overhead(k)
  {
    if k > 0 {
      InitialTotal(cfg, s, k - 1);
      BlockBounds(cfg, k - 1);
    }
  }

  lemma DoneTotal(cfg: Config, s: State, k: nat)
    requires k <= |s.threads| && AllDone(s)
    ensures Total(cfg, s, k) == 0
  {
    if k > 0 { DoneTotal(cfg, s, k - 1); }
  }

  lemma InitialMeasure(cfg: Config, output: seq<int>, blockSum: seq<int>)
    requires Fits(cfg, output, blockSum) && cfg.team <= |cfg.input|
    ensures 2 * Measure(cfg, Init(cfg, output, blockSum)) == 4 * |cfg.input| + cfg.team * (cfg.team + 9)
  {
    QuotientIsSized(cfg.input, cfg.team);
    InitialTotal(cfg, Init(cfg, output, blockSum), cfg.team - 1);
    OverheadIsQuadratic(cfg.team);
  }

  /** A complete run takes the same number of steps on every schedule; spinning at the barrier is not counted. */
  lemma EveryRunTakesAsLong(cfg: Config, output: seq<int>, blockSum: seq<int>, schedule: seq<Tid>)
    requires Fits(cfg, output, blockSum) && cfg.team <= |cfg.input|
    ensures var s := Init(cfg, output, blockSum);
            && 2 * Effective(cfg, s, schedule) <= 4 * |cfg.input| + cfg.team * (cfg.team + 9)
            && (AllDone(Run(cfg, s, schedule)) ==>
                2 * Effective(cfg, s, schedule) == 4 * |cfg.input| + cfg.team * (cfg.team + 9))
  {
    var s := Init(cfg, output, blockSum);
    FittingInit(cfg, output, blockSum);
    StepsAddUp(cfg, s, schedule);
    RunInv(cfg, s, schedule);
    var s' := Run(cfg, s, schedule);
    TotalNonNegative(cfg, s', |s'.threads|);
    InitialMeasure(cfg, output, blockSum);
    if AllDone(s') { DoneTotal(cfg, s', |s'.threads|); }
  }

  /** Some thread can move until all are done: whoever is not at the barrier, or anybody once all are. */
  lemma SomeThreadCanMove(cfg: Config, s: State) returns (t: Tid)
    requires Inv(cfg, s) && !AllDone(s)
    ensures Step(cfg, s, t) != s
  {
    if u: Tid :| u < |s.threads| && s.threads[u].pc != Barrier && s.threads[u].pc != Done {
      t := u;
    } else {
      t :| t < |s.threads| && s.threads[t].pc != Done;
    }
    assert BlockOk(cfg, s, t);
    assert Step(cfg, s, t).threads[t] != s.threads[t];
  }

  // ---------------------------------------------------------------- fair runs

  ghost function SystemOf(cfg: Config): Runs.System<State> {
    Runs.System(cfg.team, Stepper(cfg), (s: State) => Inv(cfg, s), (s: State) => AllDone(s),
                (s: State) => Measure(cfg, s))
  }

  lemma StateProgresses(cfg: Config, s: State)
    requires Inv(cfg, s)
    ensures Runs.StateOk(SystemOf(cfg), s)
  {
    TotalNonNegative(cfg, s, |s.threads|);
    if !AllDone(s) {
      var t := SomeThreadCanMove(cfg, s);
      EffectiveStepPays(cfg, s, t);
      assert Runs.Helps(SystemOf(cfg), s, t);
    }
  }

  lemma StepProgresses(cfg: Config, s: State, t: Tid)
    requires Inv(cfg, s)
    ensures Runs.StepOk(SystemOf(cfg), s, t)
  {
    StepInv(cfg, s, t);
    if Step(cfg, s, t) != s { EffectiveStepPays(cfg, s, t); }
  }

  lemma Progresses(cfg: Config)
    ensures Runs.Progresses(SystemOf(cfg))
  {
    forall s | Inv(cfg, s) ensures Runs.StateOk(SystemOf(cfg), s) {
      StateProgresses(cfg, s);
    }
    forall s, t: Tid | Inv(cfg, s) ensures Runs.StepOk(SystemOf(cfg), s, t) {
      StepProgresses(cfg, s, t);
    }
  }

  /** Every fair run finishes: enough segments with a step of every thread in each end with the sequential result. */
  lemma EveryFairRunFinishes(cfg: Config, output: seq<int>, blockSum: seq<int>, schedule: seq<Tid>,
                             segments: seq<seq<Tid>>)
    requires Fits(cfg, output, blockSum) && cfg.team <= |cfg.input| && Runs.Fair(segments, cfg.team)
    requires 4 * |cfg.input| + cfg.team * (cfg.team + 9) <= 2 * |segments|
    ensures var s := Run(cfg, Run(cfg, Init(cfg, output, blockSum), schedule), Runs.Flat(segments));
            AllDone(s) && IsPrefixSum(cfg.input, s.output)
  {
    var s := Init(cfg, output, blockSum);
    FittingInit(cfg, output, blockSum);
    InitialMeasure(cfg, output, blockSum);
    Progresses(cfg);
    Runs.RunKeeps(SystemOf(cfg), s, schedule);
    Runs.FairRunEnds(SystemOf(cfg), Run(cfg, s, schedule), segments);
    Runs.RunKeeps(SystemOf(cfg), Run(cfg, s, schedule), Runs.Flat(segments));
    DoneIsPrefixSum(cfg, Run(cfg, Run(cfg, s, schedule), Runs.Flat(segments)));
  }

  /** Such a continuation exists, so every run can be completed. */
  lemma EveryRunCanFinish(cfg: Config, output: seq<int>, blockSum: seq<int>, schedule: seq<Tid>)
    requires Fits(cfg, output, blockSum) && cfg.team <= |cfg.input|
    ensures exists more: seq<Tid> ::
      var s := Run(cfg, Run(cfg, Init(cfg, output, blockSum), schedule), more);
      AllDone(s) && IsPrefixSum(cfg.input, s.output)
  {
    var segments := Runs.RoundRobin(cfg.team, 4 * |cfg.input| + cfg.team * (cfg.team + 9));
    EveryFairRunFinishes(cfg, output, blockSum, schedule, segments);
  }

  // ---------------------------------------------------------------- the function in place

  /** The parallel region: the shared arrays, changed in place, and the team's program counters and locals. */
  class Region {
    const cfg: Config
    const output: array<int>
    const blockSum: array<int>
    const team: array<Thread>

    function Snapshot(): State
      reads output, blockSum, team
    {
      State(output[..], blockSum[..], team[..])
    }

    ghost predicate Valid()
      reads output, blockSum, team
    {
      output != blockSum && Inv(cfg, Snapshot())
    }

    predicate CanMove(t: Tid)
      reads output, blockSum, team
    {
      Step(cfg, Snapshot(), t) != Snapshot()
    }

    constructor (cfg: Config, output: array<int>)
      requires cfg == ConfigFor(cfg.input, cfg.team) && cfg.team <= |cfg.input| == output.Length
      ensures Valid() && this.cfg == cfg && this.output == output && fresh(blockSum) && fresh(team)
      ensures Snapshot() == Init(cfg, old(output[..]), blockSum[..])
    {
      this.cfg := cfg;
      this.output := output;
      blockSum := new int[cfg.team];
      team := new Thread[cfg.team](_ => Thread(First, 0, 0));
      new;
      FittingInit(cfg, output[..], blockSum[..]);
      assert Snapshot() == Init(cfg, output[..], blockSum[..]);
    }

    method BlockRange(t: Tid) returns (start: nat, end: nat)
      ensures start == Start(cfg, t) && end == End(cfg, t)
    {
      TimesIsProduct(t, cfg.size);
      start := t * cfg.size;
      if t == cfg.team - 1 {
        end := |cfg.input|;
      } else {
        end := start + cfg.size;
      }
    }

    method StoreOutput(i: nat, value: int)
      requires i < output.Length
      modifies output
      ensures output[..] == old(output[..])[i := value]
    {
      output[i] := value;
    }

    /** The scan of the thread's own block. */
    method ScanBlock(t: Tid)
      requires Valid() && t < team.Length
      requires team[t].pc == First || team[t].pc == Scan
      modifies output, team
      ensures Valid() && Snapshot() == Step(cfg, old(Snapshot()), t)
    {
      ghost var before := Snapshot();
      assert BlockOk(cfg, before, t);
      StepInv(cfg, before, t);
      var start, end := BlockRange(t);
      var th := team[t];
      if th.pc == First {
        StoreOutput(start, cfg.input[start]);
        team[t] := Thread(Scan, start + 1, 0);
      } else if th.i < end {
        StoreOutput(th.i, cfg.input[th.i] + output[th.i - 1]);
        team[t] := th.(i := th.i + 1);
      } else {
        team[t] := th.(pc := SaveSum);
      }
      assert Snapshot() == Step(cfg, before, t);
    }

    /** The last cell of the scanned block is the block's sum. */
    method SaveBlockSum(t: Tid)
      requires Valid() && t < team.Length && team[t].pc == SaveSum
      modifies blockSum, team
      ensures Valid() && Snapshot() == Step(cfg, old(Snapshot()), t)
    {
      ghost var before := Snapshot();
      assert BlockOk(cfg, before, t);
      StepInv(cfg, before, t);
      var start, end := BlockRange(t);
      blockSum[t] := output[end - 1];
      team[t] := team[t].(pc := Barrier);
      assert Snapshot() == Step(cfg, before, t);
    }

    /** The barrier, which opens when all have arrived. */
    method PassBarrier(t: Tid)
      requires Valid() && t < team.Length && team[t].pc == Barrier
      modifies team
      ensures Valid() && Snapshot() == Step(cfg, old(Snapshot()), t)
    {
      ghost var before := Snapshot();
      StepInv(cfg, before, t);
      if AllArrived(team[..]) {
        team[t] := Thread(Collect, 0, 0);
      }
      assert Snapshot() == Step(cfg, before, t);
    }

    /** The sums of the blocks before the own one are collected. */
    method CollectOffset(t: Tid)
      requires Valid() && t < team.Length && team[t].pc == Collect
      modifies team
      ensures Valid() && Snapshot() == Step(cfg, old(Snapshot()), t)
    {
      ghost var before := Snapshot();
      assert BlockOk(cfg, before, t);
      StepInv(cfg, before, t);
      var start, end := BlockRange(t);
      var th := team[t];
      if th.i < t {
        team[t] := th.(i := th.i + 1, offset := th.offset + blockSum[th.i]);
      } else {
        team[t] := th.(pc := Shift, i := start);
      }
      assert Snapshot() == Step(cfg, before, t);
    }

    /** They are added to the own block. */
    method AddOffset(t: Tid)
      requires Valid() && t < team.Length && team[t].pc == Shift
      modifies output, team
      ensures Valid() && Snapshot() == Step(cfg, old(Snapshot()), t)
    {
      ghost var before := Snapshot();
      assert BlockOk(cfg, before, t);
      StepInv(cfg, before, t);
      var start, end := BlockRange(t);
      var th := team[t];
      if th.i < end {
        StoreOutput(th.i, output[th.i] + th.offset);
        team[t] := th.(i := th.i + 1);
      } else {
        team[t] := th.(pc := Done);
      }
      assert Snapshot() == Step(cfg, before, t);
    }

    method Advance(t: Tid)
      requires Valid()
      modifies output, blockSum, team
      ensures Valid() && Snapshot() == Step(cfg, old(Snapshot()), t)
    {
      if t < team.Length {
        assert BlockOk(cfg, Snapshot(), t);
        match team[t].pc
        case First | Scan => ScanBlock(t);
        case SaveSum => SaveBlockSum(t);
        case Barrier => PassBarrier(t);
        case Collect => CollectOffset(t);
        case Shift => AddOffset(t);
        case Done =>
      }
    }
  }

  /**
   * The whole function: while some thread can move, an arbitrary one of them does. It ends on every
   * choice of interleaving, with the prefix sums in `output`, whatever that held before.
   */
  method ParallelPrefixSum(input: seq<int>, output: array<int>, team: Positive)
    requires team <= |input| == output.Length
    modifies output
    ensures IsPrefixSum(input, output[..])
  {
    var cfg := ConfigFor(input, team);
    var region := new Region(cfg, output);
    while exists t: Tid :: t < team && region.CanMove(t)
      invariant region.Valid() && region.cfg == cfg && region.output == output
      invariant fresh(region.blockSum) && fresh(region.team)
      decreases Measure(cfg, region.Snapshot())
    {
      var t: Tid :| t < team && region.CanMove(t);
      EffectiveStepPays(cfg, region.Snapshot(), t);
      region.Advance(t);
    }
    ghost var s := region.Snapshot();
    if !AllDone(s) {
      var t := SomeThreadCanMove(cfg, s);
      assert region.CanMove(t);
    }
    DoneIsPrefixSum(cfg, s);
  }
}
