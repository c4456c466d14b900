/** The split of N items over ranks: the root's arrays, and the count each rank works out for itself. */
module Scatterv {
  import opened Numbers

  /** Everybody gets `base` items, and the first `extra` ranks one more. */
  datatype Split = Split(base: nat, extra: nat)

  function SplitOf(n: nat, world: Positive): Split {
    Split(n / world, n % world)
  }

  function Share(split: Split, rank: nat): nat {
    if rank < split.extra then split.base + 1 else split.base
  }

  /** Where a rank's items start: after those of all ranks before it. */
  function Displacement(split: Split, rank: nat): nat {
    if rank == 0 then 0 else Displacement(split, rank - 1) + Share(split, rank - 1)
  }

  function Min(a: nat, b: nat): nat {
    if a < b then a else b
  }

  lemma OneMore(rank: nat, base: nat)
    ensures (rank + 1) * base == rank * base + base
  {
  }

  /** In closed form, a rank starts after its predecessors' equal shares and their extra items. */
  lemma {:induction false} DisplacementFormula(split: Split, rank: nat)
    ensures Displacement(split, rank) == rank * split.base + Min(rank, split.extra)
  {
    if rank > 0 {
      DisplacementFormula(split, rank - 1);
      OneMore(rank - 1, split.base);
    }
  }

  lemma DivisionOf(n: nat, world: Positive)
    ensures world * (n / world) + n % world == n
  {
  }

  /** The shares of all ranks are the whole buffer. */
  lemma SharesFillTheBuffer(n: nat, world: Positive)
    ensures Displacement(SplitOf(n, world), world) == n
  {
    DisplacementFormula(SplitOf(n, world), world);
    DivisionOf(n, world);
  }

  lemma {:induction false} DisplacementsGrow(split: Split, a: nat, b: nat)
    requires a <= b
    ensures Displacement(split, a) <= Displacement(split, b)
    ensures a < b ==> Displacement(split, a) + Share(split, a) <= Displacement(split, b)
  {
    if a < b { DisplacementsGrow(split, a, b - 1); }
  }

  predicate Holds(split: Split, rank: nat, item: nat) {
    Displacement(split, rank) <= item < Displacement(split, rank) + Share(split, rank)
  }

  lemma {:induction false} FindHolder(split: Split, below: nat, item: nat) returns (rank: nat)
    requires item < Displacement(split, below)
    ensures rank < below && Holds(split, rank, item)
  {
    if Displacement(split, below - 1) <= item {
      rank := below - 1;
    } else {
      rank := FindHolder(split, below - 1, item);
    }
  }

  /** The ranges of the ranks cover the buffer and nothing else. */
  lemma RangesCover(n: nat, world: Positive, item: nat)
    ensures item < n <==> exists rank: nat :: rank < world && Holds(SplitOf(n, world), rank, item)
  {
    var split := SplitOf(n, world);
    SharesFillTheBuffer(n, world);
    if item < n {
      var rank := FindHolder(split, world, item);
    }
    forall rank: nat | rank < world && Holds(split, rank, item) ensures item < n {
      DisplacementsGrow(split, rank, world);
    }
  }

  /** The ranges of two ranks never overlap, and their sizes differ by at most one. */
  lemma RangesDisjointAndFair(split: Split, a: nat, b: nat, item: nat)
    requires a < b
    ensures !(Holds(split, a, item) && Holds(split, b, item))
    ensures 0 <= Share(split, a) - Share(split, b) <= 1
  {
    DisplacementsGrow(split, a, b);
  }

  // ---------------------------------------------------------------- the plan and the chunks

  /** The first entries of the root's two arrays are right. */
  predicate PlannedUpTo(split: Split, counts: seq<nat>, displs: seq<nat>, k: nat) {
    && k <= |counts| && k <= |displs|
    && (forall r :: 0 <= r < k ==> counts[r] == Share(split, r))
    && (forall r :: 0 <= r < k ==> displs[r] == Displacement(split, r))
  }

  predicate Planned(n: nat, world: Positive, counts: seq<nat>, displs: seq<nat>) {
    |counts| == |displs| == world && PlannedUpTo(SplitOf(n, world), counts, displs, world)
  }

  predicate InBuffer(n: nat, counts: seq<nat>, displs: seq<nat>, r: nat) {
    r < |counts| && r < |displs| && displs[r] + counts[r] <= n
  }

  lemma PlanInBuffer(n: nat, world: Positive, counts: seq<nat>, displs: seq<nat>, r: nat)
    requires Planned(n, world, counts, displs) && r < world
    ensures InBuffer(n, counts, displs, r)
  {
    SharesFillTheBuffer(n, world);
    DisplacementsGrow(SplitOf(n, world), r, world);
  }

  /** What the scatter call hands to a rank. */
  function Chunk(buffer: seq<int>, counts: seq<nat>, displs: seq<nat>, r: nat): seq<int>
    requires InBuffer(|buffer|, counts, displs, r)
  {
    buffer[displs[r]..displs[r] + counts[r]]
  }

  function Concat(chunks: seq<seq<int>>): seq<int> {
    if chunks == [] then [] else Concat(chunks[..|chunks| - 1]) + chunks[|chunks| - 1]
  }

  predicate AreChunks(chunks: seq<seq<int>>, buffer: seq<int>, counts: seq<nat>, displs: seq<nat>) {
    forall r :: 0 <= r < |chunks| ==>
      InBuffer(|buffer|, counts, displs, r) && chunks[r] == Chunk(buffer, counts, displs, r)
  }

  lemma FrontAreChunks(chunks: seq<seq<int>>, buffer: seq<int>, counts: seq<nat>, displs: seq<nat>, k: nat)
    requires k < |chunks| && AreChunks(chunks, buffer, counts, displs)
    ensures AreChunks(chunks[..k], buffer, counts, displs)
    ensures InBuffer(|buffer|, counts, displs, k) && chunks[k] == Chunk(buffer, counts, displs, k)
  {
  }

  lemma FrontGrows(s: seq<int>, a: nat, b: nat)
    requires a <= b <= |s|
    ensures s[..a] + s[a..b] == s[..b]
  {
  }

  /** The first chunks put together in rank order are the front of the buffer. */
  lemma {:induction false} ChunksAreFront(split: Split, buffer: seq<int>, counts: seq<nat>, displs: seq<nat>,
                                          chunks: seq<seq<int>>)
    requires PlannedUpTo(split, counts, displs, |chunks|) && AreChunks(chunks, buffer, counts, displs)
    ensures Displacement(split, |chunks|) <= |buffer|
    ensures Concat(chunks) == buffer[..Displacement(split, |chunks|)]
  {
    if chunks != [] {
      var r := |chunks| - 1;
      assert counts[r] == Share(split, r) && displs[r] == Displacement(split, r);
      FrontAreChunks(chunks, buffer, counts, displs, r);
      ChunksAreFront(split, buffer, counts, displs, chunks[..r]);
      FrontGrows(buffer, displs[r], displs[r] + counts[r]);
    }
  }

  /** The chunks of all ranks put together in rank order are the buffer. */
  lemma ChunksRebuildBuffer(buffer: seq<int>, world: Positive, counts: seq<nat>, displs: seq<nat>,
                            chunks: seq<seq<int>>)
    requires Planned(|buffer|, world, counts, displs) && |chunks| == world && AreChunks(chunks, buffer, counts, displs)
    ensures Concat(chunks) == buffer
  {
    ChunksAreFront(SplitOf(|buffer|, world), buffer, counts, displs, chunks);
    SharesFillTheBuffer(|buffer|, world);
  }

  /** So if cell `i` of the buffer is 100 times `i`, every rank has its share, and together they have that buffer. */
  lemma ReceivedIsSent(buffer: seq<int>, world: Positive, counts: seq<nat>, displs: seq<nat>, received: seq<seq<int>>)
    requires Planned(|buffer|, world, counts, displs) && |received| == world
    requires AreChunks(received, buffer, counts, displs)
    requires forall i :: 0 <= i < |buffer| ==> buffer[i] == 100 * i
    ensures forall r :: 0 <= r < world ==> |received[r]| == Share(SplitOf(|buffer|, world), r)
    ensures |Concat(received)| == |buffer| && forall i :: 0 <= i < |buffer| ==> Concat(received)[i] == 100 * i
  {
    ChunksRebuildBuffer(buffer, world, counts, displs, received);
    forall r | 0 <= r < world ensures |received[r]| == Share(SplitOf(|buffer|, world), r) {
      assert counts[r] == Share(SplitOf(|buffer|, world), r);
    }
  }

  // ---------------------------------------------------------------- the program

  /** The count that a rank works out for itself before the call is the one in the root's array. */
  method ReceiveCount(n: nat, rank: nat, world: Positive) returns (count: nat)
    ensures forall counts, displs :: Planned(n, world, counts, displs) && rank < world ==> count == counts[rank]
    ensures count == Share(SplitOf(n, world), rank)
  {
    var base := n / world;
    var remainder := n % world;
    if rank < remainder {
      count := base + 1;
    } else {
      count := base;
    }
  }

  method SendBuffer(n: nat) returns (buffer: array<int>)
    ensures buffer.Length == n && forall i :: 0 <= i < n ==> buffer[i] == 100 * i
  {
    buffer := new int[n];
    var i := 0;
    while i < n
      invariant 0 <= i <= n
      invariant forall k :: 0 <= k < i ==> buffer[k] == 100 * k
    {
      buffer[i] := 100 * i;
      i := i + 1;
    }
  }

  /** The root's loop: the displacement of a rank is the running total of the counts before it. */
  method Plan(n: nat, world: Positive) returns (counts: array<nat>, displs: array<nat>)
    ensures Planned(n, world, counts[..], displs[..])
  {
    displs := new nat[world];
    counts := new nat[world];
    var split := SplitOf(n, world);
    var current := 0;
    var i := 0;
    while i < world
      invariant 0 <= i <= world && current == Displacement(split, i)
      invariant PlannedUpTo(split, counts[..], displs[..], i)
    {
      if i < split.extra {
        counts[i] := split.base + 1;
      } else {
        counts[i] := split.base;
      }
      displs[i] := current;
      current := current + counts[i];
      i := i + 1;
    }
  }

  /** Every rank's part of the program: what all of them have received, in rank order, is what the root sent. */
  method ScatterAll(n: nat, world: Positive) returns (received: seq<seq<int>>)
    ensures |received| == world && forall r :: 0 <= r < world ==> |received[r]| == Share(SplitOf(n, world), r)
    ensures |Concat(received)| == n && forall i :: 0 <= i < n ==> Concat(received)[i] == 100 * i
  {
    var buffer := SendBuffer(n);
    var counts, displs := Plan(n, world);
    ghost var sent, countSeq, displSeq := buffer[..], counts[..], displs[..];
    received := [];
    var rank := 0;
    while rank < world
      invariant |received| == rank <= world
      invariant buffer[..] == sent && counts[..] == countSeq && displs[..] == displSeq
      invariant AreChunks(received, sent, countSeq, displSeq)
    {
      var count := ReceiveCount(n, rank, world);
      PlanInBuffer(n, world, countSeq, displSeq, rank);
      assert count == counts[rank];
      received := received + [buffer[displs[rank]..displs[rank] + count]];
      rank := rank + 1;
    }
    ReceivedIsSent(sent, world, countSeq, displSeq, received);
  }
}
