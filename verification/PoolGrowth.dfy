// Splitting a growth in PG count into tranches, and the block size that keeps each tranche
// within what the mons accept in one command.
module PoolGrowth {
  function Min(a: int, b: int): int {
    if a < b then a else b
  }

  function Max(a: int, b: int): int {
    if a < b then b else a
  }

  // ---------------------------------------------------------------- progress through a growth

  datatype Progress = Progress(initial: int, final: int, blockSize: int, stillToCreate: int, goal: int) {

    predicate IsFinalBlock() {
      goal == final
    }

    predicate IsComplete() {
      stillToCreate == 0
    }

    function AdvanceGoal(): Progress {
      this.(goal := Min(final, goal + blockSize))
    }

    function SetCreated(count: int): Progress {
      this.(stillToCreate := Max(final - count, 0))
    }
  }

  function NewProgress(initial: int, final: int, blockSize: int): Progress {
    Progress(initial, final, blockSize, final - initial, initial).AdvanceGoal()
  }

  // The owner is the request that tracks its growth with this object; no other request refers to it.
  class PgProgress {
    const initial: int
    const final: int
    const blockSize: int
    const owner: string
    var stillToCreate: int
    var intermediateGoal: int

    function View(): Progress
      reads this
    {
      Progress(initial, final, blockSize, stillToCreate, intermediateGoal)
    }

    constructor (initial: int, final: int, blockSize: int, owner: string)
      requires initial != final
      ensures View() == NewProgress(initial, final, blockSize) && this.owner == owner
    {
      this.initial, this.final, this.blockSize, this.owner := initial, final, blockSize, owner;
      stillToCreate := final - initial;
      intermediateGoal := initial;
      new;
      AdvanceGoal();
    }

    method AdvanceGoal()
      requires !View().IsFinalBlock()
      modifies this
      ensures View() == old(View()).AdvanceGoal()
    {
      intermediateGoal := Min(final, intermediateGoal + blockSize);
    }

    method SetCreatedPgCount(pgCount: int)
      modifies this
      ensures View() == old(View()).SetCreated(pgCount)
    {
      stillToCreate := Max(final - pgCount, 0);
    }
  }

  // ---------------------------------------------------------------- the tranches

  // The goal of the k-th tranche.
  function Goal(initial: int, final: int, blockSize: int, k: nat): int {
    Min(final, initial + k * blockSize)
  }

  // ceil((final - initial) / blockSize)
  function TrancheCount(initial: int, final: int, blockSize: int): nat
    requires initial < final && 0 < blockSize
  {
    (final - initial + blockSize - 1) / blockSize
  }

  lemma MulMono(a: nat, b: nat, c: nat)
    requires a <= b
    ensures a * c <= b * c
  {
  }

  lemma CeilBounds(d: int, b: int, k: nat)
    requires 0 < d && 0 < b
    ensures var t := (d + b - 1) / b;
            && 1 <= t
            && (k >= t ==> k * b >= d)
            && (k < t ==> k * b < d)
  {
    var t := (d + b - 1) / b;
    assert t * b <= d + b - 1 < t * b + b;
    if k >= t {
      MulMono(t, k, b);
    } else {
      MulMono(k, t - 1, b);
    }
  }

  // The goals rise strictly, by at most one block, from the initial count to the final one.
  lemma TranchesRise(initial: int, final: int, blockSize: int, k: nat)
    requires initial < final && 0 < blockSize
    ensures var t := TrancheCount(initial, final, blockSize);
            && 1 <= t
            && Goal(initial, final, blockSize, 0) == initial
            && (Goal(initial, final, blockSize, k) == final <==> t <= k)
            && (k < t ==> 0 < Goal(initial, final, blockSize, k + 1) - Goal(initial, final, blockSize, k) <= blockSize)
            && initial <= Goal(initial, final, blockSize, k) <= final
  {
    CeilBounds(final - initial, blockSize, k);
    MulMono(0, k, blockSize);
    assert (k + 1) * blockSize == k * blockSize + blockSize;
  }

  // Advancing from one tranche's goal gives the next one's.
  lemma AdvanceIsNextTranche(p: Progress, k: nat)
    requires p.initial < p.final && 0 < p.blockSize
    requires p.goal == Goal(p.initial, p.final, p.blockSize, k) && !p.IsFinalBlock()
    ensures p.AdvanceGoal().goal == Goal(p.initial, p.final, p.blockSize, k + 1)
    ensures k < TrancheCount(p.initial, p.final, p.blockSize)
  {
    TranchesRise(p.initial, p.final, p.blockSize, k);
    assert (k + 1) * p.blockSize == k * p.blockSize + p.blockSize;
  }

  // With no OSDs, or a split count of zero, a growth never leaves its initial count.
  lemma EmptyBlockNeverAdvances(initial: int, final: int, k: nat)
    requires initial < final
    ensures Goal(initial, final, 0, k) == initial
  {
    assert k * 0 == 0;
  }

  // ---------------------------------------------------------------- the mons' limit

  // The block size chosen when the growth is requested.
  function BlockSize(maxSplitCount: nat, initial: int, osdCount: nat): int {
    maxSplitCount * Min(initial, osdCount)
  }

  // What a mon accepts in one command for a pool that has `current` PGs.
  predicate SplitAllowed(maxSplitCount: nat, osdCount: nat, current: int, requested: int) {
    requested - current <= maxSplitCount * Min(current, osdCount)
  }

  lemma MulMonoInt(n: nat, a: int, b: int)
    requires a <= b
    ensures n * a <= n * b
  {
  }

  // Although the block size is computed once, from the initial count, every later tranche obeys
  // the limit that applies when it is requested.
  lemma TranchesRespectLimit(maxSplitCount: nat, initial: int, final: int, osdCount: nat, k: nat)
    requires initial < final && 0 < BlockSize(maxSplitCount, initial, osdCount)
    requires k < TrancheCount(initial, final, BlockSize(maxSplitCount, initial, osdCount))
    ensures var b := BlockSize(maxSplitCount, initial, osdCount);
            SplitAllowed(maxSplitCount, osdCount, Goal(initial, final, b, k), Goal(initial, final, b, k + 1))
  {
    var b := BlockSize(maxSplitCount, initial, osdCount);
    TranchesRise(initial, final, b, k);
    MulMonoInt(maxSplitCount, Min(initial, osdCount), Min(Goal(initial, final, b, k), osdCount));
  }
}
