/** How the nonce space is split between the workers of one run: worker `id` of
    `totalWorkers` starts at nonce `id` and steps by `totalWorkers`
    (src/mine.worker.ts:18-19, with the ids posted at src/index.ts:161-162). */
module NonceSpace {

  /** The start nonce and the nonce step handed to the hashing primitive. */
  datatype Assignment = Assignment(start: int, step: int)

  /** The assignment a worker derives from the id and worker count it was posted. */
  function Allocate(id: int, totalWorkers: int): Assignment {
    Assignment(id, totalWorkers)
  }

  /** The k-th nonce tried under an assignment: the start, stepped `k` times. */
  function NonceAt(a: Assignment, k: nat): int {
    if k == 0 then a.start else NonceAt(a, k - 1) + a.step
  }

  /** The k-th nonce is `start + k * step`. */
  lemma {:induction false} NonceAtIsLinear(a: Assignment, k: nat)
    ensures NonceAt(a, k) == a.start + k * a.step
  {
    if k > 0 {
      NonceAtIsLinear(a, k - 1);
      assert (k - 1) * a.step + a.step == k * a.step;
    }
  }

  /** The nonce `n` is tried under assignment `a`. */
  ghost predicate Visits(a: Assignment, n: int) {
    exists k: nat :: NonceAt(a, k) == n
  }

  /** Every natural number is tried by the worker whose id is its residue,
      at step `n / totalWorkers`. */
  lemma {:induction false} EveryNonceHasAnOwner(totalWorkers: int, n: nat) returns (k: nat)
    requires totalWorkers >= 1
    ensures 0 <= n % totalWorkers < totalWorkers
    ensures NonceAt(Allocate(n % totalWorkers, totalWorkers), k) == n
  {
    k := n / totalWorkers;
    NonceAtIsLinear(Allocate(n % totalWorkers, totalWorkers), k);
    assert n == n % totalWorkers + (n / totalWorkers) * totalWorkers;
  }

  /** Two workers of the same run never try the same nonce, and one worker never
      tries a nonce twice. */
  lemma {:induction false} NoNonceHasTwoOwners(totalWorkers: int, i: int, j: int, ki: nat, kj: nat)
    requires totalWorkers >= 1
    requires 0 <= i < totalWorkers && 0 <= j < totalWorkers
    requires NonceAt(Allocate(i, totalWorkers), ki) == NonceAt(Allocate(j, totalWorkers), kj)
    ensures i == j && ki == kj
  {
    NonceAtIsLinear(Allocate(i, totalWorkers), ki);
    NonceAtIsLinear(Allocate(j, totalWorkers), kj);
    if ki < kj {
      StepsApart(totalWorkers, ki, kj);
    } else if kj < ki {
      StepsApart(totalWorkers, kj, ki);
    }
  }

  /** Nonces `lo` and `hi > lo` steps into the same progression are at least one step apart. */
  lemma {:induction false} StepsApart(step: int, lo: nat, hi: nat)
    requires step >= 1 && lo < hi
    ensures hi * step - lo * step >= step
  {
    calc {
      hi * step - lo * step;
      (hi - lo) * step;
      >= { assert hi - lo >= 1; }
      step;
    }
  }

  /** For `totalWorkers >= 1` the residue classes modulo `totalWorkers` partition
      the naturals: nonce `n` is tried by worker `n % totalWorkers` and by no other. */
  lemma ResidueClassesPartition(totalWorkers: int, n: nat)
    requires totalWorkers >= 1
    ensures Visits(Allocate(n % totalWorkers, totalWorkers), n)
    ensures forall i | 0 <= i < totalWorkers && Visits(Allocate(i, totalWorkers), n) :: i == n % totalWorkers
  {
    var k := EveryNonceHasAnOwner(totalWorkers, n);
    forall i | 0 <= i < totalWorkers && Visits(Allocate(i, totalWorkers), n)
      ensures i == n % totalWorkers
    {
      var ki: nat :| NonceAt(Allocate(i, totalWorkers), ki) == n;
      NoNonceHasTwoOwners(totalWorkers, i, n % totalWorkers, ki, k);
    }
  }
}
