/**
 Blocks, digests and rounds shared by every component.

 Hashing is symbolic: the digest of a block is a term built from the block
 itself, so two blocks with the same digest are the same block and no block
 can contain its own digest. A digest that is not the hash of a known block
 (a configured genesis hash, the zero digest) is a `Seed`.
 */
module Chain {

  datatype Option<+T> = None | Some(value: T)

  /** A hash of the execution layer; 0 is the all-zero hash. */
  type EthHash = nat

  datatype Digest = Seed(id: nat) | Hash(block: Block)

  /** A block header; `body` stands for everything else its digest commits to. */
  datatype Block = Block(parent: Digest, height: nat, epoch: nat, view: nat, eth: EthHash, body: nat) {
    function Id(): Digest {
      Hash(this)
    }
  }

  /** Where a block sits: the key of every per-block table of the finalizer. */
  datatype Key = Key(height: nat, digest: Digest)

  function KeyOf(b: Block): Key {
    Key(b.height, b.Id())
  }

  function ParentKey(b: Block): Key
    requires b.height > 0
  {
    Key(b.height - 1, b.parent)
  }

  /** Rounds are ordered by epoch first and view second. */
  datatype Round = Round(epoch: nat, view: nat) {
    predicate AtMost(other: Round) {
      epoch < other.epoch || (epoch == other.epoch && view <= other.view)
    }
  }

  /** A finalization certificate: the round it was signed in and the digest it certifies. */
  datatype Certificate = Certificate(round: Round, payload: Digest)

  /** Epochs are contiguous, non-empty height ranges. */
  ghost predicate Contiguous(epochOf: nat -> nat) {
    forall h: nat, g: nat :: g == h + 1 ==> epochOf(h) <= epochOf(g) <= epochOf(h) + 1
  }

  predicate IsLastOfEpoch(epochOf: nat -> nat, height: nat) {
    epochOf(height + 1) != epochOf(height)
  }

  lemma {:induction false} EpochsMonotone(epochOf: nat -> nat, low: nat, high: nat)
    requires Contiguous(epochOf)
    requires low <= high
    ensures epochOf(low) <= epochOf(high)
    decreases high - low
  {
    if low >= high {
    } else {
      EpochsMonotone(epochOf, low, high - 1);
      assert high == (high - 1) + 1;
    }
  }
}
