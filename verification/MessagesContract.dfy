/** blockchain/contracts/MessagesContract.sol: storing a batch of roots. */
module MessagesContract {
  import opened MerkleCore
  import opened Outcomes

  type Address = nat

  const MAX_BATCH_SIZE := 100

  datatype Revert =
    | Unauthorized
    | EmptyBatch
    | BatchTooLarge(length: nat)
    | ZeroRoot(index: nat)

  datatype HashStored = HashStored(merkleRoot: Digest, timestamp: nat)

  predicate NoZeroRoot(roots: seq<Digest>) {
    forall i | 0 <= i < |roots| :: roots[i] != ZERO_DIGEST
  }

  /** The batches a caller can get stored. */
  predicate Accepts(owner: Address, sender: Address, roots: seq<Digest>) {
    sender == owner && 1 <= |roots| <= MAX_BATCH_SIZE && NoZeroRoot(roots)
  }

  /** Exactly one event per root, in order, all with the block's time. */
  ghost predicate EmitsEach(roots: seq<Digest>, now: nat, events: seq<HashStored>) {
    |events| == |roots| && forall i | 0 <= i < |roots| :: events[i] == HashStored(roots[i], now)
  }

  class MessageIntegrity {
    var owner: Address

    constructor (initialOwner: Address)
      ensures owner == initialOwner
    {
      owner := initialOwner;
    }

    /** All or nothing: either every root is emitted once, or the first failing
        guard is reported and nothing is emitted. */
    method StoreBatchHashes(sender: Address, merkleRoots: seq<Digest>, now: nat)
      returns (r: Result<seq<HashStored>, Revert>)
      ensures r.Ok? <==> Accepts(owner, sender, merkleRoots)
      ensures r.Ok? ==> EmitsEach(merkleRoots, now, r.value)
      ensures r == Err(Unauthorized) <==> sender != owner
      ensures r == Err(EmptyBatch) <==> sender == owner && merkleRoots == []
      ensures r.Err? && r.error.BatchTooLarge? <==> sender == owner && |merkleRoots| > 100
      ensures r.Err? && r.error.ZeroRoot? ==>
        && r.error.index < |merkleRoots| && merkleRoots[r.error.index] == ZERO_DIGEST
        && NoZeroRoot(merkleRoots[..r.error.index])
    {
      if sender != owner { return Err(Unauthorized); }
      if |merkleRoots| == 0 { return Err(EmptyBatch); }
      if |merkleRoots| > MAX_BATCH_SIZE { return Err(BatchTooLarge(|merkleRoots|)); }
      var events: seq<HashStored> := [];
      for i := 0 to |merkleRoots|
        invariant EmitsEach(merkleRoots[..i], now, events)
        invariant NoZeroRoot(merkleRoots[..i])
      {
        var merkleRoot := merkleRoots[i];
        if merkleRoot == ZERO_DIGEST { return Err(ZeroRoot(i)); }
        events := events + [HashStored(merkleRoot, now)];
      }
      assert merkleRoots[..|merkleRoots|] == merkleRoots;
      r := Ok(events);
    }
  }
}
