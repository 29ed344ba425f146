/** The two read-only handlers over the Merkle tables
    (server/handlers/merkle/verify.js and proof.js). */
module MerkleHandlers {
  import opened MerkleCore
  import opened MerkleTables
  import opened Outcomes

  type UserId = nat

  datatype MessageRow = MessageRow(deleted: bool, hiddenFor: set<UserId>)

  datatype Status =
    | Nothing
    | NotYet(builtRoot: Option<Digest>)
    | StoredOnBlockchain(
        txHash: Option<TxHash>,
        merkleRoot: Digest,
        blockTimestamp: Option<nat>,
        leafHash: Digest,
        leafIndex: Option<nat>)

  /** The LEFT JOIN of a leaf with its root. */
  function JoinedRoot(t: Tables, leaf: LeafRow): Option<RootRow> {
    if leaf.rootId.Some? && leaf.rootId.value in t.roots then Some(t.roots[leaf.rootId.value]) else None
  }

  function GetMessageStatus(t: Tables, messages: map<MsgId, MessageRow>, msg: MsgId, user: UserId): Status {
    if msg !in messages || messages[msg].deleted || user in messages[msg].hiddenFor then Nothing
    else if msg !in t.leaves then NotYet(None)
    else
      var leaf := t.leaves[msg];
      match JoinedRoot(t, leaf)
      case None => NotYet(None)
      case Some(root) =>
        if !root.state.Confirmed? then NotYet(Some(root.merkleRoot))
        else StoredOnBlockchain(root.txHash, root.merkleRoot, root.blockTimestamp, leaf.hash, leaf.leafIndex)
  }

  datatype Verdict = RootNotConfirmed | NoLeaves | LeafNotInRoot | Verified(verified: bool)

  /** An answer to the query for confirmed roots with this value. */
  ghost predicate AnswersRoots(t: Tables, root: Digest, rows: seq<RootId>) {
    forall r :: r in rows <==> r in t.roots && t.roots[r].state.Confirmed? && t.roots[r].merkleRoot == root
  }

  /** An answer to SELECT .. WHERE merkle_root_id = r ORDER BY leaf_index ASC. */
  ghost predicate AnswersLeaves(t: Tables, r: RootId, rows: seq<MsgId>) {
    && Distinct(rows)
    && (forall l :: l in rows <==> l in t.leaves && t.leaves[l].rootId == Some(r))
    && (forall i, j | 0 <= i < j < |rows| && t.leaves[rows[i]].leafIndex.Some? && t.leaves[rows[j]].leafIndex.Some? ::
      t.leaves[rows[i]].leafIndex.value <= t.leaves[rows[j]].leafIndex.value)
  }

  function ProofHandler(
    k: Keccak, t: Tables, leaf: Digest, root: Digest, rootRows: seq<RootId>, leafRows: seq<MsgId>): Verdict
    requires forall l | l in leafRows :: l in t.leaves
  {
    if rootRows == [] then RootNotConfirmed
    else if leafRows == [] then NoLeaves
    else
      var hashes := Hashes(t, leafRows);
      if leaf !in hashes then LeafNotInRoot else Verified(Root(k, hashes) == root)
  }
}
