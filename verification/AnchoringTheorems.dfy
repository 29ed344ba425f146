/** What the invariant means to users of the anchoring pipeline. */
module AnchoringTheorems {
  import opened Anchoring
  import opened AnchoringHistory
  import opened AnchoringSafety
  import opened MerkleCore
  import opened MerkleHandlers
  import opened MerkleTables
  import opened Outcomes

  // ----------------------------------------------------- message status

  /** In every reachable world a message reported as stored sits at its index
      in its root's leaf list, its proof there verifies, and the reported
      transaction succeeded and emitted HashStored for that root. */
  lemma StoredMeansAnchored(
    k: Keccak, cfg: Config, run: seq<Action>, w: World, messages: map<MsgId, MessageRow>, msg: MsgId, user: UserId)
    returns (ids: seq<MsgId>)
    requires After(k, cfg, run) == Some(w)
    requires GetMessageStatus(w.t, messages, msg, user).StoredOnBlockchain?
    ensures
      var s := GetMessageStatus(w.t, messages, msg, user);
      && s.leafIndex.Some? && s.txHash.Some? && s.blockTimestamp.Some?
      && OrderedLeaves(w.t, w.t.leaves[msg].rootId.value, ids)
      && s.leafIndex.value < |ids| && ids[s.leafIndex.value] == msg
      && Hashes(w.t, ids)[s.leafIndex.value] == s.leafHash
      && Root(k, Hashes(w.t, ids)) == s.merkleRoot
      && VerifyProof(k, s.leafHash, GetProof(k, Hashes(w.t, ids), s.leafIndex.value), s.merkleRoot)
      && s.txHash.value in w.chain && w.chain[s.txHash.value].status.Succeeded?
      && exists ev :: ev in w.chain[s.txHash.value].status.logs
                      && ev.merkleRoot == s.merkleRoot && ev.timestamp == s.blockTimestamp.value
  {
    RunKeepsInv(k, cfg, run);
    var r := w.t.leaves[msg].rootId.value;
    ids :| RootLeaves(k, w.t, r, ids);
    assert LeafOk(w.t, w.t.leaves[msg]) && RowOk(w.chain, w.t.roots[r]);
    assert msg in ids;
    var i :| 0 <= i < |ids| && ids[i] == msg;
    ProofComplete(k, Hashes(w.t, ids), i);
  }

  /** The message exists, is not deleted and not hidden from this user. */
  predicate Visible(messages: map<MsgId, MessageRow>, msg: MsgId, user: UserId) {
    msg in messages && !messages[msg].deleted && user !in messages[msg].hiddenFor
  }

  /** The message's leaf sits under a root with this value, confirmed or not. */
  predicate SitsUnder(t: Tables, msg: MsgId, root: Digest, confirmed: bool) {
    && msg in t.leaves && t.leaves[msg].rootId.Some? && t.leaves[msg].rootId.value in t.roots
    && t.roots[t.leaves[msg].rootId.value].merkleRoot == root
    && (confirmed <==> t.roots[t.leaves[msg].rootId.value].state.Confirmed?)
  }

  /** In every reachable world the visible messages under a confirmed root are
      exactly those reported as stored, those under another root come with its
      value, pending ones without, and invisible ones with nothing at all. */
  lemma StatusExact(
    k: Keccak, cfg: Config, run: seq<Action>, w: World, messages: map<MsgId, MessageRow>, msg: MsgId, user: UserId,
    root: Digest)
    requires After(k, cfg, run) == Some(w)
    ensures
      var s := GetMessageStatus(w.t, messages, msg, user);
      && (s == Nothing <==> !Visible(messages, msg, user))
      && (s == NotYet(None) <==>
            Visible(messages, msg, user) && (msg in w.t.leaves ==> w.t.leaves[msg].state.Pending?))
      && (s == NotYet(Some(root)) <==> Visible(messages, msg, user) && SitsUnder(w.t, msg, root, false))
      && (s.StoredOnBlockchain? && s.merkleRoot == root <==>
            Visible(messages, msg, user) && SitsUnder(w.t, msg, root, true))
  {
    RunKeepsInv(k, cfg, run);
    if msg in w.t.leaves {
      assert LeafOk(w.t, w.t.leaves[msg]);
    }
  }

  // ------------------------------------------------------ proof handler

  lemma {:induction false} IncreasingIsIdentity(f: seq<nat>, i: nat)
    requires forall a, b | 0 <= a < b < |f| :: f[a] < f[b]
    requires forall a | 0 <= a < |f| :: f[a] < |f|
    requires i < |f|
    ensures f[i] == i
  {
    AtLeast(f, i);
    AtMost(f, i);
  }

  lemma {:induction false} AtLeast(f: seq<nat>, i: nat)
    requires forall a, b | 0 <= a < b < |f| :: f[a] < f[b]
    requires i < |f|
    ensures f[i] >= i
  {
    if i > 0 {
      AtLeast(f, i - 1);
    }
  }

  lemma {:induction false} AtMost(f: seq<nat>, i: nat)
    requires forall a, b | 0 <= a < b < |f| :: f[a] < f[b]
    requires forall a | 0 <= a < |f| :: f[a] < |f|
    requires i < |f|
    ensures f[i] <= i
    decreases |f| - i
  {
    if i + 1 < |f| {
      AtMost(f, i + 1);
    }
  }

  lemma {:induction false} DistinctLength<T>(a: seq<T>, b: seq<T>)
    requires Distinct(a) && forall x | x in a :: x in b
    ensures |a| <= |b|
  {
    if a != [] {
      var x := a[0];
      assert x in a;
      var j :| 0 <= j < |b| && b[j] == x;
      var rest := b[..j] + b[j + 1..];
      forall y | y in a[1..]
        ensures y in rest
      {
        var i :| 0 < i < |a| && a[i] == y;
        assert y in b && y != x;
        var m :| 0 <= m < |b| && b[m] == y;
        assert y == if m < j then rest[m] else rest[m - 1];
      }
      DistinctLength(a[1..], rest);
    }
  }

  /** ORDER BY leaf_index has one possible answer: the list hashed at build time. */
  lemma OrderedAnswerIsUnique(t: Tables, r: RootId, rows: seq<MsgId>, ids: seq<MsgId>)
    requires AnswersLeaves(t, r, rows) && OrderedLeaves(t, r, ids)
    ensures rows == ids
  {
    DistinctLength(rows, ids);
    DistinctLength(ids, rows);
    forall i | 0 <= i < |rows|
      ensures t.leaves[rows[i]].leafIndex.Some? && t.leaves[rows[i]].leafIndex.value < |ids|
      ensures ids[t.leaves[rows[i]].leafIndex.value] == rows[i]
    {
      assert rows[i] in rows;
      assert rows[i] in ids;
    }
    var f: seq<nat> := seq(|rows|, i requires 0 <= i < |rows| => t.leaves[rows[i]].leafIndex.value);
    forall i, j | 0 <= i < j < |f|
      ensures f[i] < f[j]
    {
      assert ids[f[i]] == rows[i] && ids[f[j]] == rows[j];
    }
    forall i | 0 <= i < |rows|
      ensures rows[i] == ids[i]
    {
      IncreasingIsIdentity(f, i);
      assert ids[f[i]] == rows[i];
    }
  }

  /** The leaf belongs to a confirmed root with this value. */
  ghost predicate ConfirmedUnder(t: Tables, l: MsgId, leaf: Digest, root: Digest) {
    && l in t.leaves && t.leaves[l].hash == leaf
    && t.leaves[l].rootId.Some? && t.leaves[l].rootId.value in t.roots
    && t.roots[t.leaves[l].rootId.value].merkleRoot == root
    && t.roots[t.leaves[l].rootId.value].state.Confirmed?
  }

  lemma ListedIsConfirmed(k: Keccak, t: Tables, chain: Chain, r: RootId, leafRows: seq<MsgId>)
    requires TablesInv(k, t, chain) && r in t.roots && t.roots[r].state.Confirmed? && AnswersLeaves(t, r, leafRows)
    requires forall l | l in leafRows :: l in t.leaves
    ensures leafRows != [] && Root(k, Hashes(t, leafRows)) == t.roots[r].merkleRoot
    ensures forall i | 0 <= i < |leafRows| ::
      ConfirmedUnder(t, leafRows[i], Hashes(t, leafRows)[i], t.roots[r].merkleRoot)
  {
    var ids :| RootLeaves(k, t, r, ids);
    OrderedAnswerIsUnique(t, r, leafRows, ids);
    forall i | 0 <= i < |leafRows|
      ensures ConfirmedUnder(t, leafRows[i], Hashes(t, leafRows)[i], t.roots[r].merkleRoot)
    {
      assert leafRows[i] in leafRows && LeafOk(t, t.leaves[leafRows[i]]);
    }
  }

  lemma ConfirmedIsListed(t: Tables, leaf: Digest, root: Digest, rootRows: seq<RootId>, leafRows: seq<MsgId>, l: MsgId)
    requires UniqueRoots(t) && LeavesOk(t) && AnswersRoots(t, root, rootRows) && ConfirmedUnder(t, l, leaf, root)
    requires rootRows != [] ==> AnswersLeaves(t, rootRows[0], leafRows)
    requires forall l | l in leafRows :: l in t.leaves
    ensures rootRows != [] && leaf in Hashes(t, leafRows)
  {
    var r := t.leaves[l].rootId.value;
    assert LeafOk(t, t.leaves[l]);
    assert r in rootRows && rootRows[0] in rootRows;
    assert r == rootRows[0];
    assert l in leafRows;
    var i :| 0 <= i < |leafRows| && leafRows[i] == l;
    assert Hashes(t, leafRows)[i] == leaf;
  }

  /** Whatever rows the database answers with, proofHandler says verified for
      the leaves of confirmed roots and for nothing else, and its recomputed
      root never disagrees. */
  lemma ProofHandlerExact(
    k: Keccak, t: Tables, chain: Chain, leaf: Digest, root: Digest, rootRows: seq<RootId>, leafRows: seq<MsgId>)
    requires TablesInv(k, t, chain) && AnswersRoots(t, root, rootRows)
    requires forall l | l in leafRows :: l in t.leaves
    requires rootRows != [] ==> AnswersLeaves(t, rootRows[0], leafRows)
    ensures ProofHandler(k, t, leaf, root, rootRows, leafRows) == Verified(true)
      <==> exists l :: ConfirmedUnder(t, l, leaf, root)
    ensures ProofHandler(k, t, leaf, root, rootRows, leafRows) == RootNotConfirmed
      <==> forall r | r in t.roots && t.roots[r].state.Confirmed? :: t.roots[r].merkleRoot != root
    ensures ProofHandler(k, t, leaf, root, rootRows, leafRows) !in {NoLeaves, Verified(false)}
  {
    forall r | r in t.roots && t.roots[r].state.Confirmed? && t.roots[r].merkleRoot == root
      ensures r in rootRows
    {
    }
    if rootRows != [] {
      assert rootRows[0] in rootRows;
      ListedIsConfirmed(k, t, chain, rootRows[0], leafRows);
      var hashes := Hashes(t, leafRows);
      if leaf in hashes {
        var i :| 0 <= i < |hashes| && hashes[i] == leaf;
        assert ConfirmedUnder(t, leafRows[i], leaf, root);
      }
    }
    if l :| ConfirmedUnder(t, l, leaf, root) {
      ConfirmedIsListed(t, leaf, root, rootRows, leafRows, l);
    }
  }

  // -------------------------------------------------------- batch bounds

  /** A build gives the oldest pending leaves, between 1 and batchSize of them
      and none of them in a root already, to one new root. */
  lemma BuildTakesOldest(k: Keccak, cfg: Config, w: World, rootId: RootId, ids: seq<MsgId>, now: nat)
    requires Inv(k, cfg, w) && Enabled(k, cfg, w, Build(rootId, ids, now, Committed)) && ids != []
    ensures 1 <= |ids| <= cfg.batchSize
    ensures forall l | l in ids :: w.t.leaves[l].rootId == None
    ensures forall i, l | 0 <= i < |ids| && l in w.t.leaves && w.t.leaves[l].state.Pending? && l !in ids ::
      w.t.leaves[ids[i]].createdAt <= w.t.leaves[l].createdAt
    ensures RootLeaves(k, Apply(k, cfg, w, Build(rootId, ids, now, Committed)).t, rootId, ids)
  {
    forall l | l in ids
      ensures l in w.t.leaves && w.t.leaves[l].rootId == None
    {
      assert LeafOk(w.t, w.t.leaves[l]);
    }
    BuiltLeaves(k, w.t, rootId, ids, now);
    forall i, l | 0 <= i < |ids| && l in w.t.leaves && w.t.leaves[l].state.Pending? && l !in ids
      ensures w.t.leaves[ids[i]].createdAt <= w.t.leaves[l].createdAt
    {
      assert PendingAges(w.t)[ids[i]] <= PendingAges(w.t)[l];
    }
  }

  /** Within the contract's limit a broadcast group can only be refused for its
      sender or a zero root. */
  lemma GroupWithinContract(k: Keccak, cfg: Config, w: World)
    requires Inv(k, cfg, w) && w.pc.Marked? && cfg.maxRootsPerTx <= 100
    ensures Contract.Accepts(cfg.owner, cfg.signer, JobRoots(w.pc.jobs))
      <==> cfg.signer == cfg.owner && Contract.NoZeroRoot(JobRoots(w.pc.jobs))
  {
  }

  /** A successful receipt confirms every root of the group: the "event not
      found" branch is never taken. */
  lemma ReceiptConfirmsGroup(cfg: Config, w: World)
    requires ChainInv(w.chain) && PcInv(cfg, w) && w.pc.Confirming?
    ensures Evidenced(w.t, w.chain[w.pc.tx].status.logs, JobIds(w.pc.jobs)) == set r | r in JobIds(w.pc.jobs)
  {
    var jobs, logs := w.pc.jobs, w.chain[w.pc.tx].status.logs;
    forall r | r in JobIds(jobs)
      ensures r in w.t.roots && EventFor(logs, w.t.roots[r].merkleRoot).Some?
    {
      var i := JobOfId(jobs, r);
      assert JobOpen(w.t, jobs[i]);
      assert logs[i].merkleRoot == JobRoots(jobs)[i] == w.t.roots[r].merkleRoot;
    }
  }

  // ------------------------------------------------- the ambiguous commit

  lemma FirstRootConfirmed(cfg: Config, w: World, u: Tables)
    requires ChainInv(w.chain) && PcInv(cfg, w) && w.pc.Confirming?
    requires u == ConfirmFromReceipt(w.t, w.chain[w.pc.tx].status.logs, JobIds(w.pc.jobs))
    ensures w.pc.jobs != [] && w.pc.jobs[0].id in Evidenced(w.t, w.chain[w.pc.tx].status.logs, JobIds(w.pc.jobs))
    ensures var r := w.pc.jobs[0].id; r in u.roots && u.roots[r].state.Confirmed?
  {
    ReceiptConfirmsGroup(cfg, w);
    assert JobIds(w.pc.jobs)[0] in JobIds(w.pc.jobs) && JobOpen(w.t, w.pc.jobs[0]);
  }

  lemma ConfirmationTaken(k: Keccak, cfg: Config, w: World)
    requires ChainInv(w.chain) && PcInv(cfg, w) && Enabled(k, cfg, w, Confirm(CommittedButRaised))
    ensures
      var u := Apply(k, cfg, w, Confirm(CommittedButRaised));
      && w.pc.jobs != [] && u.pc == Recovering(w.pc.jobs)
      && w.pc.jobs[0].id in u.t.roots && u.t.roots[w.pc.jobs[0].id].state.Confirmed?
  {
    FirstRootConfirmed(cfg, w, Apply(k, cfg, w, Confirm(CommittedButRaised)).t);
  }

  /** Such a confirmation leads there: the next step of the error path takes an
      anchored root out of confirmed while its leaves stay confirmed. */
  lemma AmbiguousCommitUndone(k: Keccak, cfg: Config, w: World, u: World, v: World) returns (msg: MsgId)
    requires Inv(k, cfg, w) && Enabled(k, cfg, w, Confirm(CommittedButRaised))
    requires u == Apply(k, cfg, w, Confirm(CommittedButRaised))
    requires Enabled(k, cfg, u, RecoverOne(Committed)) && v == Apply(k, cfg, u, RecoverOne(Committed))
    ensures Overwrites(u, RecoverOne(Committed))
    ensures
      var r := w.pc.jobs[0].id;
      && r in u.t.roots && u.t.roots[r].state.Confirmed?
      && r in v.t.roots && v.t.roots[r].state in {Built, Failed}
      && msg in v.t.leaves && v.t.leaves[msg].rootId == Some(r) && v.t.leaves[msg].state.LeafConfirmed?
  {
    ConfirmationTaken(k, cfg, w);
    StepKeepsInv(k, cfg, w, Confirm(CommittedButRaised));
    msg := OverwriteUndoes(k, cfg, u, RecoverOne(Committed));
  }
}
