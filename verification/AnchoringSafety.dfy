/** What every run of the anchoring worker keeps, whatever crashes, failed
    statements, reverted or foreign transactions it contains. */
module AnchoringSafety {
  import opened Anchoring
  import opened MerkleCore
  import opened MerkleTables
  import opened Outcomes

  // -------------------------------------------------------------- invariant

  ghost predicate UniqueRoots(t: Tables) {
    forall r, s | r in t.roots && s in t.roots && r != s :: t.roots[r].merkleRoot != t.roots[s].merkleRoot
  }

  /** The transaction carries the root value, whether or not it was mined. */
  predicate Carries(chain: Chain, tx: TxHash, root: Digest) {
    tx in chain && root in chain[tx].roots
  }

  /** The stored transaction succeeded and emitted HashStored for the root with
      the stored time and log index. */
  predicate Anchored(chain: Chain, row: RootRow) {
    && row.txHash.Some? && row.blockTimestamp.Some? && row.logIndex.Some?
    && row.txHash.value in chain && chain[row.txHash.value].status.Succeeded?
    && EventLog(row.merkleRoot, row.blockTimestamp.value, row.logIndex.value) in chain[row.txHash.value].status.logs
  }

  predicate RowOk(chain: Chain, row: RootRow) {
    && (row.state.Built? ==> row.txHash.None?)
    && (row.txHash.Some? ==> Carries(chain, row.txHash.value, row.merkleRoot))
    && (row.state.Confirmed? ==> Anchored(chain, row))
  }

  ghost predicate RowsOk(t: Tables, chain: Chain) {
    forall r | r in t.roots :: RowOk(chain, t.roots[r])
  }

  /** A leaf is pending exactly while it has no root, and confirmed when its root is. */
  predicate LeafOk(t: Tables, leaf: LeafRow) {
    match leaf.rootId
    case None => leaf.state.Pending? && leaf.leafIndex.None?
    case Some(r) =>
      && r in t.roots && leaf.leafIndex.Some? && !leaf.state.Pending?
      && (t.roots[r].state.Confirmed? ==> leaf.state.LeafConfirmed?)
  }

  ghost predicate LeavesOk(t: Tables) {
    forall l | l in t.leaves :: LeafOk(t, t.leaves[l])
  }

  /** ids are the leaves of root r, indexed 0.. and hashing to its value. */
  ghost predicate RootLeaves(k: Keccak, t: Tables, r: RootId, ids: seq<MsgId>) {
    && r in t.roots && ids != [] && OrderedLeaves(t, r, ids)
    && Root(k, Hashes(t, ids)) == t.roots[r].merkleRoot
  }

  ghost predicate Placed(k: Keccak, t: Tables) {
    forall r | r in t.roots :: exists ids :: RootLeaves(k, t, r, ids)
  }

  ghost predicate TablesInv(k: Keccak, t: Tables, chain: Chain) {
    UniqueRoots(t) && RowsOk(t, chain) && LeavesOk(t) && Placed(k, t)
  }

  ghost predicate ChainInv(chain: Chain) {
    forall tx | tx in chain && chain[tx].status.Succeeded? :: LogsMatch(chain[tx].roots, chain[tx].status.logs)
  }

  /** The group the worker broadcasts still looks the way it left it. */
  ghost predicate JobsHeld(cfg: Config, t: Tables, jobs: seq<Job>, txHash: Option<TxHash>) {
    && 1 <= |jobs| <= cfg.maxRootsPerTx
    && forall i | 0 <= i < |jobs| ::
      && JobOpen(t, jobs[i])
      && t.roots[jobs[i].id].txHash == txHash
  }

  predicate JobOpen(t: Tables, job: Job) {
    && job.id in t.roots
    && t.roots[job.id].state == Broadcasting
    && t.roots[job.id].merkleRoot == job.merkleRoot
    && t.roots[job.id].attempts == job.attempts + 1
  }

  /** A job whose root is open, or was confirmed by a commit that raised. */
  predicate JobKnown(t: Tables, job: Job) {
    && job.id in t.roots
    && (t.roots[job.id].state == Broadcasting || t.roots[job.id].state == Confirmed)
    && t.roots[job.id].merkleRoot == job.merkleRoot
    && t.roots[job.id].attempts == job.attempts + 1
  }

  ghost predicate JobsDistinct(jobs: seq<Job>) {
    forall i, j | 0 <= i < j < |jobs| :: jobs[i].id != jobs[j].id
  }

  predicate NullTxOpen(t: Tables, r: RootId) {
    r in t.roots && t.roots[r].state == Broadcasting && t.roots[r].txHash.None?
  }

  predicate PendingOpen(t: Tables, p: PendingTx) {
    p.id in t.roots && t.roots[p.id].state == Broadcasting && t.roots[p.id].txHash == Some(p.tx)
  }

  ghost predicate PcInv(cfg: Config, w: World) {
    match w.pc
    case Stopped => true
    case ScanNullTx(ids) => Distinct(ids) && forall r | r in ids :: NullTxOpen(w.t, r)
    case NullTxSeen(id, found, ids) =>
      && Distinct(ids) && id !in ids && NullTxOpen(w.t, id) && (forall r | r in ids :: NullTxOpen(w.t, r))
      && (found.Some? ==>
            OnChain(cfg, w.chain, found.value) && found.value.event.merkleRoot == w.t.roots[id].merkleRoot)
    case ScanPendingTx(txs) =>
      && (forall i, j | 0 <= i < j < |txs| :: txs[i].id != txs[j].id)
      && (forall p | p in txs :: PendingOpen(w.t, p))
    case ReceiptSeen(p, txs) =>
      && (forall i, j | 0 <= i < j < |txs| :: txs[i].id != txs[j].id) && (forall q | q in txs :: q.id != p.id)
      && PendingOpen(w.t, p) && (forall q | q in txs :: PendingOpen(w.t, q))
      && p.tx in w.chain && !w.chain[p.tx].status.InFlight?
    case Idle => true
    case Building(limit) => limit <= cfg.batchSize
    case Marked(jobs) => JobsDistinct(jobs) && JobsHeld(cfg, w.t, jobs, None)
    case Sent(jobs, tx) =>
      JobsDistinct(jobs) && JobsHeld(cfg, w.t, jobs, None) && tx in w.chain && w.chain[tx].roots == JobRoots(jobs)
    case Waiting(jobs, tx) =>
      JobsDistinct(jobs) && JobsHeld(cfg, w.t, jobs, Some(tx)) && tx in w.chain && w.chain[tx].roots == JobRoots(jobs)
    case Confirming(jobs, tx) =>
      && JobsDistinct(jobs) && JobsHeld(cfg, w.t, jobs, Some(tx))
      && tx in w.chain && w.chain[tx].roots == JobRoots(jobs)
      && w.chain[tx].status.Succeeded?
    case Recovering(jobs) => JobsDistinct(jobs) && forall j | j in jobs :: JobKnown(w.t, j)
  }

  ghost predicate Inv(k: Keccak, cfg: Config, w: World) {
    ChainInv(w.chain) && TablesInv(k, w.t, w.chain) && PcInv(cfg, w)
  }

  // ----------------------------------------------------------------- frames

  ghost predicate ChainGrows(c: Chain, d: Chain) {
    forall tx | tx in c ::
      && tx in d && d[tx].roots == c[tx].roots
      && (!c[tx].status.InFlight? ==> d[tx].status == c[tx].status)
  }

  lemma GrownChainKeeps(k: Keccak, t: Tables, c: Chain, d: Chain)
    requires TablesInv(k, t, c) && ChainGrows(c, d)
    ensures TablesInv(k, t, d)
  {
    forall r | r in t.roots
      ensures RowOk(d, t.roots[r])
    {
      assert RowOk(c, t.roots[r]);
    }
  }

  /** Nothing that decides which leaf sits where has changed. */
  ghost predicate SamePlacement(t: Tables, u: Tables) {
    && u.roots.Keys == t.roots.Keys && u.leaves.Keys == t.leaves.Keys
    && (forall r | r in t.roots :: u.roots[r].merkleRoot == t.roots[r].merkleRoot)
    && (forall l | l in t.leaves ::
      && u.leaves[l].hash == t.leaves[l].hash && u.leaves[l].rootId == t.leaves[l].rootId
      && u.leaves[l].leafIndex == t.leaves[l].leafIndex)
  }

  lemma SameRootLeaves(k: Keccak, t: Tables, u: Tables, r: RootId, ids: seq<MsgId>)
    requires RootLeaves(k, t, r, ids) && r in u.roots && u.roots[r].merkleRoot == t.roots[r].merkleRoot
    requires forall l | l in u.leaves && u.leaves[l].rootId == Some(r) :: l in t.leaves && t.leaves[l].rootId == Some(r)
    requires forall l | l in t.leaves && t.leaves[l].rootId == Some(r) ::
      && l in u.leaves && u.leaves[l].rootId == Some(r)
      && u.leaves[l].hash == t.leaves[l].hash && u.leaves[l].leafIndex == t.leaves[l].leafIndex
    ensures RootLeaves(k, u, r, ids)
  {
    assert forall i | 0 <= i < |ids| :: ids[i] in ids;
    assert Hashes(u, ids) == Hashes(t, ids);
  }

  lemma PlacementKept(k: Keccak, t: Tables, u: Tables)
    requires UniqueRoots(t) && Placed(k, t) && SamePlacement(t, u)
    ensures UniqueRoots(u) && Placed(k, u)
  {
    forall r | r in u.roots
      ensures exists ids :: RootLeaves(k, u, r, ids)
    {
      var ids :| RootLeaves(k, t, r, ids);
      SameRootLeaves(k, t, u, r, ids);
    }
  }

  // ------------------------------------------------------- kinds of updates

  /** Roots outside ids are untouched; those in ids are left unconfirmed. */
  ghost predicate OpenUpdate(t: Tables, u: Tables, chain: Chain, ids: set<RootId>) {
    && u.leaves == t.leaves && u.roots.Keys == t.roots.Keys
    && forall r | r in t.roots ::
      if r in ids then
        && !u.roots[r].state.Confirmed?
        && u.roots[r].merkleRoot == t.roots[r].merkleRoot && RowOk(chain, u.roots[r])
      else u.roots[r] == t.roots[r]
  }

  lemma OpenUpdateKeeps(k: Keccak, t: Tables, u: Tables, chain: Chain, ids: set<RootId>)
    requires TablesInv(k, t, chain) && OpenUpdate(t, u, chain, ids)
    ensures TablesInv(k, u, chain)
  {
    PlacementKept(k, t, u);
    forall l | l in u.leaves
      ensures LeafOk(u, u.leaves[l])
    {
      assert LeafOk(t, t.leaves[l]);
    }
  }

  /** The roots in ids, open before, become anchored together with their leaves. */
  ghost predicate ConfirmUpdate(t: Tables, u: Tables, chain: Chain, ids: set<RootId>) {
    && u.leaves == ConfirmLeaves(t.leaves, ids) && u.roots.Keys == t.roots.Keys
    && forall r | r in t.roots ::
      if r in ids then
        && u.roots[r].state.Confirmed? && u.roots[r].merkleRoot == t.roots[r].merkleRoot && RowOk(chain, u.roots[r])
      else u.roots[r] == t.roots[r]
  }

  lemma ConfirmUpdateLeaves(t: Tables, u: Tables, chain: Chain, ids: set<RootId>)
    requires LeavesOk(t) && ConfirmUpdate(t, u, chain, ids)
    ensures LeavesOk(u)
  {
    forall l | l in u.leaves
      ensures LeafOk(u, u.leaves[l])
    {
      assert LeafOk(t, t.leaves[l]);
    }
  }

  lemma ConfirmUpdatePlaces(t: Tables, u: Tables, chain: Chain, ids: set<RootId>)
    requires ConfirmUpdate(t, u, chain, ids)
    ensures SamePlacement(t, u)
  {
  }

  lemma ConfirmUpdateRows(t: Tables, u: Tables, chain: Chain, ids: set<RootId>)
    requires RowsOk(t, chain) && ConfirmUpdate(t, u, chain, ids)
    ensures RowsOk(u, chain)
  {
  }

  lemma ConfirmUpdateKeeps(k: Keccak, t: Tables, u: Tables, chain: Chain, ids: set<RootId>)
    requires TablesInv(k, t, chain) && ConfirmUpdate(t, u, chain, ids)
    ensures TablesInv(k, u, chain)
  {
    ConfirmUpdateRows(t, u, chain, ids);
    ConfirmUpdateLeaves(t, u, chain, ids);
    ConfirmUpdatePlaces(t, u, chain, ids);
    PlacementKept(k, t, u);
  }

  lemma InsertLeafKeeps(k: Keccak, t: Tables, chain: Chain, msg: MsgId, hash: Digest, now: nat)
    requires TablesInv(k, t, chain) && msg !in t.leaves
    ensures TablesInv(k, InsertLeaf(t, msg, hash, now), chain)
  {
    var u := InsertLeaf(t, msg, hash, now);
    forall r | r in u.roots
      ensures exists ids :: RootLeaves(k, u, r, ids)
    {
      var ids :| RootLeaves(k, t, r, ids);
      SameRootLeaves(k, t, u, r, ids);
    }
    forall l | l in u.leaves
      ensures LeafOk(u, u.leaves[l])
    {
      assert l in t.leaves ==> LeafOk(t, t.leaves[l]);
    }
  }

  lemma PlaceOf(ids: seq<MsgId>, i: nat)
    requires Distinct(ids) && i < |ids|
    ensures PlaceIn(ids, ids[i]) == i
  {
    var p := PlaceIn(ids, ids[i]);
    assert ids[p] == ids[i];
  }

  /** The new root's leaves are the selected ones, indexed in selection order. */
  lemma BuiltLeaves(k: Keccak, t: Tables, rootId: RootId, ids: seq<MsgId>, now: nat)
    requires LeavesOk(t) && rootId !in t.roots
    requires ids != [] && Distinct(ids) && forall l | l in ids :: l in t.leaves
    ensures RootLeaves(k, BuildRoot(t, rootId, Root(k, Hashes(t, ids)), ids, now), rootId, ids)
  {
    var u := BuildRoot(t, rootId, Root(k, Hashes(t, ids)), ids, now);
    forall l
      ensures l in ids <==> l in u.leaves && u.leaves[l].rootId == Some(rootId)
    {
      assert l in t.leaves ==> LeafOk(t, t.leaves[l]);
    }
    forall i | 0 <= i < |ids|
      ensures u.leaves[ids[i]].leafIndex == Some(i)
    {
      PlaceOf(ids, i);
    }
    assert Hashes(u, ids) == Hashes(t, ids);
  }

  /** The statement that inserts a root gives its leaves to no one else. */
  lemma BuildPlaces(
    k: Keccak, t: Tables, chain: Chain, rootId: RootId, root: Digest, ids: seq<MsgId>, now: nat, r: RootId)
    requires TablesInv(k, t, chain) && rootId !in t.roots && r in t.roots
    requires forall l | l in ids :: l in t.leaves && t.leaves[l].state.Pending?
    ensures exists members :: RootLeaves(k, BuildRoot(t, rootId, root, ids, now), r, members)
  {
    var u := BuildRoot(t, rootId, root, ids, now);
    var members :| RootLeaves(k, t, r, members);
    forall l | l in ids
      ensures t.leaves[l].rootId == None
    {
      assert LeafOk(t, t.leaves[l]);
    }
    SameRootLeaves(k, t, u, r, members);
  }

  lemma BuildLeavesOk(t: Tables, rootId: RootId, root: Digest, ids: seq<MsgId>, now: nat)
    requires LeavesOk(t) && rootId !in t.roots
    ensures LeavesOk(BuildRoot(t, rootId, root, ids, now))
  {
    var u := BuildRoot(t, rootId, root, ids, now);
    forall l | l in u.leaves
      ensures LeafOk(u, u.leaves[l])
    {
      assert LeafOk(t, t.leaves[l]);
    }
  }

  lemma BuildKeeps(k: Keccak, t: Tables, chain: Chain, rootId: RootId, ids: seq<MsgId>, now: nat)
    requires TablesInv(k, t, chain) && rootId !in t.roots
    requires ids != [] && Distinct(ids) && forall l | l in ids :: l in t.leaves && t.leaves[l].state.Pending?
    requires RootFree(t, Root(k, Hashes(t, ids)))
    ensures TablesInv(k, BuildRoot(t, rootId, Root(k, Hashes(t, ids)), ids, now), chain)
  {
    var root := Root(k, Hashes(t, ids));
    var u := BuildRoot(t, rootId, root, ids, now);
    BuiltLeaves(k, t, rootId, ids, now);
    BuildLeavesOk(t, rootId, root, ids, now);
    forall r | r in u.roots
      ensures RowOk(chain, u.roots[r]) && exists members :: RootLeaves(k, u, r, members)
    {
      if r != rootId {
        assert u.roots[r] == t.roots[r] && RowOk(chain, t.roots[r]);
        BuildPlaces(k, t, chain, rootId, root, ids, now, r);
      }
    }
  }

  /** A log of a successful transaction names one of its roots. */
  lemma LogCarried(chain: Chain, tx: TxHash, ev: EventLog)
    requires ChainInv(chain) && tx in chain && chain[tx].status.Succeeded? && ev in chain[tx].status.logs
    ensures Carries(chain, tx, ev.merkleRoot)
  {
    var logs := chain[tx].status.logs;
    var i :| 0 <= i < |logs| && logs[i] == ev;
    assert chain[tx].roots[i] == ev.merkleRoot;
  }

  lemma ReceiptKeeps(k: Keccak, t: Tables, chain: Chain, tx: TxHash, ids: seq<RootId>)
    requires ChainInv(chain) && TablesInv(k, t, chain)
    requires tx in chain && chain[tx].status.Succeeded?
    requires forall r | r in ids :: r in t.roots && t.roots[r].txHash == Some(tx)
    ensures TablesInv(k, ConfirmFromReceipt(t, chain[tx].status.logs, ids), chain)
  {
    var logs := chain[tx].status.logs;
    var done, u := Evidenced(t, logs, ids), ConfirmFromReceipt(t, logs, ids);
    forall r | r in done
      ensures RowOk(chain, u.roots[r])
    {
      var ev := EventFor(logs, t.roots[r].merkleRoot).value;
      LogCarried(chain, tx, ev);
      assert ev == EventLog(u.roots[r].merkleRoot, ev.timestamp, ev.index);
    }
    ConfirmUpdateKeeps(k, t, u, chain, done);
  }

  lemma FoundLogUpdate(cfg: Config, t: Tables, chain: Chain, id: RootId, f: Found)
    requires ChainInv(chain) && id in t.roots
    requires OnChain(cfg, chain, f) && f.event.merkleRoot == t.roots[id].merkleRoot
    ensures ConfirmUpdate(t, ConfirmFromLog(t, id, f.tx, f.event), chain, {id})
  {
    var u := ConfirmFromLog(t, id, f.tx, f.event);
    LogCarried(chain, f.tx, f.event);
    assert f.event == EventLog(u.roots[id].merkleRoot, f.event.timestamp, f.event.index);
  }

  lemma FoundLogKeeps(k: Keccak, cfg: Config, t: Tables, chain: Chain, id: RootId, f: Found)
    requires ChainInv(chain) && TablesInv(k, t, chain) && id in t.roots
    requires OnChain(cfg, chain, f) && f.event.merkleRoot == t.roots[id].merkleRoot
    ensures TablesInv(k, ConfirmFromLog(t, id, f.tx, f.event), chain)
  {
    FoundLogUpdate(cfg, t, chain, id, f);
    ConfirmUpdateKeeps(k, t, ConfirmFromLog(t, id, f.tx, f.event), chain, {id});
  }

  // ------------------------------------------------------------------ steps

  lemma StepChain(k: Keccak, cfg: Config, w: World, a: Action)
    requires ChainInv(w.chain) && Enabled(k, cfg, w, a)
    ensures ChainInv(Apply(k, cfg, w, a).chain) && ChainGrows(w.chain, Apply(k, cfg, w, a).chain)
  {
  }

  lemma MarkKeeps(k: Keccak, t: Tables, chain: Chain, ids: seq<RootId>)
    requires TablesInv(k, t, chain) && forall r | r in ids :: r in t.roots && t.roots[r].state.Built?
    ensures TablesInv(k, Mark(t, ids), chain)
  {
    var done := set r | r in ids;
    forall r | r in t.roots
      ensures RowOk(chain, t.roots[r])
    {
    }
    OpenUpdateKeeps(k, t, Mark(t, ids), chain, done);
  }

  lemma SetTxHashKeeps(k: Keccak, t: Tables, chain: Chain, ids: seq<RootId>, tx: TxHash)
    requires TablesInv(k, t, chain)
    requires forall r | r in ids ::
      r in t.roots && t.roots[r].state.Broadcasting? && Carries(chain, tx, t.roots[r].merkleRoot)
    ensures TablesInv(k, SetTxHash(t, ids, tx), chain)
  {
    SetTxHashIsOpen(t, chain, ids, tx, set r | r in ids);
    OpenUpdateKeeps(k, t, SetTxHash(t, ids, tx), chain, set r | r in ids);
  }

  lemma SetTxHashIsOpen(t: Tables, chain: Chain, ids: seq<RootId>, tx: TxHash, done: set<RootId>)
    requires done == set r | r in ids
    requires forall r | r in ids ::
      r in t.roots && t.roots[r].state.Broadcasting? && Carries(chain, tx, t.roots[r].merkleRoot)
    ensures OpenUpdate(t, SetTxHash(t, ids, tx), chain, done)
  {
  }

  lemma ReleaseIsOpen(t: Tables, u: Tables, chain: Chain, id: RootId)
    requires id in t.roots && RowOk(chain, t.roots[id])
    requires || u == ReturnToBuilt(t, id) || u == FailRoot(t, id)
             || (u == ReopenRoot(t, id) && t.roots[id].txHash.None?)
    ensures OpenUpdate(t, u, chain, {id})
  {
  }

  /** Reopening, returning or failing a root. */
  lemma ReleaseKeeps(k: Keccak, t: Tables, u: Tables, chain: Chain, id: RootId)
    requires TablesInv(k, t, chain) && id in t.roots
    requires || u == ReturnToBuilt(t, id) || u == FailRoot(t, id)
             || (u == ReopenRoot(t, id) && t.roots[id].txHash.None?)
    ensures TablesInv(k, u, chain)
  {
    ReleaseIsOpen(t, u, chain, id);
    OpenUpdateKeeps(k, t, u, chain, {id});
  }

  lemma SettledNullTxKeeps(k: Keccak, cfg: Config, t: Tables, chain: Chain, id: RootId, found: Option<Found>)
    requires ChainInv(chain) && TablesInv(k, t, chain) && NullTxOpen(t, id)
    requires found.Some? ==> OnChain(cfg, chain, found.value) && found.value.event.merkleRoot == t.roots[id].merkleRoot
    ensures TablesInv(k, SettledNullTx(t, id, found), chain)
  {
    match found {
      case Some(f) => FoundLogKeeps(k, cfg, t, chain, id, f);
      case None => ReleaseKeeps(k, t, ReopenRoot(t, id), chain, id);
    }
  }

  lemma SettledPendingKeeps(k: Keccak, t: Tables, chain: Chain, p: PendingTx)
    requires ChainInv(chain) && TablesInv(k, t, chain) && PendingOpen(t, p) && p.tx in chain
    ensures TablesInv(k, SettledPending(t, chain, p), chain)
  {
    if chain[p.tx].status.Succeeded? {
      ReceiptKeeps(k, t, chain, p.tx, [p.id]);
    } else {
      ReleaseKeeps(k, t, ReturnToBuilt(t, p.id), chain, p.id);
    }
  }

  lemma JobOfId(jobs: seq<Job>, id: RootId) returns (i: nat)
    requires id in JobIds(jobs)
    ensures i < |jobs| && jobs[i].id == id
  {
    i :| 0 <= i < |jobs| && JobIds(jobs)[i] == id;
  }

  lemma PersistKeeps(k: Keccak, cfg: Config, t: Tables, chain: Chain, jobs: seq<Job>, tx: TxHash)
    requires TablesInv(k, t, chain) && JobsHeld(cfg, t, jobs, None)
    requires tx in chain && chain[tx].roots == JobRoots(jobs)
    ensures TablesInv(k, SetTxHash(t, JobIds(jobs), tx), chain)
  {
    forall r | r in JobIds(jobs)
      ensures r in t.roots && t.roots[r].state.Broadcasting? && Carries(chain, tx, t.roots[r].merkleRoot)
    {
      var i := JobOfId(jobs, r);
      assert JobOpen(t, jobs[i]) && JobRoots(jobs)[i] == t.roots[r].merkleRoot;
    }
    SetTxHashKeeps(k, t, chain, JobIds(jobs), tx);
  }

  lemma ConfirmKeeps(k: Keccak, cfg: Config, t: Tables, chain: Chain, jobs: seq<Job>, tx: TxHash)
    requires ChainInv(chain) && TablesInv(k, t, chain) && JobsHeld(cfg, t, jobs, Some(tx))
    requires tx in chain && chain[tx].status.Succeeded?
    ensures TablesInv(k, ConfirmFromReceipt(t, chain[tx].status.logs, JobIds(jobs)), chain)
  {
    forall r | r in JobIds(jobs)
      ensures r in t.roots && t.roots[r].txHash == Some(tx)
    {
      var i := JobOfId(jobs, r);
      assert JobOpen(t, jobs[i]);
    }
    ReceiptKeeps(k, t, chain, tx, JobIds(jobs));
  }

  lemma BatchKeeps(k: Keccak, t: Tables, chain: Chain, rootId: RootId, ids: seq<MsgId>, now: nat, limit: int)
    requires TablesInv(k, t, chain) && rootId !in t.roots && ids != []
    requires OldestFirst(PendingAges(t), limit, ids) && RootFree(t, BatchRoot(k, t, ids))
    ensures TablesInv(k, BuildRoot(t, rootId, BatchRoot(k, t, ids), ids, now), chain)
  {
    BuildKeeps(k, t, chain, rootId, ids, now);
  }

  lemma SettleNullTxTables(k: Keccak, cfg: Config, w: World, o: Outcome)
    requires ChainInv(w.chain) && TablesInv(k, w.t, w.chain) && PcInv(cfg, w)
    requires Enabled(k, cfg, w, SettleNullTx(o))
    ensures TablesInv(k, Apply(k, cfg, w, SettleNullTx(o)).t, w.chain)
  {
    SettledNullTxKeeps(k, cfg, w.t, w.chain, w.pc.id, w.pc.found);
  }

  lemma SettlePendingTables(k: Keccak, cfg: Config, w: World, o: Outcome)
    requires ChainInv(w.chain) && TablesInv(k, w.t, w.chain) && PcInv(cfg, w)
    requires Enabled(k, cfg, w, SettlePending(o))
    ensures TablesInv(k, Apply(k, cfg, w, SettlePending(o)).t, w.chain)
  {
    SettledPendingKeeps(k, w.t, w.chain, w.pc.pending);
  }

  lemma RecoverKeeps(k: Keccak, cfg: Config, t: Tables, chain: Chain, job: Job)
    requires TablesInv(k, t, chain) && JobKnown(t, job)
    ensures TablesInv(k, Recovered(cfg, t, job), chain)
  {
    ReleaseKeeps(k, t, Recovered(cfg, t, job), chain, job.id);
  }

  lemma PersistTables(k: Keccak, cfg: Config, w: World, o: Outcome)
    requires TablesInv(k, w.t, w.chain) && PcInv(cfg, w) && Enabled(k, cfg, w, PersistHash(o))
    ensures TablesInv(k, Apply(k, cfg, w, PersistHash(o)).t, w.chain)
  {
    PersistKeeps(k, cfg, w.t, w.chain, w.pc.jobs, w.pc.tx);
  }

  lemma ConfirmTables(k: Keccak, cfg: Config, w: World, o: Outcome)
    requires ChainInv(w.chain) && TablesInv(k, w.t, w.chain) && PcInv(cfg, w) && Enabled(k, cfg, w, Confirm(o))
    ensures TablesInv(k, Apply(k, cfg, w, Confirm(o)).t, w.chain)
  {
    ConfirmKeeps(k, cfg, w.t, w.chain, w.pc.jobs, w.pc.tx);
  }

  lemma RecoverTables(k: Keccak, cfg: Config, w: World, o: Outcome)
    requires TablesInv(k, w.t, w.chain) && PcInv(cfg, w) && Enabled(k, cfg, w, RecoverOne(o))
    ensures TablesInv(k, Apply(k, cfg, w, RecoverOne(o)).t, w.chain)
  {
    RecoverKeeps(k, cfg, w.t, w.chain, w.pc.jobs[0]);
  }

  lemma GrowTables(k: Keccak, cfg: Config, w: World, a: Action)
    requires TablesInv(k, w.t, w.chain) && Enabled(k, cfg, w, a) && (a.AddMessage? || a.Build? || a.MarkGroup?)
    ensures TablesInv(k, Apply(k, cfg, w, a).t, w.chain)
  {
    if a.AddMessage? {
      InsertLeafKeeps(k, w.t, w.chain, a.msg, a.hash, a.now);
    } else if a.MarkGroup? {
      MarkKeeps(k, w.t, w.chain, a.ids);
    } else if a.ids != [] && !a.outcome.RolledBack? {
      BatchKeeps(k, w.t, w.chain, a.rootId, a.ids, a.now, w.pc.limit);
    }
  }

  lemma StepTables(k: Keccak, cfg: Config, w: World, a: Action)
    requires ChainInv(w.chain) && TablesInv(k, w.t, w.chain) && PcInv(cfg, w) && Enabled(k, cfg, w, a)
    ensures TablesInv(k, Apply(k, cfg, w, a).t, w.chain)
  {
    if a.AddMessage? || a.Build? || a.MarkGroup? {
      GrowTables(k, cfg, w, a);
    } else if a.SettleNullTx? {
      SettleNullTxTables(k, cfg, w, a.outcome);
    } else if a.SettlePending? {
      SettlePendingTables(k, cfg, w, a.outcome);
    } else if a.PersistHash? {
      PersistTables(k, cfg, w, a.outcome);
    } else if a.Confirm? {
      ConfirmTables(k, cfg, w, a.outcome);
    } else if a.RecoverOne? {
      RecoverTables(k, cfg, w, a.outcome);
    }
  }

  /** Growth of the chain and changes to leaves do not disturb the worker. */
  lemma PcStable(cfg: Config, w: World, v: World)
    requires PcInv(cfg, w) && v.pc == w.pc && v.t.roots == w.t.roots && ChainGrows(w.chain, v.chain)
    ensures PcInv(cfg, v)
  {
  }

  lemma SettledNullTxPc(cfg: Config, w: World, u: Tables)
    requires PcInv(cfg, w) && w.pc.NullTxSeen?
    requires u == w.t || u == SettledNullTx(w.t, w.pc.id, w.pc.found)
    ensures PcInv(cfg, World(u, w.chain, ScanNullTx(w.pc.ids)))
  {
    forall r | r in w.pc.ids
      ensures NullTxOpen(u, r)
    {
      assert r != w.pc.id && NullTxOpen(w.t, r);
    }
  }

  lemma SettledPendingPc(cfg: Config, w: World, u: Tables)
    requires PcInv(cfg, w) && w.pc.ReceiptSeen?
    requires u == w.t || u == SettledPending(w.t, w.chain, w.pc.pending)
    ensures PcInv(cfg, World(u, w.chain, ScanPendingTx(w.pc.txs)))
  {
    forall q | q in w.pc.txs
      ensures PendingOpen(u, q)
    {
      assert q.id != w.pc.pending.id && PendingOpen(w.t, q);
    }
  }

  lemma MarkedPc(cfg: Config, t: Tables, chain: Chain, ids: seq<RootId>)
    requires RowsOk(t, chain) && ids != [] && |ids| <= cfg.maxRootsPerTx && Distinct(ids)
    requires forall r | r in ids :: r in t.roots && t.roots[r].state.Built?
    ensures PcInv(cfg, World(Mark(t, ids), chain, Marked(Jobs(t, ids))))
  {
    var u, jobs := Mark(t, ids), Jobs(t, ids);
    forall i | 0 <= i < |jobs|
      ensures JobOpen(u, jobs[i]) && u.roots[jobs[i].id].txHash == None
    {
      assert ids[i] in ids && RowOk(chain, t.roots[ids[i]]);
    }
  }

  lemma PersistedJobs(cfg: Config, t: Tables, jobs: seq<Job>, tx: TxHash)
    requires JobsHeld(cfg, t, jobs, None)
    ensures JobsHeld(cfg, SetTxHash(t, JobIds(jobs), tx), jobs, Some(tx))
  {
    var u := SetTxHash(t, JobIds(jobs), tx);
    forall i | 0 <= i < |jobs|
      ensures JobOpen(u, jobs[i]) && u.roots[jobs[i].id].txHash == Some(tx)
    {
      assert JobIds(jobs)[i] in JobIds(jobs) && JobOpen(t, jobs[i]);
    }
  }

  lemma HeldJobsOpen(cfg: Config, t: Tables, jobs: seq<Job>, tx: Option<TxHash>)
    requires JobsHeld(cfg, t, jobs, tx)
    ensures forall j | j in jobs :: JobOpen(t, j) && JobKnown(t, j)
  {
  }

  lemma RecoveredPc(cfg: Config, w: World)
    requires PcInv(cfg, w) && w.pc.Recovering? && w.pc.jobs != []
    ensures PcInv(cfg, World(Recovered(cfg, w.t, w.pc.jobs[0]), w.chain, Recovering(w.pc.jobs[1..])))
  {
    var jobs := w.pc.jobs;
    forall j | j in jobs[1..]
      ensures JobKnown(Recovered(cfg, w.t, jobs[0]), j)
    {
      var i :| 0 < i < |jobs| && jobs[i] == j;
      assert j.id != jobs[0].id && JobKnown(w.t, j);
    }
  }

  lemma PersistedPc(cfg: Config, w: World, o: Outcome)
    requires PcInv(cfg, w) && w.pc.Sent?
    ensures
      var u := Under(o, w.t, SetTxHash(w.t, JobIds(w.pc.jobs), w.pc.tx));
      PcInv(cfg, World(u, w.chain, if o.Committed? then Waiting(w.pc.jobs, w.pc.tx) else Recovering(w.pc.jobs)))
  {
    var u := SetTxHash(w.t, JobIds(w.pc.jobs), w.pc.tx);
    PersistedJobs(cfg, w.t, w.pc.jobs, w.pc.tx);
    HeldJobsOpen(cfg, if o.RolledBack? then w.t else u, w.pc.jobs, if o.RolledBack? then None else Some(w.pc.tx));
  }

  lemma GivenUpPc(cfg: Config, w: World)
    requires PcInv(cfg, w) && (w.pc.Marked? || w.pc.Waiting? || w.pc.Confirming?)
    ensures PcInv(cfg, w.(pc := Recovering(w.pc.jobs)))
  {
    HeldJobsOpen(cfg, w.t, w.pc.jobs, if w.pc.Marked? then None else Some(w.pc.tx));
  }

  lemma GiveUpPc(k: Keccak, cfg: Config, w: World, a: Action)
    requires PcInv(cfg, w) && Enabled(k, cfg, w, a)
    requires a.SendFailed? || a.WaitFailed? || (a.Confirm? && a.outcome.RolledBack?)
    ensures PcInv(cfg, Apply(k, cfg, w, a))
  {
    GivenUpPc(cfg, w);
  }

  lemma PersistPc(k: Keccak, cfg: Config, w: World, o: Outcome)
    requires PcInv(cfg, w) && Enabled(k, cfg, w, PersistHash(o))
    ensures PcInv(cfg, Apply(k, cfg, w, PersistHash(o)))
  {
    PersistedPc(cfg, w, o);
  }

  lemma RecoverPc(k: Keccak, cfg: Config, w: World, o: Outcome)
    requires PcInv(cfg, w) && Enabled(k, cfg, w, RecoverOne(o))
    ensures PcInv(cfg, Apply(k, cfg, w, RecoverOne(o)))
  {
    RecoveredPc(cfg, w);
  }

  lemma SentPc(k: Keccak, cfg: Config, w: World, a: Action)
    requires PcInv(cfg, w) && Enabled(k, cfg, w, a) && a.Send?
    ensures PcInv(cfg, Apply(k, cfg, w, a))
  {
    HeldJobsOpen(cfg, w.t, w.pc.jobs, None);
  }

  /** A confirmation leaves each root of its group open or confirmed. */
  lemma ConfirmedJobsKnown(cfg: Config, t: Tables, jobs: seq<Job>, tx: Option<TxHash>, logs: seq<EventLog>)
    requires JobsHeld(cfg, t, jobs, tx)
    ensures forall j | j in jobs :: JobKnown(ConfirmFromReceipt(t, logs, JobIds(jobs)), j)
  {
    HeldJobsOpen(cfg, t, jobs, tx);
  }

  lemma RaisedConfirmPc(k: Keccak, cfg: Config, w: World)
    requires PcInv(cfg, w) && Enabled(k, cfg, w, Confirm(CommittedButRaised))
    ensures PcInv(cfg, Apply(k, cfg, w, Confirm(CommittedButRaised)))
  {
    ConfirmedJobsKnown(cfg, w.t, w.pc.jobs, Some(w.pc.tx), w.chain[w.pc.tx].status.logs);
  }

  lemma NullTxWalkPc(k: Keccak, cfg: Config, w: World, a: Action)
    requires PcInv(cfg, w) && Enabled(k, cfg, w, a) && (a.Start? || a.ScanLogs? || a.SkipNullTx?)
    ensures PcInv(cfg, Apply(k, cfg, w, a))
  {
  }

  lemma PendingWalkPc(k: Keccak, cfg: Config, w: World, a: Action)
    requires PcInv(cfg, w) && Enabled(k, cfg, w, a) && (a.ListPending? || a.FetchReceipt? || a.SkipPending?)
    ensures PcInv(cfg, Apply(k, cfg, w, a))
  {
  }

  lemma QuietPc(k: Keccak, cfg: Config, w: World, a: Action)
    requires PcInv(cfg, w) && Enabled(k, cfg, w, a)
    requires || a.Crash? || a.AbandonReconcile? || a.Ready? || a.CheckPending? || a.Build?
             || a.SeeReceipt? || (a.Confirm? && a.outcome.Committed?) || a.RecoverDone?
    ensures PcInv(cfg, Apply(k, cfg, w, a))
  {
  }

  lemma TablePc(k: Keccak, cfg: Config, w: World, a: Action)
    requires ChainInv(w.chain) && RowsOk(w.t, w.chain) && PcInv(cfg, w) && Enabled(k, cfg, w, a)
    requires a.AddMessage? || a.OtherSend? || a.Mine? || a.SettleNullTx? || a.SettlePending? || a.MarkGroup?
    ensures PcInv(cfg, Apply(k, cfg, w, a))
  {
    var v := Apply(k, cfg, w, a);
    if a.SettleNullTx? {
      SettledNullTxPc(cfg, w, v.t);
    } else if a.SettlePending? {
      SettledPendingPc(cfg, w, v.t);
    } else if a.MarkGroup? {
      MarkedPc(cfg, w.t, w.chain, a.ids);
    } else {
      StepChain(k, cfg, w, a);
      PcStable(cfg, w, v);
    }
  }

  lemma StepPc(k: Keccak, cfg: Config, w: World, a: Action)
    requires ChainInv(w.chain) && RowsOk(w.t, w.chain) && PcInv(cfg, w) && Enabled(k, cfg, w, a)
    ensures PcInv(cfg, Apply(k, cfg, w, a))
  {
    if a.AddMessage? || a.OtherSend? || a.Mine? || a.SettleNullTx? || a.SettlePending? || a.MarkGroup? {
      TablePc(k, cfg, w, a);
    } else if a.Start? || a.ScanLogs? || a.SkipNullTx? {
      NullTxWalkPc(k, cfg, w, a);
    } else if a.ListPending? || a.FetchReceipt? || a.SkipPending? {
      PendingWalkPc(k, cfg, w, a);
    } else if a.Send? {
      SentPc(k, cfg, w, a);
    } else if a.SendFailed? || a.WaitFailed? || (a.Confirm? && a.outcome.RolledBack?) {
      GiveUpPc(k, cfg, w, a);
    } else if a.PersistHash? {
      PersistPc(k, cfg, w, a.outcome);
    } else if a.RecoverOne? {
      RecoverPc(k, cfg, w, a.outcome);
    } else if a.Confirm? && a.outcome.CommittedButRaised? {
      RaisedConfirmPc(k, cfg, w);
    } else {
      QuietPc(k, cfg, w, a);
    }
  }

  // --------------------------------------------------------------- theorems

  lemma StepKeepsInv(k: Keccak, cfg: Config, w: World, a: Action)
    requires Inv(k, cfg, w) && Enabled(k, cfg, w, a)
    ensures Inv(k, cfg, Apply(k, cfg, w, a))
  {
    var v := Apply(k, cfg, w, a);
    StepChain(k, cfg, w, a);
    StepTables(k, cfg, w, a);
    GrownChainKeeps(k, v.t, w.chain, v.chain);
    StepPc(k, cfg, w, a);
  }

  /** Every reachable world satisfies the invariant. */
  lemma {:induction false} RunKeepsInv(k: Keccak, cfg: Config, run: seq<Action>)
    requires After(k, cfg, run).Some?
    ensures Inv(k, cfg, After(k, cfg, run).value)
  {
    if run != [] {
      var prefix := run[..|run| - 1];
      RunKeepsInv(k, cfg, prefix);
      StepKeepsInv(k, cfg, After(k, cfg, prefix).value, run[|run| - 1]);
    }
  }
}
