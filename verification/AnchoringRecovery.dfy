/** What confirmation and crash recovery achieve, row by row: which roots end
    confirmed, with which event, and what happens to their leaves. */
module AnchoringRecovery {
  import opened Anchoring
  import opened AnchoringSafety
  import opened MerkleCore
  import opened MerkleTables
  import opened Outcomes
  import opened Publisher

  // --------------------------------------------------------- rows and leaves

  /** Position i holds the last log for this root value. */
  predicate LastFor(logs: seq<EventLog>, root: Digest, i: nat) {
    && i < |logs| && logs[i].merkleRoot == root
    && forall j | i < j < |logs| :: logs[j].merkleRoot != root
  }

  predicate NoneFor(logs: seq<EventLog>, root: Digest) {
    forall j | 0 <= j < |logs| :: logs[j].merkleRoot != root
  }

  lemma {:induction false} LastEvent(logs: seq<EventLog>, root: Digest, i: nat)
    requires LastFor(logs, root, i)
    ensures EventFor(logs, root) == Some(logs[i])
  {
    if i < |logs| - 1 {
      LastEvent(logs[..|logs| - 1], root, i);
    }
  }

  /** The root's row and its leaves are as before. */
  ghost predicate Untouched(t: Tables, u: Tables, r: RootId) {
    && r in t.roots && r in u.roots && u.roots[r] == t.roots[r]
    && forall l | l in t.leaves && t.leaves[l].rootId == Some(r) :: l in u.leaves && u.leaves[l] == t.leaves[l]
  }

  /** The root is confirmed by this event under the given transaction, and so
      are all its leaves. */
  ghost predicate ConfirmedBy(t: Tables, u: Tables, r: RootId, tx: Option<TxHash>, timestamp: nat, index: nat) {
    && r in t.roots && r in u.roots
    && u.roots[r] == RootRow(t.roots[r].merkleRoot, Confirmed, tx, t.roots[r].attempts, t.roots[r].createdAt,
                             Some(timestamp), Some(index))
    && forall l | l in t.leaves && t.leaves[l].rootId == Some(r) ::
      && l in u.leaves
      && u.leaves[l] ==
         LeafRow(t.leaves[l].hash, Some(r), t.leaves[l].leafIndex, LeafConfirmed, t.leaves[l].createdAt)
  }

  /** The root waits for a broadcast, under the given hash; its leaves are as before. */
  ghost predicate BackToBuilt(t: Tables, u: Tables, r: RootId, tx: Option<TxHash>) {
    && r in t.roots && r in u.roots
    && u.roots[r] == RootRow(t.roots[r].merkleRoot, Built, tx, t.roots[r].attempts, t.roots[r].createdAt,
                             t.roots[r].blockTimestamp, t.roots[r].logIndex)
    && forall l | l in t.leaves && t.leaves[l].rootId == Some(r) :: l in u.leaves && u.leaves[l] == t.leaves[l]
  }

  ghost predicate SameKeys(t: Tables, u: Tables) {
    u.roots.Keys == t.roots.Keys && u.leaves.Keys == t.leaves.Keys
  }

  /** What a receipt does to one root of the list: the last event for its
      value decides, and without one nothing happens. */
  ghost predicate ReceiptDecides(t: Tables, u: Tables, logs: seq<EventLog>, r: RootId) {
    && r in t.roots
    && (forall i: nat | LastFor(logs, t.roots[r].merkleRoot, i) ::
         ConfirmedBy(t, u, r, t.roots[r].txHash, logs[i].timestamp, logs[i].index))
    && (NoneFor(logs, t.roots[r].merkleRoot) ==> Untouched(t, u, r))
  }

  /** A receipt decides about every listed root and about no other. */
  lemma ReceiptEffect(t: Tables, logs: seq<EventLog>, ids: seq<RootId>, r: RootId)
    requires r in t.roots
    ensures
      var u := ConfirmFromReceipt(t, logs, ids);
      SameKeys(t, u) && if r in ids then ReceiptDecides(t, u, logs, r) else Untouched(t, u, r)
  {
    forall i: nat | LastFor(logs, t.roots[r].merkleRoot, i)
      ensures EventFor(logs, t.roots[r].merkleRoot) == Some(logs[i])
    {
      LastEvent(logs, t.roots[r].merkleRoot, i);
    }
  }

  // ------------------------------------------------------- reconcile's loops

  /** What the second loop of reconcile does to the root of one listed row. */
  ghost predicate PendingSettled(t: Tables, u: Tables, status: TxStatus, r: RootId) {
    match status
    case InFlight => Untouched(t, u, r)
    case Reverted => BackToBuilt(t, u, r, None)
    case Succeeded(_, logs) => ReceiptDecides(t, u, logs, r)
  }

  lemma SettledPendingEffect(t: Tables, chain: Chain, p: PendingTx, r: RootId)
    requires p.tx in chain && !chain[p.tx].status.InFlight? && r in t.roots
    ensures SameKeys(t, SettledPending(t, chain, p))
    ensures r != p.id ==> Untouched(t, SettledPending(t, chain, p), r)
    ensures r == p.id ==> PendingSettled(t, SettledPending(t, chain, p), chain[p.tx].status, r)
  {
    if chain[p.tx].status.Succeeded? {
      ReceiptEffect(t, chain[p.tx].status.logs, [p.id], r);
    }
  }

  /** The second loop touches exactly the roots whose receipt was fetched and
      whose statement took effect: the root's own receipt decides. */
  ghost predicate PendingsSettled(
    t: Tables, u: Tables, chain: Chain, fetched: set<TxHash>, outcomes: RootId -> Outcome, txs: seq<PendingTx>,
    r: RootId)
  {
    && ((forall p | p in txs :: p.id != r) ==> Untouched(t, u, r))
    && forall p | p in txs && p.id == r ::
      if p.tx in fetched && p.tx in chain && !outcomes(r).RolledBack?
      then PendingSettled(t, u, chain[p.tx].status, r)
      else Untouched(t, u, r)
  }

  /** Leaves never change the root they belong to. */
  ghost predicate SameOwners(t: Tables, u: Tables) {
    SameKeys(t, u) && forall l | l in t.leaves :: u.leaves[l].rootId == t.leaves[l].rootId
  }

  lemma UntouchedThen(t: Tables, u: Tables, v: Tables, status: TxStatus, r: RootId)
    requires Untouched(t, u, r) && SameOwners(t, u)
    ensures Untouched(u, v, r) ==> Untouched(t, v, r)
    ensures PendingSettled(u, v, status, r) ==> PendingSettled(t, v, status, r)
  {
  }

  lemma UntouchedLater(t: Tables, u: Tables, v: Tables, status: TxStatus, r: RootId)
    requires Untouched(u, v, r) && SameOwners(t, u)
    ensures Untouched(t, u, r) ==> Untouched(t, v, r)
    ensures PendingSettled(t, u, status, r) ==> PendingSettled(t, v, status, r)
  {
  }

  lemma {:induction false} SettlePendingsEffect(
    t: Tables, chain: Chain, fetched: set<TxHash>, outcomes: RootId -> Outcome, txs: seq<PendingTx>, r: RootId)
    requires r in t.roots && forall i, j | 0 <= i < j < |txs| :: txs[i].id != txs[j].id
    ensures
      var u := SettlePendings(t, chain, fetched, outcomes, txs);
      SameOwners(t, u) && PendingsSettled(t, u, chain, fetched, outcomes, txs, r)
  {
    if txs != [] {
      var n := |txs| - 1;
      var u, p := SettlePendings(t, chain, fetched, outcomes, txs[..n]), txs[n];
      SettlePendingsEffect(t, chain, fetched, outcomes, txs[..n], r);
      SettlePendingStep(t, u, chain, fetched, outcomes, txs, r);
    }
  }

  lemma SettlePendingStep(
    t: Tables, u: Tables, chain: Chain, fetched: set<TxHash>, outcomes: RootId -> Outcome, txs: seq<PendingTx>,
    r: RootId)
    requires txs != [] && forall i, j | 0 <= i < j < |txs| :: txs[i].id != txs[j].id
    requires SameOwners(t, u) && PendingsSettled(t, u, chain, fetched, outcomes, txs[..|txs| - 1], r)
    requires r in t.roots
    ensures
      var p := txs[|txs| - 1];
      var v := if p.tx in fetched && HasReceipt(chain, p.tx)
               then Under(outcomes(p.id), u, SettledPending(u, chain, p)) else u;
      SameOwners(t, v) && PendingsSettled(t, v, chain, fetched, outcomes, txs, r)
  {
    var init, p := txs[..|txs| - 1], txs[|txs| - 1];
    assert forall q :: q in txs <==> q in init || q == p;
    var v := if p.tx in fetched && HasReceipt(chain, p.tx)
             then Under(outcomes(p.id), u, SettledPending(u, chain, p)) else u;
    if p.tx in fetched && HasReceipt(chain, p.tx) && !outcomes(p.id).RolledBack? {
      SettledPendingEffect(u, chain, p, r);
    }
    if p.id == r {
      assert forall q | q in init :: q.id != r;
      if p.tx in chain {
        UntouchedThen(t, u, v, chain[p.tx].status, r);
      }
    } else {
      assert Untouched(u, v, r);
      forall q | q in init && q.id == r && q.tx in chain
      {
        UntouchedLater(t, u, v, chain[q.tx].status, r);
      }
      UntouchedLater(t, u, v, InFlight, r);
    }
  }

  /** What the first loop does to a listed root whose scan answered. */
  ghost predicate ScanSettled(t: Tables, u: Tables, found: Option<Found>, r: RootId) {
    match found
    case Some(f) => ConfirmedBy(t, u, r, Some(f.tx), f.event.timestamp, f.event.index)
    case None => r in t.roots && BackToBuilt(t, u, r, t.roots[r].txHash)
  }

  /** What reconcile does to a root without a transaction hash depends only on
      that root's own scan and statement. */
  lemma {:induction false} SettleNullTxsEffect(
    t: Tables, scans: map<RootId, Option<Found>>, outcomes: RootId -> Outcome, ids: seq<RootId>, r: RootId)
    requires Distinct(ids) && r in t.roots
    ensures
      var u := SettleNullTxs(t, scans, outcomes, ids);
      && SameOwners(t, u)
      && if r in ids && r in scans && !outcomes(r).RolledBack?
         then ScanSettled(t, u, scans[r], r)
         else Untouched(t, u, r)
  {
    if ids != [] {
      var n := |ids| - 1;
      SettleNullTxsEffect(t, scans, outcomes, ids[..n], r);
      assert r in ids <==> r in ids[..n] || r == ids[n];
      assert ids[n] !in ids[..n];
    }
  }

  // --------------------------------------------------------- single steps

  /** A successful transaction logged every root it carries. */
  lemma CarriedHasLog(chain: Chain, tx: TxHash, root: Digest)
    requires ChainInv(chain) && tx in chain && chain[tx].status.Succeeded? && root in chain[tx].roots
    ensures EventFor(chain[tx].status.logs, root).Some?
  {
    var i :| 0 <= i < |chain[tx].roots| && chain[tx].roots[i] == root;
    assert chain[tx].status.logs[i].merkleRoot == root;
  }

  lemma {:induction false} LastLog(logs: seq<EventLog>, root: Digest) returns (i: nat)
    requires EventFor(logs, root).Some?
    ensures LastFor(logs, root, i)
  {
    if logs[|logs| - 1].merkleRoot == root {
      i := |logs| - 1;
    } else {
      i := LastLog(logs[..|logs| - 1], root);
    }
  }

  /** The root ends confirmed by the transaction's last event for its value. */
  ghost predicate ConfirmedInTx(t: Tables, u: Tables, chain: Chain, r: RootId, tx: TxHash, i: nat) {
    && r in t.roots && tx in chain && chain[tx].status.Succeeded?
    && LastFor(chain[tx].status.logs, t.roots[r].merkleRoot, i)
    && ConfirmedBy(t, u, r, Some(tx), chain[tx].status.logs[i].timestamp, chain[tx].status.logs[i].index)
  }

  lemma ReceiptConfirms(t: Tables, chain: Chain, r: RootId, tx: TxHash, ids: seq<RootId>) returns (i: nat)
    requires ChainInv(chain) && r in t.roots && r in ids && t.roots[r].txHash == Some(tx)
    requires Carries(chain, tx, t.roots[r].merkleRoot) && chain[tx].status.Succeeded?
    ensures ConfirmedInTx(t, ConfirmFromReceipt(t, chain[tx].status.logs, ids), chain, r, tx, i)
  {
    CarriedHasLog(chain, tx, t.roots[r].merkleRoot);
    i := LastLog(chain[tx].status.logs, t.roots[r].merkleRoot);
    ReceiptEffect(t, chain[tx].status.logs, ids, r);
  }

  /** In every reachable world a root with a stored hash whose transaction
      succeeded is confirmed by that transaction, together with its leaves. */
  lemma PendingConfirms(k: Keccak, cfg: Config, w: World, o: Outcome) returns (i: nat)
    requires Inv(k, cfg, w) && Enabled(k, cfg, w, SettlePending(o)) && !o.RolledBack?
    requires w.chain[w.pc.pending.tx].status.Succeeded?
    ensures ConfirmedInTx(w.t, Apply(k, cfg, w, SettlePending(o)).t, w.chain, w.pc.pending.id, w.pc.pending.tx, i)
  {
    var r, tx := w.pc.pending.id, w.pc.pending.tx;
    assert PendingOpen(w.t, w.pc.pending) && RowOk(w.chain, w.t.roots[r]);
    i := ReceiptConfirms(w.t, w.chain, r, tx, [r]);
  }

  /** The worker's own confirmation reaches every root of its group. */
  lemma ConfirmReachesGroup(k: Keccak, cfg: Config, w: World, o: Outcome, j: nat) returns (i: nat)
    requires Inv(k, cfg, w) && Enabled(k, cfg, w, Confirm(o)) && !o.RolledBack? && j < |w.pc.jobs|
    ensures ConfirmedInTx(w.t, Apply(k, cfg, w, Confirm(o)).t, w.chain, w.pc.jobs[j].id, w.pc.tx, i)
  {
    var r, tx := w.pc.jobs[j].id, w.pc.tx;
    assert JobOpen(w.t, w.pc.jobs[j]) && RowOk(w.chain, w.t.roots[r]) && JobIds(w.pc.jobs)[j] == r;
    i := ReceiptConfirms(w.t, w.chain, r, tx, JobIds(w.pc.jobs));
  }

  // ------------------------------------------------- a reconcile as a whole

  ghost predicate Listed(txs: seq<PendingTx>, r: RootId) {
    exists p :: p in txs && p.id == r
  }

  predicate IsBroadcasting(t: Tables, r: RootId) {
    r in t.roots && t.roots[r].state.Broadcasting?
  }

  /** Every root reconcile still has to look at is on its list. */
  ghost predicate Attended(w: World) {
    match w.pc
    case ScanNullTx(ids) => forall r | NullTxOpen(w.t, r) :: r in ids
    case NullTxSeen(id, _, ids) => forall r | NullTxOpen(w.t, r) :: r == id || r in ids
    case ScanPendingTx(txs) => forall r | IsBroadcasting(w.t, r) :: Listed(txs, r)
    case ReceiptSeen(p, txs) => forall r | IsBroadcasting(w.t, r) :: r == p.id || Listed(txs, r)
    case _ => true
  }

  /** The step neither skips a root nor loses a statement. */
  predicate Thorough(a: Action) {
    && !a.Crash? && !a.SkipNullTx? && !a.SkipPending? && !a.AbandonReconcile?
    && (a.SettleNullTx? || a.SettlePending? ==> !a.outcome.RolledBack?)
  }

  lemma ScanAttends(k: Keccak, cfg: Config, w: World, a: Action)
    requires Enabled(k, cfg, w, a) && Attended(w) && Thorough(a)
    requires a.Start? || a.ScanLogs? || a.SettleNullTx?
    ensures Attended(Apply(k, cfg, w, a))
  {
  }

  lemma ListAttends(k: Keccak, cfg: Config, w: World, txs: seq<PendingTx>)
    requires Enabled(k, cfg, w, ListPending(txs)) && Attended(w)
    ensures Attended(Apply(k, cfg, w, ListPending(txs)))
  {
    forall r | IsBroadcasting(w.t, r)
      ensures Listed(txs, r)
    {
      assert !NullTxOpen(w.t, r);
      assert PendingTx(r, w.t.roots[r].txHash.value) in txs;
    }
  }

  lemma FetchAttends(k: Keccak, cfg: Config, w: World)
    requires Enabled(k, cfg, w, FetchReceipt) && Attended(w)
    ensures Attended(Apply(k, cfg, w, FetchReceipt))
  {
    var txs := w.pc.txs;
    forall r | IsBroadcasting(w.t, r) && r != txs[0].id
      ensures Listed(txs[1..], r)
    {
      var p :| p in txs && p.id == r;
      assert p in txs[1..];
    }
  }

  lemma SettleAttends(k: Keccak, cfg: Config, w: World, o: Outcome)
    requires Inv(k, cfg, w) && Enabled(k, cfg, w, SettlePending(o)) && Attended(w) && !o.RolledBack?
    ensures Attended(Apply(k, cfg, w, SettlePending(o)))
  {
    var p := w.pc.pending;
    assert PendingOpen(w.t, p);
    if w.chain[p.tx].status.Succeeded? {
      var _ := PendingConfirms(k, cfg, w, o);
    }
    assert !IsBroadcasting(SettledPending(w.t, w.chain, p), p.id);
    forall r | IsBroadcasting(SettledPending(w.t, w.chain, p), r)
      ensures Listed(w.pc.txs, r)
    {
      SettledPendingEffect(w.t, w.chain, p, r);
    }
  }

  lemma StepAttends(k: Keccak, cfg: Config, w: World, a: Action)
    requires Inv(k, cfg, w) && Enabled(k, cfg, w, a) && Attended(w) && Thorough(a)
    ensures Attended(Apply(k, cfg, w, a))
  {
    if a.Start? || a.ScanLogs? || a.SettleNullTx? {
      ScanAttends(k, cfg, w, a);
    } else if a.ListPending? {
      ListAttends(k, cfg, w, a.txs);
    } else if a.FetchReceipt? {
      FetchAttends(k, cfg, w);
    } else if a.SettlePending? {
      SettleAttends(k, cfg, w, a.outcome);
    } else {
      OtherAttends(k, cfg, w, a);
    }
  }

  lemma OtherAttends(k: Keccak, cfg: Config, w: World, a: Action)
    requires Enabled(k, cfg, w, a) && Attended(w) && Thorough(a)
    requires !(a.Start? || a.ScanLogs? || a.SettleNullTx? || a.ListPending? || a.FetchReceipt? || a.SettlePending?)
    ensures Attended(Apply(k, cfg, w, a))
  {
  }

  /** From a restart on, while nothing is skipped or lost, no root escapes reconcile's lists. */
  lemma {:induction false} RestartAttends(k: Keccak, cfg: Config, run: seq<Action>, from: nat)
    requires from <= |run| && After(k, cfg, run).Some?
    requires After(k, cfg, run[..from]).Some? && After(k, cfg, run[..from]).value.pc.Stopped?
    requires forall i | from <= i < |run| :: Thorough(run[i])
    ensures Attended(After(k, cfg, run).value)
  {
    if from == |run| {
      assert run[..from] == run;
    } else {
      var prefix := run[..|run| - 1];
      assert prefix[..from] == run[..from];
      RestartAttends(k, cfg, prefix, from);
      RunKeepsInv(k, cfg, prefix);
      StepAttends(k, cfg, After(k, cfg, prefix).value, run[|run| - 1]);
    }
  }

  /** A reconcile that skips no root and loses no statement leaves no root
      broadcasting, whatever the chain and the crash before it left behind. */
  lemma ReconcileSettlesAll(k: Keccak, cfg: Config, run: seq<Action>, from: nat, r: RootId)
    requires from < |run| && After(k, cfg, run).Some? && run[|run| - 1] == Ready
    requires After(k, cfg, run[..from]).Some? && After(k, cfg, run[..from]).value.pc.Stopped?
    requires forall i | from <= i < |run| :: Thorough(run[i])
    ensures !IsBroadcasting(After(k, cfg, run).value.t, r)
  {
    var prefix := run[..|run| - 1];
    assert prefix[..from] == run[..from];
    RestartAttends(k, cfg, prefix, from);
    assert IsBroadcasting(After(k, cfg, prefix).value.t, r) ==> Listed([], r);
  }
}
