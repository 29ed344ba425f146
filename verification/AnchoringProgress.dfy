/** The way of a message into the chain when nothing fails: which batch it
    enters, which transaction carries it, and what is stored about it. */
module AnchoringProgress {
  import opened Anchoring
  import opened AnchoringRecovery
  import opened AnchoringSafety
  import opened MerkleCore
  import opened MerkleHandlers
  import opened MerkleTables
  import opened Outcomes

  // --------------------------------------------------------- the broadcast

  /** The root's row with this state and hash and one attempt more. */
  predicate RowMarked(t: Tables, u: Tables, r: RootId, state: RootState, tx: Option<TxHash>) {
    && r in t.roots && r in u.roots
    && u.roots[r] == RootRow(t.roots[r].merkleRoot, state, tx, t.roots[r].attempts + 1, t.roots[r].createdAt,
                             t.roots[r].blockTimestamp, t.roots[r].logIndex)
  }

  ghost predicate GroupRows(t: Tables, u: Tables, ids: seq<RootId>, state: RootState, tx: Option<TxHash>) {
    forall i {:trigger RowMarked(t, u, ids[i], state, tx)} | 0 <= i < |ids| :: RowMarked(t, u, ids[i], state, tx)
  }

  /** Leaves and all roots outside the list are as before. */
  ghost predicate OthersKept(t: Tables, u: Tables, ids: seq<RootId>) {
    && u.leaves == t.leaves && u.roots.Keys == t.roots.Keys
    && forall r | r in t.roots && r !in ids :: u.roots[r] == t.roots[r]
  }

  predicate GroupOf(t: Tables, ids: seq<RootId>, jobs: seq<Job>) {
    && |jobs| == |ids|
    && forall i | 0 <= i < |ids| :: ids[i] in t.roots && jobs[i].id == ids[i]
                                    && jobs[i].merkleRoot == t.roots[ids[i]].merkleRoot
  }

  lemma MarkRows(t: Tables, ids: seq<RootId>)
    requires forall i | 0 <= i < |ids| :: ids[i] in t.roots && t.roots[ids[i]].txHash.None?
    ensures GroupRows(t, Mark(t, ids), ids, Broadcasting, None) && OthersKept(t, Mark(t, ids), ids)
    ensures GroupOf(t, ids, Jobs(t, ids))
  {
    forall i | 0 <= i < |ids|
      ensures ids[i] in ids
    {
    }
  }

  lemma BuiltHasNoTx(t: Tables, chain: Chain, ids: seq<RootId>)
    requires RowsOk(t, chain) && forall r | r in ids :: r in t.roots && t.roots[r].state.Built?
    ensures forall i | 0 <= i < |ids| :: ids[i] in t.roots && t.roots[ids[i]].txHash.None?
  {
    forall i | 0 <= i < |ids|
      ensures ids[i] in t.roots && t.roots[ids[i]].txHash.None?
    {
      assert ids[i] in ids && RowOk(chain, t.roots[ids[i]]);
    }
  }

  lemma MarkedGroup(k: Keccak, cfg: Config, w: World, ids: seq<RootId>)
    requires RowsOk(w.t, w.chain) && Enabled(k, cfg, w, MarkGroup(ids, Committed))
    ensures
      var v := Apply(k, cfg, w, MarkGroup(ids, Committed));
      && v.pc.Marked? && GroupOf(w.t, ids, v.pc.jobs) && v.chain == w.chain
      && GroupRows(w.t, v.t, ids, Broadcasting, None) && OthersKept(w.t, v.t, ids)
  {
    BuiltHasNoTx(w.t, w.chain, ids);
    MarkRows(w.t, ids);
  }

  lemma PersistRows(t: Tables, u: Tables, ids: seq<RootId>, tx: TxHash)
    requires GroupRows(t, u, ids, Broadcasting, None) && OthersKept(t, u, ids)
    ensures GroupRows(t, SetTxHash(u, ids, tx), ids, Broadcasting, Some(tx))
    ensures OthersKept(t, SetTxHash(u, ids, tx), ids)
  {
    forall i | 0 <= i < |ids|
      ensures RowMarked(t, SetTxHash(u, ids, tx), ids[i], Broadcasting, Some(tx))
    {
      assert ids[i] in ids && RowMarked(t, u, ids[i], Broadcasting, None);
    }
  }

  lemma PersistedGroup(k: Keccak, cfg: Config, t: Tables, w: World, ids: seq<RootId>)
    requires Enabled(k, cfg, w, PersistHash(Committed)) && GroupOf(t, ids, w.pc.jobs)
    requires GroupRows(t, w.t, ids, Broadcasting, None) && OthersKept(t, w.t, ids)
    ensures
      var v := Apply(k, cfg, w, PersistHash(Committed));
      && v.pc == Waiting(w.pc.jobs, w.pc.tx) && v.chain == w.chain
      && GroupRows(t, v.t, ids, Broadcasting, Some(w.pc.tx)) && OthersKept(t, v.t, ids)
  {
    assert JobIds(w.pc.jobs) == ids;
    PersistRows(t, w.t, ids, w.pc.tx);
  }

  /** The event of the i-th root of a transaction is the only one for its value. */
  lemma OwnEvent(t: Tables, ids: seq<RootId>, jobs: seq<Job>, logs: seq<EventLog>, i: nat)
    requires UniqueRoots(t) && Distinct(ids) && GroupOf(t, ids, jobs) && LogsMatch(JobRoots(jobs), logs) && i < |ids|
    ensures LastFor(logs, t.roots[ids[i]].merkleRoot, i)
  {
    forall j | 0 <= j < |ids|
      ensures logs[j].merkleRoot == t.roots[ids[j]].merkleRoot
    {
    }
  }

  /** The root ends confirmed by this transaction's event at this time and log
      index, with one attempt more, and its leaves with it. */
  ghost predicate RootConfirmed(t: Tables, u: Tables, r: RootId, tx: TxHash, timestamp: nat, index: nat) {
    && r in t.roots && r in u.roots
    && u.roots[r] == RootRow(t.roots[r].merkleRoot, Confirmed, Some(tx), t.roots[r].attempts + 1,
                             t.roots[r].createdAt, Some(timestamp), Some(index))
    && forall l | l in t.leaves && t.leaves[l].rootId == Some(r) ::
      && l in u.leaves
      && u.leaves[l] ==
         LeafRow(t.leaves[l].hash, Some(r), t.leaves[l].leafIndex, LeafConfirmed, t.leaves[l].createdAt)
  }

  lemma ConfirmRow(u: Tables, v: Tables, ids: seq<RootId>, tx: TxHash, logs: seq<EventLog>, r: RootId, i: nat)
    requires r in ids && r in u.roots && u.roots[r].txHash == Some(tx) && LastFor(logs, u.roots[r].merkleRoot, i)
    requires v == ConfirmFromReceipt(u, logs, ids)
    ensures ConfirmedBy(u, v, r, Some(tx), logs[i].timestamp, logs[i].index)
  {
    ReceiptEffect(u, logs, ids, r);
  }

  lemma MemberEnds(
    t: Tables, u: Tables, v: Tables, ids: seq<RootId>, tx: TxHash, logs: seq<EventLog>, r: RootId, i: nat)
    requires r in ids && RowMarked(t, u, r, Broadcasting, Some(tx)) && LastFor(logs, t.roots[r].merkleRoot, i)
    requires u.leaves == t.leaves && v == ConfirmFromReceipt(u, logs, ids)
    ensures RootConfirmed(t, v, r, tx, logs[i].timestamp, logs[i].index)
  {
    ConfirmRow(u, v, ids, tx, logs, r, i);
  }

  /** The action is possible in w and leads to v. */
  ghost predicate Step(k: Keccak, cfg: Config, w: World, a: Action, v: World) {
    Enabled(k, cfg, w, a) && v == Apply(k, cfg, w, a)
  }

  lemma SentAndPersisted(k: Keccak, cfg: Config, t: Tables, w: World, u: World, v: World, ids: seq<RootId>, tx: TxHash)
    requires Step(k, cfg, w, Send(tx, false), u) && Step(k, cfg, u, PersistHash(Committed), v)
    requires GroupOf(t, ids, w.pc.jobs) && GroupRows(t, w.t, ids, Broadcasting, None) && OthersKept(t, w.t, ids)
    ensures v.pc == Waiting(w.pc.jobs, tx) && tx in v.chain && v.chain[tx].roots == JobRoots(w.pc.jobs)
    ensures GroupRows(t, v.t, ids, Broadcasting, Some(tx)) && OthersKept(t, v.t, ids)
  {
    PersistedGroup(k, cfg, t, u, ids);
  }

  lemma MinedAndSeen(
    k: Keccak, cfg: Config, w: World, u: World, v: World, jobs: seq<Job>, tx: TxHash, block: nat, timestamp: nat,
    first: nat)
    requires w.pc == Waiting(jobs, tx) && tx in w.chain && w.chain[tx].roots == JobRoots(jobs)
    requires Step(k, cfg, w, Mine(tx, block, timestamp, first, false), u) && Step(k, cfg, u, SeeReceipt, v)
    ensures v.t == w.t && v.pc == Confirming(jobs, tx) && tx in v.chain
    ensures v.chain[tx].status == Succeeded(block, TxLogs(JobRoots(jobs), timestamp, first))
  {
  }

  /** The whole group ends so, at consecutive log indices, and no other root is touched. */
  ghost predicate GroupConfirmed(t: Tables, u: Tables, ids: seq<RootId>, tx: TxHash, timestamp: nat, first: nat) {
    && (forall i | 0 <= i < |ids| :: RootConfirmed(t, u, ids[i], tx, timestamp, first + i))
    && forall r | r in t.roots && r !in ids :: Untouched(t, u, r)
  }

  lemma OutsiderEnds(t: Tables, u: Tables, v: Tables, ids: seq<RootId>, logs: seq<EventLog>, r: RootId)
    requires OthersKept(t, u, ids) && v == ConfirmFromReceipt(u, logs, ids)
    requires r in t.roots && r !in ids
    ensures Untouched(t, v, r)
  {
    ReceiptEffect(u, logs, ids, r);
  }

  /** Each root of the list has its own log, at its own position. */
  ghost predicate OwnLogs(t: Tables, ids: seq<RootId>, logs: seq<EventLog>, timestamp: nat, first: nat) {
    && |logs| == |ids| && (forall i | 0 <= i < |ids| :: ids[i] in t.roots)
    && forall i: nat {:trigger LastFor(logs, t.roots[ids[i]].merkleRoot, i)} | i < |ids| ::
      && LastFor(logs, t.roots[ids[i]].merkleRoot, i)
      && logs[i].timestamp == timestamp && logs[i].index == first + i
  }

  lemma OwnEvents(t: Tables, ids: seq<RootId>, jobs: seq<Job>, timestamp: nat, first: nat)
    requires UniqueRoots(t) && Distinct(ids) && GroupOf(t, ids, jobs)
    ensures OwnLogs(t, ids, TxLogs(JobRoots(jobs), timestamp, first), timestamp, first)
  {
    var logs := TxLogs(JobRoots(jobs), timestamp, first);
    forall i: nat | i < |ids|
      ensures LastFor(logs, t.roots[ids[i]].merkleRoot, i)
    {
      OwnEvent(t, ids, jobs, logs, i);
    }
  }

  lemma GroupEnds(
    t: Tables, u: Tables, v: Tables, ids: seq<RootId>, tx: TxHash, logs: seq<EventLog>, timestamp: nat, first: nat)
    requires GroupRows(t, u, ids, Broadcasting, Some(tx)) && OthersKept(t, u, ids)
    requires OwnLogs(t, ids, logs, timestamp, first) && v == ConfirmFromReceipt(u, logs, ids)
    ensures GroupConfirmed(t, v, ids, tx, timestamp, first)
  {
    forall i | 0 <= i < |ids|
      ensures RootConfirmed(t, v, ids[i], tx, timestamp, first + i)
    {
      assert RowMarked(t, u, ids[i], Broadcasting, Some(tx)) && LastFor(logs, t.roots[ids[i]].merkleRoot, i);
      MemberEnds(t, u, v, ids, tx, logs, ids[i], i);
    }
    forall r | r in t.roots && r !in ids
      ensures Untouched(t, v, r)
    {
      OutsiderEnds(t, u, v, ids, logs, r);
    }
  }

  lemma MarkedAndPersisted(
    k: Keccak, cfg: Config, w0: World, w1: World, w2: World, w3: World, ids: seq<RootId>, tx: TxHash)
    requires RowsOk(w0.t, w0.chain) && Step(k, cfg, w0, MarkGroup(ids, Committed), w1)
    requires Step(k, cfg, w1, Send(tx, false), w2) && Step(k, cfg, w2, PersistHash(Committed), w3)
    ensures w3.pc.Waiting? && w3.pc.tx == tx && GroupOf(w0.t, ids, w3.pc.jobs)
    ensures tx in w3.chain && w3.chain[tx].roots == JobRoots(w3.pc.jobs)
    ensures JobIds(w3.pc.jobs) == ids && Distinct(ids)
    ensures GroupRows(w0.t, w3.t, ids, Broadcasting, Some(tx)) && OthersKept(w0.t, w3.t, ids)
  {
    MarkedGroup(k, cfg, w0, ids);
    SentAndPersisted(k, cfg, w0.t, w1, w2, w3, ids, tx);
  }

  lemma ConfirmStep(k: Keccak, cfg: Config, w: World, v: World, ids: seq<RootId>)
    requires Step(k, cfg, w, Confirm(Committed), v) && JobIds(w.pc.jobs) == ids
    ensures v.pc == Idle && v.t == ConfirmFromReceipt(w.t, w.chain[w.pc.tx].status.logs, ids)
  {
  }

  /** When nothing fails, one broadcast confirms its whole group and touches
      no other root. */
  lemma BroadcastConfirmsGroup(
    k: Keccak, cfg: Config, w0: World, w1: World, w2: World, w3: World, w4: World, w5: World, w6: World,
    ids: seq<RootId>, tx: TxHash, block: nat, timestamp: nat, first: nat)
    requires UniqueRoots(w0.t) && RowsOk(w0.t, w0.chain)
    requires Step(k, cfg, w0, MarkGroup(ids, Committed), w1)
    requires Step(k, cfg, w1, Send(tx, false), w2)
    requires Step(k, cfg, w2, PersistHash(Committed), w3)
    requires Step(k, cfg, w3, Mine(tx, block, timestamp, first, false), w4)
    requires Step(k, cfg, w4, SeeReceipt, w5)
    requires Step(k, cfg, w5, Confirm(Committed), w6)
    ensures w6.pc == Idle && GroupConfirmed(w0.t, w6.t, ids, tx, timestamp, first)
  {
    MarkedAndPersisted(k, cfg, w0, w1, w2, w3, ids, tx);
    MinedAndSeen(k, cfg, w3, w4, w5, w3.pc.jobs, tx, block, timestamp, first);
    ConfirmStep(k, cfg, w5, w6, ids);
    OwnEvents(w0.t, ids, w3.pc.jobs, timestamp, first);
    GroupEnds(w0.t, w5.t, w6.t, ids, tx, w5.chain[tx].status.logs, timestamp, first);
  }

  // --------------------------------------------------- statements that raise

  /** Where a statement that raises leads, whether or not it took effect: from
      inside the broadcast's try block to the error path with the whole group,
      in reconcile to the next root, from anywhere else to the end of the tick. */
  lemma RaisedLeads(k: Keccak, cfg: Config, w: World, a: Action, v: World)
    requires Step(k, cfg, w, a, v)
    ensures (a.PersistHash? || a.Confirm?) && a.outcome != Committed ==> v.pc == Recovering(w.pc.jobs)
    ensures (a.MarkGroup? || a.Build? || a.RecoverOne?) && a.outcome != Committed ==> v.pc == Idle
    ensures a.SettleNullTx? ==> v.pc == ScanNullTx(w.pc.ids)
    ensures a.SettlePending? ==> v.pc == ScanPendingTx(w.pc.txs)
  {
  }

  /** Between marking and confirming the worker holds a group whose marking
      committed, and waits only for a transaction whose hash was stored. */
  ghost predicate WellBegun(run: seq<Action>, pc: Pc) {
    && (pc.Marked? || pc.Sent? || pc.Waiting? || pc.Confirming? ==> MarkGroup(JobIds(pc.jobs), Committed) in run)
    && (pc.Waiting? || pc.Confirming? ==> PersistHash(Committed) in run)
  }

  lemma StepBegins(k: Keccak, cfg: Config, run: seq<Action>, w: World, a: Action)
    requires WellBegun(run, w.pc) && Enabled(k, cfg, w, a)
    ensures WellBegun(run + [a], Apply(k, cfg, w, a).pc)
  {
    assert a in run + [a];
    if a.MarkGroup? && a.outcome.Committed? {
      assert JobIds(Jobs(w.t, a.ids)) == a.ids;
    }
  }

  lemma {:induction false} RunBegins(k: Keccak, cfg: Config, run: seq<Action>)
    requires After(k, cfg, run).Some?
    ensures WellBegun(run, After(k, cfg, run).value.pc)
  {
    if run != [] {
      var prefix := run[..|run| - 1];
      RunBegins(k, cfg, prefix);
      StepBegins(k, cfg, prefix, After(k, cfg, prefix).value, run[|run| - 1]);
      assert run == prefix + [run[|run| - 1]];
    }
  }

  // ------------------------------------------------------------- the build

  lemma {:induction false} DistinctCount(ids: seq<nat>, keys: set<nat>)
    requires Distinct(ids) && forall x | x in ids :: x in keys
    ensures |ids| <= |keys|
    ensures |ids| == |keys| ==> forall x | x in keys :: x in ids
  {
    if ids != [] {
      var last, init := ids[|ids| - 1], ids[..|ids| - 1];
      assert last in ids && last !in init;
      DistinctCount(init, keys - {last});
      assert forall x | x in keys && x != last :: x in keys - {last};
    }
  }

  /** An answer of the locking SELECT is as long as the limit and the table
      allow, and leaves no row out when the limit does not bind. */
  lemma OldestCount(ages: map<nat, nat>, limit: nat, ids: seq<nat>)
    requires OldestFirst(ages, limit, ids)
    ensures |ids| == if |ages| < limit then |ages| else limit
    ensures |ages| <= limit ==> forall x | x in ages :: x in ids
  {
    assert ages.Keys == set x | x in ages;
    DistinctCount(ids, ages.Keys);
    if |ids| < limit {
      assert ages.Keys <= set x | x in ids;
      KeysWithin(ids, ages.Keys);
    }
  }

  lemma {:induction false} KeysWithin(ids: seq<nat>, keys: set<nat>)
    requires forall x | x in keys :: x in ids
    ensures |keys| <= |ids|
  {
    if ids != [] {
      var last, init := ids[|ids| - 1], ids[..|ids| - 1];
      KeysWithin(init, keys - {last});
    } else {
      assert keys == {};
    }
  }

  /** A build starts exactly when leaves are pending and either fill a batch or
      have waited too long. It takes one full batch, or else all of them. */
  lemma BuildTakes(k: Keccak, cfg: Config, w: World, age: int, u: World, rootId: RootId, ids: seq<MsgId>, now: nat)
    requires w.pc == Idle
    ensures
      var pending := |PendingAges(w.t)|;
      && (Enabled(k, cfg, w, CheckPending(age)) <==>
            pending > 0 && (pending >= cfg.batchSize || age >= cfg.buildIntervalMs))
    ensures
      var pending := PendingAges(w.t);
      Step(k, cfg, w, CheckPending(age), u) && Enabled(k, cfg, u, Build(rootId, ids, now, Committed)) ==>
        if |pending| >= cfg.batchSize then |ids| == cfg.batchSize
        else forall l :: l in ids <==> l in w.t.leaves && w.t.leaves[l].state.Pending?
  {
    var pending := PendingAges(w.t);
    if Step(k, cfg, w, CheckPending(age), u) && Enabled(k, cfg, u, Build(rootId, ids, now, Committed)) {
      OldestCount(pending, u.pc.limit, ids);
    }
  }

  /** What a build inserts: a fresh root over the list, and each leaf of the
      list at its position. */
  ghost predicate BatchInserted(t: Tables, u: Tables, rootId: RootId, root: Digest, ids: seq<MsgId>, now: nat) {
    && u.roots == t.roots[rootId := RootRow(root, Built, None, 0, now, None, None)]
    && u.leaves.Keys == t.leaves.Keys
    && (forall i | 0 <= i < |ids| ::
      && ids[i] in t.leaves
      && u.leaves[ids[i]] ==
         LeafRow(t.leaves[ids[i]].hash, Some(rootId), Some(i), Batched, t.leaves[ids[i]].createdAt))
    && forall l | l in t.leaves && l !in ids :: u.leaves[l] == t.leaves[l]
  }

  lemma BuildRootEffect(t: Tables, rootId: RootId, root: Digest, ids: seq<MsgId>, now: nat)
    requires Distinct(ids) && forall l | l in ids :: l in t.leaves
    ensures BatchInserted(t, BuildRoot(t, rootId, root, ids, now), rootId, root, ids, now)
  {
    forall i | 0 <= i < |ids|
      ensures ids[i] in ids && PlaceIn(ids, ids[i]) == i
    {
      PlaceOf(ids, i);
    }
  }

  // ----------------------------------------------------------- the message

  lemma BuiltBatch(k: Keccak, cfg: Config, w: World, v: World, rootId: RootId, ids: seq<MsgId>, now: nat)
    requires Step(k, cfg, w, Build(rootId, ids, now, Committed), v) && ids != []
    ensures rootId !in w.t.roots && (forall l | l in ids :: l in w.t.leaves)
    ensures BatchInserted(w.t, v.t, rootId, Root(k, Hashes(w.t, ids)), ids, now)
  {
    BuildRootEffect(w.t, rootId, BatchRoot(k, w.t, ids), ids, now);
  }

  lemma AddedMessage(
    k: Keccak, cfg: Config, w: World, u: World, v: World, msg: MsgId, hash: Digest, now: nat, age: int)
    requires Step(k, cfg, w, AddMessage(msg, hash, now), u) && Step(k, cfg, u, CheckPending(age), v)
    ensures v.t.roots == w.t.roots && v.t.leaves == w.t.leaves[msg := LeafRow(hash, None, None, Pending, now)]
  {
  }

  lemma LeafGetsStored(
    t: Tables, u: Tables, end: Tables, rootId: RootId, root: Digest, msgs: seq<MsgId>, built: nat, m: nat,
    tx: TxHash, timestamp: nat, index: nat)
    requires BatchInserted(t, u, rootId, root, msgs, built) && m < |msgs|
    requires RootConfirmed(u, end, rootId, tx, timestamp, index)
    ensures msgs[m] in t.leaves && msgs[m] in end.leaves
    ensures
      var leaf := t.leaves[msgs[m]];
      end.leaves[msgs[m]] == LeafRow(leaf.hash, Some(rootId), Some(m), LeafConfirmed, leaf.createdAt)
    ensures rootId in end.roots
    ensures end.roots[rootId] == RootRow(root, Confirmed, Some(tx), 1, built, Some(timestamp), Some(index))
  {
    assert msgs[m] in t.leaves;
  }

  lemma BatchedGetsStored(
    k: Keccak, cfg: Config, w: World, v: World, end: Tables, rootId: RootId, msgs: seq<MsgId>, built: nat, m: nat,
    tx: TxHash, timestamp: nat, index: nat)
    requires Step(k, cfg, w, Build(rootId, msgs, built, Committed), v) && m < |msgs|
    requires RootConfirmed(v.t, end, rootId, tx, timestamp, index)
    ensures forall l | l in msgs :: l in w.t.leaves
    ensures msgs[m] in w.t.leaves && msgs[m] in end.leaves && rootId in end.roots
    ensures
      var leaf := w.t.leaves[msgs[m]];
      end.leaves[msgs[m]] == LeafRow(leaf.hash, Some(rootId), Some(m), LeafConfirmed, leaf.createdAt)
    ensures
      end.roots[rootId] ==
        RootRow(Root(k, Hashes(w.t, msgs)), Confirmed, Some(tx), 1, built, Some(timestamp), Some(index))
  {
    BuiltBatch(k, cfg, w, v, rootId, msgs, built);
    LeafGetsStored(w.t, v.t, end, rootId, Root(k, Hashes(w.t, msgs)), msgs, built, m, tx, timestamp, index);
  }

  lemma StatusWhenStored(
    t: Tables, messages: map<MsgId, MessageRow>, msg: MsgId, user: UserId, leaf: LeafRow, root: RootRow)
    requires msg in messages && !messages[msg].deleted && user !in messages[msg].hiddenFor
    requires msg in t.leaves && t.leaves[msg] == leaf && leaf.rootId.Some?
    requires leaf.rootId.value in t.roots && t.roots[leaf.rootId.value] == root && root.state.Confirmed?
    ensures GetMessageStatus(t, messages, msg, user) ==
      StoredOnBlockchain(root.txHash, root.merkleRoot, root.blockTimestamp, leaf.hash, leaf.leafIndex)
  {
  }

  /** A message that is inserted, batched and broadcast ends as the leaf of its
      batch's root, and its reader is told where it is anchored. */
  lemma MessageGetsStored(
    k: Keccak, cfg: Config, w0: World, w1: World, w2: World, w3: World, end: Tables,
    msg: MsgId, hash: Digest, now: nat, age: int, rootId: RootId, msgs: seq<MsgId>, built: nat, m: nat,
    tx: TxHash, timestamp: nat, index: nat, messages: map<MsgId, MessageRow>, user: UserId)
    requires Step(k, cfg, w0, AddMessage(msg, hash, now), w1)
    requires Step(k, cfg, w1, CheckPending(age), w2)
    requires Step(k, cfg, w2, Build(rootId, msgs, built, Committed), w3) && m < |msgs| && msgs[m] == msg
    requires RootConfirmed(w3.t, end, rootId, tx, timestamp, index)
    requires msg in messages && !messages[msg].deleted && user !in messages[msg].hiddenFor
    ensures forall l | l in msgs :: l in w2.t.leaves
    ensures msg in end.leaves && end.leaves[msg] == LeafRow(hash, Some(rootId), Some(m), LeafConfirmed, now)
    ensures GetMessageStatus(end, messages, msg, user) ==
      StoredOnBlockchain(Some(tx), Root(k, Hashes(w2.t, msgs)), Some(timestamp), hash, Some(m))
  {
    AddedMessage(k, cfg, w0, w1, w2, msg, hash, now, age);
    BatchedGetsStored(k, cfg, w2, w3, end, rootId, msgs, built, m, tx, timestamp, index);
    StatusWhenStored(end, messages, msg, user, end.leaves[msg], end.roots[rootId]);
  }
}
