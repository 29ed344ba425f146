/** The merkle_roots and merkle_leaves tables and what each statement of the
    build worker and the publisher does to them. */
module MerkleTables {
  import opened MerkleCore
  import opened Outcomes

  type RootId = nat
  type MsgId = nat
  type TxHash = nat

  datatype RootState = Built | Broadcasting | Confirmed | Failed

  datatype RootRow = RootRow(
    merkleRoot: Digest,
    state: RootState,
    txHash: Option<TxHash>,
    attempts: nat,
    createdAt: nat,
    blockTimestamp: Option<nat>,
    logIndex: Option<nat>)

  datatype LeafState = Pending | Batched | LeafConfirmed

  /** One leaf per message: msg_id is the key. */
  datatype LeafRow = LeafRow(
    hash: Digest,
    rootId: Option<RootId>,
    leafIndex: Option<nat>,
    state: LeafState,
    createdAt: nat)

  datatype Tables = Tables(roots: map<RootId, RootRow>, leaves: map<MsgId, LeafRow>)

  /** A HashStored log in a receipt. */
  datatype EventLog = EventLog(merkleRoot: Digest, timestamp: nat, index: nat)

  // --------------------------------------------------------------- queries

  ghost predicate Distinct<T>(s: seq<T>) {
    forall i, j | 0 <= i < j < |s| :: s[i] != s[j]
  }

  /** The answer of SELECT .. ORDER BY created_at ASC LIMIT limit over rows
      given by id and age; ties may come in any order. */
  ghost predicate OldestFirst(ages: map<nat, nat>, limit: int, ids: seq<nat>) {
    && Distinct(ids)
    && (forall id | id in ids :: id in ages)
    && |ids| <= limit
    && (|ids| < limit ==> forall id | id in ages :: id in ids)
    && (forall i, j | 0 <= i < j < |ids| :: ages[ids[i]] <= ages[ids[j]])
    && (forall i, id | 0 <= i < |ids| && id in ages && id !in ids :: ages[ids[i]] <= ages[id])
  }

  function PendingAges(t: Tables): map<MsgId, nat> {
    map l | l in t.leaves && t.leaves[l].state == Pending :: t.leaves[l].createdAt
  }

  function BuiltAges(t: Tables): map<RootId, nat> {
    map r | r in t.roots && t.roots[r].state == Built :: t.roots[r].createdAt
  }

  function Hashes(t: Tables, ids: seq<MsgId>): (hs: seq<Digest>)
    requires forall l | l in ids :: l in t.leaves
    ensures |hs| == |ids|
    ensures forall i | 0 <= i < |ids| :: hs[i] == t.leaves[ids[i]].hash
  {
    if ids == [] then [] else [t.leaves[ids[0]].hash] + Hashes(t, ids[1..])
  }

  /** ids lists the leaves of root r in leaf_index order, indexed 0, 1, ... */
  ghost predicate OrderedLeaves(t: Tables, r: RootId, ids: seq<MsgId>) {
    && Distinct(ids)
    && (forall l :: l in ids <==> l in t.leaves && t.leaves[l].rootId == Some(r))
    && (forall i | 0 <= i < |ids| :: t.leaves[ids[i]].leafIndex == Some(i))
  }

  // ------------------------------------------------------------ statements

  function PlaceIn<T(==)>(s: seq<T>, x: T): (i: nat)
    requires x in s
    ensures i < |s| && s[i] == x
  {
    if s[0] == x then 0 else 1 + PlaceIn(s[1..], x)
  }

  function InsertLeaf(t: Tables, id: MsgId, hash: Digest, now: nat): Tables {
    t.(leaves := t.leaves[id := LeafRow(hash, None, None, Pending, now)])
  }

  /** merkle_root is UNIQUE: a second row with the same value is refused. */
  predicate RootFree(t: Tables, root: Digest) {
    forall r | r in t.roots :: t.roots[r].merkleRoot != root
  }

  /** Inserts the new root and assigns the selected leaves to it in order. */
  function BuildRoot(t: Tables, rootId: RootId, root: Digest, ids: seq<MsgId>, now: nat): Tables {
    Tables(
      t.roots[rootId := RootRow(root, Built, None, 0, now, None, None)],
      map l | l in t.leaves ::
        if l in ids then t.leaves[l].(rootId := Some(rootId), leafIndex := Some(PlaceIn(ids, l)), state := Batched)
        else t.leaves[l])
  }

  function Mark(t: Tables, ids: seq<RootId>): Tables {
    t.(roots := map r | r in t.roots ::
      if r in ids then t.roots[r].(state := Broadcasting, attempts := t.roots[r].attempts + 1) else t.roots[r])
  }

  function SetTxHash(t: Tables, ids: seq<RootId>, tx: TxHash): Tables {
    t.(roots := map r | r in t.roots :: if r in ids then t.roots[r].(txHash := Some(tx)) else t.roots[r])
  }

  /** Back to built, with tx_hash cleared. */
  function ReturnToBuilt(t: Tables, id: RootId): Tables {
    if id in t.roots then t.(roots := t.roots[id := t.roots[id].(state := Built, txHash := None)]) else t
  }

  /** Back to built without touching tx_hash, as reconcile does for a root
      that never got one. */
  function ReopenRoot(t: Tables, id: RootId): Tables {
    if id in t.roots then t.(roots := t.roots[id := t.roots[id].(state := Built)]) else t
  }

  function FailRoot(t: Tables, id: RootId): Tables {
    if id in t.roots then t.(roots := t.roots[id := t.roots[id].(state := Failed)]) else t
  }

  /** Every leaf pointing at a root in ids becomes confirmed. */
  function ConfirmLeaves(leaves: map<MsgId, LeafRow>, ids: set<RootId>): map<MsgId, LeafRow> {
    map l | l in leaves ::
      if leaves[l].rootId.Some? && leaves[l].rootId.value in ids then leaves[l].(state := LeafConfirmed) else leaves[l]
  }

  /** The log a receipt holds for a root value; a later one wins. */
  function EventFor(logs: seq<EventLog>, root: Digest): (ev: Option<EventLog>)
    ensures ev.Some? <==> exists i :: 0 <= i < |logs| && logs[i].merkleRoot == root
    ensures ev.Some? ==> ev.value in logs && ev.value.merkleRoot == root
  {
    if logs == [] then None
    else if logs[|logs| - 1].merkleRoot == root then
      assert logs[|logs| - 1] in logs; Some(logs[|logs| - 1])
    else
      var rest := EventFor(logs[..|logs| - 1], root);
      assert forall i | 0 <= i < |logs| - 1 :: logs[i] == logs[..|logs| - 1][i];
      rest
  }

  /** The listed roots for which the receipt holds an event. */
  function Evidenced(t: Tables, logs: seq<EventLog>, ids: seq<RootId>): set<RootId> {
    set r | r in t.roots && r in ids && EventFor(logs, t.roots[r].merkleRoot).Some?
  }

  function ConfirmedRow(row: RootRow, ev: EventLog): RootRow {
    row.(state := Confirmed, blockTimestamp := Some(ev.timestamp), logIndex := Some(ev.index))
  }

  /** confirmRootsFromReceipt: one transaction over all listed roots. */
  function ConfirmFromReceipt(t: Tables, logs: seq<EventLog>, ids: seq<RootId>): Tables {
    var done := Evidenced(t, logs, ids);
    Tables(
      map r | r in t.roots ::
        if r in done then ConfirmedRow(t.roots[r], EventFor(logs, t.roots[r].merkleRoot).value) else t.roots[r],
      ConfirmLeaves(t.leaves, done))
  }

  /** reconcile's confirmation of a root whose event was found on chain. */
  function ConfirmFromLog(t: Tables, id: RootId, tx: TxHash, ev: EventLog): Tables {
    if id in t.roots then
      Tables(t.roots[id := ConfirmedRow(t.roots[id].(txHash := Some(tx)), ev)], ConfirmLeaves(t.leaves, {id}))
    else t
  }
}
