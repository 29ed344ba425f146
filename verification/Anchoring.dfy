/** The anchoring worker as a state machine: every action is what happens
    between two awaits of server/blockchain/publisher.js or build-worker.js, a
    step of the chain, an inserted message, or a crash. */
module Anchoring {
  import opened MerkleCore
  import opened MerkleTables
  import opened Outcomes
  import Contract = MessagesContract

  // ----------------------------------------------------------------- state

  datatype TxStatus = InFlight | Reverted | Succeeded(block: nat, logs: seq<EventLog>)

  datatype Tx = Tx(sender: Contract.Address, roots: seq<Digest>, status: TxStatus)

  type Chain = map<TxHash, Tx>

  datatype Config = Config(
    batchSize: int,
    buildIntervalMs: int,
    minRoots: int,
    broadcastIntervalMs: int,
    maxRootsPerTx: int,
    maxAttempts: int,
    deployBlock: nat,
    owner: Contract.Address,
    signer: Contract.Address)

  /** A row of builtRoots; attempts is the value before this broadcast. */
  datatype Job = Job(id: RootId, merkleRoot: Digest, attempts: nat)

  datatype PendingTx = PendingTx(id: RootId, tx: TxHash)

  /** An event found on chain together with the transaction that carried it. */
  datatype Found = Found(tx: TxHash, event: EventLog)

  /** Where the worker is. */
  datatype Pc =
    | Stopped
    | ScanNullTx(ids: seq<RootId>)
    | NullTxSeen(id: RootId, found: Option<Found>, ids: seq<RootId>)
    | ScanPendingTx(txs: seq<PendingTx>)
    | ReceiptSeen(pending: PendingTx, txs: seq<PendingTx>)
    | Idle
    | Building(limit: int)
    | Marked(jobs: seq<Job>)
    | Sent(jobs: seq<Job>, tx: TxHash)
    | Waiting(jobs: seq<Job>, tx: TxHash)
    | Confirming(jobs: seq<Job>, tx: TxHash)
    | Recovering(jobs: seq<Job>)

  datatype World = World(t: Tables, chain: Chain, pc: Pc)

  /** What becomes of a statement or transaction sent to the database. */
  datatype Outcome = Committed | RolledBack | CommittedButRaised

  datatype Action =
    // environment
    | AddMessage(msg: MsgId, hash: Digest, now: nat)
    | OtherSend(tx: TxHash, sender: Contract.Address, roots: seq<Digest>)
    | Mine(tx: TxHash, block: nat, timestamp: nat, firstIndex: nat, outOfGas: bool)
    | Crash
    // reconcile
    | Start(ids: seq<RootId>)
    | ScanLogs(found: Option<Found>)
    | SkipNullTx
    | SettleNullTx(outcome: Outcome)
    | ListPending(txs: seq<PendingTx>)
    | FetchReceipt
    | SkipPending
    | SettlePending(outcome: Outcome)
    | AbandonReconcile
    | Ready
    // buildPendingRoots
    | CheckPending(ageMs: int)
    | Build(rootId: RootId, ids: seq<MsgId>, now: nat, outcome: Outcome)
    // broadcastBuiltRoots
    | MarkGroup(ids: seq<RootId>, outcome: Outcome)
    | Send(tx: TxHash, raised: bool)
    | SendFailed
    | PersistHash(outcome: Outcome)
    | SeeReceipt
    | WaitFailed
    | Confirm(outcome: Outcome)
    | RecoverOne(outcome: Outcome)
    | RecoverDone

  // -------------------------------------------------------------- the chain

  function TxLogs(roots: seq<Digest>, timestamp: nat, firstIndex: nat): (logs: seq<EventLog>)
    ensures LogsMatch(roots, logs)
    ensures forall i | 0 <= i < |logs| :: logs[i].timestamp == timestamp && logs[i].index == firstIndex + i
  {
    if roots == [] then []
    else [EventLog(roots[0], timestamp, firstIndex)] + TxLogs(roots[1..], timestamp, firstIndex + 1)
  }

  ghost predicate LogsMatch(roots: seq<Digest>, logs: seq<EventLog>) {
    |logs| == |roots| && forall i | 0 <= i < |roots| :: logs[i].merkleRoot == roots[i]
  }

  function MinedStatus(cfg: Config, tx: Tx, block: nat, timestamp: nat, firstIndex: nat, outOfGas: bool): TxStatus {
    if !outOfGas && Contract.Accepts(cfg.owner, tx.sender, tx.roots)
    then Succeeded(block, TxLogs(tx.roots, timestamp, firstIndex))
    else Reverted
  }

  /** The event is in a successful transaction from the deploy block on. */
  predicate OnChain(cfg: Config, chain: Chain, f: Found) {
    && f.tx in chain && chain[f.tx].status.Succeeded?
    && chain[f.tx].status.block >= cfg.deployBlock && f.event in chain[f.tx].status.logs
  }

  /** What the log scan may answer for a root value. */
  ghost predicate ScanAnswer(cfg: Config, chain: Chain, root: Digest, found: Option<Found>) {
    match found
    case Some(f) => OnChain(cfg, chain, f) && f.event.merkleRoot == root
    case None => forall f :: OnChain(cfg, chain, f) ==> f.event.merkleRoot != root
  }

  // ------------------------------------------------------------ transitions

  /** The two triggers of buildPendingRoots. */
  function BuildLimit(cfg: Config, pending: nat, ageMs: int): Option<int> {
    if pending == 0 then None
    else if pending >= cfg.batchSize then Some(cfg.batchSize)
    else if ageMs >= cfg.buildIntervalMs then Some(pending)
    else None
  }

  function Jobs(t: Tables, ids: seq<RootId>): (jobs: seq<Job>)
    requires forall id | id in ids :: id in t.roots
    ensures |jobs| == |ids|
    ensures forall i | 0 <= i < |ids| ::
      jobs[i] == Job(ids[i], t.roots[ids[i]].merkleRoot, t.roots[ids[i]].attempts)
  {
    if ids == [] then [] else [Job(ids[0], t.roots[ids[0]].merkleRoot, t.roots[ids[0]].attempts)] + Jobs(t, ids[1..])
  }

  function JobIds(jobs: seq<Job>): (ids: seq<RootId>)
    ensures |ids| == |jobs|
    ensures forall i | 0 <= i < |jobs| :: ids[i] == jobs[i].id
  {
    if jobs == [] then [] else [jobs[0].id] + JobIds(jobs[1..])
  }

  function JobRoots(jobs: seq<Job>): (roots: seq<Digest>)
    ensures |roots| == |jobs|
    ensures forall i | 0 <= i < |jobs| :: roots[i] == jobs[i].merkleRoot
  {
    if jobs == [] then [] else [jobs[0].merkleRoot] + JobRoots(jobs[1..])
  }

  /** The rows of SELECT .. WHERE state = 'broadcasting' AND tx_hash IS NULL. */
  ghost predicate ListsNullTx(t: Tables, ids: seq<RootId>) {
    && Distinct(ids)
    && forall r :: r in ids <==> r in t.roots && t.roots[r].state == Broadcasting && t.roots[r].txHash.None?
  }

  /** The rows of SELECT .. WHERE state = 'broadcasting' AND tx_hash IS NOT NULL. */
  ghost predicate ListsPending(t: Tables, txs: seq<PendingTx>) {
    && (forall i, j | 0 <= i < j < |txs| :: txs[i].id != txs[j].id)
    && forall p :: p in txs <==>
         p.id in t.roots && t.roots[p.id].state == Broadcasting && t.roots[p.id].txHash == Some(p.tx)
  }

  /** When an action is possible. Whether a broadcast is due depends on the age
      of the oldest built root, which is free here, so that trigger excludes
      no MarkGroup. */
  ghost predicate Enabled(k: Keccak, cfg: Config, w: World, a: Action) {
    match a
    case AddMessage(msg, _, _) => msg !in w.t.leaves
    case OtherSend(tx, _, _) => tx !in w.chain
    case Mine(tx, _, _, _, _) => tx in w.chain && w.chain[tx].status.InFlight?
    case Crash => true
    case Start(ids) => w.pc.Stopped? && ListsNullTx(w.t, ids)
    case ScanLogs(found) =>
      && w.pc.ScanNullTx? && w.pc.ids != [] && w.pc.ids[0] in w.t.roots
      && var root := w.t.roots[w.pc.ids[0]].merkleRoot;
        ScanAnswer(cfg, w.chain, root, found)
    case SkipNullTx => w.pc.ScanNullTx? && w.pc.ids != []
    case SettleNullTx(_) => w.pc.NullTxSeen?
    case ListPending(txs) => w.pc == ScanNullTx([]) && ListsPending(w.t, txs)
    case FetchReceipt =>
      && w.pc.ScanPendingTx? && w.pc.txs != []
      && w.pc.txs[0].tx in w.chain && !w.chain[w.pc.txs[0].tx].status.InFlight?
    case SkipPending => w.pc.ScanPendingTx? && w.pc.txs != []
    case SettlePending(_) => w.pc.ReceiptSeen? && w.pc.pending.tx in w.chain
    case AbandonReconcile => w.pc.ScanNullTx? || w.pc.NullTxSeen? || w.pc.ScanPendingTx? || w.pc.ReceiptSeen?
    case Ready => w.pc == ScanPendingTx([])
    case CheckPending(age) => w.pc.Idle? && BuildLimit(cfg, |PendingAges(w.t)|, age).Some?
    case Build(rootId, ids, _, outcome) =>
      && w.pc.Building? && 0 <= w.pc.limit
      && OldestFirst(PendingAges(w.t), w.pc.limit, ids)
      && rootId > 0 && rootId !in w.t.roots
      && (ids != [] && !RootFree(w.t, BatchRoot(k, w.t, ids)) ==> outcome == RolledBack)
    case MarkGroup(ids, _) =>
      w.pc.Idle? && 0 <= cfg.maxRootsPerTx && ids != [] && OldestFirst(BuiltAges(w.t), cfg.maxRootsPerTx, ids)
    case Send(tx, _) => w.pc.Marked? && tx !in w.chain
    case SendFailed => w.pc.Marked?
    case PersistHash(_) => w.pc.Sent?
    case SeeReceipt => w.pc.Waiting? && w.pc.tx in w.chain && w.chain[w.pc.tx].status.Succeeded?
    case WaitFailed => w.pc.Waiting?
    case Confirm(_) => w.pc.Confirming? && w.pc.tx in w.chain && w.chain[w.pc.tx].status.Succeeded?
    case RecoverOne(_) => w.pc.Recovering? && w.pc.jobs != []
    case RecoverDone => w.pc == Recovering([])
  }

  /** The root a batch is inserted under. */
  function BatchRoot(k: Keccak, t: Tables, ids: seq<MsgId>): Digest {
    if ids != [] && (forall l | l in ids :: l in t.leaves) then Root(k, Hashes(t, ids)) else ZERO_DIGEST
  }

  /** Runs one statement under the given outcome. */
  function Under(outcome: Outcome, before: Tables, after: Tables): Tables {
    if outcome.RolledBack? then before else after
  }

  function SettledNullTx(t: Tables, id: RootId, found: Option<Found>): Tables {
    match found
    case Some(f) => ConfirmFromLog(t, id, f.tx, f.event)
    case None => ReopenRoot(t, id)
  }

  function SettledPending(t: Tables, chain: Chain, p: PendingTx): Tables
    requires p.tx in chain
  {
    match chain[p.tx].status
    case Succeeded(_, logs) => ConfirmFromReceipt(t, logs, [p.id])
    case _ => ReturnToBuilt(t, p.id)
  }

  function Recovered(cfg: Config, t: Tables, job: Job): Tables {
    if job.attempts + 1 >= cfg.maxAttempts then FailRoot(t, job.id) else ReturnToBuilt(t, job.id)
  }

  function Apply(k: Keccak, cfg: Config, w: World, a: Action): World
    requires Enabled(k, cfg, w, a)
  {
    match a
    case AddMessage(msg, hash, now) => w.(t := InsertLeaf(w.t, msg, hash, now))
    case OtherSend(tx, sender, roots) => w.(chain := w.chain[tx := Tx(sender, roots, InFlight)])
    case Mine(tx, block, ts, first, oog) =>
      w.(chain := w.chain[tx := w.chain[tx].(status := MinedStatus(cfg, w.chain[tx], block, ts, first, oog))])
    case Crash => w.(pc := Stopped)
    case Start(ids) => w.(pc := ScanNullTx(ids))
    case ScanLogs(found) => w.(pc := NullTxSeen(w.pc.ids[0], found, w.pc.ids[1..]))
    case SkipNullTx => w.(pc := ScanNullTx(w.pc.ids[1..]))
    case SettleNullTx(o) =>
      World(Under(o, w.t, SettledNullTx(w.t, w.pc.id, w.pc.found)), w.chain, ScanNullTx(w.pc.ids))
    case ListPending(txs) => w.(pc := ScanPendingTx(txs))
    case FetchReceipt => w.(pc := ReceiptSeen(w.pc.txs[0], w.pc.txs[1..]))
    case SkipPending => w.(pc := ScanPendingTx(w.pc.txs[1..]))
    case SettlePending(o) =>
      World(Under(o, w.t, SettledPending(w.t, w.chain, w.pc.pending)), w.chain, ScanPendingTx(w.pc.txs))
    case AbandonReconcile => w.(pc := Idle)
    case Ready => w.(pc := Idle)
    case CheckPending(age) => w.(pc := Building(BuildLimit(cfg, |PendingAges(w.t)|, age).value))
    case Build(rootId, ids, now, o) =>
      if ids == [] then w.(pc := Idle)
      else World(Under(o, w.t, BuildRoot(w.t, rootId, BatchRoot(k, w.t, ids), ids, now)), w.chain, Idle)
    case MarkGroup(ids, o) =>
      World(Under(o, w.t, Mark(w.t, ids)), w.chain, if o.Committed? then Marked(Jobs(w.t, ids)) else Idle)
    case Send(tx, raised) =>
      World(w.t, w.chain[tx := Tx(cfg.signer, JobRoots(w.pc.jobs), InFlight)],
            if raised then Recovering(w.pc.jobs) else Sent(w.pc.jobs, tx))
    case SendFailed => w.(pc := Recovering(w.pc.jobs))
    case PersistHash(o) =>
      World(Under(o, w.t, SetTxHash(w.t, JobIds(w.pc.jobs), w.pc.tx)), w.chain,
            if o.Committed? then Waiting(w.pc.jobs, w.pc.tx) else Recovering(w.pc.jobs))
    case SeeReceipt => w.(pc := Confirming(w.pc.jobs, w.pc.tx))
    case WaitFailed => w.(pc := Recovering(w.pc.jobs))
    case Confirm(o) =>
      World(Under(o, w.t, ConfirmFromReceipt(w.t, w.chain[w.pc.tx].status.logs, JobIds(w.pc.jobs))), w.chain,
            if o.Committed? then Idle else Recovering(w.pc.jobs))
    case RecoverOne(o) =>
      World(Under(o, w.t, Recovered(cfg, w.t, w.pc.jobs[0])), w.chain,
            if o.Committed? then Recovering(w.pc.jobs[1..]) else Idle)
    case RecoverDone => w.(pc := Idle)
  }

  const EMPTY := World(Tables(map[], map[]), map[], Stopped)

  /** The world a run from the empty database ends in; None when some action
      of the run was not possible. */
  ghost function After(k: Keccak, cfg: Config, run: seq<Action>): Option<World> {
    if run == [] then Some(EMPTY)
    else
      match After(k, cfg, run[..|run| - 1])
      case None => None
      case Some(w) =>
        var a := run[|run| - 1];
        if Enabled(k, cfg, w, a) then Some(Apply(k, cfg, w, a)) else None
  }
}
