/** The worker's procedures, loop by loop, over the tables they update
    (server/blockchain/publisher.js and build-worker.js). Each is proved to do
    to the tables what the state machine's steps do. */
module Publisher {
  import opened Anchoring
  import opened MerkleCore
  import opened MerkleTables
  import opened Outcomes

  function RecoveredRow(cfg: Config, row: RootRow, job: Job): RootRow {
    if job.attempts + 1 >= cfg.maxAttempts then row.(state := Failed) else row.(state := Built, txHash := None)
  }

  /** The error path from the i-th job on. A statement that raises ends the
      loop, whether or not it took effect. */
  function RecoverFrom(cfg: Config, t: Tables, jobs: seq<Job>, outcomes: nat -> Outcome, i: nat): Tables
    requires i <= |jobs|
    decreases |jobs| - i
  {
    if i == |jobs| then t
    else
      var u := Under(outcomes(i), t, Recovered(cfg, t, jobs[i]));
      if outcomes(i).Committed? then RecoverFrom(cfg, u, jobs, outcomes, i + 1) else u
  }

  /** reconcile's steps for the roots without a transaction hash. A root whose
      scan raised has no entry; a statement that raises is logged and the loop
      goes on. */
  function SettleNullTxs(t: Tables, scans: map<RootId, Option<Found>>, outcomes: RootId -> Outcome, ids: seq<RootId>)
    : Tables
  {
    if ids == [] then t
    else
      var u := SettleNullTxs(t, scans, outcomes, ids[..|ids| - 1]);
      var id := ids[|ids| - 1];
      if id in scans then Under(outcomes(id), u, SettledNullTx(u, id, scans[id])) else u
  }

  /** A receipt exists once the transaction is mined. */
  predicate HasReceipt(chain: Chain, tx: TxHash) {
    tx in chain && !chain[tx].status.InFlight?
  }

  /** reconcile's steps for the roots with a transaction hash. fetched holds the
      hashes whose receipt was asked for without an error or a null answer. */
  function SettlePendings(
    t: Tables, chain: Chain, fetched: set<TxHash>, outcomes: RootId -> Outcome, txs: seq<PendingTx>): Tables
  {
    if txs == [] then t
    else
      var u := SettlePendings(t, chain, fetched, outcomes, txs[..|txs| - 1]);
      var p := txs[|txs| - 1];
      if p.tx in fetched && HasReceipt(chain, p.tx) then Under(outcomes(p.id), u, SettledPending(u, chain, p)) else u
  }

  class MerkleDatabase {
    var roots: map<RootId, RootRow>
    var leaves: map<MsgId, LeafRow>

    function Contents(): Tables
      reads this
    {
      Tables(roots, leaves)
    }

    constructor ()
      ensures Contents() == EMPTY.t
    {
      roots, leaves := map[], map[];
    }

    /** rows answers the locking SELECT, rootId is the next serial id. Nothing
        happens unless a trigger fires; a root value that exists already makes
        the whole transaction roll back. */
    method BuildPendingRoots(
      k: Keccak, cfg: Config, ageMs: int, rows: seq<MsgId>, rootId: RootId, now: nat, outcome: Outcome)
      returns (raised: bool)
      requires rootId !in roots
      requires
        var pending := PendingAges(Contents());
        |pending| > 0 && (|pending| >= cfg.batchSize || ageMs >= cfg.buildIntervalMs) ==>
          OldestFirst(pending, if |pending| >= cfg.batchSize then cfg.batchSize else |pending|, rows)
      modifies this
      ensures
        var pending := |PendingAges(old(Contents()))|;
        var due := pending > 0 && (pending >= cfg.batchSize || ageMs >= cfg.buildIntervalMs) && rows != [];
        var root := BatchRoot(k, old(Contents()), rows);
        && (raised <==> due && (!RootFree(old(Contents()), root) || !outcome.Committed?))
        && Contents() ==
          if !due || !RootFree(old(Contents()), root) then old(Contents())
          else Under(outcome, old(Contents()), BuildRoot(old(Contents()), rootId, root, rows, now))
    {
      var pending := PendingAges(Contents());
      var cnt := |pending|;
      if cnt == 0 { return false; }
      var hasFullBatch := cnt >= cfg.batchSize;
      var hasTimedOut := ageMs >= cfg.buildIntervalMs;
      if !hasFullBatch && !hasTimedOut { return false; }
      if |rows| == 0 { return false; }
      var root := ComputeRoot(k, Hashes(Contents(), rows)).value;
      if !RootFree(Contents(), root) { return true; }
      var built := BuildRoot(Contents(), rootId, root, rows, now);
      if !outcome.RolledBack? { roots, leaves := built.roots, built.leaves; }
      raised := !outcome.Committed?;
    }

    /** First phase of a broadcast: rows answers the locking SELECT. Nothing
        happens unless a trigger fires; otherwise the group is marked, one
        attempt each, and returned with the attempts from before. When the
        transaction raises there is no group to broadcast. */
    method MarkBuiltRoots(cfg: Config, ageMs: int, rows: seq<RootId>, outcome: Outcome) returns (builtRoots: seq<Job>)
      requires
        var built := BuiltAges(Contents());
        |built| > 0 && (|built| >= cfg.minRoots || ageMs >= cfg.broadcastIntervalMs) ==>
          OldestFirst(built, cfg.maxRootsPerTx, rows)
      modifies this`roots
      ensures
        var built := |BuiltAges(old(Contents()))|;
        var due := built > 0 && (built >= cfg.minRoots || ageMs >= cfg.broadcastIntervalMs) && rows != [];
        && Contents() == (if due then Under(outcome, old(Contents()), Mark(old(Contents()), rows)) else old(Contents()))
        && JobIds(builtRoots) == (if due && outcome.Committed? then rows else [])
        && forall i | 0 <= i < |builtRoots| ::
             builtRoots[i].id in old(roots)
             && builtRoots[i].merkleRoot == old(roots)[builtRoots[i].id].merkleRoot
             && builtRoots[i].attempts == old(roots)[builtRoots[i].id].attempts
    {
      var cnt := |BuiltAges(Contents())|;
      builtRoots := [];
      if cnt == 0 { return; }
      var shouldBroadcast := cnt >= cfg.minRoots || ageMs >= cfg.broadcastIntervalMs;
      if !shouldBroadcast { return; }
      if |rows| == 0 { return; }
      if outcome.Committed? {
        builtRoots := Jobs(Contents(), rows);
        assert JobIds(builtRoots) == rows;
      }
      if !outcome.RolledBack? { roots := Mark(Contents(), rows).roots; }
    }

    /** Decodes the receipt into a table of events by root value, then confirms
        every listed root that has one, together with its leaves, in one
        transaction. */
    method ConfirmRootsFromReceipt(logs: seq<EventLog>, rootIds: seq<RootId>, outcome: Outcome)
      modifies this
      ensures Contents() == Under(outcome, old(Contents()), ConfirmFromReceipt(old(Contents()), logs, rootIds))
    {
      ghost var before := Contents();
      var eventsByRoot: map<Digest, EventLog> := map[];
      for i := 0 to |logs|
        invariant Contents() == before
        invariant forall d :: d in eventsByRoot <==> EventFor(logs[..i], d).Some?
        invariant forall d | d in eventsByRoot :: eventsByRoot[d] == EventFor(logs[..i], d).value
      {
        assert logs[..i + 1][..i] == logs[..i];
        eventsByRoot := eventsByRoot[logs[i].merkleRoot := logs[i]];
      }
      assert logs[..|logs|] == logs;
      var newRoots, newLeaves := roots, leaves;
      for j := 0 to |rootIds|
        invariant Contents() == before
        invariant Tables(newRoots, newLeaves) == ConfirmFromReceipt(before, logs, rootIds[..j])
      {
        var id := rootIds[j];
        ConfirmOneMore(before, logs, rootIds, j);
        if id in newRoots && newRoots[id].merkleRoot in eventsByRoot {
          var ev := eventsByRoot[newRoots[id].merkleRoot];
          newRoots := newRoots[id := ConfirmedRow(newRoots[id], ev)];
          newLeaves := ConfirmLeaves(newLeaves, {id});
        }
      }
      assert rootIds[..|rootIds|] == rootIds;
      if !outcome.RolledBack? { roots, leaves := newRoots, newLeaves; }
    }

    /** The error path: each root of the group fails for good or goes back to
        built, until a statement raises. */
    method RecoverGroup(cfg: Config, jobs: seq<Job>, outcomes: nat -> Outcome)
      modifies this
      ensures Contents() == RecoverFrom(cfg, old(Contents()), jobs, outcomes, 0)
    {
      for i := 0 to |jobs|
        invariant RecoverFrom(cfg, Contents(), jobs, outcomes, i)
          == RecoverFrom(cfg, old(Contents()), jobs, outcomes, 0)
      {
        var job := jobs[i];
        if job.id in roots && !outcomes(i).RolledBack? {
          if job.attempts + 1 >= cfg.maxAttempts {
            roots := roots[job.id := roots[job.id].(state := Failed)];
          } else {
            roots := roots[job.id := roots[job.id].(state := Built, txHash := None)];
          }
        }
        if !outcomes(i).Committed? { return; }
      }
    }

    /** First half of reconcile: roots that were marked but have no transaction
        hash are confirmed when their event is on chain and reopened when not. */
    method ReconcileNullTx(scans: map<RootId, Option<Found>>, outcomes: RootId -> Outcome, ids: seq<RootId>)
      modifies this
      ensures Contents() == SettleNullTxs(old(Contents()), scans, outcomes, ids)
    {
      for i := 0 to |ids|
        invariant Contents() == SettleNullTxs(old(Contents()), scans, outcomes, ids[..i])
      {
        var id := ids[i];
        assert ids[..i + 1][..i] == ids[..i];
        if id in scans && id in roots && !outcomes(id).RolledBack? {
          match scans[id] {
            case Some(f) =>
              roots := roots[id := ConfirmedRow(roots[id].(txHash := Some(f.tx)), f.event)];
              leaves := ConfirmLeaves(leaves, {id});
            case None =>
              roots := roots[id := roots[id].(state := Built)];
          }
        }
      }
      assert ids[..|ids|] == ids;
    }

    /** Second half of reconcile: a successful receipt confirms, a reverted one
        returns the root to built, a missing one changes nothing. */
    method ReconcilePending(chain: Chain, fetched: set<TxHash>, outcomes: RootId -> Outcome, txs: seq<PendingTx>)
      modifies this
      ensures Contents() == SettlePendings(old(Contents()), chain, fetched, outcomes, txs)
    {
      for i := 0 to |txs|
        invariant Contents() == SettlePendings(old(Contents()), chain, fetched, outcomes, txs[..i])
      {
        var p := txs[i];
        assert txs[..i + 1][..i] == txs[..i];
        if p.tx in fetched && p.tx in chain {
          match chain[p.tx].status {
            case Succeeded(_, logs) => ConfirmRootsFromReceipt(logs, [p.id], outcomes(p.id));
            case Reverted =>
              if p.id in roots && !outcomes(p.id).RolledBack? {
                roots := roots[p.id := roots[p.id].(state := Built, txHash := None)];
              }
            case InFlight =>
          }
        }
      }
      assert txs[..|txs|] == txs;
    }
  }

  /** The error path's loop gets as far as this job's statement, and it takes effect. */
  ghost predicate Recovers(jobs: seq<Job>, outcomes: nat -> Outcome, from: nat, i: nat) {
    !outcomes(i).RolledBack? && forall j | from <= j < i :: outcomes(j).Committed?
  }

  /** What the error path amounts to: exactly the roots of the group its loop
      got to change, each by its own attempt count. */
  lemma {:induction false} RecoverFromEffect(
    cfg: Config, t: Tables, jobs: seq<Job>, outcomes: nat -> Outcome, from: nat, r: RootId)
    requires from <= |jobs| && forall i, j | 0 <= i < j < |jobs| :: jobs[i].id != jobs[j].id
    requires r in t.roots
    ensures
      var u := RecoverFrom(cfg, t, jobs, outcomes, from);
      && u.leaves == t.leaves && u.roots.Keys == t.roots.Keys
      && ((forall i | from <= i < |jobs| :: jobs[i].id != r) ==> u.roots[r] == t.roots[r])
      && (forall i | from <= i < |jobs| && jobs[i].id == r ::
            u.roots[r] ==
              if Recovers(jobs, outcomes, from, i) then RecoveredRow(cfg, t.roots[r], jobs[i]) else t.roots[r])
    decreases |jobs| - from
  {
    if from < |jobs| {
      var u := Under(outcomes(from), t, Recovered(cfg, t, jobs[from]));
      if outcomes(from).Committed? {
        RecoverFromEffect(cfg, u, jobs, outcomes, from + 1, r);
        forall i | from < i < |jobs|
          ensures Recovers(jobs, outcomes, from, i) <==> Recovers(jobs, outcomes, from + 1, i)
        {
        }
      }
    }
  }

  lemma ConfirmLeavesUnion(leaves: map<MsgId, LeafRow>, ids: set<RootId>, id: RootId)
    ensures ConfirmLeaves(ConfirmLeaves(leaves, ids), {id}) == ConfirmLeaves(leaves, ids + {id})
  {
  }

  lemma ConfirmOneMore(t: Tables, logs: seq<EventLog>, ids: seq<RootId>, j: nat)
    requires j < |ids|
    ensures
      var u, v := ConfirmFromReceipt(t, logs, ids[..j]), ConfirmFromReceipt(t, logs, ids[..j + 1]);
      var id := ids[j];
      if id in t.roots && EventFor(logs, t.roots[id].merkleRoot).Some? then
        && v.roots == u.roots[id := ConfirmedRow(u.roots[id], EventFor(logs, u.roots[id].merkleRoot).value)]
        && v.leaves == ConfirmLeaves(u.leaves, {id})
      else v == u
  {
    assert forall r :: r in ids[..j + 1] <==> r in ids[..j] || r == ids[j];
    var a, b := Evidenced(t, logs, ids[..j]), Evidenced(t, logs, ids[..j + 1]);
    if ids[j] in t.roots && EventFor(logs, t.roots[ids[j]].merkleRoot).Some? {
      assert b == a + {ids[j]};
      ConfirmLeavesUnion(t.leaves, a, ids[j]);
    } else {
      assert b == a;
    }
  }
}
