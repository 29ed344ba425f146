/** Properties of the anchoring worker over whole runs: what is final, and how
    often a root can be broadcast. */
module AnchoringHistory {
  import opened Anchoring
  import opened AnchoringSafety
  import opened MerkleCore
  import opened MerkleTables
  import opened Outcomes

  // ------------------------------------------------------------ overwriting

  /** The error path's UPDATE hits a root that is already confirmed: its WHERE
      clause names the id only. */
  predicate Overwrites(w: World, a: Action) {
    && a.RecoverOne? && !a.outcome.RolledBack? && w.pc.Recovering? && w.pc.jobs != []
    && w.pc.jobs[0].id in w.t.roots && w.t.roots[w.pc.jobs[0].id].state.Confirmed?
  }

  /** A leaf is confirmed exactly when its root is. */
  ghost predicate Agreed(t: Tables) {
    forall l | l in t.leaves && t.leaves[l].rootId.Some? && t.leaves[l].rootId.value in t.roots ::
      t.leaves[l].state.LeafConfirmed? <==> t.roots[t.leaves[l].rootId.value].state.Confirmed?
  }

  lemma ConfirmLeavesAgrees(t: Tables, u: Tables, ids: set<RootId>)
    requires Agreed(t) && u.leaves == ConfirmLeaves(t.leaves, ids) && u.roots.Keys == t.roots.Keys
    requires forall r | r in t.roots ::
      u.roots[r].state.Confirmed? <==> r in ids || t.roots[r].state.Confirmed?
    ensures Agreed(u)
  {
  }

  lemma ReceiptAgrees(t: Tables, logs: seq<EventLog>, ids: seq<RootId>)
    requires Agreed(t)
    ensures Agreed(ConfirmFromReceipt(t, logs, ids))
  {
    ConfirmLeavesAgrees(t, ConfirmFromReceipt(t, logs, ids), Evidenced(t, logs, ids));
  }

  lemma LogAgrees(t: Tables, id: RootId, tx: TxHash, ev: EventLog)
    requires Agreed(t) && id in t.roots
    ensures Agreed(ConfirmFromLog(t, id, tx, ev))
  {
    ConfirmLeavesAgrees(t, ConfirmFromLog(t, id, tx, ev), {id});
  }

  lemma SettleAgrees(k: Keccak, cfg: Config, w: World, a: Action)
    requires PcInv(cfg, w) && Enabled(k, cfg, w, a) && (a.SettleNullTx? || a.SettlePending?) && Agreed(w.t)
    ensures Agreed(Apply(k, cfg, w, a).t)
  {
    if a.SettleNullTx? {
      if w.pc.found.Some? {
        LogAgrees(w.t, w.pc.id, w.pc.found.value.tx, w.pc.found.value.event);
      }
    } else if w.chain[w.pc.pending.tx].status.Succeeded? {
      ReceiptAgrees(w.t, w.chain[w.pc.pending.tx].status.logs, [w.pc.pending.id]);
    }
  }

  lemma BuildAgrees(t: Tables, rootId: RootId, root: Digest, ids: seq<MsgId>, now: nat)
    requires Agreed(t) && LeavesOk(t) && rootId !in t.roots
    ensures Agreed(BuildRoot(t, rootId, root, ids, now))
  {
    var u := BuildRoot(t, rootId, root, ids, now);
    forall l | l in u.leaves && u.leaves[l].rootId.Some? && u.leaves[l].rootId.value in u.roots
      ensures u.leaves[l].state.LeafConfirmed? <==> u.roots[u.leaves[l].rootId.value].state.Confirmed?
    {
      assert LeafOk(t, t.leaves[l]);
    }
  }

  lemma RecoverAgrees(cfg: Config, t: Tables, job: Job)
    requires Agreed(t) && job.id in t.roots && !t.roots[job.id].state.Confirmed?
    ensures Agreed(Recovered(cfg, t, job))
  {
  }

  lemma StepAgrees(k: Keccak, cfg: Config, w: World, a: Action)
    requires PcInv(cfg, w) && LeavesOk(w.t) && Agreed(w.t) && Enabled(k, cfg, w, a) && !Overwrites(w, a)
    ensures Agreed(Apply(k, cfg, w, a).t)
  {
    if a.SettleNullTx? || a.SettlePending? {
      SettleAgrees(k, cfg, w, a);
    } else if a.Confirm? {
      ReceiptAgrees(w.t, w.chain[w.pc.tx].status.logs, JobIds(w.pc.jobs));
    } else if a.RecoverOne? {
      if !a.outcome.RolledBack? {
        assert JobKnown(w.t, w.pc.jobs[0]);
        RecoverAgrees(cfg, w.t, w.pc.jobs[0]);
      }
    } else if a.Build? {
      BuildAgrees(w.t, a.rootId, BatchRoot(k, w.t, a.ids), a.ids, a.now);
    }
  }

  /** The first leaf of the overwritten root stays confirmed while the root is
      queued again or failed. */
  lemma OverwriteUndoes(k: Keccak, cfg: Config, w: World, a: Action) returns (msg: MsgId)
    requires Inv(k, cfg, w) && Enabled(k, cfg, w, a) && Overwrites(w, a)
    ensures
      var r := w.pc.jobs[0].id;
      var v := Apply(k, cfg, w, a);
      && r in v.t.roots && v.t.roots[r].state in {Built, Failed}
      && msg in v.t.leaves && v.t.leaves[msg].rootId == Some(r) && v.t.leaves[msg].state.LeafConfirmed?
  {
    msg := FirstLeaf(k, w.t, w.pc.jobs[0].id);
    assert LeafOk(w.t, w.t.leaves[msg]);
  }

  lemma FirstLeaf(k: Keccak, t: Tables, r: RootId) returns (msg: MsgId)
    requires Placed(k, t) && r in t.roots
    ensures msg in t.leaves && t.leaves[msg].rootId == Some(r)
  {
    var ids :| RootLeaves(k, t, r, ids);
    msg := ids[0];
    assert msg in ids;
  }

  /** From any reachable world a step keeps leaves and roots in agreement
      exactly when it does not overwrite a confirmed root. */
  lemma AgreementExact(k: Keccak, cfg: Config, w: World, a: Action)
    requires Inv(k, cfg, w) && Agreed(w.t) && Enabled(k, cfg, w, a)
    ensures Agreed(Apply(k, cfg, w, a).t) <==> !Overwrites(w, a)
  {
    if Overwrites(w, a) {
      var _ := OverwriteUndoes(k, cfg, w, a);
    } else {
      StepAgrees(k, cfg, w, a);
    }
  }

  /** No step of the run overwrites a confirmed root. */
  ghost predicate NeverOverwrites(k: Keccak, cfg: Config, run: seq<Action>)
    requires After(k, cfg, run).Some?
  {
    run != [] ==>
      var prefix := run[..|run| - 1];
      NeverOverwrites(k, cfg, prefix) && !Overwrites(After(k, cfg, prefix).value, run[|run| - 1])
  }

  /** Leaves and roots agreed in every world of the run. */
  ghost predicate AgreedThroughout(k: Keccak, cfg: Config, run: seq<Action>)
    requires After(k, cfg, run).Some?
  {
    && Agreed(After(k, cfg, run).value.t)
    && (run != [] ==> AgreedThroughout(k, cfg, run[..|run| - 1]))
  }

  /** Leaves and roots agree throughout a run exactly when no step of it
      overwrites a confirmed root. */
  lemma {:induction false} RunAgreesIff(k: Keccak, cfg: Config, run: seq<Action>)
    requires After(k, cfg, run).Some?
    ensures AgreedThroughout(k, cfg, run) <==> NeverOverwrites(k, cfg, run)
  {
    if run != [] {
      var prefix := run[..|run| - 1];
      RunAgreesIff(k, cfg, prefix);
      RunKeepsInv(k, cfg, prefix);
      if AgreedThroughout(k, cfg, prefix) {
        AgreementExact(k, cfg, After(k, cfg, prefix).value, run[|run| - 1]);
      }
    }
  }

  // --------------------------------------------- where overwriting comes from

  /** A confirmation that takes effect although its COMMIT raises. */
  predicate Clean(a: Action) {
    a != Confirm(CommittedButRaised)
  }

  ghost predicate CleanRun(run: seq<Action>) {
    forall a | a in run :: Clean(a)
  }

  ghost predicate RecoveringOpen(w: World) {
    w.pc.Recovering? ==> forall j | j in w.pc.jobs :: JobOpen(w.t, j)
  }

  lemma GroupStaysOpen(cfg: Config, w: World, outcome: Outcome)
    requires PcInv(cfg, w) && w.pc.Sent?
    ensures
      var u := Under(outcome, w.t, SetTxHash(w.t, JobIds(w.pc.jobs), w.pc.tx));
      forall j | j in w.pc.jobs :: JobOpen(u, j)
  {
    PersistedJobs(cfg, w.t, w.pc.jobs, w.pc.tx);
    HeldJobsOpen(cfg, w.t, w.pc.jobs, None);
    HeldJobsOpen(cfg, SetTxHash(w.t, JobIds(w.pc.jobs), w.pc.tx), w.pc.jobs, Some(w.pc.tx));
  }

  lemma RecoveredStayOpen(cfg: Config, w: World)
    requires PcInv(cfg, w) && w.pc.Recovering? && w.pc.jobs != [] && RecoveringOpen(w)
    ensures RecoveringOpen(World(Recovered(cfg, w.t, w.pc.jobs[0]), w.chain, Recovering(w.pc.jobs[1..])))
  {
    var jobs := w.pc.jobs;
    forall j | j in jobs[1..]
      ensures JobOpen(Recovered(cfg, w.t, jobs[0]), j)
    {
      var i :| 0 < i < |jobs| && jobs[i] == j;
      assert j.id != jobs[0].id && JobOpen(w.t, j);
    }
  }

  lemma GiveUpStaysOpen(k: Keccak, cfg: Config, w: World, a: Action)
    requires PcInv(cfg, w) && Enabled(k, cfg, w, a)
    requires a.Send? || a.SendFailed? || a.WaitFailed? || (a.Confirm? && a.outcome.RolledBack?)
    ensures RecoveringOpen(Apply(k, cfg, w, a))
  {
    HeldJobsOpen(cfg, w.t, w.pc.jobs, if w.pc.Marked? then None else Some(w.pc.tx));
  }

  lemma PersistStaysOpen(k: Keccak, cfg: Config, w: World, o: Outcome)
    requires PcInv(cfg, w) && Enabled(k, cfg, w, PersistHash(o))
    ensures RecoveringOpen(Apply(k, cfg, w, PersistHash(o)))
  {
    GroupStaysOpen(cfg, w, o);
  }

  lemma OtherStaysOpen(k: Keccak, cfg: Config, w: World, a: Action)
    requires Enabled(k, cfg, w, a) && RecoveringOpen(w)
    requires !(a.Send? || a.SendFailed? || a.WaitFailed? || a.PersistHash? || a.RecoverOne?)
    requires a.Confirm? ==> a.outcome.Committed?
    ensures RecoveringOpen(Apply(k, cfg, w, a))
  {
  }

  lemma CleanStepStaysOpen(k: Keccak, cfg: Config, w: World, a: Action)
    requires PcInv(cfg, w) && Enabled(k, cfg, w, a) && RecoveringOpen(w) && Clean(a)
    ensures RecoveringOpen(Apply(k, cfg, w, a))
  {
    if a.PersistHash? {
      PersistStaysOpen(k, cfg, w, a.outcome);
    } else if a.RecoverOne? {
      RecoveredStayOpen(cfg, w);
    } else if a.Send? || a.SendFailed? || a.WaitFailed? || (a.Confirm? && a.outcome.RolledBack?) {
      GiveUpStaysOpen(k, cfg, w, a);
    } else {
      OtherStaysOpen(k, cfg, w, a);
    }
  }

  lemma OpenIsNotOverwritten(w: World, a: Action)
    requires RecoveringOpen(w)
    ensures !Overwrites(w, a)
  {
    if w.pc.Recovering? && w.pc.jobs != [] {
      assert JobOpen(w.t, w.pc.jobs[0]);
    }
  }

  /** Only a confirmation whose COMMIT takes effect and raises can lead to an
      overwriting step. */
  lemma {:induction false} CleanRunNeverOverwrites(k: Keccak, cfg: Config, run: seq<Action>)
    requires CleanRun(run) && After(k, cfg, run).Some?
    ensures RecoveringOpen(After(k, cfg, run).value) && NeverOverwrites(k, cfg, run)
  {
    if run != [] {
      var prefix, a := run[..|run| - 1], run[|run| - 1];
      CleanRunNeverOverwrites(k, cfg, prefix);
      RunKeepsInv(k, cfg, prefix);
      OpenIsNotOverwritten(After(k, cfg, prefix).value, a);
      CleanStepStaysOpen(k, cfg, After(k, cfg, prefix).value, a);
    }
  }

  // --------------------------------------------------------------- finality

  lemma SettleKeepsConfirmed(cfg: Config, w: World, a: Action, k: Keccak, r: RootId)
    requires PcInv(cfg, w) && Enabled(k, cfg, w, a) && (a.SettleNullTx? || a.SettlePending?)
    requires r in w.t.roots && w.t.roots[r].state.Confirmed?
    ensures r in Apply(k, cfg, w, a).t.roots && Apply(k, cfg, w, a).t.roots[r] == w.t.roots[r]
  {
  }

  lemma GroupIsOpen(cfg: Config, t: Tables, jobs: seq<Job>, tx: Option<TxHash>)
    requires JobsHeld(cfg, t, jobs, tx)
    ensures forall r | r in JobIds(jobs) :: r in t.roots && t.roots[r].state.Broadcasting?
  {
    forall r | r in JobIds(jobs)
      ensures r in t.roots && t.roots[r].state.Broadcasting?
    {
      var i := JobOfId(jobs, r);
      assert JobOpen(t, jobs[i]);
    }
  }

  /** The step overwrites this root. */
  predicate OverwritesRoot(w: World, a: Action, r: RootId) {
    Overwrites(w, a) && w.pc.jobs[0].id == r
  }

  /** A step leaves a confirmed root's row alone exactly when it does not overwrite it. */
  lemma StepKeepsConfirmed(k: Keccak, cfg: Config, w: World, a: Action, r: RootId)
    requires PcInv(cfg, w) && Enabled(k, cfg, w, a)
    requires r in w.t.roots && w.t.roots[r].state.Confirmed?
    ensures r in Apply(k, cfg, w, a).t.roots
    ensures Apply(k, cfg, w, a).t.roots[r] == w.t.roots[r] <==> !OverwritesRoot(w, a, r)
  {
    if a.SettleNullTx? || a.SettlePending? {
      SettleKeepsConfirmed(cfg, w, a, k, r);
    } else if a.PersistHash? {
      GroupIsOpen(cfg, w.t, w.pc.jobs, None);
    } else if a.Confirm? {
      GroupIsOpen(cfg, w.t, w.pc.jobs, Some(w.pc.tx));
    }
  }

  /** No step of the run from the given position on overwrites this root. */
  ghost predicate Spared(k: Keccak, cfg: Config, run: seq<Action>, from: nat, r: RootId)
    requires After(k, cfg, run).Some?
  {
    |run| > from ==>
      var prefix := run[..|run| - 1];
      Spared(k, cfg, prefix, from, r) && !OverwritesRoot(After(k, cfg, prefix).value, run[|run| - 1], r)
  }

  lemma {:induction false} NeverOverwritesSpares(k: Keccak, cfg: Config, run: seq<Action>, from: nat, r: RootId)
    requires After(k, cfg, run).Some? && NeverOverwrites(k, cfg, run)
    ensures Spared(k, cfg, run, from, r)
  {
    if |run| > from {
      NeverOverwritesSpares(k, cfg, run[..|run| - 1], from, r);
    }
  }

  lemma LastStepKeepsConfirmed(k: Keccak, cfg: Config, run: seq<Action>, r: RootId)
    requires run != [] && After(k, cfg, run).Some?
    requires
      var w := After(k, cfg, run[..|run| - 1]).value;
      r in w.t.roots && w.t.roots[r].state.Confirmed? && !OverwritesRoot(w, run[|run| - 1], r)
    ensures r in After(k, cfg, run).value.t.roots
    ensures After(k, cfg, run).value.t.roots[r] == After(k, cfg, run[..|run| - 1]).value.t.roots[r]
  {
    var prefix := run[..|run| - 1];
    RunKeepsInv(k, cfg, prefix);
    StepKeepsConfirmed(k, cfg, After(k, cfg, prefix).value, run[|run| - 1], r);
  }

  /** Until it is marked again, a root that is built or failed stays so. */
  lemma ClosedRootStays(k: Keccak, cfg: Config, w: World, a: Action, r: RootId)
    requires PcInv(cfg, w) && Enabled(k, cfg, w, a)
    requires r in w.t.roots && w.t.roots[r].state in {Built, Failed}
    ensures r in Apply(k, cfg, w, a).t.roots
    ensures Marks(a, r) || Apply(k, cfg, w, a).t.roots[r].state in {Built, Failed}
  {
    if a.PersistHash? {
      GroupIsOpen(cfg, w.t, w.pc.jobs, None);
    } else if a.Confirm? {
      GroupIsOpen(cfg, w.t, w.pc.jobs, Some(w.pc.tx));
    } else if a.RecoverOne? {
      assert JobKnown(w.t, w.pc.jobs[0]);
    }
  }

  /** More attempts than the row, or as many while built or failed. */
  predicate MovedOn(row: RootRow, later: RootRow) {
    later.attempts > row.attempts || (later.attempts == row.attempts && later.state in {Built, Failed})
  }

  lemma StepMovesOn(k: Keccak, cfg: Config, w: World, a: Action, r: RootId, row: RootRow)
    requires PcInv(cfg, w) && Enabled(k, cfg, w, a)
    requires r in w.t.roots && MovedOn(row, w.t.roots[r])
    ensures r in Apply(k, cfg, w, a).t.roots && MovedOn(row, Apply(k, cfg, w, a).t.roots[r])
  {
    StepProgress(k, cfg, w, a, r);
    if w.t.roots[r].state in {Built, Failed} {
      ClosedRootStays(k, cfg, w, a, r);
    }
  }

  lemma LastStepMovesOn(k: Keccak, cfg: Config, run: seq<Action>, r: RootId, row: RootRow)
    requires run != [] && After(k, cfg, run).Some?
    requires
      var w := After(k, cfg, run[..|run| - 1]).value;
      r in w.t.roots && MovedOn(row, w.t.roots[r])
    ensures r in After(k, cfg, run).value.t.roots && MovedOn(row, After(k, cfg, run).value.t.roots[r])
  {
    RunKeepsInv(k, cfg, run[..|run| - 1]);
    StepMovesOn(k, cfg, After(k, cfg, run[..|run| - 1]).value, run[|run| - 1], r, row);
  }

  lemma LastStepOverwrites(k: Keccak, cfg: Config, run: seq<Action>, r: RootId)
    requires run != [] && After(k, cfg, run).Some?
    requires
      var w := After(k, cfg, run[..|run| - 1]).value;
      r in w.t.roots && w.t.roots[r].state.Confirmed? && OverwritesRoot(w, run[|run| - 1], r)
    ensures r in After(k, cfg, run).value.t.roots
    ensures MovedOn(After(k, cfg, run[..|run| - 1]).value.t.roots[r], After(k, cfg, run).value.t.roots[r])
  {
  }

  /** What became of a row confirmed at the given position: kept, if no later
      step overwrote it, and otherwise never seen again. */
  ghost predicate KeptIffSpared(k: Keccak, cfg: Config, run: seq<Action>, from: nat, r: RootId, row: RootRow)
    requires After(k, cfg, run).Some?
  {
    && r in After(k, cfg, run).value.t.roots
    && if Spared(k, cfg, run, from, r) then After(k, cfg, run).value.t.roots[r] == row
       else MovedOn(row, After(k, cfg, run).value.t.roots[r])
  }

  lemma LastStepKeepsFate(k: Keccak, cfg: Config, run: seq<Action>, from: nat, r: RootId, row: RootRow)
    requires |run| > from && After(k, cfg, run).Some? && row.state.Confirmed?
    requires KeptIffSpared(k, cfg, run[..|run| - 1], from, r, row)
    ensures KeptIffSpared(k, cfg, run, from, r, row)
  {
    var prefix := run[..|run| - 1];
    if !Spared(k, cfg, prefix, from, r) {
      LastStepMovesOn(k, cfg, run, r, row);
    } else if OverwritesRoot(After(k, cfg, prefix).value, run[|run| - 1], r) {
      LastStepOverwrites(k, cfg, run, r);
    } else {
      LastStepKeepsConfirmed(k, cfg, run, r);
    }
  }

  lemma {:induction false} ConfirmedFate(k: Keccak, cfg: Config, run: seq<Action>, from: nat, r: RootId, row: RootRow)
    requires from <= |run| && After(k, cfg, run).Some? && After(k, cfg, run[..from]).Some?
    requires r in After(k, cfg, run[..from]).value.t.roots && After(k, cfg, run[..from]).value.t.roots[r] == row
    requires row.state.Confirmed?
    ensures KeptIffSpared(k, cfg, run, from, r, row)
  {
    if |run| == from {
      assert run[..from] == run;
    } else {
      assert run[..|run| - 1][..from] == run[..from];
      ConfirmedFate(k, cfg, run[..|run| - 1], from, r, row);
      LastStepKeepsFate(k, cfg, run, from, r, row);
    }
  }

  /** A root's confirmation, with its transaction, time and log index, is final
      exactly as long as no later step overwrites it. */
  lemma ConfirmedIsFinalIff(k: Keccak, cfg: Config, run: seq<Action>, from: nat, r: RootId)
    requires from <= |run| && After(k, cfg, run).Some? && After(k, cfg, run[..from]).Some?
    requires r in After(k, cfg, run[..from]).value.t.roots
    requires After(k, cfg, run[..from]).value.t.roots[r].state.Confirmed?
    ensures r in After(k, cfg, run).value.t.roots
    ensures After(k, cfg, run).value.t.roots[r] == After(k, cfg, run[..from]).value.t.roots[r]
      <==> Spared(k, cfg, run, from, r)
  {
    ConfirmedFate(k, cfg, run, from, r, After(k, cfg, run[..from]).value.t.roots[r]);
  }

  /** In runs where every raised COMMIT had no effect, every confirmation is final. */
  lemma ConfirmedIsFinalWhenClean(k: Keccak, cfg: Config, run: seq<Action>, from: nat, r: RootId)
    requires CleanRun(run) && from <= |run| && After(k, cfg, run).Some? && After(k, cfg, run[..from]).Some?
    requires r in After(k, cfg, run[..from]).value.t.roots
    requires After(k, cfg, run[..from]).value.t.roots[r].state.Confirmed?
    ensures r in After(k, cfg, run).value.t.roots
    ensures After(k, cfg, run).value.t.roots[r] == After(k, cfg, run[..from]).value.t.roots[r]
  {
    CleanRunNeverOverwrites(k, cfg, run);
    NeverOverwritesSpares(k, cfg, run, from, r);
    ConfirmedIsFinalIff(k, cfg, run, from, r);
  }

  /** Once a leaf has a root it keeps that root, its index and its hash. */
  ghost predicate SamePlace(t: Tables, u: Tables, l: MsgId) {
    && l in t.leaves && l in u.leaves
    && u.leaves[l].hash == t.leaves[l].hash && u.leaves[l].rootId == t.leaves[l].rootId
    && u.leaves[l].leafIndex == t.leaves[l].leafIndex
  }

  lemma StepKeepsPlace(k: Keccak, cfg: Config, w: World, a: Action, l: MsgId)
    requires LeavesOk(w.t) && Enabled(k, cfg, w, a) && l in w.t.leaves && w.t.leaves[l].rootId.Some?
    ensures SamePlace(w.t, Apply(k, cfg, w, a).t, l)
  {
    assert LeafOk(w.t, w.t.leaves[l]);
  }

  /** No leaf ever moves to a second root. */
  lemma {:induction false} PlaceIsFinal(k: Keccak, cfg: Config, run: seq<Action>, more: seq<Action>, l: MsgId)
    requires After(k, cfg, run).Some? && After(k, cfg, run + more).Some?
    requires l in After(k, cfg, run).value.t.leaves && After(k, cfg, run).value.t.leaves[l].rootId.Some?
    ensures SamePlace(After(k, cfg, run).value.t, After(k, cfg, run + more).value.t, l)
    decreases |more|
  {
    if more == [] {
      assert run + more == run;
    } else {
      var less := more[..|more| - 1];
      assert (run + more)[..|run + more| - 1] == run + less;
      PlaceIsFinal(k, cfg, run, less, l);
      RunKeepsInv(k, cfg, run + less);
      StepKeepsPlace(k, cfg, After(k, cfg, run + less).value, more[|more| - 1], l);
    }
  }

  // ----------------------------------------------------------------- attempts

  predicate Marks(a: Action, r: RootId) {
    a.MarkGroup? && !a.outcome.RolledBack? && r in a.ids
  }

  /** How often a root was marked for broadcast. */
  function Broadcasts(run: seq<Action>, r: RootId): nat {
    if run == [] then 0 else Broadcasts(run[..|run| - 1], r) + if Marks(run[|run| - 1], r) then 1 else 0
  }

  /** reconcile takes the root from broadcasting back to built. */
  ghost predicate SendsBack(k: Keccak, cfg: Config, w: World, a: Action, r: RootId)
    requires Enabled(k, cfg, w, a)
  {
    && (a.SettleNullTx? || a.SettlePending?)
    && r in w.t.roots && w.t.roots[r].state.Broadcasting?
    && r in Apply(k, cfg, w, a).t.roots && Apply(k, cfg, w, a).t.roots[r].state.Built?
  }

  /** How often reconcile sent a root back. */
  ghost function Returns(k: Keccak, cfg: Config, run: seq<Action>, r: RootId): nat
    requires After(k, cfg, run).Some?
  {
    if run == [] then 0
    else
      var prefix := run[..|run| - 1];
      Returns(k, cfg, prefix, r)
      + if SendsBack(k, cfg, After(k, cfg, prefix).value, run[|run| - 1], r) then 1 else 0
  }

  /** A root is broadcast at least once even when the limit is set lower. */
  function Limit(cfg: Config): nat {
    if cfg.maxAttempts < 1 then 1 else cfg.maxAttempts
  }

  /** Attempts beyond what the limit leaves open in the row's state. */
  function Excess(cfg: Config, row: RootRow): int {
    row.attempts - if row.state.Built? then Limit(cfg) - 1 else Limit(cfg)
  }

  ghost predicate RowProgress(cfg: Config, before: RootRow, after: RootRow, marked: bool, sentBack: bool) {
    && after.attempts == before.attempts + (if marked then 1 else 0)
    && (Excess(cfg, after) <= Excess(cfg, before) + (if sentBack then 1 else 0) || Excess(cfg, after) <= 0)
    && (after.state.Failed? ==> before.state.Failed? || after.attempts >= cfg.maxAttempts)
  }

  lemma SettleProgress(k: Keccak, cfg: Config, w: World, a: Action, r: RootId)
    requires PcInv(cfg, w) && Enabled(k, cfg, w, a) && r in w.t.roots
    requires a.SettleNullTx? || a.SettlePending?
    ensures r in Apply(k, cfg, w, a).t.roots
    ensures RowProgress(cfg, w.t.roots[r], Apply(k, cfg, w, a).t.roots[r], false, SendsBack(k, cfg, w, a, r))
  {
  }

  lemma ConfirmProgress(k: Keccak, cfg: Config, w: World, a: Action, r: RootId)
    requires PcInv(cfg, w) && Enabled(k, cfg, w, a) && r in w.t.roots
    requires a.Confirm? || a.PersistHash?
    ensures r in Apply(k, cfg, w, a).t.roots
    ensures RowProgress(cfg, w.t.roots[r], Apply(k, cfg, w, a).t.roots[r], false, false)
  {
    if r in JobIds(w.pc.jobs) {
      var i := JobOfId(w.pc.jobs, r);
      assert JobOpen(w.t, w.pc.jobs[i]);
    }
  }

  lemma RecoverProgress(k: Keccak, cfg: Config, w: World, o: Outcome, r: RootId)
    requires PcInv(cfg, w) && Enabled(k, cfg, w, RecoverOne(o)) && r in w.t.roots
    ensures r in Apply(k, cfg, w, RecoverOne(o)).t.roots
    ensures RowProgress(cfg, w.t.roots[r], Apply(k, cfg, w, RecoverOne(o)).t.roots[r], false, false)
  {
    assert JobKnown(w.t, w.pc.jobs[0]);
  }

  lemma StepProgress(k: Keccak, cfg: Config, w: World, a: Action, r: RootId)
    requires PcInv(cfg, w) && Enabled(k, cfg, w, a) && r in w.t.roots
    ensures r in Apply(k, cfg, w, a).t.roots
    ensures RowProgress(cfg, w.t.roots[r], Apply(k, cfg, w, a).t.roots[r], Marks(a, r), SendsBack(k, cfg, w, a, r))
  {
    if a.SettleNullTx? || a.SettlePending? {
      SettleProgress(k, cfg, w, a, r);
    } else if a.Confirm? || a.PersistHash? {
      ConfirmProgress(k, cfg, w, a, r);
    } else if a.RecoverOne? {
      RecoverProgress(k, cfg, w, a.outcome, r);
    }
  }

  lemma NewRow(k: Keccak, cfg: Config, w: World, a: Action, r: RootId)
    requires Enabled(k, cfg, w, a) && r !in w.t.roots
    ensures !Marks(a, r) && !SendsBack(k, cfg, w, a, r)
    ensures r in Apply(k, cfg, w, a).t.roots ==>
      Apply(k, cfg, w, a).t.roots[r].attempts == 0 && Apply(k, cfg, w, a).t.roots[r].state.Built?
  {
  }

  ghost predicate AttemptsAccounted(k: Keccak, cfg: Config, run: seq<Action>, r: RootId)
    requires After(k, cfg, run).Some?
  {
    var t := After(k, cfg, run).value.t;
    if r in t.roots then
      && t.roots[r].attempts == Broadcasts(run, r)
      && Excess(cfg, t.roots[r]) <= Returns(k, cfg, run, r)
      && (t.roots[r].state.Failed? ==> t.roots[r].attempts >= cfg.maxAttempts)
    else Broadcasts(run, r) == 0
  }

  /** In every run a root's attempts count its broadcasts and never exceed the
      limit by more than the number of times reconcile sent it back; a failed
      root has used up the limit. */
  lemma {:induction false} AttemptsBounded(k: Keccak, cfg: Config, run: seq<Action>, r: RootId)
    requires After(k, cfg, run).Some?
    ensures AttemptsAccounted(k, cfg, run, r)
  {
    if run != [] {
      var prefix, a := run[..|run| - 1], run[|run| - 1];
      var w := After(k, cfg, prefix).value;
      AttemptsBounded(k, cfg, prefix, r);
      RunKeepsInv(k, cfg, prefix);
      if r in w.t.roots {
        StepProgress(k, cfg, w, a, r);
      } else {
        NewRow(k, cfg, w, a, r);
      }
    }
  }

  /** How often the worker crashed. */
  function Crashes(run: seq<Action>): nat {
    if run == [] then 0 else Crashes(run[..|run| - 1]) + if run[|run| - 1].Crash? then 1 else 0
  }

  /** The worker has not finished its reconcile. */
  predicate StartingUp(pc: Pc) {
    pc.Stopped? || pc.ScanNullTx? || pc.NullTxSeen? || pc.ScanPendingTx? || pc.ReceiptSeen?
  }

  /** Whether a reconcile under way may still send the root back. */
  function Due(w: World, r: RootId): nat {
    if StartingUp(w.pc) && r in w.t.roots && w.t.roots[r].state.Broadcasting? then 1 else 0
  }

  lemma SettleSpendsDue(k: Keccak, cfg: Config, w: World, a: Action, r: RootId)
    requires PcInv(cfg, w) && Enabled(k, cfg, w, a) && (a.SettleNullTx? || a.SettlePending?)
    ensures Due(Apply(k, cfg, w, a), r) + (if SendsBack(k, cfg, w, a, r) then 1 else 0) <= Due(w, r)
  {
  }

  lemma StepSpendsDue(k: Keccak, cfg: Config, w: World, a: Action, r: RootId)
    requires PcInv(cfg, w) && Enabled(k, cfg, w, a)
    ensures Due(Apply(k, cfg, w, a), r) + (if SendsBack(k, cfg, w, a, r) then 1 else 0)
      <= Due(w, r) + if a.Crash? then 1 else 0
  {
    if a.SettleNullTx? || a.SettlePending? {
      SettleSpendsDue(k, cfg, w, a, r);
    }
  }

  /** Each restart returns a root at most once. */
  lemma {:induction false} ReturnsBounded(k: Keccak, cfg: Config, run: seq<Action>, r: RootId)
    requires After(k, cfg, run).Some?
    ensures Returns(k, cfg, run, r) + Due(After(k, cfg, run).value, r) <= Crashes(run)
  {
    if run != [] {
      var prefix := run[..|run| - 1];
      ReturnsBounded(k, cfg, prefix, r);
      RunKeepsInv(k, cfg, prefix);
      StepSpendsDue(k, cfg, After(k, cfg, prefix).value, run[|run| - 1], r);
    }
  }

  /** In every run a root is broadcast at most the configured number of times
      plus once for each crash. */
  lemma BroadcastsBounded(k: Keccak, cfg: Config, run: seq<Action>, r: RootId)
    requires After(k, cfg, run).Some?
    ensures Broadcasts(run, r) <= Limit(cfg) + Crashes(run)
  {
    AttemptsBounded(k, cfg, run, r);
    ReturnsBounded(k, cfg, run, r);
  }

  // -------------------------------------------------- when the limit holds

  /** The row has used no more than the limit, and less while it waits for a broadcast. */
  predicate WithinLimit(cfg: Config, row: RootRow) {
    row.attempts <= Limit(cfg) && (row.state.Built? ==> row.attempts < Limit(cfg))
  }

  ghost predicate WithinLimits(cfg: Config, t: Tables) {
    forall r | r in t.roots :: WithinLimit(cfg, t.roots[r])
  }

  /** reconcile returns a root to built that has no attempt left: its statement
      does not look at attempts. */
  predicate ReturnsSpent(cfg: Config, w: World, a: Action) {
    || (a.SettleNullTx? && !a.outcome.RolledBack? && w.pc.NullTxSeen? && w.pc.found.None?
        && w.pc.id in w.t.roots && w.t.roots[w.pc.id].attempts >= Limit(cfg))
    || (a.SettlePending? && !a.outcome.RolledBack? && w.pc.ReceiptSeen?
        && w.pc.pending.tx in w.chain && w.chain[w.pc.pending.tx].status.Reverted?
        && w.pc.pending.id in w.t.roots && w.t.roots[w.pc.pending.id].attempts >= Limit(cfg))
  }

  lemma SpentReturnExceeds(k: Keccak, cfg: Config, w: World, a: Action)
    requires PcInv(cfg, w) && Enabled(k, cfg, w, a) && ReturnsSpent(cfg, w, a)
    ensures !WithinLimits(cfg, Apply(k, cfg, w, a).t)
  {
    var r := if a.SettleNullTx? then w.pc.id else w.pc.pending.id;
    assert !WithinLimit(cfg, Apply(k, cfg, w, a).t.roots[r]);
  }

  lemma SettleStaysWithin(k: Keccak, cfg: Config, w: World, a: Action, r: RootId)
    requires PcInv(cfg, w) && Enabled(k, cfg, w, a) && (a.SettleNullTx? || a.SettlePending?)
    requires r in w.t.roots && WithinLimit(cfg, w.t.roots[r]) && !ReturnsSpent(cfg, w, a)
    ensures r in Apply(k, cfg, w, a).t.roots && WithinLimit(cfg, Apply(k, cfg, w, a).t.roots[r])
  {
  }

  lemma RowStaysWithin(k: Keccak, cfg: Config, w: World, a: Action, r: RootId)
    requires PcInv(cfg, w) && Enabled(k, cfg, w, a)
    requires r in w.t.roots && WithinLimit(cfg, w.t.roots[r]) && !ReturnsSpent(cfg, w, a)
    ensures r in Apply(k, cfg, w, a).t.roots && WithinLimit(cfg, Apply(k, cfg, w, a).t.roots[r])
  {
    if a.SettleNullTx? || a.SettlePending? {
      SettleStaysWithin(k, cfg, w, a, r);
    } else {
      StepProgress(k, cfg, w, a, r);
    }
  }

  /** From any reachable world within the limit a step stays within it exactly
      when it is not reconcile returning a root with no attempt left. */
  lemma LimitExact(k: Keccak, cfg: Config, w: World, a: Action)
    requires PcInv(cfg, w) && Enabled(k, cfg, w, a) && WithinLimits(cfg, w.t)
    ensures WithinLimits(cfg, Apply(k, cfg, w, a).t) <==> !ReturnsSpent(cfg, w, a)
  {
    if ReturnsSpent(cfg, w, a) {
      SpentReturnExceeds(k, cfg, w, a);
    } else {
      forall r | r in Apply(k, cfg, w, a).t.roots
        ensures WithinLimit(cfg, Apply(k, cfg, w, a).t.roots[r])
      {
        if r in w.t.roots {
          RowStaysWithin(k, cfg, w, a, r);
        } else {
          NewRow(k, cfg, w, a, r);
        }
      }
    }
  }

  ghost predicate WithinThroughout(k: Keccak, cfg: Config, run: seq<Action>)
    requires After(k, cfg, run).Some?
  {
    && WithinLimits(cfg, After(k, cfg, run).value.t)
    && (run != [] ==> WithinThroughout(k, cfg, run[..|run| - 1]))
  }

  ghost predicate NeverReturnsSpent(k: Keccak, cfg: Config, run: seq<Action>)
    requires After(k, cfg, run).Some?
  {
    run != [] ==>
      var prefix := run[..|run| - 1];
      NeverReturnsSpent(k, cfg, prefix) && !ReturnsSpent(cfg, After(k, cfg, prefix).value, run[|run| - 1])
  }

  /** Attempts stay within the limit throughout a run exactly when reconcile
      never returns a root with no attempt left. */
  lemma {:induction false} LimitHoldsIff(k: Keccak, cfg: Config, run: seq<Action>)
    requires After(k, cfg, run).Some?
    ensures WithinThroughout(k, cfg, run) <==> NeverReturnsSpent(k, cfg, run)
  {
    if run != [] {
      var prefix := run[..|run| - 1];
      LimitHoldsIff(k, cfg, prefix);
      RunKeepsInv(k, cfg, prefix);
      if WithinThroughout(k, cfg, prefix) {
        LimitExact(k, cfg, After(k, cfg, prefix).value, run[|run| - 1]);
      }
    }
  }

  ghost predicate CrashFree(run: seq<Action>) {
    forall a | a in run :: !a.Crash?
  }

  lemma {:induction false} NoCrashes(run: seq<Action>)
    requires CrashFree(run)
    ensures Crashes(run) == 0
  {
    if run != [] {
      assert run[|run| - 1] in run;
      NoCrashes(run[..|run| - 1]);
    }
  }

  lemma NoReturnsWithoutCrash(k: Keccak, cfg: Config, run: seq<Action>, r: RootId)
    requires CrashFree(run) && After(k, cfg, run).Some?
    ensures Returns(k, cfg, run, r) == 0
  {
    NoCrashes(run);
    ReturnsBounded(k, cfg, run, r);
  }

  /** Without crashes a root's retries end within the limit. */
  lemma RetriesEnd(k: Keccak, cfg: Config, run: seq<Action>, r: RootId)
    requires CrashFree(run) && After(k, cfg, run).Some?
    ensures Broadcasts(run, r) <= Limit(cfg)
  {
    NoCrashes(run);
    BroadcastsBounded(k, cfg, run, r);
  }
}
