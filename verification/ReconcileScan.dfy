/** The scan reconcile starts from: what queryFilterChunked finds for a root is
    an answer the state machine allows. */
module ReconcileScan {
  import opened Anchoring
  import opened LogScan
  import opened MerkleCore
  import opened Outcomes

  /** The log the node reports for an event of a successful transaction. */
  ghost predicate Reports(chain: Chain, root: Digest, log: Log, f: Found) {
    && f.tx in chain && chain[f.tx].status.Succeeded? && f.event in chain[f.tx].status.logs
    && f.event.merkleRoot == root && log == Log(chain[f.tx].status.block, f.tx, f.event.index)
  }

  /** logs are all the logs on chain that match the filter for the root. */
  ghost predicate LogsOfRoot(chain: Chain, root: Digest, logs: seq<Log>) {
    && Ordered(logs)
    && (forall log | log in logs :: exists f :: Reports(chain, root, log, f))
    && (forall f: Found | f.tx in chain && chain[f.tx].status.Succeeded? && f.event in chain[f.tx].status.logs
          && f.event.merkleRoot == root ::
          Log(chain[f.tx].status.block, f.tx, f.event.index) in logs)
  }

  lemma {:induction false} FilterMembers(logs: seq<Log>, lo: int, hi: int, log: Log)
    requires log in QueryFilter(logs, lo, hi)
    ensures log in logs && InRange(log, lo, hi)
  {
    if logs != [] && !(InRange(logs[0], lo, hi) && log == logs[0]) {
      FilterMembers(logs[1..], lo, hi, log);
    }
  }

  lemma EventInRange(cfg: Config, chain: Chain, root: Digest, logs: seq<Log>, latest: nat, f: Found)
    requires LogsOfRoot(chain, root, logs) && forall log | log in logs :: log.block <= latest
    requires OnChain(cfg, chain, f) && f.event.merkleRoot == root
    ensures !NoneIn(logs, cfg.deployBlock, latest)
  {
    var log := Log(chain[f.tx].status.block, f.tx, f.event.index);
    var i :| 0 <= i < |logs| && logs[i] == log;
    assert InRange(logs[i], cfg.deployBlock, latest);
  }

  lemma NoEventUnlessInRange(cfg: Config, chain: Chain, root: Digest, logs: seq<Log>, latest: nat)
    requires LogsOfRoot(chain, root, logs) && forall log | log in logs :: log.block <= latest
    ensures NoneIn(logs, cfg.deployBlock, latest) ==> ScanAnswer(cfg, chain, root, None)
  {
    forall f | OnChain(cfg, chain, f) && f.event.merkleRoot == root
      ensures !NoneIn(logs, cfg.deployBlock, latest)
    {
      EventInRange(cfg, chain, root, logs, latest, f);
    }
  }

  /** latest is the block number read before the scan; no later block matters
      to it. The first log found, or its absence, is one of the answers the
      state machine's scan step takes. */
  method ScanForRoot(cfg: Config, chain: Chain, root: Digest, logs: seq<Log>, latest: nat)
    returns (first: Option<Log>, ghost answer: Option<Found>)
    requires LogsOfRoot(chain, root, logs) && forall log | log in logs :: log.block <= latest
    ensures ScanAnswer(cfg, chain, root, answer)
    ensures first.Some? <==> answer.Some?
    ensures first.Some? ==> first.value in logs && Reports(chain, root, first.value, answer.value)
    ensures first.None? <==> forall f :: OnChain(cfg, chain, f) ==> f.event.merkleRoot != root
  {
    var found, calls := QueryFilterChunked(logs, cfg.deployBlock, latest);
    if |found| > 0 {
      first := Some(found[0]);
      assert found[0] == QueryFilter(logs, cfg.deployBlock, latest)[0];
      FilterMembers(logs, cfg.deployBlock, latest, found[0]);
      ghost var f :| Reports(chain, root, found[0], f);
      answer := Some(f);
      assert OnChain(cfg, chain, f);
    } else {
      first, answer := None, None;
      NoEventUnlessInRange(cfg, chain, root, logs, latest);
    }
  }
}
