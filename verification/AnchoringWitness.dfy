/** Concrete runs: one overwrites a confirmed root, the others take a root past
    its attempt limit. */
module AnchoringWitness {
  import opened Anchoring
  import opened AnchoringHistory
  import opened MerkleCore
  import opened MerkleTables
  import opened Outcomes

  /** One leaf per batch and one root per transaction, sent by the contract's
      owner; the attempt limit is free. */
  predicate Small(cfg: Config) {
    cfg == Config(1, 0, 1, 0, 1, cfg.maxAttempts, 0, 9, 9)
  }

  const CFG := Config(1, 0, 1, 0, 1, 5, 0, 9, 9)

  function OneLeaf(h: Digest, root: Option<RootId>, index: Option<nat>, state: LeafState): map<MsgId, LeafRow> {
    map[3 := LeafRow(h, root, index, state, 0)]
  }

  function OneRoot(h: Digest, state: RootState, tx: Option<TxHash>, attempts: nat, ts: Option<nat>)
    : map<RootId, RootRow>
  {
    map[1 := RootRow(h, state, tx, attempts, 0, ts, ts)]
  }

  function OneTx(h: Digest, status: TxStatus): Chain {
    map[7 := Tx(9, [h], status)]
  }

  lemma Extend(k: Keccak, cfg: Config, run: seq<Action>, w: World, a: Action, v: World) returns (longer: seq<Action>)
    requires After(k, cfg, run) == Some(w) && Enabled(k, cfg, w, a) && Apply(k, cfg, w, a) == v
    ensures longer == run + [a] && After(k, cfg, longer) == Some(v)
  {
    longer := run + [a];
    assert longer[..|longer| - 1] == run;
  }

  lemma OnePending(h: Digest)
    ensures PendingAges(Tables(map[], OneLeaf(h, None, None, Pending))) == map[3 := 0]
    ensures OldestFirst(map[3 := 0], 1, [3])
  {
  }

  lemma Started(k: Keccak, cfg: Config, h: Digest) returns (run: seq<Action>)
    requires Small(cfg)
    ensures After(k, cfg, run) == Some(World(Tables(map[], OneLeaf(h, None, None, Pending)), map[], Idle))
  {
    var t := Tables(map[], OneLeaf(h, None, None, Pending));
    run := Extend(k, cfg, [], EMPTY, AddMessage(3, h, 0), World(t, map[], Stopped));
    run := Extend(k, cfg, run, World(t, map[], Stopped), Start([]), World(t, map[], ScanNullTx([])));
    run := Extend(k, cfg, run, World(t, map[], ScanNullTx([])), ListPending([]), World(t, map[], ScanPendingTx([])));
    run := Extend(k, cfg, run, World(t, map[], ScanPendingTx([])), Ready, World(t, map[], Idle));
  }

  lemma HasBuilt(k: Keccak, cfg: Config, h: Digest) returns (run: seq<Action>)
    requires Small(cfg)
    ensures After(k, cfg, run)
      == Some(World(Tables(OneRoot(h, Built, None, 0, None), OneLeaf(h, Some(1), Some(0), Batched)), map[], Idle))
  {
    run := Started(k, cfg, h);
    var t := Tables(map[], OneLeaf(h, None, None, Pending));
    var u := Tables(OneRoot(h, Built, None, 0, None), OneLeaf(h, Some(1), Some(0), Batched));
    OnePending(h);
    run := Extend(k, cfg, run, World(t, map[], Idle), CheckPending(0), World(t, map[], Building(1)));
    assert Hashes(t, [3]) == [h];
    assert BuildRoot(t, 1, h, [3], 0).leaves == u.leaves;
    run := Extend(k, cfg, run, World(t, map[], Building(1)), Build(1, [3], 0, Committed), World(u, map[], Idle));
  }

  lemma HasSent(k: Keccak, h: Digest) returns (run: seq<Action>)
    ensures After(k, CFG, run)
      == Some(World(Tables(OneRoot(h, Broadcasting, None, 1, None), OneLeaf(h, Some(1), Some(0), Batched)),
                    OneTx(h, InFlight), Sent([Job(1, h, 0)], 7)))
  {
    run := HasBuilt(k, CFG, h);
    var leaves := OneLeaf(h, Some(1), Some(0), Batched);
    var t := Tables(OneRoot(h, Built, None, 0, None), leaves);
    var u := Tables(OneRoot(h, Broadcasting, None, 1, None), leaves);
    assert BuiltAges(t) == map[1 := 0];
    assert Mark(t, [1]) == u;
    assert Jobs(t, [1]) == [Job(1, h, 0)];
    run := Extend(k, CFG, run, World(t, map[], Idle), MarkGroup([1], Committed),
                  World(u, map[], Marked([Job(1, h, 0)])));
    assert JobRoots([Job(1, h, 0)]) == [h];
    run := Extend(k, CFG, run, World(u, map[], Marked([Job(1, h, 0)])), Send(7, false),
                  World(u, OneTx(h, InFlight), Sent([Job(1, h, 0)], 7)));
  }

  lemma HasHash(k: Keccak, h: Digest) returns (run: seq<Action>)
    ensures After(k, CFG, run)
      == Some(World(Tables(OneRoot(h, Broadcasting, Some(7), 1, None), OneLeaf(h, Some(1), Some(0), Batched)),
                    OneTx(h, InFlight), Waiting([Job(1, h, 0)], 7)))
  {
    run := HasSent(k, h);
    var leaves, jobs := OneLeaf(h, Some(1), Some(0), Batched), [Job(1, h, 0)];
    var t := Tables(OneRoot(h, Broadcasting, None, 1, None), leaves);
    var u := Tables(OneRoot(h, Broadcasting, Some(7), 1, None), leaves);
    assert JobIds(jobs) == [1];
    assert SetTxHash(t, [1], 7) == u;
    run := Extend(k, CFG, run, World(t, OneTx(h, InFlight), Sent(jobs, 7)), PersistHash(Committed),
                  World(u, OneTx(h, InFlight), Waiting(jobs, 7)));
  }

  lemma HasReceipt(k: Keccak, h: Digest) returns (run: seq<Action>)
    requires h != ZERO_DIGEST
    ensures After(k, CFG, run)
      == Some(World(Tables(OneRoot(h, Broadcasting, Some(7), 1, None), OneLeaf(h, Some(1), Some(0), Batched)),
                    OneTx(h, Succeeded(0, [EventLog(h, 0, 0)])), Confirming([Job(1, h, 0)], 7)))
  {
    run := HasHash(k, h);
    var jobs := [Job(1, h, 0)];
    var u := Tables(OneRoot(h, Broadcasting, Some(7), 1, None), OneLeaf(h, Some(1), Some(0), Batched));
    var done := OneTx(h, Succeeded(0, [EventLog(h, 0, 0)]));
    assert TxLogs([h], 0, 0) == [EventLog(h, 0, 0)];
    run := Extend(k, CFG, run, World(u, OneTx(h, InFlight), Waiting(jobs, 7)), Mine(7, 0, 0, 0, false),
                  World(u, done, Waiting(jobs, 7)));
    run := Extend(k, CFG, run, World(u, done, Waiting(jobs, 7)), SeeReceipt, World(u, done, Confirming(jobs, 7)));
  }

  lemma ReceiptTables(h: Digest)
    ensures ConfirmFromReceipt(
        Tables(OneRoot(h, Broadcasting, Some(7), 1, None), OneLeaf(h, Some(1), Some(0), Batched)),
        [EventLog(h, 0, 0)], [1])
      == Tables(OneRoot(h, Confirmed, Some(7), 1, Some(0)), OneLeaf(h, Some(1), Some(0), LeafConfirmed))
  {
    var t := Tables(OneRoot(h, Broadcasting, Some(7), 1, None), OneLeaf(h, Some(1), Some(0), Batched));
    var logs := [EventLog(h, 0, 0)];
    assert logs[0].merkleRoot == h;
    assert EventFor(logs, h) == Some(EventLog(h, 0, 0));
    assert Evidenced(t, logs, [1]) == {1};
  }

  /** The database can end up with a confirmed leaf under a root that is queued
      for broadcast again: one message, one batch, one mined transaction and a
      COMMIT that takes effect and then raises. */
  lemma AmbiguousRunExists(k: Keccak, h: Digest) returns (run: seq<Action>, w: World)
    requires h != ZERO_DIGEST
    ensures After(k, CFG, run) == Some(w) && !NeverOverwrites(k, CFG, run)
    ensures 1 in w.t.roots && w.t.roots[1].state.Built? && w.t.roots[1].attempts == 1
    ensures 3 in w.t.leaves && w.t.leaves[3].rootId == Some(1) && w.t.leaves[3].state.LeafConfirmed?
  {
    run := HasReceipt(k, h);
    var jobs, chain := [Job(1, h, 0)], OneTx(h, Succeeded(0, [EventLog(h, 0, 0)]));
    var t := Tables(OneRoot(h, Broadcasting, Some(7), 1, None), OneLeaf(h, Some(1), Some(0), Batched));
    var u := Tables(OneRoot(h, Confirmed, Some(7), 1, Some(0)), OneLeaf(h, Some(1), Some(0), LeafConfirmed));
    assert JobIds(jobs) == [1];
    ReceiptTables(h);
    var ambiguous := World(u, chain, Recovering(jobs));
    run := Extend(k, CFG, run, World(t, chain, Confirming(jobs, 7)), Confirm(CommittedButRaised), ambiguous);
    var before := run;
    w := World(ReturnToBuilt(u, 1), chain, Recovering([]));
    run := Extend(k, CFG, run, ambiguous, RecoverOne(Committed), w);
    assert run[..|run| - 1] == before && Overwrites(ambiguous, run[|run| - 1]);
  }

  // ------------------------------------------------------ past the limit

  /** The root waits for a broadcast after n attempts. */
  function AwaitingBroadcast(h: Digest, n: nat): World {
    World(Tables(OneRoot(h, Built, None, n, None), OneLeaf(h, Some(1), Some(0), Batched)), map[], Idle)
  }

  lemma MarkedOnce(k: Keccak, cfg: Config, run: seq<Action>, h: Digest, n: nat) returns (longer: seq<Action>, u: World)
    requires Small(cfg) && After(k, cfg, run) == Some(AwaitingBroadcast(h, n))
    ensures longer == run + [MarkGroup([1], Committed)] && After(k, cfg, longer) == Some(u)
    ensures u == World(Tables(OneRoot(h, Broadcasting, None, n + 1, None), OneLeaf(h, Some(1), Some(0), Batched)),
                       map[], Marked([Job(1, h, n)]))
  {
    var w := AwaitingBroadcast(h, n);
    assert BuiltAges(w.t) == map[1 := 0];
    assert Mark(w.t, [1]).roots == OneRoot(h, Broadcasting, None, n + 1, None);
    assert Jobs(w.t, [1]) == [Job(1, h, n)];
    u := World(Mark(w.t, [1]), map[], Marked([Job(1, h, n)]));
    longer := Extend(k, cfg, run, w, MarkGroup([1], Committed), u);
  }

  /** The worker crashes after marking and, restarted, finds no event on chain. */
  lemma ScannedInVain(k: Keccak, cfg: Config, run: seq<Action>, h: Digest, n: nat)
    returns (longer: seq<Action>, u: World)
    requires Small(cfg) && After(k, cfg, run) == Some(AwaitingBroadcast(h, n))
    ensures After(k, cfg, longer) == Some(u)
    ensures u == World(Tables(OneRoot(h, Broadcasting, None, n + 1, None), OneLeaf(h, Some(1), Some(0), Batched)),
                       map[], NullTxSeen(1, None, []))
  {
    var m;
    longer, m := MarkedOnce(k, cfg, run, h, n);
    longer := Extend(k, cfg, longer, m, Crash, m.(pc := Stopped));
    longer := Extend(k, cfg, longer, m.(pc := Stopped), Start([1]), m.(pc := ScanNullTx([1])));
    u := m.(pc := NullTxSeen(1, None, []));
    longer := Extend(k, cfg, longer, m.(pc := ScanNullTx([1])), ScanLogs(None), u);
  }

  /** One more round: reconcile then returns the root. */
  lemma OneRound(k: Keccak, cfg: Config, run: seq<Action>, h: Digest, n: nat) returns (longer: seq<Action>)
    requires Small(cfg) && After(k, cfg, run) == Some(AwaitingBroadcast(h, n))
    ensures After(k, cfg, longer) == Some(AwaitingBroadcast(h, n + 1))
  {
    var u;
    longer, u := ScannedInVain(k, cfg, run, h, n);
    var after := AwaitingBroadcast(h, n + 1);
    longer := Extend(k, cfg, longer, u, SettleNullTx(Committed), after.(pc := ScanNullTx([])));
    longer := Extend(k, cfg, longer, after.(pc := ScanNullTx([])), ListPending([]), after.(pc := ScanPendingTx([])));
    longer := Extend(k, cfg, longer, after.(pc := ScanPendingTx([])), Ready, after);
  }

  lemma {:induction false} Rounds(k: Keccak, cfg: Config, h: Digest, n: nat) returns (run: seq<Action>)
    requires Small(cfg)
    ensures After(k, cfg, run) == Some(AwaitingBroadcast(h, n))
  {
    if n == 0 {
      run := HasBuilt(k, cfg, h);
    } else {
      run := Rounds(k, cfg, h, n - 1);
      run := OneRound(k, cfg, run, h, n - 1);
    }
  }

  /** For every limit there is a run from the empty database after which a root
      has any number of attempts beyond it. */
  lemma AttemptsExceedLimit(k: Keccak, cfg: Config, h: Digest, n: nat) returns (run: seq<Action>, w: World)
    requires Small(cfg) && n > Limit(cfg)
    ensures After(k, cfg, run) == Some(w) && 1 in w.t.roots && w.t.roots[1].attempts == n > Limit(cfg)
    ensures !WithinThroughout(k, cfg, run) && !NeverReturnsSpent(k, cfg, run)
  {
    run := Rounds(k, cfg, h, n);
    w := AwaitingBroadcast(h, n);
    assert !WithinLimit(cfg, w.t.roots[1]);
    LimitHoldsIff(k, cfg, run);
  }
}
