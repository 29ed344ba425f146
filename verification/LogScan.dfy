/** Scanning the chain for an event in bounded block ranges
    (queryFilterChunked in server/blockchain/merkle-core.js). */
module LogScan {

  /** A log matching the filter, as the node returns it. */
  datatype Log = Log(block: int, transactionHash: nat, index: nat)

  /** Largest number of blocks asked for at once. */
  const CHUNK := 9_000

  datatype BlockRange = BlockRange(first: int, last: int)

  ghost predicate Ordered(logs: seq<Log>) {
    forall i, j | 0 <= i < j < |logs| :: logs[i].block <= logs[j].block
  }

  predicate InRange(log: Log, lo: int, hi: int) {
    lo <= log.block <= hi
  }

  /** What the node answers for one range: the matching logs in chain order. */
  function QueryFilter(logs: seq<Log>, lo: int, hi: int): seq<Log> {
    if logs == [] then []
    else (if InRange(logs[0], lo, hi) then [logs[0]] else []) + QueryFilter(logs[1..], lo, hi)
  }

  ghost predicate NoneIn(logs: seq<Log>, lo: int, hi: int) {
    forall i | 0 <= i < |logs| :: !InRange(logs[i], lo, hi)
  }

  lemma {:induction false} EmptyAnswer(logs: seq<Log>, lo: int, hi: int)
    ensures QueryFilter(logs, lo, hi) == [] <==> NoneIn(logs, lo, hi)
  {
    if logs != [] {
      EmptyAnswer(logs[1..], lo, hi);
      if NoneIn(logs[1..], lo, hi) && !InRange(logs[0], lo, hi) {
        forall i | 0 <= i < |logs|
          ensures !InRange(logs[i], lo, hi)
        {
          assert i == 0 || logs[i] == logs[1..][i - 1];
        }
      }
    }
  }

  /** Blocks without logs can be cut off the front of a range. */
  lemma {:induction false} SkipEmptyFront(logs: seq<Log>, lo: int, mid: int, hi: int)
    requires lo <= mid && NoneIn(logs, lo, mid - 1)
    ensures QueryFilter(logs, lo, hi) == QueryFilter(logs, mid, hi)
  {
    if logs != [] {
      assert !InRange(logs[0], lo, mid - 1);
      SkipEmptyFront(logs[1..], lo, mid, hi);
    }
  }

  /** A shorter range answers a prefix of a longer one. */
  lemma {:induction false} ShorterRangeIsPrefix(logs: seq<Log>, lo: int, mid: int, hi: int)
    requires Ordered(logs) && mid <= hi
    ensures QueryFilter(logs, lo, mid) <= QueryFilter(logs, lo, hi)
  {
    if logs != [] {
      ShorterRangeIsPrefix(logs[1..], lo, mid, hi);
      if InRange(logs[0], lo, hi) && !InRange(logs[0], lo, mid) {
        assert NoneIn(logs[1..], lo, mid);
        EmptyAnswer(logs[1..], lo, mid);
      }
    }
  }

  /** Disjoint consecutive ranges of at most 9000 blocks, starting at first
      and reaching up to but not including next. */
  ghost predicate Consecutive(calls: seq<BlockRange>, first: int, next: int) {
    && (calls == [] ==> next == first)
    && (calls != [] ==> calls[0].first == first && calls[|calls| - 1].last == next - 1)
    && (forall i | 0 <= i < |calls| :: calls[i].first <= calls[i].last < calls[i].first + 9_000)
    && (forall i | 0 < i < |calls| :: calls[i].first == calls[i - 1].last + 1)
  }

  lemma NextRange(calls: seq<BlockRange>, first: int, from: int, to: int)
    requires Consecutive(calls, first, from) && from <= to < from + 9_000
    ensures Consecutive(calls + [BlockRange(from, to)], first, to + 1)
  {
  }

  lemma NoneInBoth(logs: seq<Log>, lo: int, from: int, to: int)
    requires NoneIn(logs, lo, from - 1) && NoneIn(logs, from, to)
    ensures NoneIn(logs, lo, to)
  {
    forall i | 0 <= i < |logs|
      ensures !InRange(logs[i], lo, to)
    {
      assert !InRange(logs[i], lo, from - 1) && !InRange(logs[i], from, to);
    }
  }

  /** The first chunk with a match answers like the whole range does. */
  lemma FirstHit(logs: seq<Log>, lo: int, from: int, to: int, hi: int)
    requires Ordered(logs) && lo <= from && to <= hi
    requires NoneIn(logs, lo, from - 1) && QueryFilter(logs, from, to) != []
    ensures QueryFilter(logs, from, to) <= QueryFilter(logs, lo, hi)
    ensures !NoneIn(logs, lo, hi)
  {
    SkipEmptyFront(logs, lo, from, to);
    ShorterRangeIsPrefix(logs, lo, to, hi);
    EmptyAnswer(logs, lo, hi);
  }

  /** logs are the logs on chain matching the filter. */
  method QueryFilterChunked(logs: seq<Log>, fromBlock: int, toBlock: int)
    returns (found: seq<Log>, calls: seq<BlockRange>)
    requires Ordered(logs)
    ensures found == [] <==> NoneIn(logs, fromBlock, toBlock)
    ensures found <= QueryFilter(logs, fromBlock, toBlock)
    ensures exists next :: Consecutive(calls, fromBlock, next) && (calls != [] ==> next <= toBlock + 1)
    ensures found == [] && fromBlock <= toBlock ==> Consecutive(calls, fromBlock, toBlock + 1)
    ensures found != [] ==>
      && calls != []
      && found == QueryFilter(logs, calls[|calls| - 1].first, calls[|calls| - 1].last)
      && NoneIn(logs, fromBlock, calls[|calls| - 1].first - 1)
  {
    found, calls := [], [];
    var from := fromBlock;
    ghost var next := fromBlock;
    while from <= toBlock
      invariant found == [] && fromBlock <= from
      invariant NoneIn(logs, fromBlock, if from <= toBlock then from - 1 else toBlock)
      invariant Consecutive(calls, fromBlock, next)
      invariant next == if from <= toBlock || calls == [] then from else toBlock + 1
      decreases toBlock - from
    {
      var to := if from + CHUNK - 1 <= toBlock then from + CHUNK - 1 else toBlock;
      var chunk := QueryFilter(logs, from, to);
      NextRange(calls, fromBlock, from, to);
      calls := calls + [BlockRange(from, to)];
      found := found + chunk;
      assert found == chunk && Consecutive(calls, fromBlock, to + 1);
      if |found| > 0 {
        FirstHit(logs, fromBlock, from, to, toBlock);
        return;
      }
      EmptyAnswer(logs, from, to);
      NoneInBoth(logs, fromBlock, from, to);
      next := to + 1;
      from := from + CHUNK;
    }
  }
}
