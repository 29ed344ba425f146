/** The server's pool of one-time prekeys: paired upload and claim
    (server/server.js, table one_time_prekeys). */
module KeyServer {
  import opened Bytes
  import opened Hex
  import opened Keys
  import opened Outcomes
  import opened Pqxdh

  datatype KeyType = X25519 | MlKem
  datatype RowKey = RowKey(device: string, id: int, keyType: KeyType)
  datatype Row = Row(publicKey: Bytes, createdAt: nat, used: bool)

  /** The map form is the table's UNIQUE (device_id, opk_id, key_type). */
  type Rows = map<RowKey, Row>

  /** What Buffer.from(value, 'hex') accepts: text, or an array (or an object it
      reads as one), whose numbers become bytes modulo 256. */
  datatype KeyValue = HexText(text: string) | Elements(values: seq<int>)

  /** One array element of the upload body. A missing element or field, or one
      of the wrong type, is None. A number the INTEGER column cannot hold, such
      as a fraction, is represented by an id outside its range. */
  datatype Entry = Entry(id: Option<int>, publicKey: Option<KeyValue>)

  datatype UploadError = UnequalLengths | IdMismatch | NotABuffer | BadX25519Length | BadKemLength | IdOutOfRange

  function Octets(values: seq<int>): (b: Bytes)
    ensures |b| == |values|
  {
    if values == [] then [] else [values[0] % 256] + Octets(values[1..])
  }

  function ToBuffer(v: KeyValue): Bytes {
    match v
    case HexText(text) => DecodeLenient(text)
    case Elements(values) => Octets(values)
  }

  const KEM_PUBLIC_LENGTH: nat := 1568

  predicate IsInt32(n: int) {
    -0x8000_0000 <= n < 0x8000_0000
  }

  /** INSERT ... ON CONFLICT DO NOTHING. */
  function Insert(rows: Rows, key: RowKey, row: Row): Rows {
    if key in rows then rows else rows[key := row]
  }

  function InsertPair(rows: Rows, device: string, now: nat, x: Entry, k: Entry): Result<Rows, UploadError> {
    if x.id.None? || x.id != k.id then Err(IdMismatch)
    else if x.publicKey.None? || k.publicKey.None? then Err(NotABuffer)
    else
      var xBuf, kBuf := ToBuffer(x.publicKey.value), ToBuffer(k.publicKey.value);
      if |xBuf| != X25519_LENGTH then Err(BadX25519Length)
      else if |kBuf| != KEM_PUBLIC_LENGTH then Err(BadKemLength)
      else if !IsInt32(x.id.value) then Err(IdOutOfRange)
      else
        var id := x.id.value;
        var withX := Insert(rows, RowKey(device, id, X25519), Row(xBuf, now, false));
        Ok(Insert(withX, RowKey(device, id, MlKem), Row(kBuf, now, false)))
  }

  function InsertFrom(rows: Rows, device: string, now: nat, x: seq<Entry>, kem: seq<Entry>, i: nat)
    : Result<Rows, UploadError>
    requires |x| == |kem| && i <= |x|
    decreases |x| - i
  {
    if i == |x| then Ok(rows)
    else
      var next :- InsertPair(rows, device, now, x[i], kem[i]);
      InsertFrom(next, device, now, x, kem, i + 1)
  }

  /** All pairs are inserted, or the transaction rolls back. */
  function Uploaded(rows: Rows, device: string, now: nat, x: seq<Entry>, kem: seq<Entry>): Result<Rows, UploadError> {
    if |x| != |kem| then Err(UnequalLengths) else InsertFrom(rows, device, now, x, kem, 0)
  }

  predicate Available(rows: Rows, device: string, locked: set<int>, id: int) {
    var key := RowKey(device, id, X25519);
    key in rows && !rows[key].used && id !in locked
  }

  /** ORDER BY created_at LIMIT 1 FOR UPDATE SKIP LOCKED: ids locked by other
      claims are passed over, ties go either way. */
  ghost predicate Picks(rows: Rows, device: string, locked: set<int>, pick: Option<int>) {
    match pick
    case None => forall id :: !Available(rows, device, locked, id)
    case Some(id) =>
      && Available(rows, device, locked, id)
      && forall other :: Available(rows, device, locked, other) ==>
           rows[RowKey(device, id, X25519)].createdAt <= rows[RowKey(device, other, X25519)].createdAt
  }

  /** Every row with the picked id becomes used, whatever its type. */
  function MarkUsed(rows: Rows, device: string, pick: Option<int>): Rows {
    map key | key in rows ::
      if pick == Some(key.id) && key.device == device then rows[key].(used := true) else rows[key]
  }

  /** The returned rows of one type. */
  function Returned(rows: Rows, device: string, pick: Option<int>, keyType: KeyType): seq<PublicOpk> {
    if pick.None? then []
    else
      var key := RowKey(device, pick.value, keyType);
      if key in rows then [PublicOpk(pick.value, ToHex(rows[key].publicKey))] else []
  }

  predicate Candidate(rows: Rows, device: string, locked: set<int>, key: RowKey) {
    key == RowKey(device, key.id, X25519) && Available(rows, device, locked, key.id)
  }

  /** The picked id's X25519 row is unused, not locked by another claim, and as
      old as any such row of the device; without a pick there is none. */
  ghost predicate OldestFree(rows: Rows, device: string, locked: set<int>, pick: Option<int>) {
    match pick
    case None =>
      forall key | key in rows && key.device == device && key.keyType.X25519? :: rows[key].used || key.id in locked
    case Some(id) =>
      && RowKey(device, id, X25519) in rows && !rows[RowKey(device, id, X25519)].used && id !in locked
      && forall key | key in rows && key.device == device && key.keyType.X25519? ::
        !rows[key].used && key.id !in locked ==> rows[RowKey(device, id, X25519)].createdAt <= rows[key].createdAt
  }

  lemma PicksOldestFree(rows: Rows, device: string, locked: set<int>, pick: Option<int>)
    requires Picks(rows, device, locked, pick)
    ensures OldestFree(rows, device, locked, pick)
  {
    forall key | key in rows && key.device == device && key.keyType.X25519? && !rows[key].used && key.id !in locked
      ensures Available(rows, device, locked, key.id)
    {
      assert key == RowKey(device, key.id, X25519);
    }
  }

  predicate IsOldest(rows: Rows, device: string, locked: set<int>, key: RowKey)
    requires key in rows
  {
    && Candidate(rows, device, locked, key)
    && forall other | other in rows && Candidate(rows, device, locked, other) ::
         rows[key].createdAt <= rows[other].createdAt
  }

  class KeyPool {
    var rows: Rows

    constructor ()
      ensures rows == map[]
    {
      rows := map[];
    }

    method Upload(device: string, now: nat, x: seq<Entry>, kem: seq<Entry>) returns (r: Result<nat, UploadError>)
      modifies this
      ensures match Uploaded(old(rows), device, now, x, kem)
        case Ok(after) => rows == after && r == Ok(|x|)
        case Err(e) => rows == old(rows) && r == Err(e)
    {
      if |x| != |kem| { return Err(UnequalLengths); }
      var pending := rows;
      var uploaded := 0;
      for i := 0 to |x|
        invariant uploaded == i && rows == old(rows)
        invariant InsertFrom(pending, device, now, x, kem, i) == InsertFrom(rows, device, now, x, kem, 0)
      {
        var next := InsertPair(pending, device, now, x[i], kem[i]);
        if next.Err? { return Err(next.error); }
        pending := next.value;
        uploaded := uploaded + 1;
      }
      rows := pending;
      r := Ok(uploaded);
    }

    method Claim(device: string, locked: set<int>)
      returns (x: seq<PublicOpk>, kem: seq<PublicOpk>, ghost pick: Option<int>)
      modifies this
      ensures Picks(old(rows), device, locked, pick) && OldestFree(old(rows), device, locked, pick)
      ensures rows == MarkUsed(old(rows), device, pick)
      ensures x == Returned(old(rows), device, pick, X25519) && kem == Returned(old(rows), device, pick, MlKem)
    {
      if exists key :: key in rows && Candidate(rows, device, locked, key) {
        OldestExists(rows, device, locked);
        var key :| key in rows && IsOldest(rows, device, locked, key);
        assert forall other :: Available(rows, device, locked, other) ==>
          Candidate(rows, device, locked, RowKey(device, other, X25519));
        var chosen := Some(key.id);
        PicksOldestFree(rows, device, locked, chosen);
        pick := chosen;
        x, kem := Returned(rows, device, chosen, X25519), Returned(rows, device, chosen, MlKem);
        rows := MarkUsed(rows, device, chosen);
      } else {
        pick := None;
        x, kem := [], [];
        assert MarkUsed(rows, device, None) == rows;
        assert forall id :: Available(rows, device, locked, id) ==>
          Candidate(rows, device, locked, RowKey(device, id, X25519));
        PicksOldestFree(rows, device, locked, None);
      }
    }
  }

  lemma OldestExists(rows: Rows, device: string, locked: set<int>)
    requires exists key :: key in rows && Candidate(rows, device, locked, key)
    ensures exists key :: key in rows && IsOldest(rows, device, locked, key)
  {
    var key :| key in rows && Candidate(rows, device, locked, key);
    OldestBelow(rows, device, locked, key);
  }

  lemma {:induction false} OldestBelow(rows: Rows, device: string, locked: set<int>, key: RowKey)
    requires key in rows && Candidate(rows, device, locked, key)
    ensures exists k :: k in rows && IsOldest(rows, device, locked, k)
    decreases rows[key].createdAt
  {
    if !IsOldest(rows, device, locked, key) {
      var other :| other in rows && Candidate(rows, device, locked, other)
                   && rows[other].createdAt < rows[key].createdAt;
      OldestBelow(rows, device, locked, other);
    }
  }

  // ------------------------------------------------------------ whole runs

  datatype Action =
    | Upload(device: string, now: nat, x: seq<Entry>, kem: seq<Entry>)
    | Claim(device: string, locked: set<int>, pick: Option<int>)

  /** The table and every pair handed out so far. */
  datatype World = World(rows: Rows, handedOut: seq<(string, int)>)

  ghost function Step(w: World, a: Action): Option<World> {
    match a
    case Upload(device, now, x, kem) =>
      (match Uploaded(w.rows, device, now, x, kem)
       case Ok(after) => Some(w.(rows := after))
       case Err(_) => Some(w))
    case Claim(device, locked, pick) =>
      if !Picks(w.rows, device, locked, pick) then None
      else Some(World(MarkUsed(w.rows, device, pick),
                      w.handedOut + if pick.Some? then [(device, pick.value)] else []))
  }

  /** The state after the first n actions of a run from an empty table, if all were possible. */
  ghost function After(run: seq<Action>, n: nat): Option<World>
    requires n <= |run|
  {
    if n == 0 then Some(World(map[], []))
    else
      var before := After(run, n - 1);
      if before.None? then None else Step(before.value, run[n - 1])
  }

  predicate RightLength(keyType: KeyType, row: Row) {
    |row.publicKey| == match keyType case X25519 => X25519_LENGTH case MlKem => KEM_PUBLIC_LENGTH
  }

  /** The two rows of an id exist together, with equal flags and key lengths that fit. */
  ghost predicate PairedRows(rows: Rows) {
    && (forall device, id :: RowKey(device, id, X25519) in rows <==> RowKey(device, id, MlKem) in rows)
    && (forall device, id :: RowKey(device, id, X25519) in rows ==>
          rows[RowKey(device, id, X25519)].used == rows[RowKey(device, id, MlKem)].used)
    && (forall key :: key in rows ==> RightLength(key.keyType, rows[key]))
  }

  /** A row is used exactly when its pair was handed out, and none was twice. */
  ghost predicate HandedOnce(w: World) {
    && (forall i, j | 0 <= i < j < |w.handedOut| :: w.handedOut[i] != w.handedOut[j])
    && (forall key :: key in w.rows ==> (w.rows[key].used <==> (key.device, key.id) in w.handedOut))
    && (forall p :: p in w.handedOut ==> RowKey(p.0, p.1, X25519) in w.rows)
  }

  lemma InsertPairKeeps(rows: Rows, device: string, now: nat, x: Entry, k: Entry, handedOut: seq<(string, int)>)
    requires PairedRows(rows) && HandedOnce(World(rows, handedOut))
    requires InsertPair(rows, device, now, x, k).Ok?
    ensures
      var after := InsertPair(rows, device, now, x, k).value;
      && PairedRows(after) && HandedOnce(World(after, handedOut))
      && forall key :: key in rows ==> key in after && after[key] == rows[key]
  {
  }

  /** An upload keeps both invariants and changes no row that was there: an id
      once uploaded keeps its first keys and, once used, stays used. */
  lemma {:induction false} InsertFromKeeps(
    rows: Rows, device: string, now: nat, x: seq<Entry>, kem: seq<Entry>, i: nat, handedOut: seq<(string, int)>)
    requires |x| == |kem| && i <= |x|
    requires PairedRows(rows) && HandedOnce(World(rows, handedOut))
    requires InsertFrom(rows, device, now, x, kem, i).Ok?
    ensures
      var after := InsertFrom(rows, device, now, x, kem, i).value;
      && PairedRows(after) && HandedOnce(World(after, handedOut))
      && forall key :: key in rows ==> key in after && after[key] == rows[key]
    decreases |x| - i
  {
    if i < |x| {
      InsertPairKeeps(rows, device, now, x[i], kem[i], handedOut);
      InsertFromKeeps(InsertPair(rows, device, now, x[i], kem[i]).value, device, now, x, kem, i + 1, handedOut);
    }
  }

  lemma ClaimKeeps(w: World, device: string, locked: set<int>, pick: Option<int>)
    requires PairedRows(w.rows) && HandedOnce(w) && Picks(w.rows, device, locked, pick)
    ensures
      var after := Step(w, Claim(device, locked, pick)).value;
      PairedRows(after.rows) && HandedOnce(after)
  {
    var after := Step(w, Claim(device, locked, pick)).value;
    if pick.Some? {
      var p := (device, pick.value);
      var key := RowKey(device, pick.value, X25519);
      assert key in w.rows && !w.rows[key].used;
      assert p !in w.handedOut;
      forall q | q in after.handedOut ensures RowKey(q.0, q.1, X25519) in after.rows {
        if q !in w.handedOut { assert q == p; }
      }
      forall key | key in after.rows ensures after.rows[key].used <==> (key.device, key.id) in after.handedOut {
        assert after.rows[key].used <==> w.rows[key].used || (key.device, key.id) == p;
        assert after.handedOut[|w.handedOut|] == p;
      }
    }
  }

  /** Main result: over every interleaving of uploads and claims the rows stay
      paired and no id of a device is handed out twice. */
  lemma {:induction false} NeverHandedTwice(run: seq<Action>, n: nat)
    requires n <= |run| && After(run, n).Some?
    ensures PairedRows(After(run, n).value.rows) && HandedOnce(After(run, n).value)
  {
    if n > 0 {
      NeverHandedTwice(run, n - 1);
      var w := After(run, n - 1).value;
      match run[n - 1]
      case Upload(device, now, x, kem) =>
        if Uploaded(w.rows, device, now, x, kem).Ok? {
          InsertFromKeeps(w.rows, device, now, x, kem, 0, w.handedOut);
        }
      case Claim(device, locked, pick) =>
        ClaimKeeps(w, device, locked, pick);
    }
  }

  // --------------------------------------------------- what an upload does

  /** What the route asks of a pair. */
  predicate GoodPair(x: Entry, k: Entry) {
    && x.id.Some? && x.id == k.id && -0x8000_0000 <= x.id.value < 0x8000_0000
    && x.publicKey.Some? && |ToBuffer(x.publicKey.value)| == 32
    && k.publicKey.Some? && |ToBuffer(k.publicKey.value)| == 1568
  }

  ghost predicate AllGood(x: seq<Entry>, kem: seq<Entry>, i: nat) {
    |x| == |kem| && forall j {:trigger GoodPair(x[j], kem[j])} | i <= j < |x| :: GoodPair(x[j], kem[j])
  }

  lemma PairSucceedsIff(rows: Rows, device: string, now: nat, x: Entry, k: Entry)
    ensures InsertPair(rows, device, now, x, k).Ok? <==> GoodPair(x, k)
  {
  }

  lemma AllGoodFirst(x: seq<Entry>, kem: seq<Entry>, i: nat)
    requires |x| == |kem| && i < |x|
    ensures AllGood(x, kem, i) <==> GoodPair(x[i], kem[i]) && AllGood(x, kem, i + 1)
  {
  }

  /** Whether an upload succeeds depends on its pairs only, not on the pool. */
  lemma {:induction false} UploadSucceedsIff(
    rows: Rows, device: string, now: nat, x: seq<Entry>, kem: seq<Entry>, i: nat)
    requires |x| == |kem| && i <= |x|
    ensures InsertFrom(rows, device, now, x, kem, i).Ok? <==> AllGood(x, kem, i)
    decreases |x| - i
  {
    if i < |x| {
      PairSucceedsIff(rows, device, now, x[i], kem[i]);
      AllGoodFirst(x, kem, i);
      if GoodPair(x[i], kem[i]) {
        UploadSucceedsIff(InsertPair(rows, device, now, x[i], kem[i]).value, device, now, x, kem, i + 1);
      }
    }
  }

  /** Where the id first occurs from position i on, or the length. */
  function FirstWith(x: seq<Entry>, i: nat, id: int): (f: nat)
    requires i <= |x|
    ensures i <= f <= |x| && (f < |x| ==> x[f].id == Some(id))
    ensures forall j | i <= j < f :: x[j].id != Some(id)
    decreases |x| - i
  {
    if i == |x| || x[i].id == Some(id) then i else FirstWith(x, i + 1, id)
  }

  /** The row a successful upload leaves under a key: the one that was there, or
      else the uploading device's first entry with the id, unused. */
  ghost function RowAfter(rows: Rows, device: string, now: nat, x: seq<Entry>, kem: seq<Entry>, i: nat, key: RowKey)
    : Option<Row>
    requires i <= |x| && AllGood(x, kem, i)
  {
    if key in rows then Some(rows[key])
    else
      var f := FirstWith(x, i, key.id);
      if key.device != device || f == |x| then None
      else
        assert GoodPair(x[f], kem[f]);
        Some(Row(ToBuffer(if key.keyType.X25519? then x[f].publicKey.value else kem[f].publicKey.value), now, false))
  }

  predicate RowIs(rows: Rows, key: RowKey, row: Option<Row>) {
    if key in rows then row == Some(rows[key]) else row == None
  }

  lemma RowAfterPair(rows: Rows, device: string, now: nat, x: seq<Entry>, kem: seq<Entry>, i: nat, key: RowKey)
    requires i < |x| && AllGood(x, kem, i)
    ensures InsertPair(rows, device, now, x[i], kem[i]).Ok?
    ensures RowAfter(InsertPair(rows, device, now, x[i], kem[i]).value, device, now, x, kem, i + 1, key)
      == RowAfter(rows, device, now, x, kem, i, key)
  {
    assert GoodPair(x[i], kem[i]);
  }

  /** A successful upload, row by row: old rows stay, every unknown id is stored
      with the keys of its first entry, and nothing else appears. */
  lemma {:induction false} UploadStores(
    rows: Rows, device: string, now: nat, x: seq<Entry>, kem: seq<Entry>, i: nat, key: RowKey)
    requires |x| == |kem| && i <= |x| && InsertFrom(rows, device, now, x, kem, i).Ok?
    ensures AllGood(x, kem, i)
    ensures RowIs(InsertFrom(rows, device, now, x, kem, i).value, key, RowAfter(rows, device, now, x, kem, i, key))
    decreases |x| - i
  {
    UploadSucceedsIff(rows, device, now, x, kem, i);
    if i < |x| {
      RowAfterPair(rows, device, now, x, kem, i, key);
      UploadStores(InsertPair(rows, device, now, x[i], kem[i]).value, device, now, x, kem, i + 1, key);
    }
  }

  ghost predicate AllKnown(rows: Rows, device: string, x: seq<Entry>) {
    forall e | e in x :: e.id.Some? && RowKey(device, e.id.value, X25519) in rows
  }

  lemma {:induction false} KnownIdsIgnored(
    rows: Rows, device: string, now: nat, x: seq<Entry>, kem: seq<Entry>, i: nat)
    requires i <= |x| && PairedRows(rows) && AllGood(x, kem, i) && AllKnown(rows, device, x)
    ensures InsertFrom(rows, device, now, x, kem, i) == Ok(rows)
    decreases |x| - i
  {
    if i < |x| {
      assert GoodPair(x[i], kem[i]) && x[i] in x;
      assert InsertPair(rows, device, now, x[i], kem[i]) == Ok(rows);
      KnownIdsIgnored(rows, device, now, x, kem, i + 1);
    }
  }

  /** An upload succeeds without any effect exactly when its pairs are good and
      all their ids are known, whatever keys come with them: new keys under old
      ids, as replenishing from empty lists makes, never reach the pool. */
  lemma UploadIgnoredIff(rows: Rows, device: string, now: nat, x: seq<Entry>, kem: seq<Entry>)
    requires PairedRows(rows)
    ensures Uploaded(rows, device, now, x, kem) == Ok(rows) <==> AllGood(x, kem, 0) && AllKnown(rows, device, x)
  {
    if Uploaded(rows, device, now, x, kem) == Ok(rows) {
      UploadSucceedsIff(rows, device, now, x, kem, 0);
      forall e | e in x
        ensures e.id.Some? && RowKey(device, e.id.value, X25519) in rows
      {
        var j :| 0 <= j < |x| && x[j] == e;
        assert GoodPair(x[j], kem[j]);
        UploadStores(rows, device, now, x, kem, 0, RowKey(device, e.id.value, X25519));
      }
    } else if AllGood(x, kem, 0) && AllKnown(rows, device, x) {
      KnownIdsIgnored(rows, device, now, x, kem, 0);
    }
  }

  /** A reachable claim answers one complete pair or nothing, so the initiator's
      parser accepts it, with keys of the lengths the exchanges need. */
  lemma AnswerParses(run: seq<Action>, n: nat, device: string, pick: Option<int>, remote: RemoteBundle)
    requires n <= |run| && After(run, n).Some?
    requires pick.Some? ==> RowKey(device, pick.value, X25519) in After(run, n).value.rows
    requires remote.opks_x25519 == Some(Returned(After(run, n).value.rows, device, pick, X25519))
    requires remote.opks_kem == Some(Returned(After(run, n).value.rows, device, pick, MlKem))
    ensures ParseRemoteOpks(remote) == Ok((remote.opks_x25519.value, remote.opks_kem.value))
    ensures |remote.opks_x25519.value| == |remote.opks_kem.value| == if pick.Some? then 1 else 0
    ensures pick.Some? ==>
      && |remote.opks_x25519.value[0].opk_pub| == 2 * X25519_LENGTH
      && |remote.opks_kem.value[0].opk_pub| == 2 * KEM_PUBLIC_LENGTH
  {
    NeverHandedTwice(run, n);
  }

  // ------------------------------------------------- with both clients

  ghost predicate HoldsKey(opks: seq<Opk>, id: int, publicKey: Bytes) {
    exists o :: o in opks && o.id == id && o.publicKey == publicKey
  }

  ghost predicate RowHeld(rows: Rows, key: RowKey, opks: seq<Opk>) {
    key in rows && !rows[key].used ==> HoldsKey(opks, key.id, rows[key].publicKey)
  }

  /** The device's rows of this id, while unused, are the public halves of a
      pair in the lists. */
  ghost predicate PublishedBy(rows: Rows, device: string, id: int, bob: IdentityBundle) {
    RowHeld(rows, RowKey(device, id, X25519), bob.x25519Opks) && RowHeld(rows, RowKey(device, id, MlKem), bob.kemOpks)
  }

  /** What the server reads from the entry is the public half of one of the prekeys. */
  ghost predicate EntryHeld(e: Entry, opks: seq<Opk>) {
    e.id.Some? && e.publicKey.Some? && HoldsKey(opks, e.id.value, ToBuffer(e.publicKey.value))
  }

  /** An entry made as the public bundle makes it is such an entry. */
  lemma PublicHalfIsHeld(o: Opk, opks: seq<Opk>)
    requires o in opks
    ensures EntryHeld(Entry(Some(PublicHalf(o).opk_id), Some(HexText(PublicHalf(o).opk_pub))), opks)
  {
    LenientDecodesHex(o.publicKey);
    assert HoldsKey(opks, o.id, o.publicKey);
  }

  /** The entries with this id hold public halves from the lists. */
  ghost predicate OwnEntries(x: seq<Entry>, kem: seq<Entry>, id: int, bob: IdentityBundle) {
    && (forall e | e in x && e.id == Some(id) :: EntryHeld(e, bob.x25519Opks))
    && (forall e | e in kem && e.id == Some(id) :: EntryHeld(e, bob.kemOpks))
  }

  /** Uploading a pair that is held keeps its rows in step with the lists,
      whatever else the upload contains. */
  lemma UploadPublishes(
    rows: Rows, uploader: string, now: nat, x: seq<Entry>, kem: seq<Entry>, device: string, id: int,
    bob: IdentityBundle)
    requires Uploaded(rows, uploader, now, x, kem).Ok? && PublishedBy(rows, device, id, bob)
    requires uploader == device ==> OwnEntries(x, kem, id, bob)
    ensures PublishedBy(Uploaded(rows, uploader, now, x, kem).value, device, id, bob)
  {
    UploadStores(rows, uploader, now, x, kem, 0, RowKey(device, id, X25519));
    UploadStores(rows, uploader, now, x, kem, 0, RowKey(device, id, MlKem));
    var f := FirstWith(x, 0, id);
    if f < |x| {
      assert x[f] in x && kem[f] in kem && GoodPair(x[f], kem[f]);
    }
  }

  lemma ReturnedDrawnFrom(rows: Rows, device: string, locked: set<int>, pick: Option<int>, bob: IdentityBundle)
    requires PairedRows(rows) && Picks(rows, device, locked, pick)
    requires pick.Some? ==> PublishedBy(rows, device, pick.value, bob)
    ensures DrawnFrom(Returned(rows, device, pick, X25519), bob.x25519Opks)
    ensures DrawnFrom(Returned(rows, device, pick, MlKem), bob.kemOpks)
  {
    if pick.Some? {
      var id := pick.value;
      assert RowKey(device, id, MlKem) in rows;
      var o :| o in bob.x25519Opks && o.id == id && o.publicKey == rows[RowKey(device, id, X25519)].publicKey;
      var q :| q in bob.kemOpks && q.id == id && q.publicKey == rows[RowKey(device, id, MlKem)].publicKey;
      assert Returned(rows, device, pick, X25519) == [PublicHalf(o)];
      assert Returned(rows, device, pick, MlKem) == [PublicHalf(q)];
    }
  }

  // ------------------------------------------------ the owner's side of a run

  /** Going from one set of lists to the next the owner keeps the pair of this
      id until it was handed out. Any other pair may come and go. */
  ghost predicate Retains(
    handedOut: seq<(string, int)>, device: string, id: int, before: IdentityBundle, after: IdentityBundle)
  {
    (device, id) !in handedOut ==>
      && (forall o | o in before.x25519Opks && o.id == id :: o in after.x25519Opks)
      && (forall o | o in before.kemOpks && o.id == id :: o in after.kemOpks)
  }

  ghost predicate UploadsOwn(a: Action, device: string, id: int, bob: IdentityBundle) {
    a.Upload? && a.device == device ==> OwnEntries(a.x, a.kem, id, bob)
  }

  /** bob(i) are the owner's lists before the i-th action: what the device
      uploads under this id comes from the lists of the moment. */
  ghost predicate Owned(run: seq<Action>, n: nat, device: string, id: int, bob: nat -> IdentityBundle)
    requires n <= |run|
  {
    forall i | 0 <= i < n && After(run, i + 1).Some? ::
      && UploadsOwn(run[i], device, id, bob(i))
      && Retains(After(run, i + 1).value.handedOut, device, id, bob(i), bob(i + 1))
  }

  lemma StepPublished(w: World, a: Action, device: string, id: int, bob: IdentityBundle)
    requires PublishedBy(w.rows, device, id, bob) && UploadsOwn(a, device, id, bob) && Step(w, a).Some?
    ensures PublishedBy(Step(w, a).value.rows, device, id, bob)
  {
    if a.Upload? && Uploaded(w.rows, a.device, a.now, a.x, a.kem).Ok? {
      UploadPublishes(w.rows, a.device, a.now, a.x, a.kem, device, id, bob);
    }
  }

  lemma RetainsPublished(w: World, device: string, id: int, before: IdentityBundle, after: IdentityBundle)
    requires PublishedBy(w.rows, device, id, before) && HandedOnce(w)
    requires Retains(w.handedOut, device, id, before, after)
    ensures PublishedBy(w.rows, device, id, after)
  {
  }

  /** Over every run the rows of an id stay in step with its owner's lists, as
      long as the owner keeps that pair until it is handed out. */
  lemma {:induction false} PoolFollowsOwner(
    run: seq<Action>, n: nat, device: string, id: int, bob: nat -> IdentityBundle)
    requires n <= |run| && After(run, n).Some? && Owned(run, n, device, id, bob)
    ensures PublishedBy(After(run, n).value.rows, device, id, bob(n))
  {
    if n > 0 {
      PoolFollowsOwner(run, n - 1, device, id, bob);
      NeverHandedTwice(run, n);
      StepPublished(After(run, n - 1).value, run[n - 1], device, id, bob(n - 1));
      RetainsPublished(After(run, n).value, device, id, bob(n - 1), bob(n));
    }
  }

  /** The responder's lists when he answers still hold what was picked. */
  ghost predicate StillHolds(before: IdentityBundle, now: IdentityBundle, pick: Option<int>) {
    && (forall o | o in before.x25519Opks && pick == Some(o.id) :: o in now.x25519Opks)
    && (forall o | o in before.kemOpks && pick == Some(o.id) :: o in now.kemOpks)
  }

  lemma PickedDrawnFrom(rows: Rows, device: string, pick: Option<int>, before: IdentityBundle, now: IdentityBundle)
    requires DrawnFrom(Returned(rows, device, pick, X25519), before.x25519Opks)
    requires DrawnFrom(Returned(rows, device, pick, MlKem), before.kemOpks)
    requires StillHolds(before, now, pick)
    ensures DrawnFrom(Returned(rows, device, pick, X25519), now.x25519Opks)
    ensures DrawnFrom(Returned(rows, device, pick, MlKem), now.kemOpks)
  {
    forall e | e in Returned(rows, device, pick, X25519) ensures exists o :: o in now.x25519Opks && e == PublicHalf(o) {
      var o :| o in before.x25519Opks && e == PublicHalf(o);
      assert o in now.x25519Opks;
    }
    forall e | e in Returned(rows, device, pick, MlKem) ensures exists o :: o in now.kemOpks && e == PublicHalf(o) {
      var o :| o in before.kemOpks && e == PublicHalf(o);
      assert o in now.kemOpks;
    }
  }

  /** The bundle the server serves for the device after n actions of the run. */
  ghost predicate Serves(run: seq<Action>, n: nat, device: string, pick: Option<int>, p: Primitives,
                         bob: IdentityBundle, remote: RemoteBundle)
    requires n <= |run| && After(run, n).Some?
  {
    && remote.ik_classical_pub == ToHex(p.dhPublic(bob.ikClassical))
    && remote.ik_kem_pub == ToHex(bob.ikKem.publicKey)
    && remote.spk_pub == ToHex(p.dhPublic(bob.spk))
    && remote.opks_x25519 == Some(Returned(After(run, n).value.rows, device, pick, X25519))
    && remote.opks_kem == Some(Returned(After(run, n).value.rows, device, pick, MlKem))
  }

  lemma ServedIsOffered(run: seq<Action>, n: nat, device: string, locked: set<int>, pick: Option<int>,
                        p: Primitives, bob: nat -> IdentityBundle, now: IdentityBundle, remote: RemoteBundle)
    requires n <= |run| && After(run, n).Some? && Picks(After(run, n).value.rows, device, locked, pick)
    requires pick.Some? ==> Owned(run, n, device, pick.value, bob) && StillHolds(bob(n), now, pick)
    requires Serves(run, n, device, pick, p, now, remote)
    ensures Offers(p, now, remote)
  {
    NeverHandedTwice(run, n);
    if pick.Some? {
      PoolFollowsOwner(run, n, device, pick.value, bob);
      ReturnedDrawnFrom(After(run, n).value.rows, device, locked, pick, bob(n));
      PickedDrawnFrom(After(run, n).value.rows, device, pick, bob(n), now);
    }
  }

  lemma ServedLeg(run: seq<Action>, n: nat, device: string, pick: Option<int>, p: Primitives,
                  bob: IdentityBundle, remote: RemoteBundle,
                  ikSecret: Bytes, ekSecret: Bytes, coins: Bytes, allowNoOpk: bool)
    requires n <= |run| && After(run, n).Some? && Serves(run, n, device, pick, p, bob, remote)
    requires pick.Some? ==> RowKey(device, pick.value, X25519) in After(run, n).value.rows
    requires Initiate(p, ikSecret, ekSecret, coins, remote, allowNoOpk).Ok?
    ensures
      var bundle := Initiate(p, ikSecret, ekSecret, coins, remote, allowNoOpk).value.bundle;
      bundle.opkId == pick && (bundle.usedIdentityKem <==> pick.None?)
  {
    LegUsed(p, ikSecret, ekSecret, coins, remote, allowNoOpk);
  }

  /** End to end: over every run in which the device uploads its own keys under
      the picked id and keeps that pair, Alice initiates with what the server hands her, and Bob derives her secret
      from what she sends and the lists he has by then. */
  lemma ClaimedPairAgrees(run: seq<Action>, n: nat, device: string, locked: set<int>, pick: Option<int>,
                          p: Primitives, ikSecret: Bytes, ekSecret: Bytes, coins: Bytes,
                          bob: nat -> IdentityBundle, now: IdentityBundle, remote: RemoteBundle, allowNoOpk: bool)
    requires n <= |run| && After(run, n).Some? && Picks(After(run, n).value.rows, device, locked, pick)
    requires pick.Some? ==> Owned(run, n, device, pick.value, bob) && StillHolds(bob(n), now, pick)
    requires Serves(run, n, device, pick, p, now, remote)
    requires p.Sound() && Genuine(p, now)
    requires Paired(now.x25519Opks, now.kemOpks) && DistinctIds(now.x25519Opks)
    requires Initiate(p, ikSecret, ekSecret, coins, remote, allowNoOpk).Ok?
    ensures
      var alice := Initiate(p, ikSecret, ekSecret, coins, remote, allowNoOpk).value;
      var received := FromDict(ToDict(alice.bundle));
      && alice.bundle.opkId == pick
      && (alice.bundle.usedIdentityKem <==> pick.None?)
      && received.Ok?
      && Respond(p, now, received.value, LoadOpkSecrets(now.x25519Opks), LoadOpkSecrets(now.kemOpks)) == Ok(alice.sk)
  {
    ServedIsOffered(run, n, device, locked, pick, p, bob, now, remote);
    ServedLeg(run, n, device, pick, p, now, remote, ikSecret, ekSecret, coins, allowNoOpk);
    SecretsAgree(p, ikSecret, ekSecret, coins, now, remote, allowNoOpk);
  }
}
