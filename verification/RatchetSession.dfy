/** Persistence of one ratchet conversation under failed writes, crashes and
    reloads (client/cryptography/core/dh_ratchet/session.py). */
module RatchetSession {
  import opened Bytes
  import opened Outcomes
  import opened RatchetWire

  /** The library's state as seen from here: the sending chain in use, how many
      keys it has given, and the header fields of its next message. */
  datatype Ratchet = Ratchet(chain: nat, n: nat, pn: nat, ratchetPub: Bytes)

  /** Sending positions are ordered by chain, then by message. */
  predicate Before(a: Ratchet, b: Ratchet) {
    a.chain < b.chain || (a.chain == b.chain && a.n < b.n)
  }

  predicate AtOrAfter(a: Ratchet, b: Ratchet) {
    a == b || Before(b, a)
  }

  /** Encryption uses up the current position. */
  function Advance(r: Ratchet): (next: Ratchet)
    ensures Before(r, next)
  {
    r.(n := r.n + 1)
  }

  /** What a save writes and a load reads back. */
  datatype Snapshot = Snapshot(ratchet: Ratchet, msgIndex: nat)

  datatype State = State(memory: Option<Snapshot>, disk: Option<Snapshot>)

  datatype Failure =
    | IndexExhausted | BadHeader | SaveFailed | BadWire(cause: Malformed) | Undecryptable | NoState | BadKeyLength

  function Written(disk: Option<Snapshot>, s: Snapshot, saving: Saving): Option<Snapshot> {
    if saving.FailedClean? then disk else Some(s)
  }

  function NextMessage(s: Snapshot, ciphertext: Bytes): Message {
    Message(s.msgIndex + 1, s.ratchet.pn, s.ratchet.n, s.ratchet.ratchetPub, ciphertext)
  }

  /** The ratchet moves first; the index is committed to memory only after a
      save that returned. ciphertext is what the AEAD answered. */
  function Encrypted(st: State, ciphertext: Bytes, saving: Saving): (State, Result<Bytes, Failure>)
    requires st.memory.Some?
  {
    var s := st.memory.value;
    if s.msgIndex + 1 >= U32_LIMIT then (st, Err(IndexExhausted))
    else
      var moved := st.(memory := Some(s.(ratchet := Advance(s.ratchet))));
      var m := NextMessage(s, ciphertext);
      if !Packable(m) then (moved, Err(BadHeader))
      else
        var committed := Snapshot(Advance(s.ratchet), s.msgIndex + 1);
        if saving.Saved? then (State(Some(committed), Some(committed)), Ok(Encode(m).value))
        else (moved.(disk := Written(st.disk, committed, saving)), Err(SaveFailed))
  }

  /** next is the library's state afterwards, plaintext what it returned. */
  function Decrypted(st: State, wire: Bytes, next: Ratchet, plaintext: Option<Bytes>, saving: Saving)
    : (State, Result<Bytes, Failure>)
    requires st.memory.Some?
  {
    var parsed := Parse(wire);
    if parsed.Err? then (st, Err(BadWire(parsed.error)))
    else
      var s := st.memory.value.(ratchet := next);
      if plaintext.None? then (st.(memory := Some(s)), Err(Undecryptable))
      else (State(Some(s), Written(st.disk, s, saving)), if saving.Saved? then Ok(plaintext.value) else Err(SaveFailed))
  }

  /** The first message is encrypted with the session, at the library's initial
      state. A failed save leaves no session object behind. */
  function CreatedInitiator(st: State, initial: Ratchet, ciphertext: Bytes, saving: Saving)
    : (State, Result<Bytes, Failure>)
  {
    var m := NextMessage(Snapshot(initial, 0), ciphertext);
    if !Packable(m) then (st, Err(BadHeader))
    else
      var s := Snapshot(Advance(initial), 1);
      if saving.Saved? then (State(Some(s), Some(s)), Ok(Encode(m).value))
      else (st.(disk := Written(st.disk, s, saving)), Err(SaveFailed))
  }

  function CreatedResponder(st: State, wire: Bytes, initial: Ratchet, plaintext: Option<Bytes>, saving: Saving)
    : (State, Result<Bytes, Failure>)
  {
    var parsed := ParseInitial(wire);
    if parsed.Err? then (st, Err(BadWire(parsed.error)))
    else if plaintext.None? then (st, Err(Undecryptable))
    else
      var s := Snapshot(initial, 0);
      if saving.Saved? then (State(Some(s), Some(s)), Ok(plaintext.value))
      else (st.(disk := Written(st.disk, s, saving)), Err(SaveFailed))
  }

  /** The durable entry of one session id. */
  class SessionStore {
    var saved: Option<Snapshot>

    method Save(s: Snapshot, saving: Saving) returns (ok: bool)
      modifies this
      ensures saved == Written(old(saved), s, saving) && ok == saving.Saved?
    {
      if !saving.FailedClean? { saved := Some(s); }
      ok := saving.Saved?;
    }
  }

  class Session {
    const store: SessionStore
    var ratchet: Ratchet
    var msgIndex: nat

    ghost function Contents(): State
      reads this, store
    {
      State(Some(Snapshot(ratchet, msgIndex)), store.saved)
    }

    constructor (store: SessionStore, ratchet: Ratchet, msgIndex: nat)
      ensures this.store == store && this.ratchet == ratchet && this.msgIndex == msgIndex
    {
      this.store, this.ratchet, this.msgIndex := store, ratchet, msgIndex;
    }

    method Persist(pendingIndex: Option<nat>, saving: Saving) returns (ok: bool)
      modifies store
      ensures ok == saving.Saved?
      ensures store.saved == Written(old(store.saved),
                Snapshot(ratchet, if pendingIndex.Some? then pendingIndex.value else msgIndex), saving)
    {
      ok := store.Save(Snapshot(ratchet, if pendingIndex.Some? then pendingIndex.value else msgIndex), saving);
    }

    method Encrypt(ciphertext: Bytes, saving: Saving) returns (r: Result<Bytes, Failure>)
      modifies this, store
      ensures (Contents(), r) == Encrypted(old(Contents()), ciphertext, saving)
    {
      var nextIndex := msgIndex + 1;
      if nextIndex >= U32_LIMIT { return Err(IndexExhausted); }
      var m := NextMessage(Snapshot(ratchet, msgIndex), ciphertext);
      ratchet := Advance(ratchet);
      if !Packable(m) { return Err(BadHeader); }
      var ok := Persist(Some(nextIndex), saving);
      if !ok { return Err(SaveFailed); }
      msgIndex := nextIndex;
      r := Ok(Encode(m).value);
    }

    method Decrypt(wire: Bytes, next: Ratchet, plaintext: Option<Bytes>, saving: Saving)
      returns (r: Result<Bytes, Failure>)
      modifies this, store
      ensures (Contents(), r) == Decrypted(old(Contents()), wire, next, plaintext, saving)
    {
      var parsed := Parse(wire);
      if parsed.Err? { return Err(BadWire(parsed.error)); }
      ratchet := next;
      if plaintext.None? { return Err(Undecryptable); }
      var ok := Persist(None, saving);
      r := if ok then Ok(plaintext.value) else Err(SaveFailed);
    }
  }

  /** Restores the last state that reached the disk. */
  method Load(store: SessionStore) returns (r: Result<Session, Failure>)
    ensures r.Ok? <==> store.saved.Some?
    ensures r.Ok? ==> r.value.store == store && r.value.Contents() == State(store.saved, store.saved)
  {
    if store.saved.None? { return Err(NoState); }
    var session := new Session(store, store.saved.value.ratchet, store.saved.value.msgIndex);
    r := Ok(session);
  }

  const KEY_LENGTH: nat := 32

  method CreateAsInitiator(
    sk: Bytes, bobRatchetPub: Bytes, initial: Ratchet, ciphertext: Bytes, store: SessionStore, saving: Saving)
    returns (r: Result<(Session, Bytes), Failure>)
    modifies store
    ensures |sk| != KEY_LENGTH || |bobRatchetPub| != RATCHET_PUB_LENGTH ==> r == Err(BadKeyLength) && unchanged(store)
    ensures |sk| == KEY_LENGTH && |bobRatchetPub| == RATCHET_PUB_LENGTH ==>
      var (after, wire) := CreatedInitiator(State(None, old(store.saved)), initial, ciphertext, saving);
      && store.saved == after.disk
      && (match r
          case Ok(pair) => pair.0.store == store && pair.0.Contents() == after && wire == Ok(pair.1)
          case Err(e) => after.memory.None? && wire == Err(e))
  {
    if |sk| != KEY_LENGTH || |bobRatchetPub| != RATCHET_PUB_LENGTH { return Err(BadKeyLength); }
    var m := NextMessage(Snapshot(initial, 0), ciphertext);
    if !Packable(m) { return Err(BadHeader); }
    var session := new Session(store, Advance(initial), 1);
    var ok := session.Persist(None, saving);
    r := if ok then Ok((session, Encode(m).value)) else Err(SaveFailed);
  }

  method CreateAsResponder(
    sk: Bytes, wire: Bytes, initial: Ratchet, plaintext: Option<Bytes>, store: SessionStore, saving: Saving)
    returns (r: Result<(Session, Bytes), Failure>)
    modifies store
    ensures |sk| != KEY_LENGTH ==> r == Err(BadKeyLength) && unchanged(store)
    ensures |sk| == KEY_LENGTH ==>
      var (after, answer) := CreatedResponder(State(None, old(store.saved)), wire, initial, plaintext, saving);
      && store.saved == after.disk
      && (match r
          case Ok(pair) => pair.0.store == store && pair.0.Contents() == after && answer == Ok(pair.1)
          case Err(e) => after.memory.None? && answer == Err(e))
  {
    if |sk| != KEY_LENGTH { return Err(BadKeyLength); }
    var parsed := ParseInitial(wire);
    if parsed.Err? { return Err(BadWire(parsed.error)); }
    if plaintext.None? { return Err(Undecryptable); }
    var session := new Session(store, initial, 0);
    var ok := session.Persist(None, saving);
    r := if ok then Ok((session, plaintext.value)) else Err(SaveFailed);
  }

  // ------------------------------------------------------------ whole runs

  datatype Action =
    | CreateInitiator(initial: Ratchet, ciphertext: Bytes, saving: Saving)
    | CreateResponder(wire: Bytes, initial: Ratchet, plaintext: Option<Bytes>, saving: Saving)
    | Encrypt(ciphertext: Bytes, saving: Saving)
    | Decrypt(wire: Bytes, next: Ratchet, plaintext: Option<Bytes>, saving: Saving)
    | Crash
    | Reload

  /** A wire message handed to the caller and the position it was keyed from. */
  datatype Sent = Sent(wire: Bytes, position: Ratchet)

  datatype World = World(st: State, sent: seq<Sent>)

  /** A session is created once, where nothing is stored. */
  predicate Enabled(w: World, a: Action) {
    match a
    case CreateInitiator(_, _, _) => w.st == State(None, None)
    case CreateResponder(_, _, _, _) => w.st == State(None, None)
    case Encrypt(_, _) => w.st.memory.Some?
    case Decrypt(_, next, _, _) => w.st.memory.Some? && AtOrAfter(next, w.st.memory.value.ratchet)
    case Crash => true
    case Reload => w.st.memory.None? && w.st.disk.Some?
  }

  function Deliver(w: World, result: (State, Result<Bytes, Failure>), position: Ratchet): World {
    World(result.0, w.sent + if result.1.Ok? then [Sent(result.1.value, position)] else [])
  }

  function Step(w: World, a: Action): World
    requires Enabled(w, a)
  {
    match a
    case CreateInitiator(initial, c, saving) => Deliver(w, CreatedInitiator(w.st, initial, c, saving), initial)
    case CreateResponder(wire, initial, plain, saving) =>
      w.(st := CreatedResponder(w.st, wire, initial, plain, saving).0)
    case Encrypt(c, saving) => Deliver(w, Encrypted(w.st, c, saving), w.st.memory.value.ratchet)
    case Decrypt(wire, next, plain, saving) => w.(st := Decrypted(w.st, wire, next, plain, saving).0)
    case Crash => w.(st := w.st.(memory := None))
    case Reload => w.(st := w.st.(memory := w.st.disk))
  }

  function After(run: seq<Action>): Option<World> {
    if run == [] then Some(World(State(None, None), []))
    else
      var w :- After(run[..|run| - 1]);
      if Enabled(w, run[|run| - 1]) then Some(Step(w, run[|run| - 1])) else None
  }

  /** The index a receiver reads from the wire. */
  function WireIndex(wire: Bytes): int {
    match ParseInitial(wire)
    case Ok(m) => m.msgIndex
    case Err(_) => -1
  }

  /** Nothing sent reached the snapshot's index or position. */
  ghost predicate Beyond(s: Snapshot, sent: seq<Sent>) {
    forall m | m in sent :: WireIndex(m.wire) <= s.msgIndex && Before(m.position, s.ratchet)
  }

  ghost predicate Ordered(sent: seq<Sent>) {
    forall i, j | 0 <= i < j < |sent| ::
      WireIndex(sent[i].wire) < WireIndex(sent[j].wire) && Before(sent[i].position, sent[j].position)
  }

  /** A message that was delivered is older than both copies of the state. */
  ghost predicate Inv(w: World) {
    && (w.st.memory.Some? ==> Beyond(w.st.memory.value, w.sent))
    && (w.st.disk.Some? ==> Beyond(w.st.disk.value, w.sent))
    && (w.st.memory.None? && w.st.disk.None? ==> w.sent == [])
    && (w.st.memory.Some? ==> w.st.disk.Some?)
    && Ordered(w.sent)
  }

  lemma BeyondMoves(s: Snapshot, t: Snapshot, sent: seq<Sent>)
    requires Beyond(s, sent) && s.msgIndex <= t.msgIndex && AtOrAfter(t.ratchet, s.ratchet)
    ensures Beyond(t, sent)
  {
  }

  lemma DeliveryKeepsOrder(s: Snapshot, sent: seq<Sent>, ciphertext: Bytes, position: Ratchet)
    requires Ordered(sent) && Beyond(s, sent) && position == s.ratchet && Packable(NextMessage(s, ciphertext))
    ensures
      var all := sent + [Sent(Encode(NextMessage(s, ciphertext)).value, position)];
      Ordered(all) && Beyond(Snapshot(Advance(position), s.msgIndex + 1), all)
  {
    var m := NextMessage(s, ciphertext);
    ParseAfterEncode(m);
    var latest := Sent(Encode(m).value, position);
    var all := sent + [latest];
    assert WireIndex(latest.wire) == s.msgIndex + 1;
    forall i, j | 0 <= i < j < |all|
      ensures WireIndex(all[i].wire) < WireIndex(all[j].wire) && Before(all[i].position, all[j].position)
    {
      assert all[i] in sent;
    }
  }

  lemma EncryptKeepsInv(w: World, ciphertext: Bytes, saving: Saving)
    requires Inv(w) && w.st.memory.Some?
    ensures Inv(Step(w, Encrypt(ciphertext, saving)))
  {
    var s := w.st.memory.value;
    if Packable(NextMessage(s, ciphertext)) && saving.Saved? {
      DeliveryKeepsOrder(s, w.sent, ciphertext, s.ratchet);
    } else {
      assert Step(w, Encrypt(ciphertext, saving)).sent == w.sent;
      BeyondMoves(s, s.(ratchet := Advance(s.ratchet)), w.sent);
      BeyondMoves(s, Snapshot(Advance(s.ratchet), s.msgIndex + 1), w.sent);
    }
  }

  lemma StepKeepsInv(w: World, a: Action)
    requires Inv(w) && Enabled(w, a)
    ensures Inv(Step(w, a))
  {
    match a
    case CreateInitiator(initial, c, saving) =>
      if Packable(NextMessage(Snapshot(initial, 0), c)) {
        DeliveryKeepsOrder(Snapshot(initial, 0), w.sent, c, initial);
      }
    case CreateResponder(_, _, _, _) =>
    case Encrypt(c, saving) => EncryptKeepsInv(w, c, saving);
    case Decrypt(_, next, _, _) =>
      BeyondMoves(w.st.memory.value, w.st.memory.value.(ratchet := next), w.sent);
    case Crash =>
    case Reload =>
  }

  /** Main result: over every run with failed and ambiguous writes, crashes and
      reloads, the indices on the wires of one session strictly increase and
      no two wires were keyed from the same sending position. */
  lemma {:induction false} DeliveredInOrder(run: seq<Action>)
    requires After(run).Some?
    ensures Inv(After(run).value)
  {
    if run != [] {
      DeliveredInOrder(run[..|run| - 1]);
      StepKeepsInv(After(run[..|run| - 1]).value, run[|run| - 1]);
    }
  }

  /** A write that took effect and then raised leaves the index on disk ahead
      of memory. The retry carries that index, from a later position: harmless,
      since the first wire was never returned. */
  lemma AmbiguousWriteRepeatsIndex(st: State, c: Bytes)
    requires st.memory.Some? && st.memory.value.msgIndex + 1 < U32_LIMIT
    requires Packable(NextMessage(st.memory.value, c)) && st.memory.value.ratchet.n + 1 < U32_LIMIT
    ensures
      var (middle, failed) := Encrypted(st, c, Ambiguous);
      && failed == Err(SaveFailed) && middle.memory.Some? && middle.disk.Some?
      && middle.disk.value.msgIndex == st.memory.value.msgIndex + 1
      && (var retried := Encrypted(middle, c, Saved).1;
          retried.Ok? && WireIndex(retried.value) == middle.disk.value.msgIndex)
  {
    var s := st.memory.value.(ratchet := Advance(st.memory.value.ratchet));
    ParseAfterEncode(NextMessage(s, c));
  }

  /** What a step gave the caller is durable: a crash and reload right after a
      returned wire or plaintext restores exactly the state in memory. */
  lemma ReturnedMeansDurable(
    st: State, wire: Bytes, r: Ratchet, plaintext: Option<Bytes>, ciphertext: Bytes, saving: Saving)
    requires st.memory.Some?
    ensures forall result | result in {Encrypted(st, ciphertext, saving), Decrypted(st, wire, r, plaintext, saving),
                                       CreatedInitiator(st, r, ciphertext, saving),
                                       CreatedResponder(st, wire, r, plaintext, saving)} ::
      result.1.Ok? ==> result.0.disk.Some? && result.0.disk == result.0.memory
    ensures Encrypted(st, ciphertext, saving).1.Ok? ==>
      ParseInitial(Encrypted(st, ciphertext, saving).1.value) == Ok(NextMessage(st.memory.value, ciphertext))
  {
    if Packable(NextMessage(st.memory.value, ciphertext)) {
      ParseAfterEncode(NextMessage(st.memory.value, ciphertext));
    }
  }

  /** The header fields fit the wire. */
  predicate Fits(r: Ratchet) {
    r.pn < 0x1_0000_0000 && r.n < 0x1_0000_0000 && |r.ratchetPub| == 32
  }

  /** A message leaves exactly when the next index and the header fit and the
      save returned. Its wire carries that index and the position it used up,
      and both copies stand one further. Otherwise the index in memory stays,
      though the position is used up, and the disk is ahead exactly after a
      save that took effect. */
  lemma SendsIff(st: State, ciphertext: Bytes, saving: Saving)
    requires st.memory.Some?
    ensures
      var s := st.memory.value;
      var (after, r) := Encrypted(st, ciphertext, saving);
      var next := s.ratchet.(n := s.ratchet.n + 1);
      var indexed := s.msgIndex + 1 < 0x1_0000_0000;
      && (r.Ok? <==> indexed && Fits(s.ratchet) && saving == Saved)
      && (r.Ok? ==>
            ParseInitial(r.value) ==
              Ok(Message(s.msgIndex + 1, s.ratchet.pn, s.ratchet.n, s.ratchet.ratchetPub, ciphertext)))
      && after.memory ==
         Some(if r.Ok? then Snapshot(next, s.msgIndex + 1) else if indexed then Snapshot(next, s.msgIndex) else s)
      && after.disk ==
         (if indexed && Fits(s.ratchet) && saving != FailedClean then Some(Snapshot(next, s.msgIndex + 1)) else st.disk)
  {
    if Packable(NextMessage(st.memory.value, ciphertext)) {
      ParseAfterEncode(NextMessage(st.memory.value, ciphertext));
    }
  }

  /** The wire is the encoding of some message. */
  ghost predicate IsEncoding(wire: Bytes, withBody: bool) {
    exists m :: Encode(m) == Some(wire) && (withBody ==> m.ciphertext != [])
  }

  lemma EncodingsParse(wire: Bytes)
    ensures ParseInitial(wire).Ok? <==> IsEncoding(wire, false)
    ensures Parse(wire).Ok? <==> IsEncoding(wire, true)
  {
    if ParseInitial(wire).Ok? {
      EncodeAfterParse(wire);
    }
    forall m | Encode(m) == Some(wire)
      ensures ParseInitial(wire) == Ok(m)
    {
      ParseAfterEncode(m);
    }
  }

  /** A plaintext is returned exactly when the wire is an encoding with a body,
      the ratchet decrypted it, and the save returned. Memory then holds the
      library's new state under the index from before, and so does the disk
      exactly after a save that took effect. */
  lemma ReceivesIff(st: State, wire: Bytes, next: Ratchet, plaintext: Option<Bytes>, saving: Saving, x: Bytes)
    requires st.memory.Some?
    ensures
      var (after, r) := Decrypted(st, wire, next, plaintext, saving);
      var moved := Some(Snapshot(next, st.memory.value.msgIndex));
      && (r == Ok(x) <==> IsEncoding(wire, true) && plaintext == Some(x) && saving == Saved)
      && after.memory == (if IsEncoding(wire, true) then moved else st.memory)
      && after.disk ==
         (if IsEncoding(wire, true) && plaintext.Some? && saving != FailedClean then moved else st.disk)
  {
    EncodingsParse(wire);
  }

  /** A session starts at index 0, or at 1 when it was created with a first
      message, whose wire then carries index 1. It exists in memory exactly when
      its save returned, and on disk exactly when its save took effect. */
  lemma CreatesIff(
    st: State, wire: Bytes, initial: Ratchet, plaintext: Option<Bytes>, ciphertext: Bytes, saving: Saving)
    ensures
      var (after, r) := CreatedInitiator(st, initial, ciphertext, saving);
      var started := Some(Snapshot(initial.(n := initial.n + 1), 1));
      && (r.Ok? <==> Fits(initial) && saving == Saved)
      && (r.Ok? ==>
            ParseInitial(r.value) == Ok(Message(1, initial.pn, initial.n, initial.ratchetPub, ciphertext)))
      && after.memory == (if r.Ok? then started else st.memory)
      && after.disk == (if Fits(initial) && saving != FailedClean then started else st.disk)
    ensures
      var (after, r) := CreatedResponder(st, wire, initial, plaintext, saving);
      var started := Some(Snapshot(initial, 0));
      && (r.Ok? <==> IsEncoding(wire, false) && plaintext.Some? && saving == Saved)
      && (r.Ok? ==> Some(r.value) == plaintext)
      && after.memory == (if r.Ok? then started else st.memory)
      && after.disk ==
         (if IsEncoding(wire, false) && plaintext.Some? && saving != FailedClean then started else st.disk)
  {
    EncodingsParse(wire);
    if Packable(NextMessage(Snapshot(initial, 0), ciphertext)) {
      ParseAfterEncode(NextMessage(Snapshot(initial, 0), ciphertext));
    }
  }
}
