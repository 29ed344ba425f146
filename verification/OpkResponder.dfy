/** The responder's side of a first message: handshake, consumption of the
    one-time pair, session creation (client/cryptography/crypto_service.py). */
module OpkResponder {
  import opened Bytes
  import opened Keys
  import opened Outcomes
  import opened Pqxdh

  /** A ratchet session written to disk. */
  datatype Opening = Opening(opkId: Option<int>, usedIdentityKem: bool, sk: Bytes)

  /** bundle is None while the keystore is locked; sessions maps the
      conversations held in memory to the peer key pinned for them; openings
      records every session ever created. */
  datatype Device = Device(
    bundle: Option<IdentityBundle>, disk: IdentityBundle, sessions: map<string, Bytes>, openings: seq<Opening>)

  /** A message with an initiation bundle. What the signature check and the
      ratchet answer is part of the message; None: the ratchet refuses it. */
  datatype FirstMessage = FirstMessage(
    conversation: string, initiation: map<string, Json>, senderKey: Bytes, signatureValid: bool,
    decrypted: Option<Bytes>)

  /** An empty initiation dictionary counts as none: such a message belongs to a
      session that exists, and starts nothing. */
  predicate IsFirst(m: FirstMessage) {
    m.initiation != map[]
  }

  datatype Saves = Saves(prekeys: Saving, session: Saving, meta: Saving)

  datatype Failure =
    | Locked | Handshake(cause: Pqxdh.Error) | UnpairedLists | SaveFailed
    | NoSenderKey | IdentityKeyChanged | BadSignature | Undecryptable

  function Consume(b: IdentityBundle, id: int): IdentityBundle {
    b.(x25519Opks := Without(b.x25519Opks, id), kemOpks := Without(b.kemOpks, id))
  }

  /** Drops the pair from memory, then saves what is left. */
  function ConsumeOpk(d: Device, id: int, saving: Saving): (Device, Option<Failure>)
    requires d.bundle.Some?
  {
    var rest := Consume(d.bundle.value, id);
    var dropped := d.(bundle := Some(rest));
    if !Paired(rest.x25519Opks, rest.kemOpks) then (dropped, Some(UnpairedLists))
    else match saving
      case Saved => (dropped.(disk := rest), None)
      case FailedClean => (dropped, Some(SaveFailed))
      case Ambiguous => (dropped.(disk := rest), Some(SaveFailed))
  }

  /** The checks and saves after the handshake. */
  function OpenSession(d: Device, m: FirstMessage, pinned: Option<Bytes>, opening: Opening, saves: Saves)
    : (Device, Result<Bytes, Failure>)
  {
    if m.senderKey == [] then (d, Err(NoSenderKey))
    else if pinned.Some? && pinned.value != m.senderKey then (d, Err(IdentityKeyChanged))
    else if !m.signatureValid then (d, Err(BadSignature))
    else if m.decrypted.None? then (d, Err(Undecryptable))
    else if saves.session.FailedClean? then (d, Err(SaveFailed))
    else
      var created := d.(openings := d.openings + [opening]);
      if saves.session.Ambiguous? || !saves.meta.Saved? then (created, Err(SaveFailed))
      else (created.(sessions := created.sessions[m.conversation := m.senderKey]), Ok(m.decrypted.value))
  }

  /** A bundle for a conversation in memory drops that session and keeps its pin for the check. */
  function Pinned(d: Device, conversation: string): Option<Bytes> {
    if conversation in d.sessions then Some(d.sessions[conversation]) else None
  }

  /** The one-time pair is consumed before anything about the sender is checked. */
  function AfterHandshake(
    d: Device, m: FirstMessage, pinned: Option<Bytes>, init: InitiationBundle, sk: Bytes, saves: Saves)
    : (Device, Result<Bytes, Failure>)
    requires d.bundle.Some?
  {
    var opening := Opening(init.opkId, init.usedIdentityKem, sk);
    if init.opkId.Some? && !init.usedIdentityKem then
      var (consumed, failure) := ConsumeOpk(d, init.opkId.value, saves.prekeys);
      if failure.Some? then (consumed, Err(failure.value))
      else OpenSession(consumed, m, pinned, opening, saves)
    else OpenSession(d, m, pinned, opening, saves)
  }

  function DecryptFirst(p: Primitives, d: Device, m: FirstMessage, saves: Saves): (Device, Result<Bytes, Failure>)
    requires IsFirst(m)
  {
    if d.bundle.None? then (d, Err(Locked))
    else
      var bundle := d.bundle.value;
      var pinned := Pinned(d, m.conversation);
      var dropped := d.(sessions := d.sessions - {m.conversation});
      var init := FromDict(m.initiation);
      if init.Err? then (dropped, Err(Handshake(init.error)))
      else
        var sk := Respond(p, bundle, init.value, LoadOpkSecrets(bundle.x25519Opks), LoadOpkSecrets(bundle.kemOpks));
        if sk.Err? then (dropped, Err(Handshake(sk.error)))
        else
          AfterHandshake(dropped, m, pinned, init.value, sk.value, saves)
  }

  class CryptoService {
    const p: Primitives
    var bundle: Option<IdentityBundle>
    var disk: IdentityBundle
    var sessions: map<string, Bytes>
    ghost var openings: seq<Opening>

    constructor (p: Primitives, start: IdentityBundle)
      ensures this.p == p && Contents() == Device(Some(start), start, map[], [])
    {
      this.p := p;
      bundle, disk, sessions, openings := Some(start), start, map[], [];
    }

    ghost function Contents(): Device
      reads this
    {
      Device(bundle, disk, sessions, openings)
    }

    /** Saves the identity bundle; saving is how the disk behaves. */
    method SaveBundle(saving: Saving) returns (ok: bool)
      requires bundle.Some?
      modifies this`disk
      ensures ok == saving.Saved?
      ensures disk == if saving.FailedClean? then old(disk) else bundle.value
    {
      if !saving.FailedClean? { disk := bundle.value; }
      ok := saving.Saved?;
    }

    method ConsumeOpkPair(id: int, saving: Saving) returns (failure: Option<Failure>)
      requires bundle.Some?
      modifies this`bundle, this`disk
      ensures (Contents(), failure) == ConsumeOpk(old(Contents()), id, saving)
      ensures
        var held, rest := old(bundle.value), bundle.value;
        && rest == held.(x25519Opks := Without(held.x25519Opks, id), kemOpks := Without(held.kemOpks, id))
        && disk == (if Paired(rest.x25519Opks, rest.kemOpks) && !saving.FailedClean? then rest else old(disk))
        && (failure.None? <==> Paired(rest.x25519Opks, rest.kemOpks) && saving.Saved?)
    {
      bundle := Some(Consume(bundle.value, id));
      if !Paired(bundle.value.x25519Opks, bundle.value.kemOpks) { return Some(UnpairedLists); }
      var ok := SaveBundle(saving);
      failure := if ok then None else Some(SaveFailed);
    }

    method DecryptFirstMessage(m: FirstMessage, saves: Saves) returns (r: Result<Bytes, Failure>)
      requires IsFirst(m)
      modifies this
      ensures (Contents(), r) == DecryptFirst(p, old(Contents()), m, saves)
    {
      if bundle.None? { return Err(Locked); }
      var pinned: Option<Bytes> := None;
      if m.conversation in sessions {
        pinned := Some(sessions[m.conversation]);
        sessions := sessions - {m.conversation};
      }
      assert Contents().sessions == old(sessions) - {m.conversation};
      var init := FromDict(m.initiation);
      if init.Err? { return Err(Handshake(init.error)); }
      var local := bundle.value;
      var sk := Respond(p, local, init.value, LoadOpkSecrets(local.x25519Opks), LoadOpkSecrets(local.kemOpks));
      if sk.Err? { return Err(Handshake(sk.error)); }
      if init.value.opkId.Some? && !init.value.usedIdentityKem {
        var failure := ConsumeOpkPair(init.value.opkId.value, saves.prekeys);
        if failure.Some? { return Err(failure.value); }
      }
      r := Open(m, pinned, Opening(init.value.opkId, init.value.usedIdentityKem, sk.value), saves);
    }

    method Open(m: FirstMessage, pinned: Option<Bytes>, ghost opening: Opening, saves: Saves)
      returns (r: Result<Bytes, Failure>)
      modifies this`sessions, this`openings
      ensures (Contents(), r) == OpenSession(old(Contents()), m, pinned, opening, saves)
    {
      if m.senderKey == [] { return Err(NoSenderKey); }
      if pinned.Some? && pinned.value != m.senderKey { return Err(IdentityKeyChanged); }
      if !m.signatureValid { return Err(BadSignature); }
      if m.decrypted.None? { return Err(Undecryptable); }
      if saves.session.FailedClean? { return Err(SaveFailed); }
      openings := openings + [opening];
      if saves.session.Ambiguous? || !saves.meta.Saved? { return Err(SaveFailed); }
      sessions := sessions[m.conversation := m.senderKey];
      r := Ok(m.decrypted.value);
    }
  }

  // ------------------------------------------------------------ whole runs

  datatype Action =
    | Receive(message: FirstMessage, saves: Saves)
    | Remember(conversation: string, key: Bytes)  // a session initiated here or reloaded from disk
    | Reset(conversation: string)
    | Restart                                     // memory is lost
    | Evict                                       // failed server proof: bundle dropped, sessions kept
    | Unlock                                      // bundle reloaded from disk

  function Step(p: Primitives, d: Device, a: Action): Device {
    match a
    case Receive(m, saves) => if IsFirst(m) then DecryptFirst(p, d, m, saves).0 else d
    case Remember(c, key) => d.(sessions := d.sessions[c := key])
    case Reset(c) => d.(sessions := d.sessions - {c})
    case Restart => d.(bundle := None, sessions := map[])
    case Evict => d.(bundle := None)
    case Unlock => d.(bundle := Some(d.disk))
  }

  function After(p: Primitives, start: IdentityBundle, run: seq<Action>): Device {
    if run == [] then Device(Some(start), start, map[], [])
    else Step(p, After(p, start, run[..|run| - 1]), run[|run| - 1])
  }

  ghost predicate Lacks(b: IdentityBundle, id: int) {
    !HasId(b.x25519Opks, id) && !HasId(b.kemOpks, id)
  }

  ghost predicate Sane(b: IdentityBundle) {
    Paired(b.x25519Opks, b.kemOpks) && DistinctIds(b.x25519Opks)
  }

  /** A pair that opened a session is in neither copy of the lists. */
  ghost predicate SpentGone(d: Device) {
    forall o | o in d.openings && !o.usedIdentityKem ::
      o.opkId.Some? && Lacks(d.disk, o.opkId.value) && (d.bundle.Some? ==> Lacks(d.bundle.value, o.opkId.value))
  }

  /** Of two sessions that name one pair, the earlier used the identity key. */
  ghost predicate OpenedOnce(openings: seq<Opening>) {
    forall i, j | 0 <= i < j < |openings| ::
      openings[i].opkId.Some? && openings[i].opkId == openings[j].opkId ==> openings[i].usedIdentityKem
  }

  ghost predicate Inv(d: Device) {
    && Sane(d.disk) && (d.bundle.Some? ==> Sane(d.bundle.value))
    && SpentGone(d) && OpenedOnce(d.openings)
  }

  lemma {:induction false} WithoutKeepsDistinct(opks: seq<Opk>, id: int)
    requires DistinctIds(opks)
    ensures DistinctIds(Without(opks, id))
  {
    if opks != [] {
      var n := |opks| - 1;
      WithoutKeepsDistinct(opks[..n], id);
      var front := Without(opks[..n], id);
      forall i | 0 <= i < |front| ensures front[i].id != opks[n].id {
        assert front[i] in front && front[i] in opks[..n];
      }
    }
  }

  lemma ConsumeShrinks(b: IdentityBundle, id: int)
    requires Sane(b)
    ensures Sane(Consume(b, id)) && Lacks(Consume(b, id), id)
    ensures forall other :: Lacks(b, other) ==> Lacks(Consume(b, id), other)
  {
    WithoutKeepsPairs(b.x25519Opks, b.kemOpks, id);
    WithoutKeepsDistinct(b.x25519Opks, id);
  }

  lemma ConsumeKeepsInv(d: Device, id: int, saving: Saving)
    requires Inv(d) && d.bundle.Some?
    ensures
      var (after, failure) := ConsumeOpk(d, id, saving);
      && Inv(after) && after.openings == d.openings && after.sessions == d.sessions && after.bundle.Some?
      && (failure.None? <==> saving.Saved?)
      && Lacks(after.bundle.value, id) && (failure.None? ==> Lacks(after.disk, id))
  {
    ConsumeShrinks(d.bundle.value, id);
  }

  /** The state has no earlier one-time use of the pair, and, when this is one, no copy of it. */
  ghost predicate MayOpen(d: Device, o: Opening) {
    && (forall e | e in d.openings && e.opkId.Some? && e.opkId == o.opkId :: e.usedIdentityKem)
    && (!o.usedIdentityKem ==>
          o.opkId.Some? && Lacks(d.disk, o.opkId.value) && (d.bundle.Some? ==> Lacks(d.bundle.value, o.opkId.value)))
  }

  lemma OpenKeepsInv(d: Device, m: FirstMessage, pinned: Option<Bytes>, opening: Opening, saves: Saves)
    requires Inv(d) && MayOpen(d, opening)
    ensures Inv(OpenSession(d, m, pinned, opening, saves).0)
  {
    var openings := d.openings + [opening];
    forall i, j | 0 <= i < j < |openings| && openings[i].opkId.Some? && openings[i].opkId == openings[j].opkId
      ensures openings[i].usedIdentityKem
    {
      assert openings[i] in d.openings;
    }
    assert SpentGone(d.(openings := openings));
  }

  /** A handshake that names a pair finds it in memory, so it was never spent. */
  lemma NamedPairHeld(p: Primitives, d: Device, init: InitiationBundle)
    requires d.bundle.Some? && SpentGone(d)
    requires Respond(p, d.bundle.value, init,
      LoadOpkSecrets(d.bundle.value.x25519Opks), LoadOpkSecrets(d.bundle.value.kemOpks)).Ok?
    ensures forall e | e in d.openings && e.opkId.Some? && e.opkId == init.opkId :: e.usedIdentityKem
    ensures !init.usedIdentityKem ==> init.opkId.Some?
  {
    var b := d.bundle.value;
    var x25519, kem := LoadOpkSecrets(b.x25519Opks), LoadOpkSecrets(b.kemOpks);
    if init.opkId.Some? && init.opkId.value !in x25519 {
      UnknownIdRefused(p, b, init, x25519, kem);
    }
  }

  lemma HandshakeKeepsInv(
    d: Device, m: FirstMessage, pinned: Option<Bytes>, init: InitiationBundle, sk: Bytes, saves: Saves)
    requires Inv(d) && d.bundle.Some?
    requires forall e | e in d.openings && e.opkId.Some? && e.opkId == init.opkId :: e.usedIdentityKem
    requires !init.usedIdentityKem ==> init.opkId.Some?
    ensures Inv(AfterHandshake(d, m, pinned, init, sk, saves).0)
  {
    var opening := Opening(init.opkId, init.usedIdentityKem, sk);
    if init.usedIdentityKem {
      OpenKeepsInv(d, m, pinned, opening, saves);
    } else {
      ConsumeKeepsInv(d, init.opkId.value, saves.prekeys);
      var (consumed, failure) := ConsumeOpk(d, init.opkId.value, saves.prekeys);
      if failure.None? {
        OpenKeepsInv(consumed, m, pinned, opening, saves);
      }
    }
  }

  lemma ReceiveKeepsInv(p: Primitives, d: Device, m: FirstMessage, saves: Saves)
    requires Inv(d) && IsFirst(m)
    ensures Inv(DecryptFirst(p, d, m, saves).0)
  {
    var init := FromDict(m.initiation);
    if d.bundle.Some? && init.Ok? {
      var b := d.bundle.value;
      var sk := Respond(p, b, init.value, LoadOpkSecrets(b.x25519Opks), LoadOpkSecrets(b.kemOpks));
      if sk.Ok? {
        NamedPairHeld(p, d, init.value);
        HandshakeKeepsInv(d.(sessions := d.sessions - {m.conversation}), m, Pinned(d, m.conversation),
                          init.value, sk.value, saves);
      }
    }
  }

  /** Main result: over every run with crashes, failed and ambiguous saves, no
      pair opens two sessions unless the earlier one left it unused, and both
      copies of the lists stay paired. */
  lemma {:induction false} PairOpensOnce(p: Primitives, start: IdentityBundle, run: seq<Action>)
    requires Sane(start)
    ensures Inv(After(p, start, run))
  {
    if run != [] {
      PairOpensOnce(p, start, run[..|run| - 1]);
      var d := After(p, start, run[..|run| - 1]);
      var a := run[|run| - 1];
      if a.Receive? && IsFirst(a.message) { ReceiveKeepsInv(p, d, a.message, a.saves); }
    }
  }

  /** A completed handshake drops the named pair from memory and disk, except
      that one on the identity path leaves both copies as they were. */
  lemma HandshakeConsumes(
    d: Device, m: FirstMessage, pinned: Option<Bytes>, init: InitiationBundle, sk: Bytes, saves: Saves)
    requires Inv(d) && d.bundle.Some? && (!init.usedIdentityKem ==> init.opkId.Some?)
    requires AfterHandshake(d, m, pinned, init, sk, saves).1.Ok?
    ensures
      var after := AfterHandshake(d, m, pinned, init, sk, saves).0;
      && after.bundle.Some? && after.openings == d.openings + [Opening(init.opkId, init.usedIdentityKem, sk)]
      && (if init.usedIdentityKem then after.bundle == d.bundle && after.disk == d.disk
          else
            && Lacks(after.disk, init.opkId.value)
            && after.bundle.value == Consume(d.bundle.value, init.opkId.value)
            && Lacks(after.bundle.value, init.opkId.value))
      && after.sessions == d.sessions[m.conversation := m.senderKey]
  {
    if !init.usedIdentityKem {
      ConsumeKeepsInv(d, init.opkId.value, saves.prekeys);
    }
  }

  lemma ReceiveIsHandshake(p: Primitives, d: Device, m: FirstMessage, saves: Saves, init: InitiationBundle, sk: Bytes)
    requires IsFirst(m) && d.bundle.Some? && FromDict(m.initiation) == Ok(init)
    requires Respond(p, d.bundle.value, init,
      LoadOpkSecrets(d.bundle.value.x25519Opks), LoadOpkSecrets(d.bundle.value.kemOpks)) == Ok(sk)
    ensures DecryptFirst(p, d, m, saves)
      == AfterHandshake(d.(sessions := d.sessions - {m.conversation}), m, Pinned(d, m.conversation), init, sk, saves)
  {
  }

  /** What remains to go right once the handshake has. */
  ghost predicate Acceptable(d: Device, m: FirstMessage) {
    && m.senderKey != [] && m.signatureValid && m.decrypted.Some?
    && (m.conversation in d.sessions ==> d.sessions[m.conversation] == m.senderKey)
  }

  lemma AcceptableCompletes(d: Device, m: FirstMessage, pinned: Option<Bytes>, init: InitiationBundle, sk: Bytes)
    requires Inv(d) && d.bundle.Some? && m.senderKey != [] && m.signatureValid && m.decrypted.Some?
    requires pinned.Some? ==> pinned.value == m.senderKey
    ensures AfterHandshake(d, m, pinned, init, sk, Saves(Saved, Saved, Saved)).1 == Ok(m.decrypted.value)
  {
    if init.opkId.Some? && !init.usedIdentityKem {
      ConsumeKeepsInv(d, init.opkId.value, Saved);
    }
  }

  /** In every state runs reach, with the keystore unlocked, an initiator who
      was shown Bob's keys gets through, on either path: the session opens with
      her secret. The one-time path leaves no copy of the pair, the identity
      path leaves both copies of the lists as they were. */
  lemma OfferedKeysOpen(p: Primitives, d: Device, ikSecret: Bytes, ekSecret: Bytes, coins: Bytes,
                        remote: RemoteBundle, allowNoOpk: bool, m: FirstMessage)
    requires p.Sound() && Inv(d) && d.bundle.Some?
    requires Genuine(p, d.bundle.value) && Offers(p, d.bundle.value, remote)
    requires Initiate(p, ikSecret, ekSecret, coins, remote, allowNoOpk).Ok?
    requires m.initiation == ToDict(Initiate(p, ikSecret, ekSecret, coins, remote, allowNoOpk).value.bundle)
    requires Acceptable(d, m)
    ensures InitiationOpened(d, m, Initiate(p, ikSecret, ekSecret, coins, remote, allowNoOpk).value,
                             DecryptFirst(p, d, m, Saves(Saved, Saved, Saved)))
    ensures
      var bundle := Initiate(p, ikSecret, ekSecret, coins, remote, allowNoOpk).value.bundle;
      && (bundle.usedIdentityKem <==> bundle.opkId.None?)
      && (bundle.usedIdentityKem ==> allowNoOpk)
  {
    var alice := Initiate(p, ikSecret, ekSecret, coins, remote, allowNoOpk).value;
    LegUsed(p, ikSecret, ekSecret, coins, remote, allowNoOpk);
    SecretsAgree(p, ikSecret, ekSecret, coins, d.bundle.value, remote, allowNoOpk);
    InitiationOpens(p, d, m, alice);
  }

  ghost predicate InitiationOpened(
    d: Device, m: FirstMessage, alice: Initiated, result: (Device, Result<Bytes, Failure>))
    requires d.bundle.Some? && m.decrypted.Some?
  {
    var after := result.0;
    && result.1 == Ok(m.decrypted.value)
    && after.openings == d.openings + [Opening(alice.bundle.opkId, alice.bundle.usedIdentityKem, alice.sk)]
    && after.sessions == d.sessions[m.conversation := m.senderKey]
    && after.bundle.Some?
    && (if alice.bundle.usedIdentityKem then after.bundle == d.bundle && after.disk == d.disk
        else
          && alice.bundle.opkId.Some? && Lacks(after.disk, alice.bundle.opkId.value)
          && after.bundle.value == Consume(d.bundle.value, alice.bundle.opkId.value))
  }

  lemma InitiationOpens(p: Primitives, d: Device, m: FirstMessage, alice: Initiated)
    requires Inv(d) && d.bundle.Some? && m.initiation == ToDict(alice.bundle) && Acceptable(d, m)
    requires FromDict(m.initiation).Ok?
    requires Respond(p, d.bundle.value, FromDict(m.initiation).value,
      LoadOpkSecrets(d.bundle.value.x25519Opks), LoadOpkSecrets(d.bundle.value.kemOpks)) == Ok(alice.sk)
    requires alice.bundle.usedIdentityKem || alice.bundle.opkId.Some?
    ensures InitiationOpened(d, m, alice, DecryptFirst(p, d, m, Saves(Saved, Saved, Saved)))
  {
    DictRoundTrip(alice.bundle);
    var dropped, pinned := d.(sessions := d.sessions - {m.conversation}), Pinned(d, m.conversation);
    ReceiveIsHandshake(p, d, m, Saves(Saved, Saved, Saved), alice.bundle, alice.sk);
    AcceptableCompletes(dropped, m, pinned, alice.bundle, alice.sk);
    HandshakeConsumes(dropped, m, pinned, alice.bundle, alice.sk, Saves(Saved, Saved, Saved));
    assert (d.sessions - {m.conversation})[m.conversation := m.senderKey] == d.sessions[m.conversation := m.senderKey];
  }

  lemma OpenedUnderPin(d: Device, m: FirstMessage, pinned: Option<Bytes>, opening: Opening, saves: Saves)
    requires OpenSession(d, m, pinned, opening, saves).1.Ok?
    ensures OpenSession(d, m, pinned, opening, saves).0.sessions == d.sessions[m.conversation := m.senderKey]
    ensures pinned.Some? ==> m.senderKey == pinned.value
  {
  }

  lemma CompletedUnderPin(
    d: Device, m: FirstMessage, pinned: Option<Bytes>, init: InitiationBundle, sk: Bytes, saves: Saves)
    requires d.bundle.Some? && AfterHandshake(d, m, pinned, init, sk, saves).1.Ok?
    ensures AfterHandshake(d, m, pinned, init, sk, saves).0.sessions == d.sessions[m.conversation := m.senderKey]
    ensures pinned.Some? ==> m.senderKey == pinned.value
  {
    var opening := Opening(init.opkId, init.usedIdentityKem, sk);
    if init.opkId.Some? && !init.usedIdentityKem {
      OpenedUnderPin(ConsumeOpk(d, init.opkId.value, saves.prekeys).0, m, pinned, opening, saves);
    } else {
      OpenedUnderPin(d, m, pinned, opening, saves);
    }
  }

  lemma SuccessIsHandshake(p: Primitives, d: Device, m: FirstMessage, saves: Saves)
    returns (init: InitiationBundle, sk: Bytes)
    requires IsFirst(m) && DecryptFirst(p, d, m, saves).1.Ok?
    ensures d.bundle.Some?
    ensures DecryptFirst(p, d, m, saves)
      == AfterHandshake(d.(sessions := d.sessions - {m.conversation}), m, Pinned(d, m.conversation), init, sk, saves)
  {
    init := FromDict(m.initiation).value;
    var b := d.bundle.value;
    sk := Respond(p, b, init, LoadOpkSecrets(b.x25519Opks), LoadOpkSecrets(b.kemOpks)).value;
    ReceiveIsHandshake(p, d, m, saves, init, sk);
  }

  /** A conversation in memory is only reopened with the key pinned for it. */
  lemma ReopenKeepsPin(p: Primitives, d: Device, m: FirstMessage, saves: Saves)
    requires IsFirst(m) && m.conversation in d.sessions && DecryptFirst(p, d, m, saves).1.Ok?
    ensures DecryptFirst(p, d, m, saves).0.sessions == d.sessions && m.senderKey == d.sessions[m.conversation]
  {
    var init, sk := SuccessIsHandshake(p, d, m, saves);
    var dropped := d.(sessions := d.sessions - {m.conversation});
    CompletedUnderPin(dropped, m, Pinned(d, m.conversation), init, sk, saves);
    assert d.sessions == (d.sessions - {m.conversation})[m.conversation := d.sessions[m.conversation]];
  }

  // ------------------------------------------------------ what the lists lose

  /** The action is a first message that names this pair on the one-time path. */
  predicate Names(a: Action, id: int) {
    && a.Receive? && IsFirst(a.message) && FromDict(a.message.initiation).Ok?
    && FromDict(a.message.initiation).value.opkId == Some(id)
    && !FromDict(a.message.initiation).value.usedIdentityKem
  }

  /** Both copies of the lists hold the prekeys: x among the X25519 ones, k among the others. */
  ghost predicate BothHold(d: Device, x: Opk, k: Opk) {
    && x in d.disk.x25519Opks && k in d.disk.kemOpks
    && (d.bundle.Some? ==> x in d.bundle.value.x25519Opks && k in d.bundle.value.kemOpks)
  }

  lemma OpenSessionKeepsLists(d: Device, m: FirstMessage, pinned: Option<Bytes>, opening: Opening, saves: Saves)
    ensures
      var after := OpenSession(d, m, pinned, opening, saves).0;
      after.bundle == d.bundle && after.disk == d.disk
  {
  }

  lemma ConsumeKeepsOthers(d: Device, id: int, saving: Saving, x: Opk, k: Opk)
    requires d.bundle.Some? && BothHold(d, x, k) && x.id != id && k.id != id
    ensures BothHold(ConsumeOpk(d, id, saving).0, x, k)
  {
  }

  lemma HandshakeKeepsOthers(d: Device, m: FirstMessage, pinned: Option<Bytes>, init: InitiationBundle, sk: Bytes,
                             saves: Saves, x: Opk, k: Opk)
    requires d.bundle.Some? && BothHold(d, x, k) && x.id == k.id
    requires init.usedIdentityKem || init.opkId != Some(x.id)
    ensures BothHold(AfterHandshake(d, m, pinned, init, sk, saves).0, x, k)
  {
    var opening := Opening(init.opkId, init.usedIdentityKem, sk);
    if init.opkId.Some? && !init.usedIdentityKem {
      ConsumeKeepsOthers(d, init.opkId.value, saves.prekeys, x, k);
      OpenSessionKeepsLists(ConsumeOpk(d, init.opkId.value, saves.prekeys).0, m, pinned, opening, saves);
    } else {
      OpenSessionKeepsLists(d, m, pinned, opening, saves);
    }
  }

  /** A step drops no pair but the one its message names. */
  lemma StepDropsOnlyNamed(p: Primitives, d: Device, a: Action, x: Opk, k: Opk)
    requires BothHold(d, x, k) && x.id == k.id && !Names(a, x.id)
    ensures BothHold(Step(p, d, a), x, k)
  {
    if a.Receive? && IsFirst(a.message) && d.bundle.Some? && FromDict(a.message.initiation).Ok? {
      var m, b, init := a.message, d.bundle.value, FromDict(a.message.initiation).value;
      var sk := Respond(p, b, init, LoadOpkSecrets(b.x25519Opks), LoadOpkSecrets(b.kemOpks));
      if sk.Ok? {
        ReceiveIsHandshake(p, d, m, a.saves, init, sk.value);
        HandshakeKeepsOthers(d.(sessions := d.sessions - {m.conversation}), m, Pinned(d, m.conversation),
                             init, sk.value, a.saves, x, k);
      }
    }
  }

  /** Over every run a pair that no first message names stays in both copies. */
  lemma {:induction false} UnnamedPairStays(p: Primitives, start: IdentityBundle, run: seq<Action>, x: Opk, k: Opk)
    requires x in start.x25519Opks && k in start.kemOpks && x.id == k.id
    requires forall a | a in run :: !Names(a, x.id)
    ensures BothHold(After(p, start, run), x, k)
  {
    if run != [] {
      assert run[|run| - 1] in run;
      UnnamedPairStays(p, start, run[..|run| - 1], x, k);
      StepDropsOnlyNamed(p, After(p, start, run[..|run| - 1]), run[|run| - 1], x, k);
    }
  }

  /** The same identity, with no prekey that was not there. */
  ghost predicate ShrunkFrom(b: IdentityBundle, start: IdentityBundle) {
    && b == start.(x25519Opks := b.x25519Opks, kemOpks := b.kemOpks)
    && (forall o | o in b.x25519Opks :: o in start.x25519Opks)
    && (forall o | o in b.kemOpks :: o in start.kemOpks)
  }

  ghost predicate BothShrunk(d: Device, start: IdentityBundle) {
    ShrunkFrom(d.disk, start) && (d.bundle.Some? ==> ShrunkFrom(d.bundle.value, start))
  }

  lemma ConsumeOnlyShrinks(d: Device, id: int, saving: Saving, start: IdentityBundle)
    requires d.bundle.Some? && BothShrunk(d, start)
    ensures BothShrunk(ConsumeOpk(d, id, saving).0, start)
  {
    var rest := Consume(d.bundle.value, id);
    assert ShrunkFrom(rest, start);
  }

  lemma HandshakeShrinks(d: Device, m: FirstMessage, pinned: Option<Bytes>, init: InitiationBundle, sk: Bytes,
                         saves: Saves, start: IdentityBundle)
    requires d.bundle.Some? && BothShrunk(d, start)
    ensures BothShrunk(AfterHandshake(d, m, pinned, init, sk, saves).0, start)
  {
    var opening := Opening(init.opkId, init.usedIdentityKem, sk);
    if init.opkId.Some? && !init.usedIdentityKem {
      ConsumeOnlyShrinks(d, init.opkId.value, saves.prekeys, start);
      OpenSessionKeepsLists(ConsumeOpk(d, init.opkId.value, saves.prekeys).0, m, pinned, opening, saves);
    } else {
      OpenSessionKeepsLists(d, m, pinned, opening, saves);
    }
  }

  lemma StepShrinks(p: Primitives, d: Device, a: Action, start: IdentityBundle)
    requires BothShrunk(d, start)
    ensures BothShrunk(Step(p, d, a), start)
  {
    if a.Receive? && IsFirst(a.message) && d.bundle.Some? && FromDict(a.message.initiation).Ok? {
      var m, b, init := a.message, d.bundle.value, FromDict(a.message.initiation).value;
      var sk := Respond(p, b, init, LoadOpkSecrets(b.x25519Opks), LoadOpkSecrets(b.kemOpks));
      if sk.Ok? {
        ReceiveIsHandshake(p, d, m, a.saves, init, sk.value);
        HandshakeShrinks(d.(sessions := d.sessions - {m.conversation}), m, Pinned(d, m.conversation),
                         init, sk.value, a.saves, start);
      }
    }
  }

  /** No run adds a prekey to either copy or changes the identity. */
  lemma {:induction false} ListsOnlyShrink(p: Primitives, start: IdentityBundle, run: seq<Action>)
    ensures BothShrunk(After(p, start, run), start)
  {
    if run != [] {
      ListsOnlyShrink(p, start, run[..|run| - 1]);
      StepShrinks(p, After(p, start, run[..|run| - 1]), run[|run| - 1], start);
    }
  }

  // ------------------------------------------- what an opened session proves

  /** The handshake of the message succeeds against the lists in memory. */
  ghost predicate HandshakeSucceeds(p: Primitives, d: Device, m: FirstMessage) {
    && d.bundle.Some? && FromDict(m.initiation).Ok?
    && Respond(p, d.bundle.value, FromDict(m.initiation).value, LoadOpkSecrets(d.bundle.value.x25519Opks),
               LoadOpkSecrets(d.bundle.value.kemOpks)).Ok?
  }

  /** The message names a one-time pair and uses it. */
  predicate UsesPair(m: FirstMessage) {
    && FromDict(m.initiation).Ok? && FromDict(m.initiation).value.opkId.Some?
    && !FromDict(m.initiation).value.usedIdentityKem
  }

  /** Key, pin, signature and ratchet all accept the message. */
  predicate SenderChecks(d: Device, m: FirstMessage) {
    && m.senderKey != [] && m.signatureValid && m.decrypted.Some?
    && (m.conversation in d.sessions ==> d.sessions[m.conversation] == m.senderKey)
  }

  lemma HandshakeResult(
    d: Device, m: FirstMessage, pinned: Option<Bytes>, init: InitiationBundle, sk: Bytes, saves: Saves)
    requires Inv(d) && d.bundle.Some?
    ensures
      var (after, r) := AfterHandshake(d, m, pinned, init, sk, saves);
      var checked := m.senderKey != [] && m.signatureValid && m.decrypted.Some?
                     && (pinned.Some? ==> pinned.value == m.senderKey);
      var consumed := init.opkId.Some? && !init.usedIdentityKem ==> saves.prekeys.Saved?;
      && (r.Ok? <==> consumed && checked && saves.session.Saved? && saves.meta.Saved?)
      && (r.Ok? ==> Some(r.value) == m.decrypted)
      && after.sessions == (if r.Ok? then d.sessions[m.conversation := m.senderKey] else d.sessions)
      && after.openings ==
         d.openings + if consumed && checked && !saves.session.FailedClean?
                      then [Opening(init.opkId, init.usedIdentityKem, sk)] else []
  {
    if init.opkId.Some? && !init.usedIdentityKem {
      ConsumeKeepsInv(d, init.opkId.value, saves.prekeys);
    }
  }

  /** In every state runs reach, a first message yields plaintext x exactly when
      the handshake succeeds, the pair it uses is dropped durably, the sender's
      key is given and is the pinned one, its signature is valid, the ratchet
      decrypts it to x, and the session and its pin are saved. */
  lemma FirstMessageIff(p: Primitives, d: Device, m: FirstMessage, saves: Saves, x: Bytes)
    requires Inv(d) && IsFirst(m)
    ensures DecryptFirst(p, d, m, saves).1 == Ok(x) <==>
      && HandshakeSucceeds(p, d, m) && (UsesPair(m) ==> saves.prekeys.Saved?)
      && SenderChecks(d, m) && m.decrypted == Some(x)
      && saves.session.Saved? && saves.meta.Saved?
  {
    if HandshakeSucceeds(p, d, m) {
      var init := FromDict(m.initiation).value;
      var sk := Respond(p, d.bundle.value, init, LoadOpkSecrets(d.bundle.value.x25519Opks),
                        LoadOpkSecrets(d.bundle.value.kemOpks)).value;
      ReceiveIsHandshake(p, d, m, saves, init, sk);
      HandshakeResult(d.(sessions := d.sessions - {m.conversation}), m, Pinned(d, m.conversation), init, sk, saves);
    }
  }

  /** After a handshake the message replaces the conversation's session in memory
      or, when a later check or save fails, removes it; other sessions stay. */
  lemma SessionsAfterHandshake(p: Primitives, d: Device, m: FirstMessage, saves: Saves)
    requires Inv(d) && IsFirst(m) && HandshakeSucceeds(p, d, m)
    ensures
      var (after, r) := DecryptFirst(p, d, m, saves);
      after.sessions == if r.Ok? then d.sessions[m.conversation := m.senderKey] else d.sessions - {m.conversation}
  {
    var init := FromDict(m.initiation).value;
    var sk := Respond(p, d.bundle.value, init, LoadOpkSecrets(d.bundle.value.x25519Opks),
                      LoadOpkSecrets(d.bundle.value.kemOpks)).value;
    ReceiveIsHandshake(p, d, m, saves, init, sk);
    HandshakeResult(d.(sessions := d.sessions - {m.conversation}), m, Pinned(d, m.conversation), init, sk, saves);
    assert (d.sessions - {m.conversation})[m.conversation := m.senderKey] == d.sessions[m.conversation := m.senderKey];
  }

  lemma HandshakeLists(
    d: Device, m: FirstMessage, pinned: Option<Bytes>, init: InitiationBundle, sk: Bytes, saves: Saves)
    requires Inv(d) && d.bundle.Some?
    ensures
      var after := AfterHandshake(d, m, pinned, init, sk, saves).0;
      if init.opkId.Some? && !init.usedIdentityKem then
        var b := d.bundle.value;
        var rest := b.(x25519Opks := Without(b.x25519Opks, init.opkId.value),
                       kemOpks := Without(b.kemOpks, init.opkId.value));
        after.bundle == Some(rest) && after.disk == if saves.prekeys.FailedClean? then d.disk else rest
      else after.bundle == d.bundle && after.disk == d.disk
  {
    var opening := Opening(init.opkId, init.usedIdentityKem, sk);
    if init.opkId.Some? && !init.usedIdentityKem {
      ConsumeShrinks(d.bundle.value, init.opkId.value);
      OpenSessionKeepsLists(ConsumeOpk(d, init.opkId.value, saves.prekeys).0, m, pinned, opening, saves);
    } else {
      OpenSessionKeepsLists(d, m, pinned, opening, saves);
    }
  }

  /** After a handshake that uses a pair, the pair is gone from memory, and from
      disk when its save took effect, whatever the sender checks then say; no
      other message changes the lists. */
  lemma ListsAfterHandshake(p: Primitives, d: Device, m: FirstMessage, saves: Saves)
    requires Inv(d) && IsFirst(m) && HandshakeSucceeds(p, d, m)
    ensures
      var after := DecryptFirst(p, d, m, saves).0;
      if UsesPair(m) then
        var b, id := d.bundle.value, FromDict(m.initiation).value.opkId.value;
        var rest := b.(x25519Opks := Without(b.x25519Opks, id), kemOpks := Without(b.kemOpks, id));
        after.bundle == Some(rest) && after.disk == if saves.prekeys.FailedClean? then d.disk else rest
      else after.bundle == d.bundle && after.disk == d.disk
  {
    var init := FromDict(m.initiation).value;
    var sk := Respond(p, d.bundle.value, init, LoadOpkSecrets(d.bundle.value.x25519Opks),
                      LoadOpkSecrets(d.bundle.value.kemOpks)).value;
    ReceiveIsHandshake(p, d, m, saves, init, sk);
    HandshakeLists(d.(sessions := d.sessions - {m.conversation}), m, Pinned(d, m.conversation), init, sk, saves);
  }

  /** A failed handshake changes nothing but the conversation's session. */
  lemma FailedHandshakeForgets(p: Primitives, d: Device, m: FirstMessage, saves: Saves)
    requires IsFirst(m) && !HandshakeSucceeds(p, d, m)
    ensures
      var (after, r) := DecryptFirst(p, d, m, saves);
      r.Err? && after == if d.bundle.None? then d else d.(sessions := d.sessions - {m.conversation})
  {
  }

  /** A session is written exactly when all checks passed and its save took effect. */
  lemma SessionWrittenIff(p: Primitives, d: Device, m: FirstMessage, saves: Saves)
    requires Inv(d) && IsFirst(m)
    ensures
      var after := DecryptFirst(p, d, m, saves).0;
      if HandshakeSucceeds(p, d, m) && (UsesPair(m) ==> saves.prekeys.Saved?) && SenderChecks(d, m)
         && !saves.session.FailedClean?
      then |after.openings| == |d.openings| + 1 && after.openings[..|d.openings|] == d.openings
           && OpenedBy(m, after.openings[|d.openings|])
      else after.openings == d.openings
  {
    if HandshakeSucceeds(p, d, m) {
      var init := FromDict(m.initiation).value;
      var sk := Respond(p, d.bundle.value, init, LoadOpkSecrets(d.bundle.value.x25519Opks),
                        LoadOpkSecrets(d.bundle.value.kemOpks)).value;
      ReceiveIsHandshake(p, d, m, saves, init, sk);
      HandshakeResult(d.(sessions := d.sessions - {m.conversation}), m, Pinned(d, m.conversation), init, sk, saves);
    }
  }

  /** The session belongs to this message, which came with a key, a valid
      signature and a ciphertext the ratchet opened. */
  predicate OpenedBy(m: FirstMessage, o: Opening) {
    && m.senderKey != [] && m.signatureValid && m.decrypted.Some?
    && FromDict(m.initiation).Ok? && FromDict(m.initiation).value.opkId == o.opkId
    && FromDict(m.initiation).value.usedIdentityKem == o.usedIdentityKem
  }

  ghost predicate Witnessed(run: seq<Action>, o: Opening) {
    exists a :: a in run && a.Receive? && IsFirst(a.message) && OpenedBy(a.message, o)
  }

  /** Over every run, every session ever written comes from a validly signed
      first message of the run. */
  lemma {:induction false} OpeningsWereSigned(p: Primitives, start: IdentityBundle, run: seq<Action>)
    requires Sane(start)
    ensures forall o | o in After(p, start, run).openings :: Witnessed(run, o)
  {
    if run != [] {
      var prefix, a := run[..|run| - 1], run[|run| - 1];
      OpeningsWereSigned(p, start, prefix);
      PairOpensOnce(p, start, prefix);
      var d := After(p, start, prefix);
      forall o | o in After(p, start, run).openings
        ensures Witnessed(run, o)
      {
        if o in d.openings {
          var b :| b in prefix && b.Receive? && IsFirst(b.message) && OpenedBy(b.message, o);
          assert b in run;
        } else {
          SessionWrittenIff(p, d, a.message, a.saves);
          assert a in run;
        }
      }
    }
  }
}
