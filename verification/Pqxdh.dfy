/** The PQXDH handshake between an initiator and a responder
    (client/cryptography/core/pqxdh.py). */
module Pqxdh {
  import opened Bytes
  import opened Hex
  import opened Keys
  import opened Outcomes

  // ---------------------------------------------------------- primitives

  /** The cryptographic functions the handshake calls. None marks an input
      the library refuses. */
  datatype Primitives = Primitives(
    dh: (Bytes, Bytes) -> Option<Bytes>,
    dhPublic: Bytes -> Bytes,
    encapsulate: (Bytes, Bytes) -> Option<(Bytes, Bytes)>,
    decapsulate: (Bytes, Bytes) -> Option<Bytes>,
    kemPublic: Bytes -> Bytes,
    ed25519Verifies: (Bytes, Bytes, Bytes) -> bool,
    mlDsaVerifies: (Bytes, Bytes, Bytes) -> bool,
    hkdf: Bytes -> Bytes)
  {
    /** Diffie-Hellman commutes, and decapsulation inverts encapsulation. */
    ghost predicate Sound() {
      && (forall a, b :: dh(a, dhPublic(b)) == dh(b, dhPublic(a)))
      && (forall a :: |dhPublic(a)| == X25519_LENGTH)
      && (forall sk, coins :: encapsulate(kemPublic(sk), coins).Some? ==>
            var (ct, ss) := encapsulate(kemPublic(sk), coins).value;
            decapsulate(ct, sk) == Some(ss))
    }
  }

  const X25519_LENGTH: nat := 32
  const HYBRID_PUBLIC_KEY_LENGTH: nat := 2624
  const HYBRID_SIGNATURE_LENGTH: nat := 4691
  const ED25519_PUBLIC_KEY_LENGTH: nat := 32
  const ED25519_SIGNATURE_LENGTH: nat := 64

  datatype Error = BadHex | MissingField | Malformed | SignedPrekeyRefused | BadKey | NoPrekey | UnknownOpk

  function Need<T>(o: Option<T>, e: Error): Result<T, Error> {
    match o
    case Some(v) => Ok(v)
    case None => Err(e)
  }

  /** An exchange with a peer's raw public key; other lengths are refused. */
  function Exchange(p: Primitives, secret: Bytes, peer: Bytes): Result<Bytes, Error> {
    if |peer| != X25519_LENGTH then Err(BadKey) else Need(p.dh(secret, peer), BadKey)
  }

  /** Both halves of the hybrid signature must verify. None: a wrong length. */
  function VerifySignedPrekey(p: Primitives, spk: Bytes, signature: Bytes, ikSig: Bytes): Option<bool> {
    if |ikSig| != HYBRID_PUBLIC_KEY_LENGTH || |signature| != HYBRID_SIGNATURE_LENGTH then None
    else
      var edOk := p.ed25519Verifies(ikSig[..ED25519_PUBLIC_KEY_LENGTH], signature[..ED25519_SIGNATURE_LENGTH], spk);
      var dsaOk := p.mlDsaVerifies(ikSig[ED25519_PUBLIC_KEY_LENGTH..], signature[ED25519_SIGNATURE_LENGTH..], spk);
      Some(edOk && dsaOk)
  }

  // ------------------------------------------------- remote public bundle

  datatype PublicOpk = PublicOpk(opk_id: int, opk_pub: string)

  /** The bundle as received; an absent list is None. */
  datatype RemoteBundle = RemoteBundle(
    ik_classical_pub: string, ik_kem_pub: string, ik_sig_pub: string,
    spk_pub: string, spk_sig: string,
    opks_x25519: Option<seq<PublicOpk>>, opks_kem: Option<seq<PublicOpk>>)

  predicate SameIds(x25519: seq<PublicOpk>, kem: seq<PublicOpk>) {
    |x25519| == |kem| && forall i | 0 <= i < |x25519| :: x25519[i].opk_id == kem[i].opk_id
  }

  function ParseRemoteOpks(remote: RemoteBundle): Result<(seq<PublicOpk>, seq<PublicOpk>), Error> {
    if remote.opks_x25519.None? || remote.opks_kem.None? then Err(Malformed)
    else if !SameIds(remote.opks_x25519.value, remote.opks_kem.value) then Err(Malformed)
    else Ok((remote.opks_x25519.value, remote.opks_kem.value))
  }

  function PublicHalf(o: Opk): PublicOpk {
    PublicOpk(o.id, ToHex(o.publicKey))
  }

  function PublicHalves(opks: seq<Opk>): (r: seq<PublicOpk>)
    ensures |r| == |opks| && forall i | 0 <= i < |r| :: r[i] == PublicHalf(opks[i])
  {
    if opks == [] then [] else [PublicHalf(opks[0])] + PublicHalves(opks[1..])
  }

  /** What a device uploads about itself; refused when its lists are unpaired. */
  function ToPublicBundle(p: Primitives, b: IdentityBundle): Option<RemoteBundle> {
    if !Paired(b.x25519Opks, b.kemOpks) then None
    else Some(RemoteBundle(
      ToHex(p.dhPublic(b.ikClassical)), ToHex(b.ikKem.publicKey), ToHex(b.ikSig.publicKey),
      ToHex(p.dhPublic(b.spk)), ToHex(b.spkSignature),
      Some(PublicHalves(b.x25519Opks)), Some(PublicHalves(b.kemOpks))))
  }

  // ---------------------------------------------------- initiation bundle

  datatype InitiationBundle = InitiationBundle(
    ikClassical: Bytes, ek: Bytes, ctPq: Bytes, opkId: Option<int>, usedIdentityKem: bool)

  /** The JSON values a field may hold; Number is a number with an integer value. */
  datatype Json = Text(text: string) | Number(number: int) | Flag(flag: bool) | Null

  function ToDict(b: InitiationBundle): (d: map<string, Json>)
    ensures "ek_pub" in d
  {
    map["ik_classical_pub" := Text(ToHex(b.ikClassical)),
        "ek_pub" := Text(ToHex(b.ek)),
        "ct_pq" := Text(ToHex(b.ctPq)),
        "opk_id" := if b.opkId.Some? then Number(b.opkId.value) else Null,
        "used_identity_kem" := Flag(b.usedIdentityKem)]
  }

  function HexField(d: map<string, Json>, key: string): Result<Bytes, Error> {
    if key !in d then Err(MissingField)
    else if !d[key].Text? then Err(BadHex)
    else Need(FromHex(d[key].text), BadHex)
  }

  function Truthy(j: Json): bool {
    match j
    case Text(s) => s != ""
    case Number(n) => n != 0
    case Flag(f) => f
    case Null => false
  }

  /** A missing opk_id reads as none; true and false are the ids 1 and 0, as
      they are to the dictionary lookups; text is no id of any prekey. The other
      fields are required. */
  function FromDict(d: map<string, Json>): Result<InitiationBundle, Error> {
    var ik :- HexField(d, "ik_classical_pub");
    var ek :- HexField(d, "ek_pub");
    var ct :- HexField(d, "ct_pq");
    var opkId :-
      if "opk_id" !in d || d["opk_id"].Null? then Ok(None)
      else if d["opk_id"].Number? then Ok(Some(d["opk_id"].number))
      else if d["opk_id"].Flag? then Ok(Some(if d["opk_id"].flag then 1 else 0))
      else Err(UnknownOpk);
    if "used_identity_kem" !in d then Err(MissingField)
    else Ok(InitiationBundle(ik, ek, ct, opkId, Truthy(d["used_identity_kem"])))
  }

  lemma DictRoundTrip(b: InitiationBundle)
    ensures FromDict(ToDict(b)) == Ok(b)
  {
    HexRoundTrip(b.ikClassical);
    HexRoundTrip(b.ek);
    HexRoundTrip(b.ctPq);
  }

  // --------------------------------------------------------- the two sides

  /** Thirty-two bytes of 0xFF, as section 3.3 of the PQXDH specification asks. */
  const PADDING: Bytes := [
    0xFF, 0xFF, 0xFF, 0xFF, 0xFF, 0xFF, 0xFF, 0xFF,
    0xFF, 0xFF, 0xFF, 0xFF, 0xFF, 0xFF, 0xFF, 0xFF,
    0xFF, 0xFF, 0xFF, 0xFF, 0xFF, 0xFF, 0xFF, 0xFF,
    0xFF, 0xFF, 0xFF, 0xFF, 0xFF, 0xFF, 0xFF, 0xFF]

  /** F || DH1 || DH2 || DH3 || [DH4] || SS. */
  function KeyMaterial(dh1: Bytes, dh2: Bytes, dh3: Bytes, dh4: Bytes, ss: Bytes): Bytes {
    PADDING + dh1 + dh2 + dh3 + dh4 + ss
  }

  datatype Initiated = Initiated(sk: Bytes, bundle: InitiationBundle)

  /** Alice's ephemeral key and encapsulation coins are parameters. */
  function Initiate(p: Primitives, ikSecret: Bytes, ekSecret: Bytes, coins: Bytes,
                    remote: RemoteBundle, allowNoOpk: bool): Result<Initiated, Error> {
    var ikB :- Need(FromHex(remote.ik_classical_pub), BadHex);
    var ikKemB :- Need(FromHex(remote.ik_kem_pub), BadHex);
    var ikSigB :- Need(FromHex(remote.ik_sig_pub), BadHex);
    var spkB :- Need(FromHex(remote.spk_pub), BadHex);
    var spkSigB :- Need(FromHex(remote.spk_sig), BadHex);
    var (x25519, kem) :- ParseRemoteOpks(remote);
    if VerifySignedPrekey(p, spkB, spkSigB, ikSigB) != Some(true) then Err(SignedPrekeyRefused)
    else
      var dh1 :- Exchange(p, ikSecret, spkB);
      var dh2 :- Exchange(p, ekSecret, ikB);
      var dh3 :- Exchange(p, ekSecret, spkB);
      var (opkId, dh4) :- ClassicalOpkLeg(p, ekSecret, x25519);
      var (ct, ss, usedIdentity) :- PostQuantumLeg(p, kem, ikKemB, coins, allowNoOpk);
      Ok(Initiated(
        p.hkdf(KeyMaterial(dh1, dh2, dh3, dh4, ss)),
        InitiationBundle(p.dhPublic(ikSecret), p.dhPublic(ekSecret), ct, opkId, usedIdentity)))
  }

  function ClassicalOpkLeg(p: Primitives, ekSecret: Bytes, x25519: seq<PublicOpk>)
    : Result<(Option<int>, Bytes), Error>
  {
    if x25519 == [] then Ok((None, []))
    else
      var pub :- Need(FromHex(x25519[0].opk_pub), BadHex);
      var dh4 :- Exchange(p, ekSecret, pub);
      Ok((Some(x25519[0].opk_id), dh4))
  }

  /** The first one-time key when there is one, else the identity key when allowed. */
  function PostQuantumLeg(p: Primitives, kem: seq<PublicOpk>, ikKemB: Bytes, coins: Bytes, allowNoOpk: bool)
    : Result<(Bytes, Bytes, bool), Error>
  {
    if kem != [] then
      var pub :- Need(FromHex(kem[0].opk_pub), BadHex);
      var (ct, ss) :- Need(p.encapsulate(pub, coins), BadKey);
      Ok((ct, ss, false))
    else if allowNoOpk then
      var (ct, ss) :- Need(p.encapsulate(ikKemB, coins), BadKey);
      Ok((ct, ss, true))
    else Err(NoPrekey)
  }

  function Respond(p: Primitives, local: IdentityBundle, init: InitiationBundle,
                   x25519: map<int, Bytes>, kem: map<int, Bytes>): Result<Bytes, Error> {
    var dh1 :- Exchange(p, local.spk, init.ikClassical);
    var dh2 :- Exchange(p, local.ikClassical, init.ek);
    var dh3 :- Exchange(p, local.spk, init.ek);
    var dh4 :-
      if init.opkId.None? then Ok([])
      else if init.opkId.value !in x25519 then Err(UnknownOpk)
      else Exchange(p, x25519[init.opkId.value], init.ek);
    var kemSecret :-
      if init.usedIdentityKem then Ok(local.ikKem.secretKey)
      else if init.opkId.None? || init.opkId.value !in kem then Err(UnknownOpk)
      else Ok(kem[init.opkId.value]);
    var ss :- Need(p.decapsulate(init.ctPq, kemSecret), BadKey);
    Ok(p.hkdf(KeyMaterial(dh1, dh2, dh3, dh4, ss)))
  }

  /** Secret keys by id; a later entry with the same id replaces an earlier one. */
  function LoadOpkSecrets(opks: seq<Opk>): (m: map<int, Bytes>)
    ensures forall id :: id in m <==> HasId(opks, id)
  {
    if opks == [] then map[]
    else
      var n := |opks| - 1;
      assert opks == opks[..n] + [opks[n]];
      LoadOpkSecrets(opks[..n])[opks[n].id := opks[n].secretKey]
  }

  lemma {:induction false} LoadedSecret(opks: seq<Opk>, i: nat)
    requires i < |opks| && DistinctIds(opks)
    ensures HasId(opks, opks[i].id) && LoadOpkSecrets(opks)[opks[i].id] == opks[i].secretKey
  {
    var n := |opks| - 1;
    assert opks[i] in opks;
    if i < n {
      LoadedSecret(opks[..n], i);
    }
  }

  // ------------------------------------------------------------- agreement

  /** Bob's published halves belong to his secrets. */
  ghost predicate Genuine(p: Primitives, b: IdentityBundle) {
    && b.ikKem.publicKey == p.kemPublic(b.ikKem.secretKey)
    && (forall o | o in b.x25519Opks :: o.publicKey == p.dhPublic(o.secretKey))
    && (forall o | o in b.kemOpks :: o.publicKey == p.kemPublic(o.secretKey))
  }

  /** Every entry is the public half of one of the prekeys. */
  ghost predicate DrawnFrom(published: seq<PublicOpk>, opks: seq<Opk>) {
    forall e | e in published :: exists o :: o in opks && e == PublicHalf(o)
  }

  /** The bundle shows Bob's identity and offers only prekeys he holds. */
  ghost predicate Offers(p: Primitives, bob: IdentityBundle, remote: RemoteBundle) {
    && remote.ik_classical_pub == ToHex(p.dhPublic(bob.ikClassical))
    && remote.ik_kem_pub == ToHex(bob.ikKem.publicKey)
    && remote.spk_pub == ToHex(p.dhPublic(bob.spk))
    && (remote.opks_x25519.Some? ==> DrawnFrom(remote.opks_x25519.value, bob.x25519Opks))
    && (remote.opks_kem.Some? ==> DrawnFrom(remote.opks_kem.value, bob.kemOpks))
  }

  /** Which leg was used: the one-time path exactly when a pair was offered. */
  lemma LegUsed(p: Primitives, ikSecret: Bytes, ekSecret: Bytes, coins: Bytes, remote: RemoteBundle, allowNoOpk: bool)
    requires Initiate(p, ikSecret, ekSecret, coins, remote, allowNoOpk).Ok?
    ensures ParseRemoteOpks(remote).Ok?
    ensures
      var bundle := Initiate(p, ikSecret, ekSecret, coins, remote, allowNoOpk).value.bundle;
      var (x25519, kem) := ParseRemoteOpks(remote).value;
      && (bundle.usedIdentityKem <==> x25519 == [])
      && (bundle.usedIdentityKem ==> allowNoOpk)
      && (bundle.opkId.None? <==> x25519 == [])
      && (x25519 != [] ==> bundle.opkId == Some(x25519[0].opk_id) && kem != [] && kem[0].opk_id == x25519[0].opk_id)
  {
  }

  /** The maps hold the secrets behind the first offered pair. */
  ghost predicate HoldsFirst(p: Primitives, x25519: seq<PublicOpk>, kem: seq<PublicOpk>,
                             x25519Secrets: map<int, Bytes>, kemSecrets: map<int, Bytes>) {
    x25519 != [] && kem != [] ==>
      var id := x25519[0].opk_id;
      && id in x25519Secrets && FromHex(x25519[0].opk_pub) == Some(p.dhPublic(x25519Secrets[id]))
      && id in kemSecrets && FromHex(kem[0].opk_pub) == Some(p.kemPublic(kemSecrets[id]))
  }

  lemma SameMaterial(p: Primitives, ikSecret: Bytes, ekSecret: Bytes, coins: Bytes, bob: IdentityBundle,
                     remote: RemoteBundle, allowNoOpk: bool, x25519: map<int, Bytes>, kem: map<int, Bytes>)
    requires p.Sound() && bob.ikKem.publicKey == p.kemPublic(bob.ikKem.secretKey)
    requires FromHex(remote.ik_classical_pub) == Some(p.dhPublic(bob.ikClassical))
    requires FromHex(remote.ik_kem_pub) == Some(bob.ikKem.publicKey)
    requires FromHex(remote.spk_pub) == Some(p.dhPublic(bob.spk))
    requires Initiate(p, ikSecret, ekSecret, coins, remote, allowNoOpk).Ok?
    requires ParseRemoteOpks(remote).Ok?
    requires HoldsFirst(p, ParseRemoteOpks(remote).value.0, ParseRemoteOpks(remote).value.1, x25519, kem)
    ensures
      var alice := Initiate(p, ikSecret, ekSecret, coins, remote, allowNoOpk).value;
      Respond(p, bob, alice.bundle, x25519, kem) == Ok(alice.sk)
  {
    assert Exchange(p, ikSecret, p.dhPublic(bob.spk)) == Exchange(p, bob.spk, p.dhPublic(ikSecret));
    assert Exchange(p, ekSecret, p.dhPublic(bob.ikClassical)) == Exchange(p, bob.ikClassical, p.dhPublic(ekSecret));
    assert Exchange(p, ekSecret, p.dhPublic(bob.spk)) == Exchange(p, bob.spk, p.dhPublic(ekSecret));
  }

  /** Main result: whenever the initiator accepts a bundle that shows the
      responder's keys, the responder derives the same secret from the
      serialised initiation and the maps loaded from his own lists. */
  lemma SecretsAgree(p: Primitives, ikSecret: Bytes, ekSecret: Bytes, coins: Bytes,
                     bob: IdentityBundle, remote: RemoteBundle, allowNoOpk: bool)
    requires p.Sound() && Genuine(p, bob) && Offers(p, bob, remote)
    requires Paired(bob.x25519Opks, bob.kemOpks) && DistinctIds(bob.x25519Opks)
    requires Initiate(p, ikSecret, ekSecret, coins, remote, allowNoOpk).Ok?
    ensures
      var alice := Initiate(p, ikSecret, ekSecret, coins, remote, allowNoOpk).value;
      var received := FromDict(ToDict(alice.bundle));
      && received.Ok?
      && Respond(p, bob, received.value, LoadOpkSecrets(bob.x25519Opks), LoadOpkSecrets(bob.kemOpks)) == Ok(alice.sk)
  {
    DictRoundTrip(Initiate(p, ikSecret, ekSecret, coins, remote, allowNoOpk).value.bundle);
    HexRoundTrip(p.dhPublic(bob.ikClassical));
    HexRoundTrip(bob.ikKem.publicKey);
    HexRoundTrip(p.dhPublic(bob.spk));
    LegUsed(p, ikSecret, ekSecret, coins, remote, allowNoOpk);
    var x25519Secrets, kemSecrets := LoadOpkSecrets(bob.x25519Opks), LoadOpkSecrets(bob.kemOpks);
    FirstIsHeld(p, bob, remote, x25519Secrets, kemSecrets);
    SameMaterial(p, ikSecret, ekSecret, coins, bob, remote, allowNoOpk, x25519Secrets, kemSecrets);
  }

  lemma FirstIsHeld(p: Primitives, bob: IdentityBundle, remote: RemoteBundle,
                    x25519Secrets: map<int, Bytes>, kemSecrets: map<int, Bytes>)
    requires Genuine(p, bob) && Offers(p, bob, remote)
    requires Paired(bob.x25519Opks, bob.kemOpks) && DistinctIds(bob.x25519Opks)
    requires ParseRemoteOpks(remote).Ok?
    requires x25519Secrets == LoadOpkSecrets(bob.x25519Opks) && kemSecrets == LoadOpkSecrets(bob.kemOpks)
    ensures HoldsFirst(p, ParseRemoteOpks(remote).value.0, ParseRemoteOpks(remote).value.1, x25519Secrets, kemSecrets)
  {
    var (x25519, kem) := ParseRemoteOpks(remote).value;
    if x25519 != [] && kem != [] {
      var i := OfferedPair(bob, x25519, kem);
      LoadedSecret(bob.x25519Opks, i);
      LoadedSecret(bob.kemOpks, i);
      HexRoundTrip(bob.x25519Opks[i].publicKey);
      HexRoundTrip(bob.kemOpks[i].publicKey);
    }
  }

  /** First entries with one id, each from its own list, come from one pair. */
  lemma FirstSource(offered: seq<PublicOpk>, opks: seq<Opk>) returns (i: nat)
    requires DrawnFrom(offered, opks) && offered != []
    ensures i < |opks| && offered[0] == PublicHalf(opks[i]) && opks[i].id == offered[0].opk_id
  {
    assert offered[0] in offered;
    i :| 0 <= i < |opks| && offered[0] == PublicHalf(opks[i]);
  }

  lemma OfferedPair(bob: IdentityBundle, x25519: seq<PublicOpk>, kem: seq<PublicOpk>) returns (i: nat)
    requires Paired(bob.x25519Opks, bob.kemOpks) && DistinctIds(bob.x25519Opks)
    requires DrawnFrom(x25519, bob.x25519Opks) && DrawnFrom(kem, bob.kemOpks)
    requires x25519 != [] && kem != [] && x25519[0].opk_id == kem[0].opk_id
    ensures i < |bob.x25519Opks| && x25519[0] == PublicHalf(bob.x25519Opks[i]) && kem[0] == PublicHalf(bob.kemOpks[i])
    ensures DistinctIds(bob.kemOpks)
  {
    i := FirstSource(x25519, bob.x25519Opks);
    var j := FirstSource(kem, bob.kemOpks);
    assert bob.x25519Opks[j].id == bob.kemOpks[j].id;
    assert i == j;
  }

  /** A device's own upload is such a bundle. */
  lemma OwnBundleOffers(p: Primitives, bob: IdentityBundle)
    requires ToPublicBundle(p, bob).Some?
    ensures Offers(p, bob, ToPublicBundle(p, bob).value)
    ensures ParseRemoteOpks(ToPublicBundle(p, bob).value).Ok?
    ensures ToPublicBundle(p, bob).value.ik_sig_pub == ToHex(bob.ikSig.publicKey)
    ensures ToPublicBundle(p, bob).value.spk_sig == ToHex(bob.spkSignature)
  {
    var remote := ToPublicBundle(p, bob).value;
    forall e | e in remote.opks_x25519.value ensures exists o :: o in bob.x25519Opks && e == PublicHalf(o) {
      var i :| 0 <= i < |bob.x25519Opks| && e == remote.opks_x25519.value[i];
      assert bob.x25519Opks[i] in bob.x25519Opks;
    }
    forall e | e in remote.opks_kem.value ensures exists o :: o in bob.kemOpks && e == PublicHalf(o) {
      var i :| 0 <= i < |bob.kemOpks| && e == remote.opks_kem.value[i];
      assert bob.kemOpks[i] in bob.kemOpks;
    }
  }

  // --------------------------------------- the handshake, written out once

  /** Both halves of the signature verify, each over the whole prekey. */
  predicate SignedByBoth(p: Primitives, ikSig: Bytes, signature: Bytes, spk: Bytes) {
    && |ikSig| == 2624 && |signature| == 4691
    && p.ed25519Verifies(ikSig[..32], signature[..64], spk)
    && p.mlDsaVerifies(ikSig[32..], signature[64..], spk)
  }

  /** A bundle that does not decode to a prekey signed by its identity key with
      both algorithms ends the handshake; one valid half is not enough. */
  lemma SubstitutedPrekeyRefused(p: Primitives, ikSecret: Bytes, ekSecret: Bytes, coins: Bytes,
                                 remote: RemoteBundle, allowNoOpk: bool)
    ensures Initiate(p, ikSecret, ekSecret, coins, remote, allowNoOpk).Ok? ==>
      && FromHex(remote.spk_pub).Some? && FromHex(remote.spk_sig).Some? && FromHex(remote.ik_sig_pub).Some?
      && SignedByBoth(p, FromHex(remote.ik_sig_pub).value, FromHex(remote.spk_sig).value, FromHex(remote.spk_pub).value)
  {
  }

  /** What an exchange with a received key needs. */
  predicate Exchanges(p: Primitives, secret: Bytes, peer: Option<Bytes>) {
    peer.Some? && |peer.value| == 32 && p.dh(secret, peer.value).Some?
  }

  ghost predicate ThirtyTwoOnes(f: Bytes) {
    |f| == 32 && forall i | 0 <= i < 32 :: f[i] == 0xFF
  }

  /** The secret is derived from 32 bytes of 0xFF, the exchanges in order and the KEM secret. */
  ghost predicate DerivedFrom(p: Primitives, sk: Bytes, exchanges: Bytes, ss: Bytes) {
    exists f :: ThirtyTwoOnes(f) && sk == p.hkdf(f + exchanges + ss)
  }

  lemma MaterialBytes(p: Primitives, dh1: Bytes, dh2: Bytes, dh3: Bytes, dh4: Bytes, ss: Bytes)
    ensures DerivedFrom(p, p.hkdf(KeyMaterial(dh1, dh2, dh3, dh4, ss)), dh1 + dh2 + dh3 + dh4, ss)
  {
    assert ThirtyTwoOnes(PADDING);
    assert KeyMaterial(dh1, dh2, dh3, dh4, ss) == PADDING + (dh1 + dh2 + dh3 + dh4) + ss;
  }

  /** The identity part of a bundle allows a handshake. */
  predicate UsableIdentity(p: Primitives, ikSecret: Bytes, ekSecret: Bytes, remote: RemoteBundle) {
    && FromHex(remote.ik_kem_pub).Some?
    && FromHex(remote.spk_pub).Some? && FromHex(remote.spk_sig).Some? && FromHex(remote.ik_sig_pub).Some?
    && SignedByBoth(p, FromHex(remote.ik_sig_pub).value, FromHex(remote.spk_sig).value, FromHex(remote.spk_pub).value)
    && Exchanges(p, ikSecret, FromHex(remote.spk_pub))
    && Exchanges(p, ekSecret, FromHex(remote.ik_classical_pub))
    && Exchanges(p, ekSecret, FromHex(remote.spk_pub))
  }

  predicate SameLists(remote: RemoteBundle) {
    && remote.opks_x25519.Some? && remote.opks_kem.Some?
    && |remote.opks_x25519.value| == |remote.opks_kem.value|
    && forall i | 0 <= i < |remote.opks_x25519.value| ::
         remote.opks_x25519.value[i].opk_id == remote.opks_kem.value[i].opk_id
  }

  /** The first offered pair allows a handshake, or there is none and the fallback does. */
  predicate UsablePrekey(p: Primitives, ekSecret: Bytes, coins: Bytes, remote: RemoteBundle, allowNoOpk: bool)
    requires SameLists(remote) && FromHex(remote.ik_kem_pub).Some?
  {
    if remote.opks_x25519.value == [] then
      allowNoOpk && p.encapsulate(FromHex(remote.ik_kem_pub).value, coins).Some?
    else
      && Exchanges(p, ekSecret, FromHex(remote.opks_x25519.value[0].opk_pub))
      && FromHex(remote.opks_kem.value[0].opk_pub).Some?
      && p.encapsulate(FromHex(remote.opks_kem.value[0].opk_pub).value, coins).Some?
  }

  /** Exactly when the initiator goes through with the handshake. */
  lemma InitiatesIff(
    p: Primitives, ikSecret: Bytes, ekSecret: Bytes, coins: Bytes, remote: RemoteBundle, allowNoOpk: bool)
    ensures Initiate(p, ikSecret, ekSecret, coins, remote, allowNoOpk).Ok? <==>
      && UsableIdentity(p, ikSecret, ekSecret, remote) && SameLists(remote)
      && UsablePrekey(p, ekSecret, coins, remote, allowNoOpk)
  {
  }

  /** And what it then derives and sends. */
  lemma InitiatedKey(
    p: Primitives, ikSecret: Bytes, ekSecret: Bytes, coins: Bytes, remote: RemoteBundle, allowNoOpk: bool)
    requires UsableIdentity(p, ikSecret, ekSecret, remote) && SameLists(remote)
    requires UsablePrekey(p, ekSecret, coins, remote, allowNoOpk)
    ensures Initiate(p, ikSecret, ekSecret, coins, remote, allowNoOpk).Ok?
    ensures
      var r := Initiate(p, ikSecret, ekSecret, coins, remote, allowNoOpk).value;
      var spkB, ikB := FromHex(remote.spk_pub).value, FromHex(remote.ik_classical_pub).value;
      var identity := p.dh(ikSecret, spkB).value + p.dh(ekSecret, ikB).value + p.dh(ekSecret, spkB).value;
      && r.bundle.ikClassical == p.dhPublic(ikSecret) && r.bundle.ek == p.dhPublic(ekSecret)
      && (if remote.opks_x25519.value == [] then
            var (ct, ss) := p.encapsulate(FromHex(remote.ik_kem_pub).value, coins).value;
            && r.bundle.opkId == None && r.bundle.usedIdentityKem && r.bundle.ctPq == ct
            && DerivedFrom(p, r.sk, identity, ss)
          else
            var first := remote.opks_x25519.value[0];
            var (ct, ss) := p.encapsulate(FromHex(remote.opks_kem.value[0].opk_pub).value, coins).value;
            && r.bundle.opkId == Some(first.opk_id) && !r.bundle.usedIdentityKem && r.bundle.ctPq == ct
            && DerivedFrom(p, r.sk, identity + p.dh(ekSecret, FromHex(first.opk_pub).value).value, ss))
  {
    InitiatesIff(p, ikSecret, ekSecret, coins, remote, allowNoOpk);
    var spkB, ikB := FromHex(remote.spk_pub).value, FromHex(remote.ik_classical_pub).value;
    var dh1, dh2, dh3 := p.dh(ikSecret, spkB).value, p.dh(ekSecret, ikB).value, p.dh(ekSecret, spkB).value;
    if remote.opks_x25519.value == [] {
      var (ct, ss) := p.encapsulate(FromHex(remote.ik_kem_pub).value, coins).value;
      MaterialBytes(p, dh1, dh2, dh3, [], ss);
      assert dh1 + dh2 + dh3 + [] == dh1 + dh2 + dh3;
    } else {
      var dh4 := p.dh(ekSecret, FromHex(remote.opks_x25519.value[0].opk_pub).value).value;
      var (ct, ss) := p.encapsulate(FromHex(remote.opks_kem.value[0].opk_pub).value, coins).value;
      MaterialBytes(p, dh1, dh2, dh3, dh4, ss);
    }
  }

  /** The responder's secret for the KEM: the identity's when the initiation says
      so, else the named prekey's. */
  predicate KnownKem(init: InitiationBundle, kem: map<int, Bytes>) {
    init.usedIdentityKem || (init.opkId.Some? && init.opkId.value in kem)
  }

  function KemSecret(local: IdentityBundle, init: InitiationBundle, kem: map<int, Bytes>): Bytes
    requires KnownKem(init, kem)
  {
    if init.usedIdentityKem then local.ikKem.secretKey else kem[init.opkId.value]
  }

  /** Exactly when the responder derives a secret, and which. */
  lemma RespondsIff(
    p: Primitives, local: IdentityBundle, init: InitiationBundle, x25519: map<int, Bytes>, kem: map<int, Bytes>)
    ensures Respond(p, local, init, x25519, kem).Ok? <==>
      && Exchanges(p, local.spk, Some(init.ikClassical)) && Exchanges(p, local.ikClassical, Some(init.ek))
      && Exchanges(p, local.spk, Some(init.ek))
      && (init.opkId.Some? ==> init.opkId.value in x25519 && Exchanges(p, x25519[init.opkId.value], Some(init.ek)))
      && KnownKem(init, kem) && p.decapsulate(init.ctPq, KemSecret(local, init, kem)).Some?
    ensures Respond(p, local, init, x25519, kem).Ok? ==>
      var dh1, dh2 := p.dh(local.spk, init.ikClassical).value, p.dh(local.ikClassical, init.ek).value;
      var dh3 := p.dh(local.spk, init.ek).value;
      var dh4 := if init.opkId.Some? then p.dh(x25519[init.opkId.value], init.ek).value else [];
      DerivedFrom(p, Respond(p, local, init, x25519, kem).value, dh1 + dh2 + dh3 + dh4,
                  p.decapsulate(init.ctPq, KemSecret(local, init, kem)).value)
  {
    if Respond(p, local, init, x25519, kem).Ok? {
      MaterialBytes(p, p.dh(local.spk, init.ikClassical).value, p.dh(local.ikClassical, init.ek).value,
                    p.dh(local.spk, init.ek).value,
                    if init.opkId.Some? then p.dh(x25519[init.opkId.value], init.ek).value else [],
                    p.decapsulate(init.ctPq, KemSecret(local, init, kem)).value);
    }
  }

  /** The initiation as the peer receives it, field by field. */
  lemma DictFields(b: InitiationBundle)
    ensures ToDict(b).Keys == {"ik_classical_pub", "ek_pub", "ct_pq", "opk_id", "used_identity_kem"}
    ensures ToDict(b)["ik_classical_pub"] == Text(ToHex(b.ikClassical))
    ensures ToDict(b)["ek_pub"] == Text(ToHex(b.ek)) && ToDict(b)["ct_pq"] == Text(ToHex(b.ctPq))
    ensures ToDict(b)["opk_id"] == if b.opkId.Some? then Number(b.opkId.value) else Null
    ensures ToDict(b)["used_identity_kem"] == Flag(b.usedIdentityKem)
  {
  }

  /** Once a pair is consumed, every initiation naming it is refused, whatever
      path it claims. */
  lemma ConsumedPairRefused(p: Primitives, local: IdentityBundle, init: InitiationBundle,
                            x25519: seq<Opk>, kem: seq<Opk>, id: int)
    requires init.opkId == Some(id)
    ensures Respond(p, local, init, LoadOpkSecrets(Without(x25519, id)), LoadOpkSecrets(Without(kem, id))).Err?
  {
    var left := LoadOpkSecrets(Without(x25519, id));
    WithoutIds(x25519, id, id);
    assert id !in left;
    UnknownIdRefused(p, local, init, left, LoadOpkSecrets(Without(kem, id)));
  }

  lemma UnknownIdRefused(p: Primitives, local: IdentityBundle, init: InitiationBundle,
                         x25519: map<int, Bytes>, kem: map<int, Bytes>)
    requires init.opkId.Some? && init.opkId.value !in x25519
    ensures Respond(p, local, init, x25519, kem).Err?
  {
  }

  /** With exchanges and shared secrets of 32 bytes, the key material determines
      every leg and whether the one-time leg is present. */
  lemma MaterialDeterminesLegs(a: seq<Bytes>, b: seq<Bytes>)
    requires |a| == 5 && |b| == 5
    requires forall i | 0 <= i < 5 && i != 3 :: |a[i]| == 32 && |b[i]| == 32
    requires |a[3]| in {0, 32} && |b[3]| in {0, 32}
    requires KeyMaterial(a[0], a[1], a[2], a[3], a[4]) == KeyMaterial(b[0], b[1], b[2], b[3], b[4])
    ensures a == b
  {
    var f := PADDING;
    SplitEqual(f + a[0] + a[1] + a[2] + a[3], a[4], f + b[0] + b[1] + b[2] + b[3], b[4]);
    SplitEqual(f + a[0] + a[1] + a[2], a[3], f + b[0] + b[1] + b[2], b[3]);
    SplitEqual(f + a[0] + a[1], a[2], f + b[0] + b[1], b[2]);
    SplitEqual(f + a[0], a[1], f + b[0], b[1]);
    SplitEqual(f, a[0], f, b[0]);
  }
}
