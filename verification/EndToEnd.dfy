/** From the server's pool to the responder's session: a run of the pool and a
    run of the responder's device together. */
module EndToEnd {
  import opened Bytes
  import opened Keys
  import opened Outcomes
  import opened Pqxdh
  import Pool = KeyServer
  import Device = OpkResponder

  /** Lists that only lost pairs still hold a pair whole when they know its id. */
  lemma HeldPairIsWhole(b: IdentityBundle, start: IdentityBundle, id: int)
    requires Device.Sane(start) && Device.Sane(b) && Device.ShrunkFrom(b, start) && HasId(b.x25519Opks, id)
    ensures Pool.StillHolds(start, b, Some(id))
  {
    PairedIds(b.x25519Opks, b.kemOpks, id);
    var x :| x in b.x25519Opks && x.id == id;
    var k :| k in b.kemOpks && k.id == id;
    SoleEntry(start.x25519Opks, x);
    PairedDistinct(start);
    SoleEntry(start.kemOpks, k);
  }

  lemma PairedDistinct(b: IdentityBundle)
    requires Device.Sane(b)
    ensures DistinctIds(b.kemOpks)
  {
    forall i, j | 0 <= i < j < |b.kemOpks| ensures b.kemOpks[i].id != b.kemOpks[j].id {
      assert b.x25519Opks[i].id != b.x25519Opks[j].id;
    }
  }

  lemma SoleEntry(opks: seq<Opk>, o: Opk)
    requires DistinctIds(opks) && o in opks
    ensures forall q | q in opks && q.id == o.id :: q == o
  {
  }

  lemma ShrunkStaysGenuine(p: Primitives, b: IdentityBundle, start: IdentityBundle)
    requires Genuine(p, start) && Device.ShrunkFrom(b, start)
    ensures Genuine(p, b)
  {
  }

  /** The device published its lists once and uploads nothing else under the picked id. */
  ghost predicate PublishedFrom(run: seq<Pool.Action>, n: nat, device: string, pick: Option<int>, start: IdentityBundle)
    requires n <= |run|
  {
    pick.Some? ==> forall i | 0 <= i < n :: Pool.UploadsOwn(run[i], device, pick.value, start)
  }

  lemma OwnedThroughout(run: seq<Pool.Action>, n: nat, device: string, id: int, start: IdentityBundle)
    requires n <= |run| && PublishedFrom(run, n, device, Some(id), start)
    ensures Pool.Owned(run, n, device, id, (i: nat) => start)
  {
  }

  lemma ServedToHolder(run: seq<Pool.Action>, n: nat, device: string, locked: set<int>, pick: Option<int>,
                       p: Primitives, start: IdentityBundle, b: IdentityBundle, remote: RemoteBundle)
    requires n <= |run| && Pool.After(run, n).Some? && Pool.Picks(Pool.After(run, n).value.rows, device, locked, pick)
    requires PublishedFrom(run, n, device, pick, start) && Device.Sane(start) && Device.Sane(b)
    requires Device.ShrunkFrom(b, start) && (pick.Some? ==> HasId(b.x25519Opks, pick.value))
    requires Pool.Serves(run, n, device, pick, p, start, remote)
    ensures Offers(p, b, remote)
  {
    if pick.Some? {
      OwnedThroughout(run, n, device, pick.value, start);
      HeldPairIsWhole(b, start, pick.value);
    }
    Pool.ServedIsOffered(run, n, device, locked, pick, p, (i: nat) => start, b, remote);
  }

  /** An initiation naming an id the lists lack is refused. */
  lemma MissingPairRefused(p: Primitives, d: Device.Device, m: Device.FirstMessage, init: InitiationBundle)
    requires d.bundle.Some? && Device.IsFirst(m) && FromDict(m.initiation) == Ok(init)
    requires init.opkId.Some? && !HasId(d.bundle.value.x25519Opks, init.opkId.value)
    ensures Device.DecryptFirst(p, d, m, Device.Saves(Saved, Saved, Saved)).1.Err?
  {
    var b := d.bundle.value;
    UnknownIdRefused(p, b, init, LoadOpkSecrets(b.x25519Opks), LoadOpkSecrets(b.kemOpks));
  }

  /** Main result: after any run of the pool and any run of the responder's
      device, an initiator who was served the pair picked for her, or none, gets
      through with her first message, when its saves succeed, exactly when the
      device still holds that pair; and then the session opens with her secret. */
  lemma ServedInitiatorOpensIff(
    run: seq<Pool.Action>, n: nat, device: string, locked: set<int>, pick: Option<int>,
    p: Primitives, start: IdentityBundle, life: seq<Device.Action>,
    ikSecret: Bytes, ekSecret: Bytes, coins: Bytes, remote: RemoteBundle, allowNoOpk: bool, m: Device.FirstMessage)
    requires n <= |run| && Pool.After(run, n).Some? && Pool.Picks(Pool.After(run, n).value.rows, device, locked, pick)
    requires PublishedFrom(run, n, device, pick, start) && Pool.Serves(run, n, device, pick, p, start, remote)
    requires p.Sound() && Device.Sane(start) && Genuine(p, start)
    requires Device.After(p, start, life).bundle.Some?
    requires Initiate(p, ikSecret, ekSecret, coins, remote, allowNoOpk).Ok?
    requires m.initiation == ToDict(Initiate(p, ikSecret, ekSecret, coins, remote, allowNoOpk).value.bundle)
    requires Device.Acceptable(Device.After(p, start, life), m)
    ensures
      var d := Device.After(p, start, life);
      var alice := Initiate(p, ikSecret, ekSecret, coins, remote, allowNoOpk).value;
      var result := Device.DecryptFirst(p, d, m, Device.Saves(Saved, Saved, Saved));
      && (result.1.Ok? <==> (pick.Some? ==> HasId(d.bundle.value.x25519Opks, pick.value)))
      && (result.1.Ok? ==> Device.InitiationOpened(d, m, alice, result))
  {
    var d := Device.After(p, start, life);
    var alice := Initiate(p, ikSecret, ekSecret, coins, remote, allowNoOpk).value;
    Device.PairOpensOnce(p, start, life);
    Device.ListsOnlyShrink(p, start, life);
    ShrunkStaysGenuine(p, d.bundle.value, start);
    Pool.ServedLeg(run, n, device, pick, p, start, remote, ikSecret, ekSecret, coins, allowNoOpk);
    if pick.Some? && !HasId(d.bundle.value.x25519Opks, pick.value) {
      DictRoundTrip(alice.bundle);
      MissingPairRefused(p, d, m, alice.bundle);
    } else {
      ServedToHolder(run, n, device, locked, pick, p, start, d.bundle.value, remote);
      Device.OfferedKeysOpen(p, d, ikSecret, ekSecret, coins, remote, allowNoOpk, m);
    }
  }

  /** It does hold the pair as long as no other first message named it. */
  lemma UnnamedPairIsHeld(p: Primitives, start: IdentityBundle, life: seq<Device.Action>, id: int)
    requires Device.Sane(start) && HasId(start.x25519Opks, id)
    requires forall a | a in life :: !Device.Names(a, id)
    requires Device.After(p, start, life).bundle.Some?
    ensures HasId(Device.After(p, start, life).bundle.value.x25519Opks, id)
  {
    PairedIds(start.x25519Opks, start.kemOpks, id);
    var x :| x in start.x25519Opks && x.id == id;
    var k :| k in start.kemOpks && k.id == id;
    Device.UnnamedPairStays(p, start, life, x, k);
  }
}
