/** Hexadecimal text, as used in every serialised key. */
module Hex {
  import opened Bytes
  import opened Outcomes

  const DIGITS := "0123456789abcdef"

  function DigitValue(c: char): (v: Option<nat>)
    ensures v.Some? ==> v.value < 16
  {
    if '0' <= c <= '9' then Some(c as int - '0' as int)
    else if 'a' <= c <= 'f' then Some(c as int - 'a' as int + 10)
    else if 'A' <= c <= 'F' then Some(c as int - 'A' as int + 10)
    else None
  }

  function ToHex(b: Bytes): (s: string)
    ensures |s| == 2 * |b|
  {
    if b == [] then "" else [DIGITS[b[0] / 16], DIGITS[b[0] % 16]] + ToHex(b[1..])
  }

  function FromHex(s: string): Option<Bytes> {
    if s == "" then Some([])
    else if |s| == 1 then None
    else
      var hi :- DigitValue(s[0]);
      var lo :- DigitValue(s[1]);
      var rest :- FromHex(s[2..]);
      Some([16 * hi + lo] + rest)
  }

  /** Two lower-case digits a byte, the high half first. */
  lemma {:induction false} HexDigits(b: Bytes, i: nat)
    requires i < |b|
    ensures ToHex(b)[2 * i] == "0123456789abcdef"[b[i] / 16]
    ensures ToHex(b)[2 * i + 1] == "0123456789abcdef"[b[i] % 16]
  {
    if i > 0 {
      HexDigits(b[1..], i - 1);
      assert ToHex(b)[2..] == ToHex(b[1..]);
      assert ToHex(b)[2 * i] == ToHex(b)[2..][2 * (i - 1)];
      assert ToHex(b)[2 * i + 1] == ToHex(b)[2..][2 * (i - 1) + 1];
    }
  }

  lemma DigitRoundTrip(n: nat)
    requires n < 16
    ensures DigitValue(DIGITS[n]) == Some(n)
  {
  }

  lemma FirstByte(n: byte, digits: string)
    requires |digits| >= 2 && digits[0] == DIGITS[n / 16] && digits[1] == DIGITS[n % 16]
    ensures FromHex(digits) == match FromHex(digits[2..]) case Some(rest) => Some([n] + rest) case None => None
  {
    DigitRoundTrip(n / 16);
    DigitRoundTrip(n % 16);
  }

  lemma {:induction false} HexRoundTrip(b: Bytes)
    ensures FromHex(ToHex(b)) == Some(b)
  {
    if b != [] {
      var s := ToHex(b);
      HexRoundTrip(b[1..]);
      assert s[2..] == ToHex(b[1..]);
      FirstByte(b[0], s);
      assert [b[0]] + b[1..] == b;
    }
  }

  /** How the server reads hex: decodes up to the first bad digit pair and drops the rest, without error. */
  function DecodeLenient(s: string): Bytes {
    if |s| < 2 || DigitValue(s[0]).None? || DigitValue(s[1]).None? then []
    else [16 * DigitValue(s[0]).value + DigitValue(s[1]).value] + DecodeLenient(s[2..])
  }

  lemma LenientFirstByte(n: byte, digits: string)
    requires |digits| >= 2 && digits[0] == DIGITS[n / 16] && digits[1] == DIGITS[n % 16]
    ensures DecodeLenient(digits) == [n] + DecodeLenient(digits[2..])
  {
    DigitRoundTrip(n / 16);
    DigitRoundTrip(n % 16);
  }

  lemma {:induction false} LenientDecodesHex(b: Bytes)
    ensures DecodeLenient(ToHex(b)) == b
  {
    if b != [] {
      var s := ToHex(b);
      assert s[2..] == ToHex(b[1..]);
      LenientDecodesHex(b[1..]);
      LenientFirstByte(b[0], s);
      assert [b[0]] + b[1..] == b;
    }
  }
}

/** One-time prekeys and their pairing (client/cryptography/core/keys.py). */
module Keys {
  import opened Bytes
  import opened Hex
  import opened Outcomes

  /** An entry of either one-time prekey list. */
  datatype Opk = Opk(id: int, publicKey: Bytes, secretKey: Bytes)

  datatype KeyPair = KeyPair(publicKey: Bytes, secretKey: Bytes)

  /** The invariant _assert_opk_lists_valid enforces. */
  predicate Paired(x25519: seq<Opk>, kem: seq<Opk>) {
    |x25519| == |kem| && forall i | 0 <= i < |x25519| :: x25519[i].id == kem[i].id
  }

  ghost predicate DistinctIds(opks: seq<Opk>) {
    forall i, j | 0 <= i < j < |opks| :: opks[i].id != opks[j].id
  }

  predicate HasId(opks: seq<Opk>, id: int) {
    exists o :: o in opks && o.id == id
  }

  /** Consecutive ids from first on, the i-th entry from the i-th key of the source. */
  ghost predicate Generated(opks: seq<Opk>, first: int, source: nat -> KeyPair) {
    forall i | 0 <= i < |opks| :: opks[i] == Opk(first + i, source(i).publicKey, source(i).secretKey)
  }

  /** count fresh prekeys with consecutive ids, the i-th from the i-th key generated. */
  method GenerateOneTimePrekeys(count: int, startId: int, source: nat -> KeyPair) returns (result: seq<Opk>)
    ensures |result| == (if count < 0 then 0 else count) && Generated(result, startId, source)
  {
    result := [];
    var i := 0;
    while i < count
      invariant 0 <= i && (i <= count || i == 0)
      invariant |result| == i
      invariant Generated(result, startId, source)
    {
      var kp := source(i);
      result := result + [Opk(startId + i, kp.publicKey, kp.secretKey)];
      i := i + 1;
    }
  }

  method GenerateOpkPairs(count: int, startId: int, sourceX25519: nat -> KeyPair, sourceKem: nat -> KeyPair)
    returns (x25519: seq<Opk>, kem: seq<Opk>)
    ensures Paired(x25519, kem) && DistinctIds(x25519)
    ensures |x25519| == if count < 0 then 0 else count
    ensures Generated(x25519, startId, sourceX25519) && Generated(kem, startId, sourceKem)
  {
    x25519 := GenerateOneTimePrekeys(count, startId, sourceX25519);
    kem := GenerateOneTimePrekeys(count, startId, sourceKem);
  }

  function Max(a: int, b: int): int {
    if a >= b then a else b
  }

  function HighestId(opks: seq<Opk>): (m: int)
    requires opks != []
    ensures HasId(opks, m)
    ensures forall o | o in opks :: o.id <= m
  {
    var n := |opks| - 1;
    if n == 0 then
      assert opks[0] in opks; opks[0].id
    else
      var before := HighestId(opks[..n]);
      assert opks == opks[..n] + [opks[n]];
      Max(before, opks[n].id)
  }

  /** Appending the new prekeys tops the lists up to the target and keeps them
      paired and their ids distinct; numbering continues after the highest id,
      or restarts at 1 when both lists are empty. */
  ghost predicate Replenishes(
    x25519: seq<Opk>, kem: seq<Opk>, target: int, sourceX25519: nat -> KeyPair, sourceKem: nat -> KeyPair,
    newX25519: seq<Opk>, newKem: seq<Opk>)
  {
    var first := if x25519 == [] then 1 else HighestId(x25519) + 1;
    && Paired(x25519 + newX25519, kem + newKem)
    && (DistinctIds(x25519) ==> DistinctIds(x25519 + newX25519))
    && |x25519 + newX25519| == Max(|x25519|, target)
    && Generated(newX25519, first, sourceX25519) && Generated(newKem, first, sourceKem)
  }

  /** Refused exactly when the lists are not paired. */
  method ReplenishOneTimePrekeys(
    x25519: seq<Opk>, kem: seq<Opk>, target: int, sourceX25519: nat -> KeyPair, sourceKem: nat -> KeyPair)
    returns (r: Result<(seq<Opk>, seq<Opk>), string>)
    ensures r.Err? <==> !Paired(x25519, kem)
    ensures r.Ok? ==> Replenishes(x25519, kem, target, sourceX25519, sourceKem, r.value.0, r.value.1)
  {
    if x25519 == [] && kem == [] {
      var a, b := GenerateOpkPairs(target, 1, sourceX25519, sourceKem);
      FreshReplenishes(x25519, kem, target, sourceX25519, sourceKem, a, b, 1);
      return Ok((a, b));
    }
    if !Paired(x25519, kem) { return Err("OPK lists do not match"); }
    SameHighest(x25519, kem);
    var highest := Max(HighestId(x25519), HighestId(kem));
    var current := if |x25519| <= |kem| then |x25519| else |kem|;
    var shortfall := target - current;
    if shortfall <= 0 {
      FreshReplenishes(x25519, kem, target, sourceX25519, sourceKem, [], [], highest + 1);
      r := Ok(([], []));
      return;
    }
    var a, b := GenerateOpkPairs(shortfall, highest + 1, sourceX25519, sourceKem);
    FreshReplenishes(x25519, kem, target, sourceX25519, sourceKem, a, b, highest + 1);
    r := Ok((a, b));
  }

  lemma FreshReplenishes(
    x25519: seq<Opk>, kem: seq<Opk>, target: int, sourceX25519: nat -> KeyPair, sourceKem: nat -> KeyPair,
    a: seq<Opk>, b: seq<Opk>, first: int)
    requires Paired(x25519, kem) && Paired(a, b)
    requires first == if x25519 == [] then 1 else HighestId(x25519) + 1
    requires Generated(a, first, sourceX25519) && Generated(b, first, sourceKem)
    requires |a| == Max(0, target - |x25519|)
    ensures Replenishes(x25519, kem, target, sourceX25519, sourceKem, a, b)
  {
    assert Paired(x25519 + a, kem + b) && (DistinctIds(x25519) ==> DistinctIds(x25519 + a)) by {
      AppendFresh(x25519, kem, a, b, first);
    }
  }

  /** Appending consecutive ids above every known one keeps both invariants. */
  lemma AppendFresh(x25519: seq<Opk>, kem: seq<Opk>, a: seq<Opk>, b: seq<Opk>, first: int)
    requires Paired(x25519, kem) && Paired(a, b)
    requires forall o | o in x25519 :: o.id < first
    requires forall i | 0 <= i < |a| :: a[i].id == first + i
    ensures Paired(x25519 + a, kem + b)
    ensures DistinctIds(x25519) ==> DistinctIds(x25519 + a)
  {
    assert |x25519 + a| == |kem + b|;
    if DistinctIds(x25519) {
      forall i, j | 0 <= i < j < |x25519 + a| ensures (x25519 + a)[i].id != (x25519 + a)[j].id {
        if i < |x25519| <= j {
          assert x25519[i] in x25519;
        }
      }
    }
  }

  lemma SameHighest(x25519: seq<Opk>, kem: seq<Opk>)
    requires Paired(x25519, kem) && x25519 != []
    ensures HighestId(x25519) == HighestId(kem)
  {
    PairedIds(x25519, kem, HighestId(x25519));
    PairedIds(x25519, kem, HighestId(kem));
  }

  /** Drops every entry with the id and keeps the others. */
  function Without(opks: seq<Opk>, id: int): (rest: seq<Opk>)
    ensures forall o :: o in rest <==> o in opks && o.id != id
  {
    if opks == [] then []
    else
      var n := |opks| - 1;
      assert opks == opks[..n] + [opks[n]];
      Without(opks[..n], id) + if opks[n].id == id then [] else [opks[n]]
  }

  lemma WithoutIds(opks: seq<Opk>, id: int, other: int)
    ensures HasId(Without(opks, id), other) <==> other != id && HasId(opks, other)
  {
  }

  lemma {:induction false} WithoutConcat(a: seq<Opk>, b: seq<Opk>, id: int)
    ensures Without(a + b, id) == Without(a, id) + Without(b, id)
  {
    if b == [] {
      assert a + b == a;
    } else {
      var n := |b| - 1;
      WithoutConcat(a, b[..n], id);
      assert (a + b)[..|a + b| - 1] == a + b[..n] && (a + b)[|a + b| - 1] == b[n];
    }
  }

  lemma {:induction false} WithoutAbsent(opks: seq<Opk>, id: int)
    requires !HasId(opks, id)
    ensures Without(opks, id) == opks
  {
    if opks != [] {
      var n := |opks| - 1;
      assert opks == opks[..n] + [opks[n]] && opks[n] in opks;
      WithoutAbsent(opks[..n], id);
    }
  }

  lemma WithoutLast(before: seq<Opk>, o: Opk)
    requires !HasId(before, o.id)
    ensures Without(before + [o], o.id) == before
  {
    assert (before + [o])[..|before|] == before;
    WithoutAbsent(before, o.id);
  }

  /** Dropping a prekey leaves those before and after it as they were. */
  lemma WithoutErases(before: seq<Opk>, o: Opk, after: seq<Opk>)
    requires !HasId(before, o.id) && !HasId(after, o.id)
    ensures Without(before + [o] + after, o.id) == before + after
  {
    WithoutConcat(before + [o], after, o.id);
    WithoutLast(before, o);
    WithoutAbsent(after, o.id);
  }

  /** Consuming a pair keeps the lists paired at every index. */
  lemma {:induction false} WithoutKeepsPairs(x25519: seq<Opk>, kem: seq<Opk>, id: int)
    requires Paired(x25519, kem)
    ensures Paired(Without(x25519, id), Without(kem, id))
  {
    if x25519 != [] {
      WithoutKeepsPairs(x25519[..|x25519| - 1], kem[..|kem| - 1], id);
    }
  }

  /** Paired lists know the same ids. */
  lemma PairedIds(x25519: seq<Opk>, kem: seq<Opk>, id: int)
    requires Paired(x25519, kem)
    ensures HasId(x25519, id) <==> HasId(kem, id)
  {
    if HasId(x25519, id) {
      var i :| 0 <= i < |x25519| && x25519[i].id == id;
      assert kem[i].id == id;
    }
    if HasId(kem, id) {
      var i :| 0 <= i < |kem| && kem[i].id == id;
      assert x25519[i].id == id;
    }
  }

  // ------------------------------------------------------------- storage

  /** The identity bundle, with the secret half of each key pair. */
  datatype IdentityBundle = IdentityBundle(
    userId: string,
    ikKem: KeyPair,
    ikSig: KeyPair,
    ikSigEd25519: Bytes,
    ikClassical: Bytes,
    spkId: int,
    spk: Bytes,
    spkSignature: Bytes,
    x25519Opks: seq<Opk>,
    kemOpks: seq<Opk>)

  datatype StoredOpk = StoredOpk(opk_id: int, opk_pub: string, opk_sec: string)

  datatype StoredBundle = StoredBundle(
    user_id: string,
    ik_kem_pub: string, ik_kem_sec: string,
    ik_sig_pub: string, ik_sig_sec: string, ik_sig_ed25519_sec: string,
    ik_classical_sec: string,
    spk_id: int, spk_sec: string, spk_sig: string,
    opks_x25519: seq<StoredOpk>, opks_kem: seq<StoredOpk>)

  function StoreOpks(opks: seq<Opk>): (s: seq<StoredOpk>)
    ensures |s| == |opks|
  {
    if opks == [] then []
    else [StoredOpk(opks[0].id, ToHex(opks[0].publicKey), ToHex(opks[0].secretKey))] + StoreOpks(opks[1..])
  }

  function LoadOpks(stored: seq<StoredOpk>): Option<seq<Opk>> {
    if stored == [] then Some([])
    else
      var pub :- FromHex(stored[0].opk_pub);
      var sec :- FromHex(stored[0].opk_sec);
      var rest :- LoadOpks(stored[1..]);
      Some([Opk(stored[0].opk_id, pub, sec)] + rest)
  }

  /** Refuses to serialise unpaired lists. */
  function ToPrivateBundle(b: IdentityBundle): Option<StoredBundle> {
    if !Paired(b.x25519Opks, b.kemOpks) then None
    else Some(StoredBundle(
      b.userId, ToHex(b.ikKem.publicKey), ToHex(b.ikKem.secretKey), ToHex(b.ikSig.publicKey), ToHex(b.ikSig.secretKey),
      ToHex(b.ikSigEd25519), ToHex(b.ikClassical), b.spkId, ToHex(b.spk), ToHex(b.spkSignature),
      StoreOpks(b.x25519Opks), StoreOpks(b.kemOpks)))
  }

  /** Refuses bad hex and unpaired lists. */
  function FromPrivateBundle(s: StoredBundle): Option<IdentityBundle> {
    var ikKemPub :- FromHex(s.ik_kem_pub);
    var ikKemSec :- FromHex(s.ik_kem_sec);
    var ikSigPub :- FromHex(s.ik_sig_pub);
    var ikSigSec :- FromHex(s.ik_sig_sec);
    var ed25519 :- FromHex(s.ik_sig_ed25519_sec);
    var classical :- FromHex(s.ik_classical_sec);
    var spk :- FromHex(s.spk_sec);
    var spkSig :- FromHex(s.spk_sig);
    var x25519 :- LoadOpks(s.opks_x25519);
    var kem :- LoadOpks(s.opks_kem);
    if !Paired(x25519, kem) then None
    else Some(IdentityBundle(s.user_id, KeyPair(ikKemPub, ikKemSec), KeyPair(ikSigPub, ikSigSec), ed25519,
                             classical, s.spk_id, spk, spkSig, x25519, kem))
  }

  lemma {:induction false} OpksRoundTrip(opks: seq<Opk>)
    ensures LoadOpks(StoreOpks(opks)) == Some(opks)
  {
    if opks != [] {
      var o, stored := opks[0], StoreOpks(opks);
      HexRoundTrip(o.publicKey);
      HexRoundTrip(o.secretKey);
      OpksRoundTrip(opks[1..]);
      assert stored[0] == StoredOpk(o.id, ToHex(o.publicKey), ToHex(o.secretKey));
      assert stored[1..] == StoreOpks(opks[1..]);
      assert [o] + opks[1..] == opks;
    }
  }

  /** A bundle survives storage exactly when its lists are paired. */
  lemma PrivateBundleRoundTrip(b: IdentityBundle)
    ensures match ToPrivateBundle(b)
      case Some(s) => Paired(b.x25519Opks, b.kemOpks) && FromPrivateBundle(s) == Some(b)
      case None => !Paired(b.x25519Opks, b.kemOpks)
  {
    HexRoundTrip(b.ikKem.publicKey);
    HexRoundTrip(b.ikKem.secretKey);
    HexRoundTrip(b.ikSig.publicKey);
    HexRoundTrip(b.ikSig.secretKey);
    HexRoundTrip(b.ikSigEd25519);
    HexRoundTrip(b.ikClassical);
    HexRoundTrip(b.spk);
    HexRoundTrip(b.spkSignature);
    OpksRoundTrip(b.x25519Opks);
    OpksRoundTrip(b.kemOpks);
  }

  lemma {:induction false} StoredOpkFields(opks: seq<Opk>, i: nat)
    requires i < |opks|
    ensures
      var stored := StoreOpks(opks)[i];
      && stored.opk_id == opks[i].id
      && FromHex(stored.opk_pub) == Some(opks[i].publicKey) && FromHex(stored.opk_sec) == Some(opks[i].secretKey)
  {
    HexRoundTrip(opks[i].publicKey);
    HexRoundTrip(opks[i].secretKey);
    if i > 0 {
      StoredOpkFields(opks[1..], i - 1);
    }
  }

  /** Every field of a stored bundle holds, in hex, the key it is named after. */
  lemma StoredFields(b: IdentityBundle)
    requires Paired(b.x25519Opks, b.kemOpks)
    ensures ToPrivateBundle(b).Some?
    ensures
      var s := ToPrivateBundle(b).value;
      && s.user_id == b.userId && s.spk_id == b.spkId
      && FromHex(s.ik_kem_pub) == Some(b.ikKem.publicKey) && FromHex(s.ik_kem_sec) == Some(b.ikKem.secretKey)
      && FromHex(s.ik_sig_pub) == Some(b.ikSig.publicKey) && FromHex(s.ik_sig_sec) == Some(b.ikSig.secretKey)
      && FromHex(s.ik_sig_ed25519_sec) == Some(b.ikSigEd25519) && FromHex(s.ik_classical_sec) == Some(b.ikClassical)
      && FromHex(s.spk_sec) == Some(b.spk) && FromHex(s.spk_sig) == Some(b.spkSignature)
      && |s.opks_x25519| == |b.x25519Opks| && |s.opks_kem| == |b.kemOpks|
  {
    HexRoundTrip(b.ikKem.publicKey);
    HexRoundTrip(b.ikKem.secretKey);
    HexRoundTrip(b.ikSig.publicKey);
    HexRoundTrip(b.ikSig.secretKey);
    HexRoundTrip(b.ikSigEd25519);
    HexRoundTrip(b.ikClassical);
    HexRoundTrip(b.spk);
    HexRoundTrip(b.spkSignature);
  }
}
