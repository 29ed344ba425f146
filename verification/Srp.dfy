/** The SRP-6a client of client/cryptography/core/srp_session.py and its
    agreement with the server's own equations. */
module Srp {
  import opened Bytes
  import opened ModularPower
  import opened Outcomes
  import Server = SrpServer

  type Hash = Bytes -> Bytes

  /** Group parameters; width is the byte length values are padded to. */
  datatype Group = Group(N: nat, g: nat, width: nat)

  predicate ValidGroup(grp: Group) {
    1 < grp.N < Exp256(grp.width) && grp.g < 256 && grp.g < Exp256(grp.width)
  }

  // --------------------------------------------------------------- encodings

  function BitLength(n: nat): nat {
    if n == 0 then 0 else 1 + BitLength(n / 2)
  }

  /** (n.bit_length() + 7) // 8 or 1. */
  function MinimalLength(n: nat): nat {
    var bytes := (BitLength(n) + 7) / 8;
    if bytes == 0 then 1 else bytes
  }

  /** Big-endian without leading zeros. */
  function Minimal(n: nat): Bytes {
    ToBE(n, MinimalLength(n))
  }

  lemma BitLengthOfByte(n: nat)
    requires n < 256
    ensures BitLength(n) <= 8 && (n > 0 ==> BitLength(n) >= 1)
  {
    assert BitLength(n / 2) <= 7 by {
      assert BitLength(n / 4) <= 6 by {
        assert BitLength(n / 8) <= 5 by {
          assert BitLength(n / 16) <= 4 by {
            assert BitLength(n / 32) <= 3 by {
              assert BitLength(n / 64) <= 2 by {
                assert BitLength(n / 128) <= 1 by {
                  assert BitLength(n / 256) == 0;
                  assert n / 128 / 2 == n / 256;
                }
                assert n / 64 / 2 == n / 128;
              }
              assert n / 32 / 2 == n / 64;
            }
            assert n / 16 / 2 == n / 32;
          }
          assert n / 8 / 2 == n / 16;
        }
        assert n / 4 / 2 == n / 8;
      }
      assert n / 2 / 2 == n / 4;
    }
  }

  lemma BitLengthPeelsByte(n: nat)
    requires n >= 256
    ensures BitLength(n) == 8 + BitLength(n / 256)
  {
    assert BitLength(n) == 1 + BitLength(n / 2);
    assert n / 2 / 2 == n / 4 && BitLength(n / 2) == 1 + BitLength(n / 4);
    assert n / 4 / 2 == n / 8 && BitLength(n / 4) == 1 + BitLength(n / 8);
    assert n / 8 / 2 == n / 16 && BitLength(n / 8) == 1 + BitLength(n / 16);
    assert n / 16 / 2 == n / 32 && BitLength(n / 16) == 1 + BitLength(n / 32);
    assert n / 32 / 2 == n / 64 && BitLength(n / 32) == 1 + BitLength(n / 64);
    assert n / 64 / 2 == n / 128 && BitLength(n / 64) == 1 + BitLength(n / 128);
    assert n / 128 / 2 == n / 256 && BitLength(n / 128) == 1 + BitLength(n / 256);
  }

  /** The minimal encoding holds every value, has no leading zero byte and
      decodes to what was encoded. */
  lemma {:induction false} MinimalRoundTrip(n: nat)
    ensures n < Exp256(MinimalLength(n))
    ensures FromBE(Minimal(n)) == n
    ensures n > 0 ==> Minimal(n)[0] != 0
  {
    MinimalHolds(n);
    BigEndianRoundTrip(n, MinimalLength(n));
  }

  lemma {:induction false} MinimalHolds(n: nat)
    ensures n < Exp256(MinimalLength(n))
    ensures n > 0 ==> Minimal(n)[0] != 0
  {
    if n < 256 {
      BitLengthOfByte(n);
      assert MinimalLength(n) == 1;
      assert ToBE(n, 1) == ToBE(n / 256, 0) + [n % 256];
    } else {
      BitLengthPeelsByte(n);
      MinimalHolds(n / 256);
      assert MinimalLength(n) == 1 + MinimalLength(n / 256);
      assert Minimal(n) == Minimal(n / 256) + [n % 256];
    }
  }

  function Pad(grp: Group, n: nat): (b: Bytes)
    ensures |b| == grp.width
  {
    ToBE(n, grp.width)
  }

  function XorByte(a: byte, b: byte): byte {
    ((a as bv8) ^ (b as bv8)) as int
  }

  function Xor(a: Bytes, b: Bytes): Bytes {
    if a == [] || b == [] then [] else [XorByte(a[0], b[0])] + Xor(a[1..], b[1..])
  }

  // -------------------------------------------------------------- quantities

  /** k = H(N | PAD(g)). */
  function Multiplier(h: Hash, grp: Group): nat {
    FromBE(h(Pad(grp, grp.N) + Pad(grp, grp.g)))
  }

  /** u = H(PAD(A) | PAD(B)). */
  function Scrambler(h: Hash, grp: Group, A: nat, B: nat): nat {
    FromBE(h(Pad(grp, A) + Pad(grp, B)))
  }

  const COLON: byte := 58

  /** x = H(s | H(I | ":" | P)). */
  function PrivateKey(h: Hash, salt: Bytes, user: Bytes, password: Bytes): nat {
    FromBE(h(salt + h(user + [COLON] + password)))
  }

  /** The input of the client proof M1. */
  function ProofInput(h: Hash, grp: Group, user: Bytes, salt: Bytes, A: Bytes, B: Bytes, K: Bytes): Bytes
    requires grp.g < 256
  {
    (Xor(h(Pad(grp, grp.N)), h([grp.g])) + h(user) + salt + A + B) + K
  }

  // ------------------------------------------------------------------ client

  datatype SrpError = InvalidB | Overflow | ZeroU

  datatype Session = Session(K: Bytes, M1: Bytes, M2: Bytes)

  /** (B - k*g^x)^(a + u*x) mod N; the base may be negative. */
  function ClientSecret(N: nat, g: int, k: int, B: int, x: nat, a: nat, u: nat): (S: nat)
    requires N > 0
    ensures S < N
  {
    PowMod(B - k * PowMod(g, x, N), a + u * x, N)
  }

  /** Everything process_challenge computes from the server's salt and B. */
  function ClientSession(h: Hash, grp: Group, user: Bytes, password: Bytes, a: nat, salt: Bytes, BBytes: Bytes)
    : (r: Result<Session, SrpError>)
    requires ValidGroup(grp)
  {
    var B := FromBE(BBytes);
    if B % grp.N == 0 then Err(InvalidB)
    else if B >= Exp256(grp.width) then Err(Overflow)
    else
      var A := PowMod(grp.g, a, grp.N);
      var u := Scrambler(h, grp, A, B);
      if u == 0 then Err(ZeroU)
      else
        var x := PrivateKey(h, salt, user, password);
        var K := h(Pad(grp, ClientSecret(grp.N, grp.g, Multiplier(h, grp), B, x, a, u)));
        var M := h(ProofInput(h, grp, user, salt, Minimal(A), BBytes, K));
        Ok(Session(K, M, h(Minimal(A) + M + K)))
  }

  class SrpSession {
    const grp: Group
    const username: Bytes
    const a: nat
    var password: Bytes
    var K: Option<Bytes>
    var HAMK: Option<Bytes>

    constructor (grp: Group, username: Bytes, password: Bytes, a: nat)
      ensures this.grp == grp && this.username == username && this.a == a
      ensures this.password == password && K == None && HAMK == None
    {
      this.grp, this.username, this.a := grp, username, a;
      this.password := password;
      K, HAMK := None, None;
    }

    /** The client's public ephemeral, minimally encoded. */
    function ABytes(): Bytes
      requires ValidGroup(grp)
    {
      Minimal(PowMod(grp.g, a, grp.N))
    }

    method SetPassword(newPassword: Bytes)
      modifies this`password
      ensures password == newPassword
    {
      password := newPassword;
    }

    /** Returns M1 and remembers K and the expected M2, or rejects and remembers nothing. */
    method ProcessChallenge(h: Hash, salt: Bytes, BBytes: Bytes) returns (r: Result<Bytes, SrpError>)
      requires ValidGroup(grp)
      modifies this`K, this`HAMK
      ensures match ClientSession(h, grp, username, password, a, salt, BBytes)
        case Ok(s) => r == Ok(s.M1) && K == Some(s.K) && HAMK == Some(s.M2)
        case Err(e) => r == Err(e) && K == old(K) && HAMK == old(HAMK)
    {
      var B := FromBE(BBytes);
      if B % grp.N == 0 { return Err(InvalidB); }
      if B >= Exp256(grp.width) { return Err(Overflow); }
      var A := PowMod(grp.g, a, grp.N);
      var u := Scrambler(h, grp, A, B);
      if u == 0 { return Err(ZeroU); }
      var x := PrivateKey(h, salt, username, password);
      var S := ClientSecret(grp.N, grp.g, Multiplier(h, grp), B, x, a, u);
      var key := h(Pad(grp, S));
      var M := h(ProofInput(h, grp, username, salt, Minimal(A), BBytes, key));
      K, HAMK := Some(key), Some(h(Minimal(A) + M + key));
      r := Ok(M);
    }

    /** True exactly when a challenge was processed and the server sent the proof it led to. */
    method VerifyServer(M2: Bytes) returns (ok: bool)
      ensures ok <==> HAMK == Some(M2)
    {
      ok := HAMK.Some? && HAMK.value == M2;
    }
  }

  /** The client's three calls in order: srp_start creates the session without a
      password and answers A, srp_challenge sets the one derived from the server's salt and
      answers M1, srp_verify checks M2. The server is accepted exactly when it
      sends the proof of the session for that password, and only then is there
      a session key. */
  method Authenticate(h: Hash, grp: Group, username: Bytes, a: nat, password: Bytes, salt: Bytes, BBytes: Bytes,
      M2: Bytes)
    returns (A: Bytes, M1: Result<Bytes, SrpError>, sessionKey: Option<Bytes>)
    requires ValidGroup(grp)
    ensures A == Minimal(PowMod(grp.g, a, grp.N))
    ensures match ClientSession(h, grp, username, password, a, salt, BBytes)
      case Ok(s) => M1 == Ok(s.M1) && sessionKey == if M2 == s.M2 then Some(s.K) else None
      case Err(e) => M1 == Err(e) && sessionKey == None
  {
    var session := new SrpSession(grp, username, [], a);
    A := session.ABytes();
    session.SetPassword(password);
    M1 := session.ProcessChallenge(h, salt, BBytes);
    if M1.Err? { return A, M1, None; }
    var authenticated := session.VerifyServer(M2);
    sessionKey := if authenticated then session.K else None;
  }

  // --------------------------------------------------------------- agreement

  /** The client's base B - k*v is congruent to g^b. */
  lemma ClientBase(N: nat, g: int, k: int, v: int, b: nat)
    requires N > 0
    ensures Congruent((k * v + PowMod(g, b, N)) % N - k * v, Pow(g, b), N)
  {
    ResidueCongruent(k * v + PowMod(g, b, N), N);
    CongruentSum((k * v + PowMod(g, b, N)) % N, k * v + PowMod(g, b, N), -(k * v), N);
    PowModCongruent(g, b, N);
    CongruentTransitive((k * v + PowMod(g, b, N)) % N - k * v, PowMod(g, b, N), Pow(g, b), N);
  }

  /** The server's base A*v^u is congruent to g^(a + u*x). */
  lemma ServerBase(N: nat, g: int, a: nat, x: nat, u: nat)
    requires N > 0
    ensures Congruent(PowMod(g, a, N) * PowMod(PowMod(g, x, N), u, N), Pow(g, a + u * x), N)
  {
    var v := PowMod(g, x, N);
    PowModCongruent(g, a, N);
    PowModCongruent(g, x, N);
    PowModCongruent(v, u, N);
    CongruentPow(v, Pow(g, x), u, N);
    PowMul(g, x, u);
    assert x * u == u * x;
    CongruentTransitive(PowMod(v, u, N), Pow(v, u), Pow(g, u * x), N);
    CongruentProduct(PowMod(g, a, N), Pow(g, a), PowMod(v, u, N), Pow(g, u * x), N);
    PowAdd(g, a, u * x);
  }

  /** Both sides compute one secret, for every modulus, generator, multiplier
      and choice of exponents. */
  lemma SecretsAgree(N: nat, g: int, k: int, a: nat, b: nat, x: nat, u: nat)
    requires N > 0
    ensures
      var v := PowMod(g, x, N);
      var A := PowMod(g, a, N);
      var B := (k * v + PowMod(g, b, N)) % N;
      ClientSecret(N, g, k, B, x, a, u) == Server.Secret(N, A, v, u, b)
  {
    var v, A := PowMod(g, x, N), PowMod(g, a, N);
    var B := (k * v + PowMod(g, b, N)) % N;
    var e := a + u * x;
    ClientBase(N, g, k, v, b);
    CongruentPow(B - k * v, Pow(g, b), e, N);
    PowMul(g, b, e);
    ServerBase(N, g, a, x, u);
    CongruentPow(A * PowMod(v, u, N), Pow(g, e), b, N);
    PowMul(g, e, b);
    assert b * e == e * b;
    CongruentResidue(Pow(B - k * v, e), Pow(g, b * e), N);
    CongruentResidue(Pow(A * PowMod(v, u, N), b), Pow(g, b * e), N);
  }

  /** The server runs in this group, for this account. */
  predicate Serves(s: Server.Server, grp: Group, user: Bytes, salt: Bytes) {
    s.N == grp.N && s.g == grp.g && s.width == grp.width && s.user == user && s.salt == salt
  }

  lemma {:induction false} SameXor(a: Bytes, b: Bytes)
    ensures Xor(a, b) == Server.XorBytes(a, b)
  {
    if a != [] && b != [] {
      SameXor(a[1..], b[1..]);
      var r := Server.XorBytes(a, b);
      assert r == [r[0]] + r[1..];
      assert r[1..] == Server.XorBytes(a[1..], b[1..]);
    }
  }

  /** The client's quantities are the server's. */
  lemma SameQuantities(h: Hash, grp: Group, user: Bytes, salt: Bytes, a: nat, s: Server.Server)
    requires ValidGroup(grp) && Serves(s, grp, user, salt)
    ensures Server.Public(h, s) == (Multiplier(h, grp) * s.v + PowMod(grp.g, s.b, grp.N)) % grp.N
    ensures forall A :: Server.Scrambling(h, s, A) == Scrambler(h, grp, A, Server.Public(h, s))
    ensures forall A, K :: K == Server.Key(h, s, FromBE(A)) ==>
      ProofInput(h, grp, user, salt, A, ToBE(Server.Public(h, s), grp.width), K) == Server.ProofBytes(h, s, A)
  {
    SameXor(h(Pad(grp, grp.N)), h([grp.g]));
  }

  /** The registered verifier is g^x for the client's x. */
  lemma SameVerifier(h: Hash, grp: Group, user: Bytes, password: Bytes, salt: Bytes)
    requires ValidGroup(grp)
    ensures FromBE(Server.RegisteredVerifier(h, grp.N, grp.g, grp.width, user, password, salt))
      == PowMod(grp.g, PrivateKey(h, salt, user, password), grp.N)
  {
    BigEndianRoundTrip(PowMod(grp.g, PrivateKey(h, salt, user, password), grp.N), grp.width);
  }

  lemma SecretsMatch(h: Hash, grp: Group, user: Bytes, password: Bytes, salt: Bytes, a: nat, s: Server.Server)
    requires ValidGroup(grp) && Serves(s, grp, user, salt)
    requires s.v == FromBE(Server.RegisteredVerifier(h, grp.N, grp.g, grp.width, user, password, salt))
    ensures
      var A, B := PowMod(grp.g, a, grp.N), Server.Public(h, s);
      var u := Server.Scrambling(h, s, A);
      ClientSecret(grp.N, grp.g, Multiplier(h, grp), B, PrivateKey(h, salt, user, password), a, u)
        == Server.Secret(grp.N, A, s.v, u, s.b)
  {
    var u := Server.Scrambling(h, s, PowMod(grp.g, a, grp.N));
    SameVerifier(h, grp, user, password, salt);
    SameQuantities(h, grp, user, salt, a, s);
    SecretsAgree(grp.N, grp.g, Multiplier(h, grp), a, s.b, PrivateKey(h, salt, user, password), u);
  }

  /** A login against the verifier registered with the same salt, name and
      password. The client rejects exactly when B or u is degenerate; otherwise
      the server accepts exactly when A is not, and then both hold the same key
      and the client accepts the server's proof. */
  lemma LoginAuthenticates(
    h: Hash, grp: Group, user: Bytes, password: Bytes, salt: Bytes, a: nat, s: Server.Server)
    requires ValidGroup(grp) && Serves(s, grp, user, salt)
    requires s.v == FromBE(Server.RegisteredVerifier(h, grp.N, grp.g, grp.width, user, password, salt))
    ensures
      var A, B := Pow(grp.g, a) % grp.N, Server.Public(h, s);
      var r := ClientSession(h, grp, user, password, a, salt, ToBE(B, grp.width));
      && (r.Err? <==> B == 0 || Server.Scrambling(h, s, A) == 0)
      && (r.Ok? ==>
            var answer := Server.Verify(h, s, Minimal(A), r.value.M1);
            && (answer.Some? <==> A != 0)
            && (answer.Some? ==> answer.value == r.value.M2 && r.value.K == Server.Key(h, s, A)))
  {
    var A, B := PowMod(grp.g, a, grp.N), Server.Public(h, s);
    SecretsMatch(h, grp, user, password, salt, a, s);
    SameQuantities(h, grp, user, salt, a, s);
    BigEndianRoundTrip(B, grp.width);
    MinimalRoundTrip(A);
    SmallResidue(A, grp.N);
    SmallResidue(B, grp.N);
  }

  lemma SmallResidue(x: nat, n: nat)
    requires x < n
    ensures x % n == x
  {
  }

  /** Which challenges the client rejects, for any bytes it may be sent. */
  lemma ClientRejectsIff(h: Hash, grp: Group, user: Bytes, password: Bytes, a: nat, salt: Bytes, BBytes: Bytes)
    requires ValidGroup(grp)
    ensures ClientSession(h, grp, user, password, a, salt, BBytes).Err? <==>
      var A, B := Pow(grp.g, a) % grp.N, FromBE(BBytes);
      B % grp.N == 0 || B >= Exp256(grp.width) || FromBE(h(ToBE(A, grp.width) + ToBE(B, grp.width))) == 0
  {
  }

  /** What acceptance proves: if a server whose B the client used accepts the
      client's M1, both derived the same secret, unless the two proof inputs or
      the two padded secrets are a collision of the hash. */
  lemma AcceptanceBindsSecret(
    h: Hash, grp: Group, user: Bytes, password: Bytes, salt: Bytes, a: nat, s: Server.Server, session: Session)
    requires ValidGroup(grp) && Serves(s, grp, user, salt)
    requires ClientSession(h, grp, user, password, a, salt, ToBE(Server.Public(h, s), grp.width)) == Ok(session)
    requires Server.Verify(h, s, Minimal(PowMod(grp.g, a, grp.N)), session.M1).Some?
    ensures
      var A, B := PowMod(grp.g, a, grp.N), Server.Public(h, s);
      var u := Server.Scrambling(h, s, A);
      var mine := ClientSecret(grp.N, grp.g, Multiplier(h, grp), B, PrivateKey(h, salt, user, password), a, u);
      var theirs := Server.Secret(grp.N, A, s.v, u, s.b);
      var p := ProofInput(h, grp, user, salt, Minimal(A), ToBE(B, grp.width), session.K);
      var q := Server.ProofBytes(h, s, Minimal(A));
      || mine == theirs
      || (p != q && h(p) == h(q))
      || (ToBE(mine, grp.width) != ToBE(theirs, grp.width)
          && h(ToBE(mine, grp.width)) == h(ToBE(theirs, grp.width)))
  {
    var A, B := PowMod(grp.g, a, grp.N), Server.Public(h, s);
    var u := Server.Scrambling(h, s, A);
    SameQuantities(h, grp, user, salt, a, s);
    BigEndianRoundTrip(B, grp.width);
    MinimalRoundTrip(A);
    var mine := ClientSecret(grp.N, grp.g, Multiplier(h, grp), B, PrivateKey(h, salt, user, password), a, u);
    var theirs := Server.Secret(grp.N, A, s.v, u, s.b);
    var front := Xor(h(Pad(grp, grp.N)), h([grp.g])) + h(user) + salt + Minimal(A) + ToBE(B, grp.width);
    var theirKey := Server.Key(h, s, A);
    assert ProofInput(h, grp, user, salt, Minimal(A), ToBE(B, grp.width), theirKey) == front + theirKey;
    if front + session.K == front + theirKey {
      SplitEqual(front, session.K, front, theirKey);
      if ToBE(mine, grp.width) == ToBE(theirs, grp.width) {
        BigEndianRoundTrip(mine, grp.width);
        BigEndianRoundTrip(theirs, grp.width);
      }
    }
  }

  // ----------------------------------------------------- the deployed group

  /** The 3072-bit prime of appendix A of RFC 5054. */
  const RFC5054_N: nat :=
    0xffffffffffffffffc90fdaa22168c234c4c6628b80dc1cd129024e088a67cc74020bbea63b139b22514a08798e3404ddef9519b3cd3a431b302b0a6df25f14374fe1356d6d51c245e485b576625e7ec6f44c42e9a637ed6b0bff5cb6f406b7edee386bfb5a899fa5ae9f24117c4b1fe649286651ece45b3dc2007cb8a163bf0598da48361c55d39a69163fa8fd24cf5f83655d23dca3ad961c62f356208552bb9ed529077096966d670c354e4abc9804f1746c08ca18217c32905e462e36ce3be39e772c180e86039b2783a2ec07a28fb5c55df06f4c52c9de2bcbf6955817183995497cea956ae515d2261898fa051015728e5a8aaac42dad33170d04507a33a85521abdf1cba64ecfb850458dbef0a8aea71575d060c7db3970f85a6e1e4c7abf5ae8cdb0933d71e8c94e04a25619dcee3d2261ad2ee6bf12ffa06d98a0864d87602733ec86a64521f2b18177b200cbbe117577a615d6c770988c0bad946e208e24fa074e5ab3143db5bfce0fd108e4b82d120a93ad2caffffffffffffffff

  const RFC5054_GROUP := Group(RFC5054_N, 5, 384)

  lemma Exp256Double(n: nat)
    ensures Exp256(2 * n) == Exp256(n) * Exp256(n)
  {
    Exp256Sum(n, n);
  }

  lemma {:induction false} Exp256Sum(m: nat, n: nat)
    ensures Exp256(m + n) == Exp256(m) * Exp256(n)
  {
    if m > 0 {
      Exp256Sum(m - 1, n);
      assert 256 * (Exp256(m - 1) * Exp256(n)) == (256 * Exp256(m - 1)) * Exp256(n);
    }
  }

  /** Squaring step by step avoids unfolding the power. */
  lemma Squared(n: nat, p: nat)
    requires Exp256(n) == p
    ensures Exp256(2 * n) == p * p
  {
    Exp256Double(n);
  }

  lemma DeployedWidth(w: nat)
    requires w == 3
    ensures Exp256(128 * w) == 0x1000000000000000000000000000000000000000000000000000000000000000000000000000000000000000000000000000000000000000000000000000000000000000000000000000000000000000000000000000000000000000000000000000000000000000000000000000000000000000000000000000000000000000000000000000000000000000000000000000000000000000000000000000000000000000000000000000000000000000000000000000000000000000000000000000000000000000000000000000000000000000000000000000000000000000000000000000000000000000000000000000000000000000000000000000000000000000000000000000000000000000000000000000000000000000000000000000000000000000000000000000000000000000000000000000000000000000000000000000000000000000000000000000000000000000000000000000000000000000000000000000000000000000000000000000000000000000000000000
  {
    assert Exp256(w) == 0x100_0000 by {
      assert Exp256(w - 3) == 1 && Exp256(w - 2) == 256 && Exp256(w - 1) == 0x1_0000;
    }
    Squared(w, 0x1000000);
    Squared(2 * w, 0x1000000000000);
    Squared(4 * w, 0x1000000000000000000000000);
    Squared(8 * w, 0x1000000000000000000000000000000000000000000000000);
    Squared(16 * w, 0x1000000000000000000000000000000000000000000000000000000000000000000000000000000000000000000000000);
    Squared(32 * w, 0x1000000000000000000000000000000000000000000000000000000000000000000000000000000000000000000000000000000000000000000000000000000000000000000000000000000000000000000000000000000000000000000000000);
    Squared(64 * w, 0x1000000000000000000000000000000000000000000000000000000000000000000000000000000000000000000000000000000000000000000000000000000000000000000000000000000000000000000000000000000000000000000000000000000000000000000000000000000000000000000000000000000000000000000000000000000000000000000000000000000000000000000000000000000000000000000000000000000000000000000000000000000000000000000000000);
  }

  /** The deployed parameters meet the requirements of the theorems above. */
  lemma DeployedGroupValid()
    ensures ValidGroup(RFC5054_GROUP)
  {
    DeployedWidth(3);
  }
}
