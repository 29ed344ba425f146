/** The other side of a login: the verifier a registration stores
    (client/cryptography/crypto_service.py) and the server's equations, section
    2.6 of RFC 5054 with the quantities of sections 2.5.3 and 2.5.4. Written out
    in bytes and powers, with nothing shared with the client. */
module SrpServer {
  import opened Bytes
  import opened ModularPower
  import opened Outcomes

  type Hash = Bytes -> Bytes

  /** What the account stores, the server's secret exponent and the group. */
  datatype Server = Server(user: Bytes, salt: Bytes, v: nat, b: nat, N: nat, g: nat, width: nat)

  predicate Valid(s: Server) {
    1 < s.N && s.g < 256
  }

  /** v = g^x mod N for x = H(s | H(I | ":" | P)), as the registration sends it. */
  function RegisteredVerifier(h: Hash, N: nat, g: nat, width: nat, user: Bytes, password: Bytes, salt: Bytes): Bytes
    requires N > 0
  {
    ToBE(Pow(g, FromBE(h(salt + h(user + [0x3A] + password)))) % N, width)
  }

  /** B = (k*v + g^b mod N) mod N with k = H(N | PAD(g)). */
  function Public(h: Hash, s: Server): (B: nat)
    requires Valid(s)
    ensures B < s.N
  {
    (FromBE(h(ToBE(s.N, s.width) + ToBE(s.g, s.width))) * s.v + Pow(s.g, s.b) % s.N) % s.N
  }

  /** u = H(PAD(A) | PAD(B)). */
  function Scrambling(h: Hash, s: Server, A: nat): nat
    requires Valid(s)
  {
    FromBE(h(ToBE(A, s.width) + ToBE(Public(h, s), s.width)))
  }

  /** (A * v^u)^b mod N. */
  function Secret(N: nat, A: int, v: int, u: nat, b: nat): (S: nat)
    requires N > 0
    ensures S < N
  {
    Pow(A * (Pow(v, u) % N), b) % N
  }

  /** K = H(PAD(S)). */
  function Key(h: Hash, s: Server, A: nat): Bytes
    requires Valid(s)
  {
    h(ToBE(Secret(s.N, A, s.v, Scrambling(h, s, A), s.b), s.width))
  }

  function XorBytes(a: Bytes, b: Bytes): (r: Bytes)
    ensures |r| == if |a| <= |b| then |a| else |b|
    ensures forall i | 0 <= i < |r| :: r[i] == ((a[i] as bv8) ^ (b[i] as bv8)) as int
  {
    seq(if |a| <= |b| then |a| else |b|, i requires 0 <= i < |a| && i < |b| => ((a[i] as bv8) ^ (b[i] as bv8)) as int)
  }

  /** H(N) XOR H(g), H(I), s, A, B, K. */
  function ProofBytes(h: Hash, s: Server, aBytes: Bytes): Bytes
    requires Valid(s)
  {
    XorBytes(h(ToBE(s.N, s.width)), h([s.g])) + h(s.user) + s.salt + aBytes + ToBE(Public(h, s), s.width)
      + Key(h, s, FromBE(aBytes))
  }

  /** The server's proof H(A | M | K), or none when it rejects A or the client's proof. */
  function Verify(h: Hash, s: Server, aBytes: Bytes, M1: Bytes): Option<Bytes>
    requires Valid(s)
  {
    if FromBE(aBytes) % s.N == 0 then None
    else
      var M := h(ProofBytes(h, s, aBytes));
      if M != M1 then None else Some(h(aBytes + M + Key(h, s, FromBE(aBytes))))
  }
}
