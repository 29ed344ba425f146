/** Leaf construction, tree, proofs and binding of server/blockchain/merkle-core.js. */
module MerkleCore {
  import opened Bytes
  import opened Outcomes

  type Digest = d: Bytes | |d| == 32 witness ZERO_DIGEST

  const ZERO_DIGEST: Bytes :=
    [0, 0, 0, 0, 0, 0, 0, 0, 0, 0, 0, 0, 0, 0, 0, 0, 0, 0, 0, 0, 0, 0, 0, 0, 0, 0, 0, 0, 0, 0, 0, 0]

  /** Keccak-256 is only known to return 32 bytes. */
  type Keccak = Bytes -> Digest

  /** Two different inputs with one digest. */
  ghost predicate IsCollision(k: Keccak, x: Bytes, y: Bytes) {
    x != y && k(x) == k(y)
  }

  // ---------------------------------------------------------------- leaves

  /** The four fields a leaf is bound to; a context field may be missing. */
  datatype LeafFields = LeafFields(
    messageId: Option<Bytes>,
    conversationId: Option<Bytes>,
    senderDeviceId: Option<Bytes>,
    ciphertext: Bytes)

  function Text(field: Option<Bytes>): Bytes {
    match field case None => [] case Some(b) => b
  }

  /** Missing and empty context fields encode alike. */
  function Normalise(f: LeafFields): LeafFields {
    LeafFields(Some(Text(f.messageId)), Some(Text(f.conversationId)), Some(Text(f.senderDeviceId)), f.ciphertext)
  }

  /** Every length fits the 4-byte prefix; otherwise writing the prefix throws. */
  predicate Encodable(f: LeafFields) {
    && |Text(f.messageId)| < U32_LIMIT
    && |Text(f.conversationId)| < U32_LIMIT
    && |Text(f.senderDeviceId)| < U32_LIMIT
    && |f.ciphertext| < U32_LIMIT
  }

  function Prefixed(b: Bytes): Bytes
    requires |b| < U32_LIMIT
  {
    LE32(|b|) + b
  }

  function LeafPreimage(f: LeafFields): Bytes
    requires Encodable(f)
  {
    Prefixed(Text(f.messageId)) + (Prefixed(Text(f.conversationId))
      + (Prefixed(Text(f.senderDeviceId)) + Prefixed(f.ciphertext)))
  }

  predicate IsPreimage(f: LeafFields, b: Bytes) {
    Encodable(f) && b == LeafPreimage(f)
  }

  function ComputeLeaf(k: Keccak, f: LeafFields): (leaf: Option<Digest>)
  {
    if Encodable(f) then Some(k(LeafPreimage(f))) else None
  }

  /** Reads one length-prefixed field and returns it with the unread rest. */
  function TakeField(b: Bytes): (r: Option<(Bytes, Bytes)>)
  {
    if |b| < 4 then None
    else
      var n := FromLE(b[..4]);
      if |b| < 4 + n then None else Some((b[4..4 + n], b[4 + n..]))
  }

  function DecodePreimage(b: Bytes): (r: Option<LeafFields>)
  {
    match TakeField(b)
    case None => None
    case Some((msg, b1)) =>
      match TakeField(b1)
      case None => None
      case Some((conv, b2)) =>
        match TakeField(b2)
        case None => None
        case Some((dev, b3)) =>
          match TakeField(b3)
          case None => None
          case Some((ct, rest)) =>
            if rest == [] then Some(LeafFields(Some(msg), Some(conv), Some(dev), ct)) else None
  }

  lemma TakePrefixed(field: Bytes, rest: Bytes)
    requires |field| < U32_LIMIT
    ensures TakeField(Prefixed(field) + rest) == Some((field, rest))
  {
    var b := Prefixed(field) + rest;
    assert b[..4] == LE32(|field|);
    assert b[4..4 + |field|] == field;
    assert b[4 + |field|..] == rest;
  }

  lemma PreimageRoundTrip(f: LeafFields)
    requires Encodable(f)
    ensures DecodePreimage(LeafPreimage(f)) == Some(Normalise(f))
  {
    var m, c, d := Text(f.messageId), Text(f.conversationId), Text(f.senderDeviceId);
    var ct := Prefixed(f.ciphertext);
    TakePrefixed(m, Prefixed(c) + (Prefixed(d) + ct));
    TakePrefixed(c, Prefixed(d) + ct);
    TakePrefixed(d, ct);
    TakePrefixed(f.ciphertext, []);
    assert ct + [] == ct;
  }

  /** A length as the preimage writes it. */
  function LengthBytes(n: nat): Bytes
    requires n < 0x1_0000_0000
  {
    [n % 256, n / 0x100 % 256, n / 0x1_0000 % 256, n / 0x100_0000]
  }

  /** The preimage byte by byte: message, conversation, device and ciphertext,
      each after its length in four bytes, least significant first. */
  lemma PreimageBytes(f: LeafFields)
    requires Encodable(f)
    ensures
      var m, c, d := Text(f.messageId), Text(f.conversationId), Text(f.senderDeviceId);
      LeafPreimage(f) == LengthBytes(|m|) + m + LengthBytes(|c|) + c + LengthBytes(|d|) + d
                         + LengthBytes(|f.ciphertext|) + f.ciphertext
  {
    LittleEndianBytes(|Text(f.messageId)|);
    LittleEndianBytes(|Text(f.conversationId)|);
    LittleEndianBytes(|Text(f.senderDeviceId)|);
    LittleEndianBytes(|f.ciphertext|);
  }

  /** The preimage identifies the fields, up to missing versus empty. */
  lemma PreimageInjective(f: LeafFields, g: LeafFields)
    requires Encodable(f) && Encodable(g)
    ensures LeafPreimage(f) == LeafPreimage(g) <==> Normalise(f) == Normalise(g)
  {
    PreimageRoundTrip(f);
    PreimageRoundTrip(g);
  }

  /** Equal leaves mean equal fields, or the two preimages collide. */
  lemma LeafBinding(k: Keccak, f: LeafFields, g: LeafFields)
    requires ComputeLeaf(k, f).Some? && ComputeLeaf(k, f) == ComputeLeaf(k, g)
    ensures Normalise(f) == Normalise(g) || IsCollision(k, LeafPreimage(f), LeafPreimage(g))
  {
    PreimageInjective(f, g);
  }

  /** The verification page hashes the bare ciphertext: it can only reproduce
      the server's leaf through a collision. */
  lemma PageLeafDiffers(k: Keccak, f: LeafFields)
    requires Encodable(f)
    ensures ComputeLeaf(k, f) == Some(k(f.ciphertext)) ==> IsCollision(k, f.ciphertext, LeafPreimage(f))
  {
    assert |LeafPreimage(f)| >= |f.ciphertext| + 16;
  }

  // ------------------------------------------------------------------ tree

  /** The 64 bytes hashed for an inner node. */
  function Join(a: Bytes, b: Bytes): Bytes { a + b }

  /** What position j of the next layer holds: the hash of a pair, or an odd
      last node promoted unchanged. */
  function Parent(k: Keccak, layer: seq<Digest>, j: nat): Digest
    requires 2 * j < |layer|
  {
    if 2 * j + 1 < |layer| then k(Join(layer[2 * j], layer[2 * j + 1])) else layer[2 * j]
  }

  /** One level up, built pair by pair from the left. */
  function NextLayer(k: Keccak, layer: seq<Digest>): (next: seq<Digest>)
    ensures |next| == (|layer| + 1) / 2
    ensures forall j | 0 <= j < |next| :: next[j] == Parent(k, layer, j)
    decreases |layer|
  {
    if |layer| < 2 then layer
    else
      var rest := NextLayer(k, layer[2..]);
      assert forall j | 0 < j < |rest| + 1 :: Parent(k, layer, j) == Parent(k, layer[2..], j - 1);
      [k(Join(layer[0], layer[1]))] + rest
  }

  function Root(k: Keccak, leaves: seq<Digest>): Digest
    requires leaves != []
    decreases |leaves|
  {
    if |leaves| == 1 then leaves[0] else Root(k, NextLayer(k, leaves))
  }

  /** The exported entry point rejects the empty list. */
  function ComputeRoot(k: Keccak, leaves: seq<Digest>): Option<Digest> {
    if leaves == [] then None else Some(Root(k, leaves))
  }

  datatype Position = Left | Right

  datatype ProofStep = ProofStep(position: Position, data: Digest)

  /** The sibling of a node, if it has one. */
  function Sibling(layer: seq<Digest>, i: nat): (steps: seq<ProofStep>)
    requires i < |layer|
    ensures |steps| <= 1
  {
    if i % 2 == 1 then [ProofStep(Left, layer[i - 1])]
    else if i + 1 < |layer| then [ProofStep(Right, layer[i + 1])]
    else []
  }

  function GetProof(k: Keccak, leaves: seq<Digest>, i: nat): seq<ProofStep>
    requires i < |leaves|
    decreases |leaves|
  {
    if |leaves| == 1 then []
    else Sibling(leaves, i) + GetProof(k, NextLayer(k, leaves), i / 2)
  }

  function StepInput(node: Digest, step: ProofStep): Bytes {
    match step.position
    case Left => Join(step.data, node)
    case Right => Join(node, step.data)
  }

  function Fold(k: Keccak, node: Digest, proof: seq<ProofStep>): Digest
    decreases |proof|
  {
    if proof == [] then node else Fold(k, k(StepInput(node, proof[0])), proof[1..])
  }

  predicate VerifyProof(k: Keccak, leaf: Digest, proof: seq<ProofStep>, root: Digest) {
    Fold(k, leaf, proof) == root
  }

  /** Every leaf of every list verifies, however often odd nodes are promoted. */
  lemma {:induction false} ProofComplete(k: Keccak, leaves: seq<Digest>, i: nat)
    requires i < |leaves|
    ensures VerifyProof(k, leaves[i], GetProof(k, leaves, i), Root(k, leaves))
    decreases |leaves|
  {
    if |leaves| > 1 {
      var next := NextLayer(k, leaves);
      var tail := GetProof(k, next, i / 2);
      ProofComplete(k, next, i / 2);
      var step := Sibling(leaves, i);
      if step != [] {
        assert (step + tail)[1..] == tail;
        assert k(StepInput(leaves[i], step[0])) == next[i / 2];
      } else {
        assert step + tail == tail;
      }
    }
  }

  // ----------------------------------------------- what is hashed, in order

  predicate PowerOfTwo(p: nat) {
    p == 1 || (p > 1 && p % 2 == 0 && PowerOfTwo(p / 2))
  }

  /** The largest power of two below a length. */
  function SplitPoint(n: nat): (p: nat)
    requires n > 1
    ensures PowerOfTwo(p) && p < n <= 2 * p
  {
    if n == 2 then 1 else 2 * SplitPoint((n + 1) / 2)
  }

  /** Layers split at an even position are paired separately. */
  lemma {:induction false} NextLayerSplits(k: Keccak, layer: seq<Digest>, q: nat)
    requires 2 * q <= |layer|
    ensures NextLayer(k, layer) == NextLayer(k, layer[..2 * q]) + NextLayer(k, layer[2 * q..])
  {
    if q == 0 {
      assert layer[..0] == [] && layer[0..] == layer;
    } else {
      var rest := layer[2..];
      NextLayerSplits(k, rest, q - 1);
      assert layer[..2 * q][2..] == rest[..2 * (q - 1)];
      assert layer[2 * q..] == rest[2 * (q - 1)..];
    }
  }

  lemma RootOfNext(k: Keccak, layer: seq<Digest>)
    requires layer != []
    ensures Root(k, NextLayer(k, layer)) == Root(k, layer)
  {
  }

  /** The hash of the concatenation, left before right. */
  predicate HashesPair(k: Keccak, node: Digest, left: Bytes, right: Bytes) {
    node == k(left + right)
  }

  /** The tree without its layers: a list longer than one leaf splits at the
      largest power of two below its length, and its root hashes the root of the
      front followed by the root of the rest. */
  lemma {:induction false} RootSplits(k: Keccak, leaves: seq<Digest>, p: nat)
    requires PowerOfTwo(p) && p < |leaves| <= 2 * p
    ensures HashesPair(k, Root(k, leaves), Root(k, leaves[..p]), Root(k, leaves[p..]))
    decreases p
  {
    var next := NextLayer(k, leaves);
    if p == 1 {
      assert leaves == [leaves[0], leaves[1]] && next == [next[0]] && next[0] == Parent(k, leaves, 0);
    } else {
      RootSplits(k, next, p / 2);
      NextLayerSplits(k, leaves, p / 2);
      var front, back := NextLayer(k, leaves[..p]), NextLayer(k, leaves[p..]);
      assert next[..p / 2] == front && next[p / 2..] == back;
      RootOfNext(k, leaves[..p]);
      RootOfNext(k, leaves[p..]);
    }
  }

  /** A proof step puts its hash on the side it names. */
  lemma ProofStepOrder(k: Keccak, node: Digest, data: Digest, rest: seq<ProofStep>)
    ensures exists up: Digest ::
      HashesPair(k, up, data, node) && Fold(k, node, [ProofStep(Left, data)] + rest) == Fold(k, up, rest)
    ensures exists up: Digest ::
      HashesPair(k, up, node, data) && Fold(k, node, [ProofStep(Right, data)] + rest) == Fold(k, up, rest)
  {
    var left, right := [ProofStep(Left, data)] + rest, [ProofStep(Right, data)] + rest;
    assert left[1..] == rest && right[1..] == rest;
    assert HashesPair(k, k(StepInput(node, left[0])), data, node);
    assert HashesPair(k, k(StepInput(node, right[0])), node, data);
  }

  // --------------------------------------------------------------- binding

  /** x is hashed to build the layer above this one. */
  ghost predicate IsLayerInput(layer: seq<Digest>, x: Bytes) {
    exists j: nat :: 2 * j + 1 < |layer| && IsPair(layer, j, x)
  }

  predicate IsPair(layer: seq<Digest>, j: nat, x: Bytes)
    requires 2 * j + 1 < |layer|
  {
    x == Join(layer[2 * j], layer[2 * j + 1])
  }

  /** x is hashed while the tree over the leaves is built. */
  ghost predicate IsTreeInput(k: Keccak, leaves: seq<Digest>, x: Bytes)
    decreases |leaves|
  {
    |leaves| > 1 && (IsLayerInput(leaves, x) || IsTreeInput(k, NextLayer(k, leaves), x))
  }

  /** x is hashed while a proof is checked. */
  ghost predicate IsProofInput(k: Keccak, node: Digest, proof: seq<ProofStep>, x: Bytes)
    decreases |proof|
  {
    && proof != []
    && (x == StepInput(node, proof[0]) || IsProofInput(k, k(StepInput(node, proof[0])), proof[1..], x))
  }

  lemma PairInput(k: Keccak, leaves: seq<Digest>, j: nat)
    requires 2 * j + 1 < |leaves|
    ensures IsTreeInput(k, leaves, Join(leaves[2 * j], leaves[2 * j + 1]))
    ensures k(Join(leaves[2 * j], leaves[2 * j + 1])) == NextLayer(k, leaves)[j]
  {
    assert IsPair(leaves, j, Join(leaves[2 * j], leaves[2 * j + 1]));
    assert NextLayer(k, leaves)[j] == Parent(k, leaves, j);
  }

  lemma JoinInjective(a0: Digest, a1: Digest, b0: Digest, b1: Digest)
    ensures Join(a0, a1) == Join(b0, b1) <==> a0 == b0 && a1 == b1
  {
    if Join(a0, a1) == Join(b0, b1) {
      SplitEqual(a0, a1, b0, b1);
    }
  }

  /** Layers that differ at i while their next layers agree hash two
      different pairs alike: node i was not promoted. */
  lemma LayerCollision(k: Keccak, a: seq<Digest>, b: seq<Digest>, i: nat) returns (x: Bytes, y: Bytes)
    requires |a| == |b| && i < |a| && a[i] != b[i]
    requires NextLayer(k, a)[i / 2] == NextLayer(k, b)[i / 2]
    ensures IsCollision(k, x, y) && IsTreeInput(k, a, x) && IsTreeInput(k, b, y)
  {
    var j := i / 2;
    assert i == 2 * j || i == 2 * j + 1;
    assert Parent(k, a, j) == NextLayer(k, a)[j] == NextLayer(k, b)[j] == Parent(k, b, j);
    assert 2 * j + 1 < |a|;
    x, y := PairCollision(k, a, b, j);
  }

  lemma PairCollision(k: Keccak, a: seq<Digest>, b: seq<Digest>, j: nat) returns (x: Bytes, y: Bytes)
    requires |a| == |b| && 2 * j + 1 < |a|
    requires a[2 * j] != b[2 * j] || a[2 * j + 1] != b[2 * j + 1]
    requires NextLayer(k, a)[j] == NextLayer(k, b)[j]
    ensures IsCollision(k, x, y) && IsTreeInput(k, a, x) && IsTreeInput(k, b, y)
  {
    x, y := Join(a[2 * j], a[2 * j + 1]), Join(b[2 * j], b[2 * j + 1]);
    PairInput(k, a, j);
    PairInput(k, b, j);
    JoinInjective(a[2 * j], a[2 * j + 1], b[2 * j], b[2 * j + 1]);
  }

  /** Equally long lists with one root are equal, or a collision can be read
      off the inputs hashed for the two trees. */
  lemma {:induction false} RootBinding(k: Keccak, a: seq<Digest>, b: seq<Digest>) returns (x: Bytes, y: Bytes)
    requires |a| == |b| > 0 && a != b && Root(k, a) == Root(k, b)
    ensures IsCollision(k, x, y) && IsTreeInput(k, a, x) && IsTreeInput(k, b, y)
    decreases |a|
  {
    if |a| == 1 {
      assert false;
    } else if NextLayer(k, a) == NextLayer(k, b) {
      var i :| 0 <= i < |a| && a[i] != b[i];
      x, y := LayerCollision(k, a, b, i);
    } else {
      x, y := RootBinding(k, NextLayer(k, a), NextLayer(k, b));
    }
  }

  /** Positions of a proof, without its hashes. */
  function Shape(proof: seq<ProofStep>): (s: seq<Position>)
    ensures |s| == |proof|
  {
    seq(|proof|, i requires 0 <= i < |proof| => proof[i].position)
  }

  lemma DifferentStepInputs(a: Digest, s: ProofStep, b: Digest, t: ProofStep)
    requires a != b && s.position == t.position
    ensures StepInput(a, s) != StepInput(b, t)
  {
    match s.position {
      case Left => JoinInjective(s.data, a, t.data, b);
      case Right => JoinInjective(a, s.data, b, t.data);
    }
  }

  /** Where a node has a sibling, the genuine step hashes exactly its pair. */
  lemma SiblingInput(k: Keccak, leaves: seq<Digest>, i: nat, x: Bytes)
    requires i < |leaves| && Sibling(leaves, i) != [] && x == StepInput(leaves[i], Sibling(leaves, i)[0])
    ensures IsTreeInput(k, leaves, x) && k(x) == NextLayer(k, leaves)[i / 2]
  {
    SiblingPair(leaves, i);
    PairInput(k, leaves, i / 2);
  }

  lemma SiblingPair(leaves: seq<Digest>, i: nat)
    requires i < |leaves| && Sibling(leaves, i) != []
    ensures 2 * (i / 2) + 1 < |leaves|
    ensures StepInput(leaves[i], Sibling(leaves, i)[0]) == Join(leaves[2 * (i / 2)], leaves[2 * (i / 2) + 1])
  {
    assert i == 2 * (i / 2) || i == 2 * (i / 2) + 1;
  }

  lemma ShapeParts(s: ProofStep, tail: seq<ProofStep>, proof: seq<ProofStep>)
    requires Shape(proof) == Shape([s] + tail)
    ensures proof != [] && proof[0].position == s.position && Shape(proof[1..]) == Shape(tail)
  {
    var genuine := [s] + tail;
    assert |proof| == |Shape(proof)| == |genuine|;
    forall j | 0 <= j < |proof|
      ensures proof[j].position == genuine[j].position
    {
      assert Shape(proof)[j] == Shape(genuine)[j];
    }
  }

  /** A proof shaped like the one for index i that verifies any other leaf
      yields a collision between its own inputs and the tree's. */
  lemma {:induction false} ProofBinding(k: Keccak, leaves: seq<Digest>, i: nat, leaf: Digest, proof: seq<ProofStep>)
    returns (x: Bytes, y: Bytes)
    requires i < |leaves| && leaf != leaves[i]
    requires Shape(proof) == Shape(GetProof(k, leaves, i))
    requires VerifyProof(k, leaf, proof, Root(k, leaves))
    ensures IsCollision(k, x, y) && IsProofInput(k, leaf, proof, x) && IsTreeInput(k, leaves, y)
    decreases |leaves|
  {
    if |leaves| == 1 {
      assert false;
    }
    var next, step := NextLayer(k, leaves), Sibling(leaves, i);
    var tail := GetProof(k, next, i / 2);
    if step == [] {
      assert step + tail == tail;
      x, y := ProofBinding(k, next, i / 2, leaf, proof);
    } else {
      assert step == [step[0]];
      ShapeParts(step[0], tail, proof);
      SiblingInput(k, leaves, i, StepInput(leaves[i], step[0]));
      DifferentStepInputs(leaf, proof[0], leaves[i], step[0]);
      x, y := StepInput(leaf, proof[0]), StepInput(leaves[i], step[0]);
      if k(x) != next[i / 2] {
        x, y := ProofBinding(k, next, i / 2, k(x), proof[1..]);
      }
    }
  }

  /** Length is not bound: without domain separation every list of two or more
      leaves shares its root with the shorter list of its first inner layer. */
  lemma LengthNotBound(k: Keccak, leaves: seq<Digest>)
    requires |leaves| >= 2
    ensures 0 < |NextLayer(k, leaves)| < |leaves|
    ensures Root(k, NextLayer(k, leaves)) == Root(k, leaves)
  {
  }

  /** What a batch root says about its messages: two equally long batches of
      messages with one root have the same fields in the same order, or the
      hashed inputs contain a collision. */
  lemma BatchBinding(k: Keccak, fs: seq<LeafFields>, gs: seq<LeafFields>, a: seq<Digest>, b: seq<Digest>)
    returns (x: Bytes, y: Bytes)
    requires |fs| == |gs| == |a| == |b| > 0
    requires forall i | 0 <= i < |fs| :: ComputeLeaf(k, fs[i]) == Some(a[i]) && ComputeLeaf(k, gs[i]) == Some(b[i])
    requires Root(k, a) == Root(k, b)
    requires exists i | 0 <= i < |fs| :: Normalise(fs[i]) != Normalise(gs[i])
    ensures IsCollision(k, x, y)
    ensures || (IsTreeInput(k, a, x) && IsTreeInput(k, b, y))
            || exists i :: 0 <= i < |fs| && IsPreimage(fs[i], x) && IsPreimage(gs[i], y)
  {
    if a == b {
      var i :| 0 <= i < |fs| && Normalise(fs[i]) != Normalise(gs[i]);
      LeafBinding(k, fs[i], gs[i]);
      x, y := LeafPreimage(fs[i]), LeafPreimage(gs[i]);
    } else {
      x, y := RootBinding(k, a, b);
    }
  }
}
