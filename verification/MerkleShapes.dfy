/** Why a root says nothing about the number of leaves: for any two lengths there
    are lists with one root (server/blockchain/merkle-core.js). */
module MerkleShapes {
  import opened MerkleCore

  /** A hash tree as a value: a digest, or two subtrees hashed together. */
  datatype Tree = Tip(digest: Digest) | Fork(left: Tree, right: Tree)

  function Value(k: Keccak, t: Tree): Digest {
    match t
    case Tip(d) => d
    case Fork(l, r) => k(Join(Value(k, l), Value(k, r)))
  }

  function Values(k: Keccak, ts: seq<Tree>): (ds: seq<Digest>)
    ensures |ds| == |ts| && forall i | 0 <= i < |ts| :: ds[i] == Value(k, ts[i])
  {
    if ts == [] then [] else [Value(k, ts[0])] + Values(k, ts[1..])
  }

  /** The pairing of the tree, on trees instead of digests. */
  function Pair(layer: seq<Tree>): (next: seq<Tree>)
    ensures |next| == (|layer| + 1) / 2
    ensures forall j | 0 <= j < |next| ::
      next[j] == if 2 * j + 1 < |layer| then Fork(layer[2 * j], layer[2 * j + 1]) else layer[2 * j]
    decreases |layer|
  {
    if |layer| < 2 then layer else [Fork(layer[0], layer[1])] + Pair(layer[2..])
  }

  function Build(ts: seq<Tree>): Tree
    requires ts != []
    decreases |ts|
  {
    if |ts| == 1 then ts[0] else Build(Pair(ts))
  }

  lemma PairValues(k: Keccak, ts: seq<Tree>)
    ensures Values(k, Pair(ts)) == NextLayer(k, Values(k, ts))
  {
    var ds := Values(k, ts);
    forall j | 0 <= j < |Pair(ts)|
      ensures Values(k, Pair(ts))[j] == NextLayer(k, ds)[j]
    {
      assert NextLayer(k, ds)[j] == Parent(k, ds, j);
    }
  }

  /** The root of the values is the value of the tree built. */
  lemma {:induction false} BuildValue(k: Keccak, ts: seq<Tree>)
    requires ts != []
    ensures Root(k, Values(k, ts)) == Value(k, Build(ts))
    decreases |ts|
  {
    if |ts| > 1 {
      PairValues(k, ts);
      BuildValue(k, Pair(ts));
    }
  }

  // ------------------------------------------------------------ refinement

  /** t has every fork of the shape s. */
  predicate Refines(t: Tree, s: Tree) {
    s.Fork? ==> t.Fork? && Refines(t.left, s.left) && Refines(t.right, s.right)
  }

  function Merge(a: Tree, b: Tree): Tree {
    if a.Tip? then b
    else if b.Tip? then a
    else Fork(Merge(a.left, b.left), Merge(a.right, b.right))
  }

  lemma {:induction false} RefinesSelf(t: Tree)
    ensures Refines(t, t)
  {
    if t.Fork? {
      RefinesSelf(t.left);
      RefinesSelf(t.right);
    }
  }

  lemma {:induction false} MergeRefines(a: Tree, b: Tree)
    ensures Refines(Merge(a, b), a) && Refines(Merge(a, b), b)
  {
    RefinesSelf(a);
    RefinesSelf(b);
    if a.Fork? && b.Fork? {
      MergeRefines(a.left, b.left);
      MergeRefines(a.right, b.right);
    }
  }

  /** The subtrees that a layer above is paired from. */
  function Unpair(upper: seq<Tree>, n: nat): (ts: seq<Tree>)
    requires |upper| == (n + 1) / 2 && forall j | 0 <= 2 * j + 1 < n :: upper[j].Fork?
    ensures |ts| == n
    ensures forall i | 0 <= i < n ::
      ts[i] == if i % 2 == 1 then upper[i / 2].right else if i + 1 < n then upper[i / 2].left else upper[i / 2]
  {
    seq(n, i requires 0 <= i < n =>
      if i % 2 == 1 then upper[i / 2].right else if i + 1 < n then upper[i / 2].left else upper[i / 2])
  }

  lemma PairUnpair(upper: seq<Tree>, n: nat)
    requires |upper| == (n + 1) / 2 && forall j | 0 <= 2 * j + 1 < n :: upper[j].Fork?
    ensures Pair(Unpair(upper, n)) == upper
  {
    var ts := Unpair(upper, n);
    forall j | 0 <= j < |upper|
      ensures Pair(ts)[j] == upper[j]
    {
      assert 2 * j < n && (2 * j) / 2 == j && (2 * j) % 2 == 0;
      assert 2 * j + 1 < n ==> (2 * j + 1) / 2 == j && (2 * j + 1) % 2 == 1;
    }
  }

  /** Every refinement of the tree built from n shapes is built from n trees. */
  lemma {:induction false} Split(t: Tree, shapes: seq<Tree>) returns (ts: seq<Tree>)
    requires shapes != [] && Refines(t, Build(shapes))
    ensures |ts| == |shapes| && Build(ts) == t
    ensures forall i | 0 <= i < |ts| :: Refines(ts[i], shapes[i])
    decreases |shapes|
  {
    if |shapes| == 1 {
      ts := [t];
    } else {
      var n, next := |shapes|, Pair(shapes);
      var upper := Split(t, next);
      forall j | 0 <= 2 * j + 1 < n
        ensures upper[j].Fork?
      {
        assert Refines(upper[j], next[j]);
      }
      ts := Unpair(upper, n);
      PairUnpair(upper, n);
      forall i | 0 <= i < n
        ensures Refines(ts[i], shapes[i])
      {
        UnpairRefines(upper, shapes, i);
      }
    }
  }

  lemma UnpairRefines(upper: seq<Tree>, shapes: seq<Tree>, i: nat)
    requires i < |shapes| && |upper| == (|shapes| + 1) / 2 && Refines(upper[i / 2], Pair(shapes)[i / 2])
    requires forall j | 0 <= 2 * j + 1 < |shapes| :: upper[j].Fork?
    ensures Refines(Unpair(upper, |shapes|)[i], shapes[i])
  {
    assert i == 2 * (i / 2) || i == 2 * (i / 2) + 1;
  }

  function Tips(n: nat): (ts: seq<Tree>)
    ensures |ts| == n
  {
    if n == 0 then [] else [Tip(ZERO_DIGEST)] + Tips(n - 1)
  }

  /** For any two lengths there are lists with one root, so equal length is what
      binding needs: nothing less makes a root determine its leaves. */
  lemma AnyLengthsShareRoot(k: Keccak, m: nat, n: nat) returns (a: seq<Digest>, b: seq<Digest>)
    requires m > 0 && n > 0
    ensures |a| == m && |b| == n && Root(k, a) == Root(k, b)
  {
    var s, u := Build(Tips(m)), Build(Tips(n));
    MergeRefines(s, u);
    var t := Merge(s, u);
    var ts := Split(t, Tips(m));
    var us := Split(t, Tips(n));
    BuildValue(k, ts);
    BuildValue(k, us);
    a, b := Values(k, ts), Values(k, us);
  }
}
