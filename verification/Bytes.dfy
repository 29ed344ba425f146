/** Optional and fallible results shared by every component. */
module Outcomes {
  datatype Option<+T> = None | Some(value: T) {
    predicate IsFailure() { None? }

    function PropagateFailure<U>(): Option<U>
      requires None?
    {
      None
    }

    function Extract(): T
      requires Some?
    {
      value
    }
  }

  datatype Result<+T, +E> = Ok(value: T) | Err(error: E) {
    predicate IsFailure() { Err? }

    function PropagateFailure<U>(): Result<U, E>
      requires Err?
    {
      Err(error)
    }

    function Extract(): T
      requires Ok?
    {
      value
    }
  }

  /** A durable save either succeeds, fails with nothing written, or takes
      effect and then raises: the rename is done but a later fsync fails. */
  datatype Saving = Saved | FailedClean | Ambiguous
}

/** Byte strings and the fixed-width integer encodings the wire formats use. */
module Bytes {
  type byte = x: int | 0 <= x < 256
  type Bytes = seq<byte>

  /** One past the largest value of a uint32 field. */
  const U32_LIMIT: int := 0x1_0000_0000

  function Exp256(len: nat): (p: nat)
    ensures p >= 1
  {
    if len == 0 then 1 else 256 * Exp256(len - 1)
  }

  function ToLE(n: nat, len: nat): (b: Bytes)
    ensures |b| == len
  {
    if len == 0 then [] else [n % 256] + ToLE(n / 256, len - 1)
  }

  function FromLE(b: Bytes): nat {
    if b == [] then 0 else b[0] + 256 * FromLE(b[1..])
  }

  function ToBE(n: nat, len: nat): (b: Bytes)
    ensures |b| == len
  {
    if len == 0 then [] else ToBE(n / 256, len - 1) + [n % 256]
  }

  function FromBE(b: Bytes): nat {
    if b == [] then 0 else 256 * FromBE(b[..|b| - 1]) + b[|b| - 1]
  }

  lemma {:induction false} LittleEndianRoundTrip(n: nat, len: nat)
    requires n < Exp256(len)
    ensures FromLE(ToLE(n, len)) == n
  {
    if len > 0 {
      assert ToLE(n, len)[1..] == ToLE(n / 256, len - 1);
      LittleEndianRoundTrip(n / 256, len - 1);
    }
  }

  lemma {:induction false} LittleEndianParse(b: Bytes)
    ensures FromLE(b) < Exp256(|b|)
    ensures ToLE(FromLE(b), |b|) == b
  {
    if b != [] {
      LittleEndianParse(b[1..]);
      var rest := FromLE(b[1..]);
      assert FromLE(b) % 256 == b[0] && FromLE(b) / 256 == rest;
    }
  }

  lemma {:induction false} BigEndianRoundTrip(n: nat, len: nat)
    requires n < Exp256(len)
    ensures FromBE(ToBE(n, len)) == n
  {
    if len > 0 {
      assert ToBE(n, len)[..len - 1] == ToBE(n / 256, len - 1);
      BigEndianRoundTrip(n / 256, len - 1);
    }
  }

  lemma {:induction false} BigEndianParse(b: Bytes)
    ensures FromBE(b) < Exp256(|b|)
    ensures ToBE(FromBE(b), |b|) == b
  {
    if b != [] {
      BigEndianParse(b[..|b| - 1]);
      var rest := FromBE(b[..|b| - 1]);
      assert FromBE(b) % 256 == b[|b| - 1] && FromBE(b) / 256 == rest;
    }
  }

  lemma Exp256Four()
    ensures Exp256(4) == U32_LIMIT
  {
    assert Exp256(1) == 256;
    assert Exp256(2) == 0x1_0000;
    assert Exp256(3) == 0x100_0000;
  }

  /** A little-endian uint32 field; callers reject larger values first. */
  function LE32(n: nat): (b: Bytes)
    requires n < U32_LIMIT
    ensures |b| == 4 && FromLE(b) == n
  {
    Exp256Four();
    LittleEndianRoundTrip(n, 4);
    ToLE(n, 4)
  }

  /** A big-endian uint32 field; callers reject larger values first. */
  function BE32(n: nat): (b: Bytes)
    requires n < U32_LIMIT
    ensures |b| == 4 && FromBE(b) == n
  {
    Exp256Four();
    BigEndianRoundTrip(n, 4);
    ToBE(n, 4)
  }

  lemma Quotients(n: nat)
    requires n < U32_LIMIT
    ensures n / 256 / 256 == n / 0x1_0000 && n / 256 / 256 / 256 == n / 0x100_0000 < 256
  {
  }

  lemma LittleSteps(n: nat, len: nat)
    requires len == 4
    ensures ToLE(n, len) == [n % 256, n / 256 % 256, n / 256 / 256 % 256, n / 256 / 256 / 256 % 256]
  {
    var a, b, c := n / 256, n / 256 / 256, n / 256 / 256 / 256;
    assert ToLE(c, len - 3) == [c % 256] + ToLE(c / 256, len - 4);
    assert ToLE(b, len - 2) == [b % 256] + ToLE(c, len - 3);
    assert ToLE(a, len - 1) == [a % 256] + ToLE(b, len - 2);
  }

  lemma BigSteps(n: nat, len: nat)
    requires len == 4
    ensures ToBE(n, len) == [n / 256 / 256 / 256 % 256, n / 256 / 256 % 256, n / 256 % 256, n % 256]
  {
    var a, b, c := n / 256, n / 256 / 256, n / 256 / 256 / 256;
    assert ToBE(c, len - 3) == ToBE(c / 256, len - 4) + [c % 256];
    assert ToBE(b, len - 2) == ToBE(c, len - 3) + [b % 256];
    assert ToBE(a, len - 1) == ToBE(b, len - 2) + [a % 256];
  }

  /** The four bytes of a uint32, least significant first. */
  lemma LittleEndianBytes(n: nat)
    requires n < U32_LIMIT
    ensures LE32(n) == [n % 256, n / 0x100 % 256, n / 0x1_0000 % 256, n / 0x100_0000]
  {
    Quotients(n);
    LittleSteps(n, 4);
  }

  /** The four bytes of a uint32, most significant first. */
  lemma BigEndianBytes(n: nat)
    requires n < U32_LIMIT
    ensures BE32(n) == [n / 0x100_0000, n / 0x1_0000 % 256, n / 0x100 % 256, n % 256]
  {
    Quotients(n);
    BigSteps(n, 4);
  }

  /** Equal concatenations with equally long heads split equally. */
  lemma SplitEqual(a: Bytes, b: Bytes, c: Bytes, d: Bytes)
    requires |a| == |c| && a + b == c + d
    ensures a == c && b == d
  {
    assert a == (a + b)[..|a|] && c == (c + d)[..|c|];
    assert b == (a + b)[|a|..] && d == (c + d)[|c|..];
  }
}
