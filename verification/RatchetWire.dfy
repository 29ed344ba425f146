/** The wire format of ratchet messages and the data their authentication tag
    covers (client/cryptography/core/dh_ratchet/session.py). */
module RatchetWire {
  import opened Bytes
  import opened Outcomes

  const VERSION: byte := 0x02
  const RATCHET_PUB_LENGTH: nat := 32
  const HEADER_LENGTH: nat := 45

  datatype Message = Message(msgIndex: nat, pn: nat, n: nat, ratchetPub: Bytes, ciphertext: Bytes)

  predicate Packable(m: Message) {
    m.msgIndex < U32_LIMIT && m.pn < U32_LIMIT && m.n < U32_LIMIT && |m.ratchetPub| == RATCHET_PUB_LENGTH
  }

  /** None: a counter beyond uint32 or a key of another length is refused. */
  function Encode(m: Message): Option<Bytes> {
    if !Packable(m) then None
    else Some([VERSION] + LE32(m.msgIndex) + LE32(m.pn) + LE32(m.n) + m.ratchetPub + m.ciphertext)
  }

  datatype Malformed = TooShort | WrongVersion | EmptyCiphertext

  /** How the responder reads the first message: an empty body passes here. */
  function ParseInitial(data: Bytes): Result<Message, Malformed> {
    if |data| < HEADER_LENGTH then Err(TooShort)
    else if data[0] != VERSION then Err(WrongVersion)
    else Ok(Message(FromLE(data[1..5]), FromLE(data[5..9]), FromLE(data[9..13]), data[13..45], data[45..]))
  }

  /** How every later message is read. */
  function Parse(data: Bytes): Result<Message, Malformed> {
    var m :- ParseInitial(data);
    if m.ciphertext == [] then Err(EmptyCiphertext) else Ok(m)
  }

  lemma ParseAfterEncode(m: Message)
    requires Packable(m)
    ensures ParseInitial(Encode(m).value) == Ok(m)
    ensures Parse(Encode(m).value) == if m.ciphertext == [] then Err(EmptyCiphertext) else Ok(m)
  {
    var data := Encode(m).value;
    assert data[1..5] == LE32(m.msgIndex);
    assert data[5..9] == LE32(m.pn);
    assert data[9..13] == LE32(m.n);
    assert data[13..45] == m.ratchetPub;
    assert data[45..] == m.ciphertext;
  }

  lemma FieldValue(b: Bytes)
    requires |b| == 4
    ensures FromLE(b) < U32_LIMIT && LE32(FromLE(b)) == b
  {
    Exp256Four();
    LittleEndianParse(b);
    LittleEndianParse(LE32(FromLE(b)));
  }

  lemma EncodeAfterParse(data: Bytes)
    requires ParseInitial(data).Ok?
    ensures Encode(ParseInitial(data).value) == Some(data)
  {
    FieldValue(data[1..5]);
    FieldValue(data[5..9]);
    FieldValue(data[9..13]);
    assert data == [data[0]] + data[1..5] + data[5..9] + data[9..13] + data[13..45] + data[45..];
  }

  /** The parser accepts exactly the encodings of messages with a body. */
  lemma AcceptsExactlyEncodings(data: Bytes, m: Message)
    ensures Parse(data) == Ok(m) <==> Encode(m) == Some(data) && m.ciphertext != []
  {
    if Packable(m) { ParseAfterEncode(m); }
    if ParseInitial(data).Ok? { EncodeAfterParse(data); }
  }

  // ------------------------------------------------------ associated data

  /** The index is prepended to what the caller authenticates. */
  function IndexedData(msgIndex: nat, caller: Bytes): Option<Bytes> {
    if msgIndex >= U32_LIMIT then None else Some(LE32(msgIndex) + caller)
  }

  /** Length-prefixed data, then the header; None when a field does not fit. */
  function BuildAssociatedData(data: Bytes, m: Message): Option<Bytes> {
    if |data| >= U32_LIMIT || m.pn >= U32_LIMIT || m.n >= U32_LIMIT then None
    else Some(BE32(|data|) + data + m.ratchetPub + BE32(m.pn) + BE32(m.n))
  }

  /** What the authentication tag of a message covers besides its ciphertext. */
  function Authenticated(m: Message, caller: Bytes): Option<Bytes> {
    var data :- IndexedData(m.msgIndex, caller);
    BuildAssociatedData(data, m)
  }

  /** The receiver rebuilds from the wire what the sender authenticated. */
  lemma ReceiverRebuilds(sent: Message, caller: Bytes)
    requires Packable(sent) && sent.ciphertext != []
    ensures Encode(sent).Some? && Parse(Encode(sent).value).Ok?
    ensures Authenticated(Parse(Encode(sent).value).value, caller) == Authenticated(sent, caller)
  {
    ParseAfterEncode(sent);
  }

  lemma SameFour(a: nat, b: nat)
    requires a < U32_LIMIT && b < U32_LIMIT && (LE32(a) == LE32(b) || BE32(a) == BE32(b))
    ensures a == b
  {
  }

  /** The header encoding determines its parts, so the length prefix separates
      the caller's data from the header. */
  lemma DataDetermined(a: Bytes, b: Bytes, m: Message, k: Message)
    requires |m.ratchetPub| == RATCHET_PUB_LENGTH && |k.ratchetPub| == RATCHET_PUB_LENGTH
    requires BuildAssociatedData(a, m).Some? && BuildAssociatedData(a, m) == BuildAssociatedData(b, k)
    ensures a == b && m.ratchetPub == k.ratchetPub && m.pn == k.pn && m.n == k.n
  {
    var tailA, tailB := a + m.ratchetPub + BE32(m.pn) + BE32(m.n), b + k.ratchetPub + BE32(k.pn) + BE32(k.n);
    assert BuildAssociatedData(a, m).value == BE32(|a|) + tailA;
    assert BuildAssociatedData(b, k).value == BE32(|b|) + tailB;
    SplitEqual(BE32(|a|), tailA, BE32(|b|), tailB);
    SameFour(|a|, |b|);
    SplitEqual(a + m.ratchetPub + BE32(m.pn), BE32(m.n), b + k.ratchetPub + BE32(k.pn), BE32(k.n));
    SplitEqual(a + m.ratchetPub, BE32(m.pn), b + k.ratchetPub, BE32(k.pn));
    SplitEqual(a, m.ratchetPub, b, k.ratchetPub);
    SameFour(m.pn, k.pn);
    SameFour(m.n, k.n);
  }

  /** The authenticated bytes determine the index, the caller's data and the header. */
  lemma AuthenticatedDetermines(m: Message, caller: Bytes, k: Message, otherCaller: Bytes)
    requires |m.ratchetPub| == RATCHET_PUB_LENGTH && |k.ratchetPub| == RATCHET_PUB_LENGTH
    requires Authenticated(m, caller).Some? && Authenticated(m, caller) == Authenticated(k, otherCaller)
    ensures m.msgIndex == k.msgIndex && caller == otherCaller
    ensures m.ratchetPub == k.ratchetPub && m.pn == k.pn && m.n == k.n
  {
    DataDetermined(LE32(m.msgIndex) + caller, LE32(k.msgIndex) + otherCaller, m, k);
    SplitEqual(LE32(m.msgIndex), caller, LE32(k.msgIndex), otherCaller);
    SameFour(m.msgIndex, k.msgIndex);
  }

  // --------------------------------------------------------- byte by byte

  /** The four bytes of n from position i on, least significant first. */
  predicate LittleAt(data: Bytes, i: nat, n: nat) {
    && i + 4 <= |data|
    && data[i] == n % 256 && data[i + 1] == n / 0x100 % 256
    && data[i + 2] == n / 0x1_0000 % 256 && data[i + 3] == n / 0x100_0000
  }

  /** The same, most significant first. */
  predicate BigAt(data: Bytes, i: nat, n: nat) {
    && i + 4 <= |data|
    && data[i] == n / 0x100_0000 && data[i + 1] == n / 0x1_0000 % 256
    && data[i + 2] == n / 0x100 % 256 && data[i + 3] == n % 256
  }

  /** Where everything sits on the wire: version 2, index, previous chain length
      and counter as little-endian uint32, the key, the ciphertext. */
  lemma WireBytes(m: Message)
    ensures Encode(m).Some? <==>
      m.msgIndex < 0x1_0000_0000 && m.pn < 0x1_0000_0000 && m.n < 0x1_0000_0000 && |m.ratchetPub| == 32
    ensures Encode(m).Some? ==>
      var data := Encode(m).value;
      && |data| == 45 + |m.ciphertext| && data[0] == 2
      && LittleAt(data, 1, m.msgIndex) && LittleAt(data, 5, m.pn) && LittleAt(data, 9, m.n)
      && data[13..45] == m.ratchetPub && data[45..] == m.ciphertext
  {
    if Packable(m) {
      LittleEndianBytes(m.msgIndex);
      LittleEndianBytes(m.pn);
      LittleEndianBytes(m.n);
    }
  }

  /** Where everything sits in the authenticated data: the length of what
      follows it up to the header, the index, the caller's data, the key, and
      previous chain length and counter; the index alone is little-endian. */
  lemma AuthenticatedBytes(m: Message, caller: Bytes)
    requires |m.ratchetPub| == 32
    ensures Authenticated(m, caller).Some? <==>
      && m.msgIndex < 0x1_0000_0000 && 4 + |caller| < 0x1_0000_0000 && m.pn < 0x1_0000_0000 && m.n < 0x1_0000_0000
    ensures Authenticated(m, caller).Some? ==>
      var data, end := Authenticated(m, caller).value, 8 + |caller|;
      && |data| == end + 40
      && BigAt(data, 0, 4 + |caller|) && LittleAt(data, 4, m.msgIndex) && data[8..end] == caller
      && data[end..end + 32] == m.ratchetPub && BigAt(data, end + 32, m.pn) && BigAt(data, end + 36, m.n)
  {
    if Authenticated(m, caller).Some? {
      LittleEndianBytes(m.msgIndex);
      BigEndianBytes(4 + |caller|);
      BigEndianBytes(m.pn);
      BigEndianBytes(m.n);
    }
  }
}
