/** The client's message list with its id-to-position index
    (client/secure_messenger/src/storage/LocalMessageStore.cpp). */
module MessageLists {
  datatype Message = Message(
    id: string, conversationId: string, senderDeviceId: string, plaintext: string, timestamp: string,
    verificationState: int, isDeleted: bool, revoked: bool, forwarded: bool)

  datatype Envelope = Envelope(
    id: string, conversationId: string, senderDeviceId: string, ciphertext: seq<int>, nonce: seq<int>,
    associatedData: seq<int>, txHash: string, merkleRoot: string, timestamp: string, verificationState: int,
    isDeleted: bool)

  /** What is shown, and what a save writes. */
  datatype Contents = Contents(messages: seq<Message>, envelopes: seq<Envelope>)

  // ------------------------------------------------- the plain list, by id

  function Select<T>(s: seq<T>, keep: T -> bool): seq<T> {
    if s == [] then []
    else
      var n := |s| - 1;
      Select(s[..n], keep) + if keep(s[n]) then [s[n]] else []
  }

  function Each<T>(s: seq<T>, f: T -> T): (r: seq<T>)
    ensures |r| == |s| && forall i | 0 <= i < |s| :: r[i] == f(s[i])
  {
    if s == [] then [] else [f(s[0])] + Each(s[1..], f)
  }

  predicate HasMessage(s: seq<Message>, id: string) {
    exists m | m in s :: m.id == id
  }

  predicate HasEnvelope(s: seq<Envelope>, id: string) {
    exists e | e in s :: e.id == id
  }

  ghost predicate UniqueIds(s: seq<Message>) {
    forall i, j | 0 <= i < j < |s| :: s[i].id != s[j].id
  }

  function OtherId(id: string): Message -> bool {
    (m: Message) => m.id != id
  }

  function OutsideMessage(conversation: string): Message -> bool {
    (m: Message) => m.conversationId != conversation
  }

  function OutsideEnvelope(conversation: string): Envelope -> bool {
    (e: Envelope) => e.conversationId != conversation
  }

  datatype Mark = Revoked | Deleted

  function Marked(m: Message, mark: Mark): Message {
    match mark
    case Revoked => m.(revoked := true)
    case Deleted => m.(isDeleted := true)
  }

  function MarkIfId(id: string, mark: Mark): Message -> Message {
    (m: Message) => if m.id == id then Marked(m, mark) else m
  }

  function RenameIfId(oldId: string, newId: string): Message -> Message {
    (m: Message) => if m.id == oldId then m.(id := newId) else m
  }

  /** Only the first envelope with the id is renamed. */
  function RenameFirst(s: seq<Envelope>, oldId: string, newId: string): (r: seq<Envelope>)
    ensures |r| == |s|
  {
    if s == [] then []
    else if s[0].id == oldId then [s[0].(id := newId)] + s[1..]
    else [s[0]] + RenameFirst(s[1..], oldId, newId)
  }

  datatype Op =
    | StoreMessage(message: Message)
    | StoreEnvelope(envelope: Envelope)
    | Rename(oldId: string, newId: string)
    | Remove(id: string)
    | SetMark(id: string, mark: Mark)
    | ClearConversation(conversation: string)
    | ClearAll
    | Reload

  predicate RenameApplies(oldId: string, newId: string) {
    oldId != "" && newId != "" && oldId != newId
  }

  /** Every operation on a plain list whose entries are found by id. */
  function Apply(c: Contents, op: Op): Contents {
    match op
    case StoreMessage(m) => if m.id == "" || HasMessage(c.messages, m.id) then c else c.(messages := c.messages + [m])
    case StoreEnvelope(e) =>
      if e.id == "" || HasEnvelope(c.envelopes, e.id) then c else c.(envelopes := c.envelopes + [e])
    case Rename(oldId, newId) =>
      if !RenameApplies(oldId, newId) then c
      else Contents(Each(c.messages, RenameIfId(oldId, newId)), RenameFirst(c.envelopes, oldId, newId))
    case Remove(id) => c.(messages := Select(c.messages, OtherId(id)))
    case SetMark(id, mark) => c.(messages := Each(c.messages, MarkIfId(id, mark)))
    case ClearConversation(conv) =>
      Contents(Select(c.messages, OutsideMessage(conv)), Select(c.envelopes, OutsideEnvelope(conv)))
    case ClearAll => Contents([], [])
    case Reload => c
  }

  // --------------------------------------------------- order and uniqueness

  /** at lists, in increasing order, the positions in s of the entries of sub. */
  ghost predicate Embeds<T>(sub: seq<T>, s: seq<T>, at: seq<nat>) {
    && |at| == |sub|
    && (forall i | 0 <= i < |at| :: at[i] < |s| && s[at[i]] == sub[i])
    && (forall i, j | 0 <= i < j < |at| :: at[i] < at[j])
  }

  lemma {:induction false} EmbedsOneMore<T>(sub: seq<T>, s: seq<T>, at: seq<nat>, x: T, take: bool)
    requires Embeds(sub, s, at)
    ensures take ==> Embeds(sub + [x], s + [x], at + [|s|])
    ensures !take ==> Embeds(sub, s + [x], at)
  {
  }

  /** A filtered list keeps exactly the chosen entries, in their order. */
  lemma {:induction false} SelectKeepsOrder<T>(s: seq<T>, keep: T -> bool)
    returns (at: seq<nat>)
    ensures Embeds(Select(s, keep), s, at)
    ensures forall k: nat | k < |s| && keep(s[k]) :: k in at
    ensures forall k: nat | k < |s| && k in at :: keep(s[k])
  {
    if s == [] {
      at := [];
    } else {
      var n := |s| - 1;
      var before := SelectKeepsOrder(s[..n], keep);
      assert s == s[..n] + [s[n]];
      EmbedsOneMore(Select(s[..n], keep), s[..n], before, s[n], keep(s[n]));
      at := before + if keep(s[n]) then [n] else [];
      forall k: nat | k < |s| ensures keep(s[k]) <==> k in at {
        assert k < n ==> s[..n][k] == s[k];
        assert k in at <==> k in before || (k == n && keep(s[n]));
        assert n !in before;
      }
    }
  }

  lemma {:induction false} SelectKeepsUnique(s: seq<Message>, keep: Message -> bool)
    requires UniqueIds(s)
    ensures UniqueIds(Select(s, keep))
  {
    var at := SelectKeepsOrder(s, keep);
    var r := Select(s, keep);
    forall i, j | 0 <= i < j < |r| ensures r[i].id != r[j].id {
      assert at[i] < at[j] && s[at[i]] == r[i] && s[at[j]] == r[j];
    }
  }

  lemma {:induction false} SelectAll<T>(s: seq<T>, keep: T -> bool)
    requires forall i | 0 <= i < |s| :: keep(s[i])
    ensures Select(s, keep) == s
  {
    if s != [] {
      var n := |s| - 1;
      assert keep(s[n]) && s[..n] + [s[n]] == s;
      SelectAll(s[..n], keep);
    }
  }

  lemma {:induction false} SelectConcat<T>(a: seq<T>, b: seq<T>, keep: T -> bool)
    ensures Select(a + b, keep) == Select(a, keep) + Select(b, keep)
  {
    if b == [] {
      assert a + b == a;
    } else {
      var n := |b| - 1;
      SelectConcat(a, b[..n], keep);
      assert (a + b)[..|a + b| - 1] == a + b[..n] && (a + b)[|a + b| - 1] == b[n];
    }
  }

  lemma SelectDropsLast<T>(front: seq<T>, x: T, keep: T -> bool)
    requires !keep(x) && forall y | y in front :: keep(y)
    ensures Select(front + [x], keep) == front
  {
    assert (front + [x])[..|front|] == front;
    SelectAll(front, keep);
  }

  lemma SelectErases<T>(front: seq<T>, x: T, back: seq<T>, keep: T -> bool)
    requires !keep(x) && (forall y | y in front :: keep(y)) && (forall y | y in back :: keep(y))
    ensures Select(front + [x] + back, keep) == front + back
  {
    SelectConcat(front + [x], back, keep);
    SelectDropsLast(front, x, keep);
    SelectAll(back, keep);
  }

  lemma OthersDiffer(front: seq<Message>, x: Message, back: seq<Message>)
    requires UniqueIds(front + [x] + back)
    ensures forall y | y in front :: y.id != x.id
    ensures forall y | y in back :: y.id != x.id
  {
    var all := front + [x] + back;
    assert all[|front|] == x;
    forall i | 0 <= i < |front| ensures front[i].id != x.id { assert all[i] == front[i]; }
    forall i | 0 <= i < |back| ensures back[i].id != x.id { assert all[|front| + 1 + i] == back[i]; }
  }

  /** With unique ids, filtering out an id erases one position. */
  lemma SelectOthersErases(s: seq<Message>, at: nat)
    requires at < |s| && UniqueIds(s)
    ensures Select(s, OtherId(s[at].id)) == s[..at] + s[at + 1..]
  {
    var front, x, back := s[..at], s[at], s[at + 1..];
    assert s == front + [x] + back;
    OthersDiffer(front, x, back);
    SelectErases(front, x, back, OtherId(x.id));
  }

  /** A change that concerns one id updates one position. */
  lemma EachUpdates(s: seq<Message>, f: Message -> Message, at: nat)
    requires at < |s| && UniqueIds(s)
    requires forall m | m in s && m.id != s[at].id :: f(m) == m
    ensures Each(s, f) == s[at := f(s[at])]
  {
    forall i | 0 <= i < |s| && i != at ensures f(s[i]) == s[i] {
      assert s[i] in s && s[i].id != s[at].id;
    }
  }

  lemma EachSame(s: seq<Message>, f: Message -> Message)
    requires forall m | m in s :: f(m) == m
    ensures Each(s, f) == s
  {
    forall i | 0 <= i < |s| ensures f(s[i]) == s[i] { assert s[i] in s; }
  }

  /** Whether renaming keeps ids unique: exactly when the new id is not
      already another message's. */
  lemma RenameKeepsUniqueIff(c: Contents, oldId: string, newId: string)
    requires UniqueIds(c.messages)
    ensures UniqueIds(Apply(c, Rename(oldId, newId)).messages) <==>
      !RenameApplies(oldId, newId) || !HasMessage(c.messages, oldId) || !HasMessage(c.messages, newId)
  {
    if RenameApplies(oldId, newId) {
      if HasMessage(c.messages, oldId) && HasMessage(c.messages, newId) {
        RenameOntoStored(c.messages, oldId, newId);
      } else {
        RenameToFree(c.messages, oldId, newId);
      }
    }
  }

  lemma RenameOntoStored(s: seq<Message>, oldId: string, newId: string)
    requires oldId != newId && HasMessage(s, oldId) && HasMessage(s, newId)
    ensures !UniqueIds(Each(s, RenameIfId(oldId, newId)))
  {
    var after := Each(s, RenameIfId(oldId, newId));
    var i :| 0 <= i < |s| && s[i].id == oldId;
    var j :| 0 <= j < |s| && s[j].id == newId;
    var f := RenameIfId(oldId, newId);
    assert after[i] == f(s[i]) && after[j] == f(s[j]);
    assert i != j && after[i].id == after[j].id;
  }

  lemma RenameToFree(s: seq<Message>, oldId: string, newId: string)
    requires UniqueIds(s) && !(HasMessage(s, oldId) && HasMessage(s, newId))
    ensures UniqueIds(Each(s, RenameIfId(oldId, newId)))
  {
    var after := Each(s, RenameIfId(oldId, newId));
    forall i, j | 0 <= i < j < |after| ensures after[i].id != after[j].id {
      assert s[i] in s && s[j] in s;
    }
  }

  predicate Safe(c: Contents, op: Op) {
    op.Rename? ==>
      || !RenameApplies(op.oldId, op.newId) || !HasMessage(c.messages, op.oldId) || !HasMessage(c.messages, op.newId)
  }

  lemma AppendKeepsUnique(s: seq<Message>, m: Message)
    requires UniqueIds(s) && !HasMessage(s, m.id)
    ensures UniqueIds(s + [m])
  {
    forall i | 0 <= i < |s| ensures s[i].id != m.id { assert s[i] in s; }
  }

  lemma MarkKeepsUnique(s: seq<Message>, id: string, mark: Mark)
    requires UniqueIds(s)
    ensures UniqueIds(Each(s, MarkIfId(id, mark)))
  {
    forall i | 0 <= i < |s| ensures Each(s, MarkIfId(id, mark))[i].id == s[i].id {}
  }

  lemma StepKeepsUnique(c: Contents, op: Op)
    requires UniqueIds(c.messages) && Safe(c, op)
    ensures UniqueIds(Apply(c, op).messages)
  {
    match op
    case Rename(oldId, newId) => RenameKeepsUniqueIff(c, oldId, newId);
    case SetMark(id, mark) => MarkKeepsUnique(c.messages, id, mark);
    case Remove(id) => SelectKeepsUnique(c.messages, OtherId(id));
    case ClearConversation(conv) => SelectKeepsUnique(c.messages, OutsideMessage(conv));
    case StoreMessage(m) =>
      if !HasMessage(c.messages, m.id) { AppendKeepsUnique(c.messages, m); }
    case _ =>
  }

  function Run(c: Contents, ops: seq<Op>): Contents {
    if ops == [] then c else Apply(Run(c, ops[..|ops| - 1]), ops[|ops| - 1])
  }

  /** Ids stay unique over every run whose renames avoid stored ids. */
  lemma {:induction false} RunKeepsUnique(c: Contents, ops: seq<Op>)
    requires UniqueIds(c.messages)
    requires forall n | 0 <= n < |ops| :: Safe(Run(c, ops[..n]), ops[n])
    ensures UniqueIds(Run(c, ops).messages)
  {
    if ops != [] {
      var n := |ops| - 1;
      forall k | 0 <= k < n ensures Safe(Run(c, ops[..n][..k]), ops[..n][k]) {
        assert ops[..n][..k] == ops[..k];
      }
      RunKeepsUnique(c, ops[..n]);
      StepKeepsUnique(Run(c, ops[..n]), ops[n]);
    }
  }

  /** Whether an operation leaves a message in the list. */
  predicate Survives(m: Message, op: Op) {
    match op
    case Remove(id) => m.id != id
    case ClearConversation(conv) => m.conversationId != conv
    case ClearAll => false
    case _ => true
  }

  /** What an operation makes of a message it leaves in the list. */
  function Changed(m: Message, op: Op): Message {
    match op
    case Rename(oldId, newId) => if RenameApplies(oldId, newId) && m.id == oldId then m.(id := newId) else m
    case SetMark(id, Revoked) => if m.id == id then m.(revoked := true) else m
    case SetMark(id, Deleted) => if m.id == id then m.(isDeleted := true) else m
    case _ => m
  }

  /** The message is added: it has an id, and no message has that id yet. */
  predicate AddsMessage(c: Contents, op: Op) {
    op.StoreMessage? && op.message.id != "" && forall i | 0 <= i < |c.messages| :: c.messages[i].id != op.message.id
  }

  /** Exactly the survivors remain, each changed on its own, in their old
      order; a stored message follows them exactly when it has a fresh id. */
  lemma OrderKept(c: Contents, op: Op) returns (at: seq<nat>)
    ensures var after := Apply(c, op).messages;
      && |at| <= |after| && (forall i, j | 0 <= i < j < |at| :: at[i] < at[j])
      && (forall i | 0 <= i < |at| :: at[i] < |c.messages| && after[i] == Changed(c.messages[at[i]], op))
      && (forall k: nat | k < |c.messages| :: Survives(c.messages[k], op) <==> k in at)
      && after[|at|..] == if AddsMessage(c, op) then [op.message] else []
  {
    match op
    case Remove(id) => at := SelectKeepsOrder(c.messages, OtherId(id));
    case ClearConversation(conv) => at := SelectKeepsOrder(c.messages, OutsideMessage(conv));
    case ClearAll => at := [];
    case StoreMessage(m) =>
      at := Positions(|c.messages|);
      assert HasMessage(c.messages, m.id) <==> exists i :: 0 <= i < |c.messages| && c.messages[i].id == m.id;
    case _ => at := Positions(|c.messages|);
  }

  predicate EnvelopeSurvives(e: Envelope, op: Op) {
    match op
    case ClearConversation(conv) => e.conversationId != conv
    case ClearAll => false
    case _ => true
  }

  predicate FirstWith(s: seq<Envelope>, id: string, k: nat) {
    k < |s| && s[k].id == id && forall i | 0 <= i < k :: s[i].id != id
  }

  /** The envelope is the first with the id a rename looks for. */
  predicate RenamesEnvelope(c: Contents, op: Op, k: nat) {
    op.Rename? && op.oldId != "" && op.newId != "" && op.oldId != op.newId && FirstWith(c.envelopes, op.oldId, k)
  }

  lemma {:induction false} FirstRenamed(s: seq<Envelope>, oldId: string, newId: string, k: nat)
    requires k < |s|
    ensures RenameFirst(s, oldId, newId)[k] == if FirstWith(s, oldId, k) then s[k].(id := newId) else s[k]
    decreases k
  {
    if k > 0 && s[0].id != oldId {
      FirstRenamed(s[1..], oldId, newId, k - 1);
      assert FirstWith(s, oldId, k) ==> FirstWith(s[1..], oldId, k - 1);
      if FirstWith(s[1..], oldId, k - 1) {
        forall i | 0 <= i < k
          ensures s[i].id != oldId
        {
          assert i > 0 ==> s[i] == s[1..][i - 1];
        }
      }
    }
  }

  predicate AddsEnvelope(c: Contents, op: Op) {
    && op.StoreEnvelope? && op.envelope.id != ""
    && forall i | 0 <= i < |c.envelopes| :: c.envelopes[i].id != op.envelope.id
  }

  /** The same for envelopes, of which a rename changes only the first. */
  lemma EnvelopesKept(c: Contents, op: Op) returns (at: seq<nat>)
    ensures var after := Apply(c, op).envelopes;
      && |at| <= |after| && (forall i, j | 0 <= i < j < |at| :: at[i] < at[j])
      && (forall i | 0 <= i < |at| ::
           && at[i] < |c.envelopes|
           && after[i] == if RenamesEnvelope(c, op, at[i]) then c.envelopes[at[i]].(id := op.newId)
                          else c.envelopes[at[i]])
      && (forall k: nat | k < |c.envelopes| :: EnvelopeSurvives(c.envelopes[k], op) <==> k in at)
      && after[|at|..] == if AddsEnvelope(c, op) then [op.envelope] else []
  {
    match op
    case ClearConversation(conv) => at := SelectKeepsOrder(c.envelopes, OutsideEnvelope(conv));
    case ClearAll => at := [];
    case StoreEnvelope(e) =>
      at := Positions(|c.envelopes|);
      assert HasEnvelope(c.envelopes, e.id) <==> exists i :: 0 <= i < |c.envelopes| && c.envelopes[i].id == e.id;
    case Rename(oldId, newId) =>
      at := Positions(|c.envelopes|);
      forall k: nat | k < |c.envelopes| {
        FirstRenamed(c.envelopes, oldId, newId, k);
      }
    case _ => at := Positions(|c.envelopes|);
  }

  function Positions(n: nat): (r: seq<nat>)
    ensures |r| == n && (forall i | 0 <= i < n :: r[i] == i) && (forall i | 0 <= i < n :: i in r)
  {
    if n == 0 then [] else Positions(n - 1) + [n - 1]
  }
}

module LocalMessageStore {
  import opened MessageLists

  /** The index is the exact inverse of the id column. */
  ghost predicate Indexed(messages: seq<Message>, index: map<string, int>) {
    && (forall id :: id in index ==> 0 <= index[id] < |messages| && messages[index[id]].id == id)
    && (forall i | 0 <= i < |messages| :: messages[i].id in index && index[messages[i].id] == i)
  }

  lemma IndexMeans(messages: seq<Message>, index: map<string, int>)
    requires Indexed(messages, index)
    ensures UniqueIds(messages)
    ensures forall id :: id in index <==> HasMessage(messages, id)
  {
    forall id | id in index ensures HasMessage(messages, id) {
      assert messages[index[id]] in messages;
    }
  }

  /** Moving an index entry to a new id keeps the inverse exactly when the id was free. */
  lemma RenamedIndex(messages: seq<Message>, index: map<string, int>, oldId: string, newId: string)
    requires Indexed(messages, index) && oldId in index && oldId != newId
    ensures
      var at := index[oldId];
      Indexed(messages[at := messages[at].(id := newId)], (index - {oldId})[newId := at]) <==> newId !in index
  {
    var at := index[oldId];
    var after := messages[at := messages[at].(id := newId)];
    if newId in index {
      assert after[index[newId]].id == newId && index[newId] != at;
    }
  }

  lemma SameIdsSameIndex(messages: seq<Message>, index: map<string, int>, at: nat, m: Message)
    requires Indexed(messages, index) && at < |messages| && m.id == messages[at].id
    ensures Indexed(messages[at := m], index)
  {
  }

  /** Marking by id is marking at the indexed position, which keeps the index. */
  lemma MarkedAtIndex(messages: seq<Message>, index: map<string, int>, id: string, mark: Mark)
    requires Indexed(messages, index)
    ensures id !in index ==> Each(messages, MarkIfId(id, mark)) == messages
    ensures id in index ==>
      var after := messages[index[id] := Marked(messages[index[id]], mark)];
      Each(messages, MarkIfId(id, mark)) == after && Indexed(after, index)
  {
    IndexMeans(messages, index);
    if id in index {
      EachUpdates(messages, MarkIfId(id, mark), index[id]);
      SameIdsSameIndex(messages, index, index[id], Marked(messages[index[id]], mark));
    } else {
      EachSame(messages, MarkIfId(id, mark));
    }
  }

  method BuildIndex(messages: seq<Message>) returns (index: map<string, int>)
    ensures UniqueIds(messages) <==> Indexed(messages, index)
    ensures forall id :: id in index ==> 0 <= index[id] < |messages| && messages[index[id]].id == id
    ensures forall i | 0 <= i < |messages| :: messages[i].id in index && i <= index[messages[i].id]
  {
    index := map[];
    for i := 0 to |messages|
      invariant forall id :: id in index ==> 0 <= index[id] < i && messages[index[id]].id == id
      invariant forall j | 0 <= j < i :: messages[j].id in index && j <= index[messages[j].id]
    {
      index := index[messages[i].id := i];
    }
  }

  method CopyIf<T>(s: seq<T>, keep: T -> bool) returns (retained: seq<T>)
    ensures retained == Select(s, keep)
  {
    retained := [];
    for i := 0 to |s|
      invariant retained == Select(s[..i], keep)
    {
      assert s[..i + 1][..i] == s[..i];
      if keep(s[i]) { retained := retained + [s[i]]; }
    }
    assert s[..|s|] == s;
  }

  method FindEnvelope(s: seq<Envelope>, id: string) returns (at: nat)
    ensures at <= |s|
    ensures at < |s| ==> s[at].id == id
    ensures forall i | 0 <= i < at :: s[i].id != id
  {
    at := 0;
    while at < |s| && s[at].id != id
      invariant at <= |s|
      invariant forall i | 0 <= i < at :: s[i].id != id
    {
      at := at + 1;
    }
  }

  lemma {:induction false} RenameFirstUpdates(s: seq<Envelope>, oldId: string, newId: string, at: nat)
    requires at <= |s| && (at < |s| ==> s[at].id == oldId)
    requires forall i | 0 <= i < at :: s[i].id != oldId
    ensures RenameFirst(s, oldId, newId) == if at < |s| then s[at := s[at].(id := newId)] else s
  {
    if s != [] && at > 0 {
      RenameFirstUpdates(s[1..], oldId, newId, at - 1);
    }
  }

  class MessageStore {
    var messages: seq<Message>
    var index: map<string, int>
    var envelopes: seq<Envelope>
    var saved: Contents

    ghost function View(): Contents
      reads this
    {
      Contents(messages, envelopes)
    }

    ghost predicate Valid()
      reads this
    {
      Indexed(messages, index) && saved == View()
    }

    /** Loading restores the saved lists; the index fits exactly when the saved ids are unique. */
    constructor (saved: Contents)
      ensures this.saved == saved && View() == Apply(saved, Reload)
      ensures Valid() <==> UniqueIds(saved.messages)
    {
      this.saved, messages, envelopes, index := saved, [], [], map[];
      new;
      for i := 0 to |saved.messages|
        invariant this.saved == saved && envelopes == []
        invariant messages == saved.messages[..i]
        invariant forall id :: id in index ==> 0 <= index[id] < i && messages[index[id]].id == id
        invariant forall j | 0 <= j < i :: messages[j].id in index && j <= index[messages[j].id]
      {
        index := index[saved.messages[i].id := i];
        messages := messages + [saved.messages[i]];
      }
      envelopes := saved.envelopes;
    }

    method SaveState()
      modifies this`saved
      ensures saved == View()
    {
      saved := Contents(messages, envelopes);
    }

    method StoreDecryptedMessage(m: Message)
      requires Valid()
      modifies this
      ensures Valid() && View() == Apply(old(View()), StoreMessage(m))
    {
      IndexMeans(messages, index);
      if m.id == "" || m.id in index { return; }
      index := index[m.id := |messages|];
      messages := messages + [m];
      SaveState();
    }

    method StoreOutgoingEnvelope(e: Envelope)
      requires Valid()
      modifies this
      ensures Valid() && View() == Apply(old(View()), StoreEnvelope(e))
    {
      if e.id == "" { return; }
      var at := FindEnvelope(envelopes, e.id);
      if at < |envelopes| {
        assert envelopes[at] in envelopes;
        return;
      }
      envelopes := envelopes + [e];
      SaveState();
    }

    method ContainsMessage(id: string) returns (found: bool)
      requires Valid()
      ensures found == HasMessage(messages, id)
    {
      IndexMeans(messages, index);
      found := id in index;
    }

    /** The index stays exact unless the new id belongs to another stored message. */
    method UpdateMessageId(oldId: string, newId: string)
      requires Valid()
      modifies this
      ensures View() == Apply(old(View()), Rename(oldId, newId)) && saved == View()
      ensures Valid() <==> Safe(old(View()), Rename(oldId, newId))
    {
      IndexMeans(messages, index);
      if oldId == "" || newId == "" || oldId == newId { return; }
      if oldId in index {
        var at := index[oldId];
        RenamedIndex(messages, index, oldId, newId);
        EachUpdates(messages, RenameIfId(oldId, newId), at);
        index := (index - {oldId})[newId := at];
        messages := messages[at := messages[at].(id := newId)];
      } else {
        EachSame(messages, RenameIfId(oldId, newId));
      }
      var at := FindEnvelope(envelopes, oldId);
      RenameFirstUpdates(envelopes, oldId, newId, at);
      if at < |envelopes| {
        envelopes := envelopes[at := envelopes[at].(id := newId)];
      }
      SaveState();
    }

    method RemoveDecryptedMessage(id: string)
      requires Valid()
      modifies this
      ensures Valid() && View() == Apply(old(View()), Remove(id))
    {
      IndexMeans(messages, index);
      if id !in index {
        SelectAll(messages, OtherId(id));
        return;
      }
      var at := index[id];
      SelectOthersErases(messages, at);
      SelectKeepsUnique(messages, OtherId(id));
      messages := messages[..at] + messages[at + 1..];
      index := BuildIndex(messages);
      SaveState();
    }

    method MarkMessageRevoked(id: string)
      requires Valid()
      modifies this
      ensures Valid() && View() == Apply(old(View()), SetMark(id, Revoked))
    {
      MarkedAtIndex(messages, index, id, Revoked);
      if id !in index { return; }
      var at := index[id];
      if messages[at].revoked { return; }
      messages := messages[at := messages[at].(revoked := true)];
      SaveState();
    }

    method MarkMessageDeleted(id: string)
      requires Valid()
      modifies this
      ensures Valid() && View() == Apply(old(View()), SetMark(id, Deleted))
    {
      MarkedAtIndex(messages, index, id, Deleted);
      if id !in index { return; }
      var at := index[id];
      if messages[at].isDeleted { return; }
      messages := messages[at := messages[at].(isDeleted := true)];
      SaveState();
    }

    method ClearConversation(conversation: string)
      requires Valid()
      modifies this
      ensures Valid() && View() == Apply(old(View()), MessageLists.ClearConversation(conversation))
    {
      IndexMeans(messages, index);
      SelectKeepsUnique(messages, OutsideMessage(conversation));
      messages := CopyIf(messages, OutsideMessage(conversation));
      index := BuildIndex(messages);
      envelopes := CopyIf(envelopes, OutsideEnvelope(conversation));
      SaveState();
    }

    method ClearAll()
      modifies this
      ensures Valid() && View() == Contents([], [])
    {
      envelopes, messages, index := [], [], map[];
      SaveState();
    }
  }
}
