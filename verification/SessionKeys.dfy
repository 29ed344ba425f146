/** Session keys: the in-process cache over the database rows, as requireAuth
    sees them (server/state/session_keys.js, server/middleware/require_auth.js). */
module SessionKeys {
  import opened Bytes
  import opened Hex
  import opened Outcomes

  const DAY: int := 24 * 60 * 60 * 1000
  const SESSION_TTL: int := 2 * 60 * 60 * 1000
  const MAX_SKEW: int := 30_000

  datatype KeyData = KeyData(token: string, hmacKey: string, issuedAt: int)

  /** What a row's text parses to: an error, a value of another shape, or the keys. */
  datatype Stored = Unparsable | Legacy | Keys(data: KeyData)

  datatype Entry = Entry(stored: Stored, expiresAt: int)

  /** The cache is keyed by the device id as the caller spells it, the table by
      the UUID it denotes. */
  datatype Sessions = Sessions(cache: map<string, Entry>, rows: map<string, Entry>)

  function Lower(c: char): char {
    if 'A' <= c <= 'Z' then c + 32 as char else c
  }

  /** The UUID a spelling denotes. */
  function Uuid(device: string): (id: string)
    ensures |id| == |device|
  {
    if device == "" then "" else [Lower(device[0])] + Uuid(device[1..])
  }

  predicate IsUuid(s: string) {
    |s| == 36 && forall i | 0 <= i < 36 ::
      if i in {8, 13, 18, 23} then s[i] == '-' else DigitValue(s[i]).Some?
  }

  /** HMAC over the device id and the request time, as a function of the key. */
  type Hmac = (Bytes, string, int) -> Bytes

  // ------------------------------------------------------------ key store

  function StoredKey(s: Sessions, device: string, data: KeyData, cacheTime: int, rowTime: int): Sessions {
    Sessions(s.cache[device := Entry(Keys(data), cacheTime + DAY)],
             s.rows[Uuid(device) := Entry(Keys(data), rowTime + DAY)])
  }

  /** The row alone: what a server without a cache would read. */
  function RowKey(rows: map<string, Entry>, device: string, now: int): Option<Stored> {
    var id := Uuid(device);
    if id !in rows || rows[id].expiresAt <= now || rows[id].stored.Unparsable? then None else Some(rows[id].stored)
  }

  function Fallback(s: Sessions, device: string, now: int): (Sessions, Option<Stored>) {
    match RowKey(s.rows, device, now)
    case None => (s, None)
    case Some(stored) => (s.(cache := s.cache[device := Entry(stored, now + DAY)]), Some(stored))
  }

  function Lookup(s: Sessions, device: string, now: int): (Sessions, Option<Stored>) {
    if device !in s.cache then Fallback(s, device, now)
    else if s.cache[device].expiresAt <= now then Fallback(s.(cache := s.cache - {device}), device, now)
    else (s, Some(s.cache[device].stored))
  }

  function Revoked(s: Sessions, device: string): Sessions {
    Sessions(s.cache - {device}, s.rows - {Uuid(device)})
  }

  function Live(cache: map<string, Entry>, now: int): map<string, Entry> {
    map d | d in cache && cache[d].expiresAt > now :: cache[d]
  }

  class SessionKeyStore {
    var cache: map<string, Entry>
    var rows: map<string, Entry>

    ghost function Contents(): Sessions
      reads this
    {
      Sessions(cache, rows)
    }

    method StoreSessionKey(device: string, data: KeyData, cacheTime: int, rowTime: int)
      modifies this
      ensures Contents() == StoredKey(old(Contents()), device, data, cacheTime, rowTime)
    {
      cache := cache[device := Entry(Keys(data), cacheTime + DAY)];
      rows := rows[Uuid(device) := Entry(Keys(data), rowTime + DAY)];
    }

    method GetSessionKey(device: string, now: int) returns (key: Option<Stored>)
      modifies this`cache
      ensures (Contents(), key) == Lookup(old(Contents()), device, now)
    {
      if device in cache {
        if cache[device].expiresAt <= now {
          cache := cache - {device};
        } else {
          return Some(cache[device].stored);
        }
      }
      var id := Uuid(device);
      if id !in rows || rows[id].expiresAt <= now { return None; }
      if rows[id].stored.Unparsable? { return None; }
      cache := cache[device := Entry(rows[id].stored, now + DAY)];
      key := Some(rows[id].stored);
    }

    method RevokeSessionKey(device: string)
      modifies this
      ensures Contents() == Revoked(old(Contents()), device)
    {
      cache := cache - {device};
      rows := rows - {Uuid(device)};
    }

    /** The periodic eviction. */
    method Sweep(now: int)
      modifies this`cache
      ensures cache == Live(old(cache), now)
      ensures forall d :: d in cache <==> d in old(cache) && old(cache)[d].expiresAt > now
      ensures forall d | d in cache :: cache[d] == old(cache)[d]
    {
      var todo := cache.Keys;
      while todo != {}
        invariant todo <= cache.Keys <= old(cache).Keys
        invariant forall d | d in cache :: cache[d] == old(cache)[d]
        invariant forall d | d in old(cache) :: d in todo || (d in cache <==> old(cache)[d].expiresAt > now)
      {
        var d :| d in todo;
        todo := todo - {d};
        if cache[d].expiresAt <= now { cache := cache - {d}; }
      }
    }

    method RequireAuth(hmac: Hmac, r: Request, active: set<string>, t: Times)
      returns (decision: Result<string, Refusal>)
      modifies this`cache
      ensures (Contents(), decision) == Required(hmac, old(Contents()), r, active, t)
    {
      if !IsUuid(r.device) || r.token == "" || !IsHex(r.token) { return Err(AuthenticationRequired); }
      if Uuid(r.device) !in active { return Err(AuthenticationRequired); }
      var key := GetSessionKey(r.device, t.lookup);
      if key.None? || !key.value.Keys? || key.value.data.token == "" { return Err(AuthenticationRequired); }
      var data := key.value.data;
      if DecodeLenient(r.token) != DecodeLenient(data.token) { return Err(AuthenticationRequired); }
      if t.ttl - data.issuedAt > SESSION_TTL { return Err(SessionExpired); }
      if r.time == 0 || r.hmac == "" { return Err(HeadersRequired); }
      if Abs(t.skew - r.time) > MAX_SKEW { return Err(TimestampOutOfRange); }
      if hmac(DecodeLenient(data.hmacKey), r.device, r.time) != DecodeLenient(r.hmac) {
        return Err(AuthenticationRequired);
      }
      decision := Ok(r.device);
    }
  }

  // ---------------------------------------------------------- requireAuth

  /** token and hmac are the trimmed header values, "" when absent; time is 0
      when absent or not a number. */
  datatype Request = Request(device: string, token: string, time: int, hmac: string)

  /** The clock readings one request makes, in order. */
  datatype Times = Times(lookup: int, ttl: int, skew: int)

  datatype Refusal = AuthenticationRequired | SessionExpired | HeadersRequired | TimestampOutOfRange

  predicate IsHex(s: string) {
    forall c | c in s :: DigitValue(c).Some?
  }

  function Abs(x: int): int {
    if x < 0 then -x else x
  }

  /** The checks on the key found. */
  function Checked(hmac: Hmac, r: Request, key: Option<Stored>, t: Times): Result<string, Refusal> {
    if key.None? || !key.value.Keys? || key.value.data.token == "" then Err(AuthenticationRequired)
    else
      var data := key.value.data;
      if DecodeLenient(r.token) != DecodeLenient(data.token) then Err(AuthenticationRequired)
      else if t.ttl - data.issuedAt > SESSION_TTL then Err(SessionExpired)
      else if r.time == 0 || r.hmac == "" then Err(HeadersRequired)
      else if Abs(t.skew - r.time) > MAX_SKEW then Err(TimestampOutOfRange)
      else if hmac(DecodeLenient(data.hmacKey), r.device, r.time) != DecodeLenient(r.hmac)
      then Err(AuthenticationRequired)
      else Ok(r.device)
  }

  predicate WellFormed(r: Request) {
    IsUuid(r.device) && r.token != "" && IsHex(r.token)
  }

  function Required(hmac: Hmac, s: Sessions, r: Request, active: set<string>, t: Times)
    : (Sessions, Result<string, Refusal>)
  {
    if !WellFormed(r) || Uuid(r.device) !in active then (s, Err(AuthenticationRequired))
    else
      var (after, key) := Lookup(s, r.device, t.lookup);
      (after, Checked(hmac, r, key, t))
  }

  /** The same decision with database lookups only. */
  function RequiredByRows(hmac: Hmac, s: Sessions, r: Request, active: set<string>, t: Times)
    : Result<string, Refusal>
  {
    if !WellFormed(r) || Uuid(r.device) !in active then Err(AuthenticationRequired)
    else Checked(hmac, r, RowKey(s.rows, r.device, t.lookup), t)
  }

  // ------------------------------------------------------------ whole runs

  datatype Action =
    | Register(device: string)
    | Login(device: string, data: KeyData, cacheTime: int, rowTime: int)
    | Serve(request: Request, t: Times)
    | Sweep(at: int)
    | Restart
    | Deactivate(device: string)
    | RevokeKey(device: string)

  /** active holds the devices not revoked, now the latest clock reading. */
  datatype World = World(s: Sessions, active: set<string>, now: int)

  predicate InOrder(now: int, t: Times) {
    now <= t.lookup <= t.ttl <= t.skew
  }

  function Step(hmac: Hmac, w: World, a: Action): Option<World> {
    match a
    case Register(d) => Some(w.(active := w.active + {Uuid(d)}))
    case Login(d, data, cacheTime, rowTime) =>
      if w.now <= data.issuedAt <= cacheTime <= rowTime
      then Some(w.(s := StoredKey(w.s, d, data, cacheTime, rowTime), now := rowTime)) else None
    case Serve(r, t) =>
      if InOrder(w.now, t) then Some(w.(s := Required(hmac, w.s, r, w.active, t).0, now := t.skew)) else None
    case Sweep(at) => if w.now <= at then Some(w.(s := w.s.(cache := Live(w.s.cache, at)), now := at)) else None
    case Restart => Some(w.(s := w.s.(cache := map[])))
    case Deactivate(d) => Some(w.(active := w.active - {Uuid(d)}))
    case RevokeKey(d) => Some(w.(s := Revoked(w.s, d)))
  }

  /** A run starts with a cold cache over whatever rows are there. */
  function After(hmac: Hmac, start: map<string, Entry>, run: seq<Action>): Option<World> {
    if run == [] then Some(World(Sessions(map[], start), {}, 0))
    else
      var w :- After(hmac, start, run[..|run| - 1]);
      Step(hmac, w, run[|run| - 1])
  }

  /** The spelling an action puts into the cache, if any. */
  predicate Spells(a: Action, spellings: set<string>) {
    match a
    case Login(d, _, _, _) => d in spellings
    case Serve(r, _) => r.device in spellings
    case RevokeKey(d) => d in spellings
    case _ => true
  }

  predicate RunSpells(run: seq<Action>, spellings: set<string>) {
    forall a | a in run :: Spells(a, spellings)
  }

  ghost predicate OneSpelling(spellings: set<string>) {
    forall a, b | a in spellings && b in spellings :: Uuid(a) == Uuid(b) ==> a == b
  }

  ghost predicate RowsOutliveKeys(rows: map<string, Entry>) {
    forall id | id in rows && rows[id].stored.Keys? :: rows[id].expiresAt >= rows[id].stored.data.issuedAt + DAY
  }

  /** A cached key is the one in its row, and a row lives a day past its key's issue. */
  ghost predicate Inv(w: World, spellings: set<string>) {
    && (forall d | d in w.s.cache ::
          d in spellings && Uuid(d) in w.s.rows && w.s.rows[Uuid(d)].stored == w.s.cache[d].stored)
    && RowsOutliveKeys(w.s.rows)
  }

  lemma LookupKeepsInv(w: World, device: string, now: int, spellings: set<string>)
    requires Inv(w, spellings) && device in spellings
    ensures Inv(w.(s := Lookup(w.s, device, now).0), spellings)
  {
  }

  lemma StepKeepsInv(hmac: Hmac, w: World, a: Action, spellings: set<string>)
    requires Inv(w, spellings) && OneSpelling(spellings) && Spells(a, spellings) && Step(hmac, w, a).Some?
    ensures Inv(Step(hmac, w, a).value, spellings)
  {
    if a.Serve? { LookupKeepsInv(w, a.request.device, a.t.lookup, spellings); }
  }

  lemma {:induction false} RunKeepsInv(hmac: Hmac, start: map<string, Entry>, run: seq<Action>, spellings: set<string>)
    requires RowsOutliveKeys(start) && OneSpelling(spellings) && RunSpells(run, spellings)
    requires After(hmac, start, run).Some?
    ensures Inv(After(hmac, start, run).value, spellings)
  {
    if run != [] {
      var n := |run| - 1;
      assert run[n] in run;
      RunKeepsInv(hmac, start, run[..n], spellings);
      StepKeepsInv(hmac, After(hmac, start, run[..n]).value, run[n], spellings);
    }
  }

  /** Whether caching is invisible to this request. */
  ghost predicate Agrees(hmac: Hmac, w: World, r: Request, t: Times) {
    Required(hmac, w.s, r, w.active, t).1.Ok? <==> RequiredByRows(hmac, w.s, r, w.active, t).Ok?
  }

  lemma InvMeansAgrees(hmac: Hmac, w: World, r: Request, t: Times, spellings: set<string>)
    requires Inv(w, spellings) && InOrder(w.now, t)
    ensures Agrees(hmac, w, r, t)
  {
  }

  /** Caching is invisible over every run whose calls use these spellings. */
  ghost predicate AlwaysAgrees(hmac: Hmac, start: map<string, Entry>, spellings: set<string>) {
    forall run: seq<Action>, r: Request, t: Times |
      && RunSpells(run, spellings) && r.device in spellings
      && After(hmac, start, run).Some? && InOrder(After(hmac, start, run).value.now, t) ::
      Agrees(hmac, After(hmac, start, run).value, r, t)
  }

  /** Main result: requireAuth accepts exactly what it would accept with
      database lookups only, although a cache entry can outlive its row, if
      and only if every device is always spelled the same way. */
  lemma CacheInvisibleIffOneSpelling(hmac: Hmac, start: map<string, Entry>, spellings: set<string>)
    requires RowsOutliveKeys(start)
    requires forall k, d, t :: hmac(k, d, t) != []
    requires forall d | d in spellings :: IsUuid(d)
    ensures AlwaysAgrees(hmac, start, spellings) <==> OneSpelling(spellings)
  {
    if OneSpelling(spellings) {
      forall run: seq<Action>, r: Request, t: Times |
        && RunSpells(run, spellings) && r.device in spellings
        && After(hmac, start, run).Some? && InOrder(After(hmac, start, run).value.now, t)
        ensures Agrees(hmac, After(hmac, start, run).value, r, t)
      {
        RunKeepsInv(hmac, start, run, spellings);
        InvMeansAgrees(hmac, After(hmac, start, run).value, r, t, spellings);
      }
    } else {
      var a, b :| a in spellings && b in spellings && Uuid(a) == Uuid(b) && a != b;
      var run, r, t := TwoSpellingsDisagree(hmac, start, a, b);
      assert RunSpells(run, spellings);
    }
  }

  lemma OneMore(hmac: Hmac, start: map<string, Entry>, run: seq<Action>, a: Action)
    requires After(hmac, start, run).Some?
    ensures After(hmac, start, run + [a]) == Step(hmac, After(hmac, start, run).value, a)
  {
    assert (run + [a])[..|run|] == run;
  }

  lemma SecondSpellingKeepsOldKey(hmac: Hmac, w: World, a: string, b: string, r: Request, t: Times)
    requires Uuid(a) == Uuid(b) && a != b && IsUuid(b) && Uuid(a) in w.active && w.now <= 1
    requires b !in w.s.cache
    requires r == Request(b, "aa", 1, ToHex(hmac([], b, 1))) && r.hmac != "" && t == Times(1, 1, 1)
    ensures
      var older, newer := Login(a, KeyData("aa", "", 1), 1, 1), Login(a, KeyData("bb", "", 1), 1, 1);
      && Step(hmac, w, older).Some?
      && Step(hmac, Step(hmac, w, older).value, Serve(r, t)).Some?
      && (var served := Step(hmac, Step(hmac, w, older).value, Serve(r, t)).value;
          && Step(hmac, served, newer).Some?
          && Step(hmac, served, newer).value.now == 1
          && !Agrees(hmac, Step(hmac, served, newer).value, r, t))
  {
    LenientDecodesHex(hmac([], b, 1));
    assert DecodeLenient("aa") == [0xAA] && DecodeLenient("bb") == [0xBB] && DecodeLenient("") == [];
    assert WellFormed(r);
    var older := Step(hmac, w, Login(a, KeyData("aa", "", 1), 1, 1)).value;
    assert Lookup(older.s, b, 1) == Fallback(older.s, b, 1);
    var served := Step(hmac, older, Serve(r, t)).value;
    assert served.s.cache[b].stored == Keys(KeyData("aa", "", 1));
    var newer := Step(hmac, served, Login(a, KeyData("bb", "", 1), 1, 1)).value;
    assert newer.s.cache[b] == served.s.cache[b];
    assert Lookup(newer.s, b, 1).1 == Some(Keys(KeyData("aa", "", 1)));
  }

  lemma RunOn(hmac: Hmac, start: map<string, Entry>, run: seq<Action>,
              a: string, b: string, r: Request, t: Times)
    returns (longer: seq<Action>)
    requires After(hmac, start, run).Some?
    requires Uuid(a) == Uuid(b) && a != b && IsUuid(b) && Uuid(a) in After(hmac, start, run).value.active
    requires After(hmac, start, run).value.now <= 1 && b !in After(hmac, start, run).value.s.cache
    requires r == Request(b, "aa", 1, ToHex(hmac([], b, 1))) && r.hmac != "" && t == Times(1, 1, 1)
    ensures forall s | s in longer :: s in run || Spells(s, {a, b})
    ensures After(hmac, start, longer).Some? && After(hmac, start, longer).value.now == 1
    ensures !Agrees(hmac, After(hmac, start, longer).value, r, t)
  {
    var older, newer := Login(a, KeyData("aa", "", 1), 1, 1), Login(a, KeyData("bb", "", 1), 1, 1);
    SecondSpellingKeepsOldKey(hmac, After(hmac, start, run).value, a, b, r, t);
    OneMore(hmac, start, run, older);
    longer := run + [older];
    OneMore(hmac, start, longer, Serve(r, t));
    longer := longer + [Serve(r, t)];
    OneMore(hmac, start, longer, newer);
    longer := longer + [newer];
  }

  /** Under its second spelling the device keeps the key cached before the next login. */
  lemma TwoSpellingsDisagree(hmac: Hmac, start: map<string, Entry>, a: string, b: string)
    returns (run: seq<Action>, r: Request, t: Times)
    requires forall k, d, t :: hmac(k, d, t) != []
    requires Uuid(a) == Uuid(b) && a != b && IsUuid(a) && IsUuid(b)
    ensures forall s | s in run :: Spells(s, {a, b})
    ensures r.device == b && After(hmac, start, run).Some? && InOrder(After(hmac, start, run).value.now, t)
    ensures !Agrees(hmac, After(hmac, start, run).value, r, t)
  {
    t := Times(1, 1, 1);
    r := Request(b, "aa", 1, ToHex(hmac([], b, 1)));
    OneMore(hmac, start, [], Register(a));
    run := [] + [Register(a)];
    run := RunOn(hmac, start, run, a, b, r, t);
  }

  /** The 2-hour check is what closes the gap: an entry read back late in a
      row's life outlives the row by up to a day. */
  lemma CacheCanOutliveRow(device: string, data: KeyData, issued: int)
    requires data.issuedAt == issued
    ensures
      var s := StoredKey(Sessions(map[], map[]), device, data, issued, issued).(cache := map[]);
      var late := issued + 86_400_000 - 1;
      var (after, key) := Lookup(s, device, late);
      && key == Some(Keys(data))
      && RowKey(after.rows, device, late + 1).None?
      && Lookup(after, device, late + 86_400_000 - 1).1 == Some(Keys(data))
  {
  }

  // ------------------------------------------------ what acceptance means

  /** The keys were given to the device by a login of the run, or were in its row before. */
  ghost predicate Issued(start: map<string, Entry>, run: seq<Action>, id: string, data: KeyData) {
    || (exists a :: a in run && a.Login? && Uuid(a.device) == id && a.data == data)
    || (id in start && start[id].stored == Keys(data))
  }

  ghost predicate AllIssued(start: map<string, Entry>, run: seq<Action>, s: Sessions) {
    && (forall d | d in s.cache && s.cache[d].stored.Keys? :: Issued(start, run, Uuid(d), s.cache[d].stored.data))
    && (forall id | id in s.rows && s.rows[id].stored.Keys? :: Issued(start, run, id, s.rows[id].stored.data))
  }

  lemma LookupIssued(start: map<string, Entry>, run: seq<Action>, s: Sessions, device: string, now: int)
    requires AllIssued(start, run, s)
    ensures AllIssued(start, run, Lookup(s, device, now).0)
    ensures
      var key := Lookup(s, device, now).1;
      key.Some? && key.value.Keys? ==> Issued(start, run, Uuid(device), key.value.data)
  {
  }

  lemma IssuedLonger(start: map<string, Entry>, run: seq<Action>, a: Action, s: Sessions)
    requires AllIssued(start, run, s)
    ensures AllIssued(start, run + [a], s)
  {
    forall id, data | Issued(start, run, id, data) ensures Issued(start, run + [a], id, data) {
      if b :| b in run && b.Login? && Uuid(b.device) == id && b.data == data {
        assert b in run + [a];
      }
    }
  }

  lemma StepIssued(hmac: Hmac, start: map<string, Entry>, run: seq<Action>, w: World, a: Action)
    requires AllIssued(start, run + [a], w.s) && Step(hmac, w, a).Some?
    ensures AllIssued(start, run + [a], Step(hmac, w, a).value.s)
  {
    if a.Serve? {
      LookupIssued(start, run + [a], w.s, a.request.device, a.t.lookup);
    } else if a.Login? {
      assert a in run + [a];
      assert Issued(start, run + [a], Uuid(a.device), a.data);
    }
  }

  lemma {:induction false} RunIssued(hmac: Hmac, start: map<string, Entry>, run: seq<Action>)
    requires After(hmac, start, run).Some?
    ensures AllIssued(start, run, After(hmac, start, run).value.s)
  {
    if run != [] {
      var n := |run| - 1;
      RunIssued(hmac, start, run[..n]);
      assert run == run[..n] + [run[n]];
      IssuedLonger(start, run[..n], run[n], After(hmac, start, run[..n]).value.s);
      StepIssued(hmac, start, run[..n], After(hmac, start, run[..n]).value, run[n]);
    }
  }

  /** Over every run, an accepted request comes from an active device, carries
      the token a login gave that device at most two hours before, and proves
      possession of the HMAC key of the same login within the clock skew. */
  lemma AcceptedWasLoggedIn(hmac: Hmac, start: map<string, Entry>, run: seq<Action>, r: Request, t: Times)
    returns (data: KeyData)
    requires After(hmac, start, run).Some?
    requires Required(hmac, After(hmac, start, run).value.s, r, After(hmac, start, run).value.active, t).1.Ok?
    ensures Uuid(r.device) in After(hmac, start, run).value.active
    ensures Issued(start, run, Uuid(r.device), data)
    ensures DecodeLenient(r.token) == DecodeLenient(data.token) && t.ttl <= data.issuedAt + 7_200_000
    ensures -30_000 <= t.skew - r.time <= 30_000
    ensures DecodeLenient(r.hmac) == hmac(DecodeLenient(data.hmacKey), r.device, r.time)
  {
    var s := After(hmac, start, run).value.s;
    RunIssued(hmac, start, run);
    LookupIssued(start, run, s, r.device, t.lookup);
    data := Lookup(s, r.device, t.lookup).1.value.data;
  }

  ghost predicate Forgotten(s: Sessions, id: string) {
    id !in s.rows && forall d | d in s.cache :: Uuid(d) != id
  }

  lemma StepForgets(hmac: Hmac, w: World, a: Action, id: string)
    requires Forgotten(w.s, id) && Step(hmac, w, a).Some? && !(a.Login? && Uuid(a.device) == id)
    ensures Forgotten(Step(hmac, w, a).value.s, id)
  {
  }

  /** With one spelling per device, revocation holds until the next login: no
      request is accepted for the device, whatever happens in between. */
  lemma {:induction false} RevocationHolds(
    hmac: Hmac, start: map<string, Entry>, run: seq<Action>, device: string, more: seq<Action>,
    spellings: set<string>)
    requires RowsOutliveKeys(start) && OneSpelling(spellings) && device in spellings
    requires RunSpells(run + [RevokeKey(device)] + more, spellings)
    requires forall a | a in more :: !(a.Login? && Uuid(a.device) == Uuid(device))
    requires After(hmac, start, run + [RevokeKey(device)] + more).Some?
    ensures Forgotten(After(hmac, start, run + [RevokeKey(device)] + more).value.s, Uuid(device))
    ensures forall r: Request, t: Times | Uuid(r.device) == Uuid(device) ::
      var w := After(hmac, start, run + [RevokeKey(device)] + more).value;
      Required(hmac, w.s, r, w.active, t).1.Err?
    decreases |more|
  {
    var all := run + [RevokeKey(device)] + more;
    var n := |all| - 1;
    var w := After(hmac, start, all[..n]).value;
    if more == [] {
      assert all[..n] == run && all[n] == RevokeKey(device);
      RunKeepsInv(hmac, start, run, spellings);
    } else {
      var less := more[..|more| - 1];
      assert all[..n] == run + [RevokeKey(device)] + less;
      RevocationHolds(hmac, start, run, device, less, spellings);
      StepForgets(hmac, w, all[n], Uuid(device));
    }
  }

  /** A run that revokes the device's key, does not log it in again, and then
      accepts a request of it. */
  ghost predicate AcceptedAfterRevocation(
    hmac: Hmac, start: map<string, Entry>, run: seq<Action>, device: string, more: seq<Action>,
    r: Request, t: Times)
  {
    var all := run + [RevokeKey(device)] + more;
    && Uuid(r.device) == Uuid(device) && (forall a | a in more :: !(a.Login? && Uuid(a.device) == Uuid(device)))
    && After(hmac, start, all).Some?
    && Required(hmac, After(hmac, start, all).value.s, r, After(hmac, start, all).value.active, t).1.Ok?
  }

  /** Revocation holds over every run and request that use these spellings. */
  ghost predicate RevocationsHold(hmac: Hmac, start: map<string, Entry>, spellings: set<string>) {
    forall run: seq<Action>, device: string, more: seq<Action>, r: Request, t: Times |
      device in spellings && r.device in spellings && RunSpells(run + [RevokeKey(device)] + more, spellings) ::
      !AcceptedAfterRevocation(hmac, start, run, device, more, r, t)
  }

  /** Revocation holds until the next login, over all runs, if and only if
      every device is always spelled the same way. */
  lemma RevocationHoldsIffOneSpelling(
    hmac: Hmac, start: map<string, Entry>, spellings: set<string>)
    requires RowsOutliveKeys(start)
    requires forall k, d, t :: hmac(k, d, t) != []
    requires forall d | d in spellings :: IsUuid(d)
    ensures RevocationsHold(hmac, start, spellings) <==> OneSpelling(spellings)
  {
    if OneSpelling(spellings) {
      forall run: seq<Action>, device: string, more: seq<Action>, r: Request, t: Times |
        device in spellings && r.device in spellings && RunSpells(run + [RevokeKey(device)] + more, spellings)
        ensures !AcceptedAfterRevocation(hmac, start, run, device, more, r, t)
      {
        if AcceptedAfterRevocation(hmac, start, run, device, more, r, t) {
          RevocationHolds(hmac, start, run, device, more, spellings);
        }
      }
    } else {
      var a, b :| a in spellings && b in spellings && Uuid(a) == Uuid(b) && a != b;
      var run, r, t := SecondSpellingOutlivesRevocation(hmac, start, a, b);
      assert RunSpells(run + [RevokeKey(a)] + [], spellings);
    }
  }

  lemma CachedSpellingAccepted(hmac: Hmac, w: World, a: string, b: string, r: Request, t: Times)
    requires Uuid(a) == Uuid(b) && a != b && IsUuid(b) && Uuid(a) in w.active && w.now <= 1
    requires b !in w.s.cache
    requires r == Request(b, "aa", 1, ToHex(hmac([], b, 1))) && r.hmac != "" && t == Times(1, 1, 1)
    ensures
      var login := Login(a, KeyData("aa", "", 1), 1, 1);
      && Step(hmac, w, login).Some?
      && Step(hmac, Step(hmac, w, login).value, Serve(r, t)).Some?
      && (var served := Step(hmac, Step(hmac, w, login).value, Serve(r, t)).value;
          var revoked := Step(hmac, served, RevokeKey(a)).value;
          Required(hmac, revoked.s, r, revoked.active, t).1.Ok?)
  {
    LenientDecodesHex(hmac([], b, 1));
    assert DecodeLenient("aa") == [0xAA] && DecodeLenient("") == [];
    assert WellFormed(r);
    var older := Step(hmac, w, Login(a, KeyData("aa", "", 1), 1, 1)).value;
    assert Lookup(older.s, b, 1) == Fallback(older.s, b, 1);
    var served := Step(hmac, older, Serve(r, t)).value;
    assert served.s.cache[b].stored == Keys(KeyData("aa", "", 1));
    var revoked := Step(hmac, served, RevokeKey(a)).value;
    assert Lookup(revoked.s, b, 1).1 == Some(Keys(KeyData("aa", "", 1)));
  }

  /** What is cached under a second spelling is not revoked with the first. */
  lemma SecondSpellingOutlivesRevocation(hmac: Hmac, start: map<string, Entry>, a: string, b: string)
    returns (run: seq<Action>, r: Request, t: Times)
    requires forall k, d, t :: hmac(k, d, t) != []
    requires Uuid(a) == Uuid(b) && a != b && IsUuid(a) && IsUuid(b)
    ensures r.device == b && forall s | s in run :: Spells(s, {a, b})
    ensures AcceptedAfterRevocation(hmac, start, run, a, [], r, t)
  {
    t := Times(1, 1, 1);
    r := Request(b, "aa", 1, ToHex(hmac([], b, 1)));
    OneMore(hmac, start, [], Register(a));
    run := [] + [Register(a)];
    run := ServedThenRevoked(hmac, start, run, a, b, r, t);
  }

  lemma ServedThenRevoked(hmac: Hmac, start: map<string, Entry>, run: seq<Action>,
                          a: string, b: string, r: Request, t: Times)
    returns (longer: seq<Action>)
    requires After(hmac, start, run).Some?
    requires Uuid(a) == Uuid(b) && a != b && IsUuid(b) && Uuid(a) in After(hmac, start, run).value.active
    requires After(hmac, start, run).value.now <= 1 && b !in After(hmac, start, run).value.s.cache
    requires r == Request(b, "aa", 1, ToHex(hmac([], b, 1))) && r.hmac != "" && t == Times(1, 1, 1)
    ensures forall s | s in longer :: s in run || Spells(s, {a, b})
    ensures AcceptedAfterRevocation(hmac, start, longer, a, [], r, t)
  {
    var login := Login(a, KeyData("aa", "", 1), 1, 1);
    CachedSpellingAccepted(hmac, After(hmac, start, run).value, a, b, r, t);
    OneMore(hmac, start, run, login);
    longer := run + [login];
    OneMore(hmac, start, longer, Serve(r, t));
    longer := longer + [Serve(r, t)];
    OneMore(hmac, start, longer, RevokeKey(a));
    assert longer + [RevokeKey(a)] + [] == longer + [RevokeKey(a)];
  }

  // ------------------------------------------------- storing and revoking

  /** A stored key answers every lookup under its spelling until its entry or
      its row runs out, whichever is later, and every lookup under a spelling
      that was not cached until the row does. */
  lemma StoredIsAnswered(
    s: Sessions, device: string, data: KeyData, cacheTime: int, rowTime: int, other: string, now: int)
    requires Uuid(other) == Uuid(device)
    requires || (other == device && now < cacheTime + 86_400_000)
             || ((other == device || other !in s.cache) && now < rowTime + 86_400_000)
    ensures Lookup(StoredKey(s, device, data, cacheTime, rowTime), other, now).1 == Some(Keys(data))
  {
  }

  /** After a revocation a lookup for the device answers exactly what is still
      cached under another spelling; in particular nothing under this one. */
  lemma RevokedIsForgotten(s: Sessions, device: string, other: string, now: int)
    requires Uuid(other) == Uuid(device)
    ensures Lookup(Revoked(s, device), other, now).1
      == if other != device && other in s.cache && s.cache[other].expiresAt > now
         then Some(s.cache[other].stored) else None
  {
  }

  /** Once both have run out it answers no lookup, under this spelling or one
      that is not cached. */
  lemma StoredRunsOut(
    s: Sessions, device: string, data: KeyData, cacheTime: int, rowTime: int, other: string, now: int)
    requires Uuid(other) == Uuid(device) && rowTime + 86_400_000 <= now
    requires if other == device then cacheTime + 86_400_000 <= now else other !in s.cache
    ensures Lookup(StoredKey(s, device, data, cacheTime, rowTime), other, now).1 == None
  {
  }

  predicate SameLetter(a: char, b: char) {
    || a == b
    || ('A' <= a <= 'Z' && b as int == a as int + 32)
    || ('A' <= b <= 'Z' && a as int == b as int + 32)
  }

  /** Two spellings denote one device exactly when they differ in case only. */
  lemma {:induction false} SameDeviceIff(a: string, b: string)
    ensures Uuid(a) == Uuid(b) <==> |a| == |b| && forall i | 0 <= i < |a| :: SameLetter(a[i], b[i])
  {
    if |a| == |b| && a != "" {
      SameDeviceIff(a[1..], b[1..]);
      assert Uuid(a)[0] == Lower(a[0]) && Uuid(a)[1..] == Uuid(a[1..]);
      assert Uuid(b)[0] == Lower(b[0]) && Uuid(b)[1..] == Uuid(b[1..]);
      assert forall i | 0 < i < |a| :: SameLetter(a[i], b[i]) <==> SameLetter(a[1..][i - 1], b[1..][i - 1]);
      assert forall i | 0 <= i < |a| - 1 :: SameLetter(a[1..][i], b[1..][i]) <==> SameLetter(a[i + 1], b[i + 1]);
    }
  }

  // ------------------------------------------------------ what is accepted

  /** The request fits the login: right token, at most two hours old, stamped
      within thirty seconds, and signed with the login's HMAC key. */
  ghost predicate FitsLogin(hmac: Hmac, r: Request, data: KeyData, t: Times) {
    && data.token != "" && DecodeLenient(r.token) == DecodeLenient(data.token)
    && t.ttl - data.issuedAt <= 7_200_000
    && r.time != 0 && r.hmac != "" && -30_000 <= t.skew - r.time <= 30_000
    && DecodeLenient(r.hmac) == hmac(DecodeLenient(data.hmacKey), r.device, r.time)
  }

  /** The header values have their required shapes. */
  ghost predicate Shaped(r: Request) {
    && |r.device| == 36
    && (forall i | 0 <= i < 36 ::
         if i == 8 || i == 13 || i == 18 || i == 23 then r.device[i] == '-' else DigitValue(r.device[i]).Some?)
    && r.token != "" && forall i | 0 <= i < |r.token| :: DigitValue(r.token[i]).Some?
  }

  /** A request is accepted exactly when it is well formed, its device active,
      and it fits the keys the lookup answers with. */
  lemma AcceptedIff(hmac: Hmac, s: Sessions, r: Request, active: set<string>, t: Times)
    ensures Required(hmac, s, r, active, t).1 in {Ok(r.device), Err(AuthenticationRequired), Err(SessionExpired),
                                                  Err(HeadersRequired), Err(TimestampOutOfRange)}
    ensures Required(hmac, s, r, active, t).1.Ok? <==>
      && Shaped(r) && Uuid(r.device) in active
      && exists data :: Lookup(s, r.device, t.lookup).1 == Some(Keys(data)) && FitsLogin(hmac, r, data, t)
  {
    if Required(hmac, s, r, active, t).1.Ok? {
      assert Lookup(s, r.device, t.lookup).1 == Some(Keys(Lookup(s, r.device, t.lookup).1.value.data));
    }
  }

  /** After a login, for as long as its entry or its row lives, an active
      device's well-formed requests are accepted exactly when they fit it. */
  lemma AcceptedAfterLoginIff(
    hmac: Hmac, s: Sessions, r: Request, data: KeyData, cacheTime: int, rowTime: int, active: set<string>, t: Times)
    requires t.lookup < cacheTime + 86_400_000 || t.lookup < rowTime + 86_400_000
    ensures Required(hmac, StoredKey(s, r.device, data, cacheTime, rowTime), r, active, t).1.Ok? <==>
      Shaped(r) && Uuid(r.device) in active && FitsLogin(hmac, r, data, t)
  {
    StoredIsAnswered(s, r.device, data, cacheTime, rowTime, r.device, t.lookup);
    AcceptedIff(hmac, StoredKey(s, r.device, data, cacheTime, rowTime), r, active, t);
  }
}
