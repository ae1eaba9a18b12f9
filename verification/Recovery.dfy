/** Checkpoints, replay and snapshot (internal/message/repository/recovery.go). */
module Recovery {
  import opened Basics
  import opened Schema
  import opened Access

  // ----- Receipt -----

  datatype Checkpoint = Checkpoint(user: Id, read: int, delivered: int, version: int)

  /** `readKind` distinguishes a read acknowledgement from a delivered one. */
  function Advanced(m: Membership, readKind: bool, sequence: int): Membership {
    m.(read := if readKind then Max(m.read, sequence) else m.read,
       delivered := Max(m.delivered, sequence))
  }

  function ReceiptRefs(user: Id, m: Membership): Refs {
    Refs(None, 0, m.version, Some(user), m.read, m.delivered)
  }

  function ReceiptRefusal(db: Db, user: Id, c: Id, sequence: int): (r: Option<Error>)
    ensures r.None? ==> c in db.conversations && Joined(db, c, user)
  {
    if sequence < 0 then Some(Invalid)
    else if !db.settings.active then Some(NotFound)
    else if user !in db.users then Some(Unavailable)
    else if db.users[user].banned then Some(Banned)
    else if c !in db.conversations || !Joined(db, c, user) then Some(NotFound)
    else if db.members[(c, user)].banned then Some(Banned)
    else if sequence > db.conversations[c].messageSequence then Some(Invalid)
    else None
  }

  function ReceiptSpec(db: Db, user: Id, c: Id, readKind: bool, sequence: int): Outcome<Checkpoint> {
    match ReceiptRefusal(db, user, c, sequence)
    case Some(e) => Outcome(db, Err(e))
    case None =>
      var m := db.members[(c, user)];
      var next := Advanced(m, readKind, sequence);
      if next == m then Outcome(db, Ok(CheckpointOf(user, m)))
      else
        var stored := next.(version := m.version + 1);
        Outcome(ReceiptRows(db, user, c, readKind, stored), Ok(CheckpointOf(user, stored)))
  }

  function CheckpointOf(user: Id, m: Membership): Checkpoint {
    Checkpoint(user, m.read, m.delivered, m.version)
  }

  function ReceiptRows(db: Db, user: Id, c: Id, readKind: bool, stored: Membership): Db
    requires c in db.conversations
  {
    var kind := if readKind then MessageRead else MessageDelivered;
    Append(db.(members := db.members[(c, user) := stored]), c, Envelope(kind, ReceiptRefs(user, stored)))
  }

  method Acknowledge(d: Database, user: Id, c: Id, readKind: bool, sequence: int) returns (r: Result<Checkpoint>)
    modifies d
    ensures Outcome(d.state, r) == ReceiptSpec(old(d.state), user, c, readKind, sequence)
  {
    var refusal := ReceiptRefusal(d.state, user, c, sequence);
    if refusal.Some? { return Err(refusal.value); }
    var tx := d.state;
    var m := tx.members[(c, user)];
    var nextRead := m.read;
    if readKind { nextRead := Max(nextRead, sequence); }
    var nextDelivered := Max(m.delivered, sequence);
    if nextRead == m.read && nextDelivered == m.delivered {
      return Ok(Checkpoint(user, m.read, m.delivered, m.version));
    }
    m := m.(read := nextRead, delivered := nextDelivered, version := m.version + 1);
    tx := tx.(members := tx.members[(c, user) := m]);
    tx := Append(tx, c, Envelope(if readKind then MessageRead else MessageDelivered, ReceiptRefs(user, m)));
    d.state := tx;
    return Ok(Checkpoint(user, m.read, m.delivered, m.version));
  }

  // ----- Replay -----

  const MAX_PAGE: int := 100

  datatype Delivered = Delivered(sequence: int, envelope: Envelope, message: Option<Message>)

  datatype Page = Page(events: seq<Delivered>, through: int, high: int, more: bool)

  /** Another member's receipt advances the cursor without leaking the checkpoint. */
  function Mask(receipts: bool, user: Id, e: Envelope): Envelope {
    if !receipts && (e.kind.MessageRead? || e.kind.MessageDelivered?) && e.refs.user != Some(user)
    then Envelope(SyncAdvance, NOTHING)
    else e
  }

  /** Every stored sequence of (after, n]. */
  predicate Stored(events: map<(Id, int), Envelope>, c: Id, after: int, n: int) {
    forall s | after < s <= n :: (c, s) in events
  }

  /** The page end a replay of `limit` events aims for. */
  function Reach(after: int, limit: int, high: int): int {
    Min(after + limit, high)
  }

  /** The references of one page name an identified message of this conversation. */
  predicate Identified(db: Db, c: Id, s: int) {
    (c, s) in db.events && MessageState(db.events[(c, s)].kind) ==> db.events[(c, s)].refs.message.Some?
  }

  predicate Resolves(db: Db, c: Id, s: int) {
    (c, s) in db.events && MessageState(db.events[(c, s)].kind) && db.events[(c, s)].refs.message.Some? ==>
      Resident(db, c, db.events[(c, s)].refs.message.value)
  }

  predicate Resident(db: Db, c: Id, m: Id) {
    m in db.messages && db.messages[m].conversation == c
  }

  predicate Decrypts(db: Db, c: Id, s: int) {
    (c, s) in db.events && MessageState(db.events[(c, s)].kind) && db.events[(c, s)].refs.message.Some?
    && Resident(db, c, db.events[(c, s)].refs.message.value)
    ==> Scan(db, db.events[(c, s)].refs.message.value).Ok?
  }

  /** The failure a page reports although its log rows are contiguous. */
  function HydrationError(db: Db, c: Id, after: int, n: int): Option<Error> {
    if exists s | after < s <= n :: !Identified(db, c, s) then Some(Resync)
    else if exists s | after < s <= n :: !Decrypts(db, c, s) then Some(Crypto)
    else if exists s | after < s <= n :: !Resolves(db, c, s) then Some(Resync)
    else None
  }

  /** One stored event before hydration. */
  function Raw(log: map<(Id, int), Envelope>, receipts: bool, user: Id, c: Id, s: int): Delivered {
    Delivered(s, if (c, s) in log then Mask(receipts, user, log[(c, s)]) else Envelope(SyncAdvance, NOTHING), None)
  }

  /** The stored events of (after, n] before hydration. */
  function RawPage(log: map<(Id, int), Envelope>, receipts: bool, user: Id, c: Id, after: int, n: int): (r: seq<Delivered>)
    ensures |r| == Max(n - after, 0)
    ensures forall i | 0 <= i < |r| :: r[i] == Raw(log, receipts, user, c, after + 1 + i)
    decreases n - after
  {
    if n <= after then [] else RawPage(log, receipts, user, c, after, n - 1) + [Raw(log, receipts, user, c, n)]
  }

  /** What one stored event looks like to `user` now. */
  function Shown(db: Db, user: Id, c: Id, s: int): Delivered {
    var d := Raw(db.events, ReadReceipts in db.settings.flags, user, c, s);
    if MessageState(d.envelope.kind) && d.envelope.refs.message.Some? && Scan(db, d.envelope.refs.message.value).Ok?
    then d.(message := Some(Scan(db, d.envelope.refs.message.value).value))
    else d
  }

  function Suffix(db: Db, user: Id, c: Id, after: int, n: int): (r: seq<Delivered>)
    ensures |r| == Max(n - after, 0)
    ensures forall i | 0 <= i < |r| :: r[i] == Shown(db, user, c, after + 1 + i)
    decreases n - after
  {
    if after >= n then [] else [Shown(db, user, c, after + 1)] + Suffix(db, user, c, after + 1, n)
  }

  /** Replay as its callers may rely on it: a page of the log, or the reason there is none. */
  function ReplaySpec(db: Db, user: Id, c: Id, after: int, limit: int): Result<Page> {
    if after < 0 || limit < 1 || limit > MAX_PAGE then Err(Invalid)
    else if !Readable(db, c, user) then Err(NotFound)
    else
      var high := db.conversations[c].eventSequence;
      var n := Reach(after, limit, high);
      if after > high || !Stored(db.events, c, after, n) then Err(Resync)
      else
        match HydrationError(db, c, after, n)
        case Some(e) => Err(e)
        case None => Ok(Page(Suffix(db, user, c, after, n), n, high, n < high))
  }

  /** SELECT ... WHERE sequence>after AND sequence<=high ORDER BY sequence LIMIT limit. */
  function LogRows(events: map<(Id, int), Envelope>, c: Id, after: int, high: int, limit: int): (r: seq<(int, Envelope)>)
    ensures forall i | 0 <= i < |r| :: after < r[i].0 <= high
    ensures limit >= 0 ==> |r| <= limit
    decreases high - after
  {
    if after >= high || limit <= 0 then []
    else if (c, after + 1) in events then [(after + 1, events[(c, after + 1)])] + LogRows(events, c, after + 1, high, limit - 1)
    else LogRows(events, c, after + 1, high, limit)
  }

  lemma {:induction false} HeadOfRows(events: map<(Id, int), Envelope>, c: Id, after: int, high: int, limit: int)
    requires after < high && limit > 0
    ensures var r := LogRows(events, c, after, high, limit);
      if (c, after + 1) in events
      then r != [] && r[0] == (after + 1, events[(c, after + 1)]) && r[1..] == LogRows(events, c, after + 1, high, limit - 1)
      else r == [] || r[0].0 != after + 1
  {
  }

  /** The contiguity phase: every row must continue the cursor, and a short page must
      have reached the high watermark. */
  method Collect(log: map<(Id, int), Envelope>, receipts: bool, user: Id, c: Id, after: int, limit: int, high: int) returns (r: Option<seq<Delivered>>)
    requires after <= high && limit >= 1
    ensures r.Some? <==> Stored(log, c, after, Reach(after, limit, high))
    ensures r.Some? ==> r.value == RawPage(log, receipts, user, c, after, Reach(after, limit, high))
  {
    var rows := LogRows(log, c, after, high, limit);
    var events: seq<Delivered> := [];
    var through := after;
    while rows != []
      invariant after <= through <= Reach(after, limit, high)
      invariant rows == LogRows(log, c, through, high, limit - (through - after))
      invariant Stored(log, c, after, through)
      invariant events == RawPage(log, receipts, user, c, after, through)
      decreases |rows|
    {
      HeadOfRows(log, c, through, high, limit - (through - after));
      var (sequence, envelope) := rows[0];
      if sequence != through + 1 { return None; }
      events := events + [Delivered(sequence, Mask(receipts, user, envelope), None)];
      through, rows := sequence, rows[1..];
    }
    if through < high && |events| < limit {
      HeadOfRows(log, c, through, high, limit - (through - after));
      return None;
    }
    return Some(events);
  }

  method Replay(db: Db, user: Id, c: Id, after: int, limit: int) returns (r: Result<Page>)
    ensures r == ReplaySpec(db, user, c, after, limit)
  {
    if after < 0 || limit < 1 || limit > MAX_PAGE { return Err(Invalid); }
    if !Readable(db, c, user) { return Err(NotFound); }
    var high := db.conversations[c].eventSequence;
    if after > high { return Err(Resync); }
    var collected := Collect(db.events, ReadReceipts in db.settings.flags, user, c, after, limit, high);
    if collected.None? { return Err(Resync); }
    var hydrated := Hydrate(db, user, c, after, Reach(after, limit, high), collected.value);
    if hydrated.Err? { return Err(hydrated.error); }
    var through := Reach(after, limit, high);
    return Ok(Page(hydrated.value, through, high, through < high));
  }

  /** Hydration: collect the distinct message ids, read each current resource once, and
      attach it to every event that names it. */
  method Hydrate(db: Db, user: Id, c: Id, after: int, n: int, raw: seq<Delivered>) returns (r: Result<seq<Delivered>>)
    requires after <= n && Stored(db.events, c, after, n)
    requires raw == RawPage(db.events, ReadReceipts in db.settings.flags, user, c, after, n)
    ensures r == match HydrationError(db, c, after, n)
                 case Some(e) => Err(e)
                 case None => Ok(Suffix(db, user, c, after, n))
  {
    var ids: set<Id> := {};
    var i := 0;
    while i < |raw|
      invariant 0 <= i <= |raw|
      invariant forall s | after < s <= after + i :: Identified(db, c, s)
      invariant forall m | m in ids :: Named(db, c, after, n, m)
      invariant forall s | after < s <= after + i && (c, s) in db.events && MessageState(db.events[(c, s)].kind) ::
                  NamedMessage(db.events[(c, s)]) in ids
    {
      var s := after + 1 + i;
      assert raw[i] == Raw(db.events, ReadReceipts in db.settings.flags, user, c, s);
      if MessageState(raw[i].envelope.kind) {
        if raw[i].envelope.refs.message.None? {
          assert !Identified(db, c, s);
          return Err(Resync);
        }
        ids := ids + {raw[i].envelope.refs.message.value};
      }
      i := i + 1;
    }
    var broken := set m | m in ids && Resident(db, c, m) && Scan(db, m).Err?;
    if broken != {} {
      ghost var m :| m in broken;
      assert Named(db, c, after, n, m);
      ghost var s :| after < s <= n && (c, s) in db.events && MessageState(db.events[(c, s)].kind) && NamedMessage(db.events[(c, s)]) == m;
      assert Identified(db, c, s) && !Decrypts(db, c, s);
      return Err(Crypto);
    }
    forall s | after < s <= n ensures Decrypts(db, c, s) {
      assert (c, s) in db.events;
      if MessageState(db.events[(c, s)].kind) {
        assert NamedMessage(db.events[(c, s)]) in ids && NamedMessage(db.events[(c, s)]) !in broken;
      }
    }
    r := AttachCurrent(db, user, c, after, n, raw);
  }

  ghost predicate Named(db: Db, c: Id, after: int, n: int, m: Id) {
    exists s :: after < s <= n && (c, s) in db.events && MessageState(db.events[(c, s)].kind) && NamedMessage(db.events[(c, s)]) == m
  }

  function NamedMessage(e: Envelope): Id {
    if e.refs.message.Some? then e.refs.message.value else Id(0)
  }

  method AttachCurrent(db: Db, user: Id, c: Id, after: int, n: int, raw: seq<Delivered>) returns (r: Result<seq<Delivered>>)
    requires after <= n && Stored(db.events, c, after, n)
    requires raw == RawPage(db.events, ReadReceipts in db.settings.flags, user, c, after, n)
    requires forall s | after < s <= n :: Identified(db, c, s)
    requires forall s | after < s <= n :: Decrypts(db, c, s)
    ensures r == if exists s | after < s <= n :: !Resolves(db, c, s) then Err(Resync) else Ok(Suffix(db, user, c, after, n))
  {
    var out: seq<Delivered> := [];
    var i := 0;
    while i < |raw|
      invariant 0 <= i <= |raw|
      invariant |out| == i
      invariant forall s | after < s <= after + i :: Resolves(db, c, s)
      invariant forall k | 0 <= k < i :: out[k] == Shown(db, user, c, after + 1 + k)
    {
      var s := after + 1 + i;
      var e := raw[i];
      assert e == Raw(db.events, ReadReceipts in db.settings.flags, user, c, s) && Identified(db, c, s) && Decrypts(db, c, s);
      if MessageState(e.envelope.kind) {
        var m := e.envelope.refs.message.value;
        if !Resident(db, c, m) {
          assert !Resolves(db, c, s);
          return Err(Resync);
        }
        e := e.(message := Some(Scan(db, m).value));
      }
      out := out + [e];
      i := i + 1;
    }
    assert out == Suffix(db, user, c, after, n);
    return Ok(out);
  }
}
