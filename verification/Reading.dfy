/** History, search and snapshots (internal/message/repository/postgres.go, recovery.go). */
module Reading {
  import opened Basics
  import opened Cryptography
  import opened Schema
  import opened Access
  import opened Relations

  datatype Query = Query(before: int, after: int, limit: int, forward: bool) {
    predicate Valid() {
      && before >= 0 && after >= 0
      && !(before > 0 && (after > 0 || forward))
      && 1 <= limit <= 101
    }

    predicate Ascending() { after > 0 || forward }
  }

  /** WHERE sequence<=s AND keep ORDER BY sequence DESC LIMIT limit, over the unique
      (conversation, sequence) index. */
  function Newest(order: map<(Id, int), Id>, c: Id, s: int, limit: int, keep: Id -> bool): (r: seq<Id>)
    ensures limit >= 0 ==> |r| <= limit
    decreases s
  {
    if s <= 0 || limit <= 0 then []
    else if (c, s) in order && keep(order[(c, s)]) then [order[(c, s)]] + Newest(order, c, s - 1, limit - 1, keep)
    else Newest(order, c, s - 1, limit, keep)
  }

  /** WHERE sequence>=s AND sequence<=high AND keep ORDER BY sequence ASC LIMIT limit. */
  function Oldest(order: map<(Id, int), Id>, c: Id, s: int, high: int, limit: int, keep: Id -> bool): (r: seq<Id>)
    ensures limit >= 0 ==> |r| <= limit
    decreases high - s
  {
    if s > high || limit <= 0 then []
    else if (c, s) in order && keep(order[(c, s)]) then [order[(c, s)]] + Oldest(order, c, s + 1, high, limit - 1, keep)
    else Oldest(order, c, s + 1, high, limit, keep)
  }

  /** A live message whose index row of some retained version contains every token. */
  predicate Hit(db: Db, queries: map<Version, set<Token>>, m: Id) {
    && m in db.messages && db.messages[m].Live(db.now)
    && exists v | v in queries :: (m, v) in db.search && queries[v] <= db.search[(m, v)]
  }

  predicate Kept(db: Db, search: Option<map<Version, set<Token>>>, m: Id) {
    search.None? || Hit(db, search.value, m)
  }

  function Keep(db: Db, search: Option<map<Version, set<Token>>>): Id -> bool {
    m => Kept(db, search, m)
  }

  /** The rows of one page, in the order the statement returns them. */
  function PageRows(db: Db, c: Id, q: Query, search: Option<map<Version, set<Token>>>): seq<Id>
    requires c in db.conversations
  {
    var high := db.conversations[c].messageSequence;
    var keep := Keep(db, search);
    if q.Ascending() then Oldest(db.order, c, q.after + 1, high, q.limit, keep)
    else Newest(db.order, c, if q.before == 0 then high else Min(q.before - 1, high), q.limit, keep)
  }

  function ScanAll(db: Db, ids: seq<Id>): (r: Result<seq<Message>>)
    ensures r.Ok? <==> forall i | 0 <= i < |ids| :: Scan(db, ids[i]).Ok?
    ensures r.Ok? ==> |r.value| == |ids| && forall i | 0 <= i < |ids| :: Scan(db, ids[i]) == Ok(r.value[i])
  {
    if ids == [] then Ok([])
    else
      match Scan(db, ids[0])
      case Err(e) => Err(e)
      case Ok(m) =>
        match ScanAll(db, ids[1..])
        case Err(e) => Err(e)
        case Ok(rest) => Ok([m] + rest)
  }

  function PageSpec(db: Db, user: Id, c: Id, q: Query, search: Option<map<Version, set<Token>>>): Result<seq<Message>> {
    if !q.Valid() then Err(Invalid)
    else if !Readable(db, c, user) then Err(NotFound)
    else ScanAll(db, PageRows(db, c, q, search))
  }

  /** `items` decodes what precedes `rest`. */
  ghost predicate Decoded(db: Db, ids: seq<Id>, items: seq<Message>, rest: seq<Id>) {
    ScanAll(db, ids) == match ScanAll(db, rest)
                        case Err(e) => Err(e)
                        case Ok(tail) => Ok(items + tail)
  }

  lemma DecodeOne(db: Db, ids: seq<Id>, items: seq<Message>, rest: seq<Id>)
    requires Decoded(db, ids, items, rest) && rest != []
    ensures Scan(db, rest[0]).Err? ==> ScanAll(db, ids) == Err(Scan(db, rest[0]).error)
    ensures Scan(db, rest[0]).Ok? ==> Decoded(db, ids, items + [Scan(db, rest[0]).value], rest[1..])
  {
    hide Scan;
    var later := ScanAll(db, rest[1..]);
    if Scan(db, rest[0]).Ok? && later.Ok? {
      assert items + ([Scan(db, rest[0]).value] + later.value) == (items + [Scan(db, rest[0]).value]) + later.value;
    }
  }

  method Decode(db: Db, ids: seq<Id>) returns (r: Result<seq<Message>>)
    ensures r == ScanAll(db, ids)
  {
    var items: seq<Message> := [];
    var rest := ids;
    assert ScanAll(db, ids).Ok? ==> [] + ScanAll(db, ids).value == ScanAll(db, ids).value;
    while rest != []
      invariant Decoded(db, ids, items, rest)
      decreases |rest|
    {
      DecodeOne(db, ids, items, rest);
      var m := Scan(db, rest[0]);
      if m.Err? { return Err(m.error); }
      items, rest := items + [m.value], rest[1..];
    }
    assert items + [] == items;
    return Ok(items);
  }

  method History(db: Db, user: Id, c: Id, q: Query) returns (r: Result<seq<Message>>)
    ensures r == PageSpec(db, user, c, q, None)
  {
    if !q.Valid() { return Err(Invalid); }
    if !Readable(db, c, user) { return Err(NotFound); }
    r := Decode(db, PageRows(db, c, q, None));
  }

  /** Search: the service admits only backwards pages, then every retained key version
      of the query is tried against each live row. */
  function SearchSpec(db: Db, user: Id, c: Id, text: string, q: Query): Result<seq<Message>> {
    if |text| > 16384 || q.after != 0 || q.forward || !q.Valid() then Err(Invalid)
    else
      match QueriesOf(db.keys, db.unicode, text)
      case Err(_) => Err(Invalid)
      case Ok(queries) => PageSpec(db, user, c, q, Some(queries))
  }

  method Search(db: Db, user: Id, c: Id, text: string, q: Query) returns (r: Result<seq<Message>>)
    ensures r == SearchSpec(db, user, c, text, q)
  {
    if |text| > 16384 || q.after != 0 || q.forward || !q.Valid() { return Err(Invalid); }
    var queries := Queries(db.keys, db.unicode, text);
    if queries.Err? { return Err(Invalid); }
    if !Readable(db, c, user) { return Err(NotFound); }
    r := Decode(db, PageRows(db, c, q, Some(queries.value)));
  }

  // ----- Snapshot -----

  const RECENT: int := 50

  datatype Snapshot = Snapshot(
    messages: seq<Message>, pins: set<Id>, membership: Membership,
    eventSequence: int, messageSequence: int, last: Option<Id>)

  function Reversed<T>(s: seq<T>): (r: seq<T>)
    ensures |r| == |s| && forall i | 0 <= i < |s| :: r[i] == s[|s| - 1 - i]
  {
    if s == [] then [] else Reversed(s[1..]) + [s[0]]
  }

  function SnapshotSpec(db: Db, user: Id, c: Id): Result<Snapshot> {
    if !Readable(db, c, user) then Err(NotFound)
    else
      var conv := db.conversations[c];
      match ScanAll(db, Newest(db.order, c, conv.messageSequence, RECENT, Keep(db, None)))
      case Err(e) => Err(e)
      case Ok(recent) =>
        Ok(Snapshot(Reversed(recent), LivePins(db, c), db.members[(c, user)],
                    conv.eventSequence, conv.messageSequence, conv.last))
  }

  method TakeSnapshot(db: Db, user: Id, c: Id) returns (r: Result<Snapshot>)
    ensures r == SnapshotSpec(db, user, c)
  {
    if !Readable(db, c, user) { return Err(NotFound); }
    var conv := db.conversations[c];
    var recent := Decode(db, Newest(db.order, c, conv.messageSequence, RECENT, Keep(db, None)));
    if recent.Err? { return Err(recent.error); }
    return Ok(Snapshot(Reversed(recent.value), LivePins(db, c), db.members[(c, user)], conv.eventSequence, conv.messageSequence, conv.last));
  }
}
