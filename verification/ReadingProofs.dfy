/** What a page of history or search returns: exactly the newest, or oldest, kept messages. */
module ReadingProofs {
  import opened Basics
  import opened Text
  import opened Cryptography
  import opened Schema
  import opened Access
  import opened Reading
  import opened Deltas
  import opened Invariants
  import opened Evolution
  import opened System

  /** `r` lists kept messages of `c` at or below `s`, newest first, and nothing kept is
      skipped: what is missing is older than everything listed, and only if the page is full. */
  ghost predicate NewestOf(messages: map<Id, Row>, c: Id, s: int, limit: int, keep: Id -> bool, r: seq<Id>) {
    && |r| <= Max(limit, 0)
    && (forall i | 0 <= i < |r| :: r[i] in messages && messages[r[i]].conversation == c && messages[r[i]].sequence <= s && keep(r[i]))
    && (forall i, j | 0 <= i < j < |r| :: messages[r[j]].sequence < messages[r[i]].sequence)
    && (forall m | m in messages && messages[m].conversation == c && messages[m].sequence <= s && keep(m) && m !in r ::
          |r| == Max(limit, 0) && forall i | 0 <= i < |r| :: messages[m].sequence < messages[r[i]].sequence)
  }

  /** The only message of `c` at sequence `s`. */
  ghost predicate OnlyAt(messages: map<Id, Row>, c: Id, s: int, x: Id) {
    && x in messages && messages[x].conversation == c && messages[x].sequence == s
    && forall m | m in messages && messages[m].conversation == c && messages[m].sequence == s :: m == x
  }

  lemma NewestCons(messages: map<Id, Row>, c: Id, s: int, limit: int, keep: Id -> bool, x: Id, rest: seq<Id>)
    requires limit > 0 && OnlyAt(messages, c, s, x) && keep(x)
    requires NewestOf(messages, c, s - 1, limit - 1, keep, rest)
    ensures NewestOf(messages, c, s, limit, keep, [x] + rest)
  {
    var r := [x] + rest;
    assert forall i | 1 <= i < |r| :: r[i] == rest[i - 1];
    forall m | m in messages && messages[m].conversation == c && messages[m].sequence <= s && keep(m) && m !in r
      ensures |r| == limit && forall i | 0 <= i < |r| :: messages[m].sequence < messages[r[i]].sequence
    {
      assert r[0] == x && m != x;
      assert m !in rest;
    }
  }

  lemma {:induction false} NewestIs(convs: map<Id, Conversation>, messages: map<Id, Row>, order: map<(Id, int), Id>, c: Id, s: int, limit: int, keep: Id -> bool)
    requires Ordered(convs, messages, order)
    ensures NewestOf(messages, c, s, limit, keep, Newest(order, c, s, limit, keep))
    decreases s
  {
    forall m | m in messages ensures Placed(messages, order, m) {}
    if s > 0 && limit > 0 {
      if (c, s) in order && keep(order[(c, s)]) {
        NewestIs(convs, messages, order, c, s - 1, limit - 1, keep);
        NewestCons(messages, c, s, limit, keep, order[(c, s)], Newest(order, c, s - 1, limit - 1, keep));
      } else {
        NewestIs(convs, messages, order, c, s - 1, limit, keep);
      }
    }
  }

  ghost predicate OldestOf(messages: map<Id, Row>, c: Id, s: int, high: int, limit: int, keep: Id -> bool, r: seq<Id>) {
    && |r| <= Max(limit, 0)
    && (forall i | 0 <= i < |r| :: r[i] in messages && messages[r[i]].conversation == c && s <= messages[r[i]].sequence <= high && keep(r[i]))
    && (forall i, j | 0 <= i < j < |r| :: messages[r[i]].sequence < messages[r[j]].sequence)
    && (forall m | m in messages && messages[m].conversation == c && s <= messages[m].sequence <= high && keep(m) && m !in r ::
          |r| == Max(limit, 0) && forall i | 0 <= i < |r| :: messages[r[i]].sequence < messages[m].sequence)
  }

  lemma OldestCons(messages: map<Id, Row>, c: Id, s: int, high: int, limit: int, keep: Id -> bool, x: Id, rest: seq<Id>)
    requires limit > 0 && s <= high && OnlyAt(messages, c, s, x) && keep(x)
    requires OldestOf(messages, c, s + 1, high, limit - 1, keep, rest)
    ensures OldestOf(messages, c, s, high, limit, keep, [x] + rest)
  {
    var r := [x] + rest;
    assert forall i | 1 <= i < |r| :: r[i] == rest[i - 1];
    forall m | m in messages && messages[m].conversation == c && s <= messages[m].sequence <= high && keep(m) && m !in r
      ensures |r| == limit && forall i | 0 <= i < |r| :: messages[r[i]].sequence < messages[m].sequence
    {
      assert r[0] == x && m != x;
      assert m !in rest;
    }
  }

  lemma OldestSkip(messages: map<Id, Row>, c: Id, s: int, high: int, limit: int, keep: Id -> bool, r: seq<Id>)
    requires OldestOf(messages, c, s + 1, high, limit, keep, r)
    requires forall m | m in messages && messages[m].conversation == c && messages[m].sequence == s :: !keep(m)
    ensures OldestOf(messages, c, s, high, limit, keep, r)
  {
  }

  lemma {:induction false} OldestIs(convs: map<Id, Conversation>, messages: map<Id, Row>, order: map<(Id, int), Id>, c: Id, s: int, high: int, limit: int, keep: Id -> bool)
    requires Ordered(convs, messages, order)
    ensures OldestOf(messages, c, s, high, limit, keep, Oldest(order, c, s, high, limit, keep))
    decreases high - s
  {
    forall m | m in messages ensures Placed(messages, order, m) {}
    if s <= high && limit > 0 {
      hide OldestOf;
      if (c, s) in order && keep(order[(c, s)]) {
        OldestIs(convs, messages, order, c, s + 1, high, limit - 1, keep);
        OldestCons(messages, c, s, high, limit, keep, order[(c, s)], Oldest(order, c, s + 1, high, limit - 1, keep));
      } else {
        OldestIs(convs, messages, order, c, s + 1, high, limit, keep);
        OldestSkip(messages, c, s, high, limit, keep, Oldest(order, c, s + 1, high, limit, keep));
      }
    }
  }

  // ----- search -----

  /** What the caller of a search means: a live message whose text contains every word. */
  ghost predicate Contains(db: Db, words: set<string>, m: Id) {
    && m in db.messages && db.messages[m].Live(db.now) && db.messages[m].body.Some?
    && words <= WordsOf(db.unicode, db.messages[m])
  }

  /** Some retained blinding of the words matches exactly when the plain words do. */
  lemma HitIsContainment(db: Db, words: set<string>, m: Id)
    requires Indexed(db.keys, db.unicode, db.messages, db.search) && Bodies(db.keys, db.messages) && words != {}
    ensures Hit(db, map v | v in db.keys.search :: Blind(v, words), m) <==> Contains(db, words, m)
  {
    var queries := map v | v in db.keys.search :: Blind(v, words);
    if Hit(db, queries, m) {
      var v :| v in queries && (m, v) in db.search && queries[v] <= db.search[(m, v)];
      assert IndexRowOk(db.keys, db.unicode, db.messages, (m, v), db.search[(m, v)]);
      BlindIsMonotone(v, words, v, WordsOf(db.unicode, db.messages[m]));
    }
    if Contains(db, words, m) {
      assert HasIndexRow(db.search, m);
      var v :| (m, v) in db.search;
      assert IndexRowOk(db.keys, db.unicode, db.messages, (m, v), db.search[(m, v)]);
      BlindIsMonotone(v, words, v, WordsOf(db.unicode, db.messages[m]));
      assert v in queries;
    }
  }

  lemma ScanAllSucceeds(db: Db, ids: seq<Id>)
    requires Bodies(db.keys, db.messages) && forall i | 0 <= i < |ids| :: ids[i] in db.messages
    ensures ScanAll(db, ids).Ok?
  {
    forall i | 0 <= i < |ids| ensures Scan(db, ids[i]).Ok? { ScanSucceeds(db, ids[i]); }
  }

  /** Where a backwards page starts. */
  function Bound(db: Db, c: Id, q: Query): int
    requires c in db.conversations
  {
    if q.before == 0 then db.conversations[c].messageSequence else Min(q.before - 1, db.conversations[c].messageSequence)
  }

  function Ids(messages: seq<Message>): (r: seq<Id>)
    ensures |r| == |messages| && forall i | 0 <= i < |messages| :: r[i] == messages[i].id
  {
    seq(|messages|, i requires 0 <= i < |messages| => messages[i].id)
  }

  lemma ProjectedIds(db: Db, ids: seq<Id>)
    requires ScanAll(db, ids).Ok?
    ensures Ids(ScanAll(db, ids).value) == ids
    ensures forall i | 0 <= i < |ids| :: Scan(db, ids[i]) == Ok(ScanAll(db, ids).value[i])
  {
    hide Scan;
    var items := ScanAll(db, ids).value;
    forall i | 0 <= i < |ids| ensures items[i].id == ids[i] { ScanNames(db, ids[i]); }
  }

  lemma ScanNames(db: Db, m: Id)
    requires Scan(db, m).Ok?
    ensures Scan(db, m).value.id == m
  {
  }

  /** The current projections of the listed messages. */
  ghost predicate Projects(db: Db, items: seq<Message>) {
    forall i | 0 <= i < |items| :: Scan(db, items[i].id) == Ok(items[i])
  }

  /** History and snapshots keep every message, tombstones and expired ones included. */
  function Everything(): Id -> bool {
    m => true
  }

  /** A page of history: the newest below the bound, or the oldest above it, with nothing
      skipped, each as it is now. */
  lemma HistoryIs(db: Db, user: Id, c: Id, q: Query)
    requires Reachable(db) && Readable(db, c, user) && q.Valid()
    ensures var r := PageSpec(db, user, c, q, None);
      && r.Ok? && Projects(db, r.value)
      && if q.after > 0 || q.forward
         then OldestOf(db.messages, c, q.after + 1, db.conversations[c].messageSequence, q.limit, Everything(), Ids(r.value))
         else NewestOf(db.messages, c, Bound(db, c, q), q.limit, Everything(), Ids(r.value))
  {
    hide Reachable, Checkpointed, Inv;
    ReachableInv(db);
    PageIs(db, user, c, q, None);
    forall m ensures Keep(db, None)(m) == Everything()(m) {}
  }

  lemma PageIs(db: Db, user: Id, c: Id, q: Query, search: Option<map<Version, set<Token>>>)
    requires Inv(db) && Readable(db, c, user) && q.Valid()
    ensures var r := PageSpec(db, user, c, q, search);
      && r.Ok? && Projects(db, r.value)
      && if q.Ascending() then OldestOf(db.messages, c, q.after + 1, db.conversations[c].messageSequence, q.limit, Keep(db, search), Ids(r.value))
         else NewestOf(db.messages, c, Bound(db, c, q), q.limit, Keep(db, search), Ids(r.value))
  {
    hide DenseLog, Ledger, Ordered, Tails, BodyOk, Indexed, Receipts, Related, Cursors, Governance, Files, Hit, Scan, Newest, Oldest;
    var ids := PageRows(db, c, q, search);
    if q.Ascending() {
      OldestIs(db.conversations, db.messages, db.order, c, q.after + 1, db.conversations[c].messageSequence, q.limit, Keep(db, search));
    } else {
      NewestIs(db.conversations, db.messages, db.order, c, Bound(db, c, q), q.limit, Keep(db, search));
    }
    ScanAllSucceeds(db, ids);
    ProjectedIds(db, ids);
  }

  ghost function Containing(db: Db, words: set<string>): Id -> bool {
    m => Contains(db, words, m)
  }

  lemma SearchFinds(db: Db, user: Id, c: Id, text: string, q: Query)
    requires Inv(db) && Readable(db, c, user)
    requires |text| <= 16384 && q.Valid() && !q.Ascending()
    requires Words(db.unicode, text) != {} && |Words(db.unicode, text)| <= QUERY_WORDS
    ensures var r := SearchSpec(db, user, c, text, q);
      && r.Ok? && Projects(db, r.value)
      && NewestOf(db.messages, c, Bound(db, c, q), q.limit, Containing(db, Words(db.unicode, text)), Ids(r.value))
  {
    hide DenseLog, Ledger, Ordered, Tails, Bodies, Indexed, Receipts, Related, Cursors, Governance, Files, Hit, Contains, Scan, PageSpec, Projects;
    var words := Words(db.unicode, text);
    var queries := map v | v in db.keys.search :: Blind(v, words);
    assert QueriesOf(db.keys, db.unicode, text) == Ok(queries);
    PageIs(db, user, c, q, Some(queries));
    forall m ensures Keep(db, Some(queries))(m) == Containing(db, words)(m) { HitIsContainment(db, words, m); }
  }

  /** Blind search over encrypted text is plain word search: in every reachable state it
      returns the projections of exactly the newest `limit` live messages below the bound
      whose normalised words include every word of the query, whatever keys they were
      indexed under. */
  lemma SearchIsPlain(db: Db, user: Id, c: Id, text: string, q: Query)
    requires Reachable(db) && Readable(db, c, user)
    requires |text| <= 16384 && q.Valid() && !q.Ascending()
    requires Words(db.unicode, text) != {} && |Words(db.unicode, text)| <= QUERY_WORDS
    ensures var r := SearchSpec(db, user, c, text, q);
      && r.Ok? && Projects(db, r.value)
      && NewestOf(db.messages, c, Bound(db, c, q), q.limit, Containing(db, Words(db.unicode, text)), Ids(r.value))
  {
    hide Reachable, Checkpointed, Inv, SearchSpec, NewestOf, Projects, Containing;
    ReachableInv(db);
    SearchFinds(db, user, c, text, q);
  }
}
