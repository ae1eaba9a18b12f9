/** What every reachable database satisfies, one predicate per concern. */
module Invariants {
  import opened Basics
  import opened Text
  import opened Cryptography
  import opened Schema
  import opened Access
  import opened Deltas

  // ----- message order and tail pointer -----

  /** Message sequences of a conversation are exactly 1..message_sequence. */
  ghost predicate Ordered(convs: map<Id, Conversation>, messages: map<Id, Row>, order: map<(Id, int), Id>) {
    && (forall c | c in convs :: 0 <= convs[c].messageSequence)
    && (forall k :: k in order <==> k.0 in convs && 1 <= k.1 <= convs[k.0].messageSequence)
    && (forall k | k in order :: order[k] in messages && messages[order[k]].conversation == k.0 && messages[order[k]].sequence == k.1)
    && (forall m | m in messages :: Placed(messages, order, m))
  }

  ghost predicate Placed(messages: map<Id, Row>, order: map<(Id, int), Id>, m: Id)
    requires m in messages
  {
    var k := (messages[m].conversation, messages[m].sequence);
    k in order && order[k] == m
  }

  /** last_message_id is null only when nothing is live, and otherwise names an undeleted
      message that no live message follows. */
  ghost predicate TailAt(last: Option<Id>, messages: map<Id, Row>, now: Time, c: Id) {
    match last
    case None => forall m | m in messages && messages[m].conversation == c :: !messages[m].Live(now)
    case Some(t) =>
      && t in messages && messages[t].conversation == c && messages[t].deletedAt.None?
      && forall m | m in messages && messages[m].conversation == c && messages[m].Live(now) :: messages[m].sequence <= messages[t].sequence
  }

  ghost predicate Tails(convs: map<Id, Conversation>, messages: map<Id, Row>, now: Time) {
    forall c | c in convs :: TailAt(convs[c].last, messages, now, c)
  }

  // ----- bodies and the blind index -----

  /** An undeleted row opens under the retained keys in its own context and agrees with
      its forward header; a deleted row holds no body. */
  ghost predicate BodyOk(keys: Keys, m: Id, r: Row) {
    if r.deletedAt.Some? then r.body.None? && r.reply.None?
    else
      && r.body.Some?
      && Open(keys, r.conversation, m, r.body.value) == Ok(r.body.value.payload)
      && HeaderAgrees(r, r.body.value.payload)
  }

  ghost predicate Bodies(keys: Keys, messages: map<Id, Row>) {
    forall m | m in messages :: BodyOk(keys, m, messages[m])
  }

  /** The words an undeleted message is found by. */
  ghost function WordsOf(u: Unicode, r: Row): set<string>
    requires r.body.Some?
  {
    Words(u, r.Searchable(r.body.value.payload))
  }

  ghost predicate IndexRowOk(keys: Keys, u: Unicode, messages: map<Id, Row>, k: (Id, Version), tokens: set<Token>) {
    && k.0 in messages && k.1 in keys.search
    && messages[k.0].deletedAt.None? && messages[k.0].body.Some?
    && tokens == Blind(k.1, WordsOf(u, messages[k.0]))
  }

  /** Every undeleted message has exactly one index row, for its current text; a deleted
      one has none. */
  ghost predicate Indexed(keys: Keys, u: Unicode, messages: map<Id, Row>, search: map<(Id, Version), set<Token>>) {
    && (forall k | k in search :: IndexRowOk(keys, u, messages, k, search[k]))
    && (forall k, l | k in search && l in search && k.0 == l.0 :: k == l)
    && (forall m | m in messages && messages[m].deletedAt.None? :: HasIndexRow(search, m))
  }

  ghost predicate HasIndexRow(search: map<(Id, Version), set<Token>>, m: Id) {
    exists v :: (m, v) in search
  }

  // ----- receipts, relations, cursors -----

  ghost predicate ReceiptOk(keys: Keys, messages: map<Id, Row>, k: (Id, Id), r: Receipt) {
    && r.message in messages && messages[r.message].conversation == r.conversation && messages[r.message].sender == k.0
    && r.fingerprint.version in keys.fingerprint
    && r.fingerprint.command.conversation == r.conversation && r.fingerprint.command.client == k.1
  }

  ghost predicate Receipts(keys: Keys, messages: map<Id, Row>, receipts: map<(Id, Id), Receipt>) {
    forall k | k in receipts :: ReceiptOk(keys, messages, k, receipts[k])
  }

  ghost predicate Undeleted(messages: map<Id, Row>, m: Id) {
    m in messages && messages[m].deletedAt.None?
  }

  /** Reactions and pins belong to undeleted messages, with at most 32 kinds each. */
  ghost predicate Related(messages: map<Id, Row>, reactions: map<Reaction, Time>, pins: map<Id, Pin>) {
    && (forall x | x in reactions :: Undeleted(messages, x.message))
    && (forall m | m in pins :: Undeleted(messages, m))
    && (forall m :: |Kinds(ReactionRows(reactions, m))| <= 32)
  }

  ghost predicate CursorOk(convs: map<Id, Conversation>, k: (Id, Id), m: Membership) {
    k.0 in convs && 0 <= m.read <= m.delivered <= convs[k.0].messageSequence
  }

  ghost predicate Cursors(convs: map<Id, Conversation>, members: map<(Id, Id), Membership>) {
    forall k | k in members :: CursorOk(convs, k, members[k])
  }

  // ----- governance -----

  ghost predicate HumanUser(users: map<Id, User>, u: Id) {
    u in users && users[u].kind == Human
  }

  /** A moderator row belongs to a human and never to a DIRECT conversation. */
  ghost predicate RoleOk(convs: map<Id, Conversation>, users: map<Id, User>, k: (Id, Id), m: Membership) {
    k.0 in convs && (m.role == Moderator ==> HumanUser(users, k.1) && convs[k.0].ctype != Direct)
  }

  ghost predicate Governed(members: map<(Id, Id), Membership>, c: Id) {
    exists u :: (c, u) in members && members[(c, u)].Governs()
  }

  ghost predicate PairOk(convs: map<Id, Conversation>, members: map<(Id, Id), Membership>, p: (Id, Id), c: Id) {
    && c in convs && convs[c].ctype == Direct && p.0.Below(p.1)
    && (forall u :: (c, u) in members <==> u == p.0 || u == p.1)
    && !members[(c, p.0)].left && !members[(c, p.1)].left
  }

  /** Every GROUP and CHANNEL has an active, unbanned moderator; every DIRECT belongs to
      exactly one pair, its two active members, and pairs never share a conversation. */
  ghost predicate Governance(convs: map<Id, Conversation>, users: map<Id, User>, members: map<(Id, Id), Membership>, pairs: map<(Id, Id), Id>) {
    && (forall k | k in members :: RoleOk(convs, users, k, members[k]))
    && (forall c | c in convs && convs[c].ctype != Direct :: Governed(members, c))
    && (forall p | p in pairs :: PairOk(convs, members, p, pairs[p]))
    && (forall c | c in convs && convs[c].ctype == Direct :: Paired(pairs, c))
  }

  ghost predicate Paired(pairs: map<(Id, Id), Id>, c: Id) {
    exists p :: p in pairs && pairs[p] == c
  }

  // ----- attachments -----

  ghost predicate AttachmentOk(messages: map<Id, Row>, objects: map<Id, StoredObject>, links: map<Id, Id>, a: Id, row: Attachment) {
    && row.objectId in objects
    && (row.status == AAttached <==> a in links)
    && (row.status == AAttached || row.status == AReady ==> objects[row.objectId].status == OReady)
    && (row.status != ADeleted ==> objects[row.objectId].status in {OUploading, OReady})
  }

  /** An attachment is attached exactly when it is linked to one undeleted message, and
      then its object is ready; a scheduled or deleted object has only deleted rows. */
  ghost predicate Files(messages: map<Id, Row>, attachments: map<Id, Attachment>, objects: map<Id, StoredObject>, links: map<Id, Id>) {
    && (forall a | a in attachments :: AttachmentOk(messages, objects, links, a, attachments[a]))
    && (forall a | a in links :: a in attachments && Undeleted(messages, links[a]))
  }

  // ----- all together -----

  ghost predicate Core(db: Db) {
    && db.keys.Valid() && db.settings.Valid()
    && DenseLog(db.conversations, db.events, db.outbox)
    && Ledger(db.conversations, db.messages, db.events)
    && Ordered(db.conversations, db.messages, db.order)
    && Tails(db.conversations, db.messages, db.now)
    && Bodies(db.keys, db.messages)
    && Indexed(db.keys, db.unicode, db.messages, db.search)
    && Receipts(db.keys, db.messages, db.receipts)
    && Related(db.messages, db.reactions, db.pins)
    && Cursors(db.conversations, db.members)
    && Governance(db.conversations, db.users, db.members, db.pairs)
  }

  ghost predicate Inv(db: Db) {
    Core(db) && Files(db.messages, db.attachments, db.objects, db.links)
  }

  /** In a reachable database every stored message can be projected. */
  lemma ScanSucceeds(db: Db, m: Id)
    requires Bodies(db.keys, db.messages) && m in db.messages
    ensures Scan(db, m).Ok?
  {
    assert BodyOk(db.keys, m, db.messages[m]);
  }

  // ----- frames -----

  /** The columns no content or relation change touches. */
  predicate SameHeader(r: Row, s: Row) {
    SameIdentity(r, s) && r.deletedAt == s.deletedAt
  }

  /** Replacing a row under the same identity keeps order and retry receipts. */
  lemma IdentityFrame(db: Db, m: Id, r: Row)
    requires m in db.messages && SameIdentity(db.messages[m], r)
    ensures Ordered(db.conversations, db.messages, db.order) ==> Ordered(db.conversations, db.messages[m := r], db.order)
    ensures Receipts(db.keys, db.messages, db.receipts) ==> Receipts(db.keys, db.messages[m := r], db.receipts)
  {
    var after := db.messages[m := r];
    if Ordered(db.conversations, db.messages, db.order) {
      forall x | x in after ensures Placed(after, db.order, x) { assert Placed(db.messages, db.order, x); }
    }
    if Receipts(db.keys, db.messages, db.receipts) {
      forall k | k in db.receipts ensures ReceiptOk(db.keys, after, k, db.receipts[k]) {
        assert ReceiptOk(db.keys, db.messages, k, db.receipts[k]);
      }
    }
  }

  lemma FilesFrame(db: Db, m: Id, r: Row)
    requires m in db.messages && SameHeader(db.messages[m], r)
    ensures Files(db.messages, db.attachments, db.objects, db.links) ==> Files(db.messages[m := r], db.attachments, db.objects, db.links)
  {
    var after := db.messages[m := r];
    if Files(db.messages, db.attachments, db.objects, db.links) {
      forall a | a in db.attachments ensures AttachmentOk(after, db.objects, db.links, a, db.attachments[a]) {
        assert AttachmentOk(db.messages, db.objects, db.links, a, db.attachments[a]);
      }
      forall a | a in db.links ensures Undeleted(after, db.links[a]) { assert Undeleted(db.messages, db.links[a]); }
    }
  }

  lemma HeaderFrameTails(convs: map<Id, Conversation>, messages: map<Id, Row>, now: Time, m: Id, r: Row)
    requires m in messages && SameHeader(messages[m], r) && Tails(convs, messages, now)
    ensures Tails(convs, messages[m := r], now)
  {
    forall c | c in convs ensures TailAt(convs[c].last, messages[m := r], now, c) {
      assert TailAt(convs[c].last, messages, now, c);
    }
  }

  /** The conversation columns the log cursor is independent of. */
  ghost predicate SameConversations(a: map<Id, Conversation>, b: map<Id, Conversation>) {
    && a.Keys == b.Keys
    && forall c | c in a ::
         && a[c].ctype == b[c].ctype && a[c].messageSequence == b[c].messageSequence && a[c].last == b[c].last
  }

  /** Moving log cursors and versions keeps every invariant that reads the other columns. */
  lemma ConversationFrame(a: Db, b: Db)
    requires SameConversations(a.conversations, b.conversations)
    requires a.messages == b.messages && a.order == b.order && a.now == b.now
    requires a.members == b.members && a.users == b.users && a.pairs == b.pairs
    ensures Ordered(a.conversations, a.messages, a.order) ==> Ordered(b.conversations, b.messages, b.order)
    ensures Tails(a.conversations, a.messages, a.now) ==> Tails(b.conversations, b.messages, b.now)
    ensures Cursors(a.conversations, a.members) ==> Cursors(b.conversations, b.members)
    ensures Governance(a.conversations, a.users, a.members, a.pairs) ==> Governance(b.conversations, b.users, b.members, b.pairs)
  {
    if Tails(a.conversations, a.messages, a.now) {
      forall c | c in b.conversations ensures TailAt(b.conversations[c].last, b.messages, b.now, c) {
        assert TailAt(a.conversations[c].last, a.messages, a.now, c);
      }
    }
    if Cursors(a.conversations, a.members) {
      CursorsFrame(a.conversations, b.conversations, a.members);
    }
    if Governance(a.conversations, a.users, a.members, a.pairs) {
      GovernanceFrame(a.conversations, b.conversations, a.users, a.members, a.pairs);
    }
  }

  lemma OrderedFrame(a: map<Id, Conversation>, b: map<Id, Conversation>, messages: map<Id, Row>, order: map<(Id, int), Id>)
    requires Ordered(a, messages, order) && a.Keys == b.Keys && forall c | c in a :: a[c].messageSequence == b[c].messageSequence
    ensures Ordered(b, messages, order)
  {
  }

  lemma CursorsFrame(a: map<Id, Conversation>, b: map<Id, Conversation>, members: map<(Id, Id), Membership>)
    requires Cursors(a, members) && a.Keys == b.Keys && forall c | c in a :: a[c].messageSequence <= b[c].messageSequence
    ensures Cursors(b, members)
  {
    forall k | k in members ensures CursorOk(b, k, members[k]) { assert CursorOk(a, k, members[k]); }
  }

  /** Conversation changes that keep the type of every conversation keep governance. */
  lemma GovernanceFrame(a: map<Id, Conversation>, b: map<Id, Conversation>, users: map<Id, User>,
                        members: map<(Id, Id), Membership>, pairs: map<(Id, Id), Id>)
    requires Governance(a, users, members, pairs)
    requires a.Keys == b.Keys && forall c | c in a :: a[c].ctype == b[c].ctype
    ensures Governance(b, users, members, pairs)
  {
    forall k | k in members ensures RoleOk(b, users, k, members[k]) { assert RoleOk(a, users, k, members[k]); }
    forall p | p in pairs ensures PairOk(b, members, p, pairs[p]) { assert PairOk(a, members, p, pairs[p]); }
  }
}
