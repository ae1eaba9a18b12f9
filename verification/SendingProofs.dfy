/** A new message keeps every invariant, whether sent or forwarded. */
module SendingProofs {
  import opened Basics
  import opened Text
  import opened Cryptography
  import opened Schema
  import opened Commands
  import opened Access
  import opened Sending
  import opened Deltas
  import opened Invariants

  // ----- which database a command leaves -----

  /** A first send that passed every check. */
  ghost predicate SendAccepted(db: Db, user: Id, c: Id, p: Command, id: Id) {
    && Bodied(p) && c in db.conversations && IndexOf(db.keys, db.unicode, SearchText(p)).Ok?
    && id !in db.messages
    && Retry(db, user, p.client, CanonicalOf(p, c)).None?
    && (Consumed(p).Some? ==> Attachable(db, user, Consumed(p).value) && Consumed(p).value !in db.links)
  }

  ghost predicate ForwardAccepted(db: Db, user: Id, c: Id, p: Command, id: Id, copy: Id, s: Source) {
    && c in db.conversations && IndexOf(db.keys, db.unicode, ForwardText(s.message.row.mtype, s.content)).Ok?
    && id !in db.messages && s.message.row.mtype != SystemType
    && p.forwardFrom == Some(s.message.id)
    && Retry(db, user, p.client, CanonicalOf(p, c)).None?
    && (ImageSource(s) <==> SharedBy(db, s).Some?)
    && (SharedBy(db, s).Some? ==>
          && copy !in db.attachments && copy !in db.links
          && SharedBy(db, s).value.objectId in db.objects && db.objects[SharedBy(db, s).value.objectId].status == OReady)
  }

  /** The answer of a first success; a retry answers with the deduplicated flag. */
  predicate First(r: Result<Sent>, id: Id) {
    r.Ok? && !r.value.deduplicated && r.value.message.id == id
  }

  lemma SendBodyShape(db: Db, user: Id, c: Id, p: Command, system: bool, id: Id)
    requires Bodied(p) && IndexOf(db.keys, db.unicode, SearchText(p)).Ok?
    ensures var o := SendBody(db, user, c, p, system, id);
      if First(o.result, id)
      then SendAccepted(db, user, c, p, id) && o.db == SendRows(db, user, c, p, id) && Scan(o.db, id) == Ok(o.result.value.message)
      else o.db == db && (o.result.Ok? ==> o.result.value.deduplicated)
  {
  }

  lemma SharedIsReady(db: Db, s: Source)
    ensures SharedBy(db, s).Some? ==>
              SharedBy(db, s).value.objectId in db.objects && db.objects[SharedBy(db, s).value.objectId].status == OReady
  {
  }

  lemma ForwardLeaves(db: Db, user: Id, c: Id, p: Command, id: Id, copy: Id)
    requires p.forwardFrom.Some?
    ensures var o := ForwardSpec(db, user, c, p, id, copy);
      if First(o.result, id)
      then ReadSource(db, user, p.forwardFrom.value).Ok?
           && var s := ReadSource(db, user, p.forwardFrom.value).value;
              && ForwardAccepted(db, user, c, p, id, copy, s) && o.db == ForwardRows(db, user, c, p, id, copy, s)
              && Scan(o.db, id) == Ok(o.result.value.message)
      else o.db == db && (o.result.Ok? ==> o.result.value.deduplicated)
  {
    var found := ReadSource(db, user, p.forwardFrom.value);
    if found.Ok? { SharedIsReady(db, found.value); }
  }

  // ----- the draft on its own -----

  ghost predicate DraftFits(db: Db, d: Draft) {
    && d.id !in db.messages && d.row.conversation in db.conversations
    && d.row.sequence == db.conversations[d.row.conversation].messageSequence + 1
    && d.row.version == 1 && d.row.deletedAt.None?
  }

  /** What the draft claims about itself: it opens, it is findable, its receipt fits. */
  ghost predicate DraftSound(keys: Keys, u: Unicode, d: Draft) {
    && BodyOk(keys, d.id, d.row) && d.row.body.Some?
    && d.version in keys.search && d.tokens == Blind(d.version, WordsOf(u, d.row))
    && d.receipt.message == d.id && d.receipt.conversation == d.row.conversation && d.row.sender == d.owner.0
    && d.receipt.fingerprint.version in keys.fingerprint
    && d.receipt.fingerprint.command.conversation == d.row.conversation
    && d.receipt.fingerprint.command.client == d.owner.1
  }

  lemma InsertAppends(db: Db, d: Draft)
    requires DraftFits(db, d)
    ensures Appended(db, Insert(db, d), d.row.conversation, Envelope(MessageCreated, StateRefs(d.id, d.row)))
    ensures Insert(db, d).messages == db.messages[d.id := d.row]
    ensures StateWrite(db, Insert(db, d), d.row.conversation, d.id, MessageCreated)
  {
  }

  lemma InsertOrdered(convs: map<Id, Conversation>, messages: map<Id, Row>, order: map<(Id, int), Id>, d: Draft, after: map<Id, Conversation>)
    requires Ordered(convs, messages, order) && d.id !in messages
    requires d.row.conversation in convs && d.row.sequence == convs[d.row.conversation].messageSequence + 1
    requires after.Keys == convs.Keys
    requires forall c | c in convs ::
               after[c].messageSequence == if c == d.row.conversation then d.row.sequence else convs[c].messageSequence
    ensures Ordered(after, messages[d.id := d.row], order[(d.row.conversation, d.row.sequence) := d.id])
  {
    var rows, index := messages[d.id := d.row], order[(d.row.conversation, d.row.sequence) := d.id];
    forall m | m in rows ensures Placed(rows, index, m) {
      if m != d.id { assert Placed(messages, order, m); }
    }
  }

  /** A new message is the tail of its conversation and of no other. */
  lemma InsertTails(convs: map<Id, Conversation>, messages: map<Id, Row>, order: map<(Id, int), Id>, now: Time, d: Draft, c: Id, last: Option<Id>)
    requires Ordered(convs, messages, order) && Tails(convs, messages, now)
    requires d.id !in messages && d.row.deletedAt.None? && d.row.conversation in convs && c in convs
    requires d.row.sequence == convs[d.row.conversation].messageSequence + 1
    requires last == if c == d.row.conversation then Some(d.id) else convs[c].last
    ensures TailAt(last, messages[d.id := d.row], now, c)
  {
    assert TailAt(convs[c].last, messages, now, c);
    if c == d.row.conversation {
      forall m | m in messages && messages[m].conversation == c ensures messages[m].sequence <= d.row.sequence {
        assert Placed(messages, order, m);
      }
    }
  }

  lemma InsertIndexed(keys: Keys, u: Unicode, messages: map<Id, Row>, search: map<(Id, Version), set<Token>>, d: Draft)
    requires Indexed(keys, u, messages, search) && d.id !in messages && DraftSound(keys, u, d) && d.row.deletedAt.None?
    ensures Indexed(keys, u, messages[d.id := d.row], search[(d.id, d.version) := d.tokens])
  {
    var rows, index := messages[d.id := d.row], search[(d.id, d.version) := d.tokens];
    forall k | k in search ensures k.0 != d.id && IndexRowOk(keys, u, rows, k, search[k]) {
      assert IndexRowOk(keys, u, messages, k, search[k]);
    }
    forall m | m in rows && rows[m].deletedAt.None? ensures HasIndexRow(index, m) {
      if m == d.id {
        assert (m, d.version) in index;
      } else {
        assert HasIndexRow(search, m);
        var v :| (m, v) in search;
        assert (m, v) in index;
      }
    }
  }

  lemma InsertReceipts(keys: Keys, u: Unicode, messages: map<Id, Row>, receipts: map<(Id, Id), Receipt>, d: Draft)
    requires Receipts(keys, messages, receipts) && d.id !in messages && DraftSound(keys, u, d)
    ensures Receipts(keys, messages[d.id := d.row], receipts[d.owner := d.receipt])
  {
    var rows := messages[d.id := d.row];
    forall k | k in receipts ensures ReceiptOk(keys, rows, k, receipts[k]) {
      assert ReceiptOk(keys, messages, k, receipts[k]);
    }
  }

  lemma InsertRelated(messages: map<Id, Row>, reactions: map<Reaction, Time>, pins: map<Id, Pin>, d: Draft)
    requires Related(messages, reactions, pins) && d.row.deletedAt.None?
    ensures Related(messages[d.id := d.row], reactions, pins)
  {
    assert forall x | x in reactions :: Undeleted(messages, x.message);
    assert forall m | m in pins :: Undeleted(messages, m);
  }

  lemma InsertKeepsLog(db: Db, d: Draft)
    requires DenseLog(db.conversations, db.events, db.outbox) && Ledger(db.conversations, db.messages, db.events)
    requires DraftFits(db, d)
    ensures var b := Insert(db, d); DenseLog(b.conversations, b.events, b.outbox) && Ledger(b.conversations, b.messages, b.events)
  {
    InsertAppends(db, d);
    AppendKeepsDense(db, Insert(db, d), d.row.conversation, Envelope(MessageCreated, StateRefs(d.id, d.row)));
    StateWriteKeepsLedger(db, Insert(db, d), d.row.conversation, d.id, MessageCreated);
  }

  lemma InsertKeepsTails(db: Db, d: Draft)
    requires Ordered(db.conversations, db.messages, db.order) && Tails(db.conversations, db.messages, db.now) && DraftFits(db, d)
    ensures var b := Insert(db, d); Tails(b.conversations, b.messages, b.now)
  {
    hide Ordered, TailAt;
    var b := Insert(db, d);
    forall c | c in b.conversations ensures TailAt(b.conversations[c].last, b.messages, b.now, c) {
      InsertTails(db.conversations, db.messages, db.order, db.now, d, c, b.conversations[c].last);
    }
  }

  lemma InsertKeepsCore(db: Db, d: Draft)
    requires Core(db) && DraftFits(db, d) && DraftSound(db.keys, db.unicode, d)
    ensures Core(Insert(db, d))
  {
    hide DenseLog, Ledger, Ordered, Tails, BodyOk, Indexed, Receipts, Related, Cursors, Governance;
    InsertKeepsLog(db, d);
    InsertOrdered(db.conversations, db.messages, db.order, d, Insert(db, d).conversations);
    InsertKeepsTails(db, d);
    InsertIndexed(db.keys, db.unicode, db.messages, db.search, d);
    InsertReceipts(db.keys, db.unicode, db.messages, db.receipts, d);
    InsertRelated(db.messages, db.reactions, db.pins, d);
    CursorsFrame(db.conversations, Insert(db, d).conversations, db.members);
    GovernanceFrame(db.conversations, Insert(db, d).conversations, db.users, db.members, db.pairs);
  }

  // ----- attachments of the new message -----

  /** Linking a fresh attachment to one message leaves every other projection alone. */
  lemma LinkViews(links: map<Id, Id>, attachments: map<Id, Attachment>, a: Id, row: Attachment, m: Id, x: Id)
    requires a !in links && x != m
    ensures Views(links[a := m], attachments[a := row], x) == Views(links, attachments, x)
  {
    assert LinkedTo(links[a := m], x) == LinkedTo(links, x);
  }

  lemma LinkFiles(messages: map<Id, Row>, attachments: map<Id, Attachment>, objects: map<Id, StoredObject>, links: map<Id, Id>,
                  d: Draft, a: Id, row: Attachment)
    requires Files(messages, attachments, objects, links) && d.id !in messages && d.row.deletedAt.None?
    requires row.status == AAttached && row.objectId in objects && objects[row.objectId].status == OReady
    ensures Files(messages[d.id := d.row], attachments[a := row], objects, links[a := d.id])
  {
    var rows := messages[d.id := d.row];
    forall x | x in attachments && x != a ensures AttachmentOk(rows, objects, links[a := d.id], x, attachments[x]) {
      assert AttachmentOk(messages, objects, links, x, attachments[x]);
    }
  }

  lemma PlainFiles(messages: map<Id, Row>, attachments: map<Id, Attachment>, objects: map<Id, StoredObject>, links: map<Id, Id>, d: Draft)
    requires Files(messages, attachments, objects, links) && d.id !in messages && d.row.deletedAt.None?
    ensures Files(messages[d.id := d.row], attachments, objects, links)
  {
    var rows := messages[d.id := d.row];
    forall x | x in attachments ensures AttachmentOk(rows, objects, links, x, attachments[x]) {
      assert AttachmentOk(messages, objects, links, x, attachments[x]);
    }
  }

  /** Only the message's own retry receipt and the attachment it links differ. */
  ghost predicate Prepared(a: Db, b: Db, m: Id, linked: Option<Id>) {
    && b.(receipts := a.receipts, attachments := a.attachments, links := a.links) == a
    && b.receipts.Keys <= a.receipts.Keys && (forall k | k in b.receipts :: b.receipts[k] == a.receipts[k])
    && match linked
       case None => b.attachments == a.attachments && b.links == a.links
       case Some(x) =>
         && x !in a.links && x in b.attachments && b.attachments == a.attachments[x := b.attachments[x]]
         && b.links == a.links[x := m]
         && b.attachments[x].status == AAttached
         && b.attachments[x].objectId in a.objects && a.objects[b.attachments[x].objectId].status == OReady
  }

  lemma PreparedCore(a: Db, b: Db, m: Id, linked: Option<Id>)
    requires Core(a) && Prepared(a, b, m, linked)
    ensures Core(b)
  {
    hide DenseLog, Ledger, Ordered, Tails, BodyOk, Indexed, ReceiptOk, Related, Cursors, Governance;
  }

  lemma NewMessageKeeps(db: Db, pre: Db, d: Draft, linked: Option<Id>)
    requires Inv(db) && Prepared(db, pre, d.id, linked) && DraftFits(db, d) && DraftSound(db.keys, db.unicode, d)
    ensures Inv(Insert(pre, d))
  {
    hide Core, Files, DraftSound;
    PreparedCore(db, pre, d.id, linked);
    InsertKeepsCore(pre, d);
    match linked
    case None => PlainFiles(db.messages, db.attachments, db.objects, db.links, d);
    case Some(x) => LinkFiles(db.messages, db.attachments, db.objects, db.links, d, x, pre.attachments[x]);
  }

  lemma NewMessageWrites(db: Db, pre: Db, d: Draft, linked: Option<Id>)
    requires Prepared(db, pre, d.id, linked) && DraftFits(db, d)
    ensures StateWrite(db, Insert(pre, d), d.row.conversation, d.id, MessageCreated)
  {
    InsertAppends(pre, d);
    hide Insert;
    if linked.Some? {
      forall x | x in db.messages && x != d.id ensures Views(pre.links, pre.attachments, x) == Views(db.links, db.attachments, x) {
        LinkViews(db.links, db.attachments, linked.value, pre.attachments[linked.value], d.id, x);
      }
    }
  }

  // ----- Send -----

  function SendDraft(db: Db, user: Id, c: Id, p: Command, id: Id): Draft
    requires Bodied(p) && IndexOf(db.keys, db.unicode, SearchText(p)).Ok? && c in db.conversations
  {
    var (version, tokens) := IndexOf(db.keys, db.unicode, SearchText(p)).value;
    Draft(id, NewRow(db, user, c, p, id), version, tokens, (user, p.client), MakeReceipt(db, id, c, CanonicalOf(p, c)))
  }

  lemma SendDraftSound(db: Db, user: Id, c: Id, p: Command, id: Id)
    requires SendAccepted(db, user, c, p, id) && db.keys.Valid()
    ensures var d := SendDraft(db, user, c, p, id);
      DraftFits(db, d) && DraftSound(db.keys, db.unicode, d)
  {
  }

  lemma SendPrepared(db: Db, user: Id, c: Id, p: Command, id: Id)
    requires SendAccepted(db, user, c, p, id)
    ensures Prepared(db, Attach(Forget(db, user, p.client), id, Consumed(p)), id, Consumed(p))
  {
    var pre := Attach(Forget(db, user, p.client), id, Consumed(p));
    assert pre.(receipts := db.receipts, attachments := db.attachments, links := db.links) == db;
  }

  /** A first accepted send keeps every invariant and is one write of one message. */
  lemma SendKeeps(db: Db, user: Id, c: Id, p: Command, id: Id)
    requires Inv(db) && SendAccepted(db, user, c, p, id)
    ensures Inv(SendRows(db, user, c, p, id))
    ensures StateWrite(db, SendRows(db, user, c, p, id), c, id, MessageCreated)
  {
    var d := SendDraft(db, user, c, p, id);
    var pre := Attach(Forget(db, user, p.client), id, Consumed(p));
    SendDraftSound(db, user, c, p, id);
    SendPrepared(db, user, c, p, id);
    assert SendRows(db, user, c, p, id) == Insert(pre, d);
    NewMessageKeeps(db, pre, d, Consumed(p));
    NewMessageWrites(db, pre, d, Consumed(p));
  }

  // ----- forward -----

  function ForwardDraft(db: Db, user: Id, c: Id, p: Command, id: Id, s: Source): Draft
    requires IndexOf(db.keys, db.unicode, ForwardText(s.message.row.mtype, s.content)).Ok? && c in db.conversations
  {
    var (version, tokens) := IndexOf(db.keys, db.unicode, ForwardText(s.message.row.mtype, s.content)).value;
    Draft(id, ForwardRow(db, user, c, id, s), version, tokens, (user, p.client), MakeReceipt(db, id, c, CanonicalOf(p, c)))
  }

  lemma ForwardDraftSound(db: Db, user: Id, c: Id, p: Command, id: Id, copy: Id, s: Source)
    requires ForwardAccepted(db, user, c, p, id, copy, s) && db.keys.Valid()
    ensures var d := ForwardDraft(db, user, c, p, id, s);
      DraftFits(db, d) && DraftSound(db.keys, db.unicode, d)
  {
  }

  function CopyId(shared: Option<Attachment>, copy: Id): Option<Id> {
    if shared.Some? then Some(copy) else None
  }

  lemma CopyPrepared(db: Db, user: Id, client: Id, id: Id, copy: Id, shared: Option<Attachment>)
    requires shared.Some? ==>
               && copy !in db.links && copy !in db.attachments
               && shared.value.objectId in db.objects && db.objects[shared.value.objectId].status == OReady
    ensures Prepared(db, Copy(Forget(db, user, client), user, id, copy, shared), id, CopyId(shared, copy))
  {
    var pre := Copy(Forget(db, user, client), user, id, copy, shared);
    assert pre.(receipts := db.receipts, attachments := db.attachments, links := db.links) == db;
  }

  lemma ForwardKeeps(db: Db, user: Id, c: Id, p: Command, id: Id, copy: Id, s: Source)
    requires Inv(db) && ForwardAccepted(db, user, c, p, id, copy, s)
    ensures Inv(ForwardRows(db, user, c, p, id, copy, s))
    ensures StateWrite(db, ForwardRows(db, user, c, p, id, copy, s), c, id, MessageCreated)
  {
    var d := ForwardDraft(db, user, c, p, id, s);
    var linked := CopyId(SharedBy(db, s), copy);
    var pre := Copy(Forget(db, user, p.client), user, id, copy, SharedBy(db, s));
    ForwardDraftSound(db, user, c, p, id, copy, s);
    CopyPrepared(db, user, p.client, id, copy, SharedBy(db, s));
    assert ForwardRows(db, user, c, p, id, copy, s) == Insert(pre, d);
    NewMessageKeeps(db, pre, d, linked);
    NewMessageWrites(db, pre, d, linked);
  }
}
