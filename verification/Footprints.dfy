/** The tables each operation leaves alone. */
module Footprints {
  import opened Basics
  import opened Schema
  import opened Commands
  import opened Sending
  import opened Mutations
  import opened Relations
  import opened Recovery
  import opened Memberships
  import opened Attachments
  import opened Deltas
  import opened Invariants
  import opened SendingProofs
  import opened MutationProofs
  import opened MembershipProofs

  ghost predicate SameMembers(a: Db, b: Db) {
    a.members == b.members && a.pairs == b.pairs
  }

  /** An attached row already shares the object of `row`. */
  ghost predicate Shares(rows: map<Id, Attachment>, row: Attachment) {
    exists y :: y in rows && rows[y].status == AAttached && rows[y].objectId == row.objectId
  }

  /** Stored objects stay as they are; logical rows never move to another object, a row
      that is not consumed yet is an old one, and a new row shares an attached object. */
  ghost predicate ObjectsStay(a: Db, b: Db) {
    && b.objects == a.objects
    && (forall x | x in a.attachments :: x in b.attachments && b.attachments[x].objectId == a.attachments[x].objectId)
    && (forall x | x in b.attachments && Unconsumed(b.attachments[x]) :: x in a.attachments && a.attachments[x] == b.attachments[x])
    && (forall x | x in b.attachments && x !in a.attachments :: Shares(a.attachments, b.attachments[x]))
  }

  ghost predicate SameType(a: Db, b: Db, c: Id) {
    c in a.conversations && c in b.conversations && a.conversations[c].ctype == b.conversations[c].ctype
  }

  /** A change of one message by an edit, a deletion or a relation. */
  ghost predicate MessageOnly(a: Db, b: Db, c: Id) {
    SameMembers(a, b) && ObjectsStay(a, b) && a.receipts == b.receipts && SameType(a, b, c)
  }

  /** What a new message leaves: members, objects, the clock and every other receipt. */
  ghost predicate NewMessage(a: Db, b: Db, c: Id, owner: (Id, Id), r: Receipt) {
    SameMembers(a, b) && ObjectsStay(a, b) && SameType(a, b, c) && b.now == a.now && b.receipts == a.receipts[owner := r]
  }

  lemma InsertFootprint(db: Db, pre: Db, d: Draft, linked: Option<Id>)
    requires Prepared(db, pre, d.id, linked) && DraftFits(db, d) && pre.receipts == db.receipts - {d.owner}
    requires linked.Some? && linked.value in db.attachments ==>
               pre.attachments[linked.value].objectId == db.attachments[linked.value].objectId
    requires linked.Some? && linked.value !in db.attachments ==> Shares(db.attachments, pre.attachments[linked.value])
    ensures NewMessage(db, Insert(pre, d), d.row.conversation, d.owner, d.receipt)
  {
  }

  lemma SendFootprint(db: Db, user: Id, c: Id, p: Command, id: Id)
    requires SendAccepted(db, user, c, p, id)
    ensures NewMessage(db, SendRows(db, user, c, p, id), c, (user, p.client), MakeReceipt(db, id, c, CanonicalOf(p, c)))
  {
    var d := SendDraft(db, user, c, p, id);
    var pre := Attach(Forget(db, user, p.client), id, Consumed(p));
    SendPrepared(db, user, c, p, id);
    AttachReceipts(db, user, p.client, id, Consumed(p));
    assert SendRows(db, user, c, p, id) == Insert(pre, d);
    assert DraftFits(db, d);
    hide Prepared, Insert, NewMessage, Retry;
    InsertFootprint(db, pre, d, Consumed(p));
  }

  lemma AttachReceipts(db: Db, user: Id, client: Id, id: Id, linked: Option<Id>)
    ensures var pre := Attach(Forget(db, user, client), id, linked);
      && pre.receipts == db.receipts - {(user, client)}
      && (linked.Some? && linked.value in db.attachments ==>
            linked.value in pre.attachments && pre.attachments[linked.value].objectId == db.attachments[linked.value].objectId)
  {
    var mid := Forget(db, user, client);
    assert mid.receipts == db.receipts - {(user, client)} && mid.attachments == db.attachments;
    hide Forget;
  }

  lemma ForwardFootprint(db: Db, user: Id, c: Id, p: Command, id: Id, copy: Id, s: Source)
    requires ForwardAccepted(db, user, c, p, id, copy, s)
    ensures NewMessage(db, ForwardRows(db, user, c, p, id, copy, s), c, (user, p.client), MakeReceipt(db, id, c, CanonicalOf(p, c)))
  {
    var d := ForwardDraft(db, user, c, p, id, s);
    var linked := CopyId(SharedBy(db, s), copy);
    var pre := Copy(Forget(db, user, p.client), user, id, copy, SharedBy(db, s));
    CopyPrepared(db, user, p.client, id, copy, SharedBy(db, s));
    assert ForwardRows(db, user, c, p, id, copy, s) == Insert(pre, d);
    assert DraftFits(db, d);
    assert pre.receipts == db.receipts - {(user, p.client)};
    hide Prepared, Insert, NewMessage, Retry, SharedBy;
    InsertFootprint(db, pre, d, linked);
  }

  lemma EditFootprint(db: Db, m: Id, content: Content)
    requires EditAccepted(db, m, content)
    ensures MessageOnly(db, EditDone(db, m, content), db.messages[m].conversation)
  {
  }

  lemma DeleteFootprint(db: Db, m: Id)
    requires m in db.messages && db.messages[m].conversation in db.conversations
    ensures MessageOnly(db, DeleteDone(db, m), db.messages[m].conversation)
  {
    DeleteTables(db, m);
    hide DeleteDone;
  }

  lemma SettleFootprint(db: Db, changed: Db, m: Id, kind: EventKind)
    requires m in db.messages && db.messages[m].conversation in db.conversations
    requires changed.(reactions := db.reactions, pins := db.pins) == db
    ensures changed.messages == db.messages && changed.conversations == db.conversations
    ensures MessageOnly(db, SettleDone(changed, m, kind), db.messages[m].conversation)
  {
    SettleTables(db, changed, m, kind);
    hide SettleDone;
  }

  /** A change of members or of the conversation itself. */
  ghost predicate MembersOnly(a: Db, b: Db) {
    a.receipts == b.receipts && a.objects == b.objects && a.attachments == b.attachments
  }

  lemma RowFootprint(db: Db, c: Id, user: Id, m: Membership, e: Envelope)
    requires c in db.conversations
    ensures MembersOnly(db, Append(db.(members := db.members[(c, user) := m]), c, e))
  {
  }

  lemma PatchedFootprint(db: Db, c: Id)
    requires c in db.conversations
    ensures MembersOnly(db, PatchedRows(db, c)) && SameMembers(db, PatchedRows(db, c))
  {
  }

  lemma {:induction false} AdmitFootprint(db: Db, c: Id, users: seq<Id>)
    requires c in db.conversations
    ensures MembersOnly(db, AdmitAll(db, c, users))
    decreases |users|
  {
    if users != [] {
      assert MembersOnly(db, AdmitOne(db, c, users[0]));
      AdmitFootprint(AdmitOne(db, c, users[0]), c, users[1..]);
    }
  }

  lemma CreatedFootprint(db: Db, actor: Id, ctype: ConversationType, others: seq<Id>, id: Id)
    requires ctype == Direct ==> |others| == 1
    ensures MembersOnly(db, CreatedRows(db, actor, ctype, others, id))
  {
  }
}
