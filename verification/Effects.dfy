/** What the caller of a message operation gets back and finds in the database. */
module Effects {
  import opened Basics
  import opened Text
  import opened Cryptography
  import opened Schema
  import opened Commands
  import opened Sending
  import opened Mutations
  import opened Relations
  import opened Deltas
  import opened Invariants
  import opened SendingProofs
  import opened MutationProofs
  import opened Evolution
  import opened System

  /** The tail of the conversation, its counters and the one event a new message adds. */
  ghost predicate Sequenced(a: Db, b: Db, c: Id, m: Id) {
    && c in a.conversations && c in b.conversations && m in b.messages && m !in a.messages
    && b.conversations[c] == a.conversations[c].(messageSequence := a.conversations[c].messageSequence + 1,
                                                 eventSequence := a.conversations[c].eventSequence + 1, last := Some(m))
    && b.messages == a.messages[m := b.messages[m]]
    && var key := (c, b.conversations[c].eventSequence);
       b.events == a.events[key := Envelope(MessageCreated, StateRefs(m, b.messages[m]))]
  }

  /** A new message as it is answered: next sequence, version 1, alive for the retention. */
  function NewMessage(db: Db, c: Id, user: Id, id: Id, mtype: MessageType, p: Payload, reply: Option<Id>, files: map<Id, AttachmentView>): Message
    requires c in db.conversations
  {
    Message(id,
            Header(c, user, mtype, db.conversations[c].messageSequence + 1, 1, db.now, db.now + db.settings.retentionDays * DAY, None, None),
            Active, Some(p.content), p.metadata, p.origin, reply, {}, None, files)
  }

  lemma InsertIsSequenced(db: Db, pre: Db, d: Draft, linked: Option<Id>)
    requires Prepared(db, pre, d.id, linked) && DraftFits(db, d)
    ensures Sequenced(db, Insert(pre, d), d.row.conversation, d.id) && Insert(pre, d).attachments == pre.attachments
  {
  }

  /** A freshly inserted row projects to its own payload, with no relations yet. */
  lemma InsertShows(db: Db, pre: Db, d: Draft, linked: Option<Id>)
    requires Prepared(db, pre, d.id, linked) && DraftFits(db, d) && DraftSound(db.keys, db.unicode, d)
    requires Related(db.messages, db.reactions, db.pins) && d.row.expiresAt > db.now
    ensures var p := d.row.body.value.payload;
      Scan(Insert(pre, d), d.id) == Ok(Message(d.id, HeaderOf(d.row), Active, Some(p.content), p.metadata, p.origin, d.row.reply,
                                               {}, None, Views(pre.links, pre.attachments, d.id)))
  {
    var b := Insert(pre, d);
    assert b.messages[d.id] == d.row && b.links == pre.links && b.attachments == pre.attachments && b.now == db.now && b.keys == db.keys;
    assert b.reactions == db.reactions && b.pins == db.pins;
    hide Insert;
    assert forall x | x in db.reactions :: Undeleted(db.messages, x.message);
    assert forall x | x in db.pins :: Undeleted(db.messages, x);
    assert ReactionRows(db.reactions, d.id) == {};
  }

  function ShownFile(pre: Db, linked: Option<Id>): map<Id, AttachmentView>
    requires linked.Some? ==> linked.value in pre.attachments
  {
    match linked
    case None => map[]
    case Some(x) => map[x := AttachmentView(pre.attachments[x].meta, AAttached, pre.attachments[x].expiresAt)]
  }

  lemma OnlyLink(links: map<Id, Id>, m: Id, x: Id)
    requires forall a | a in links :: links[a] != m
    ensures LinkedTo(links, m) == {} && LinkedTo(links[x := m], m) == {x}
  {
  }

  /** Nothing was linked to an unknown message, so a new message shows what it links. */
  lemma FreshViews(db: Db, pre: Db, m: Id, linked: Option<Id>)
    requires Prepared(db, pre, m, linked) && Files(db.messages, db.attachments, db.objects, db.links) && m !in db.messages
    ensures Views(pre.links, pre.attachments, m) == ShownFile(pre, linked)
  {
    forall x | x in db.links ensures db.links[x] != m { assert Undeleted(db.messages, db.links[x]); }
    hide Files;
    if linked.Some? { OnlyLink(db.links, m, linked.value); } else { OnlyLink(db.links, m, m); }
    hide LinkedTo;
  }

  lemma DraftDelivers(db: Db, pre: Db, d: Draft, linked: Option<Id>)
    requires Inv(db) && Prepared(db, pre, d.id, linked) && DraftFits(db, d) && DraftSound(db.keys, db.unicode, d)
    requires d.row.expiresAt > db.now
    ensures Sequenced(db, Insert(pre, d), d.row.conversation, d.id) && Insert(pre, d).attachments == pre.attachments
    ensures var p := d.row.body.value.payload;
      Scan(Insert(pre, d), d.id) == Ok(Message(d.id, HeaderOf(d.row), Active, Some(p.content), p.metadata, p.origin, d.row.reply,
                                               {}, None, ShownFile(pre, linked)))
  {
    hide DenseLog, Ledger, Ordered, Tails, Bodies, Indexed, Receipts, Related, Cursors, Governance, Files;
    hide Insert, Prepared, DraftSound, Scan, Views, ShownFile, Sequenced;
    InsertIsSequenced(db, pre, d, linked);
    InsertShows(db, pre, d, linked);
    FreshViews(db, pre, d.id, linked);
  }

  lemma RetentionIsPositive(db: Db)
    requires Inv(db)
    ensures db.settings.retentionDays * DAY > 0 && db.keys.Valid()
  {
    hide DenseLog, Ledger, Ordered, Tails, Bodies, Indexed, Receipts, Related, Cursors, Governance, Files;
  }

  // ----- Send -----

  /** Send round trip: the answer of a first success is exactly the command's content,
      metadata and reply read back from the stored ciphertext, under the next sequence; its
      IMAGE attachment becomes attached; the conversation gains this message and its event. */
  lemma SendDelivers(db: Db, user: Id, c: Id, p: Command, system: bool, id: Id, copy: Id, o: Outcome<Sent>)
    requires Reachable(db) && p.forwardFrom.None? && o == SendSpec(db, user, c, p, system, id, copy) && First(o.result, id)
    ensures Bodied(p) && c in db.conversations && Sequenced(db, o.db, c, id)
    ensures Consumed(p).Some? ==>
              && Consumed(p).value in db.attachments && Consumed(p).value in o.db.attachments
              && o.db.attachments[Consumed(p).value] == db.attachments[Consumed(p).value].(status := AAttached)
    ensures o.result.value.message ==
              NewMessage(db, c, user, id, p.typeName.t, Payload(p.content, Mapped(p.metadata), None), p.reply, ShownFile(o.db, Consumed(p)))
    ensures Scan(o.db, id) == Ok(o.result.value.message)
  {
    hide Reachable, Checkpointed, Inv, SendBody, ForwardSpec, Retry, IndexOf, Scan, DraftSound, Prepared, Insert;
    ReachableInv(db);
    SendBodyShape(db, user, c, p, system, id);
    var d, linked := SendDraft(db, user, c, p, id), Consumed(p);
    var pre := Attach(Forget(db, user, p.client), id, linked);
    RetentionIsPositive(db);
    SendDraftSound(db, user, c, p, id);
    SendPrepared(db, user, c, p, id);
    AttachedRow(db, user, p.client, id, linked);
    hide Attach, Forget;
    DraftDelivers(db, pre, d, linked);
  }

  lemma AttachedRow(db: Db, user: Id, client: Id, id: Id, linked: Option<Id>)
    requires linked.Some? ==> linked.value in db.attachments
    ensures linked.Some? ==>
              && linked.value in Attach(Forget(db, user, client), id, linked).attachments
              && Attach(Forget(db, user, client), id, linked).attachments[linked.value] == db.attachments[linked.value].(status := AAttached)
  {
  }

  // ----- forward -----

  /** What a forward copies is the source's current projection; a chain keeps its first
      sender. */
  lemma SourceIs(db: Db, user: Id, m: Id)
    requires ReadSource(db, user, m).Ok?
    ensures var s := ReadSource(db, user, m).value;
      && m in db.messages && db.messages[m].Live(db.now) && Scan(db, m) == Ok(s.message) && s.message.id == m
      && s.message.content == Some(s.content)
      && s.sender.id == (if s.message.origin.Some? then s.message.origin.value.sender.id else s.message.row.sender)
  {
    assert Scan(db, m).Ok? ==> Scan(db, m).value.id == m;
    hide Scan;
  }

  /** Every attachment linked to an IMAGE source is the row the forward copies. */
  lemma SharedIsLinked(db: Db, s: Source, a: Id)
    requires SharedBy(db, s).Some? && a in LinkedTo(db.links, s.message.id) && a in db.attachments
    ensures db.attachments[a] == SharedBy(db, s).value
  {
    var b := Only(LinkedTo(db.links, s.message.id));
  }

  lemma CopiedRow(db: Db, user: Id, client: Id, id: Id, copy: Id, shared: Option<Attachment>)
    requires shared.Some?
    ensures copy in Copy(Forget(db, user, client), user, id, copy, shared).attachments
    ensures Copy(Forget(db, user, client), user, id, copy, shared).attachments[copy] ==
              shared.value.(uploader := user, status := AAttached, expiresAt := db.now + db.settings.retentionDays * DAY)
  {
  }

  lemma ForwardRowsDeliver(db: Db, user: Id, c: Id, p: Command, id: Id, copy: Id, s: Source)
    requires Inv(db) && ForwardAccepted(db, user, c, p, id, copy, s)
    ensures var b := ForwardRows(db, user, c, p, id, copy, s);
      && Sequenced(db, b, c, id)
      && (ImageSource(s) ==>
            && SharedBy(db, s).Some? && copy !in db.attachments && copy in b.attachments
            && b.attachments[copy] == SharedBy(db, s).value.(uploader := user, status := AAttached, expiresAt := db.now + db.settings.retentionDays * DAY))
      && Scan(b, id) == Ok(NewMessage(db, c, user, id, s.message.row.mtype, Payload(s.content, map[], Some(Origin(s.message.id, s.sender))), None,
                                      ShownFile(b, if ImageSource(s) then Some(copy) else None)))
  {
    hide Inv, Retry, IndexOf, Scan, DraftSound, Prepared, Insert, SharedBy;
    var d, shared := ForwardDraft(db, user, c, p, id, s), SharedBy(db, s);
    var linked := CopyId(shared, copy);
    var pre := Copy(Forget(db, user, p.client), user, id, copy, shared);
    RetentionIsPositive(db);
    ForwardDraftSound(db, user, c, p, id, copy, s);
    CopyPrepared(db, user, p.client, id, copy, shared);
    if shared.Some? { CopiedRow(db, user, p.client, id, copy, shared); }
    hide Copy, Forget, LinkedTo;
    DraftDelivers(db, pre, d, linked);
  }

  /** A forward shows the source's current content under the target's own sequence, without
      its metadata and reply, and names the source and its original sender; an IMAGE gets
      its own attachment row, owned by the forwarder, over the source's object. */
  lemma ForwardDelivers(db: Db, user: Id, c: Id, p: Command, id: Id, copy: Id, o: Outcome<Sent>, s: Source)
    requires Reachable(db) && p.forwardFrom.Some? && o == ForwardSpec(db, user, c, p, id, copy) && First(o.result, id)
    requires ReadSource(db, user, p.forwardFrom.value) == Ok(s)
    ensures c in db.conversations && Sequenced(db, o.db, c, id)
    ensures var m := p.forwardFrom.value;
      && m in db.messages && db.messages[m].Live(db.now) && Scan(db, m) == Ok(s.message) && s.message.content == Some(s.content)
      && s.sender.id == (if s.message.origin.Some? then s.message.origin.value.sender.id else s.message.row.sender)
    ensures ImageSource(s) ==>
              && copy !in db.attachments && copy in o.db.attachments && o.db.attachments[copy].uploader == user
              && forall a | a in LinkedTo(db.links, p.forwardFrom.value) && a in db.attachments ::
                   o.db.attachments[copy].objectId == db.attachments[a].objectId
    ensures (ImageSource(s) ==> copy in o.db.attachments) &&
            o.result.value.message ==
              NewMessage(db, c, user, id, s.message.row.mtype, Payload(s.content, map[], Some(Origin(p.forwardFrom.value, s.sender))), None,
                         ShownFile(o.db, if ImageSource(s) then Some(copy) else None))
    ensures Scan(o.db, id) == Ok(o.result.value.message)
  {
    SourceIs(db, user, p.forwardFrom.value);
    hide Reachable, Checkpointed, Inv, Retry, Scan, ForwardSpec, ReadSource, SharedBy, ForwardRows, Sequenced, NewMessage, ShownFile, LinkedTo;
    ReachableInv(db);
    ForwardLeaves(db, user, c, p, id, copy);
    ForwardRowsDeliver(db, user, c, p, id, copy, s);
    if ImageSource(s) {
      forall a | a in LinkedTo(db.links, s.message.id) && a in db.attachments ensures db.attachments[a] == SharedBy(db, s).value {
        SharedIsLinked(db, s, a);
      }
    }
  }

  // ----- edit, delete, react, pin -----

  /** The message as an edit shows it. */
  function Rewritten(before: Message, content: Content, now: Time): Message {
    before.(content := Some(content), row := before.row.(version := before.row.version + 1, editedAt := Some(now)),
            pin := Repinned(before.pin, before.row.version + 1))
  }

  function Repinned(pin: Option<PinView>, version: int): Option<PinView> {
    if pin.Some? then Some(pin.value.(version := version)) else None
  }

  lemma EditedScan(db: Db, m: Id, content: Content)
    requires EditAccepted(db, m, content) && db.keys.Valid()
    ensures Scan(EditRows(db, m, content), m) == Ok(Rewritten(Scan(db, m).value, content, db.now))
    ensures Scan(EditDone(db, m, content), m) == Scan(EditRows(db, m, content), m)
  {
  }

  /** An edit answers the message as it was, with the new text, the next version and the
      edit time; metadata, origin, reply, reactions, pin and attachments stay. */
  lemma EditDelivers(db: Db, user: Id, m: Id, scope: Option<Id>, content: Content, expected: int)
    requires db.keys.Valid() && EditSpec(db, user, m, scope, content, expected).result.Ok?
    ensures var o := EditSpec(db, user, m, scope, content, expected);
      && Scan(db, m).Ok? && Scan(db, m).value.row.version == expected && Scan(db, m).value.row.sender == user
      && o.result == Ok(Rewritten(Scan(db, m).value, content, db.now)) && Scan(o.db, m) == o.result
  {
    hide EditSpec, IndexOf, EditRows, EditDone;
    EditShape(db, user, m, scope, content, expected);
    EditedScan(db, m, content);
    hide Scan, Rewritten;
    ScanHeader(db, m);
  }

  lemma ScanHeader(db: Db, m: Id)
    requires Scan(db, m).Ok?
    ensures m in db.messages && Scan(db, m).value.row == HeaderOf(db.messages[m])
  {
  }

  /** A deletion answers the bare tombstone: no content, relation or attachment is left to
      see, its attachment rows are terminal and its index rows are gone. */
  lemma DeleteDelivers(db: Db, user: Id, m: Id, scope: Option<Id>)
    requires DeleteSpec(db, user, m, scope).result.Ok? && db.messages[m].deletedAt.None?
    ensures var o := DeleteSpec(db, user, m, scope);
      && m in db.messages && m in o.db.messages && db.messages[m].sender == user
      && o.result == Ok(Message(m, HeaderOf(Tombstone(db, m)), Deleted, None, map[], None, None, {}, None, map[])) && Scan(o.db, m) == o.result
      && o.db.messages[m].body.None?
      && ReactionRows(o.db.reactions, m) == {} && m !in o.db.pins && LinkedTo(o.db.links, m) == {}
      && (forall a | a in LinkedTo(db.links, m) && a in db.attachments :: a in o.db.attachments && o.db.attachments[a].status == ADeleted)
      && (forall v :: (m, v) !in o.db.search)
  {
    hide DeleteSpec, LatestLive;
    DeleteShape(db, user, m, scope);
    DeleteTables(db, m);
    DeletedScan(db, m);
    hide DeleteDone, Scan, Appended;
  }

  lemma DeletedScan(db: Db, m: Id)
    requires m in db.messages && db.messages[m].conversation in db.conversations
    ensures Scan(DeleteRows(db, m), m) == Ok(Message(m, HeaderOf(Tombstone(db, m)), Deleted, None, map[], None, None, {}, None, map[]))
    ensures Scan(DeleteDone(db, m), m) == Scan(DeleteRows(db, m), m)
  {
    hide LatestLive, Detach;
  }

  /** The message with other relations and the next version. */
  function WithRelations(before: Message, reactions: set<Reaction>, pin: Option<PinView>): Message {
    before.(row := before.row.(version := before.row.version + 1), reactions := reactions, pin := pin)
  }

  lemma SettledScan(db: Db, changed: Db, m: Id, kind: EventKind)
    requires m in db.messages && db.messages[m].Live(db.now) && db.messages[m].conversation in db.conversations && Scan(db, m).Ok?
    requires changed.(reactions := db.reactions, pins := db.pins) == db
    ensures m in changed.messages && changed.conversations == db.conversations && changed.messages == db.messages
    ensures Scan(Settled(changed, m), m) ==
              Ok(WithRelations(Scan(db, m).value, ReactionRows(changed.reactions, m), PinOf(changed, m, Scan(db, m).value.row.version + 1)))
    ensures Scan(SettleDone(changed, m, kind), m) == Scan(Settled(changed, m), m)
  {
  }

  /** A changing reaction answers the same message with that one row added or removed. */
  lemma ReactDelivers(db: Db, user: Id, m: Id, scope: Option<Id>, raw: string, add: bool, x: Reaction)
    requires Reachable(db) && ReactSpec(db, user, m, scope, raw, add).result.Ok?
    requires db.unicode.emoji(raw) == Some(x.emoji) && x.message == m && x.user == user && ReactionMoves(db, x, add)
    ensures var o := ReactSpec(db, user, m, scope, raw, add);
      && Scan(db, m).Ok? && Scan(o.db, m) == o.result
      && o.result == Ok(WithRelations(Scan(db, m).value,
                                if add then ReactionRows(db.reactions, m) + {x} else ReactionRows(db.reactions, m) - {x},
                                Repinned(Scan(db, m).value.pin, Scan(db, m).value.row.version + 1)))
  {
    hide Reachable, Checkpointed, Inv, ReactSpec, ReactDone, Settled, ReactionFits, Scan, WithReaction, WithRelations, ReactionRows, Repinned;
    ReachableInv(db);
    MessageScans(db, m);
    ReactShape(db, user, m, scope, raw, add);
    assert x == Reaction(m, user, x.emoji);
    ReactedScan(db, x, add);
  }

  lemma ReactedScan(db: Db, x: Reaction, add: bool)
    requires x.message in db.messages && db.messages[x.message].conversation in db.conversations && Scan(db, x.message).Ok?
    requires db.messages[x.message].Live(db.now)
    ensures var m, before := x.message, Scan(db, x.message).value;
      Scan(Settled(WithReaction(db, x, add), m), m) ==
        Ok(WithRelations(before, if add then ReactionRows(db.reactions, m) + {x} else ReactionRows(db.reactions, m) - {x},
                         Repinned(before.pin, before.row.version + 1)))
    ensures Scan(ReactDone(db, x, add), x.message) == Scan(Settled(WithReaction(db, x, add), x.message), x.message)
  {
    hide SettleDone, Settled;
    SettledScan(db, WithReaction(db, x, add), x.message, if add then ReactionCreated else ReactionDeleted);
    ReactedRows(db, x, add);
    ScanPin(db, x.message);
    hide Scan;
  }

  lemma MessageScans(db: Db, m: Id)
    requires Inv(db) && m in db.messages
    ensures Scan(db, m).Ok?
  {
    ScanSucceeds(db, m);
  }

  lemma ReactedRows(db: Db, x: Reaction, add: bool)
    ensures ReactionRows(WithReaction(db, x, add).reactions, x.message) ==
              if add then ReactionRows(db.reactions, x.message) + {x} else ReactionRows(db.reactions, x.message) - {x}
    ensures WithReaction(db, x, add).pins == db.pins
  {
  }

  lemma ScanPin(db: Db, m: Id)
    requires Scan(db, m).Ok? && m in db.messages && db.messages[m].Live(db.now)
    ensures Scan(db, m).value.pin == PinOf(db, m, Scan(db, m).value.row.version)
    ensures Scan(db, m).value.reactions == ReactionRows(db.reactions, m)
  {
  }

  /** A changing pin answers the same message pinned by its new author, or unpinned. */
  lemma PinDelivers(db: Db, user: Id, m: Id, scope: Option<Id>, add: bool)
    requires Reachable(db) && SetPinSpec(db, user, m, scope, add).result.Ok? && PinMoves(db, m, add)
    ensures var o := SetPinSpec(db, user, m, scope, add);
      && Scan(db, m).Ok? && Scan(o.db, m) == o.result
      && o.result == Ok(WithRelations(Scan(db, m).value, Scan(db, m).value.reactions,
                                if add then Some(PinView(user, db.now, Scan(db, m).value.row.version + 1)) else None))
  {
    hide Reachable, Checkpointed, Inv, SetPinSpec, SettleDone, Settled;
    ReachableInv(db);
    MessageScans(db, m);
    SetPinShape(db, user, m, scope, add);
    SettledScan(db, WithPin(db, m, user, add), m, if add then MessagePinned else MessageUnpinned);
    ScanPin(db, m);
    hide Scan;
  }
}
