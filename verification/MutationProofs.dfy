/** Edits, deletions, reactions and pins keep every invariant. */
module MutationProofs {
  import opened Basics
  import opened Text
  import opened Cryptography
  import opened Schema
  import opened Commands
  import opened Access
  import opened Mutations
  import opened Relations
  import opened Deltas
  import opened Invariants

  // ----- a row rewritten in place -----

  /** Everything a rewrite of one message leaves alone. */
  ghost predicate SameTables(a: Db, b: Db) {
    && a.now == b.now && a.keys == b.keys && a.settings == b.settings && a.unicode == b.unicode
    && a.users == b.users && a.members == b.members && a.pairs == b.pairs && a.order == b.order
    && a.receipts == b.receipts && a.objects == b.objects
  }

  /** One message was rewritten under its own header, with one event. */
  ghost predicate Rewritten(a: Db, b: Db, m: Id, r: Row, kind: EventKind) {
    && m in a.messages && SameHeader(a.messages[m], r) && r.version == a.messages[m].version + 1
    && r.conversation in a.conversations
    && MessageState(kind)
    && b.messages == a.messages[m := r] && SameTables(a, b)
    && a.attachments == b.attachments && a.links == b.links
    && SameConversations(a.conversations, b.conversations)
    && Appended(a, b, r.conversation, Envelope(kind, StateRefs(m, r)))
    && (forall x | x in a.messages && x != m ::
          && ReactionRows(a.reactions, x) == ReactionRows(b.reactions, x)
          && (x in a.pins <==> x in b.pins) && (x in a.pins ==> a.pins[x] == b.pins[x]))
  }

  lemma RewriteWrites(a: Db, b: Db, m: Id, r: Row, kind: EventKind)
    requires Rewritten(a, b, m, r, kind)
    ensures StateWrite(a, b, r.conversation, m, kind)
  {
  }

  lemma RewriteLog(a: Db, b: Db, m: Id, r: Row, kind: EventKind)
    requires Rewritten(a, b, m, r, kind)
    requires DenseLog(a.conversations, a.events, a.outbox) && Ledger(a.conversations, a.messages, a.events)
    ensures DenseLog(b.conversations, b.events, b.outbox) && Ledger(b.conversations, b.messages, b.events)
  {
    RewriteWrites(a, b, m, r, kind);
    AppendKeepsDense(a, b, r.conversation, Envelope(kind, StateRefs(m, r)));
    StateWriteKeepsLedger(a, b, r.conversation, m, kind);
  }

  lemma RewriteKeeps(a: Db, b: Db, m: Id, r: Row, kind: EventKind)
    requires Inv(a) && Rewritten(a, b, m, r, kind) && BodyOk(b.keys, m, r)
    requires Indexed(b.keys, b.unicode, b.messages, b.search) && Related(b.messages, b.reactions, b.pins)
    ensures Inv(b)
  {
    hide DenseLog, Ledger, Ordered, Tails, BodyOk, Indexed, Receipts, Related, Cursors, Governance, Files, SameIdentity, SameConversations, Appended;
    RewriteLog(a, b, m, r, kind);
    IdentityFrame(a, m, r);
    FilesFrame(a, m, r);
    HeaderFrameTails(a.conversations, a.messages, a.now, m, r);
    ConversationFrame(a.(messages := b.messages), b);
    var mid := a.(messages := b.messages);
    assert Cursors(mid.conversations, mid.members) && Governance(mid.conversations, mid.users, mid.members, mid.pairs);
  }

  // ----- Edit -----

  ghost predicate EditAccepted(db: Db, m: Id, content: Content) {
    && m in db.messages && db.messages[m].conversation in db.conversations
    && db.messages[m].Live(db.now) && db.messages[m].mtype == TextType
    && Scan(db, m).Ok? && Scan(db, m).value.status == Active
    && IndexOf(db.keys, db.unicode, content.text).Ok?
  }

  function EditDone(db: Db, m: Id, content: Content): Db
    requires m in db.messages && db.messages[m].conversation in db.conversations
    requires Scan(db, m).Ok? && IndexOf(db.keys, db.unicode, content.text).Ok?
  {
    Append(EditRows(db, m, content), db.messages[m].conversation, Envelope(MessageUpdated, StateRefs(m, EditedRow(db, m, content))))
  }

  lemma EditShape(db: Db, user: Id, m: Id, scope: Option<Id>, content: Content, expected: int)
    ensures var o := EditSpec(db, user, m, scope, content, expected);
      if o.result.Ok?
      then EditAccepted(db, m, content) && db.messages[m].version == expected && db.messages[m].sender == user
           && o.db == EditDone(db, m, content) && o.result == Scan(EditRows(db, m, content), m)
      else o.db == db
  {
  }

  lemma EditIndexed(keys: Keys, u: Unicode, messages: map<Id, Row>, search: map<(Id, Version), set<Token>>, m: Id, r: Row, v: Version)
    requires Indexed(keys, u, messages, search) && m in messages && r.deletedAt.None? && r.body.Some? && v in keys.search
    ensures Indexed(keys, u, messages[m := r], DropIndex(search, m)[(m, v) := Blind(v, WordsOf(u, r))])
  {
    var rows, index := messages[m := r], DropIndex(search, m)[(m, v) := Blind(v, WordsOf(u, r))];
    forall k | k in index && k.0 != m ensures IndexRowOk(keys, u, rows, k, index[k]) {
      assert IndexRowOk(keys, u, messages, k, search[k]);
    }
    forall x | x in rows && rows[x].deletedAt.None? ensures HasIndexRow(index, x) {
      if x == m {
        assert (x, v) in index;
      } else {
        assert HasIndexRow(search, x);
        var w :| (x, w) in search;
        assert (x, w) in index;
      }
    }
  }

  lemma UndeletedFrame(messages: map<Id, Row>, reactions: map<Reaction, Time>, pins: map<Id, Pin>, m: Id, r: Row)
    requires Related(messages, reactions, pins) && m in messages && SameHeader(messages[m], r)
    ensures Related(messages[m := r], reactions, pins)
  {
    assert forall x | x in reactions :: Undeleted(messages, x.message);
    assert forall x | x in pins :: Undeleted(messages, x);
  }

  lemma EditRewrites(db: Db, m: Id, content: Content)
    requires EditAccepted(db, m, content)
    ensures Rewritten(db, EditDone(db, m, content), m, EditedRow(db, m, content), MessageUpdated)
  {
  }

  lemma EditedBody(db: Db, m: Id, content: Content)
    requires EditAccepted(db, m, content) && db.keys.Valid()
    ensures BodyOk(db.keys, m, EditedRow(db, m, content))
    ensures EditedRow(db, m, content).body.Some? && WordsOf(db.unicode, EditedRow(db, m, content)) == Words(db.unicode, content.text)
  {
  }

  lemma EditKeeps(db: Db, m: Id, content: Content)
    requires Inv(db) && EditAccepted(db, m, content)
    ensures Inv(EditDone(db, m, content))
    ensures StateWrite(db, EditDone(db, m, content), db.messages[m].conversation, m, MessageUpdated)
  {
    var b, r := EditDone(db, m, content), EditedRow(db, m, content);
    EditRewrites(db, m, content);
    EditedBody(db, m, content);
    EditIndexed(db.keys, db.unicode, db.messages, db.search, m, r, db.keys.activeSearch);
    UndeletedFrame(db.messages, db.reactions, db.pins, m, r);
    RewriteKeeps(db, b, m, r, MessageUpdated);
    RewriteWrites(db, b, m, r, MessageUpdated);
  }

  // ----- React and SetPin -----

  function Bumped(r: Row): Row {
    r.(version := r.version + 1)
  }

  /** Reactions and pins of one message changed, nothing else. */
  ghost predicate RelationsOf(a: Db, b: Db, m: Id) {
    && b.(reactions := a.reactions, pins := a.pins) == a
    && (forall x: Reaction | x.message != m :: (x in a.reactions <==> x in b.reactions) && (x in a.reactions ==> a.reactions[x] == b.reactions[x]))
    && (forall x | x != m :: (x in a.pins <==> x in b.pins) && (x in a.pins ==> a.pins[x] == b.pins[x]))
  }

  function Settled(changed: Db, m: Id): Db
    requires m in changed.messages
  {
    changed.(messages := changed.messages[m := Bumped(changed.messages[m])])
  }

  function SettleDone(changed: Db, m: Id, kind: EventKind): Db
    requires m in changed.messages && changed.messages[m].conversation in changed.conversations
  {
    var r := Bumped(changed.messages[m]);
    Append(changed.(messages := changed.messages[m := r]), r.conversation, Envelope(kind, StateRefs(m, r)))
  }

  lemma OtherReactions(a: Db, b: Db, m: Id, x: Id)
    requires RelationsOf(a, b, m) && x != m
    ensures ReactionRows(a.reactions, x) == ReactionRows(b.reactions, x)
  {
    forall r ensures r in ReactionRows(a.reactions, x) <==> r in ReactionRows(b.reactions, x) {
      assert r.message != m || r.message == m;
    }
  }

  lemma SettleRewrites(a: Db, changed: Db, m: Id, kind: EventKind)
    requires m in a.messages && a.messages[m].conversation in a.conversations && MessageState(kind)
    requires RelationsOf(a, changed, m)
    ensures changed.messages == a.messages && changed.conversations == a.conversations
    ensures Rewritten(a, SettleDone(changed, m, kind), m, Bumped(a.messages[m]), kind)
  {
    var b, r := SettleDone(changed, m, kind), Bumped(a.messages[m]);
    forall x | x in a.messages && x != m
      ensures ReactionRows(a.reactions, x) == ReactionRows(b.reactions, x)
    {
      OtherReactions(a, changed, m, x);
    }
    SettleTables(a, changed, m, kind);
  }

  lemma SettleTables(a: Db, changed: Db, m: Id, kind: EventKind)
    requires m in a.messages && a.messages[m].conversation in a.conversations
    requires changed.(reactions := a.reactions, pins := a.pins) == a
    ensures changed.messages == a.messages && changed.conversations == a.conversations
    ensures var b, r := SettleDone(changed, m, kind), Bumped(a.messages[m]);
      && SameTables(a, b) && b.attachments == a.attachments && b.links == a.links
      && b.messages == a.messages[m := r] && SameConversations(a.conversations, b.conversations)
      && Appended(a, b, r.conversation, Envelope(kind, StateRefs(m, r)))
      && b.reactions == changed.reactions && b.pins == changed.pins && b.search == a.search
  {
  }

  lemma SameIndexed(keys: Keys, u: Unicode, messages: map<Id, Row>, search: map<(Id, Version), set<Token>>, m: Id, r: Row)
    requires Indexed(keys, u, messages, search) && m in messages && SameHeader(messages[m], r) && r.body == messages[m].body
    ensures Indexed(keys, u, messages[m := r], search)
  {
    forall k | k in search ensures IndexRowOk(keys, u, messages[m := r], k, search[k]) {
      assert IndexRowOk(keys, u, messages, k, search[k]);
    }
  }

  lemma SettleKeeps(a: Db, changed: Db, m: Id, kind: EventKind)
    requires Inv(a) && m in a.messages && a.messages[m].conversation in a.conversations && MessageState(kind)
    requires RelationsOf(a, changed, m) && Related(a.messages, changed.reactions, changed.pins)
    ensures changed.messages == a.messages && changed.conversations == a.conversations
    ensures Inv(SettleDone(changed, m, kind))
    ensures StateWrite(a, SettleDone(changed, m, kind), a.messages[m].conversation, m, kind)
  {
    hide Rewritten, DenseLog, Ledger, Ordered, Tails, Indexed, Receipts, Related, Cursors, Governance, Files, RelationsOf;
    var r := Bumped(a.messages[m]);
    SettleRewrites(a, changed, m, kind);
    SettleTablesOf(a, changed, m, kind);
    assert BodyOk(a.keys, m, a.messages[m]);
    SameIndexed(a.keys, a.unicode, a.messages, a.search, m, r);
    UndeletedFrame(a.messages, changed.reactions, changed.pins, m, r);
    RewriteKeeps(a, SettleDone(changed, m, kind), m, r, kind);
    RewriteWrites(a, SettleDone(changed, m, kind), m, r, kind);
  }

  lemma SettleTablesOf(a: Db, changed: Db, m: Id, kind: EventKind)
    requires m in a.messages && a.messages[m].conversation in a.conversations && RelationsOf(a, changed, m)
    ensures changed.messages == a.messages && changed.conversations == a.conversations
    ensures var b, r := SettleDone(changed, m, kind), Bumped(a.messages[m]);
      && SameTables(a, b) && b.messages == a.messages[m := r]
      && b.reactions == changed.reactions && b.pins == changed.pins && b.search == a.search
  {
    SettleTables(a, changed, m, kind);
  }

  // ----- the two relations -----

  function ReactDone(db: Db, x: Reaction, add: bool): Db
    requires x.message in db.messages && db.messages[x.message].conversation in db.conversations
  {
    SettleDone(WithReaction(db, x, add), x.message, if add then ReactionCreated else ReactionDeleted)
  }

  function PinDone(db: Db, m: Id, user: Id, add: bool): Db
    requires m in db.messages && db.messages[m].conversation in db.conversations
  {
    SettleDone(WithPin(db, m, user, add), m, if add then MessagePinned else MessageUnpinned)
  }

  /** The relation really changed: the message is live and the row was not there, or was. */
  predicate ReactionMoves(db: Db, x: Reaction, add: bool) {
    x.message in db.messages && db.messages[x.message].Live(db.now) && (add <==> x !in db.reactions)
  }

  lemma ReactShape(db: Db, user: Id, m: Id, scope: Option<Id>, raw: string, add: bool)
    ensures var o := ReactSpec(db, user, m, scope, raw, add);
      if o.result.Ok? && db.unicode.emoji(raw).Some? && ReactionMoves(db, Reaction(m, user, db.unicode.emoji(raw).value), add)
      then db.messages[m].conversation in db.conversations
           && var x := Reaction(m, user, db.unicode.emoji(raw).value);
              (add ==> ReactionFits(db, x)) && o.db == ReactDone(db, x, add) && o.result == Scan(Settled(WithReaction(db, x, add), m), m)
      else o.db == db
  {
    hide RelationAccess, ReactionFits, Scan;
  }

  /** Adding within the bound and removing both keep at most 32 kinds. */
  lemma ReactionKinds(db: Db, x: Reaction, add: bool, m: Id)
    requires |Kinds(ReactionRows(db.reactions, m))| <= 32 && (add && m == x.message ==> ReactionFits(db, x))
    ensures |Kinds(ReactionRows(WithReaction(db, x, add).reactions, m))| <= 32
  {
    var before, after := ReactionRows(db.reactions, m), ReactionRows(WithReaction(db, x, add).reactions, m);
    if add && m == x.message {
      assert after == before + {x};
      assert Kinds(after) == Kinds(before) + {x.emoji};
    } else {
      assert after <= before;
      assert Kinds(after) <= Kinds(before);
      SubsetSize(Kinds(after), Kinds(before));
    }
  }

  lemma ReactKeeps(db: Db, x: Reaction, add: bool)
    requires Inv(db) && x.message in db.messages && db.messages[x.message].conversation in db.conversations
    requires db.messages[x.message].Live(db.now) && (add ==> ReactionFits(db, x))
    ensures Inv(ReactDone(db, x, add))
    ensures StateWrite(db, ReactDone(db, x, add), db.messages[x.message].conversation, x.message, if add then ReactionCreated else ReactionDeleted)
  {
    var changed := WithReaction(db, x, add);
    forall m ensures |Kinds(ReactionRows(changed.reactions, m))| <= 32 { ReactionKinds(db, x, add, m); }
    RelationsAfter(db, x, add);
    SettleKeeps(db, changed, x.message, if add then ReactionCreated else ReactionDeleted);
  }

  lemma RelationsAfter(db: Db, x: Reaction, add: bool)
    requires Related(db.messages, db.reactions, db.pins) && Undeleted(db.messages, x.message)
    requires forall m :: |Kinds(ReactionRows(WithReaction(db, x, add).reactions, m))| <= 32
    ensures Related(db.messages, WithReaction(db, x, add).reactions, db.pins)
    ensures RelationsOf(db, WithReaction(db, x, add), x.message)
  {
    assert forall y | y in db.reactions :: Undeleted(db.messages, y.message);
  }

  predicate PinMoves(db: Db, m: Id, add: bool) {
    m in db.messages && db.messages[m].Live(db.now) && (add <==> m !in db.pins)
  }

  lemma SetPinShape(db: Db, user: Id, m: Id, scope: Option<Id>, add: bool)
    ensures var o := SetPinSpec(db, user, m, scope, add);
      if o.result.Ok? && PinMoves(db, m, add)
      then db.messages[m].conversation in db.conversations
           && o.db == PinDone(db, m, user, add) && o.result == Scan(Settled(WithPin(db, m, user, add), m), m)
      else o.db == db
  {
  }

  lemma SetPinKeeps(db: Db, m: Id, user: Id, add: bool)
    requires Inv(db) && m in db.messages && db.messages[m].conversation in db.conversations && db.messages[m].Live(db.now)
    ensures Inv(PinDone(db, m, user, add))
    ensures StateWrite(db, PinDone(db, m, user, add), db.messages[m].conversation, m, if add then MessagePinned else MessageUnpinned)
  {
    PinsAfter(db, m, user, add);
    SettleKeeps(db, WithPin(db, m, user, add), m, if add then MessagePinned else MessageUnpinned);
  }

  lemma PinsAfter(db: Db, m: Id, user: Id, add: bool)
    requires Related(db.messages, db.reactions, db.pins) && Undeleted(db.messages, m)
    ensures Related(db.messages, db.reactions, WithPin(db, m, user, add).pins)
    ensures RelationsOf(db, WithPin(db, m, user, add), m)
  {
    assert forall y | y in db.pins :: Undeleted(db.messages, y);
  }

  // ----- Delete -----

  function DeleteDone(db: Db, m: Id): Db
    requires m in db.messages && db.messages[m].conversation in db.conversations
  {
    Append(DeleteRows(db, m), db.messages[m].conversation, Envelope(MessageDeleted, StateRefs(m, Tombstone(db, m))))
  }

  lemma DeleteShape(db: Db, user: Id, m: Id, scope: Option<Id>)
    ensures var o := DeleteSpec(db, user, m, scope);
      if o.result.Ok? && db.messages[m].deletedAt.None?
      then m in db.messages && db.messages[m].sender == user && db.messages[m].conversation in db.conversations
           && o.db == DeleteDone(db, m) && o.result == Scan(DeleteRows(db, m), m)
      else o.db == db
  {
  }

  /** What the tail query finds: the greatest live sequence at or below `n`, or nothing. */
  lemma {:induction false} LatestLiveIs(convs: map<Id, Conversation>, messages: map<Id, Row>, order: map<(Id, int), Id>, now: Time, c: Id, n: int)
    requires Ordered(convs, messages, order)
    ensures match LatestLive(messages, order, now, c, n)
            case None => forall m | m in messages && messages[m].conversation == c && messages[m].sequence <= n :: !messages[m].Live(now)
            case Some(t) =>
              && t in messages && messages[t].conversation == c && messages[t].sequence <= n && messages[t].Live(now)
              && forall m | m in messages && messages[m].conversation == c && messages[m].sequence <= n && messages[m].Live(now) ::
                   messages[m].sequence <= messages[t].sequence
    decreases n
  {
    forall m | m in messages ensures Placed(messages, order, m) {}
    if n > 0 && !((c, n) in order && order[(c, n)] in messages && messages[order[(c, n)]].Live(now)) {
      LatestLiveIs(convs, messages, order, now, c, n - 1);
    }
  }

  lemma DeleteTails(convs: map<Id, Conversation>, after: map<Id, Conversation>, messages: map<Id, Row>, order: map<(Id, int), Id>, now: Time, m: Id, r: Row)
    requires Tails(convs, messages, now) && m in messages && r.conversation == messages[m].conversation && !r.Live(now)
    requires Ordered(convs, messages[m := r], order)
    requires after.Keys == convs.Keys && r.conversation in convs
    requires forall c | c in convs && c != r.conversation :: after[c] == convs[c]
    requires after[r.conversation].last == LatestLive(messages[m := r], order, now, r.conversation, convs[r.conversation].messageSequence)
    ensures Tails(after, messages[m := r], now)
  {
    var rows := messages[m := r];
    forall c | c in after ensures TailAt(after[c].last, rows, now, c) {
      if c == r.conversation {
        LatestLiveIs(convs, rows, order, now, c, convs[c].messageSequence);
        forall x | x in rows && rows[x].conversation == c ensures rows[x].sequence <= convs[c].messageSequence {
          assert Placed(rows, order, x);
        }
      } else {
        assert TailAt(convs[c].last, messages, now, c);
      }
    }
  }

  lemma DeleteIndexed(keys: Keys, u: Unicode, messages: map<Id, Row>, search: map<(Id, Version), set<Token>>, m: Id, r: Row)
    requires Indexed(keys, u, messages, search) && m in messages && r.deletedAt.Some?
    ensures Indexed(keys, u, messages[m := r], DropIndex(search, m))
  {
    var rows, index := messages[m := r], DropIndex(search, m);
    forall k | k in index ensures IndexRowOk(keys, u, rows, k, index[k]) {
      assert IndexRowOk(keys, u, messages, k, search[k]);
    }
    forall x | x in rows && rows[x].deletedAt.None? ensures HasIndexRow(index, x) {
      assert HasIndexRow(search, x);
      var w :| (x, w) in search;
      assert (x, w) in index;
    }
  }

  lemma DeleteRelated(db: Db, m: Id, r: Row)
    requires Related(db.messages, db.reactions, db.pins) && m in db.messages
    ensures Related(db.messages[m := r], DropRelations(db, m).reactions, DropRelations(db, m).pins)
  {
    var b := DropRelations(db, m);
    assert forall x | x in db.reactions :: Undeleted(db.messages, x.message);
    assert forall x | x in db.pins :: Undeleted(db.messages, x);
    forall x ensures |Kinds(ReactionRows(b.reactions, x))| <= 32 {
      assert ReactionRows(b.reactions, x) <= ReactionRows(db.reactions, x);
      assert Kinds(ReactionRows(b.reactions, x)) <= Kinds(ReactionRows(db.reactions, x));
      SubsetSize(Kinds(ReactionRows(b.reactions, x)), Kinds(ReactionRows(db.reactions, x)));
    }
  }

  lemma DeleteFiles(db: Db, m: Id, r: Row)
    requires Files(db.messages, db.attachments, db.objects, db.links) && m in db.messages
    ensures Files(db.messages[m := r], Detach(db, m).attachments, db.objects, Detach(db, m).links)
  {
    var b, rows := Detach(db, m), db.messages[m := r];
    forall a | a in b.attachments ensures AttachmentOk(rows, db.objects, b.links, a, b.attachments[a]) {
      assert AttachmentOk(db.messages, db.objects, db.links, a, db.attachments[a]);
    }
    forall a | a in b.links ensures a in b.attachments && Undeleted(rows, b.links[a]) { assert Undeleted(db.messages, db.links[a]); }
  }

  /** Detaching one message leaves every other projection alone. */
  lemma DetachViews(db: Db, m: Id, x: Id)
    requires x != m
    ensures Views(Detach(db, m).links, Detach(db, m).attachments, x) == Views(db.links, db.attachments, x)
  {
    assert LinkedTo(Detach(db, m).links, x) == LinkedTo(db.links, x);
  }

  lemma DeleteTables(db: Db, m: Id)
    requires m in db.messages && db.messages[m].conversation in db.conversations
    ensures var b, r := DeleteDone(db, m), Tombstone(db, m);
      && SameTables(db, b) && b.messages == db.messages[m := r] && b.search == DropIndex(db.search, m)
      && b.reactions == DropRelations(db, m).reactions && b.pins == DropRelations(db, m).pins
      && b.attachments == Detach(db, m).attachments && b.links == Detach(db, m).links
      && Appended(db, b, r.conversation, Envelope(MessageDeleted, StateRefs(m, r)))
      && b.conversations[r.conversation].last == LatestLive(b.messages, db.order, db.now, r.conversation, db.conversations[r.conversation].messageSequence)
      && b.conversations[r.conversation].messageSequence == db.conversations[r.conversation].messageSequence
      && b.conversations[r.conversation].ctype == db.conversations[r.conversation].ctype
  {
  }

  lemma DeleteUntouched(db: Db, m: Id, x: Id)
    requires m in db.messages && db.messages[m].conversation in db.conversations && x in db.messages && x != m
    ensures Untouched(db, DeleteDone(db, m), x)
  {
    hide DeleteDone, Detach, Appended;
    DeleteTables(db, m);
    DetachViews(db, m, x);
    assert ReactionRows(DropRelations(db, m).reactions, x) == ReactionRows(db.reactions, x);
  }

  lemma DeleteWrites(db: Db, m: Id)
    requires m in db.messages && db.messages[m].conversation in db.conversations
    ensures StateWrite(db, DeleteDone(db, m), db.messages[m].conversation, m, MessageDeleted)
  {
    hide DeleteDone, Appended, Untouched;
    DeleteTables(db, m);
    forall x | x in db.messages && x != m ensures Untouched(db, DeleteDone(db, m), x) {
      DeleteUntouched(db, m, x);
    }
  }

  lemma DeleteLog(db: Db, m: Id)
    requires DenseLog(db.conversations, db.events, db.outbox) && Ledger(db.conversations, db.messages, db.events)
    requires m in db.messages && db.messages[m].conversation in db.conversations
    ensures var b := DeleteDone(db, m); DenseLog(b.conversations, b.events, b.outbox) && Ledger(b.conversations, b.messages, b.events)
  {
    hide DeleteDone, DenseLog, Ledger;
    DeleteTables(db, m);
    DeleteWrites(db, m);
    AppendKeepsDense(db, DeleteDone(db, m), db.messages[m].conversation, Envelope(MessageDeleted, StateRefs(m, Tombstone(db, m))));
    StateWriteKeepsLedger(db, DeleteDone(db, m), db.messages[m].conversation, m, MessageDeleted);
  }

  lemma DeleteKeeps(db: Db, m: Id)
    requires Inv(db) && m in db.messages && db.messages[m].conversation in db.conversations
    ensures Inv(DeleteDone(db, m))
  {
    hide DeleteDone, DenseLog, Ledger, Ordered, Tails, Indexed, Receipts, Related, Cursors, Governance, Files, Detach, DropRelations, DropIndex, LatestLive;
    var b, r := DeleteDone(db, m), Tombstone(db, m);
    DeleteTables(db, m);
    DeleteLog(db, m);
    IdentityFrame(db, m, r);
    OrderedFrame(db.conversations, b.conversations, b.messages, b.order);
    DeleteTails(db.conversations, b.conversations, db.messages, db.order, db.now, m, r);
    DeleteIndexed(db.keys, db.unicode, db.messages, db.search, m, r);
    DeleteRelated(db, m, r);
    DeleteFiles(db, m, r);
    GovernanceFrame(db.conversations, b.conversations, db.users, db.members, db.pairs);
    CursorsFrame(db.conversations, b.conversations, db.members);
  }
}
