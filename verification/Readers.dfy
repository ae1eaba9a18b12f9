/** Who may read a conversation, and what its pages show, said of the rows alone
    (internal/message/repository/postgres.go, recovery.go; internal/attachment/repository). */
module Readers {
  import opened Basics
  import opened Text
  import opened Cryptography
  import opened Schema
  import opened Access
  import opened Recovery
  import opened Relations
  import opened Reading
  import opened ReadingProofs
  import opened Attachments
  import opened Deltas
  import opened Invariants
  import opened Evolution
  import opened System
  import opened Convergence
  import opened Admission

  // ----- one message -----

  /** The stored payload belongs to this row: sealed for it under a retained key, and naming
      the source its header names. */
  predicate Authentic(db: Db, m: Id)
    requires m in db.messages
  {
    var r := db.messages[m];
    && r.body.Some?
    && r.body.value.version in db.keys.seal && r.body.value.conversation == r.conversation && r.body.value.message == m
    && (r.forwardedFrom.Some? ==> r.body.value.payload.origin.Some? && r.body.value.payload.origin.value.message == r.forwardedFrom.value)
  }

  /** In any database: a deleted or expired message is shown bare, whatever its row still
      holds; a live one with its payload and relations if the payload is authentic, and not
      at all otherwise. */
  lemma ScanAnswers(db: Db, m: Id)
    ensures var r := Scan(db, m);
      if m !in db.messages then r == Err(NotFound)
      else
        var row := db.messages[m];
        if row.deletedAt.Some? || row.expiresAt <= db.now
        then r == Ok(Message(m, HeaderOf(row), if row.deletedAt.Some? then Deleted else Expired, None, map[], None, None, {}, None, map[]))
        else if !Authentic(db, m) then r == Err(Crypto)
        else
          var p := row.body.value.payload;
          && r.Ok? && r.value.id == m && r.value.row == HeaderOf(row) && r.value.status == Active
          && r.value.content == Some(p.content) && r.value.metadata == p.metadata && r.value.origin == p.origin && r.value.reply == row.reply
          && (forall x :: x in r.value.reactions <==> x in db.reactions && x.message == m)
          && r.value.pin == (if m in db.pins then Some(PinView(db.pins[m].author, db.pins[m].at, row.version)) else None)
          && (forall a :: a in r.value.attachments <==> a in db.links && db.links[a] == m && a in db.attachments)
          && (forall a | a in r.value.attachments ::
                r.value.attachments[a] == AttachmentView(db.attachments[a].meta, db.attachments[a].status, db.attachments[a].expiresAt))
  {
  }

  // ----- history and search -----

  /** Backwards below `before`, or forwards above `after`, at most 101 rows. */
  predicate PageAsked(q: Query) {
    && 0 <= q.before && 0 <= q.after && 1 <= q.limit <= 101
    && (q.before == 0 || (q.after == 0 && !q.forward))
  }

  /** A history page is answered to current members and to nobody else. */
  lemma HistoryAnswers(db: Db, user: Id, c: Id, q: Query)
    requires Reachable(db)
    ensures var r := PageSpec(db, user, c, q, None);
      && (r.Ok? <==> PageAsked(q) && MayRead(db, c, user))
      && (r == Err(Invalid) <==> !PageAsked(q))
      && (r == Err(NotFound) <==> PageAsked(q) && !MayRead(db, c, user))
  {
    hide Reachable, PageRows, ScanAll;
    if PageAsked(q) && MayRead(db, c, user) { HistoryIs(db, user, c, q); }
  }

  /** One to eight words, backwards only. */
  predicate SearchAsked(db: Db, text: string, q: Query) {
    && |text| <= 16384 && 1 <= |Words(db.unicode, text)| <= 8
    && 0 <= q.before && q.after == 0 && !q.forward && 1 <= q.limit <= 101
  }

  lemma SearchAnswers(db: Db, user: Id, c: Id, text: string, q: Query)
    requires Reachable(db)
    ensures var r := SearchSpec(db, user, c, text, q);
      && (r.Ok? <==> SearchAsked(db, text, q) && MayRead(db, c, user))
      && (r == Err(Invalid) <==> !SearchAsked(db, text, q))
      && (r == Err(NotFound) <==> SearchAsked(db, text, q) && !MayRead(db, c, user))
  {
    hide Reachable, PageRows, ScanAll;
    if SearchAsked(db, text, q) && MayRead(db, c, user) { SearchIsPlain(db, user, c, text, q); }
  }

  // ----- replay -----

  lemma ReplayAnswers(db: Db, user: Id, c: Id, after: int, limit: int)
    requires Reachable(db)
    ensures var r := ReplaySpec(db, user, c, after, limit);
      && (r == Err(Invalid) <==> after < 0 || !(1 <= limit <= 100))
      && (r == Err(NotFound) <==> 0 <= after && 1 <= limit <= 100 && !MayRead(db, c, user))
      && (r == Err(Resync) <==>
            0 <= after && 1 <= limit <= 100 && MayRead(db, c, user) && after > db.conversations[c].eventSequence)
      && (r.Ok? <==> 0 <= after && 1 <= limit <= 100 && MayRead(db, c, user) && after <= db.conversations[c].eventSequence)
  {
    hide Reachable, Stored, HydrationError, Suffix;
    if 0 <= after && 1 <= limit <= 100 && MayRead(db, c, user) && after <= db.conversations[c].eventSequence {
      ReplayNeverFails(db, user, c, after, limit);
    }
  }

  /** Another member's acknowledgement. */
  predicate PeerReceipt(e: Envelope, user: Id) {
    (e.kind == MessageRead || e.kind == MessageDelivered) && e.refs.user != Some(user)
  }

  /** On any stored log, a page shows the events after the cursor as they were stored, with
      one exception: where read receipts are off, another member's receipt is shown as a bare
      advance of the cursor. */
  lemma PageShowsTheLog(db: Db, user: Id, c: Id, after: int, limit: int)
    ensures match ReplaySpec(db, user, c, after, limit)
            case Err(_) => true
            case Ok(page) =>
              forall i | 0 <= i < |page.events| ::
                && (c, after + 1 + i) in db.events
                && page.events[i].sequence == after + 1 + i
                && var e := db.events[(c, after + 1 + i)];
                   page.events[i].envelope ==
                     if ReadReceipts !in db.settings.flags && PeerReceipt(e, user) then Envelope(SyncAdvance, NOTHING) else e
  {
    hide HydrationError, Scan;
    var r := ReplaySpec(db, user, c, after, limit);
    if r.Ok? {
      forall i | 0 <= i < |r.value.events|
        ensures (c, after + 1 + i) in db.events && r.value.events[i] == Recovery.Shown(db, user, c, after + 1 + i)
      {}
    }
  }

  // ----- snapshot -----

  /** A snapshot is answered to current members and to nobody else; beside the messages it
      shows the conversation's counters and tail, the caller's own row, and exactly the live
      pinned messages. */
  lemma SnapshotAnswers(db: Db, user: Id, c: Id)
    requires Reachable(db)
    ensures var r := SnapshotSpec(db, user, c);
      && (r.Ok? <==> MayRead(db, c, user))
      && (r.Err? ==> r.error == NotFound)
      && (r.Ok? ==>
            && r.value.membership == db.members[(c, user)] && r.value.eventSequence == db.conversations[c].eventSequence
            && r.value.messageSequence == db.conversations[c].messageSequence && r.value.last == db.conversations[c].last
            && forall m :: m in r.value.pins <==>
                 && m in db.pins && m in db.messages && db.messages[m].conversation == c
                 && db.messages[m].deletedAt.None? && db.now < db.messages[m].expiresAt)
  {
    hide Reachable, Inv, Checkpointed, Newest, ScanAll;
    if MayRead(db, c, user) { SnapshotIs(db, user, c); }
  }

  // ----- attachments -----

  /** The link of an attached file to a live message of a conversation the user belongs to. */
  predicate SharedWith(db: Db, user: Id, a: Id) {
    && a in db.links && db.links[a] in db.messages
    && db.messages[db.links[a]].deletedAt.None? && db.now < db.messages[db.links[a]].expiresAt
    && (db.messages[db.links[a]].conversation, user) in db.members
    && !db.members[(db.messages[db.links[a]].conversation, user)].left
  }

  /** A file is served exactly to its uploader while it is ready, unexpired and not sent, and
      after that to the current members of the live message it belongs to; everybody else is
      told that it does not exist. */
  lemma FileAnswers(db: Db, user: Id, a: Id)
    requires Reachable(db)
    ensures var r := Authorize(db, user, a);
      && (r.Ok? <==>
            && db.settings.active && a in db.attachments
            && match db.attachments[a].status
               case AReady => db.attachments[a].uploader == user && db.now < db.attachments[a].expiresAt
               case AAttached => SharedWith(db, user, a)
               case _ => false)
      && (r.Ok? ==> r.value == db.attachments[a])
      && (r.Err? ==> r.error == NotFound)
  {
    hide Reachable, Core, Checkpointed;
    ReachableInv(db);
    if a in db.attachments { assert AttachmentOk(db.messages, db.objects, db.links, a, db.attachments[a]); }
  }
}
