/** Uploads, the cleaner, configuration and the clock keep every invariant and change no
    projection except through the clock. */
module OperationsProofs {
  import opened Basics
  import opened Cryptography
  import opened Schema
  import opened Attachments
  import opened Deltas
  import opened Invariants

  /** Only the attachment tables differ, and no linked attachment does. */
  ghost predicate FilesOnly(a: Db, b: Db) {
    && b.(attachments := a.attachments, objects := a.objects) == a
    && forall x | x in a.links :: x in a.attachments && x in b.attachments && a.attachments[x] == b.attachments[x]
  }

  lemma FilesOnlyQuiet(a: Db, b: Db)
    requires FilesOnly(a, b)
    ensures Quiet(a, b)
  {
    forall m | m in a.messages ensures Untouched(a, b, m) {
      assert Views(a.links, a.attachments, m) == Views(b.links, b.attachments, m);
    }
  }

  lemma FilesOnlyKeeps(a: Db, b: Db)
    requires Inv(a) && FilesOnly(a, b) && Files(b.messages, b.attachments, b.objects, b.links)
    ensures Inv(b)
  {
    hide DenseLog, Ledger, Ordered, Tails, BodyOk, Indexed, Receipts, Related, Cursors, Governance, Files;
  }

  lemma BeginShape(db: Db, actor: Id, a: Id, o: Id, meta: Meta, global: int)
    ensures var r := BeginSpec(db, actor, a, o, meta, global);
      r.db == db || (a !in db.attachments && o !in db.objects && r.db == BeginRows(db, actor, a, o, meta))
  {
  }

  lemma BeginKeeps(db: Db, actor: Id, a: Id, o: Id, meta: Meta)
    requires Inv(db) && a !in db.attachments && o !in db.objects
    ensures var b := BeginRows(db, actor, a, o, meta); Inv(b) && Quiet(db, b)
  {
    var b := BeginRows(db, actor, a, o, meta);
    BeginFiles(db, actor, a, o, meta);
    FilesOnlyQuiet(db, b);
    FilesOnlyKeeps(db, b);
  }

  lemma BeginFiles(db: Db, actor: Id, a: Id, o: Id, meta: Meta)
    requires Files(db.messages, db.attachments, db.objects, db.links) && a !in db.attachments && o !in db.objects
    ensures var b := BeginRows(db, actor, a, o, meta);
      FilesOnly(db, b) && Files(b.messages, b.attachments, b.objects, b.links)
  {
    var b := BeginRows(db, actor, a, o, meta);
    assert b.(attachments := db.attachments, objects := db.objects) == db;
    forall x | x in b.attachments ensures AttachmentOk(b.messages, b.objects, b.links, x, b.attachments[x]) {
      if x != a { assert AttachmentOk(db.messages, db.objects, db.links, x, db.attachments[x]); }
    }
  }

  lemma ReadyFiles(db: Db, actor: Id, a: Id)
    requires Files(db.messages, db.attachments, db.objects, db.links) && CanBecomeReady(db, actor, a)
    ensures var b := ReadyRows(db, a);
      FilesOnly(db, b) && Files(b.messages, b.attachments, b.objects, b.links)
  {
    var b := ReadyRows(db, a);
    assert b.(attachments := db.attachments, objects := db.objects) == db;
    assert AttachmentOk(db.messages, db.objects, db.links, a, db.attachments[a]);
    forall x | x in b.attachments ensures AttachmentOk(b.messages, b.objects, b.links, x, b.attachments[x]) {
      assert AttachmentOk(db.messages, db.objects, db.links, x, db.attachments[x]);
    }
  }

  lemma ReadyKeeps(db: Db, actor: Id, a: Id)
    requires Inv(db) && CanBecomeReady(db, actor, a)
    ensures var b := ReadyRows(db, a); Inv(b) && Quiet(db, b)
  {
    ReadyFiles(db, actor, a);
    FilesOnlyQuiet(db, ReadyRows(db, a));
    FilesOnlyKeeps(db, ReadyRows(db, a));
  }

  lemma ClaimFiles(db: Db, o: Id)
    requires Files(db.messages, db.attachments, db.objects, db.links) && Claimable(db, o)
    ensures var b := ClaimRows(db, o);
      FilesOnly(db, b) && Files(b.messages, b.attachments, b.objects, b.links)
  {
    var b := ClaimRows(db, o);
    assert b.(attachments := db.attachments, objects := db.objects) == db;
    forall x | x in b.attachments ensures AttachmentOk(b.messages, b.objects, b.links, x, b.attachments[x]) {
      assert AttachmentOk(db.messages, db.objects, db.links, x, db.attachments[x]);
      assert Of(db, x, o) && db.attachments[x].status == AAttached ==> Referenced(db, o);
    }
    forall x | x in db.links ensures x in b.attachments && b.attachments[x] == db.attachments[x] {
      assert AttachmentOk(db.messages, db.objects, db.links, x, db.attachments[x]);
    }
  }

  lemma ClaimKeeps(db: Db, o: Id)
    requires Inv(db) && Claimable(db, o)
    ensures var b := ClaimRows(db, o); Inv(b) && Quiet(db, b)
  {
    ClaimFiles(db, o);
    FilesOnlyQuiet(db, ClaimRows(db, o));
    FilesOnlyKeeps(db, ClaimRows(db, o));
  }

  lemma FinishFiles(db: Db, o: Id)
    requires Files(db.messages, db.attachments, db.objects, db.links)
    ensures var b := FinishRows(db, o);
      FilesOnly(db, b) && Files(b.messages, b.attachments, b.objects, b.links)
  {
    if o in db.objects && db.objects[o].status == OPendingDelete {
      var objects := db.objects[o := db.objects[o].(status := ODeleted)];
      assert FinishRows(db, o) == db.(objects := objects);
      forall x | x in db.attachments ensures AttachmentOk(db.messages, objects, db.links, x, db.attachments[x]) {
        assert AttachmentOk(db.messages, db.objects, db.links, x, db.attachments[x]);
      }
    }
  }

  lemma FinishKeeps(db: Db, o: Id)
    requires Inv(db)
    ensures var b := FinishRows(db, o); Inv(b) && Quiet(db, b)
  {
    FinishFiles(db, o);
    FilesOnlyQuiet(db, FinishRows(db, o));
    FilesOnlyKeeps(db, FinishRows(db, o));
  }

  // ----- configuration and clock -----

  lemma SettingsKeep(db: Db, s: Settings)
    requires Inv(db) && s.Valid()
    ensures Inv(db.(settings := s)) && Quiet(db, db.(settings := s))
  {
    hide DenseLog, Ledger, Ordered, Tails, BodyOk, Indexed, Receipts, Related, Cursors, Governance, Files;
  }

  /** A rotation that retains old versions keeps every stored row readable. */
  lemma RotateKeeps(db: Db, k: Keys)
    requires Inv(db) && db.keys.RetainedBy(k)
    ensures Inv(db.(keys := k)) && Quiet(db, db.(keys := k))
  {
    hide DenseLog, Ledger, Ordered, Tails, Related, Cursors, Governance, Files;
    var b := db.(keys := k);
    forall m | m in b.messages ensures BodyOk(k, m, b.messages[m]) { assert BodyOk(db.keys, m, db.messages[m]); }
    forall x | x in b.search ensures IndexRowOk(k, b.unicode, b.messages, x, b.search[x]) {
      assert IndexRowOk(db.keys, b.unicode, b.messages, x, b.search[x]);
    }
    forall x | x in b.receipts ensures ReceiptOk(k, b.messages, x, b.receipts[x]) {
      assert ReceiptOk(db.keys, b.messages, x, b.receipts[x]);
    }
  }

  /** A user appears, is renamed, banned or unbanned; the kind of an account is fixed. */
  lemma UserKeeps(db: Db, id: Id, u: User)
    requires Inv(db) && (id in db.users ==> u.kind == db.users[id].kind)
    ensures Inv(db.(users := db.users[id := u])) && Quiet(db, db.(users := db.users[id := u]))
  {
    hide DenseLog, Ledger, Ordered, Tails, BodyOk, Indexed, Receipts, Related, Cursors, PairOk, Paired, Governed, Files;
    var users := db.users[id := u];
    forall k | k in db.members ensures RoleOk(db.conversations, users, k, db.members[k]) {
      assert RoleOk(db.conversations, db.users, k, db.members[k]);
    }
  }

  lemma TickKeeps(db: Db, t: Time)
    requires Inv(db) && db.now <= t
    ensures Inv(db.(now := t)) && Quiet(db, db.(now := t))
  {
    hide DenseLog, Ledger, Ordered, BodyOk, Indexed, Receipts, Related, Cursors, Governance, Files;
    forall c | c in db.conversations ensures TailAt(db.conversations[c].last, db.messages, t, c) {
      assert TailAt(db.conversations[c].last, db.messages, db.now, c);
    }
  }
}
