/** Upload metadata, authorised reads and the cleaner (internal/attachment/repository). */
module Attachments {
  import opened Basics
  import opened Schema
  import opened Access

  const HOUR: int := 3600

  // ----- upload -----

  /** uploadPolicy: the effective byte limit of an upload by `actor`. */
  function UploadPolicy(db: Db, actor: Id, global: int): Result<int> {
    if actor !in db.users || !db.settings.active then Err(Unauthenticated)
    else
      var u := db.users[actor];
      if u.banned then Err(Banned)
      else if u.kind == System then Err(Forbidden)
      else if u.kind == Bot && AllowBots !in db.settings.flags then Err(FeatureDisabled)
      else if AllowImages !in db.settings.flags then Err(FeatureDisabled)
      else Ok(Min(db.settings.maxUpload, global))
  }

  function BeginRows(db: Db, actor: Id, a: Id, o: Id, meta: Meta): Db {
    db.(objects := db.objects[o := StoredObject(OUploading, db.now)],
        attachments := db.attachments[a := Attachment(actor, o, meta, AUploading, db.now + DAY)])
  }

  function BeginSpec(db: Db, actor: Id, a: Id, o: Id, meta: Meta, global: int): Outcome<Attachment> {
    match UploadPolicy(db, actor, global)
    case Err(e) => Outcome(db, Err(e))
    case Ok(limit) =>
      if meta.size > limit then Outcome(db, Err(TooLarge))
      else if o in db.objects || a in db.attachments then Outcome(db, Err(Unavailable))
      else Outcome(BeginRows(db, actor, a, o, meta), Ok(Attachment(actor, o, meta, AUploading, db.now + DAY)))
  }

  method Begin(d: Database, actor: Id, a: Id, o: Id, meta: Meta, global: int) returns (r: Result<Attachment>)
    modifies d
    ensures Outcome(d.state, r) == BeginSpec(old(d.state), actor, a, o, meta, global)
  {
    var limit := UploadPolicy(d.state, actor, global);
    if limit.Err? { return Err(limit.error); }
    if meta.size > limit.value { return Err(TooLarge); }
    var tx := d.state;
    if o in tx.objects { return Err(Unavailable); }
    tx := tx.(objects := tx.objects[o := StoredObject(OUploading, tx.now)]);
    if a in tx.attachments { return Err(Unavailable); }
    var row := Attachment(actor, o, meta, AUploading, tx.now + DAY);
    tx := tx.(attachments := tx.attachments[a := row]);
    d.state := tx;
    return Ok(row);
  }

  predicate CanBecomeReady(db: Db, actor: Id, a: Id) {
    && a in db.attachments && db.attachments[a].uploader == actor && db.attachments[a].status == AUploading
    && db.attachments[a].objectId in db.objects && db.objects[db.attachments[a].objectId].status == OUploading
  }

  function ReadyRows(db: Db, a: Id): Db
    requires a in db.attachments && db.attachments[a].objectId in db.objects
  {
    var row := db.attachments[a];
    var o := db.objects[row.objectId];
    db.(objects := db.objects[row.objectId := o.(status := OReady)],
        attachments := db.attachments[a := row.(status := AReady)])
  }

  function ReadySpec(db: Db, actor: Id, a: Id): Outcome<Attachment> {
    if !CanBecomeReady(db, actor, a) then Outcome(db, Err(Lifecycle))
    else Outcome(ReadyRows(db, a), Ok(db.attachments[a].(status := AReady)))
  }

  method Ready(d: Database, actor: Id, a: Id) returns (r: Result<Attachment>)
    modifies d
    ensures Outcome(d.state, r) == ReadySpec(old(d.state), actor, a)
  {
    var tx := d.state;
    if a !in tx.attachments || tx.attachments[a].uploader != actor || tx.attachments[a].status != AUploading {
      return Err(Lifecycle);
    }
    var o := tx.attachments[a].objectId;
    if o !in tx.objects || tx.objects[o].status != OUploading { return Err(Lifecycle); }
    tx := tx.(objects := tx.objects[o := tx.objects[o].(status := OReady)]);
    tx := tx.(attachments := tx.attachments[a := tx.attachments[a].(status := AReady)]);
    d.state := tx;
    return Ok(tx.attachments[a]);
  }

  // ----- Get -----

  /** A current member of the live message the attachment belongs to. */
  predicate MemberOfLiveMessage(db: Db, user: Id, a: Id) {
    && a in db.links && db.links[a] in db.messages
    && db.messages[db.links[a]].Live(db.now)
    && Joined(db, db.messages[db.links[a]].conversation, user)
  }

  /** Get: authorisation from current state, never from an upload-time capability. */
  function Authorize(db: Db, user: Id, a: Id): Result<Attachment> {
    if a !in db.attachments || db.attachments[a].objectId !in db.objects || !db.settings.active then Err(NotFound)
    else
      var row := db.attachments[a];
      if db.objects[row.objectId].status != OReady then Err(NotFound)
      else if row.status == AReady && db.now < row.expiresAt && row.uploader == user then Ok(row)
      else if row.status == AAttached && MemberOfLiveMessage(db, user, a) then Ok(row)
      else Err(NotFound)
  }

  // ----- the cleaner -----

  predicate Of(db: Db, a: Id, o: Id) {
    a in db.attachments && db.attachments[a].objectId == o
  }

  predicate Referenced(db: Db, o: Id) {
    exists a | a in db.attachments :: Of(db, a, o) && db.attachments[a].status == AAttached
  }

  predicate HasExpiredReady(db: Db, o: Id) {
    exists a | a in db.attachments :: Of(db, a, o) && db.attachments[a].status == AReady && db.attachments[a].expiresAt <= db.now
  }

  /** The WHERE clause of the cleaner's claim. */
  predicate Claimable(db: Db, o: Id) {
    && o in db.objects
    && (db.objects[o].status == OPendingDelete
        || (db.objects[o].status in {OUploading, OReady}
            && !Referenced(db, o)
            && (db.objects[o].createdAt < db.now - HOUR || HasExpiredReady(db, o))))
  }

  /** Begun or ready, and attached to no message yet. */
  predicate Unconsumed(row: Attachment) {
    row.status == AUploading || row.status == AReady
  }

  function Released(row: Attachment, o: Id): Attachment {
    if row.objectId == o && Unconsumed(row) then row.(status := ADeleted) else row
  }

  /** The first transaction of the cleaner: every logical row is terminal and the object
      carries durable retry state. */
  function ClaimRows(db: Db, o: Id): Db
    requires o in db.objects
  {
    var object_ := db.objects[o];
    db.(attachments := map a | a in db.attachments :: Released(db.attachments[a], o),
        objects := db.objects[o := object_.(status := OPendingDelete)])
  }

  /** The second transaction, after the blob store acknowledged the deletion. */
  function FinishRows(db: Db, o: Id): Db {
    if o in db.objects && db.objects[o].status == OPendingDelete then
      var object_ := db.objects[o];
      db.(objects := db.objects[o := object_.(status := ODeleted)])
    else db
  }

  /** The order of the candidates: by creation, then by identity. */
  predicate Sooner(objects: map<Id, StoredObject>, x: Id, y: Id)
    requires x in objects && y in objects
  {
    objects[x].createdAt < objects[y].createdAt || (objects[x].createdAt == objects[y].createdAt && !y.Below(x))
  }

  lemma {:induction false} SoonestExists(objects: map<Id, StoredObject>, s: set<Id>) returns (x: Id)
    requires s != {} && s <= objects.Keys
    ensures x in s && forall y | y in s :: Sooner(objects, x, y)
    decreases s
  {
    var first :| first in s;
    x := first;
    if s != {first} {
      var next := SoonestExists(objects, s - {first});
      if Sooner(objects, next, first) { x := next; }
      forall y | y in s ensures Sooner(objects, x, y) { assert y == first || y in s - {first}; }
    }
  }

  class BlobStore {
    var blobs: set<Id>

    constructor ()
      ensures blobs == {}
    {
      blobs := {};
    }
  }

  /** One: claim at most one object, delete its blob, finish. `locked` are the rows other
      cleaners hold (SKIP LOCKED); a refused deletion leaves the claim for a later run. */
  method CleanOne(d: Database, s: BlobStore, locked: set<Id>, accepted: bool) returns (worked: bool, claimed: Option<Id>, error: Option<Error>)
    modifies d, s
    ensures worked <==> exists o | o in old(d.state).objects :: o !in locked && Claimable(old(d.state), o)
    ensures worked <==> claimed.Some?
    ensures !worked ==> d.state == old(d.state) && s.blobs == old(s.blobs) && error.None?
    ensures worked ==> claimed.value !in locked && Claimable(old(d.state), claimed.value)
    ensures worked ==> forall o | o in old(d.state).objects && o !in locked && Claimable(old(d.state), o) ::
              var x, y := old(d.state).objects[claimed.value].createdAt, old(d.state).objects[o].createdAt;
              x < y || (x == y && (claimed.value == o || claimed.value.Below(o)))
    ensures worked && accepted ==>
              && d.state == FinishRows(ClaimRows(old(d.state), claimed.value), claimed.value)
              && s.blobs == old(s.blobs) - {claimed.value} && error.None?
    ensures worked && !accepted ==>
              && d.state == ClaimRows(old(d.state), claimed.value)
              && s.blobs == old(s.blobs) && error == Some(Unavailable)
  {
    var candidates := set o | o in d.state.objects && o !in locked && Claimable(d.state, o);
    if candidates == {} {
      assert forall o | o in d.state.objects && o !in locked && Claimable(d.state, o) :: o in candidates;
      return false, None, None;
    }
    ghost var soonest := SoonestExists(d.state.objects, candidates);
    var o :| o in candidates && forall y | y in candidates :: Sooner(d.state.objects, o, y);
    forall y | y in d.state.objects && y !in locked && Claimable(d.state, y)
      ensures Sooner(d.state.objects, o, y) && (y.Below(o) || y == o || o.Below(y))
    {
      assert y in candidates;
    }
    var tx := d.state;
    tx := tx.(attachments := map a | a in tx.attachments :: Released(tx.attachments[a], o));
    tx := tx.(objects := tx.objects[o := tx.objects[o].(status := OPendingDelete)]);
    d.state := tx;
    if !accepted { return true, Some(o), Some(Unavailable); }
    s.blobs := s.blobs - {o};
    if o in d.state.objects && d.state.objects[o].status == OPendingDelete {
      var done := d.state;
      d.state := done.(objects := done.objects[o := done.objects[o].(status := ODeleted)]);
    }
    return true, Some(o), None;
  }
}
