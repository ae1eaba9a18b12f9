/** How long an upload lives, in every database some run of transactions reaches
    (internal/attachment/repository). */
module Lifetimes {
  import opened Basics
  import opened Schema
  import opened Attachments
  import opened Deltas
  import opened Invariants
  import opened Footprints
  import opened Evolution
  import opened System

  // ----- the stamp of an upload -----

  /** The object of a row that is not consumed yet was created with it, a day before the
      row expires, and no other row shares it. */
  ghost predicate StampOk(objects: map<Id, StoredObject>, rows: map<Id, Attachment>, a: Id)
    requires a in rows
  {
    && rows[a].objectId in objects
    && rows[a].expiresAt == objects[rows[a].objectId].createdAt + DAY
    && forall b | b in rows && rows[b].objectId == rows[a].objectId :: b == a
  }

  ghost predicate Stamped(objects: map<Id, StoredObject>, rows: map<Id, Attachment>) {
    && (forall a | a in rows :: rows[a].objectId in objects)
    && (forall a | a in rows && Unconsumed(rows[a]) :: StampOk(objects, rows, a))
  }

  /** Everything but the four transactions that belong to uploads and cleaners. */
  predicate Ordinary(x: Action) {
    !x.ABegin? && !x.AReady? && !x.AClaim? && !x.AFinish?
  }

  lemma OrdinaryStays(db: Db, x: Action)
    requires Ordinary(x)
    ensures ObjectsStay(db, Apply(db, x))
  {
    hide Apply, ObjectsStay, SameMembers;
    if x.ASend? {
      SendActionFootprint(db, x);
    } else if MessageAction(x) {
      MessageActionFootprint(db, x);
    } else if MemberAction(x) {
      MemberActionFootprint(db, x);
    } else {
      QuietActionFootprint(db, x);
    }
  }

  lemma StayKeepsStamps(a: Db, b: Db)
    requires Stamped(a.objects, a.attachments) && ObjectsStay(a, b)
    ensures Stamped(b.objects, b.attachments)
  {
    forall x | x in b.attachments ensures b.attachments[x].objectId in b.objects {
      if x !in a.attachments { assert Shares(a.attachments, b.attachments[x]); }
    }
    forall x | x in b.attachments && Unconsumed(b.attachments[x]) ensures StampOk(b.objects, b.attachments, x) {
      assert StampOk(a.objects, a.attachments, x);
    }
  }

  lemma BeginKeepsStamps(db: Db, actor: Id, a: Id, o: Id, meta: Meta)
    requires Stamped(db.objects, db.attachments) && a !in db.attachments && o !in db.objects
    ensures var b := BeginRows(db, actor, a, o, meta); Stamped(b.objects, b.attachments)
  {
    var b := BeginRows(db, actor, a, o, meta);
    forall x | x in b.attachments && Unconsumed(b.attachments[x]) ensures StampOk(b.objects, b.attachments, x) {
      if x != a { assert StampOk(db.objects, db.attachments, x); }
    }
  }

  /** The clock of an object never moves, and a row only changes its status. */
  lemma StatusKeepsStamps(objects: map<Id, StoredObject>, rows: map<Id, Attachment>,
                          objects': map<Id, StoredObject>, rows': map<Id, Attachment>)
    requires Stamped(objects, rows) && objects'.Keys == objects.Keys && rows'.Keys == rows.Keys
    requires forall o | o in objects :: objects'[o].createdAt == objects[o].createdAt
    requires forall a | a in rows :: rows'[a].objectId == rows[a].objectId && rows'[a].expiresAt == rows[a].expiresAt
    requires forall a | a in rows && Unconsumed(rows'[a]) :: Unconsumed(rows[a])
    ensures Stamped(objects', rows')
  {
    forall x | x in rows' && Unconsumed(rows'[x]) ensures StampOk(objects', rows', x) {
      assert StampOk(objects, rows, x);
    }
  }

  lemma ReadyKeepsStamps(db: Db, actor: Id, a: Id)
    requires Stamped(db.objects, db.attachments) && CanBecomeReady(db, actor, a)
    ensures var b := ReadyRows(db, a); Stamped(b.objects, b.attachments)
  {
    var b := ReadyRows(db, a);
    hide Stamped;
    StatusKeepsStamps(db.objects, db.attachments, b.objects, b.attachments);
  }

  lemma ClaimKeepsStamps(db: Db, o: Id)
    requires Stamped(db.objects, db.attachments) && o in db.objects
    ensures var b := ClaimRows(db, o); Stamped(b.objects, b.attachments)
  {
    var b := ClaimRows(db, o);
    hide Stamped;
    StatusKeepsStamps(db.objects, db.attachments, b.objects, b.attachments);
  }

  lemma FinishKeepsStamps(db: Db, o: Id)
    requires Stamped(db.objects, db.attachments)
    ensures var b := FinishRows(db, o); Stamped(b.objects, b.attachments)
  {
    if o in db.objects && db.objects[o].status == OPendingDelete {
      var b := FinishRows(db, o);
      var objects := db.objects[o := db.objects[o].(status := ODeleted)];
      assert b == db.(objects := objects);
      hide FinishRows, Stamped;
      StatusKeepsStamps(db.objects, db.attachments, objects, db.attachments);
    } else {
      assert FinishRows(db, o) == db;
    }
  }

  lemma FileKeepsStamps(db: Db, x: Action)
    requires Stamped(db.objects, db.attachments) && FileAction(x)
    ensures Stamped(Apply(db, x).objects, Apply(db, x).attachments)
  {
    hide UploadPolicy, Referenced, HasExpiredReady, CanBecomeReady, Stamped, BeginRows, ReadyRows, ClaimRows, FinishRows;
    match x {
      case ABegin(actor, a, o, meta, global) =>
        if BeginSpec(db, actor, a, o, meta, global).result.Ok? { BeginKeepsStamps(db, actor, a, o, meta); }
      case AReady(actor, a) => if CanBecomeReady(db, actor, a) { ReadyKeepsStamps(db, actor, a); }
      case AClaim(o) => if Claimable(db, o) { ClaimKeepsStamps(db, o); }
      case AFinish(o) => FinishKeepsStamps(db, o);
    }
  }

  lemma StepKeepsStamps(db: Db, x: Action)
    requires Stamped(db.objects, db.attachments)
    ensures Stamped(Apply(db, x).objects, Apply(db, x).attachments)
  {
    hide Apply, Stamped, ObjectsStay;
    if Ordinary(x) {
      OrdinaryStays(db, x);
      StayKeepsStamps(db, Apply(db, x));
    } else {
      FileKeepsStamps(db, x);
    }
  }

  lemma {:induction false} RunKeepsStamps(db: Db, actions: seq<Action>)
    requires Stamped(db.objects, db.attachments)
    ensures Stamped(Run(db, actions).objects, Run(db, actions).attachments)
    decreases |actions|
  {
    hide Apply, Stamped;
    if actions != [] {
      StepKeepsStamps(db, actions[0]);
      RunKeepsStamps(Apply(db, actions[0]), actions[1..]);
    }
  }

  /** An upload is alone with its object until it is consumed, and promised exactly a day
      from the creation of that object. */
  lemma UploadIsStamped(db: Db)
    requires Reachable(db)
    ensures forall a | a in db.attachments && Unconsumed(db.attachments[a]) :: StampOk(db.objects, db.attachments, a)
  {
    hide Run, StampOk;
    var start, actions :| Init(start) && db == Run(start, actions);
    RunKeepsStamps(start, actions);
  }

  // ----- what the cleaner takes -----

  /** In every reachable database the branch of the query for expired ready uploads is
      dead: the cleaner takes a scheduled object, or an unreferenced one exactly when it is
      more than an hour old. */
  lemma ClaimableIsAge(db: Db, o: Id)
    requires Reachable(db) && o in db.objects
    ensures HasExpiredReady(db, o) ==> db.objects[o].createdAt < db.now - HOUR
    ensures Claimable(db, o) <==>
              match db.objects[o].status
              case OPendingDelete => true
              case ODeleted => false
              case _ => !Referenced(db, o) && db.objects[o].createdAt < db.now - HOUR
  {
    hide Reachable, Referenced;
    UploadIsStamped(db);
    if HasExpiredReady(db, o) {
      var a :| a in db.attachments && Of(db, a, o) && db.attachments[a].status == AttachmentStatus.AReady && db.attachments[a].expiresAt <= db.now;
      assert StampOk(db.objects, db.attachments, a);
    }
  }

  /** So a ready upload is readable by its uploader for a day, but exposed to the cleaner
      from the second hour of it on: claimable exactly in its last 23 hours and after. */
  lemma ReadyIsClaimedExactly(db: Db, a: Id)
    requires Reachable(db) && a in db.attachments && db.attachments[a].status == AttachmentStatus.AReady
    ensures Claimable(db, db.attachments[a].objectId) <==> db.attachments[a].expiresAt < db.now + DAY - HOUR
  {
    hide Reachable, Checkpointed, Core;
    ReachableInv(db);
    UploadIsStamped(db);
    var o := db.attachments[a].objectId;
    assert StampOk(db.objects, db.attachments, a);
    assert AttachmentOk(db.messages, db.objects, db.links, a, db.attachments[a]);
    assert !Referenced(db, o);
    hide Inv, Files, Referenced, Claimable;
    ClaimableIsAge(db, o);
  }

  lemma ClaimedRow(db: Db, o: Id, a: Id)
    requires o in db.objects && a in db.attachments
    ensures ClaimRows(db, o).attachments[a] ==
              if db.attachments[a].objectId == o && (db.attachments[a].status == AUploading || db.attachments[a].status == AttachmentStatus.AReady)
              then db.attachments[a].(status := ADeleted) else db.attachments[a]
  {
  }

  lemma ClaimTables(db: Db, o: Id)
    requires o in db.objects
    ensures ClaimRows(db, o).attachments.Keys == db.attachments.Keys
    ensures ClaimRows(db, o).objects == db.objects[o := StoredObject(OPendingDelete, db.objects[o].createdAt)]
  {
    var object_ := db.objects[o];
    assert object_.(status := OPendingDelete) == StoredObject(OPendingDelete, object_.createdAt);
  }

  lemma ClaimableExists(db: Db, o: Id)
    requires Claimable(db, o)
    ensures o in db.objects
  {
    hide Referenced, HasExpiredReady;
  }

  lemma ClaimableRow(db: Db, o: Id, a: Id)
    requires Inv(db) && Claimable(db, o) && Of(db, a, o)
    ensures db.attachments[a].status != AAttached
  {
    hide Core, HasExpiredReady;
    assert AttachmentOk(db.messages, db.objects, db.links, a, db.attachments[a]);
  }

  lemma ClaimEndsRow(db: Db, o: Id, a: Id)
    requires Inv(db) && o in db.objects && Claimable(db, o) && a in db.attachments
    ensures ClaimRows(db, o).attachments[a] ==
              if db.attachments[a].objectId == o then db.attachments[a].(status := ADeleted) else db.attachments[a]
  {
    hide Inv, Claimable, ClaimRows;
    ClaimedRow(db, o, a);
    if Of(db, a, o) { ClaimableRow(db, o, a); }
  }

  /** A claim schedules that object and ends every row of it; it touches no other row and no
      other object. */
  lemma ClaimAnswers(db: Db, o: Id)
    requires Reachable(db) && Claimable(db, o)
    ensures var b := ClaimRows(db, o);
      && b.objects == db.objects[o := StoredObject(OPendingDelete, db.objects[o].createdAt)]
      && b.attachments.Keys == db.attachments.Keys
      && (forall a | a in db.attachments :: b.attachments[a] ==
            if db.attachments[a].objectId == o then db.attachments[a].(status := ADeleted) else db.attachments[a])
  {
    ClaimableExists(db, o);
    hide Reachable, Inv, Checkpointed, Claimable, ClaimRows;
    ReachableInv(db);
    var b := ClaimRows(db, o);
    ClaimTables(db, o);
    forall a | a in db.attachments
      ensures b.attachments[a] == if db.attachments[a].objectId == o then db.attachments[a].(status := ADeleted) else db.attachments[a]
    {
      ClaimEndsRow(db, o, a);
    }
  }

  /** The second transaction ends exactly a scheduled object. */
  lemma FinishAnswers(db: Db, o: Id)
    ensures var b := FinishRows(db, o);
      && b.attachments == db.attachments
      && b.objects == if o in db.objects && db.objects[o].status == OPendingDelete
                      then db.objects[o := StoredObject(ODeleted, db.objects[o].createdAt)] else db.objects
  {
    if o in db.objects && db.objects[o].status == OPendingDelete {
      assert FinishRows(db, o) == db.(objects := db.objects[o := db.objects[o].(status := ODeleted)]);
    }
  }

  /** The database after an upload began and became ready, and the clock moved on. */
  function Uploaded(db: Db, actor: Id, a: Id, o: Id, meta: Meta, t: Time): Db {
    db.(now := t, objects := db.objects[o := StoredObject(OReady, db.now)],
        attachments := db.attachments[a := Attachment(actor, o, meta, AttachmentStatus.AReady, db.now + DAY)])
  }

  lemma RunOfThree(db: Db, x: Action, y: Action, z: Action)
    ensures Run(db, [x, y, z]) == Apply(Apply(Apply(db, x), y), z)
  {
    hide Apply;
    var b := Apply(db, x);
    assert [x, y, z][1..] == [y, z] && [y, z][1..] == [z] && [z][1..] == [];
    assert Run(db, [x, y, z]) == Run(b, [y, z]) == Run(Apply(b, y), [z]) == Run(Apply(Apply(b, y), z), []);
  }

  lemma UploadSteps(db: Db, actor: Id, a: Id, o: Id, meta: Meta, global: int)
    ensures BeginSpec(db, actor, a, o, meta, global).result.Ok? ==>
              Apply(db, ABegin(actor, a, o, meta, global)) == BeginRows(db, actor, a, o, meta)
    ensures CanBecomeReady(db, actor, a) ==> Apply(db, Action.AReady(actor, a)) == ReadyRows(db, a)
  {
    hide UploadPolicy, BeginRows, ReadyRows, CanBecomeReady;
  }

  lemma LaterSteps(db: Db, o: Id, t: Time)
    ensures Claimable(db, o) ==> Apply(db, AClaim(o)) == ClaimRows(db, o)
    ensures db.now <= t ==> Apply(db, ATick(t)) == db.(now := t)
  {
    hide ClaimRows, Referenced, HasExpiredReady;
  }

  lemma UploadBecomesReady(db: Db, actor: Id, a: Id, o: Id, meta: Meta)
    ensures var begun := BeginRows(db, actor, a, o, meta);
      CanBecomeReady(begun, actor, a) && ReadyRows(begun, a) == Uploaded(db, actor, a, o, meta, db.now)
  {
    var begun := BeginRows(db, actor, a, o, meta);
    var ready := ReadyRows(begun, a);
    assert ready.objects == db.objects[o := StoredObject(OReady, db.now)];
    assert ready.attachments == db.attachments[a := Attachment(actor, o, meta, AttachmentStatus.AReady, db.now + DAY)];
  }

  lemma UploadRuns(db: Db, actor: Id, a: Id, o: Id, meta: Meta, global: int, t: Time)
    requires UploadPolicy(db, actor, global).Ok? && meta.size <= UploadPolicy(db, actor, global).value
    requires o !in db.objects && a !in db.attachments && db.now <= t
    ensures Run(db, [ABegin(actor, a, o, meta, global), Action.AReady(actor, a), ATick(t)]) == Uploaded(db, actor, a, o, meta, t)
  {
    var x, y, z := ABegin(actor, a, o, meta, global), Action.AReady(actor, a), ATick(t);
    var begun, ready := BeginRows(db, actor, a, o, meta), Uploaded(db, actor, a, o, meta, db.now);
    UploadBecomesReady(db, actor, a, o, meta);
    UploadSteps(db, actor, a, o, meta, global);
    UploadSteps(begun, actor, a, o, meta, global);
    LaterSteps(ready, o, t);
    assert ready.(now := t) == Uploaded(db, actor, a, o, meta, t);
    hide Apply, BeginRows, ReadyRows, Run, CanBecomeReady;
    RunOfThree(db, x, y, z);
  }

  /** Whoever uploaded it can read it while it lives; the cleaner may claim it. */
  lemma UploadedIsExposed(db: Db, actor: Id, a: Id, o: Id, meta: Meta, t: Time)
    requires db.settings.active && o !in db.objects && (forall x | x in db.attachments :: db.attachments[x].objectId != o)
    requires db.now + HOUR < t < db.now + DAY
    ensures var b := Uploaded(db, actor, a, o, meta, t);
      && b.now == t && Authorize(b, actor, a).Ok? && t < Authorize(b, actor, a).value.expiresAt
      && Claimable(b, o) && Authorize(ClaimRows(b, o), actor, a).Err?
  {
    var b := Uploaded(db, actor, a, o, meta, t);
    assert !Referenced(b, o);
  }

  /** A run from the empty project in which an upload that was promised a day is lost after
      an hour: its uploader can read it and it has not expired, yet any cleaner may claim
      its object, and the claim ends it. */
  lemma UnexpiredUploadIsClaimed(start: Db, actor: Id, a: Id, o: Id, meta: Meta, global: int, age: int)
    requires Init(start) && UploadPolicy(start, actor, global).Ok? && meta.size <= UploadPolicy(start, actor, global).value
    requires HOUR < age < DAY
    ensures var db := Run(start, [ABegin(actor, a, o, meta, global), Action.AReady(actor, a), ATick(start.now + age)]);
      && Reachable(db)
      && Authorize(db, actor, a).Ok? && db.now < Authorize(db, actor, a).value.expiresAt
      && Claimable(db, o) && Authorize(Apply(db, AClaim(o)), actor, a).Err?
  {
    hide UploadPolicy, Uploaded, Authorize, Claimable, ClaimRows, Run;
    var steps := [ABegin(actor, a, o, meta, global), Action.AReady(actor, a), ATick(start.now + age)];
    UploadRuns(start, actor, a, o, meta, global, start.now + age);
    assert Reachable(Run(start, steps));
    PolicyIsActive(start, actor, global);
    UploadedIsExposed(start, actor, a, o, meta, start.now + age);
    LaterSteps(Run(start, steps), o, start.now);
  }

  lemma PolicyIsActive(db: Db, actor: Id, global: int)
    requires UploadPolicy(db, actor, global).Ok?
    ensures db.settings.active
  {
  }
}
