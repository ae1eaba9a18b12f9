/** Uploads, attachments and cleaners over a database and a blob store that fail
    separately (internal/attachment/attachment.go, internal/attachment/repository). */
module Uploads {
  import opened Basics
  import opened Schema
  import opened Attachments
  import opened Deltas
  import opened Invariants
  import opened OperationsProofs
  import opened Footprints
  import opened Evolution
  import opened System
  import opened Lifetimes

  // ----- processes and steps -----

  /** An upload between its transactions: rows written, then bytes stored. */
  datatype Upload = Began(actor: Id, a: Id, o: Id) | Uploaded(actor: Id, a: Id, o: Id)

  /** A cleaner between its transactions: claimed, then blob erased. */
  datatype Cleaning = Claimed(o: Id) | Erased(o: Id)

  datatype World = World(db: Db, blobs: set<Id>, uploads: map<Id, Upload>, cleaners: map<Id, Cleaning>)

  /** One step of anybody. A process that crashes leaves its rows and bytes behind. */
  datatype Step =
    | Transact(action: Action)
    | Begin(p: Id, actor: Id, a: Id, o: Id, meta: Meta, global: int)
    | Put(p: Id)
    | MarkReady(p: Id)
    | Abandon(p: Id)
    | Claim(w: Id, o: Id)
    | Erase(w: Id)
    | Finish(w: Id)
    | Crash(w: Id)

  function Next(s: World, x: Step): World {
    match x
    case Transact(action) => if Ordinary(action) then s.(db := Apply(s.db, action)) else s
    case Begin(p, actor, a, o, meta, global) =>
      if p in s.uploads || BeginSpec(s.db, actor, a, o, meta, global).result.Err? then s
      else s.(db := BeginSpec(s.db, actor, a, o, meta, global).db, uploads := s.uploads[p := Began(actor, a, o)])
    case Put(p) =>
      if p in s.uploads && s.uploads[p].Began? then
        var u := s.uploads[p];
        s.(blobs := s.blobs + {u.o}, uploads := s.uploads[p := Uploaded(u.actor, u.a, u.o)])
      else s
    case MarkReady(p) =>
      if p in s.uploads && s.uploads[p].Uploaded? then
        var u := s.uploads[p];
        s.(db := ReadySpec(s.db, u.actor, u.a).db, uploads := s.uploads - {p})
      else s
    case Abandon(p) => s.(uploads := s.uploads - {p})
    case Claim(w, o) =>
      if w in s.cleaners || !Claimable(s.db, o) then s
      else s.(db := ClaimRows(s.db, o), cleaners := s.cleaners[w := Claimed(o)])
    case Erase(w) =>
      if w in s.cleaners && s.cleaners[w].Claimed? then
        var o := s.cleaners[w].o;
        s.(blobs := s.blobs - {o}, cleaners := s.cleaners[w := Erased(o)])
      else s
    case Finish(w) =>
      if w in s.cleaners && s.cleaners[w].Erased? then
        s.(db := FinishRows(s.db, s.cleaners[w].o), cleaners := s.cleaners - {w})
      else s
    case Crash(w) => s.(cleaners := s.cleaners - {w})
  }

  function Play(s: World, steps: seq<Step>): World
    decreases |steps|
  {
    if steps == [] then s else Play(Next(s, steps[0]), steps[1..])
  }

  // ----- the invariant -----

  type Objects = map<Id, StoredObject>
  type Rows = map<Id, Attachment>

  /** An upload owns its object until the object leaves the uploading state, and its bytes
      are there once stored. */
  ghost predicate UploadOk(objects: Objects, rows: Rows, blobs: set<Id>, u: Upload) {
    && u.a in rows && rows[u.a].objectId == u.o && u.o in objects
    && (u.Uploaded? && objects[u.o].status == OUploading ==> u.o in blobs)
  }

  predicate Leaving(s: ObjectStatus) {
    s == OPendingDelete || s == ODeleted
  }

  ghost predicate CleaningOk(objects: Objects, x: Cleaning) {
    x.o in objects && Leaving(objects[x.o].status)
  }

  /** A ready object has its bytes; processes in flight know where their object stands. */
  ghost predicate BytesSafe(objects: Objects, rows: Rows, blobs: set<Id>, uploads: map<Id, Upload>, cleaners: map<Id, Cleaning>) {
    && (forall o | o in objects && objects[o].status == OReady :: o in blobs)
    && (forall p | p in uploads :: UploadOk(objects, rows, blobs, uploads[p]))
    && (forall w | w in cleaners :: CleaningOk(objects, cleaners[w]))
  }

  ghost predicate Safe(s: World) {
    Inv(s.db) && BytesSafe(s.db.objects, s.db.attachments, s.blobs, s.uploads, s.cleaners)
  }

  ghost predicate Empty(s: World) {
    Init(s.db) && s.blobs == {} && s.uploads == map[] && s.cleaners == map[]
  }

  // ----- preservation -----

  lemma BytesStay(s: World, b: Db)
    requires BytesSafe(s.db.objects, s.db.attachments, s.blobs, s.uploads, s.cleaners) && ObjectsStay(s.db, b)
    ensures BytesSafe(b.objects, b.attachments, s.blobs, s.uploads, s.cleaners)
  {
    forall p | p in s.uploads ensures UploadOk(b.objects, b.attachments, s.blobs, s.uploads[p]) {
      assert UploadOk(s.db.objects, s.db.attachments, s.blobs, s.uploads[p]);
    }
  }

  lemma TransactSafe(s: World, action: Action)
    requires Safe(s) && Ordinary(action)
    ensures Safe(s.(db := Apply(s.db, action)))
  {
    hide Inv, Apply, ObjectsStay, Follows, Checkpointed, BytesSafe;
    OrdinaryStays(s.db, action);
    StepKeeps(s.db, action);
    BytesStay(s, Apply(s.db, action));
  }

  /** What the file transactions do: one object moves forward in its life cycle, rows keep
      their objects. */
  ghost predicate Advances(objects: Objects, rows: Rows, blobs: set<Id>, objects': Objects, rows': Rows, o: Id) {
    && o in objects' && objects' == objects[o := objects'[o]]
    && (forall x | x in rows :: x in rows' && rows'[x].objectId == rows[x].objectId)
    && (objects'[o].status == OReady ==> o in blobs)
    && (objects'[o].status == OUploading ==> o !in objects)
    && (o in objects && Leaving(objects[o].status) ==> Leaving(objects'[o].status))
  }

  lemma AdvanceKeeps(objects: Objects, rows: Rows, blobs: set<Id>, uploads: map<Id, Upload>, cleaners: map<Id, Cleaning>,
                     objects': Objects, rows': Rows, o: Id)
    requires BytesSafe(objects, rows, blobs, uploads, cleaners) && Advances(objects, rows, blobs, objects', rows', o)
    ensures BytesSafe(objects', rows', blobs, uploads, cleaners)
  {
    forall p | p in uploads ensures UploadOk(objects', rows', blobs, uploads[p]) {
      assert UploadOk(objects, rows, blobs, uploads[p]);
    }
    forall w | w in cleaners ensures CleaningOk(objects', cleaners[w]) { assert CleaningOk(objects, cleaners[w]); }
  }

  lemma BeginAdvances(db: Db, blobs: set<Id>, actor: Id, a: Id, o: Id, meta: Meta)
    requires a !in db.attachments && o !in db.objects
    ensures var b := BeginRows(db, actor, a, o, meta);
      Advances(db.objects, db.attachments, blobs, b.objects, b.attachments, o) && UploadOk(b.objects, b.attachments, blobs, Began(actor, a, o))
  {
  }

  lemma ReadyAdvances(db: Db, blobs: set<Id>, actor: Id, a: Id)
    requires CanBecomeReady(db, actor, a) && db.attachments[a].objectId in blobs
    ensures var b := ReadyRows(db, a); Advances(db.objects, db.attachments, blobs, b.objects, b.attachments, db.attachments[a].objectId)
  {
  }

  lemma ClaimAdvances(db: Db, blobs: set<Id>, o: Id)
    requires o in db.objects
    ensures var b := ClaimRows(db, o);
      Advances(db.objects, db.attachments, blobs, b.objects, b.attachments, o) && CleaningOk(b.objects, Claimed(o))
  {
  }

  lemma BeginSafe(s: World, p: Id, actor: Id, a: Id, o: Id, meta: Meta)
    requires Safe(s) && a !in s.db.attachments && o !in s.db.objects
    ensures Safe(s.(db := BeginRows(s.db, actor, a, o, meta), uploads := s.uploads[p := Began(actor, a, o)]))
  {
    var b := BeginRows(s.db, actor, a, o, meta);
    BeginAdvances(s.db, s.blobs, actor, a, o, meta);
    BeginKeeps(s.db, actor, a, o, meta);
    hide Inv, BeginRows, Advances, UploadOk, CleaningOk;
    AdvanceKeeps(s.db.objects, s.db.attachments, s.blobs, s.uploads, s.cleaners, b.objects, b.attachments, o);
  }

  lemma PutSafe(s: World, p: Id)
    requires Safe(s) && p in s.uploads && s.uploads[p].Began?
    ensures var u := s.uploads[p];
      Safe(s.(blobs := s.blobs + {u.o}, uploads := s.uploads[p := Uploaded(u.actor, u.a, u.o)]))
  {
    hide Inv;
    var u := s.uploads[p];
    forall q | q in s.uploads ensures UploadOk(s.db.objects, s.db.attachments, s.blobs + {u.o}, s.uploads[q]) {
      assert UploadOk(s.db.objects, s.db.attachments, s.blobs, s.uploads[q]);
    }
  }

  lemma UploadRow(objects: Objects, rows: Rows, blobs: set<Id>, u: Upload)
    requires UploadOk(objects, rows, blobs, u)
    ensures u.a in rows && rows[u.a].objectId == u.o && u.o in objects
    ensures u.Uploaded? && objects[u.o].status == OUploading ==> u.o in blobs
  {
  }

  lemma ReadySafe(s: World, p: Id)
    requires Safe(s) && p in s.uploads && s.uploads[p].Uploaded? && CanBecomeReady(s.db, s.uploads[p].actor, s.uploads[p].a)
    ensures var u := s.uploads[p]; Safe(s.(db := ReadyRows(s.db, u.a), uploads := s.uploads - {p}))
  {
    hide Inv, ReadyRows, Advances, UploadOk, CleaningOk;
    var u := s.uploads[p];
    var b := ReadyRows(s.db, u.a);
    UploadRow(s.db.objects, s.db.attachments, s.blobs, u);
    ReadyAdvances(s.db, s.blobs, u.actor, u.a);
    ReadyKeeps(s.db, u.actor, u.a);
    AdvanceKeeps(s.db.objects, s.db.attachments, s.blobs, s.uploads, s.cleaners, b.objects, b.attachments, u.o);
  }

  lemma ClaimSafe(s: World, w: Id, o: Id)
    requires Safe(s) && Claimable(s.db, o)
    ensures Safe(s.(db := ClaimRows(s.db, o), cleaners := s.cleaners[w := Claimed(o)]))
  {
    var b := ClaimRows(s.db, o);
    ClaimAdvances(s.db, s.blobs, o);
    ClaimKeeps(s.db, o);
    hide Inv, ClaimRows, Claimable, Advances, UploadOk, CleaningOk;
    AdvanceKeeps(s.db.objects, s.db.attachments, s.blobs, s.uploads, s.cleaners, b.objects, b.attachments, o);
  }

  lemma EraseSafe(s: World, w: Id)
    requires Safe(s) && w in s.cleaners && s.cleaners[w].Claimed?
    ensures var o := s.cleaners[w].o;
      Safe(s.(blobs := s.blobs - {o}, cleaners := s.cleaners[w := Erased(o)]))
  {
    hide Inv;
    var o := s.cleaners[w].o;
    assert CleaningOk(s.db.objects, s.cleaners[w]);
    forall q | q in s.uploads ensures UploadOk(s.db.objects, s.db.attachments, s.blobs - {o}, s.uploads[q]) {
      assert UploadOk(s.db.objects, s.db.attachments, s.blobs, s.uploads[q]);
    }
  }

  lemma FinishAdvances(db: Db, blobs: set<Id>, o: Id)
    requires o in db.objects && Leaving(db.objects[o].status)
    ensures var b := FinishRows(db, o);
      Advances(db.objects, db.attachments, blobs, b.objects, b.attachments, o) && b.objects[o].status == ODeleted
  {
    if db.objects[o].status == OPendingDelete {
      var object_ := db.objects[o];
      assert FinishRows(db, o) == db.(objects := db.objects[o := object_.(status := ODeleted)]);
    } else {
      assert FinishRows(db, o) == db;
    }
  }

  lemma FinishSafe(s: World, w: Id)
    requires Safe(s) && w in s.cleaners && s.cleaners[w].Erased?
    ensures Safe(s.(db := FinishRows(s.db, s.cleaners[w].o), cleaners := s.cleaners - {w}))
  {
    hide Inv, FinishRows, Advances, UploadOk;
    var o := s.cleaners[w].o;
    var b := FinishRows(s.db, o);
    assert CleaningOk(s.db.objects, s.cleaners[w]);
    FinishAdvances(s.db, s.blobs, o);
    FinishKeeps(s.db, o);
    AdvanceKeeps(s.db.objects, s.db.attachments, s.blobs, s.uploads, s.cleaners, b.objects, b.attachments, o);
  }

  lemma NextSafe(s: World, x: Step)
    requires Safe(s)
    ensures Safe(Next(s, x))
  {
    hide Inv, Apply, BeginRows, ReadyRows, ClaimRows, FinishRows, Claimable, UploadOk, CleaningOk, UploadPolicy;
    match x {
      case Transact(action) => if Ordinary(action) { TransactSafe(s, action); }
      case Begin(p, actor, a, o, meta, global) =>
        if p !in s.uploads && BeginSpec(s.db, actor, a, o, meta, global).result.Ok? { BeginSafe(s, p, actor, a, o, meta); }
      case Put(p) => if p in s.uploads && s.uploads[p].Began? { PutSafe(s, p); }
      case MarkReady(p) =>
        if p in s.uploads && s.uploads[p].Uploaded? && CanBecomeReady(s.db, s.uploads[p].actor, s.uploads[p].a) { ReadySafe(s, p); }
      case Abandon(p) =>
      case Claim(w, o) => if w !in s.cleaners && Claimable(s.db, o) { ClaimSafe(s, w, o); }
      case Erase(w) => if w in s.cleaners && s.cleaners[w].Claimed? { EraseSafe(s, w); }
      case Finish(w) => if w in s.cleaners && s.cleaners[w].Erased? { FinishSafe(s, w); }
      case Crash(w) =>
    }
  }

  lemma {:induction false} PlaySafe(s: World, steps: seq<Step>)
    requires Safe(s)
    ensures Safe(Play(s, steps))
    decreases |steps|
  {
    hide Safe, Next;
    if steps != [] {
      NextSafe(s, steps[0]);
      PlaySafe(Next(s, steps[0]), steps[1..]);
    }
  }

  // ----- what it means -----

  /** What some interleaving of uploads, cleaners and transactions leaves. */
  ghost predicate ReachableWorld(s: World) {
    exists start, steps :: Empty(start) && s == Play(start, steps)
  }

  lemma ReachableIsSafe(s: World)
    requires ReachableWorld(s)
    ensures Safe(s)
  {
    hide Play, Safe;
    var start, steps :| Empty(start) && s == Play(start, steps);
    assert Safe(start) by { EmptyIsSafe(start); }
    PlaySafe(start, steps);
  }

  lemma EmptyIsSafe(s: World)
    requires Empty(s)
    ensures Safe(s)
  {
    hide Inv;
    InitInv(s.db);
  }

  /** However many uploaders, senders, forwarders and cleaners interleave and crash: an
      attached row has a ready object with its bytes present; a scheduled or deleted object
      has only deleted rows; a row is attached exactly when it is linked, and then to one
      undeleted message; and whoever is authorised to read finds the bytes. */
  lemma AttachmentSafety(s: World)
    requires ReachableWorld(s)
    ensures forall a | a in s.db.attachments && s.db.attachments[a].status == AAttached ::
              var o := s.db.attachments[a].objectId;
              o in s.db.objects && s.db.objects[o].status == OReady && o in s.blobs
    ensures forall a | a in s.db.attachments && s.db.attachments[a].objectId in s.db.objects
                       && s.db.objects[s.db.attachments[a].objectId].status in {OPendingDelete, ODeleted} ::
              s.db.attachments[a].status == ADeleted
    ensures forall a | a in s.db.attachments :: s.db.attachments[a].status == AAttached <==> a in s.db.links
    ensures forall a | a in s.db.links :: a in s.db.attachments && Undeleted(s.db.messages, s.db.links[a])
    ensures forall user, a | Authorize(s.db, user, a).Ok? :: Authorize(s.db, user, a).value.objectId in s.blobs
  {
    hide ReachableWorld, Core;
    ReachableIsSafe(s);
    forall a | a in s.db.attachments
      ensures AttachmentOk(s.db.messages, s.db.objects, s.db.links, a, s.db.attachments[a])
    {}
  }
}
