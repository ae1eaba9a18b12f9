/** When bytes stay in the store although no row will ever have them removed: uploads that
    store late, cleaners that overtake them (internal/attachment/attachment.go,
    internal/attachment/repository). */
module Orphans {
  import opened Basics
  import opened Schema
  import opened Attachments
  import opened Invariants
  import opened Footprints
  import opened Evolution
  import opened Deltas
  import opened System
  import opened Lifetimes
  import opened Uploads

  // ----- the databases of the worlds -----

  /** The transaction a step commits, if any. */
  function Commits(s: World, x: Step): Option<Action> {
    match x
    case Transact(action) => if Ordinary(action) then Some(action) else None
    case Begin(p, actor, a, o, meta, global) =>
      if p in s.uploads || BeginSpec(s.db, actor, a, o, meta, global).result.Err? then None else Some(ABegin(actor, a, o, meta, global))
    case MarkReady(p) =>
      if p in s.uploads && s.uploads[p].Uploaded? then Some(Action.AReady(s.uploads[p].actor, s.uploads[p].a)) else None
    case Claim(w, o) => if w in s.cleaners || !Claimable(s.db, o) then None else Some(AClaim(o))
    case Finish(w) => if w in s.cleaners && s.cleaners[w].Erased? then Some(AFinish(s.cleaners[w].o)) else None
    case _ => None
  }

  lemma StepCommits(s: World, x: Step)
    ensures Next(s, x).db == if Commits(s, x).Some? then Apply(s.db, Commits(s, x).value) else s.db
  {
    hide BeginSpec, ReadySpec, ClaimRows, FinishRows, Claimable;
  }

  lemma {:induction false} RunAppends(db: Db, actions: seq<Action>, x: Action)
    ensures Run(db, actions + [x]) == Apply(Run(db, actions), x)
    decreases |actions|
  {
    hide Apply;
    if actions == [] {
      assert Run(Apply(db, x), []) == Apply(db, x);
    } else {
      assert (actions + [x])[1..] == actions[1..] + [x];
      RunAppends(Apply(db, actions[0]), actions[1..], x);
    }
  }

  lemma ReachableStep(db: Db, x: Action)
    requires Reachable(db)
    ensures Reachable(Apply(db, x))
  {
    hide Apply, Run;
    var start, actions :| Init(start) && db == Run(start, actions);
    RunAppends(start, actions, x);
  }

  // ----- what a step does to the objects -----

  /** The way of one object through its life, or no object moves. */
  datatype Move = Still | Created(o: Id) | Readied(o: Id) | Taken(o: Id) | Dropped(o: Id)

  ghost predicate Moved(a: Objects, b: Objects, v: Move, now: Time) {
    match v
    case Still => b == a
    case Created(o) => o !in a && b == a[o := StoredObject(OUploading, now)]
    case Readied(o) => o in a && a[o].status == OUploading && b == a[o := a[o].(status := OReady)]
    case Taken(o) => o in a && a[o].status != ODeleted && b == a[o := a[o].(status := OPendingDelete)]
    case Dropped(o) => o in a && a[o].status == OPendingDelete && b == a[o := a[o].(status := ODeleted)]
  }

  function MoveOf(s: World, x: Step): Move {
    match x
    case Begin(p, actor, a, o, meta, global) =>
      if p in s.uploads || BeginSpec(s.db, actor, a, o, meta, global).result.Err? then Still else Created(o)
    case MarkReady(p) =>
      if p in s.uploads && s.uploads[p].Uploaded? && CanBecomeReady(s.db, s.uploads[p].actor, s.uploads[p].a)
      then Readied(s.uploads[p].o) else Still
    case Claim(w, o) => if w in s.cleaners || !Claimable(s.db, o) then Still else Taken(o)
    case Finish(w) =>
      if w in s.cleaners && s.cleaners[w].Erased? && s.cleaners[w].o in s.db.objects && s.db.objects[s.cleaners[w].o].status == OPendingDelete
      then Dropped(s.cleaners[w].o) else Still
    case _ => Still
  }

  lemma BeginMoves(db: Db, actor: Id, a: Id, o: Id, meta: Meta, global: int)
    ensures var out := BeginSpec(db, actor, a, o, meta, global);
      && out.db.now == db.now
      && Moved(db.objects, out.db.objects, if out.result.Ok? then Created(o) else Still, db.now)
  {
    hide UploadPolicy, BeginRows, Moved;
    BeginRowsMove(db, actor, a, o, meta);
    assert Moved(db.objects, db.objects, Still, db.now) by { StillMoves(db); }
  }

  lemma BeginRowsMove(db: Db, actor: Id, a: Id, o: Id, meta: Meta)
    ensures var b := BeginRows(db, actor, a, o, meta);
      b.now == db.now && (o !in db.objects ==> Moved(db.objects, b.objects, Created(o), db.now))
  {
  }

  lemma StillMoves(db: Db)
    ensures Moved(db.objects, db.objects, Still, db.now)
  {
  }

  lemma ReadyMoves(db: Db, actor: Id, a: Id)
    ensures var b := ReadySpec(db, actor, a).db;
      && b.now == db.now
      && Moved(db.objects, b.objects, if CanBecomeReady(db, actor, a) then Readied(db.attachments[a].objectId) else Still, db.now)
  {
  }

  lemma ClaimMoves(db: Db, o: Id)
    requires Claimable(db, o)
    ensures ClaimRows(db, o).now == db.now && Moved(db.objects, ClaimRows(db, o).objects, Taken(o), db.now)
  {
    hide Referenced, HasExpiredReady;
  }

  lemma FinishMoves(db: Db, o: Id)
    ensures FinishRows(db, o).now == db.now
    ensures Moved(db.objects, FinishRows(db, o).objects,
                  if o in db.objects && db.objects[o].status == OPendingDelete then Dropped(o) else Still, db.now)
  {
    if o in db.objects && db.objects[o].status == OPendingDelete {
      var objects := db.objects[o := db.objects[o].(status := ODeleted)];
      assert FinishRows(db, o) == db.(objects := objects);
    } else {
      assert FinishRows(db, o) == db;
    }
  }

  lemma TransactMoves(s: World, action: Action)
    requires Safe(s)
    ensures Next(s, Transact(action)).db.objects == s.db.objects && s.db.now <= Next(s, Transact(action)).db.now
  {
    hide Apply, Inv, SameMembers, LogGrows, Persists;
    if Ordinary(action) {
      StepKeeps(s.db, action);
      OrdinaryStays(s.db, action);
    }
  }

  lemma StepMoves(s: World, x: Step)
    requires Safe(s)
    ensures Moved(s.db.objects, Next(s, x).db.objects, MoveOf(s, x), s.db.now) && s.db.now <= Next(s, x).db.now
  {
    hide BeginSpec, ReadySpec, ClaimRows, FinishRows, Claimable, CanBecomeReady, Apply, Inv;
    match x {
      case Transact(action) => TransactMoves(s, action);
      case Begin(p, actor, a, o, meta, global) => BeginMoves(s.db, actor, a, o, meta, global);
      case MarkReady(p) =>
        if p in s.uploads && s.uploads[p].Uploaded? {
          assert UploadOk(s.db.objects, s.db.attachments, s.blobs, s.uploads[p]);
          ReadyMoves(s.db, s.uploads[p].actor, s.uploads[p].a);
        }
      case Claim(w, o) => if Claimable(s.db, o) { ClaimMoves(s.db, o); }
      case Finish(w) => if w in s.cleaners { FinishMoves(s.db, s.cleaners[w].o); }
      case _ =>
    }
  }

  /** What a step does to the store and to the processes, given the object it moved. */
  ghost predicate Parts(a: World, b: World, x: Step, v: Move) {
    match x
    case Transact(_) => b.blobs == a.blobs && b.uploads == a.uploads && b.cleaners == a.cleaners
    case Begin(p, actor, at, o, _, _) =>
      && b.blobs == a.blobs && b.cleaners == a.cleaners
      && b.uploads == if v == Created(o) then a.uploads[p := Began(actor, at, o)] else a.uploads
    case Put(p) =>
      && b.cleaners == a.cleaners
      && if p in a.uploads && a.uploads[p].Began?
         then b.blobs == a.blobs + {a.uploads[p].o} && b.uploads == a.uploads[p := Uploaded(a.uploads[p].actor, a.uploads[p].a, a.uploads[p].o)]
         else b.blobs == a.blobs && b.uploads == a.uploads
    case MarkReady(p) => b.blobs == a.blobs && b.cleaners == a.cleaners && (b.uploads == a.uploads - {p} || b.uploads == a.uploads)
    case Abandon(p) => b.blobs == a.blobs && b.cleaners == a.cleaners && b.uploads == a.uploads - {p}
    case Claim(w, o) =>
      && b.blobs == a.blobs && b.uploads == a.uploads
      && b.cleaners == if v == Taken(o) then a.cleaners[w := Claimed(o)] else a.cleaners
    case Erase(w) =>
      && b.uploads == a.uploads
      && if w in a.cleaners && a.cleaners[w].Claimed?
         then b.blobs == a.blobs - {a.cleaners[w].o} && b.cleaners == a.cleaners[w := Erased(a.cleaners[w].o)]
         else b.blobs == a.blobs && b.cleaners == a.cleaners
    case Finish(w) => b.blobs == a.blobs && b.uploads == a.uploads && (b.cleaners == a.cleaners - {w} || b.cleaners == a.cleaners)
    case Crash(w) => b.blobs == a.blobs && b.uploads == a.uploads && b.cleaners == a.cleaners - {w}
  }

  lemma StepParts(s: World, x: Step)
    ensures Parts(s, Next(s, x), x, MoveOf(s, x))
  {
    hide BeginSpec, ReadySpec, ClaimRows, FinishRows, Claimable, CanBecomeReady, Apply;
  }

  // ----- what an upload in flight knows -----

  /** An upload whose bytes are not stored yet still finds its object uploading, unless the
      object is more than an hour old. */
  ghost predicate Waiting(objects: Objects, now: Time, u: Upload) {
    u.Began? ==> u.o in objects && (objects[u.o].status == OUploading || objects[u.o].createdAt < now - HOUR)
  }

  ghost predicate Alone(uploads: map<Id, Upload>) {
    forall p, q | p in uploads && q in uploads && p != q :: uploads[p].o != uploads[q].o
  }

  ghost predicate Tracked(objects: Objects, now: Time, uploads: map<Id, Upload>) {
    && Alone(uploads)
    && (forall p | p in uploads :: uploads[p].o in objects && Waiting(objects, now, uploads[p]))
  }

  /** The object that moves is new, or belongs to the upload that moves it, or was old. */
  ghost predicate Fair(s: World, x: Step, v: Move) {
    match v
    case Created(o) => x.Begin? && x.o == o && x.p !in s.uploads
    case Readied(o) => x.MarkReady? && x.p in s.uploads && s.uploads[x.p].Uploaded? && s.uploads[x.p].o == o
    case Taken(o) => o in s.db.objects && (s.db.objects[o].status == OUploading ==> s.db.objects[o].createdAt < s.db.now - HOUR)
    case Dropped(o) => x.Finish? && x.w in s.cleaners && s.cleaners[x.w] == Erased(o)
    case Still => true
  }

  lemma StepIsFair(s: World, x: Step)
    requires Reachable(s.db)
    ensures Fair(s, x, MoveOf(s, x))
  {
    hide Reachable, BeginSpec, CanBecomeReady, Referenced, HasExpiredReady;
    if x.Claim? && Claimable(s.db, x.o) { ClaimableIsAge(s.db, x.o); }
  }

  lemma TrackedStep(s: World, b: World, x: Step, v: Move)
    requires Tracked(s.db.objects, s.db.now, s.uploads)
    requires Moved(s.db.objects, b.db.objects, v, s.db.now) && s.db.now <= b.db.now && Parts(s, b, x, v) && Fair(s, x, v)
    ensures Tracked(b.db.objects, b.db.now, b.uploads)
  {
    forall p | p in b.uploads ensures b.uploads[p].o in b.db.objects && Waiting(b.db.objects, b.db.now, b.uploads[p]) {
      if p in s.uploads { assert Waiting(s.db.objects, s.db.now, s.uploads[p]); }
    }
  }

  /** What every reachable world satisfies. */
  ghost predicate Sound(s: World) {
    Safe(s) && Reachable(s.db) && Tracked(s.db.objects, s.db.now, s.uploads)
  }

  lemma NextSound(s: World, x: Step)
    requires Sound(s)
    ensures Sound(Next(s, x))
  {
    hide Safe, Reachable, Next, Tracked, Commits, Moved, MoveOf, Parts, Fair;
    NextSafe(s, x);
    StepCommits(s, x);
    if Commits(s, x).Some? { ReachableStep(s.db, Commits(s, x).value); }
    StepMoves(s, x);
    StepParts(s, x);
    StepIsFair(s, x);
    TrackedStep(s, Next(s, x), x, MoveOf(s, x));
  }

  lemma {:induction false} PlaySound(s: World, steps: seq<Step>)
    requires Sound(s)
    ensures Sound(Play(s, steps))
    decreases |steps|
  {
    hide Sound, Next;
    if steps != [] {
      NextSound(s, steps[0]);
      PlaySound(Next(s, steps[0]), steps[1..]);
    }
  }

  lemma EmptyIsSound(s: World)
    requires Empty(s)
    ensures Sound(s)
  {
    hide Safe, Init;
    EmptyIsSafe(s);
    assert Run(s.db, []) == s.db;
    assert s.uploads == map[];
  }

  /** Every database under uploads and cleaners is one the service reaches by itself. */
  lemma WorldsAreSound(s: World)
    requires ReachableWorld(s)
    ensures Sound(s)
  {
    hide Play, Sound;
    var start, steps :| Empty(start) && s == Play(start, steps);
    assert Sound(start) by { EmptyIsSound(start); }
    PlaySound(start, steps);
  }

  // ----- no orphan: bytes stored in time -----

  /** The bytes of an object are held only while it can still be cleaned, and no cleaner
      that erased them has them behind its back. */
  ghost predicate Clean(s: World, o: Id) {
    && (o in s.blobs ==> o in s.db.objects && s.db.objects[o].status != ODeleted)
    && (forall w | w in s.cleaners && s.cleaners[w] == Erased(o) :: o !in s.blobs)
  }

  /** This step stores the bytes of `o`. */
  predicate Stores(s: World, x: Step, o: Id) {
    x.Put? && x.p in s.uploads && s.uploads[x.p].Began? && s.uploads[x.p].o == o
  }

  lemma CleanMoves(s: World, b: World, x: Step, v: Move, o: Id)
    requires Clean(s, o) && Moved(s.db.objects, b.db.objects, v, s.db.now) && Parts(s, b, x, v) && Fair(s, x, v)
    requires forall w | w in s.cleaners :: CleaningOk(s.db.objects, s.cleaners[w])
    requires Stores(s, x, o) ==> o in s.db.objects && s.db.objects[o].status == OUploading
    ensures Clean(b, o)
  {
    forall w | w in s.cleaners && s.cleaners[w] == Erased(o) ensures !Stores(s, x, o) {
      assert CleaningOk(s.db.objects, s.cleaners[w]);
    }
  }

  lemma CleanStep(s: World, x: Step, o: Id)
    requires Sound(s) && Clean(s, o)
    requires Stores(s, x, o) ==> o in s.db.objects && s.db.objects[o].status == OUploading
    ensures Clean(Next(s, x), o)
  {
    hide Inv, Reachable, Next, Tracked, Moved, MoveOf, Parts, Fair, Clean, CleaningOk, UploadOk;
    StepMoves(s, x);
    StepParts(s, x);
    StepIsFair(s, x);
    CleanMoves(s, Next(s, x), x, MoveOf(s, x), o);
  }

  /** Every upload stores its bytes while its object is still uploading. */
  ghost predicate Timely(s: World, steps: seq<Step>)
    decreases |steps|
  {
    steps != [] ==>
      && (forall o | Stores(s, steps[0], o) :: o in s.db.objects && s.db.objects[o].status == OUploading)
      && Timely(Next(s, steps[0]), steps[1..])
  }

  /** Every upload stores its bytes while its object is at most an hour old. */
  ghost predicate Prompt(s: World, steps: seq<Step>)
    decreases |steps|
  {
    steps != [] ==>
      && (forall o | Stores(s, steps[0], o) :: o in s.db.objects && s.db.now - HOUR <= s.db.objects[o].createdAt)
      && Prompt(Next(s, steps[0]), steps[1..])
  }

  /** An uploader that is done within the hour of its first transaction is in time. */
  lemma {:induction false} PromptIsTimely(s: World, steps: seq<Step>)
    requires Sound(s) && Prompt(s, steps)
    ensures Timely(s, steps)
    decreases |steps|
  {
    hide Safe, Reachable, Next;
    if steps != [] {
      forall o | Stores(s, steps[0], o) ensures o in s.db.objects && s.db.objects[o].status == OUploading {
        assert Waiting(s.db.objects, s.db.now, s.uploads[steps[0].p]);
      }
      NextSound(s, steps[0]);
      PromptIsTimely(Next(s, steps[0]), steps[1..]);
    }
  }

  lemma {:induction false} TimelyKeeps(s: World, steps: seq<Step>, o: Id)
    requires Sound(s) && Clean(s, o) && Timely(s, steps)
    ensures Clean(Play(s, steps), o)
    decreases |steps|
  {
    hide Sound, Next, Clean, Stores;
    if steps != [] {
      CleanStep(s, steps[0], o);
      NextSound(s, steps[0]);
      TimelyKeeps(Next(s, steps[0]), steps[1..], o);
    }
  }

  /** Nothing leaks while uploads store in time: the bytes of every object are in use, or
      the cleaner takes them as soon as the object is an hour old, whatever crashes. */
  lemma TimelyRunsLeakNothing(start: World, steps: seq<Step>, o: Id)
    requires Empty(start) && Timely(start, steps) && o in Play(start, steps).blobs
    ensures var s := Play(start, steps);
      && o in s.db.objects && s.db.objects[o].status != ODeleted
      && (Referenced(s.db, o) || Claimable(s.db.(now := Max(s.db.now, s.db.objects[o].createdAt + HOUR + 1)), o))
      && forall w | w in s.cleaners :: s.cleaners[w] != Erased(o)
  {
    hide Sound, Play, Timely;
    assert Sound(start) by { EmptyIsSound(start); }
    assert Clean(start, o);
    hide Empty;
    TimelyKeeps(start, steps, o);
    var s := Play(start, steps);
    CollectableLater(s.db, o, Max(s.db.now, s.db.objects[o].createdAt + HOUR + 1));
  }

  lemma CollectableLater(db: Db, o: Id, t: Time)
    requires o in db.objects && db.objects[o].status != ODeleted && db.objects[o].createdAt < t - HOUR
    ensures Referenced(db, o) || Claimable(db.(now := t), o)
  {
    var b := db.(now := t);
    if Referenced(b, o) {
      var a :| a in b.attachments && Of(b, a, o) && b.attachments[a].status == AAttached;
      assert Of(db, a, o);
    }
  }

  // ----- orphans -----

  /** Bytes of a deleted object, and no cleaner is on its way to erase them. */
  ghost predicate Orphaned(s: World, o: Id) {
    && o in s.blobs && o in s.db.objects && s.db.objects[o].status == ODeleted
    && forall w | w in s.cleaners :: s.cleaners[w] != Claimed(o)
  }

  lemma OrphanMoves(s: World, b: World, x: Step, v: Move, o: Id)
    requires Orphaned(s, o) && Moved(s.db.objects, b.db.objects, v, s.db.now) && Parts(s, b, x, v)
    ensures Orphaned(b, o)
  {
  }

  /** An orphan stays one, whatever anybody does: no claim will ever find it. */
  lemma {:induction false} OrphansStay(s: World, steps: seq<Step>, o: Id)
    requires Sound(s) && Orphaned(s, o)
    ensures Orphaned(Play(s, steps), o) && !Claimable(Play(s, steps).db, o)
    decreases |steps|
  {
    hide Safe, Reachable, Tracked, Next, Moved, Parts, MoveOf, Referenced, HasExpiredReady;
    if steps != [] {
      StepMoves(s, steps[0]);
      StepParts(s, steps[0]);
      OrphanMoves(s, Next(s, steps[0]), steps[0], MoveOf(s, steps[0]), o);
      NextSound(s, steps[0]);
      hide Sound, Orphaned, Claimable;
      OrphansStay(Next(s, steps[0]), steps[1..], o);
    }
  }

  /** `o` is clean, and no upload is left that would store its bytes. */
  ghost predicate Closed(s: World, o: Id) {
    && Clean(s, o) && o in s.db.objects
    && forall p | p in s.uploads && s.uploads[p].Began? :: s.uploads[p].o != o
  }

  lemma ClosedMoves(s: World, b: World, x: Step, v: Move, o: Id)
    requires Closed(s, o) && Moved(s.db.objects, b.db.objects, v, s.db.now) && Parts(s, b, x, v) && Fair(s, x, v) && Clean(b, o)
    ensures Closed(b, o)
  {
    hide Clean;
  }

  lemma {:induction false} ClosedStays(s: World, steps: seq<Step>, o: Id)
    requires Sound(s) && Closed(s, o)
    ensures Closed(Play(s, steps), o)
    decreases |steps|
  {
    hide Safe, Reachable, Tracked, Next, Moved, Parts, MoveOf, Clean, Fair;
    if steps != [] {
      StepMoves(s, steps[0]);
      StepParts(s, steps[0]);
      StepIsFair(s, steps[0]);
      CleanStep(s, steps[0], o);
      ClosedMoves(s, Next(s, steps[0]), steps[0], MoveOf(s, steps[0]), o);
      NextSound(s, steps[0]);
      hide Sound, Closed;
      ClosedStays(Next(s, steps[0]), steps[1..], o);
    }
  }

  /** The cleaners on their way to erase `o` crash, one by one. */
  lemma {:induction false} CrashClaims(s: World, o: Id, left: set<Id>) returns (steps: seq<Step>)
    requires left <= s.cleaners.Keys && forall w | w in s.cleaners && s.cleaners[w] == Claimed(o) :: w in left
    requires forall w | w in left :: s.cleaners[w] == Claimed(o)
    ensures Play(s, steps) == s.(cleaners := s.cleaners - left)
    decreases left
  {
    hide Apply, BeginSpec, ReadySpec, ClaimRows, FinishRows, Claimable;
    if left == {} {
      steps := [];
      assert s.cleaners - left == s.cleaners;
    } else {
      var w :| w in left;
      var b := s.(cleaners := s.cleaners - {w});
      assert Next(s, Crash(w)) == b;
      var rest := CrashClaims(b, o, left - {w});
      steps := [Crash(w)] + rest;
      assert steps[1..] == rest && b.cleaners - (left - {w}) == s.cleaners - left;
    }
  }

  lemma {:induction false} PlayAppends(s: World, steps: seq<Step>, x: Step)
    ensures Play(s, steps + [x]) == Next(Play(s, steps), x)
    decreases |steps|
  {
    hide Next;
    if steps == [] {
      assert Play(Next(s, x), []) == Next(s, x);
    } else {
      assert (steps + [x])[1..] == steps[1..] + [x];
      PlayAppends(Next(s, steps[0]), steps[1..], x);
    }
  }

  /** The erasure of the bytes lies behind: the object is deleted, or a cleaner has erased
      them and has only the row to finish. */
  ghost predicate PastErasure(s: World, o: Id) {
    || (o in s.db.objects && s.db.objects[o].status == ODeleted)
    || exists w :: w in s.cleaners && s.cleaners[w] == Erased(o)
  }

  lemma FinishOrphans(s: World, w: Id, o: Id)
    requires Safe(s) && w in s.cleaners && s.cleaners[w] == Erased(o) && o in s.blobs
    requires forall v | v in s.cleaners :: s.cleaners[v] != Claimed(o)
    ensures Orphaned(Next(s, Finish(w)), o)
  {
    hide Inv, FinishRows, Apply, BeginSpec, ReadySpec, ClaimRows;
    assert CleaningOk(s.db.objects, s.cleaners[w]);
    FinishAdvances(s.db, s.blobs, o);
    assert Next(s, Finish(w)) == s.(db := FinishRows(s.db, o), cleaners := s.cleaners - {w});
  }

  lemma PastErasureLeaks(s: World, o: Id) returns (steps: seq<Step>)
    requires Sound(s) && o in s.blobs && PastErasure(s, o)
    ensures Orphaned(Play(s, steps), o)
  {
    hide Next, Safe, Reachable, Tracked;
    var claims := set w | w in s.cleaners && s.cleaners[w] == Claimed(o);
    steps := CrashClaims(s, o, claims);
    PlaySound(s, steps);
    var b := Play(s, steps);
    assert b == s.(cleaners := s.cleaners - claims);
    hide Play;
    if !(o in s.db.objects && s.db.objects[o].status == ODeleted) {
      var w :| w in s.cleaners && s.cleaners[w] == Erased(o);
      FinishOrphans(b, w, o);
      PlayAppends(s, steps, Finish(w));
      steps := steps + [Finish(w)];
    }
  }

  lemma PutParts(s: World, p: Id)
    requires p in s.uploads && s.uploads[p].Began?
    ensures var b, u := Next(s, Put(p)), s.uploads[p];
      && b.db == s.db && b.blobs == s.blobs + {u.o} && b.cleaners == s.cleaners
      && b.uploads == s.uploads[p := Uploaded(u.actor, u.a, u.o)]
  {
    hide Apply, BeginSpec, ReadySpec, ClaimRows, FinishRows, Claimable;
  }

  /** Bytes stored now can be left behind for good exactly when their erasure already lies
      behind: the object is deleted, or some cleaner has erased and not finished. */
  lemma LateBytesLeakExactly(s: World, p: Id)
    requires ReachableWorld(s) && p in s.uploads && s.uploads[p].Began?
    ensures (exists steps :: Orphaned(Play(Next(s, Put(p)), steps), s.uploads[p].o)) <==> PastErasure(s, s.uploads[p].o)
  {
    hide ReachableWorld, Next, Play, Safe, Reachable;
    WorldsAreSound(s);
    NextSound(s, Put(p));
    PutParts(s, p);
    var b, o := Next(s, Put(p)), s.uploads[p].o;
    if PastErasure(s, o) {
      assert PastErasure(b, o);
      var steps := PastErasureLeaks(b, o);
    } else {
      assert Closed(b, o);
      hide Sound, Closed;
      forall steps ensures !Orphaned(Play(b, steps), o) {
        ClosedStays(b, steps, o);
        assert Closed(Play(b, steps), o);
        ClosedIsNoOrphan(Play(b, steps), o);
      }
    }
  }

  lemma ClosedIsNoOrphan(s: World, o: Id)
    requires Closed(s, o)
    ensures !Orphaned(s, o)
  {
  }

  // ----- a run that leaves an orphan -----

  /** A world in which an upload began; then the clock moved on to `t`. */
  function Begun(s: World, p: Id, actor: Id, a: Id, o: Id, meta: Meta, t: Time): World {
    World(BeginRows(s.db, actor, a, o, meta).(now := t), s.blobs, s.uploads[p := Began(actor, a, o)], s.cleaners)
  }

  lemma BeginRuns(s: World, p: Id, actor: Id, a: Id, o: Id, meta: Meta, global: int, t: Time)
    requires p !in s.uploads && BeginSpec(s.db, actor, a, o, meta, global).result.Ok? && s.db.now <= t
    ensures Next(Next(s, Begin(p, actor, a, o, meta, global)), Transact(ATick(t))) == Begun(s, p, actor, a, o, meta, t)
  {
    hide UploadPolicy, BeginRows;
    var b := s.(db := BeginRows(s.db, actor, a, o, meta), uploads := s.uploads[p := Began(actor, a, o)]);
    assert Next(s, Begin(p, actor, a, o, meta, global)) == b;
    BeginRowsMove(s.db, actor, a, o, meta);
    hide BeginSpec;
    LaterSteps(b.db, o, t);
    hide Apply;
    assert Next(b, Transact(ATick(t))) == b.(db := b.db.(now := t));
  }

  lemma PlayOfFour(s: World, x: Step, y: Step, z: Step, u: Step)
    ensures Play(s, [x, y, z, u]) == Next(Next(Next(Next(s, x), y), z), u)
  {
    hide Next;
    var b := Next(Next(s, x), y);
    assert [x, y, z, u][1..] == [y, z, u] && [y, z, u][1..] == [z, u] && [z, u][1..] == [u] && [u][1..] == [];
    assert Play(s, [x, y, z, u]) == Play(Next(s, x), [y, z, u]) == Play(b, [z, u]) == Play(Next(b, z), [u]) == Play(Next(Next(b, z), u), []);
  }

  lemma ClaimParts(s: World, w: Id, o: Id)
    requires w !in s.cleaners && Claimable(s.db, o)
    ensures var b := Next(s, Claim(w, o)); b.blobs == s.blobs && b.uploads == s.uploads && b.cleaners == s.cleaners[w := Claimed(o)]
  {
    hide Apply, BeginSpec, ReadySpec, ClaimRows, FinishRows, Referenced, HasExpiredReady;
  }

  lemma EraseParts(s: World, w: Id, o: Id)
    requires w in s.cleaners && s.cleaners[w] == Claimed(o)
    ensures var b := Next(s, Erase(w)); b.db == s.db && b.blobs == s.blobs - {o} && b.uploads == s.uploads && b.cleaners == s.cleaners[w := Erased(o)]
  {
    hide Apply, BeginSpec, ReadySpec, ClaimRows, FinishRows, Claimable;
  }

  /** Whenever the object of an upload that has not stored its bytes can be claimed, one
      cleaner that works between two steps of the upload orphans them. */
  lemma OvertakenUploadLeaks(s: World, p: Id, w: Id, o: Id)
    requires Sound(s) && p in s.uploads && s.uploads[p].Began? && s.uploads[p].o == o && w !in s.cleaners && Claimable(s.db, o)
    requires forall v | v in s.cleaners :: s.cleaners[v] != Claimed(o)
    ensures Orphaned(Play(s, [Claim(w, o), Erase(w), Put(p), Finish(w)]), o)
  {
    hide Next, Play, Safe, Reachable, Tracked, Claimable;
    PlayOfFour(s, Claim(w, o), Erase(w), Put(p), Finish(w));
    ClaimParts(s, w, o);
    var claimed := Next(s, Claim(w, o));
    EraseParts(claimed, w, o);
    var erased := Next(claimed, Erase(w));
    PutParts(erased, p);
    NextSound(s, Claim(w, o));
    NextSound(claimed, Erase(w));
    NextSound(erased, Put(p));
    FinishOrphans(Next(erased, Put(p)), w, o);
  }

  lemma BegunIsClaimable(db: Db, actor: Id, a: Id, o: Id, meta: Meta, t: Time)
    requires (forall x | x in db.attachments :: db.attachments[x].objectId != o) && db.now + HOUR < t
    ensures Claimable(BeginRows(db, actor, a, o, meta).(now := t), o)
  {
    assert !Referenced(BeginRows(db, actor, a, o, meta).(now := t), o);
  }

  lemma PolicyAdmits(db: Db, actor: Id, a: Id, o: Id, meta: Meta, global: int)
    requires UploadPolicy(db, actor, global).Ok? && meta.size <= UploadPolicy(db, actor, global).value
    requires o !in db.objects && a !in db.attachments
    ensures BeginSpec(db, actor, a, o, meta, global).result.Ok?
  {
    hide UploadPolicy, BeginRows;
  }

  lemma PlayOfSix(s: World, x: Step, y: Step, rest: seq<Step>)
    requires |rest| == 4
    ensures Play(s, [x, y, rest[0], rest[1], rest[2], rest[3]]) == Play(Next(Next(s, x), y), rest)
  {
    hide Next;
    var steps := [x, y, rest[0], rest[1], rest[2], rest[3]];
    assert steps[1..][1..] == rest;
    assert Play(s, steps) == Play(Next(s, x), steps[1..]) == Play(Next(Next(s, x), y), steps[1..][1..]);
  }

  /** From the empty project: an upload begins, stores its bytes an hour later than it could,
      and meanwhile a cleaner claimed, erased, and then finished. The bytes are stored, the
      object is deleted, and so it stays over every further run. */
  lemma LateUploadLeaks(start: World, p: Id, w: Id, actor: Id, a: Id, o: Id, meta: Meta, global: int, age: int, later: seq<Step>)
    requires Empty(start) && UploadPolicy(start.db, actor, global).Ok? && meta.size <= UploadPolicy(start.db, actor, global).value
    requires HOUR < age
    ensures var s := Play(start, [Begin(p, actor, a, o, meta, global), Transact(ATick(start.db.now + age)),
                                  Claim(w, o), Erase(w), Put(p), Finish(w)]);
      && ReachableWorld(s) && Orphaned(s, o)
      && Orphaned(Play(s, later), o) && !Claimable(Play(s, later).db, o)
  {
    hide UploadPolicy, BeginSpec, BeginRows, Sound, Next, Play, Orphaned, Claimable;
    var t := start.db.now + age;
    var x, y := Begin(p, actor, a, o, meta, global), Transact(ATick(t));
    var rest := [Claim(w, o), Erase(w), Put(p), Finish(w)];
    var steps := [x, y, rest[0], rest[1], rest[2], rest[3]];
    assert ReachableWorld(Play(start, steps));
    EmptyIsSound(start);
    PolicyAdmits(start.db, actor, a, o, meta, global);
    BeginRuns(start, p, actor, a, o, meta, global, t);
    BegunIsClaimable(start.db, actor, a, o, meta, t);
    NextSound(start, x);
    NextSound(Next(start, x), y);
    OvertakenUploadLeaks(Begun(start, p, actor, a, o, meta, t), p, w, o);
    PlayOfSix(start, x, y, rest);
    hide Empty;
    PlaySound(start, steps);
    OrphansStay(Play(start, steps), later, o);
  }
}
