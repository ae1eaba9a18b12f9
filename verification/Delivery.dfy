/** Who is shown a queued frame: membership and the log are read again at delivery
    (internal/realtime/session.go). */
module Delivery {
  import opened Basics
  import opened Schema
  import opened Recovery
  import opened Deltas
  import opened Invariants
  import opened Evolution
  import opened System
  import opened Admission
  import opened Readers
  import opened Session

  /** Frames a client may see whatever became of its membership. */
  predicate Harmless(f: Frame) {
    f.Revoked? || f.ResyncRequired? || f.Failure? || Of(f) == None
  }

  // ----- one delivery -----

  /** A refused frame of `c` is replaced by exactly the revocation of `c`. */
  lemma RefusedIsRevoked(s: State, db: Db, fate: Fate)
    requires s.writer.Busy? && !Harmless(s.writer.f)
    ensures Next(s, Deliver(db, false, fate)).written == s.written + [Revoked(Of(s.writer.f).value)]
  {
    hide ReplaySpec;
  }

  /** What one delivery of `f` may put on the socket: a frame that is not harmless only if the
      check allowed it, and otherwise exactly the revocation; an event only to a current
      member, from the log. */
  ghost predicate Checked(user: Id, f: Frame, g: Frame, db: Db, allowed: bool) {
    && (!Harmless(g) ==> allowed)
    && (!Harmless(f) && !allowed ==> g == Revoked(Of(f).value))
    && (g.Event? ==> MayRead(db, g.c, user) && (g.c, g.s) in db.events)
  }

  lemma DeliveryIsChecked(s: State, db: Db, allowed: bool, fate: Fate)
    ensures var b := Next(s, Deliver(db, allowed, fate));
      b.written == s.written
      || (&& s.writer.Busy? && |b.written| == |s.written| + 1 && b.written[..|s.written|] == s.written
          && Checked(s.user, s.writer.f, b.written[|s.written|], db, allowed))
  {
    hide HydrationError, Suffix;
    if s.writer.Busy? && s.writer.f.Event? {
      var f := s.writer.f;
      PageShowsTheLog(db, s.user, f.c, f.s - 1, 1);
      PageIsContiguous(db, s.user, f.c, f.s - 1, 1);
    }
  }

  /** Every other allowed frame: a subscription or a sync point goes out as it is; a notice of
      a conversation is read again too, and revoked, or dropped with the socket, if what it
      shows is gone or cannot be read. */
  lemma FrameAnswers(s: State, db: Db, fate: Fate)
    requires s.writer.Busy? && !s.writer.f.Event?
    ensures var b, f := Next(s, Deliver(db, true, fate)), s.writer.f;
      if f.Notice? && f.conversation.Some? && fate == Gone then b.written == s.written + [Revoked(f.conversation.value)]
      else if f.Notice? && f.conversation.Some? && fate == Fate.Unavailable then b.written == s.written && b.closing
      else b.written == s.written + [f]
  {
    hide ReplaySpec;
  }

  lemma DeliveryShows(s: State, db: Db, allowed: bool, fate: Fate)
    requires s.writer.Busy?
    ensures var b := Next(s, Deliver(db, allowed, fate));
      match Session.Shown(s.user, s.writer.f, db, allowed, fate)
      case None => b.written == s.written && b.closing
      case Some(f) => b.written == s.written + [f]
  {
    hide ReplaySpec;
  }

  lemma MayReadIs(db: Db, c: Id, user: Id)
    requires MayRead(db, c, user)
    ensures c in db.conversations
  {
  }

  /** The fate of a queued event that the check allowed, in a reachable database: shown to a
      current member, revoked for anybody else; a log that ends before it forces a resync, or
      closes the socket if it ends right before it. */
  lemma EventAnswers(s: State, db: Db, fate: Fate)
    requires Reachable(db) && s.writer.Busy? && s.writer.f.Event? && s.writer.f.s >= 1
    ensures var b, c, n := Next(s, Deliver(db, true, fate)), s.writer.f.c, s.writer.f.s;
      if !MayRead(db, c, s.user) then b.written == s.written + [Revoked(c)]
      else if n <= db.conversations[c].eventSequence then b.written == s.written + [Event(c, n)]
      else if n == db.conversations[c].eventSequence + 1 then b.written == s.written && b.closing
      else b.written == s.written + [ResyncRequired(c)]
  {
    hide Reachable, ReplaySpec, MayRead, Next;
    var c, n := s.writer.f.c, s.writer.f.s;
    if MayRead(db, c, s.user) { MayReadIs(db, c, s.user); }
    ReplayAnswers(db, s.user, c, n - 1, 1);
    if MayRead(db, c, s.user) && n - 1 <= db.conversations[c].eventSequence { PageEnds(db, s.user, c, n - 1, 1); }
    DeliveryShows(s, db, true, fate);
  }

  /** A page ends at its limit or at the watermark. */
  lemma PageEnds(db: Db, user: Id, c: Id, after: int, limit: int)
    requires ReplaySpec(db, user, c, after, limit).Ok?
    ensures c in db.conversations
    ensures var page, high := ReplaySpec(db, user, c, after, limit).value, db.conversations[c].eventSequence;
      && page.through == (if after + limit < high then after + limit else high) && (page.more <==> page.through < high)
      && |page.events| == page.through - after
      && forall i | 0 <= i < |page.events| :: page.events[i].sequence == after + 1 + i
  {
    hide HydrationError, Stored;
    PageIsContiguous(db, user, c, after, limit);
  }

  // ----- whole runs -----

  lemma {:induction false} PlayLast(s: State, steps: seq<Step>)
    requires steps != []
    ensures Play(s, steps) == Next(Play(s, steps[..|steps| - 1]), steps[|steps| - 1])
    decreases |steps|
  {
    hide Next;
    var n := |steps| - 1;
    if n == 0 {
      assert Play(s, steps) == Play(Next(s, steps[0]), steps[1..]);
    } else {
      PlayLast(Next(s, steps[0]), steps[1..]);
      assert steps[1..][..n - 1] == steps[..n][1..];
    }
  }

  lemma OnlyDeliveryWrites(s: State, x: Step)
    ensures Next(s, x).user == s.user
    ensures !x.Deliver? ==> Next(s, x).written == s.written
  {
    hide ReplaySpec, Session.Shown;
  }

  lemma {:induction false} UserStays(s: State, steps: seq<Step>)
    ensures Play(s, steps).user == s.user
    decreases |steps|
  {
    hide Next;
    if steps != [] {
      OnlyDeliveryWrites(s, steps[0]);
      UserStays(Next(s, steps[0]), steps[1..]);
    }
  }

  /** Every frame ever written went through a check of its own: for the k-th step that wrote
      it, the check allowed it unless it is harmless, a refused one became its revocation, and
      an event was an event of the log that the session's user might read as a current member
      at that moment. */
  lemma {:induction false} EveryFrameIsChecked(start: State, steps: seq<Step>, i: int) returns (k: int)
    requires start.written == [] && 0 <= i < |Play(start, steps).written|
    ensures 0 <= k < |steps| && steps[k].Deliver? && |Play(start, steps[..k]).written| == i && Play(start, steps[..k]).writer.Busy?
    ensures Checked(start.user, Play(start, steps[..k]).writer.f, Play(start, steps).written[i], steps[k].db, steps[k].allowed)
    decreases |steps|
  {
    hide Next, Checked;
    var n := |steps| - 1;
    PlayLast(start, steps);
    var before := Play(start, steps[..n]);
    UserStays(start, steps[..n]);
    OnlyDeliveryWrites(before, steps[n]);
    if steps[n].Deliver? { DeliveryIsChecked(before, steps[n].db, steps[n].allowed, steps[n].fate); }
    if i < |before.written| {
      k := EveryFrameIsChecked(start, steps[..n], i);
      assert steps[..n][..k] == steps[..k];
    } else {
      k := n;
    }
  }

  // ----- subscriptions -----

  /** A subscription is granted exactly at a cursor of the log, to a current member, while
      fewer than 16 others stand. */
  lemma SubscribeAnswers(s: State, c: Id, after: int, db: Db)
    requires Reachable(db) && s.producer.Idle?
    ensures var b := Next(s, Subscribe(c, after, db));
      if 0 <= after && (c in s.subscriptions || |s.subscriptions| < 16) && MayRead(db, c, s.user) && after <= db.conversations[c].eventSequence
      then b == s.(subscriptions := s.subscriptions[c := after], producer := Granted(c, after))
      else b == Enqueue(s, Failure(Some(c)))
  {
    ReplayAnswers(db, s.user, c, after, 1);
    hide Reachable, ReplaySpec, Enqueue;
  }

  /** A granted subscription is acknowledged and read from its cursor, however full the queue
      is; a later catch-up waits for the queue to drain and needs a subscription. */
  lemma ReadingStarts(s: State, c: Id)
    ensures s.producer.Granted? ==>
              Next(s, Acknowledge) == Enqueue(s, SubscribeAck(s.producer.c, s.producer.after)).(producer := Reading(s.producer.c, true))
    ensures s.producer.Idle? ==>
              Next(s, Catchup(c)).producer == if c in s.subscriptions then Reading(c, false) else Idle
  {
  }

  /** One event is enqueued with the cursor behind it; if the queue is full the cursor stays,
      the page is abandoned and the socket closes. */
  lemma EmitAnswers(s: State)
    requires s.producer.Emitting? && s.producer.next <= s.producer.through
    ensures var b, p := Next(s, Emit), s.producer;
      if |s.queue| < 64
      then
        && b.queue == s.queue + [Event(p.c, p.next)] && b.subscriptions == s.subscriptions[p.c := p.next]
        && b.producer == p.(next := p.next + 1) && b.closing == s.closing
      else b.queue == s.queue && b.subscriptions == s.subscriptions && b.producer.Idle? && b.closing
  {
  }

  /** A catch-up of a subscription: revoked for somebody who is no member any more, resynced
      when the log ends before the cursor, and otherwise at most 32 events on from it. */
  lemma ReadAnswers(s: State, db: Db)
    requires Reachable(db) && s.producer.Reading? && s.producer.c in s.subscriptions && 0 <= s.subscriptions[s.producer.c]
    ensures var b, c := Next(s, Read(db)), s.producer.c;
      var after := s.subscriptions[c];
      if |s.queue| > 16 && !s.producer.initial then b == s.(producer := Idle)
      else if !MayRead(db, c, s.user) then b == Enqueue(s.(subscriptions := s.subscriptions - {c}), Revoked(c)).(producer := Idle)
      else if after > db.conversations[c].eventSequence
      then b == Enqueue(s.(subscriptions := s.subscriptions - {c}), ResyncRequired(c)).(producer := Idle)
      else
        var high := db.conversations[c].eventSequence;
        var through := if after + 32 < high then after + 32 else high;
        b == s.(producer := Emitting(c, after + 1, through, through == high && (s.producer.initial || through > after), s.producer.initial))
  {
    var c, after := s.producer.c, s.subscriptions[s.producer.c];
    ReplayAnswers(db, s.user, c, after, 32);
    if MayRead(db, c, s.user) && after <= db.conversations[c].eventSequence { PageEnds(db, s.user, c, after, 32); }
    hide Reachable, ReplaySpec, Enqueue;
  }

  /** One step follows no conversation more, or one while there are fewer than 16. */
  ghost predicate Adjusts(a: map<Id, int>, b: map<Id, int>) {
    b.Keys <= a.Keys || (|a| < 16 && exists k :: k in b && b.Keys == a.Keys + {k})
  }

  lemma ReadAdjusts(s: State, c: Id, initial: bool, db: Db)
    requires c in s.subscriptions
    ensures Adjusts(s.subscriptions, ReadPage(s, c, initial, db).subscriptions)
  {
    hide ReplaySpec;
    var b := ReadPage(s, c, initial, db);
    assert b.subscriptions == s.subscriptions || b.subscriptions == s.subscriptions - {c};
  }

  lemma EmitAdjusts(s: State)
    requires s.producer.Emitting? ==> s.producer.c in s.subscriptions
    ensures Adjusts(s.subscriptions, Produce(s, Emit).subscriptions)
  {
    hide Adjusts;
    Nothing(s.subscriptions);
    if s.producer.Emitting? { SetAdjusts(s.subscriptions, s.producer.c, s.producer.next); }
  }

  lemma SetAdjusts(a: map<Id, int>, c: Id, n: int)
    requires c in a || |a| < 16
    ensures Adjusts(a, a[c := n])
  {
    var b := a[c := n];
    assert b.Keys == a.Keys + {c};
    if c in a { assert b.Keys == a.Keys; }
  }

  lemma SubscribeAdjusts(s: State, c: Id, after: int, db: Db)
    ensures Adjusts(s.subscriptions, Produce(s, Subscribe(c, after, db)).subscriptions)
  {
    hide ReplaySpec, Adjusts;
    Nothing(s.subscriptions);
    if c in s.subscriptions || |s.subscriptions| < 16 { SetAdjusts(s.subscriptions, c, after); }
  }

  lemma SubscriptionsAdjust(s: State, x: Step)
    requires s.producer.Emitting? ==> s.producer.c in s.subscriptions
    ensures Adjusts(s.subscriptions, Next(s, x).subscriptions)
  {
    hide ReplaySpec, Session.Shown, Adjusts, ReadPage;
    assert Adjusts(s.subscriptions, s.subscriptions) by { Nothing(s.subscriptions); }
    match x {
      case Subscribe(c, after, db) => SubscribeAdjusts(s, c, after, db);
      case Unsubscribe(c) => Dropped(s.subscriptions, c);
      case Read(db) => if s.producer.Reading? && s.producer.c in s.subscriptions { ReadAdjusts(s, s.producer.c, s.producer.initial, db); }
      case Emit => EmitAdjusts(s);
      case _ =>
    }
  }

  lemma Nothing(m: map<Id, int>)
    ensures Adjusts(m, m)
  {
  }

  lemma Dropped(m: map<Id, int>, c: Id)
    ensures Adjusts(m, m - {c})
  {
  }

  lemma SubscriptionsStep(a: map<Id, int>, b: map<Id, int>)
    requires |a| <= 16 && Adjusts(a, b)
    ensures |b| <= 16
  {
    assert |a.Keys| == |a| && |b.Keys| == |b|;
    if b.Keys <= a.Keys { SmallerSet(b.Keys, a.Keys); }
  }

  lemma SmallerSet(a: set<Id>, b: set<Id>)
    requires a <= b
    ensures |a| <= |b|
  {
    assert b == a + (b - a);
  }

  lemma {:induction false} SubscriptionsStay(start: State, steps: seq<Step>)
    requires Safe(start) && |start.subscriptions| <= 16
    ensures |Play(start, steps).subscriptions| <= 16
    decreases |steps|
  {
    hide Next, GapFree, QueueOk, WriterOk, Adjusts;
    if steps != [] {
      SubscriptionsAdjust(start, steps[0]);
      SubscriptionsStep(start.subscriptions, Next(start, steps[0]).subscriptions);
      NextSafe(start, steps[0]);
      SubscriptionsStay(Next(start, steps[0]), steps[1..]);
    }
  }

  /** No connection ever follows more than 16 conversations. */
  lemma SubscriptionsAreBounded(start: State, steps: seq<Step>)
    requires Session.Start(start)
    ensures |Play(start, steps).subscriptions| <= 16
  {
    hide Play, Next;
    assert Safe(start);
    SubscriptionsStay(start, steps);
  }
}
