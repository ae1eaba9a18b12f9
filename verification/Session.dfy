/** One WebSocket session: a producer and a writer around a bounded queue
    (internal/realtime/session.go, connection.go). */
module Session {
  import opened Basics
  import opened Schema
  import opened Recovery

  const QUEUE: int := 64
  const DRAINED: int := 16
  const PAGE: int := 32
  const SUBSCRIPTIONS: int := 16

  /** A frame on its way to the socket. `Notice` is any frame without a log position:
      command replies, presence and typing state. */
  datatype Frame =
    | SubscribeAck(c: Id, after: int)
    | Event(c: Id, s: int)
    | SyncComplete(c: Id, t: int)
    | Revoked(c: Id)
    | ResyncRequired(c: Id)
    | Notice(conversation: Option<Id>)
    | Failure(conversation: Option<Id>)

  /** The writer: before the close check, before the blocking select, delivering, gone. */
  datatype Writer = Top | Select | Busy(f: Frame) | Done

  /** The producer between two queue operations. */
  datatype Producer =
    | Idle
    | Granted(c: Id, after: int)
    | Reading(c: Id, initial: bool)
    | Emitting(c: Id, next: int, through: int, notify: bool, initial: bool)

  /** `stream`, `lost` and `taken` record history: what was enqueued before the first
      overflow, whether there was one, and how many frames the writer took. They decide
      nothing. */
  datatype State = State(
    user: Id,
    queue: seq<Frame>,
    closing: bool,
    producer: Producer,
    writer: Writer,
    subscriptions: map<Id, int>,
    written: seq<Frame>,
    stream: seq<Frame>,
    lost: bool,
    taken: int)

  /** enqueue: never blocks; a full queue requests the close instead. */
  function Enqueue(s: State, f: Frame): State {
    if |s.queue| < QUEUE then s.(queue := s.queue + [f], stream := if s.lost then s.stream else s.stream + [f])
    else s.(closing := true, lost := true)
  }

  // ----- steps -----

  /** What the fresh checks of a delivery found. */
  datatype Fate = Fresh | Gone | Unavailable

  datatype Step =
    | Subscribe(c: Id, after: int, db: Db)
    | Acknowledge
    | Unsubscribe(c: Id)
    | Say(f: Frame)
    | Catchup(c: Id)
    | Read(db: Db)
    | Emit
    | Stop
    | Check
    | Take
    | Deliver(db: Db, allowed: bool, fate: Fate)
    | Quit

  predicate Plain(f: Frame) {
    f.Notice? || f.Failure?
  }

  /** Producer steps: the loop of run, with replay split at every queue operation. */
  function Produce(s: State, x: Step): State {
    match x
    case Subscribe(c, after, db) =>
      if !s.producer.Idle? then s
      else if after < 0 || (c !in s.subscriptions && |s.subscriptions| >= SUBSCRIPTIONS) || ReplaySpec(db, s.user, c, after, 1).Err?
      then Enqueue(s, Failure(Some(c)))
      else s.(subscriptions := s.subscriptions[c := after], producer := Granted(c, after))
    case Acknowledge =>
      if s.producer.Granted? then
        Enqueue(s, SubscribeAck(s.producer.c, s.producer.after)).(producer := Reading(s.producer.c, true))
      else s
    case Unsubscribe(c) =>
      if s.producer.Idle? then Enqueue(s.(subscriptions := s.subscriptions - {c}), Notice(Some(c))) else s
    case Say(f) => if s.producer.Idle? && Plain(f) then Enqueue(s, f) else s
    case Catchup(c) => if s.producer.Idle? && c in s.subscriptions then s.(producer := Reading(c, false)) else s
    case Read(db) => if s.producer.Reading? && s.producer.c in s.subscriptions then ReadPage(s, s.producer.c, s.producer.initial, db) else s
    case Emit =>
      if !s.producer.Emitting? then s
      else
        var p := s.producer;
        if p.next <= p.through then
          if |s.queue| < QUEUE then
            var sent := Enqueue(s, Event(p.c, p.next));
            sent.(subscriptions := sent.subscriptions[p.c := p.next], producer := p.(next := p.next + 1))
          else Enqueue(s, Event(p.c, p.next)).(producer := Idle)
        else (if p.notify then Enqueue(s, SyncComplete(p.c, p.through)) else s).(producer := Idle)
    case _ => s
  }

  /** The read half of replay: refused while the queue drains, unless initial. */
  function ReadPage(s: State, c: Id, initial: bool, db: Db): State
    requires c in s.subscriptions
  {
    var after := s.subscriptions[c];
    if |s.queue| > DRAINED && !initial then s.(producer := Idle)
    else
      match ReplaySpec(db, s.user, c, after, PAGE)
      case Err(Resync) => Enqueue(s.(subscriptions := s.subscriptions - {c}), ResyncRequired(c)).(producer := Idle)
      case Err(NotFound) => Enqueue(s.(subscriptions := s.subscriptions - {c}), Revoked(c)).(producer := Idle)
      case Err(_) => s.(closing := true, producer := Idle)
      case Ok(page) => s.(producer := Emitting(c, after + 1, page.through, !page.more && (initial || page.through > after), initial))
  }

  /** What the writer puts on the socket for a queued frame: membership and the event are
      read again; None is a frame dropped together with a close request. */
  function Shown(user: Id, f: Frame, db: Db, allowed: bool, fate: Fate): Option<Frame> {
    match f
    case Revoked(_) => Some(f)
    case ResyncRequired(_) => Some(f)
    case Failure(_) => Some(f)
    case Notice(None) => Some(f)
    case Notice(Some(c)) =>
      if !allowed || fate == Gone then Some(Revoked(c)) else if fate == Fate.Unavailable then None else Some(f)
    case SubscribeAck(c, _) => Some(if allowed then f else Revoked(c))
    case SyncComplete(c, _) => Some(if allowed then f else Revoked(c))
    case Event(c, n) =>
      if !allowed then Some(Revoked(c))
      else
        match ReplaySpec(db, user, c, n - 1, 1)
        case Err(NotFound) => Some(Revoked(c))
        case Err(Resync) => Some(ResyncRequired(c))
        case Err(_) => None
        case Ok(page) => if |page.events| == 1 then Some(Event(c, page.events[0].sequence)) else None
  }

  /** Writer steps: a close request is checked first, but the blocking select may still
      pick one more frame. */
  function Write(s: State, x: Step): State {
    match x
    case Check => if s.writer.Top? then s.(writer := if s.closing then Done else Select) else s
    case Take => if s.writer.Select? && s.queue != [] then s.(writer := Busy(s.queue[0]), queue := s.queue[1..], taken := s.taken + 1) else s
    case Deliver(db, allowed, fate) =>
      if s.writer.Busy? then
        match Shown(s.user, s.writer.f, db, allowed, fate)
        case None => s.(closing := true, writer := Top)
        case Some(f) => s.(written := s.written + [f], writer := Top)
      else s
    case Quit => s.(writer := Done)
    case _ => s
  }

  function Next(s: State, x: Step): State {
    match x
    case Stop => s.(closing := true)
    case Check => Write(s, x)
    case Take => Write(s, x)
    case Deliver(_, _, _) => Write(s, x)
    case Quit => Write(s, x)
    case _ => Produce(s, x)
  }

  function Play(s: State, steps: seq<Step>): State
    decreases |steps|
  {
    if steps == [] then s else Play(Next(s, steps[0]), steps[1..])
  }

  predicate Start(s: State) {
    && s.queue == [] && !s.closing && s.producer == Idle && s.writer == Top && s.subscriptions == map[]
    && s.written == [] && s.stream == [] && !s.lost && s.taken == 0
  }

  // ----- gap freedom of a frame sequence -----

  /** Where a client following `frames` stands in `c`: after an acknowledged subscription
      and until it is revoked, the sequence of the last event. */
  function Position(frames: seq<Frame>, c: Id): Option<int>
    decreases |frames|
  {
    if frames == [] then None
    else
      var before := Position(frames[..|frames| - 1], c);
      match frames[|frames| - 1]
      case SubscribeAck(k, after) => if k == c then Some(after) else before
      case Event(k, s) => if k == c && before.Some? then Some(s) else before
      case Revoked(k) => if k == c then None else before
      case ResyncRequired(k) => if k == c then None else before
      case _ => before
  }

  /** `f` continues `frames` without a gap. */
  predicate Continues(frames: seq<Frame>, f: Frame) {
    match f
    case Event(c, s) => Position(frames, c).Some? ==> s == Position(frames, c).value + 1
    case SyncComplete(c, t) => Position(frames, c).Some? ==> t == Position(frames, c).value
    case _ => true
  }

  ghost predicate GapFree(frames: seq<Frame>) {
    forall i | 0 <= i < |frames| :: Continues(frames[..i], frames[i])
  }

  // ----- pages -----

  /** A page carries exactly the sequences after the cursor up to its end. */
  lemma PageIsContiguous(db: Db, user: Id, c: Id, after: int, limit: int)
    ensures match ReplaySpec(db, user, c, after, limit)
            case Err(_) => true
            case Ok(page) =>
              && after <= page.through <= after + limit && |page.events| == page.through - after
              && forall i | 0 <= i < |page.events| :: page.events[i].sequence == after + 1 + i
  {
    hide HydrationError, Scan;
  }

  // ----- the invariant -----

  function Of(f: Frame): Option<Id> {
    match f
    case SubscribeAck(c, _) => Some(c)
    case Event(c, _) => Some(c)
    case SyncComplete(c, _) => Some(c)
    case Revoked(c) => Some(c)
    case ResyncRequired(c) => Some(c)
    case Notice(c) => c
    case Failure(c) => c
  }

  /** What delivery may turn a frame into. */
  predicate Becomes(f: Frame, g: Frame) {
    g == f || (Of(f).Some? && (g == Revoked(Of(f).value) || g == ResyncRequired(Of(f).value)))
  }

  /** Frames of the pre-overflow stream still in the queue. */
  function Pending(s: State): int {
    |s.stream| - s.taken
  }

  ghost predicate QueueOk(s: State) {
    && 0 <= s.taken && 0 <= Pending(s) <= |s.queue| <= QUEUE
    && s.queue[..Pending(s)] == s.stream[s.taken..]
    && (!s.lost ==> Pending(s) == |s.queue|)
    && (s.lost ==> s.closing && (s.writer.Select? ==> Pending(s) > 0))
  }

  ghost predicate WriterOk(s: State) {
    && |s.written| <= s.taken <= |s.stream|
    && (forall i | 0 <= i < |s.written| :: Becomes(s.stream[i], s.written[i]))
    && match s.writer
       case Top => |s.written| == s.taken || s.closing
       case Select => |s.written| == s.taken
       case Busy(f) => |s.written| == s.taken - 1 && s.stream[s.taken - 1] == f
       case Done => true
  }

  /** Before any overflow, every subscription stands where its frames leave a client. */
  ghost predicate CursorOk(s: State, c: Id) {
    c in s.subscriptions && !(s.producer.Granted? && s.producer.c == c) ==> Position(s.stream, c) == Some(s.subscriptions[c])
  }

  ghost predicate ProducerOk(s: State) {
    && (!s.lost ==> forall c :: CursorOk(s, c))
    && match s.producer
       case Granted(c, after) => c in s.subscriptions && s.subscriptions[c] == after
       case Emitting(c, next, through, _, initial) =>
         && c in s.subscriptions && s.subscriptions[c] == next - 1 && next <= through + 1
         && (!initial ==> |s.queue| + (through - next + 1) <= DRAINED + PAGE)
       case _ => true
  }

  ghost predicate Safe(s: State) {
    GapFree(s.stream) && QueueOk(s) && WriterOk(s) && ProducerOk(s)
  }

  lemma PositionAppend(frames: seq<Frame>, f: Frame, c: Id)
    ensures Position(frames + [f], c) ==
              match f
              case SubscribeAck(k, after) => if k == c then Some(after) else Position(frames, c)
              case Event(k, n) => if k == c && Position(frames, c).Some? then Some(n) else Position(frames, c)
              case Revoked(k) => if k == c then None else Position(frames, c)
              case ResyncRequired(k) => if k == c then None else Position(frames, c)
              case _ => Position(frames, c)
  {
    assert (frames + [f])[..|frames|] == frames;
  }

  lemma GapFreeAppend(frames: seq<Frame>, f: Frame)
    requires GapFree(frames) && Continues(frames, f)
    ensures GapFree(frames + [f])
  {
    var all := frames + [f];
    forall i | 0 <= i < |all| ensures Continues(all[..i], all[i]) {
      if i < |frames| { assert all[..i] == frames[..i]; } else { assert all[..i] == frames; }
    }
  }

  /** One enqueue keeps the queue, the writer and the stream in step. */
  lemma EnqueueKeeps(s: State, f: Frame)
    requires GapFree(s.stream) && QueueOk(s) && WriterOk(s) && (!s.lost ==> Continues(s.stream, f))
    ensures var b := Enqueue(s, f); GapFree(b.stream) && QueueOk(b) && WriterOk(b)
    ensures !Enqueue(s, f).lost ==> Enqueue(s, f).stream == s.stream + [f] && !s.lost
  {
    var b := Enqueue(s, f);
    if |s.queue| < QUEUE {
      if !s.lost {
        GapFreeAppend(s.stream, f);
        assert b.stream[b.taken..] == s.stream[s.taken..] + [f];
        assert b.queue[..Pending(b)] == s.queue + [f];
      } else {
        assert b.queue[..Pending(b)] == s.queue[..Pending(s)];
      }
    }
  }

  lemma WriteKeeps(s: State, x: Step)
    requires Safe(s) && (x.Stop? || x.Check? || x.Take? || x.Deliver? || x.Quit?)
    ensures Safe(Next(s, x))
  {
    hide GapFree, ReplaySpec, Position;
    var b := Next(s, x);
    if x.Take? && s.writer.Select? && s.queue != [] {
      assert s.queue[0] == s.queue[..Pending(s)][0] == s.stream[s.taken];
      assert b.queue[..Pending(b)] == s.queue[..Pending(s)][1..];
      assert b.stream[b.taken..] == s.stream[s.taken..][1..];
    }
    if x.Deliver? && s.writer.Busy? {
      if s.writer.f.Event? { PageIsContiguous(x.db, s.user, s.writer.f.c, s.writer.f.s - 1, 1); }
    }
    if !s.lost { forall c ensures CursorOk(b, c) { assert CursorOk(s, c); } }
  }

  /** A frame that leaves the positions of the remaining subscriptions alone. */
  lemma SayKeeps(s: State, subscriptions: map<Id, int>, f: Frame)
    requires Safe(s) && s.producer.Idle? && (Plain(f) || f.Revoked? || f.ResyncRequired?)
    requires forall c | c in subscriptions :: c in s.subscriptions && subscriptions[c] == s.subscriptions[c] && (Plain(f) || Of(f) != Some(c))
    ensures Safe(Enqueue(s.(subscriptions := subscriptions), f))
  {
    hide GapFree, Position;
    var mid := s.(subscriptions := subscriptions);
    var b := Enqueue(mid, f);
    EnqueueKeeps(mid, f);
    if !b.lost {
      forall c ensures CursorOk(b, c) {
        PositionAppend(s.stream, f, c);
        assert CursorOk(s, c);
      }
    }
  }

  lemma SubscribeKeeps(s: State, c: Id, after: int, db: Db)
    requires Safe(s)
    ensures Safe(Produce(s, Subscribe(c, after, db)))
  {
    hide GapFree, Position, ReplaySpec;
    var b := Produce(s, Subscribe(c, after, db));
    if s.producer.Idle? {
      if b.producer.Idle? {
        SayKeeps(s, s.subscriptions, Failure(Some(c)));
      } else {
        if !s.lost { forall k ensures CursorOk(b, k) { assert CursorOk(s, k); } }
      }
    }
  }

  lemma AcknowledgeKeeps(s: State)
    requires Safe(s)
    ensures Safe(Produce(s, Acknowledge))
  {
    hide GapFree, Position;
    if s.producer.Granted? {
      var f := SubscribeAck(s.producer.c, s.producer.after);
      EnqueueKeeps(s, f);
      var b := Produce(s, Acknowledge);
      if !b.lost {
        forall k ensures CursorOk(b, k) {
          PositionAppend(s.stream, f, k);
          assert CursorOk(s, k);
        }
      }
    }
  }

  lemma ReadKeeps(s: State, db: Db)
    requires Safe(s) && s.producer.Reading? && s.producer.c in s.subscriptions
    ensures Safe(ReadPage(s, s.producer.c, s.producer.initial, db))
  {
    hide GapFree, Position, ReplaySpec, QueueOk, WriterOk;
    var c := s.producer.c;
    var idle := s.(producer := Idle);
    assert Safe(idle) by { IdleKeeps(s); }
    if |s.queue| > DRAINED && !s.producer.initial { return; }
    PageIsContiguous(db, s.user, c, s.subscriptions[c], PAGE);
    match ReplaySpec(db, s.user, c, s.subscriptions[c], PAGE)
    case Err(Resync) => SayKeeps(idle, s.subscriptions - {c}, ResyncRequired(c));
    case Err(NotFound) => SayKeeps(idle, s.subscriptions - {c}, Revoked(c));
    case Err(_) => StopKeeps(idle);
    case Ok(page) =>
      if !s.lost {
        forall k ensures CursorOk(ReadPage(s, c, s.producer.initial, db), k) { assert CursorOk(s, k); }
      }
      EmittingKeeps(s, page.through, !page.more && (s.producer.initial || page.through > s.subscriptions[c]));
  }

  lemma IdleKeeps(s: State)
    requires Safe(s) && !s.producer.Granted?
    ensures Safe(s.(producer := Idle))
  {
    hide GapFree, Position;
    if !s.lost { forall k ensures CursorOk(s.(producer := Idle), k) { assert CursorOk(s, k); } }
  }

  lemma StopKeeps(s: State)
    requires Safe(s)
    ensures Safe(s.(closing := true))
  {
    WriteKeeps(s, Stop);
  }

  lemma EmittingKeeps(s: State, through: int, notify: bool)
    requires Safe(s) && s.producer.Reading? && s.producer.c in s.subscriptions
    requires s.subscriptions[s.producer.c] <= through <= s.subscriptions[s.producer.c] + PAGE
    requires s.producer.initial || |s.queue| <= DRAINED
    ensures Safe(s.(producer := Emitting(s.producer.c, s.subscriptions[s.producer.c] + 1, through, notify, s.producer.initial)))
  {
    hide GapFree, Position;
    var b := s.(producer := Emitting(s.producer.c, s.subscriptions[s.producer.c] + 1, through, notify, s.producer.initial));
    if !s.lost { forall k ensures CursorOk(b, k) { assert CursorOk(s, k); } }
  }

  lemma EmitEventKeeps(s: State)
    requires Safe(s) && s.producer.Emitting? && s.producer.next <= s.producer.through
    ensures Safe(Produce(s, Emit))
  {
    hide GapFree, Position, QueueOk, WriterOk;
    var p := s.producer;
    var f := Event(p.c, p.next);
    if !s.lost { assert CursorOk(s, p.c); }
    EnqueueKeeps(s, f);
    var b := Produce(s, Emit);
    assert QueueOk(b) && WriterOk(b) by { MovedProducer(Enqueue(s, f), b); }
    if !b.lost {
      forall k ensures CursorOk(b, k) {
        PositionAppend(s.stream, f, k);
        assert CursorOk(s, k);
      }
    }
  }

  lemma MovedProducer(a: State, b: State)
    requires QueueOk(a) && WriterOk(a) && b == a.(subscriptions := b.subscriptions, producer := b.producer)
    ensures QueueOk(b) && WriterOk(b)
  {
  }

  lemma EmitSyncKeeps(s: State)
    requires Safe(s) && s.producer.Emitting? && s.producer.next > s.producer.through
    ensures Safe(Produce(s, Emit))
  {
    hide GapFree, Position, QueueOk, WriterOk;
    var p := s.producer;
    var f := SyncComplete(p.c, p.through);
    var idle := s.(producer := Idle);
    IdleKeeps(s);
    if p.notify {
      if !s.lost { assert CursorOk(s, p.c); }
      EnqueueKeeps(idle, f);
      var b := Enqueue(idle, f);
      if !b.lost {
        forall k ensures CursorOk(b, k) {
          PositionAppend(s.stream, f, k);
          assert CursorOk(s, k);
        }
      }
    }
  }

  lemma EmitKeeps(s: State)
    requires Safe(s)
    ensures Safe(Produce(s, Emit))
  {
    hide Safe, Enqueue;
    if s.producer.Emitting? {
      if s.producer.next <= s.producer.through { EmitEventKeeps(s); } else { EmitSyncKeeps(s); }
    }
  }

  lemma NextSafe(s: State, x: Step)
    requires Safe(s)
    ensures Safe(Next(s, x))
  {
    hide Safe, ReadPage, Enqueue, ReplaySpec;
    match x {
      case Subscribe(c, after, db) => SubscribeKeeps(s, c, after, db);
      case Acknowledge => AcknowledgeKeeps(s);
      case Unsubscribe(c) => if s.producer.Idle? { SayKeeps(s, s.subscriptions - {c}, Notice(Some(c))); }
      case Say(f) => if s.producer.Idle? && Plain(f) { SayKeeps(s, s.subscriptions, f); }
      case Catchup(c) => CatchupKeeps(s, c);
      case Read(db) => if s.producer.Reading? && s.producer.c in s.subscriptions { ReadKeeps(s, db); }
      case Emit => EmitKeeps(s);
      case _ => WriteKeeps(s, x);
    }
  }

  lemma CatchupKeeps(s: State, c: Id)
    requires Safe(s)
    ensures Safe(Produce(s, Catchup(c)))
  {
    hide GapFree, Position;
    if !s.lost { forall k ensures CursorOk(Produce(s, Catchup(c)), k) { assert CursorOk(s, k); } }
  }

  lemma {:induction false} PlaySafe(s: State, steps: seq<Step>)
    requires Safe(s)
    ensures Safe(Play(s, steps))
    decreases |steps|
  {
    hide Safe, Next;
    if steps != [] {
      NextSafe(s, steps[0]);
      PlaySafe(Next(s, steps[0]), steps[1..]);
    }
  }

  // ----- what reaches the socket -----

  /** Where conversion revoked nothing, the client stands where the stream stands. */
  lemma {:induction false} PositionBecomes(stream: seq<Frame>, shown: seq<Frame>, c: Id)
    requires |stream| == |shown| && forall i | 0 <= i < |shown| :: Becomes(stream[i], shown[i])
    ensures Position(shown, c).None? || Position(shown, c) == Position(stream, c)
    decreases |shown|
  {
    if shown != [] {
      var n := |shown| - 1;
      PositionBecomes(stream[..n], shown[..n], c);
      assert Becomes(stream[n], shown[n]);
    }
  }

  lemma ShownGapFree(stream: seq<Frame>, shown: seq<Frame>)
    requires GapFree(stream) && |shown| <= |stream| && forall i | 0 <= i < |shown| :: Becomes(stream[i], shown[i])
    ensures GapFree(shown)
  {
    forall i | 0 <= i < |shown| ensures Continues(shown[..i], shown[i]) {
      assert Continues(stream[..i], stream[i]) && Becomes(stream[i], shown[i]);
      if Of(shown[i]).Some? { PositionBecomes(stream[..i], shown[..i], Of(shown[i]).value); }
    }
  }

  /** Gap-free delivery, under every interleaving of producer, writer, overflow, failed
      re-reads, close requests and crashes. */
  lemma DeliveryIsGapFree(start: State, steps: seq<Step>)
    requires Start(start)
    ensures GapFree(Play(start, steps).written)
  {
    PlaySafe(start, steps);
    var s := Play(start, steps);
    hide Play, GapFree;
    ShownGapFree(s.stream, s.written);
  }

  /** How many event frames of `c` lie in frames[i..j]. */
  function EventsBetween(frames: seq<Frame>, c: Id, i: int, j: int): (n: int)
    requires 0 <= i <= j <= |frames|
    decreases j - i
  {
    if i == j then 0
    else EventsBetween(frames, c, i, j - 1) + if frames[j - 1].Event? && frames[j - 1].c == c then 1 else 0
  }

  predicate Interrupts(f: Frame, c: Id) {
    (f.SubscribeAck? || f.Revoked? || f.ResyncRequired?) && f.c == c
  }

  lemma {:induction false} PositionCounts(frames: seq<Frame>, c: Id, i: int, j: int)
    requires GapFree(frames) && 0 <= i < j <= |frames| && frames[i].SubscribeAck? && frames[i].c == c
    requires forall k | i < k < j :: !Interrupts(frames[k], c)
    ensures Position(frames[..j], c) == Some(frames[i].after + EventsBetween(frames, c, i + 1, j))
    decreases j
  {
    assert frames[..j][..j - 1] == frames[..j - 1];
    if i + 1 < j {
      PositionCounts(frames, c, i, j - 1);
      assert Continues(frames[..j - 1], frames[j - 1]);
    }
  }

  /** In the client's terms: after an acknowledged subscription at `after`, until the next
      acknowledgement, revocation or resync of that conversation, the n-th event frame
      carries sequence after + n, and sync.complete(t) comes only after event t. */
  lemma ConsecutiveAfterAck(start: State, steps: seq<Step>, c: Id, i: int, j: int)
    requires Start(start)
    requires 0 <= i < j < |Play(start, steps).written|
    requires Play(start, steps).written[i].SubscribeAck? && Play(start, steps).written[i].c == c
    requires forall k | i < k < j :: !Interrupts(Play(start, steps).written[k], c)
    ensures var w := Play(start, steps).written;
      && (w[j].Event? && w[j].c == c ==> w[j].s == w[i].after + EventsBetween(w, c, i + 1, j) + 1)
      && (w[j].SyncComplete? && w[j].c == c ==> w[j].t == w[i].after + EventsBetween(w, c, i + 1, j))
  {
    DeliveryIsGapFree(start, steps);
    var w := Play(start, steps).written;
    hide Play;
    PositionCounts(w, c, i, j);
    assert Continues(w[..j], w[j]);
  }

  /** A catch-up never overflows the queue, whatever the number of subscriptions and the
      speed of the writer, and its cursor is the last event it enqueued. */
  lemma CatchupNeverOverflows(start: State, steps: seq<Step>)
    requires Start(start)
    ensures var s := Play(start, steps);
      s.producer.Emitting? && !s.producer.initial ==>
        && |s.queue| < QUEUE && Next(s, Emit).lost == s.lost && Next(s, Emit).closing == s.closing
        && s.producer.c in s.subscriptions && s.subscriptions[s.producer.c] == s.producer.next - 1
  {
    PlaySafe(start, steps);
    hide Play, GapFree, Position;
  }

  // ----- the code of the producer -----

  class Connection {
    var send: seq<Frame>
    var closing: bool

    constructor ()
      ensures send == [] && !closing
    {
      send, closing := [], false;
    }

    method Stop()
      modifies this
      ensures closing && send == old(send)
    {
      closing := true;
    }

    method Push(f: Frame) returns (ok: bool)
      modifies this
      ensures ok <==> |old(send)| < QUEUE
      ensures send == if ok then old(send) + [f] else old(send)
      ensures closing == (old(closing) || !ok)
    {
      if |send| < QUEUE {
        send := send + [f];
        return true;
      }
      Stop();
      return false;
    }
  }

  class Live {
    const user: Id
    const connection: Connection
    var subscriptions: map<Id, int>

    constructor (user: Id, connection: Connection)
      ensures this.user == user && this.connection == connection && subscriptions == map[]
    {
      this.user, this.connection, subscriptions := user, connection, map[];
    }

    /** The fields are what the machine state says. */
    ghost predicate Shows(s: State)
      reads this, connection
    {
      s.user == user && s.queue == connection.send && s.closing == connection.closing && s.subscriptions == subscriptions
    }

    /** replay: one page, enqueued event by event, undisturbed by the writer. */
    method Replay(ghost s: State, c: Id, initial: bool, db: Db)
      requires Shows(s) && s.producer == Reading(c, initial) && c in subscriptions
      modifies this, connection
      ensures Shows(Finish(Next(s, Read(db))))
    {
      hide HydrationError, Suffix, Position;
      if |connection.send| > DRAINED && !initial { return; }
      var after := subscriptions[c];
      var result := ReplaySpec(db, user, c, after, PAGE);
      if result.Err? {
        if result.error == Resync {
          subscriptions := subscriptions - {c};
          var sent := connection.Push(ResyncRequired(c));
        } else if result.error == NotFound {
          subscriptions := subscriptions - {c};
          var sent := connection.Push(Revoked(c));
        } else {
          connection.Stop();
        }
        return;
      }
      PageIsContiguous(db, user, c, after, PAGE);
      var page := result.value;
      EmitPage(Next(s, Read(db)), c, page.events, page.through, !page.more && (initial || page.through > after));
    }

    method EmitPage(ghost s: State, c: Id, events: seq<Delivered>, through: int, notify: bool)
      requires Shows(s) && c in subscriptions
      requires s.producer.Emitting? && s.producer.c == c && s.producer.through == through && s.producer.notify == notify
      requires s.producer.next + |events| == through + 1
      requires forall i | 0 <= i < |events| :: events[i].sequence == s.producer.next + i
      modifies this, connection
      ensures Shows(Finish(s))
    {
      hide ReadPage;
      ghost var now := s;
      var rest := events;
      while rest != []
        invariant Shows(now) && now.producer.Emitting? && now.producer.c == c && c in subscriptions
        invariant now.producer.through == through && now.producer.notify == notify
        invariant now.producer.next + |rest| == through + 1
        invariant forall i | 0 <= i < |rest| :: rest[i].sequence == now.producer.next + i
        invariant Finish(now) == Finish(s)
        decreases |rest|
      {
        var ok := connection.Push(Event(c, rest[0].sequence));
        now := Next(now, Emit);
        if !ok { return; }
        subscriptions := subscriptions[c := rest[0].sequence];
        rest := rest[1..];
      }
      if notify {
        var sent := connection.Push(SyncComplete(c, through));
      }
    }
  }

  /** The producer runs its page to the end. */
  function Finish(s: State): State
    decreases if s.producer.Emitting? then Max(s.producer.through - s.producer.next, -1) + 2 else 0
  {
    if s.producer.Emitting? then Finish(Next(s, Emit)) else s
  }
}
