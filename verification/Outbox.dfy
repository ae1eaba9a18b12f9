/** Publication of the outbox in per-conversation order (internal/outbox/outbox.go). */
module Outbox {
  import opened Basics
  import opened Schema
  import opened Deltas
  import opened Invariants
  import opened Evolution
  import opened System

  type Key = (Id, int)  // conversation and sequence: the identity of one event

  datatype Pending = Pending(attempts: int, nextAttempt: Time, published: bool)

  /** What the producer hands to the broker: the conversation is the record key. */
  datatype Record = Record(key: Id, id: Key, envelope: Envelope)

  /** A worker inside One: it holds the aggregate lock over the head it read; `landed` once
      the broker has appended the record, acknowledged or not. */
  datatype Worker = Worker(c: Id, s: int, landed: bool)

  datatype State = State(
    db: Db,
    rows: map<Key, Pending>,
    route: Id -> int,              // the partition of a record key
    topic: map<int, seq<Record>>,  // partition -> records in append order
    workers: map<Id, Worker>)

  // ----- the head of one conversation -----

  predicate Unpublished(rows: map<Key, Pending>, c: Id, s: int) {
    (c, s) in rows && !rows[(c, s)].published
  }

  /** ORDER BY sequence LIMIT 1 over the unpublished rows of `c`. */
  function Head(rows: map<Key, Pending>, c: Id, s: int, n: int): (r: Option<int>)
    ensures r.Some? ==> s <= r.value <= n && Unpublished(rows, c, r.value) && forall k | s <= k < r.value :: !Unpublished(rows, c, k)
    ensures r.None? ==> forall k | s <= k <= n :: !Unpublished(rows, c, k)
    decreases n - s
  {
    if s > n then None else if Unpublished(rows, c, s) then Some(s) else Head(rows, c, s + 1, n)
  }

  function Last(db: Db, c: Id): int {
    if c in db.conversations then db.conversations[c].eventSequence else 0
  }

  /** How many events of `c` precede the head. */
  function Progress(rows: map<Key, Pending>, c: Id, n: int): int {
    match Head(rows, c, 1, n)
    case Some(h) => h - 1
    case None => n
  }

  /** min(60, 1<<min(attempts,6)) seconds. */
  function Backoff(attempts: int): (seconds: int)
    ensures 1 <= seconds <= 60
  {
    Min(60, Power(Min(attempts, 6)))
  }

  /** The delay starts at a second and doubles with every failure up to a minute. */
  lemma BackoffDoubles(attempts: nat)
    ensures Backoff(0) == 1
    ensures Backoff(attempts + 1) == Min(60, 2 * Backoff(attempts))
  {
    if attempts >= 6 {
      assert Power(6) == 2 * Power(5) == 4 * Power(4) == 8 * Power(3);
    }
  }

  function Power(n: int): (r: int)
    ensures 1 <= r
    decreases n
  {
    if n <= 0 then 1 else 2 * Power(n - 1)
  }

  // ----- steps -----

  /** `Fail` is a publication the worker saw fail, whether or not the record landed; a
      crash rolls the worker's transaction back. */
  datatype Step =
    | Transact(action: Action)
    | Take(w: Id, c: Id)
    | Land(w: Id)
    | Confirm(w: Id)
    | Fail(w: Id)
    | Crash(w: Id)

  /** Append inserted one outbox row beside each log row. */
  function Enqueued(db: Db, rows: map<Key, Pending>): map<Key, Pending> {
    map k | k in db.outbox :: if k in rows then rows[k] else Pending(0, db.now, false)
  }

  predicate Locked(s: State, c: Id) {
    exists w | w in s.workers :: s.workers[w].c == c
  }

  function RecordOf(db: Db, c: Id, s: int): Record {
    Record(c, (c, s), if (c, s) in db.outbox then db.outbox[(c, s)] else Envelope(SyncAdvance, NOTHING))
  }

  function Partition(topic: map<int, seq<Record>>, p: int): seq<Record> {
    if p in topic then topic[p] else []
  }

  function Next(s: State, x: Step): State {
    match x
    case Transact(action) =>
      var db := Apply(s.db, action);
      s.(db := db, rows := Enqueued(db, s.rows))
    case Take(w, c) =>
      var head := Head(s.rows, c, 1, Last(s.db, c));
      if w in s.workers || Locked(s, c) || head.None? || s.rows[(c, head.value)].nextAttempt > s.db.now then s
      else s.(workers := s.workers[w := Worker(c, head.value, false)])
    case Land(w) =>
      if w in s.workers && !s.workers[w].landed then
        var x := s.workers[w];
        var p := s.route(x.c);
        s.(topic := s.topic[p := Partition(s.topic, p) + [RecordOf(s.db, x.c, x.s)]], workers := s.workers[w := x.(landed := true)])
      else s
    case Confirm(w) =>
      if w in s.workers && s.workers[w].landed && (s.workers[w].c, s.workers[w].s) in s.rows then
        var k := (s.workers[w].c, s.workers[w].s);
        var row := s.rows[k];
        s.(rows := s.rows[k := row.(published := true, attempts := row.attempts + 1)], workers := s.workers - {w})
      else s
    case Fail(w) =>
      if w in s.workers && (s.workers[w].c, s.workers[w].s) in s.rows then
        var k := (s.workers[w].c, s.workers[w].s);
        var row := s.rows[k];
        s.(rows := s.rows[k := row.(nextAttempt := s.db.now + Backoff(row.attempts), attempts := row.attempts + 1)],
           workers := s.workers - {w})
      else s
    case Crash(w) => s.(workers := s.workers - {w})
  }

  function Play(s: State, steps: seq<Step>): State
    decreases |steps|
  {
    if steps == [] then s else Play(Next(s, steps[0]), steps[1..])
  }

  ghost predicate Start(s: State) {
    Init(s.db) && s.rows == map[] && s.topic == map[] && s.workers == map[]
  }

  // ----- the invariant -----

  /** The sequences of one conversation in its partition, in append order. */
  function Sequences(records: seq<Record>, c: Id): seq<int>
    decreases |records|
  {
    if records == [] then []
    else
      var rest := Sequences(records[..|records| - 1], c);
      var r := records[|records| - 1];
      if r.key == c then rest + [r.id.1] else rest
  }

  /** Starts at 1; each record repeats or increments its predecessor. */
  ghost predicate Stair(q: seq<int>) {
    && (q != [] ==> q[0] == 1)
    && (forall i | 0 < i < |q| :: q[i] == q[i - 1] || q[i] == q[i - 1] + 1)
  }

  /** Exactly the first `p` of `n` events are published. */
  ghost predicate PublishedPrefix(rows: map<Key, Pending>, c: Id, n: int, p: int) {
    && 0 <= p <= n
    && (forall k :: (c, k) in rows <==> 1 <= k <= n)
    && (forall k :: Unpublished(rows, c, k) <==> p < k <= n)
  }

  /** The broker stands at `p`, or one ahead after a lost acknowledgement or a crash. */
  ghost predicate BrokerAt(q: seq<int>, p: int) {
    Stair(q) && if q == [] then p == 0 else q[|q| - 1] == p || q[|q| - 1] == p + 1
  }

  ghost predicate InOrder(rows: map<Key, Pending>, c: Id, n: int, q: seq<int>) {
    var p := Progress(rows, c, n);
    PublishedPrefix(rows, c, n, p) && BrokerAt(q, p)
  }

  ghost predicate WorkerOk(rows: map<Key, Pending>, n: int, q: seq<int>, w: Worker) {
    && w.s == Progress(rows, w.c, n) + 1 <= n
    && (w.landed ==> q != [] && q[|q| - 1] == w.s)
  }

  function SequencesOf(topic: map<int, seq<Record>>, route: Id -> int, c: Id): seq<int> {
    Sequences(Partition(topic, route(c)), c)
  }

  /** Every record is the envelope its outbox row holds, under its own conversation. */
  ghost predicate Genuine(db: Db, r: Record) {
    r.id in db.events && r.key == r.id.0 && r.envelope == db.events[r.id]
  }

  ghost predicate GenuineTopic(db: Db, topic: map<int, seq<Record>>) {
    forall p | p in topic :: forall i | 0 <= i < |topic[p]| :: Genuine(db, topic[p][i])
  }

  ghost predicate Safe(s: State) {
    && Inv(s.db)
    && (forall c :: InOrder(s.rows, c, Last(s.db, c), SequencesOf(s.topic, s.route, c)))
    && (forall w | w in s.workers :: WorkerOk(s.rows, Last(s.db, s.workers[w].c), SequencesOf(s.topic, s.route, s.workers[w].c), s.workers[w]))
    && (forall v, w | v in s.workers && w in s.workers && s.workers[v].c == s.workers[w].c :: v == w)
    && GenuineTopic(s.db, s.topic)
  }

  // ----- preservation -----

  lemma ProgressIs(rows: map<Key, Pending>, c: Id, n: int, p: int)
    requires PublishedPrefix(rows, c, n, p)
    ensures Progress(rows, c, n) == p
  {
    assert Unpublished(rows, c, p + 1) <==> p < n;
    match Head(rows, c, 1, n)
    case None =>
    case Some(h) => assert Unpublished(rows, c, h) <==> p < h <= n;
  }

  /** The log grew; the head of every conversation stays where it is. */
  lemma GrowthInOrder(db: Db, next: Db, rows: map<Key, Pending>, c: Id, q: seq<int>)
    requires DenseLog(next.conversations, next.events, next.outbox) && DenseLog(db.conversations, db.events, db.outbox)
    requires LogGrows(db, next) && InOrder(rows, c, Last(db, c), q)
    ensures InOrder(Enqueued(next, rows), c, Last(next, c), q)
    ensures Progress(Enqueued(next, rows), c, Last(next, c)) == Progress(rows, c, Last(db, c))
    ensures Last(db, c) <= Last(next, c)
  {
    var after := Enqueued(next, rows);
    var p := Progress(rows, c, Last(db, c));
    forall k ensures (c, k) in after <==> 1 <= k <= Last(next, c) {}
    forall k ensures Unpublished(after, c, k) <==> p < k <= Last(next, c) {
      assert (c, k) in rows <==> 1 <= k <= Last(db, c);
      assert Unpublished(rows, c, k) <==> p < k <= Last(db, c);
    }
    ProgressIs(after, c, Last(next, c), p);
  }

  lemma {:induction false} SequencesAppend(records: seq<Record>, r: Record, c: Id)
    ensures Sequences(records + [r], c) == if r.key == c then Sequences(records, c) + [r.id.1] else Sequences(records, c)
  {
    var all := records + [r];
    assert all[..|all| - 1] == records;
  }

  lemma TransactSafe(s: State, action: Action)
    requires Safe(s)
    ensures Safe(Next(s, Transact(action)))
  {
    hide Apply, InOrder, WorkerOk, Genuine, Checkpointed, Follows, Inv, Progress, Enqueued, LogGrows, Sequences, DenseLog, Partition, GenuineTopic;
    var db := Apply(s.db, action);
    var after := Next(s, Transact(action));
    StepKeeps(s.db, action);
    assert Grown(s.db, db) by { FollowsGrows(s.db, db); }
    forall c
      ensures InOrder(after.rows, c, Last(db, c), SequencesOf(after.topic, after.route, c))
      ensures Progress(after.rows, c, Last(db, c)) == Progress(s.rows, c, Last(s.db, c)) && Last(s.db, c) <= Last(db, c)
    {
      GrowthInOrder(s.db, db, s.rows, c, SequencesOf(s.topic, s.route, c));
    }
    forall w | w in s.workers ensures WorkerOk(after.rows, Last(db, s.workers[w].c), SequencesOf(after.topic, after.route, s.workers[w].c), s.workers[w]) {
      WorkerStays(s.rows, Last(s.db, s.workers[w].c), SequencesOf(s.topic, s.route, s.workers[w].c), s.workers[w], after.rows, Last(db, s.workers[w].c));
    }
    TopicStays(s.db, db, s.topic);
  }

  ghost predicate Grown(a: Db, b: Db) {
    && DenseLog(a.conversations, a.events, a.outbox) && DenseLog(b.conversations, b.events, b.outbox) && LogGrows(a, b)
  }

  lemma FollowsGrows(a: Db, b: Db)
    requires Inv(a) && Inv(b) && Follows(a, b)
    ensures Grown(a, b)
  {
  }

  lemma WorkerStays(rows: map<Key, Pending>, n: int, q: seq<int>, w: Worker, rows': map<Key, Pending>, n': int)
    requires WorkerOk(rows, n, q, w) && Progress(rows', w.c, n') == Progress(rows, w.c, n) && n <= n'
    ensures WorkerOk(rows', n', q, w)
  {
  }

  lemma TopicStays(a: Db, b: Db, topic: map<int, seq<Record>>)
    requires GenuineTopic(a, topic) && LogGrows(a, b)
    ensures GenuineTopic(b, topic)
  {
  }

  lemma TakenWorker(rows: map<Key, Pending>, n: int, q: seq<int>, c: Id, h: int)
    requires Head(rows, c, 1, n) == Some(h)
    ensures WorkerOk(rows, n, q, Worker(c, h, false))
  {
  }

  lemma TakeSafe(s: State, w: Id, c: Id, h: int)
    requires Safe(s) && w !in s.workers && !Locked(s, c) && Head(s.rows, c, 1, Last(s.db, c)) == Some(h)
    ensures Safe(s.(workers := s.workers[w := Worker(c, h, false)]))
  {
    hide Inv, GenuineTopic, SequencesOf, InOrder, WorkerOk, Head;
    TakenWorker(s.rows, Last(s.db, c), SequencesOf(s.topic, s.route, c), c, h);
  }

  /** One record appended to one partition moves one conversation. */
  lemma LandedSequences(topic: map<int, seq<Record>>, route: Id -> int, r: Record, c: Id)
    ensures SequencesOf(topic[route(r.key) := Partition(topic, route(r.key)) + [r]], route, c) ==
              if c == r.key then SequencesOf(topic, route, c) + [r.id.1] else SequencesOf(topic, route, c)
  {
    SequencesAppend(Partition(topic, route(r.key)), r, c);
    if route(c) == route(r.key) {
    } else {
      assert SequencesOf(topic[route(r.key) := Partition(topic, route(r.key)) + [r]], route, c) == SequencesOf(topic, route, c);
    }
  }

  lemma LandInOrder(rows: map<Key, Pending>, n: int, q: seq<int>, x: Worker)
    requires InOrder(rows, x.c, n, q) && WorkerOk(rows, n, q, x)
    ensures InOrder(rows, x.c, n, q + [x.s])
    ensures WorkerOk(rows, n, q + [x.s], x.(landed := true))
  {
    var r := q + [x.s];
    assert forall i | 0 <= i < |q| :: r[i] == q[i];
    forall i | 0 < i < |r| ensures r[i] == r[i - 1] || r[i] == r[i - 1] + 1 {
      if i == |q| { assert r[i] == x.s && r[i - 1] == q[|q| - 1]; }
    }
  }

  function Landed(s: State, x: Worker): map<int, seq<Record>> {
    var p := s.route(x.c);
    s.topic[p := Partition(s.topic, p) + [RecordOf(s.db, x.c, x.s)]]
  }

  lemma LandSafe(s: State, w: Id)
    requires Safe(s) && w in s.workers && !s.workers[w].landed
    ensures Safe(s.(topic := Landed(s, s.workers[w]), workers := s.workers[w := s.workers[w].(landed := true)]))
  {
    hide Inv, InOrder, WorkerOk, SequencesOf, Genuine;
    var x := s.workers[w];
    var r := RecordOf(s.db, x.c, x.s);
    var topic, workers := Landed(s, x), s.workers[w := x.(landed := true)];
    LandInOrder(s.rows, Last(s.db, x.c), SequencesOf(s.topic, s.route, x.c), x);
    HeadIsLogged(s, w);
    GenuineAppend(s.db, s.topic, s.route(x.c), r);
    hide GenuineTopic, RecordOf;
    forall c ensures InOrder(s.rows, c, Last(s.db, c), SequencesOf(topic, s.route, c)) {
      LandedSequences(s.topic, s.route, r, c);
    }
    forall v | v in workers
      ensures WorkerOk(s.rows, Last(s.db, workers[v].c), SequencesOf(topic, s.route, workers[v].c), workers[v])
    {
      LandedSequences(s.topic, s.route, r, workers[v].c);
    }
  }

  lemma GenuineAppend(db: Db, topic: map<int, seq<Record>>, p: int, r: Record)
    requires GenuineTopic(db, topic) && Genuine(db, r)
    ensures GenuineTopic(db, topic[p := Partition(topic, p) + [r]])
  {
    hide Genuine;
  }

  lemma HeadIsLogged(s: State, w: Id)
    requires Safe(s) && w in s.workers
    ensures Genuine(s.db, RecordOf(s.db, s.workers[w].c, s.workers[w].s))
  {
    hide SequencesOf, Ledger, Invariants.Ordered, Tails, Bodies, Indexed, Receipts, Related, Cursors, Governance, Files, GenuineTopic;
    var x := s.workers[w];
    assert InOrder(s.rows, x.c, Last(s.db, x.c), SequencesOf(s.topic, s.route, x.c));
    assert WorkerOk(s.rows, Last(s.db, x.c), SequencesOf(s.topic, s.route, x.c), x);
    hide WorkerOk, InOrder, BrokerAt, Head, Progress;
  }

  // ----- the head row moves -----

  lemma ConfirmInOrder(rows: map<Key, Pending>, n: int, q: seq<int>, x: Worker, row: Pending)
    requires InOrder(rows, x.c, n, q) && WorkerOk(rows, n, q, x) && x.landed && row.published
    ensures InOrder(rows[(x.c, x.s) := row], x.c, n, q)
  {
    var after := rows[(x.c, x.s) := row];
    forall k ensures Unpublished(after, x.c, k) <==> x.s < k <= n {
      assert Unpublished(rows, x.c, k) <==> x.s - 1 < k <= n;
    }
    forall k ensures (x.c, k) in after <==> 1 <= k <= n { assert (x.c, k) in rows <==> 1 <= k <= n; }
    ProgressIs(after, x.c, n, x.s);
  }

  lemma RetryInOrder(rows: map<Key, Pending>, n: int, q: seq<int>, x: Worker, row: Pending)
    requires InOrder(rows, x.c, n, q) && WorkerOk(rows, n, q, x) && !row.published
    ensures InOrder(rows[(x.c, x.s) := row], x.c, n, q)
  {
    var after := rows[(x.c, x.s) := row];
    forall k ensures Unpublished(after, x.c, k) <==> x.s - 1 < k <= n {
      assert Unpublished(rows, x.c, k) <==> x.s - 1 < k <= n;
    }
    forall k ensures (x.c, k) in after <==> 1 <= k <= n { assert (x.c, k) in rows <==> 1 <= k <= n; }
    ProgressIs(after, x.c, n, x.s - 1);
  }

  /** A row of one conversation is invisible to every other. */
  lemma OtherRow(rows: map<Key, Pending>, c: Id, k: Key, row: Pending, n: int, q: seq<int>)
    requires k.0 != c && InOrder(rows, c, n, q)
    ensures InOrder(rows[k := row], c, n, q) && Progress(rows[k := row], c, n) == Progress(rows, c, n)
  {
    var after := rows[k := row];
    var p := Progress(rows, c, n);
    forall j ensures (c, j) in after <==> 1 <= j <= n { assert (c, j) in rows <==> 1 <= j <= n; }
    forall j ensures Unpublished(after, c, j) <==> p < j <= n { assert Unpublished(rows, c, j) <==> p < j <= n; }
    ProgressIs(after, c, n, p);
  }

  /** Whatever a worker writes to its own head row before it lets go of the lock. */
  lemma ReleaseSafe(s: State, w: Id, row: Pending)
    requires Safe(s) && w in s.workers && (row.published ==> s.workers[w].landed)
    ensures Safe(s.(rows := s.rows[(s.workers[w].c, s.workers[w].s) := row], workers := s.workers - {w}))
  {
    hide Inv, InOrder, WorkerOk, Sequences, GenuineTopic, Partition;
    var x := s.workers[w];
    var k := (x.c, x.s);
    var after := s.(rows := s.rows[k := row], workers := s.workers - {w});
    forall c ensures InOrder(after.rows, c, Last(s.db, c), SequencesOf(after.topic, after.route, c)) {
      if c != x.c {
        OtherRow(s.rows, c, k, row, Last(s.db, c), SequencesOf(s.topic, s.route, c));
      } else if row.published {
        ConfirmInOrder(s.rows, Last(s.db, c), SequencesOf(s.topic, s.route, c), x, row);
      } else {
        RetryInOrder(s.rows, Last(s.db, c), SequencesOf(s.topic, s.route, c), x, row);
      }
    }
    forall v | v in after.workers
      ensures WorkerOk(after.rows, Last(s.db, s.workers[v].c), SequencesOf(s.topic, s.route, s.workers[v].c), s.workers[v])
    {
      OtherRow(s.rows, s.workers[v].c, k, row, Last(s.db, s.workers[v].c), SequencesOf(s.topic, s.route, s.workers[v].c));
      WorkerStays(s.rows, Last(s.db, s.workers[v].c), SequencesOf(s.topic, s.route, s.workers[v].c), s.workers[v], after.rows, Last(s.db, s.workers[v].c));
    }
  }

  lemma NextSafe(s: State, x: Step)
    requires Safe(s)
    ensures Safe(Next(s, x))
  {
    hide Safe, Locked, RecordOf, Apply, Head;
    match x {
      case Transact(action) => TransactSafe(s, action);
      case Take(w, c) =>
        var head := Head(s.rows, c, 1, Last(s.db, c));
        if w !in s.workers && !Locked(s, c) && head.Some? { TakeSafe(s, w, c, head.value); }
      case Land(w) => if w in s.workers && !s.workers[w].landed { LandSafe(s, w); }
      case Confirm(w) => ReleaseStep(s, w);
      case Fail(w) => ReleaseStep(s, w);
      case Crash(w) => CrashSafe(s, w);
    }
  }

  lemma ReleaseStep(s: State, w: Id)
    requires Safe(s)
    ensures Safe(Next(s, Confirm(w))) && Safe(Next(s, Fail(w)))
  {
    hide Safe;
    if w in s.workers && (s.workers[w].c, s.workers[w].s) in s.rows {
      var row := s.rows[(s.workers[w].c, s.workers[w].s)];
      if s.workers[w].landed { ReleaseSafe(s, w, row.(published := true, attempts := row.attempts + 1)); }
      HeadIsUnpublished(s, w);
      ReleaseSafe(s, w, row.(nextAttempt := s.db.now + Backoff(row.attempts), attempts := row.attempts + 1));
    }
  }

  lemma HeadIsUnpublished(s: State, w: Id)
    requires Safe(s) && w in s.workers
    ensures Unpublished(s.rows, s.workers[w].c, s.workers[w].s)
  {
    var x := s.workers[w];
    assert InOrder(s.rows, x.c, Last(s.db, x.c), SequencesOf(s.topic, s.route, x.c));
    assert WorkerOk(s.rows, Last(s.db, x.c), SequencesOf(s.topic, s.route, x.c), x);
  }

  lemma CrashSafe(s: State, w: Id)
    requires Safe(s)
    ensures Safe(s.(workers := s.workers - {w}))
  {
    hide Inv, InOrder, WorkerOk, Sequences, GenuineTopic, Partition;
  }

  lemma {:induction false} PlaySafe(s: State, steps: seq<Step>)
    requires Safe(s)
    ensures Safe(Play(s, steps))
    decreases |steps|
  {
    hide Safe, Next;
    if steps != [] {
      NextSafe(s, steps[0]);
      PlaySafe(Next(s, steps[0]), steps[1..]);
    }
  }

  // ----- the theorem -----

  /** What some interleaving of workers and transactions leaves. */
  ghost predicate Reached(s: State) {
    exists start, steps :: Start(start) && s == Play(start, steps)
  }

  lemma ReachedIsSafe(s: State)
    requires Reached(s)
    ensures Safe(s)
  {
    hide Play, Safe;
    var start, steps :| Start(start) && s == Play(start, steps);
    StartSafe(start);
    PlaySafe(start, steps);
  }

  /** Under any number of workers, failed publications, lost acknowledgements and crashes,
      the published events of a conversation are always a prefix of its log, and its
      broker records start at 1, each repeating or incrementing its predecessor, up to the
      end of the published prefix or one beyond; every record is the logged envelope. */
  lemma OrderedPublication(s: State, c: Id)
    requires Reached(s)
    ensures var n := Last(s.db, c);
      var p := Progress(s.rows, c, n);
      && 0 <= p <= n
      && (forall k | 1 <= k <= n :: (c, k) in s.rows && (s.rows[(c, k)].published <==> k <= p))
      && BrokerAt(SequencesOf(s.topic, s.route, c), p)
    ensures GenuineTopic(s.db, s.topic)
  {
    hide Reached, Inv, BrokerAt, GenuineTopic, Progress, SequencesOf;
    ReachedIsSafe(s);
    assert InOrder(s.rows, c, Last(s.db, c), SequencesOf(s.topic, s.route, c));
    forall k | 1 <= k <= Last(s.db, c)
      ensures (c, k) in s.rows && (s.rows[(c, k)].published <==> k <= Progress(s.rows, c, Last(s.db, c)))
    {
      assert Unpublished(s.rows, c, k) <==> Progress(s.rows, c, Last(s.db, c)) < k <= Last(s.db, c);
    }
  }

  lemma StartSafe(s: State)
    requires Start(s)
    ensures Safe(s)
  {
    InitInv(s.db);
    hide Inv;
    forall c ensures InOrder(s.rows, c, Last(s.db, c), SequencesOf(s.topic, s.route, c)) {
      ProgressIs(s.rows, c, 0, 0);
    }
  }

  // ----- One and Batch -----

  /** What the broker did with a publication: acknowledged it, appended it without the
      worker hearing of it, or refused it. */
  datatype Fate = Acknowledged | AckLost | Refused

  /** One, undisturbed, as steps of the machine. */
  function OneSpec(s: State, w: Id, c: Id, fate: Fate): State {
    var taken := Next(s, Take(w, c));
    if w !in taken.workers then taken
    else
      match fate
      case Acknowledged => Next(Next(taken, Land(w)), Confirm(w))
      case AckLost => Next(Next(taken, Land(w)), Fail(w))
      case Refused => Next(taken, Fail(w))
  }

  predicate ReadyHead(s: State, c: Id) {
    var head := Head(s.rows, c, 1, Last(s.db, c));
    head.Some? && s.rows[(c, head.value)].nextAttempt <= s.db.now
  }

  class Store {
    var state: State

    constructor (s: State)
      ensures state == s
    {
      state := s;
    }
  }

  /** One: only a ready head under the aggregate lock is published; success marks exactly
      that row, failure moves only its retry deadline, and nothing advances past it. */
  method One(d: Store, w: Id, c: Id, fate: Fate) returns (progressed: bool, error: Option<Error>)
    requires w !in d.state.workers
    modifies d
    ensures d.state == OneSpec(old(d.state), w, c, fate)
    ensures progressed <==> !Locked(old(d.state), c) && ReadyHead(old(d.state), c) && fate == Acknowledged
    ensures error.Some? <==> !Locked(old(d.state), c) && ReadyHead(old(d.state), c) && fate != Acknowledged
    ensures w !in d.state.workers
  {
    hide Apply, Enqueued, RecordOf, Partition, Backoff;
    var s := d.state;
    if Locked(s, c) { return false, None; }
    var head := Head(s.rows, c, 1, Last(s.db, c));
    if head.None? { return false, None; }
    var k := (c, head.value);
    if s.rows[k].nextAttempt > s.db.now { return false, None; }
    ghost var taken := Next(s, Take(w, c));
    assert taken.workers - {w} == s.workers;
    if fate != Refused {
      var p := s.route(c);
      s := s.(topic := s.topic[p := Partition(s.topic, p) + [RecordOf(s.db, c, head.value)]]);
      ghost var landed := Next(taken, Land(w));
      assert landed.workers - {w} == s.workers;
    }
    var row := s.rows[k];
    if fate == Acknowledged {
      d.state := s.(rows := s.rows[k := row.(published := true, attempts := row.attempts + 1)]);
      return true, None;
    }
    d.state := s.(rows := s.rows[k := row.(nextAttempt := s.db.now + Backoff(row.attempts), attempts := row.attempts + 1)]);
    return false, Some(Unavailable);
  }

  /** The candidate query: a due, unpublished row without an unpublished predecessor. */
  ghost predicate Candidate(s: State, c: Id, n: int) {
    && Unpublished(s.rows, c, n) && s.rows[(c, n)].nextAttempt <= s.db.now
    && !exists h :: h < n && Unpublished(s.rows, c, h)
  }

  /** It selects exactly the due heads, so a failed head blocks only its own conversation. */
  lemma CandidatesAreDueHeads(s: State, c: Id, n: int)
    requires Reached(s)
    ensures Candidate(s, c, n) <==> Head(s.rows, c, 1, Last(s.db, c)) == Some(n) && s.rows[(c, n)].nextAttempt <= s.db.now
  {
    hide Reached, Inv, GenuineTopic, SequencesOf, WorkerOk, BrokerAt;
    ReachedIsSafe(s);
    assert InOrder(s.rows, c, Last(s.db, c), SequencesOf(s.topic, s.route, c));
    assert forall k :: Unpublished(s.rows, c, k) ==> 1 <= k <= Last(s.db, c);
    match Head(s.rows, c, 1, Last(s.db, c))
    case None =>
    case Some(h) => assert Unpublished(s.rows, c, h);
  }

  const BATCH: nat := 32

  function BatchSpec(s: State, w: Id, candidates: seq<Id>, fates: Id -> Fate): State
    decreases |candidates|
  {
    if candidates == [] then s
    else BatchSpec(OneSpec(s, w, candidates[0], fates(candidates[0])), w, candidates[1..], fates)
  }

  lemma {:induction false} BatchSafe(s: State, w: Id, candidates: seq<Id>, fates: Id -> Fate)
    requires Safe(s)
    ensures Safe(BatchSpec(s, w, candidates, fates))
    decreases |candidates|
  {
    hide Safe, Next;
    if candidates != [] {
      var c := candidates[0];
      var taken := Next(s, Take(w, c));
      NextSafe(s, Take(w, c));
      NextSafe(taken, Land(w));
      NextSafe(Next(taken, Land(w)), Confirm(w));
      NextSafe(Next(taken, Land(w)), Fail(w));
      NextSafe(taken, Fail(w));
      BatchSafe(OneSpec(s, w, c, fates(c)), w, candidates[1..], fates);
    }
  }

  /** When the head of a conversation became due. */
  function Due(s: State, c: Id): Time
    requires ReadyHead(s, c)
  {
    s.rows[(c, Head(s.rows, c, 1, Last(s.db, c)).value)].nextAttempt
  }

  /** What the candidate query may return: at most a batch of conversations with due heads,
      longest due first, and none left out unless the batch is full of earlier ones. */
  ghost predicate Selection(s: State, cs: seq<Id>) {
    && |cs| <= BATCH
    && (forall i | 0 <= i < |cs| :: cs[i] in s.db.conversations && ReadyHead(s, cs[i]))
    && (forall i, j | 0 <= i < j < |cs| :: cs[i] != cs[j] && Due(s, cs[i]) <= Due(s, cs[j]))
    && (forall c | c in s.db.conversations && ReadyHead(s, c) && c !in cs ::
          |cs| == BATCH && forall i | 0 <= i < |cs| :: Due(s, cs[i]) <= Due(s, c))
  }

  lemma {:induction false} SoonestDue(s: State, left: set<Id>) returns (c: Id)
    requires left != {} && forall x | x in left :: ReadyHead(s, x)
    ensures c in left && forall x | x in left :: Due(s, c) <= Due(s, x)
    decreases left
  {
    var first :| first in left;
    c := first;
    if left != {first} {
      var next := SoonestDue(s, left - {first});
      if Due(s, next) < Due(s, first) { c := next; }
      forall x | x in left ensures Due(s, c) <= Due(s, x) { assert x == first || x in left - {first}; }
    }
  }

  method Select(s: State) returns (cs: seq<Id>)
    ensures Selection(s, cs)
  {
    hide Head, Last, ReadyHead, Due;
    cs := [];
    var left := set c | c in s.db.conversations && ReadyHead(s, c);
    assert forall c | c in s.db.conversations && ReadyHead(s, c) :: c in left;
    while left != {} && |cs| < BATCH
      invariant |cs| <= BATCH
      invariant forall i | 0 <= i < |cs| :: cs[i] in s.db.conversations && ReadyHead(s, cs[i])
      invariant forall c | c in left :: c in s.db.conversations && ReadyHead(s, c) && c !in cs
      invariant forall c | c in s.db.conversations && ReadyHead(s, c) :: c in cs || c in left
      invariant forall i, j | 0 <= i < j < |cs| :: cs[i] != cs[j] && Due(s, cs[i]) <= Due(s, cs[j])
      invariant forall i, c | 0 <= i < |cs| && c in left :: Due(s, cs[i]) <= Due(s, c)
      decreases left
    {
      ghost var soonest := SoonestDue(s, left);
      var c :| c in left && forall x | x in left :: Due(s, c) <= Due(s, x);
      cs := cs + [c];
      left := left - {c};
    }
  }

  /** Batch: every selected candidate is tried once, in order, whatever happened to the
      others. */
  method Batch(d: Store, w: Id, fates: Id -> Fate) returns (progress: bool, candidates: seq<Id>)
    requires w !in d.state.workers
    modifies d
    ensures Selection(old(d.state), candidates)
    ensures d.state == BatchSpec(old(d.state), w, candidates, fates)
    ensures w !in d.state.workers
  {
    candidates := Select(d.state);
    progress := false;
    var rest := candidates;
    while rest != []
      invariant w !in d.state.workers
      invariant BatchSpec(d.state, w, rest, fates) == BatchSpec(old(d.state), w, candidates, fates)
      decreases |rest|
    {
      var ok, e := One(d, w, rest[0], fates(rest[0]));
      progress := progress || ok;
      rest := rest[1..];
    }
  }

  // ----- what one attempt does -----

  lemma HeadOfCandidate(s: State, c: Id, n: int)
    requires Reached(s) && Candidate(s, c, n)
    ensures Head(s.rows, c, 1, Last(s.db, c)) == Some(n) && (c, n) in s.rows && (c, n) in s.db.outbox && s.db.outbox == s.db.events
  {
    hide Reached, SequencesOf, WorkerOk, BrokerAt, Head, GenuineTopic;
    CandidatesAreDueHeads(s, c, n);
    ReachedIsSafe(s);
    assert InOrder(s.rows, c, Last(s.db, c), SequencesOf(s.topic, s.route, c));
    hide Ledger, Ordered, Tails, Bodies, Indexed, Receipts, Related, Cursors, Governance, Files;
  }

  /** One attempt on a due head whose conversation nobody holds: an acknowledged publication
      marks exactly that row; any other outcome only postpones it by its backoff; unless the
      broker refused, its partition gains exactly the logged event. */
  lemma OneAnswers(s: State, w: Id, c: Id, n: int, fate: Fate)
    requires Reached(s) && w !in s.workers && Candidate(s, c, n) && forall v | v in s.workers :: s.workers[v].c != c
    ensures (c, n) in s.rows && (c, n) in s.db.events
    ensures var b, row := OneSpec(s, w, c, fate), s.rows[(c, n)];
      && b.db == s.db && b.workers == s.workers
      && b.rows == s.rows[(c, n) := if fate == Acknowledged then Pending(row.attempts + 1, row.nextAttempt, true)
                                    else Pending(row.attempts + 1, s.db.now + Backoff(row.attempts), false)]
      && b.topic == if fate == Refused then s.topic
                    else s.topic[s.route(c) := Partition(s.topic, s.route(c)) + [Record(c, (c, n), s.db.events[(c, n)])]]
  {
    HeadOfCandidate(s, c, n);
    assert s.rows[(c, n)].nextAttempt <= s.db.now && !s.rows[(c, n)].published;
    hide Reached, Head, Backoff, Next, Candidate, Partition;
    TakeIs(s, w, c, n);
    var taken := Held(s, w, c, n, false);
    LandIs(s, w, c, n);
    var landed := Held(s, w, c, n, true).(topic := s.topic[s.route(c) := Partition(s.topic, s.route(c)) + [Record(c, (c, n), s.db.events[(c, n)])]]);
    ReleaseIs(s, taken, w, c, n, false);
    ReleaseIs(s, landed, w, c, n, true);
  }

  /** `w` holds the head `n` of `c`. */
  function Held(s: State, w: Id, c: Id, n: int, landed: bool): State {
    s.(workers := s.workers[w := Worker(c, n, landed)])
  }

  lemma TakeIs(s: State, w: Id, c: Id, n: int)
    requires w !in s.workers && (forall v | v in s.workers :: s.workers[v].c != c)
    requires Head(s.rows, c, 1, Last(s.db, c)) == Some(n) && (c, n) in s.rows && s.rows[(c, n)].nextAttempt <= s.db.now
    ensures Next(s, Take(w, c)) == Held(s, w, c, n, false)
  {
    hide Head, Last;
  }

  lemma LandIs(s: State, w: Id, c: Id, n: int)
    requires (c, n) in s.db.outbox && s.db.outbox == s.db.events
    ensures Next(Held(s, w, c, n, false), Land(w)) ==
              Held(s, w, c, n, true).(topic := s.topic[s.route(c) := Partition(s.topic, s.route(c)) + [Record(c, (c, n), s.db.events[(c, n)])]])
  {
    hide Partition;
    var again := s.workers[w := Worker(c, n, false)][w := Worker(c, n, true)];
    assert again == s.workers[w := Worker(c, n, true)];
  }

  /** How a worker that held the head of `c` leaves it. */
  lemma ReleaseIs(s: State, b: State, w: Id, c: Id, n: int, landed: bool)
    requires w !in s.workers && (c, n) in s.rows && b == s.(workers := s.workers[w := Worker(c, n, landed)], topic := b.topic)
    ensures var row := s.rows[(c, n)];
      && Next(b, Fail(w)) ==
           s.(topic := b.topic, rows := s.rows[(c, n) := Pending(row.attempts + 1, s.db.now + Backoff(row.attempts), row.published)])
      && (landed ==> Next(b, Confirm(w)) == s.(topic := b.topic, rows := s.rows[(c, n) := Pending(row.attempts + 1, row.nextAttempt, true)]))
  {
    hide Backoff;
    assert s.workers[w := Worker(c, n, landed)] - {w} == s.workers;
  }

  /** Without a due head, or while somebody holds the conversation, an attempt does nothing. */
  lemma OneIdles(s: State, w: Id, c: Id, fate: Fate)
    requires Reached(s) && w !in s.workers
    requires (exists v | v in s.workers :: s.workers[v].c == c) || forall n :: !Candidate(s, c, n)
    ensures OneSpec(s, w, c, fate) == s
  {
    if forall n :: !Candidate(s, c, n) {
      var head := Head(s.rows, c, 1, Last(s.db, c));
      if head.Some? { CandidatesAreDueHeads(s, c, head.value); }
    }
    hide Reached, Candidate, Head, Apply, Enqueued;
  }
}
