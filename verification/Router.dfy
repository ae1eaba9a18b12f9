/** The broker consumer that turns records into wake-up hints (internal/outbox/router.go). */
module Router {
  import opened Basics
  import opened Schema
  import opened Deltas
  import opened Outbox

  // ----- one record -----

  /** The decoded envelope of a broker record: what it claims to be. Anything at all may
      sit in the topic. */
  datatype Delivery = Delivery(key: Id, id: Key, aggregate: Id, sequence: int, envelope: Envelope)

  type Log = map<Key, Envelope>

  /** The record is the stored event it claims to be. */
  predicate Valid(log: Log, m: Delivery) {
    && m.aggregate == m.key
    && m.id == (m.aggregate, m.sequence)
    && m.id in log && log[m.id] == m.envelope
  }

  /** A duplicate: well-formed, and its event is in the inbox already. */
  predicate Known(inbox: set<Key>, m: Delivery) {
    m.aggregate == m.key && m.id in inbox
  }

  /** A consumer inside Handle and the commit that follows: nothing done, hint published
      but inbox not committed, inbox committed but offset not. */
  datatype Phase = Fetched | Hinted | Stored

  /** A consumer process at one offset of one partition. */
  datatype Consumer = Consumer(partition: int, position: int, phase: Phase)

  datatype State = State(
    log: Log,
    topic: map<int, seq<Delivery>>,
    offsets: map<int, int>,         // committed offset per partition
    inbox: set<Key>,
    hints: seq<Key>,                // published hints with the event that caused each
    consumers: map<Id, Consumer>)

  function Partition(topic: map<int, seq<Delivery>>, p: int): seq<Delivery> {
    if p in topic then topic[p] else []
  }

  function Offset(offsets: map<int, int>, p: int): int {
    if p in offsets then offsets[p] else 0
  }

  predicate InRange(s: State, x: Consumer) {
    0 <= x.position < |Partition(s.topic, x.partition)|
  }

  function At(s: State, x: Consumer): Delivery
    requires InRange(s, x)
  {
    Partition(s.topic, x.partition)[x.position]
  }

  /** Handle's advisory lock: nobody else is between hint and inbox for this event. */
  predicate Free(s: State, w: Id, id: Key) {
    forall v | v in s.consumers && v != w ::
      s.consumers[v].phase == Hinted && InRange(s, s.consumers[v]) ==> At(s, s.consumers[v]).id != id
  }

  // ----- steps -----

  /** `Grow` is everything the producers do: the log and the topic only get longer. Join
      starts a consumer at the committed offset; it may do so while another still runs. */
  datatype Step =
    | Grow(log: Log, topic: map<int, seq<Delivery>>)
    | Join(w: Id, partition: int)
    | Skip(w: Id)      // the inbox already holds the event
    | Hint(w: Id)      // validated; the hint is published
    | Store(w: Id)     // the inbox row is committed
    | Commit(w: Id)    // the offset is committed and the next record begins
    | Crash(w: Id)

  predicate Extends(a: map<int, seq<Delivery>>, b: map<int, seq<Delivery>>) {
    forall p | p in a :: p in b && a[p] <= b[p]
  }

  predicate Grows(a: Log, b: Log) {
    forall k | k in a :: k in b && b[k] == a[k]
  }

  predicate Enabled(s: State, x: Step) {
    match x
    case Grow(log, topic) => Grows(s.log, log) && Extends(s.topic, topic)
    case Join(w, p) => w !in s.consumers
    case Skip(w) => w in s.consumers && s.consumers[w].phase == Fetched && InRange(s, s.consumers[w]) && Known(s.inbox, At(s, s.consumers[w]))
    case Hint(w) =>
      && w in s.consumers && s.consumers[w].phase == Fetched && InRange(s, s.consumers[w])
      && var m := At(s, s.consumers[w]);
         m.id !in s.inbox && Valid(s.log, m) && Free(s, w, m.id)
    case Store(w) => w in s.consumers && s.consumers[w].phase == Hinted && InRange(s, s.consumers[w])
    case Commit(w) => w in s.consumers && s.consumers[w].phase == Stored
    case Crash(w) => true
  }

  function Next(s: State, x: Step): State {
    if !Enabled(s, x) then s
    else
      match x
      case Grow(log, topic) => s.(log := log, topic := topic)
      case Join(w, p) => s.(consumers := s.consumers[w := Consumer(p, Offset(s.offsets, p), Fetched)])
      case Skip(w) => s.(consumers := s.consumers[w := s.consumers[w].(phase := Stored)])
      case Hint(w) =>
        s.(hints := s.hints + [At(s, s.consumers[w]).id], consumers := s.consumers[w := s.consumers[w].(phase := Hinted)])
      case Store(w) =>
        s.(inbox := s.inbox + {At(s, s.consumers[w]).id}, consumers := s.consumers[w := s.consumers[w].(phase := Stored)])
      case Commit(w) =>
        var c := s.consumers[w];
        s.(offsets := s.offsets[c.partition := c.position + 1],
           consumers := s.consumers[w := Consumer(c.partition, c.position + 1, Fetched)])
      case Crash(w) => s.(consumers := s.consumers - {w})
  }

  function Play(s: State, steps: seq<Step>): State
    decreases |steps|
  {
    if steps == [] then s else Play(Next(s, steps[0]), steps[1..])
  }

  predicate Start(s: State) {
    s.offsets == map[] && s.inbox == {} && s.hints == [] && s.consumers == map[]
  }

  // ----- the invariant -----

  /** Every record of the partition before `n` has its event in the inbox, under its own key. */
  ghost predicate Received(records: seq<Delivery>, inbox: set<Key>, n: int) {
    0 <= n <= |records| && forall i | 0 <= i < n :: Known(inbox, records[i])
  }

  /** An inbox row names a logged event for which a hint went out. */
  ghost predicate Accounted(log: Log, hints: seq<Key>, id: Key) {
    id in log && id in hints
  }

  ghost predicate ConsumerOk(s: State, x: Consumer) {
    && Received(Partition(s.topic, x.partition), s.inbox, x.position)
    && (x.phase != Fetched ==> InRange(s, x))
    && (x.phase == Hinted ==> Valid(s.log, At(s, x)) && At(s, x).id in s.hints)
    && (x.phase == Stored ==> Known(s.inbox, At(s, x)))
  }

  ghost predicate Safe(s: State) {
    && (forall p :: Received(Partition(s.topic, p), s.inbox, Offset(s.offsets, p)))
    && (forall id | id in s.inbox :: Accounted(s.log, s.hints, id))
    && (forall w | w in s.consumers :: ConsumerOk(s, s.consumers[w]))
  }

  lemma NextSafe(s: State, x: Step)
    requires Safe(s)
    ensures Safe(Next(s, x))
  {
    var b := Next(s, x);
    if Enabled(s, x) && !x.Crash? {
      forall p ensures Received(Partition(b.topic, p), b.inbox, Offset(b.offsets, p)) {
        OffsetKept(s, x, p);
      }
      forall w | w in b.consumers ensures ConsumerOk(b, b.consumers[w]) {
        ConsumerKept(s, x, w);
      }
    }
  }

  lemma OffsetKept(s: State, x: Step, p: int)
    requires Safe(s) && Enabled(s, x)
    ensures var b := Next(s, x); Received(Partition(b.topic, p), b.inbox, Offset(b.offsets, p))
  {
    assert Received(Partition(s.topic, p), s.inbox, Offset(s.offsets, p));
    if x.Commit? { assert ConsumerOk(s, s.consumers[x.w]); }
  }

  lemma ConsumerKept(s: State, x: Step, w: Id)
    requires Safe(s) && Enabled(s, x) && w in Next(s, x).consumers
    ensures ConsumerOk(Next(s, x), Next(s, x).consumers[w])
  {
    if w in s.consumers { assert ConsumerOk(s, s.consumers[w]); }
    if x.Join? { assert Received(Partition(s.topic, x.partition), s.inbox, Offset(s.offsets, x.partition)); }
  }

  lemma {:induction false} PlaySafe(s: State, steps: seq<Step>)
    requires Safe(s)
    ensures Safe(Play(s, steps))
    decreases |steps|
  {
    if steps != [] {
      NextSafe(s, steps[0]);
      PlaySafe(Next(s, steps[0]), steps[1..]);
    }
  }

  /** At least once, whatever crashes between hint, inbox and offset, however many
      consumers overlap, and whatever foreign records sit in the topic: every record below
      a committed offset has its event in the inbox; every inbox row is a logged event for
      which a hint was published. */
  lemma AtLeastOnce(start: State, steps: seq<Step>)
    requires Start(start)
    ensures var s := Play(start, steps);
      && (forall p, i | 0 <= i < Offset(s.offsets, p) && i < |Partition(s.topic, p)| :: Partition(s.topic, p)[i].id in s.inbox)
      && (forall p :: 0 <= Offset(s.offsets, p) <= |Partition(s.topic, p)|)
      && (forall id | id in s.inbox :: id in s.log && id in s.hints)
  {
    PlaySafe(start, steps);
    var s := Play(start, steps);
    assert forall p :: Received(Partition(s.topic, p), s.inbox, Offset(s.offsets, p));
  }

  // ----- what the router accepts -----

  /** Every record a worker ever publishes is accepted, now and in every later log: the
      router never blocks behind its own producer. */
  lemma WorkersAreAccepted(db: Db, r: Record, later: Log)
    requires Genuine(db, r) && Grows(db.events, later)
    ensures Valid(later, Delivery(r.key, r.id, r.id.0, r.id.1, r.envelope))
  {
  }

  // ----- Handle and Run -----

  /** What the surroundings do to one attempt: the hint, the inbox commit and the offset
      commit each succeed or fail. */
  datatype Luck = Luck(hint: bool, inbox: bool, offset: bool)

  class Consumption {
    var inbox: set<Key>
    var hints: seq<Key>
    var offset: int

    constructor ()
      ensures inbox == {} && hints == [] && offset == 0
    {
      inbox, hints, offset := {}, [], 0;
    }
  }

  /** Handle: a known event is done; an invalid record fails and leaves no trace; a hint
      precedes the inbox row, so a failure in between can only repeat the hint. */
  method Handle(d: Consumption, log: Log, m: Delivery, luck: Luck) returns (error: Option<Error>)
    modifies d
    ensures d.offset == old(d.offset)
    ensures error.None? <==> Known(old(d.inbox), m) || (Valid(log, m) && luck.hint && luck.inbox)
    ensures d.inbox == if error.None? then old(d.inbox) + {m.id} else old(d.inbox)
    ensures d.hints == if m.id !in old(d.inbox) && Valid(log, m) && luck.hint then old(d.hints) + [m.id] else old(d.hints)
  {
    if m.aggregate != m.key { return Some(Invalid); }
    if m.id in d.inbox { return None; }
    if !Valid(log, m) { return Some(Invalid); }
    if !luck.hint { return Some(Unavailable); }
    d.hints := d.hints + [m.id];
    if !luck.inbox { return Some(Unavailable); }
    d.inbox := d.inbox + {m.id};
    return None;
  }

  /** The event of a record at or before `n`. */
  ghost predicate Before(records: seq<Delivery>, n: int, id: Key) {
    exists j :: 0 <= j <= n && j < |records| && records[j].id == id
  }

  /** Run over one fetched batch until shutdown (when the attempts run out): each record is
      retried until it is handled and its offset committed, and nothing later is touched
      before. `records` is the partition, `d.offset` the committed offset. */
  method Run(d: Consumption, log: Log, records: seq<Delivery>, attempts: seq<Luck>)
    requires Received(records, d.inbox, d.offset)
    requires forall id | id in d.inbox :: Accounted(log, d.hints, id)
    modifies d
    ensures old(d.offset) <= d.offset && Received(records, d.inbox, d.offset)
    ensures forall id | id in d.inbox :: Accounted(log, d.hints, id)
    ensures old(d.inbox) <= d.inbox
    ensures forall id | id in d.inbox - old(d.inbox) :: Before(records, d.offset, id)
  {
    var left := attempts;
    while left != [] && d.offset < |records|
      invariant old(d.offset) <= d.offset && Received(records, d.inbox, d.offset)
      invariant forall id | id in d.inbox :: Accounted(log, d.hints, id)
      invariant old(d.inbox) <= d.inbox
      invariant forall id | id in d.inbox - old(d.inbox) :: Before(records, d.offset, id)
      decreases |left|
    {
      var m := records[d.offset];
      ghost var before, at := d.inbox, d.offset;
      var error := Handle(d, log, m, left[0]);
      if error.None? && left[0].offset {
        d.offset := d.offset + 1;
      }
      forall id | id in d.inbox - old(d.inbox) ensures Before(records, d.offset, id) {
        if id in before { assert Before(records, at, id); } else { assert records[at].id == id; }
      }
      left := left[1..];
    }
  }
}
