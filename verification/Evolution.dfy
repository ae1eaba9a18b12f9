/** One committed transaction as an effect on log, projections and member rows; what any
    number of effects keeps. */
module Evolution {
  import opened Basics
  import opened Schema
  import opened Recovery
  import opened Deltas
  import opened Invariants

  // ----- checkpoints in the log -----

  predicate IsReceipt(e: Envelope, u: Id) {
    (e.kind.MessageRead? || e.kind.MessageDelivered?) && e.refs.user == Some(u)
  }

  function CursorsOf(members: map<(Id, Id), Membership>, k: (Id, Id)): (int, int) {
    if k in members then (members[k].read, members[k].delivered) else (0, 0)
  }

  /** The checkpoint the first `n` log rows of `c` announce for `u`. */
  ghost function Announced(events: map<(Id, int), Envelope>, c: Id, n: int, u: Id): (int, int)
    decreases n
  {
    if n <= 0 then (0, 0)
    else if (c, n) in events && IsReceipt(events[(c, n)], u) then (events[(c, n)].refs.read, events[(c, n)].refs.delivered)
    else Announced(events, c, n - 1, u)
  }

  predicate Rises(before: (int, int), after: (int, int)) {
    before.0 <= after.0 && before.1 <= after.1 && before != after
  }

  ghost predicate Raises(events: map<(Id, int), Envelope>, c: Id, s: int, u: Id) {
    (c, s) in events && IsReceipt(events[(c, s)], u) ==>
      Rises(Announced(events, c, s - 1, u), (events[(c, s)].refs.read, events[(c, s)].refs.delivered))
  }

  ghost predicate Current(convs: map<Id, Conversation>, members: map<(Id, Id), Membership>, events: map<(Id, int), Envelope>, c: Id, u: Id) {
    c in convs ==> Announced(events, c, convs[c].eventSequence, u) == CursorsOf(members, (c, u))
  }

  /** A receipt event was appended exactly when a cursor changed: the last one announces
      the stored cursors, and each one raises its predecessor. */
  ghost predicate Checkpointed(convs: map<Id, Conversation>, members: map<(Id, Id), Membership>, events: map<(Id, int), Envelope>) {
    && (forall c, u :: Current(convs, members, events, c, u))
    && (forall c, s, u :: Raises(events, c, s, u))
  }

  lemma {:induction false} AnnouncedFrame(a: map<(Id, int), Envelope>, b: map<(Id, int), Envelope>, c: Id, n: int, u: Id)
    requires forall s | 1 <= s <= n :: ((c, s) in a <==> (c, s) in b) && ((c, s) in a ==> a[(c, s)] == b[(c, s)])
    ensures Announced(a, c, n, u) == Announced(b, c, n, u)
    decreases n
  {
    if n > 0 { AnnouncedFrame(a, b, c, n - 1, u); }
  }

  // ----- effects -----

  /** MemberRow names the membership row an event came with. */
  datatype Effect =
    | Silence
    | State(c: Id, m: Id, kind: EventKind)
    | Other(c: Id, e: Envelope)
    | MemberRow(c: Id, e: Envelope, user: Id, row: Membership)
    | Start(c: Id, e: Envelope)

  /** How one member row may move: cursors and version only grow. */
  ghost predicate RowMoves(m: Membership, n: Membership) {
    m.read <= n.read && m.delivered <= n.delivered && m.version <= n.version
  }

  /** A receipt event carries the new cursors; any other event leaves them alone. */
  ghost predicate RowAnnounced(a: Db, c: Id, e: Envelope, user: Id, row: Membership) {
    && ((c, user) in a.members ==> RowMoves(a.members[(c, user)], row))
    && if e.kind.MessageRead? || e.kind.MessageDelivered?
       then && e.refs.user == Some(user) && e.refs.read == row.read && e.refs.delivered == row.delivered
            && Rises(CursorsOf(a.members, (c, user)), (row.read, row.delivered))
       else CursorsOf(a.members, (c, user)) == (row.read, row.delivered)
  }

  predicate Plain(e: Envelope) {
    !e.kind.MessageRead? && !e.kind.MessageDelivered?
  }

  ghost predicate Caused(a: Db, b: Db, x: Effect) {
    match x
    case Silence => Quiet(a, b) && a.members == b.members && a.pairs == b.pairs
    case State(c, m, kind) =>
      && StateWrite(a, b, c, m, kind) && b.conversations[c].ctype == a.conversations[c].ctype
      && a.members == b.members && a.pairs == b.pairs
    case Other(c, e) =>
      && OtherWrite(a, b, c, e) && b.conversations[c].ctype == a.conversations[c].ctype && Plain(e)
      && a.members == b.members && a.pairs == b.pairs
    case MemberRow(c, e, user, row) =>
      && OtherWrite(a, b, c, e) && b.conversations[c].ctype == a.conversations[c].ctype
      && b.members == a.members[(c, user) := row] && a.pairs == b.pairs
      && RowAnnounced(a, c, e, user, row)
    case Start(c, e) =>
      && Opened(a, b, c, e) && Plain(e)
      && (forall k | k in a.members :: k in b.members && a.members[k] == b.members[k])
      && (forall k | k in b.members && k !in a.members :: CursorsOf(b.members, k) == (0, 0))
      && (forall p | p in a.pairs :: p in b.pairs && a.pairs[p] == b.pairs[p])
  }

  /** What every transaction, and so every run, keeps: the log only grows, messages persist
      until an event names them, member rows and their cursors only advance, and a DIRECT
      pair never changes its conversation. */
  ghost predicate Follows(a: Db, b: Db) {
    && Evolves(a, b)
    && (forall k | k in a.members :: k in b.members && RowMoves(a.members[k], b.members[k]))
    && (forall p | p in a.pairs :: p in b.pairs && a.pairs[p] == b.pairs[p])
  }

  lemma FollowsTransitive(a: Db, b: Db, d: Db)
    requires Follows(a, b) && Follows(b, d)
    ensures Follows(a, d)
  {
    EvolvesTransitive(a, b, d);
    hide Evolves;
  }

  lemma CausedFollows(a: Db, b: Db, x: Effect)
    requires Inv(a) && Caused(a, b, x)
    ensures Follows(a, b)
  {
    hide Ordered, Tails, Bodies, Indexed, Receipts, Related, Cursors, Governance, Files, Evolves, StateWrite, OtherWrite, Opened, Quiet, DenseLog, Ledger;
    match x
    case Silence => QuietEvolves(a, b);
    case State(c, m, kind) => StateWriteEvolves(a, b, c, m, kind);
    case Other(c, e) => OtherWriteEvolves(a, b, c, e);
    case MemberRow(c, e, user, row) => OtherWriteEvolves(a, b, c, e);
    case Start(c, e) => OpenedEvolves(a, b, c, e);
  }

  // ----- checkpoints follow the rows -----

  lemma AnnouncedAfter(a: Db, b: Db, c: Id, e: Envelope, k: Id, n: int, u: Id)
    requires DenseLog(a.conversations, a.events, a.outbox) && Appended(a, b, c, e)
    requires k in a.conversations && n <= b.conversations[k].eventSequence
    ensures Announced(b.events, k, n, u) ==
              if k == c && n == b.conversations[c].eventSequence && IsReceipt(e, u) then (e.refs.read, e.refs.delivered)
              else Announced(a.events, k, if k == c && n == b.conversations[c].eventSequence then n - 1 else n, u)
  {
    var last := b.conversations[c].eventSequence;
    if k != c || n < last {
      AnnouncedFrame(a.events, b.events, k, n, u);
    } else {
      AnnouncedFrame(a.events, b.events, c, n - 1, u);
    }
  }

  /** The event and the member rows agree about who acknowledged what. */
  ghost predicate Acknowledges(a: map<(Id, Id), Membership>, b: map<(Id, Id), Membership>, c: Id, e: Envelope) {
    && (forall k :: CursorsOf(b, k) == if k.0 == c && IsReceipt(e, k.1) then (e.refs.read, e.refs.delivered) else CursorsOf(a, k))
    && (forall u | IsReceipt(e, u) :: Rises(CursorsOf(a, (c, u)), (e.refs.read, e.refs.delivered)))
  }

  lemma AppendCurrent(a: Db, b: Db, c: Id, e: Envelope, k: Id, u: Id)
    requires DenseLog(a.conversations, a.events, a.outbox) && Appended(a, b, c, e)
    requires Acknowledges(a.members, b.members, c, e)
    requires Current(a.conversations, a.members, a.events, k, u)
    ensures Current(b.conversations, b.members, b.events, k, u)
  {
    if k in b.conversations { AnnouncedAfter(a, b, c, e, k, b.conversations[k].eventSequence, u); }
    assert CursorsOf(b.members, (k, u)) == if k == c && IsReceipt(e, u) then (e.refs.read, e.refs.delivered) else CursorsOf(a.members, (k, u));
  }

  lemma AppendRaises(a: Db, b: Db, c: Id, e: Envelope, k: Id, s: int, u: Id)
    requires DenseLog(a.conversations, a.events, a.outbox) && Appended(a, b, c, e)
    requires Acknowledges(a.members, b.members, c, e)
    requires Current(a.conversations, a.members, a.events, k, u) && Raises(a.events, k, s, u)
    ensures Raises(b.events, k, s, u)
  {
    var last := b.conversations[c].eventSequence;
    if (k, s) in b.events {
      assert (k, s) != (c, last) ==> (k, s) in a.events;
      AnnouncedAfter(a, b, c, e, k, s - 1, u);
    }
  }

  lemma AppendCheckpoints(a: Db, b: Db, c: Id, e: Envelope)
    requires DenseLog(a.conversations, a.events, a.outbox) && Appended(a, b, c, e)
    requires Checkpointed(a.conversations, a.members, a.events) && Acknowledges(a.members, b.members, c, e)
    ensures Checkpointed(b.conversations, b.members, b.events)
  {
    hide DenseLog, Appended, Acknowledges, Current, Raises;
    forall k, u ensures Current(b.conversations, b.members, b.events, k, u) { AppendCurrent(a, b, c, e, k, u); }
    forall k, s, u ensures Raises(b.events, k, s, u) { AppendRaises(a, b, c, e, k, s, u); }
  }

  lemma StartCheckpoints(a: Db, b: Db, c: Id, e: Envelope)
    requires DenseLog(a.conversations, a.events, a.outbox) && Caused(a, b, Start(c, e))
    requires Checkpointed(a.conversations, a.members, a.events) && Cursors(a.conversations, a.members)
    ensures Checkpointed(b.conversations, b.members, b.events)
  {
    assert forall k | k in a.members :: CursorOk(a.conversations, k, a.members[k]);
    forall k, u ensures Current(b.conversations, b.members, b.events, k, u) {
      assert Current(a.conversations, a.members, a.events, k, u);
      if k == c {
        assert Announced(b.events, c, 1, u) == (0, 0);
      } else if k in b.conversations {
        AnnouncedFrame(a.events, b.events, k, b.conversations[k].eventSequence, u);
      }
    }
    forall k, s, u ensures Raises(b.events, k, s, u) {
      if (k, s) in b.events && IsReceipt(b.events[(k, s)], u) {
        assert (k, s) in a.events && Raises(a.events, k, s, u);
        AnnouncedFrame(a.events, b.events, k, s - 1, u);
      }
    }
  }

  lemma CausedCheckpoints(a: Db, b: Db, x: Effect)
    requires Inv(a) && Caused(a, b, x) && Checkpointed(a.conversations, a.members, a.events)
    ensures Checkpointed(b.conversations, b.members, b.events)
  {
    hide Ordered, Tails, Bodies, Indexed, Receipts, Related, Cursors, Governance, Files, Checkpointed, Appended, DenseLog, Ledger, Untouched;
    match x
    case Silence =>
    case State(c, m, kind) => AppendCheckpoints(a, b, c, Envelope(kind, StateRefs(m, b.messages[m])));
    case Other(c, e) => AppendCheckpoints(a, b, c, e);
    case MemberRow(c, e, user, row) => AppendCheckpoints(a, b, c, e);
    case Start(c, e) => StartCheckpoints(a, b, c, e);
  }
}
