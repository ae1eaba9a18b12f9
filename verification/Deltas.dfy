/** The three shapes of change a committed transaction can make to the event log, and
    what each of them keeps: a dense log and a version ledger. */
module Deltas {
  import opened Basics
  import opened Schema

  // ----- the two log invariants -----

  /** The log of every conversation holds exactly the sequences 1..event_sequence, and
      the outbox received the same rows. */
  ghost predicate DenseLog(convs: map<Id, Conversation>, events: map<(Id, int), Envelope>, outbox: map<(Id, int), Envelope>) {
    && outbox == events
    && (forall c | c in convs :: 0 <= convs[c].eventSequence)
    && (forall k :: k in events <==> k.0 in convs && 1 <= k.1 <= convs[k.0].eventSequence)
  }

  ghost predicate Mentions(events: map<(Id, int), Envelope>, c: Id, s: int, m: Id) {
    (c, s) in events && MessageState(events[(c, s)].kind) && events[(c, s)].refs.message == Some(m)
  }

  /** How many message-state events of `m` the first `n` log rows of `c` hold. */
  ghost function Occurrences(events: map<(Id, int), Envelope>, c: Id, n: int, m: Id): int
    decreases n
  {
    if n <= 0 then 0
    else Occurrences(events, c, n - 1, m) + if Mentions(events, c, n, m) then 1 else 0
  }

  /** A message's resource version counts its events, and the k-th of them says k. */
  ghost predicate Counted(convs: map<Id, Conversation>, messages: map<Id, Row>, events: map<(Id, int), Envelope>, m: Id)
    requires m in messages
  {
    var c := messages[m].conversation;
    c in convs && messages[m].version == Occurrences(events, c, convs[c].eventSequence, m) && 1 <= messages[m].version
  }

  ghost predicate Numbered(messages: map<Id, Row>, events: map<(Id, int), Envelope>, c: Id, s: int) {
    (c, s) in events && MessageState(events[(c, s)].kind) ==>
      var refs := events[(c, s)].refs;
      && refs.message.Some? && refs.message.value in messages
      && var m := refs.message.value;
         && messages[m].conversation == c && refs.messageSequence == messages[m].sequence
         && refs.version == Occurrences(events, c, s, m)
  }

  ghost predicate Ledger(convs: map<Id, Conversation>, messages: map<Id, Row>, events: map<(Id, int), Envelope>) {
    && (forall m | m in messages :: Counted(convs, messages, events, m))
    && (forall c, s :: Numbered(messages, events, c, s))
  }

  // ----- shapes of change -----

  /** The columns no operation ever touches. */
  predicate SameIdentity(r: Row, s: Row) {
    && r.conversation == s.conversation && r.sender == s.sender && r.mtype == s.mtype && r.sequence == s.sequence
    && r.createdAt == s.createdAt && r.expiresAt == s.expiresAt
  }

  /** Nothing a projection of `m` reads has changed. */
  ghost predicate Untouched(a: Db, b: Db, m: Id) {
    && m in a.messages && m in b.messages && a.messages[m] == b.messages[m]
    && ReactionRows(a.reactions, m) == ReactionRows(b.reactions, m)
    && (m in a.pins <==> m in b.pins) && (m in a.pins ==> a.pins[m] == b.pins[m])
    && Views(a.links, a.attachments, m) == Views(b.links, b.attachments, m)
  }

  /** Exactly one event was appended, to conversation `c`. */
  ghost predicate Appended(a: Db, b: Db, c: Id, e: Envelope) {
    && c in a.conversations && b.conversations.Keys == a.conversations.Keys
    && (forall k | k in a.conversations && k != c :: b.conversations[k] == a.conversations[k])
    && b.conversations[c].eventSequence == a.conversations[c].eventSequence + 1
    && var key := (c, b.conversations[c].eventSequence);
       b.events == a.events[key := e] && b.outbox == a.outbox[key := e]
  }

  /** One message changed or appeared, and its event says so. */
  ghost predicate StateWrite(a: Db, b: Db, c: Id, m: Id, kind: EventKind) {
    && a.now == b.now && a.keys == b.keys
    && MessageState(kind)
    && m in b.messages && b.messages.Keys == a.messages.Keys + {m}
    && b.messages[m].conversation == c
    && (if m in a.messages
        then SameIdentity(a.messages[m], b.messages[m]) && b.messages[m].version == a.messages[m].version + 1
        else b.messages[m].version == 1)
    && Appended(a, b, c, Envelope(kind, StateRefs(m, b.messages[m])))
    && (forall x | x in a.messages && x != m :: Untouched(a, b, x))
  }

  /** No message changed; one event of another kind was appended. */
  ghost predicate OtherWrite(a: Db, b: Db, c: Id, e: Envelope) {
    && a.now == b.now && a.keys == b.keys
    && !MessageState(e.kind)
    && a.messages == b.messages && (forall x | x in a.messages :: Untouched(a, b, x))
    && Appended(a, b, c, e)
  }

  /** A conversation appeared with its first event. */
  ghost predicate Opened(a: Db, b: Db, c: Id, e: Envelope) {
    && a.now == b.now && a.keys == b.keys
    && !MessageState(e.kind)
    && a.messages == b.messages && (forall x | x in a.messages :: Untouched(a, b, x))
    && c !in a.conversations && b.conversations.Keys == a.conversations.Keys + {c}
    && (forall k | k in a.conversations :: b.conversations[k] == a.conversations[k])
    && b.conversations[c].eventSequence == 1
    && b.events == a.events[(c, 1) := e] && b.outbox == a.outbox[(c, 1) := e]
  }

  /** Neither the log nor any projection changed, except through clock and key set. */
  ghost predicate Quiet(a: Db, b: Db) {
    && a.now <= b.now && a.keys.seal <= b.keys.seal
    && a.conversations == b.conversations && a.events == b.events && a.outbox == b.outbox
    && a.messages == b.messages && (forall x | x in a.messages :: Untouched(a, b, x))
  }

  // ----- preservation -----

  lemma {:induction false} OccurrencesFrame(a: map<(Id, int), Envelope>, b: map<(Id, int), Envelope>, c: Id, n: int, m: Id)
    requires forall s | 1 <= s <= n :: ((c, s) in a <==> (c, s) in b) && ((c, s) in a ==> a[(c, s)] == b[(c, s)])
    ensures Occurrences(a, c, n, m) == Occurrences(b, c, n, m)
    decreases n
  {
    if n > 0 {
      OccurrencesFrame(a, b, c, n - 1, m);
    }
  }

  lemma {:induction false} NoOccurrences(events: map<(Id, int), Envelope>, c: Id, n: int, m: Id)
    requires forall s | 1 <= s <= n :: !Mentions(events, c, s, m)
    ensures Occurrences(events, c, n, m) == 0
    decreases n
  {
    if n > 0 {
      NoOccurrences(events, c, n - 1, m);
    }
  }

  lemma AppendKeepsDense(a: Db, b: Db, c: Id, e: Envelope)
    requires DenseLog(a.conversations, a.events, a.outbox) && Appended(a, b, c, e)
    ensures DenseLog(b.conversations, b.events, b.outbox)
  {
  }

  /** What one appended event does to the counts: it adds to the message it names. */
  lemma AppendCounts(a: Db, b: Db, c: Id, e: Envelope, k: Id, n: int, m: Id)
    requires DenseLog(a.conversations, a.events, a.outbox) && Appended(a, b, c, e)
    requires k in a.conversations && n <= b.conversations[k].eventSequence
    ensures k != c || n <= a.conversations[c].eventSequence ==> Occurrences(b.events, k, n, m) == Occurrences(a.events, k, n, m)
    ensures k == c && n == b.conversations[c].eventSequence ==>
              Occurrences(b.events, c, n, m) == Occurrences(a.events, c, n - 1, m) + if MessageState(e.kind) && e.refs.message == Some(m) then 1 else 0
  {
    var last := b.conversations[c].eventSequence;
    if k != c || n < last {
      OccurrencesFrame(a.events, b.events, k, n, m);
    } else {
      assert n == last;
      OccurrencesFrame(a.events, b.events, c, n - 1, m);
    }
  }

  lemma WrittenIsCounted(a: Db, b: Db, c: Id, m: Id, kind: EventKind)
    requires DenseLog(a.conversations, a.events, a.outbox) && Ledger(a.conversations, a.messages, a.events)
    requires StateWrite(a, b, c, m, kind)
    ensures Counted(b.conversations, b.messages, b.events, m)
  {
    var last := b.conversations[c].eventSequence;
    if m !in a.messages {
      forall s | 1 <= s <= last - 1 ensures !Mentions(a.events, c, s, m) {
        assert Numbered(a.messages, a.events, c, s);
      }
      NoOccurrences(a.events, c, last - 1, m);
    } else {
      assert Counted(a.conversations, a.messages, a.events, m);
    }
    AppendCounts(a, b, c, Envelope(kind, StateRefs(m, b.messages[m])), c, last, m);
  }

  lemma OtherStaysCounted(a: Db, b: Db, c: Id, m: Id, kind: EventKind, x: Id)
    requires DenseLog(a.conversations, a.events, a.outbox) && Ledger(a.conversations, a.messages, a.events)
    requires StateWrite(a, b, c, m, kind) && x in a.messages && x != m
    ensures x in b.messages && Counted(b.conversations, b.messages, b.events, x)
  {
    assert Counted(a.conversations, a.messages, a.events, x) && Untouched(a, b, x);
    var k := a.messages[x].conversation;
    AppendCounts(a, b, c, Envelope(kind, StateRefs(m, b.messages[m])), k, b.conversations[k].eventSequence, x);
  }

  lemma RowStaysNumbered(a: Db, b: Db, c: Id, m: Id, kind: EventKind, k: Id, s: int)
    requires DenseLog(a.conversations, a.events, a.outbox) && Ledger(a.conversations, a.messages, a.events)
    requires StateWrite(a, b, c, m, kind)
    requires (k, s) != (c, b.conversations[c].eventSequence)
    ensures Numbered(b.messages, b.events, k, s)
  {
    if (k, s) in b.events && MessageState(b.events[(k, s)].kind) {
      assert (k, s) in a.events && Numbered(a.messages, a.events, k, s);
      var x := a.events[(k, s)].refs.message.value;
      assert x != m ==> Untouched(a, b, x);
      AppendCounts(a, b, c, Envelope(kind, StateRefs(m, b.messages[m])), k, s, x);
    }
  }

  lemma StateWriteKeepsLedger(a: Db, b: Db, c: Id, m: Id, kind: EventKind)
    requires DenseLog(a.conversations, a.events, a.outbox) && Ledger(a.conversations, a.messages, a.events)
    requires StateWrite(a, b, c, m, kind)
    ensures Ledger(b.conversations, b.messages, b.events)
  {
    WrittenIsCounted(a, b, c, m, kind);
    forall x | x in b.messages ensures Counted(b.conversations, b.messages, b.events, x) {
      if x != m { OtherStaysCounted(a, b, c, m, kind, x); }
    }
    forall k, s ensures Numbered(b.messages, b.events, k, s) {
      if (k, s) != (c, b.conversations[c].eventSequence) { RowStaysNumbered(a, b, c, m, kind, k, s); }
    }
  }

  lemma OtherWriteKeepsLedger(a: Db, b: Db, c: Id, e: Envelope)
    requires DenseLog(a.conversations, a.events, a.outbox) && Ledger(a.conversations, a.messages, a.events)
    requires OtherWrite(a, b, c, e)
    ensures Ledger(b.conversations, b.messages, b.events)
  {
    forall x | x in b.messages ensures Counted(b.conversations, b.messages, b.events, x) {
      assert Counted(a.conversations, a.messages, a.events, x);
      var k := a.messages[x].conversation;
      AppendCounts(a, b, c, e, k, b.conversations[k].eventSequence, x);
    }
    forall k, s ensures Numbered(b.messages, b.events, k, s) {
      if (k, s) in b.events && MessageState(b.events[(k, s)].kind) {
        assert (k, s) in a.events && Numbered(a.messages, a.events, k, s);
        AppendCounts(a, b, c, e, k, s, a.events[(k, s)].refs.message.value);
      }
    }
  }

  lemma OpenedKeepsLog(a: Db, b: Db, c: Id, e: Envelope)
    requires DenseLog(a.conversations, a.events, a.outbox) && Ledger(a.conversations, a.messages, a.events)
    requires Opened(a, b, c, e)
    ensures DenseLog(b.conversations, b.events, b.outbox) && Ledger(b.conversations, b.messages, b.events)
  {
    forall x | x in b.messages ensures Counted(b.conversations, b.messages, b.events, x) {
      assert Counted(a.conversations, a.messages, a.events, x);
      var k := a.messages[x].conversation;
      OccurrencesFrame(a.events, b.events, k, b.conversations[k].eventSequence, x);
    }
    forall k, s ensures Numbered(b.messages, b.events, k, s) {
      if (k, s) in b.events && MessageState(b.events[(k, s)].kind) {
        assert (k, s) in a.events && Numbered(a.messages, a.events, k, s);
        OccurrencesFrame(a.events, b.events, k, s, a.events[(k, s)].refs.message.value);
      }
    }
  }

  // ----- what any number of transactions keeps -----

  ghost predicate Silent(events: map<(Id, int), Envelope>, c: Id, m: Id, after: int, through: int) {
    forall s | after < s <= through :: !Mentions(events, c, s, m)
  }

  ghost predicate LogGrows(a: Db, b: Db) {
    && (forall c | c in a.conversations ::
          && c in b.conversations && a.conversations[c].eventSequence <= b.conversations[c].eventSequence
          && a.conversations[c].ctype == b.conversations[c].ctype)
    && (forall k | k in a.events :: k in b.events && a.events[k] == b.events[k])
  }

  /** A message stays where it is, and whatever its projection reads stays the same until
      an event names it. */
  ghost predicate Persists(a: Db, b: Db, m: Id)
    requires m in a.messages
  {
    var c := a.messages[m].conversation;
    && m in b.messages && SameIdentity(a.messages[m], b.messages[m])
    && c in a.conversations && c in b.conversations
    && (Silent(b.events, c, m, a.conversations[c].eventSequence, b.conversations[c].eventSequence) ==> Untouched(a, b, m))
  }

  ghost predicate Evolves(a: Db, b: Db) {
    && a.now <= b.now && a.keys.seal <= b.keys.seal && LogGrows(a, b)
    && forall m | m in a.messages :: Persists(a, b, m)
  }

  lemma EvolvesTransitive(a: Db, b: Db, d: Db)
    requires Evolves(a, b) && Evolves(b, d)
    ensures Evolves(a, d)
  {
    forall m | m in a.messages ensures Persists(a, d, m) {
      assert Persists(a, b, m) && Persists(b, d, m);
      var c := a.messages[m].conversation;
      if Silent(d.events, c, m, a.conversations[c].eventSequence, d.conversations[c].eventSequence) {
        forall s | a.conversations[c].eventSequence < s <= b.conversations[c].eventSequence ensures !Mentions(b.events, c, s, m) {
          assert !Mentions(d.events, c, s, m);
        }
        assert Silent(d.events, c, m, b.conversations[c].eventSequence, d.conversations[c].eventSequence);
      }
    }
  }

  lemma StateWriteEvolves(a: Db, b: Db, c: Id, m: Id, kind: EventKind)
    requires DenseLog(a.conversations, a.events, a.outbox) && Ledger(a.conversations, a.messages, a.events)
    requires StateWrite(a, b, c, m, kind) && b.conversations[c].ctype == a.conversations[c].ctype
    ensures Evolves(a, b)
  {
    forall x | x in a.messages ensures Persists(a, b, x) {
      assert Counted(a.conversations, a.messages, a.events, x);
      if x == m {
        assert Mentions(b.events, c, b.conversations[c].eventSequence, m);
      } else {
        assert Untouched(a, b, x);
      }
    }
  }

  lemma OtherWriteEvolves(a: Db, b: Db, c: Id, e: Envelope)
    requires DenseLog(a.conversations, a.events, a.outbox) && Ledger(a.conversations, a.messages, a.events)
    requires OtherWrite(a, b, c, e) && b.conversations[c].ctype == a.conversations[c].ctype
    ensures Evolves(a, b)
  {
    forall x | x in a.messages ensures Persists(a, b, x) {
      assert Counted(a.conversations, a.messages, a.events, x) && Untouched(a, b, x);
    }
  }

  lemma OpenedEvolves(a: Db, b: Db, c: Id, e: Envelope)
    requires DenseLog(a.conversations, a.events, a.outbox) && Ledger(a.conversations, a.messages, a.events)
    requires Opened(a, b, c, e)
    ensures Evolves(a, b)
  {
    forall x | x in a.messages ensures Persists(a, b, x) {
      assert Counted(a.conversations, a.messages, a.events, x) && Untouched(a, b, x);
    }
  }

  lemma QuietEvolves(a: Db, b: Db)
    requires Ledger(a.conversations, a.messages, a.events) && Quiet(a, b)
    ensures Evolves(a, b)
  {
    forall x | x in a.messages ensures Persists(a, b, x) {
      assert Counted(a.conversations, a.messages, a.events, x) && Untouched(a, b, x);
    }
  }
}
