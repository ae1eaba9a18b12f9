/** Snapshot plus replay: a client rebuilds the server's current projections from any
    interleaving of pages and transactions, although replay hydrates old events with newer
    state. */
module Convergence {
  import opened Basics
  import opened Cryptography
  import opened Schema
  import opened Access
  import opened Recovery
  import opened Reading
  import opened ReadingProofs
  import opened Deltas
  import opened Invariants
  import opened Evolution
  import opened System

  // ----- a replay of a reachable log never fails -----

  lemma PageIsSound(db: Db, c: Id, after: int, n: int, s: int)
    requires Inv(db) && c in db.conversations && 0 <= after < s <= n <= db.conversations[c].eventSequence
    ensures (c, s) in db.events && Identified(db, c, s) && Decrypts(db, c, s) && Resolves(db, c, s)
  {
    hide Ordered, Tails, BodyOk, Indexed, Receipts, Related, Cursors, Governance, Files, Scan;
    assert Numbered(db.messages, db.events, c, s);
    if MessageState(db.events[(c, s)].kind) { ScanSucceeds(db, db.events[(c, s)].refs.message.value); }
  }

  /** In every reachable state a current member replaying from a cursor at or below the
      watermark gets its page: no gap, no unresolvable reference, no undecryptable body. */
  lemma ReplayNeverFails(db: Db, user: Id, c: Id, after: int, limit: int)
    requires Reachable(db) && Readable(db, c, user)
    requires 0 <= after <= db.conversations[c].eventSequence && 1 <= limit <= MAX_PAGE
    ensures var high := db.conversations[c].eventSequence;
      var n := Reach(after, limit, high);
      ReplaySpec(db, user, c, after, limit) == Ok(Page(Suffix(db, user, c, after, n), n, high, n < high))
  {
    hide Reachable, Checkpointed, Inv, Suffix, Identified, Decrypts, Resolves;
    ReachableInv(db);
    var n := Reach(after, limit, db.conversations[c].eventSequence);
    forall s | after < s <= n ensures (c, s) in db.events && Identified(db, c, s) && Decrypts(db, c, s) && Resolves(db, c, s) {
      PageIsSound(db, c, after, n, s);
    }
  }

  // ----- iterating pages of one stored log -----

  /** Pages with the given limits, each starting where the previous one ended. */
  function Drain(db: Db, user: Id, c: Id, after: int, limits: seq<int>): Result<(seq<Delivered>, int)>
    decreases |limits|
  {
    if limits == [] then Ok(([], after))
    else
      match ReplaySpec(db, user, c, after, limits[0])
      case Err(e) => Err(e)
      case Ok(page) =>
        match Drain(db, user, c, page.through, limits[1..])
        case Err(e) => Err(e)
        case Ok((rest, through)) => Ok((page.events + rest, through))
  }

  lemma SuffixSplits(db: Db, user: Id, c: Id, after: int, mid: int, n: int)
    requires after <= mid <= n
    ensures Suffix(db, user, c, after, n) == Suffix(db, user, c, after, mid) + Suffix(db, user, c, mid, n)
  {
    hide Shown, Suffix;
    var all, first, second := Suffix(db, user, c, after, n), Suffix(db, user, c, after, mid), Suffix(db, user, c, mid, n);
    forall i | 0 <= i < |all| ensures all[i] == (first + second)[i] {
      if i >= mid - after { assert second[i - (mid - after)] == Shown(db, user, c, mid + 1 + (i - (mid - after))); }
    }
  }

  /** On any stored log, pruned or gapped, the pages that succeed concatenate to the log
      suffix; each page that is not the last shortens the distance to the watermark, so as
      many pages as events reach it. */
  lemma {:induction false} PagesConcatenate(db: Db, user: Id, c: Id, after: int, limits: seq<int>)
    requires Drain(db, user, c, after, limits).Ok? && limits != []
    ensures c in db.conversations
    ensures var (events, through) := Drain(db, user, c, after, limits).value;
      var high := db.conversations[c].eventSequence;
      && after <= through <= high && events == Suffix(db, user, c, after, through)
      && Stored(db.events, c, after, through)
      && through >= Min(after + |limits|, high)
    decreases |limits|
  {
    hide HydrationError, Suffix, Readable;
    assert c in db.conversations by { ReadableExists(db, c, user, after, limits[0]); }
    var page := ReplaySpec(db, user, c, after, limits[0]).value;
    if |limits| > 1 {
      PagesConcatenate(db, user, c, page.through, limits[1..]);
      SuffixSplits(db, user, c, after, page.through, Drain(db, user, c, after, limits).value.1);
    } else {
      assert Drain(db, user, c, page.through, limits[1..]) == Ok(([], page.through));
      assert page.events + [] == page.events;
    }
  }

  lemma ReadableExists(db: Db, c: Id, user: Id, after: int, limit: int)
    requires ReplaySpec(db, user, c, after, limit).Ok?
    ensures c in db.conversations
  {
  }

  // ----- the client -----

  type View = map<Id, Message>

  datatype Client = Client(view: View, cursor: int)

  /** Each hydrated message replaces what the client held. */
  function Overwrite(view: View, events: seq<Delivered>): View
    decreases |events|
  {
    if events == [] then view
    else
      var next := if events[0].message.Some? then view[events[0].message.value.id := events[0].message.value] else view;
      Overwrite(next, events[1..])
  }

  function Adopt(view: View, messages: seq<Message>): View
    decreases |messages|
  {
    if messages == [] then view else Adopt(view[messages[0].id := messages[0]], messages[1..])
  }

  /** Between two pages the server commits any transactions. */
  datatype Round = Round(actions: seq<Action>, limit: int)

  /** One page; an error leaves the client where it is. */
  function Pull(db: Db, user: Id, c: Id, client: Client, limit: int): Client {
    match ReplaySpec(db, user, c, client.cursor, limit)
    case Err(_) => client
    case Ok(page) => Client(Overwrite(client.view, page.events), page.through)
  }

  function Follow(db: Db, user: Id, c: Id, client: Client, rounds: seq<Round>): (Db, Client)
    decreases |rounds|
  {
    if rounds == [] then (db, client)
    else
      var next := Run(db, rounds[0].actions);
      Follow(next, user, c, Pull(next, user, c, client, rounds[0].limit), rounds[1..])
  }

  // ----- projections age by the clock alone -----

  /** What a client shows of a message at `now`: an active one past its expiry is expired. */
  function Aged(now: Time, m: Message): Message {
    if m.status == Active && m.row.expiresAt <= now
    then Message(m.id, m.row, Expired, None, map[], None, None, {}, None, map[])
    else m
  }

  /** While no event names a message, its projection changes through the clock only. */
  lemma ProjectionAges(a: Db, b: Db, m: Id)
    requires Bodies(a.keys, a.messages) && m in a.messages && Untouched(a, b, m)
    requires a.now <= b.now && a.keys.seal <= b.keys.seal
    ensures Scan(a, m).Ok? && Scan(b, m) == Ok(Aged(b.now, Scan(a, m).value))
  {
    assert BodyOk(a.keys, m, a.messages[m]);
  }

  // ----- what client and server agree on -----

  /** A held message is current, up to its age, unless an event beyond the cursor names it. */
  ghost predicate Agrees(db: Db, c: Id, client: Client, m: Id)
    requires m in client.view
  {
    && m in db.messages && db.messages[m].conversation == c && c in db.conversations
    && (Silent(db.events, c, m, client.cursor, db.conversations[c].eventSequence) ==>
          Scan(db, m) == Ok(Aged(db.now, client.view[m])))
  }

  ghost predicate Synced(db: Db, c: Id, start: int, base: set<Id>, client: Client) {
    && c in db.conversations && 0 <= start <= client.cursor <= db.conversations[c].eventSequence
    && base <= client.view.Keys
    && (forall m | m in client.view :: Agrees(db, c, client, m))
    && (forall s, m | start < s <= client.cursor && Mentions(db.events, c, s, m) :: m in client.view)
  }

  lemma ServerMoves(a: Db, b: Db, c: Id, start: int, base: set<Id>, client: Client)
    requires Inv(a) && Evolves(a, b) && Synced(a, c, start, base, client)
    ensures Synced(b, c, start, base, client)
  {
    hide Ordered, Tails, BodyOk, Indexed, Receipts, Related, Cursors, Governance, Files, Ledger, Scan, Persists, Agrees;
    assert DenseLog(a.conversations, a.events, a.outbox);
    forall m | m in client.view ensures Agrees(b, c, client, m) {
      AgreementMoves(a, b, c, client, m);
    }
    forall s, m | start < s <= client.cursor && Mentions(b.events, c, s, m) ensures m in client.view {
      assert (c, s) in a.events && Mentions(a.events, c, s, m);
    }
  }

  lemma AgreementMoves(a: Db, b: Db, c: Id, client: Client, m: Id)
    requires Inv(a) && Evolves(a, b) && m in client.view && Agrees(a, c, client, m)
    requires client.cursor <= a.conversations[c].eventSequence
    ensures Agrees(b, c, client, m)
  {
    hide Ordered, Tails, BodyOk, Indexed, Receipts, Related, Cursors, Governance, Files, Ledger, DenseLog, Scan;
    assert Persists(a, b, m);
    if Silent(b.events, c, m, client.cursor, b.conversations[c].eventSequence) {
      forall s | client.cursor < s <= a.conversations[c].eventSequence ensures !Mentions(a.events, c, s, m) {
        assert !Mentions(b.events, c, s, m);
      }
      ProjectionAges(a, b, m);
    }
  }

  // ----- one page -----

  /** Everything a page hydrates is the current projection. */
  ghost predicate Hydrated(db: Db, events: seq<Delivered>) {
    forall i | 0 <= i < |events| && events[i].message.Some? ::
      Scan(db, events[i].message.value.id) == Ok(events[i].message.value)
  }

  ghost predicate Hydrates(events: seq<Delivered>, m: Id) {
    exists i :: 0 <= i < |events| && events[i].message.Some? && events[i].message.value.id == m
  }

  lemma {:induction false} OverwriteIs(db: Db, view: View, events: seq<Delivered>)
    requires Hydrated(db, events)
    ensures var r := Overwrite(view, events);
      && (forall m :: m in r <==> m in view || Hydrates(events, m))
      && (forall m | m in r :: if Hydrates(events, m) then Scan(db, m) == Ok(r[m]) else m in view && r[m] == view[m])
    decreases |events|
  {
    if events != [] {
      var next := if events[0].message.Some? then view[events[0].message.value.id := events[0].message.value] else view;
      assert forall i | 0 <= i < |events[1..]| :: events[1..][i] == events[i + 1];
      OverwriteIs(db, next, events[1..]);
      forall m ensures Hydrates(events, m) <==> Hydrates(events[1..], m) || (events[0].message.Some? && events[0].message.value.id == m) {
        if Hydrates(events[1..], m) {
          var i :| 0 <= i < |events[1..]| && events[1..][i].message.Some? && events[1..][i].message.value.id == m;
          assert events[i + 1].message.value.id == m;
        }
        if Hydrates(events, m) {
          var i :| 0 <= i < |events| && events[i].message.Some? && events[i].message.value.id == m;
          if i > 0 { assert events[1..][i - 1].message.value.id == m; }
        }
      }
    }
  }

  /** A page carries the projection of exactly the messages its log rows name. */
  lemma PageHydrates(db: Db, user: Id, c: Id, after: int, n: int)
    requires Inv(db) && c in db.conversations && 0 <= after <= n <= db.conversations[c].eventSequence
    ensures Hydrated(db, Suffix(db, user, c, after, n))
    ensures forall m :: Hydrates(Suffix(db, user, c, after, n), m) <==> exists s :: after < s <= n && Mentions(db.events, c, s, m)
  {
    hide Ordered, Tails, BodyOk, Indexed, Receipts, Related, Cursors, Governance, Files, Suffix;
    var events := Suffix(db, user, c, after, n);
    forall s | after < s <= n
      ensures Numbered(db.messages, db.events, c, s)
      ensures MessageState(db.events[(c, s)].kind) ==>
                Scan(db, db.events[(c, s)].refs.message.value).Ok?
                && Shown(db, user, c, s).message == Some(Scan(db, db.events[(c, s)].refs.message.value).value)
      ensures !MessageState(db.events[(c, s)].kind) ==> Shown(db, user, c, s).message.None?
    {
      assert (c, s) in db.events && Numbered(db.messages, db.events, c, s);
      if MessageState(db.events[(c, s)].kind) { ScanSucceeds(db, db.events[(c, s)].refs.message.value); }
    }
    forall m ensures Hydrates(events, m) <==> exists s :: after < s <= n && Mentions(db.events, c, s, m) {
      if Hydrates(events, m) {
        var i :| 0 <= i < |events| && events[i].message.Some? && events[i].message.value.id == m;
        assert Mentions(db.events, c, after + 1 + i, m);
      }
      if exists s :: after < s <= n && Mentions(db.events, c, s, m) {
        var s :| after < s <= n && Mentions(db.events, c, s, m);
        assert events[s - after - 1] == Shown(db, user, c, s);
      }
    }
  }

  lemma PageSyncs(db: Db, user: Id, c: Id, start: int, base: set<Id>, client: Client, n: int)
    requires Inv(db) && Synced(db, c, start, base, client) && client.cursor <= n <= db.conversations[c].eventSequence
    ensures Synced(db, c, start, base, Client(Overwrite(client.view, Suffix(db, user, c, client.cursor, n)), n))
  {
    hide Ordered, Tails, BodyOk, Indexed, Receipts, Related, Cursors, Governance, Files, Suffix, Overwrite, Hydrates, Hydrated, Ledger, Scan;
    var events := Suffix(db, user, c, client.cursor, n);
    var next := Client(Overwrite(client.view, events), n);
    PageHydrates(db, user, c, client.cursor, n);
    OverwriteIs(db, client.view, events);
    forall m | m in next.view ensures Agrees(db, c, next, m) {
      if Hydrates(events, m) {
        var s :| client.cursor < s <= n && Mentions(db.events, c, s, m);
        HydratedIsCurrent(db, c, s, m, next.view[m]);
      } else {
        assert Agrees(db, c, client, m);
        assert Silent(db.events, c, m, n, db.conversations[c].eventSequence) ==> Silent(db.events, c, m, client.cursor, db.conversations[c].eventSequence) by {
          if Silent(db.events, c, m, n, db.conversations[c].eventSequence) {
            forall s | client.cursor < s <= db.conversations[c].eventSequence ensures !Mentions(db.events, c, s, m) {
              if s > n { assert !Mentions(db.events, c, s, m); }
            }
          }
        }
      }
    }
    forall s, m | start < s <= n && Mentions(db.events, c, s, m) ensures m in next.view {
      if s > client.cursor { assert Hydrates(events, m); }
    }
  }

  lemma ScanIsAged(db: Db, m: Id)
    requires Scan(db, m).Ok?
    ensures Aged(db.now, Scan(db, m).value) == Scan(db, m).value
  {
  }

  lemma HydratedIsCurrent(db: Db, c: Id, s: int, m: Id, shown: Message)
    requires Inv(db) && Mentions(db.events, c, s, m) && Scan(db, m) == Ok(shown)
    ensures m in db.messages && db.messages[m].conversation == c && Scan(db, m) == Ok(Aged(db.now, shown))
  {
    hide DenseLog, Ordered, Tails, BodyOk, Indexed, Receipts, Related, Cursors, Governance, Files, Scan, Aged;
    assert Numbered(db.messages, db.events, c, s);
    ScanIsAged(db, m);
  }

  // ----- the theorem -----

  lemma PullSyncs(db: Db, user: Id, c: Id, start: int, base: set<Id>, client: Client, limit: int)
    requires Inv(db) && Synced(db, c, start, base, client)
    ensures Synced(db, c, start, base, Pull(db, user, c, client, limit))
  {
    hide Inv, Synced, Overwrite, Suffix, HydrationError, Readable;
    assert client.cursor <= db.conversations[c].eventSequence by { CursorBound(db, c, start, base, client); }
    match ReplaySpec(db, user, c, client.cursor, limit)
    case Err(_) =>
    case Ok(page) => PageSyncs(db, user, c, start, base, client, page.through);
  }

  lemma CursorBound(db: Db, c: Id, start: int, base: set<Id>, client: Client)
    requires Synced(db, c, start, base, client)
    ensures c in db.conversations && 0 <= start <= client.cursor <= db.conversations[c].eventSequence
  {
  }

  /** Agreement survives any interleaving of pages of any size and transactions. */
  lemma {:induction false} FollowSyncs(db: Db, user: Id, c: Id, start: int, base: set<Id>, client: Client, rounds: seq<Round>)
    requires Inv(db) && Synced(db, c, start, base, client)
    ensures var (last, held) := Follow(db, user, c, client, rounds); Inv(last) && Synced(last, c, start, base, held)
    decreases |rounds|
  {
    hide Inv, Synced, Pull, Run, Evolves, Checkpointed;
    if rounds != [] {
      var next := Run(db, rounds[0].actions);
      RunKeeps(db, rounds[0].actions);
      ServerMoves(db, next, c, start, base, client);
      PullSyncs(next, user, c, start, base, client, rounds[0].limit);
      FollowSyncs(next, user, c, start, base, Pull(next, user, c, client, rounds[0].limit), rounds[1..]);
    }
  }

  function Open(s: Snapshot): Client {
    Client(Adopt(map[], s.messages), s.eventSequence)
  }

  /** The messages a snapshot lists. */
  function Held(s: Snapshot): set<Id> {
    set m | m in s.messages :: m.id
  }

  lemma {:induction false} AdoptIs(db: Db, c: Id, view: View, messages: seq<Message>)
    requires Projects(db, messages)
    requires forall m | m in view :: Scan(db, m) == Ok(view[m])
    ensures forall i | 0 <= i < |messages| :: messages[i].id in Adopt(view, messages)
    ensures forall m | m in Adopt(view, messages) :: Scan(db, m) == Ok(Adopt(view, messages)[m])
    ensures forall m | m in Adopt(view, messages) :: m in view || m in Ids(messages)
    ensures forall m | m in view :: m in Adopt(view, messages)
    decreases |messages|
  {
    if messages != [] {
      var next := view[messages[0].id := messages[0]];
      assert forall i | 0 <= i < |messages[1..]| :: messages[1..][i] == messages[i + 1];
      AdoptIs(db, c, next, messages[1..]);
      assert Ids(messages) == [messages[0].id] + Ids(messages[1..]);
      forall i | 0 <= i < |messages| ensures messages[i].id in Adopt(view, messages) {
        if i > 0 { assert messages[1..][i - 1].id in Adopt(next, messages[1..]); }
      }
    }
  }

  lemma SnapshotShows(db: Db, user: Id, c: Id)
    requires Inv(db) && Readable(db, c, user)
    ensures var r := SnapshotSpec(db, user, c);
      && r.Ok? && Projects(db, r.value.messages)
      && NewestOf(db.messages, c, db.conversations[c].messageSequence, RECENT, Keep(db, None), Reversed(Ids(r.value.messages)))
      && r.value.eventSequence == db.conversations[c].eventSequence
  {
    hide DenseLog, Ledger, Ordered, Tails, BodyOk, Indexed, Receipts, Related, Cursors, Governance, Files, Scan, Newest, NewestOf, Reversed;
    var ids := Newest(db.order, c, db.conversations[c].messageSequence, RECENT, Keep(db, None));
    NewestIs(db.conversations, db.messages, db.order, c, db.conversations[c].messageSequence, RECENT, Keep(db, None));
    NewestAreStored(db, c, ids);
    ScanAllSucceeds(db, ids);
    ProjectedIds(db, ids);
    ReversedProjects(db, ScanAll(db, ids).value);
  }

  /** A member's snapshot holds the current projections of the newest messages, oldest
      first, at one log cursor. */
  lemma SnapshotIs(db: Db, user: Id, c: Id)
    requires Reachable(db) && Readable(db, c, user)
    ensures var r := SnapshotSpec(db, user, c);
      && r.Ok? && Projects(db, r.value.messages)
      && NewestOf(db.messages, c, db.conversations[c].messageSequence, 50, Everything(), Reversed(Ids(r.value.messages)))
      && r.value.eventSequence == db.conversations[c].eventSequence
  {
    hide Reachable, Checkpointed, Inv, SnapshotSpec, Projects, Reversed;
    ReachableInv(db);
    SnapshotShows(db, user, c);
    forall m ensures Keep(db, None)(m) == Everything()(m) {}
  }

  lemma ReversedProjects(db: Db, recent: seq<Message>)
    requires Projects(db, recent)
    ensures Projects(db, Reversed(recent)) && Reversed(Ids(Reversed(recent))) == Ids(recent)
  {
    hide Scan;
    var shown := Reversed(recent);
    forall i | 0 <= i < |shown| ensures Scan(db, shown[i].id) == Ok(shown[i]) { assert shown[i] == recent[|recent| - 1 - i]; }
  }

  lemma NewestAreStored(db: Db, c: Id, ids: seq<Id>)
    requires c in db.conversations
    requires NewestOf(db.messages, c, db.conversations[c].messageSequence, RECENT, Keep(db, None), ids)
    ensures forall i | 0 <= i < |ids| :: ids[i] in db.messages && db.messages[ids[i]].conversation == c
  {
  }

  lemma OpenSyncs(db: Db, user: Id, c: Id)
    requires Inv(db) && Readable(db, c, user)
    ensures var s := SnapshotSpec(db, user, c); s.Ok? && Synced(db, c, s.value.eventSequence, Held(s.value), Open(s.value))
  {
    hide Inv, Scan, NewestOf, SnapshotSpec, Keep, Aged, Adopt, Silent, Projects, Reversed;
    SnapshotShows(db, user, c);
    var s := SnapshotSpec(db, user, c).value;
    AdoptIs(db, c, map[], s.messages);
    var client := Open(s);
    LogBound(db, c);
    forall m | m in client.view ensures Agrees(db, c, client, m) {
      OpenAgrees(db, user, c, s, m);
    }
    assert Held(s) <= client.view.Keys by { HeldIsAdopted(s); }
  }

  lemma HeldIsAdopted(s: Snapshot)
    requires forall i | 0 <= i < |s.messages| :: s.messages[i].id in Adopt(map[], s.messages)
    ensures Held(s) <= Open(s).view.Keys
  {
  }

  lemma OpenAgrees(db: Db, user: Id, c: Id, s: Snapshot, m: Id)
    requires Inv(db) && c in db.conversations && m in Adopt(map[], s.messages) && m in Ids(s.messages)
    requires Scan(db, m) == Ok(Adopt(map[], s.messages)[m])
    requires NewestOf(db.messages, c, db.conversations[c].messageSequence, RECENT, Keep(db, None), Reversed(Ids(s.messages)))
    ensures Agrees(db, c, Open(s), m)
  {
    hide Inv, Scan, NewestOf, Keep, Aged, Adopt;
    assert m in Reversed(Ids(s.messages)) by {
      var i :| 0 <= i < |Ids(s.messages)| && Ids(s.messages)[i] == m;
      assert Reversed(Ids(s.messages))[|s.messages| - 1 - i] == m;
    }
    NewestAreStored(db, c, Reversed(Ids(s.messages)));
    ScanIsAged(db, m);
  }

  lemma LogBound(db: Db, c: Id)
    requires Inv(db) && c in db.conversations
    ensures 0 <= db.conversations[c].eventSequence
  {
  }

  lemma LastPage(db: Db, user: Id, c: Id, start: int, base: set<Id>, before: Client, limit: int)
    requires Inv(db) && Synced(db, c, start, base, Pull(db, user, c, before, limit))
    ensures c in db.conversations
    ensures var page := ReplaySpec(db, user, c, before.cursor, limit);
      var client := Pull(db, user, c, before, limit);
      page.Ok? && !page.value.more ==>
        && client.cursor == db.conversations[c].eventSequence
        && base <= client.view.Keys
        && (forall e, m | start < e && Mentions(db.events, c, e, m) :: m in client.view)
        && (forall m | m in client.view :: Scan(db, m) == Ok(Aged(db.now, client.view[m])))
  {
    hide Ledger, Ordered, Tails, BodyOk, Indexed, Receipts, Related, Cursors, Governance, Files, Scan, Aged, Suffix, Overwrite, HydrationError;
    var client := Pull(db, user, c, before, limit);
    forall m | m in client.view ensures Agrees(db, c, client, m) {}
  }

  /** Convergence. A member takes a snapshot; then pages of any limits alternate with any
      transactions of anybody; once a page reports that nothing more follows, the client
      holds every message of the snapshot and every message some later event names. Each is
      the server's projection up to the clock: equal once the client ages it, and equal as
      it stands exactly unless it was last shown active and has expired since. */
  lemma Converges(db: Db, user: Id, c: Id, s: Snapshot, rounds: seq<Round>, last: Db, before: Client, limit: int, page: Page)
    requires Reachable(db) && SnapshotSpec(db, user, c) == Ok(s)
    requires Follow(db, user, c, Open(s), rounds) == (last, before)
    requires ReplaySpec(last, user, c, before.cursor, limit) == Ok(page) && !page.more
    ensures c in last.conversations
    ensures var client := Pull(last, user, c, before, limit);
      && client.cursor == last.conversations[c].eventSequence
      && (forall m | m in Held(s) :: m in client.view)
      && (forall e, m | s.eventSequence < e && Mentions(last.events, c, e, m) :: m in client.view)
      && (forall m | m in client.view :: Scan(last, m) == Ok(Aged(last.now, client.view[m])))
      && (forall m | m in client.view ::
            Scan(last, m) == Ok(client.view[m]) <==> !(client.view[m].status == Active && client.view[m].row.expiresAt <= last.now))
  {
    assert Readable(db, c, user);
    hide Reachable, Checkpointed, Inv, Follow, Synced, SnapshotSpec, ReplaySpec, Open, Scan, Overwrite, Suffix;
    ReachableInv(db);
    OpenSyncs(db, user, c);
    FollowSyncs(db, user, c, s.eventSequence, Held(s), Open(s), rounds);
    PullSyncs(last, user, c, s.eventSequence, Held(s), before, limit);
    LastPage(last, user, c, s.eventSequence, Held(s), before, limit);
  }
}
