/** Connection leases and the last-seen write-back cache (internal/realtime/presence.go). */
module Presence {
  import opened Basics

  const LEASES: int := 16
  const TTL: int := 75
  const BATCH: int := 256

  type Leases = map<Id, Time>  // connection -> expiry

  /** One pending marker as a flusher read it. */
  datatype Entry = Entry(user: Id, score: Time)

  /** A flusher between two operations: what is left of its batch, and whether the first
      entry of it has reached the users table. */
  datatype Flusher = Flusher(batch: seq<Entry>, written: bool)

  /** Redis (`leases`, `pending`), the users table (`seen`) and the flushers. `latest` is
      history: the newest accepted heartbeat of each user. */
  datatype State = State(
    now: Time,
    leases: map<Id, Leases>,
    pending: map<Id, Time>,
    seen: map<Id, Time>,
    flushers: map<Id, Flusher>,
    latest: map<Id, Time>)

  datatype Step =
    | Tick(t: Time)
    | Touch(user: Id, connection: Id)
    | Drop(user: Id, connection: Id)
    | Fetch(w: Id, users: seq<Id>)
    | Write(w: Id)
    | Remove(w: Id)
    | Crash(w: Id)

  function LeasesOf(s: State, user: Id): Leases {
    if user in s.leases then s.leases[user] else map[]
  }

  /** ZREMRANGEBYSCORE -inf..now. */
  function Unexpired(leases: Leases, now: Time): Leases {
    map k | k in leases && now < leases[k] :: leases[k]
  }

  /** A renewal always fits; a new connection only below the limit. */
  predicate Fits(leases: Leases, connection: Id) {
    connection in leases || |leases| < LEASES
  }

  function Greatest(seen: map<Id, Time>, user: Id, t: Time): Time {
    if user in seen then Max(seen[user], t) else t
  }

  /** The heartbeat script and the two halves of one flush entry are atomic; anything may
      happen between them. */
  function Next(s: State, x: Step): State {
    match x
    case Tick(t) => if s.now <= t then s.(now := t) else s
    case Touch(user, connection) =>
      var live := Unexpired(LeasesOf(s, user), s.now);
      if !Fits(live, connection) then s.(leases := s.leases[user := live])
      else s.(leases := s.leases[user := live[connection := s.now + TTL]],
              pending := s.pending[user := s.now],
              latest := s.latest[user := s.now])
    case Drop(user, connection) => s.(leases := s.leases[user := LeasesOf(s, user) - {connection}])
    case Fetch(w, users) =>
      if w in s.flushers || |users| > BATCH || exists u | u in users :: u !in s.pending then s
      else s.(flushers := s.flushers[w := Flusher(Entries(s.pending, users), false)])
    case Write(w) =>
      if w in s.flushers && s.flushers[w].batch != [] && !s.flushers[w].written then
        var e := s.flushers[w].batch[0];
        s.(seen := s.seen[e.user := Greatest(s.seen, e.user, e.score)],
           flushers := s.flushers[w := s.flushers[w].(written := true)])
      else s
    case Remove(w) =>
      if w in s.flushers && s.flushers[w].batch != [] && s.flushers[w].written then
        var e := s.flushers[w].batch[0];
        s.(pending := Removed(s.pending, e),
           flushers := s.flushers[w := Flusher(s.flushers[w].batch[1..], false)])
      else s
    case Crash(w) => s.(flushers := s.flushers - {w})
  }

  function Entries(pending: map<Id, Time>, users: seq<Id>): (r: seq<Entry>)
    requires forall u | u in users :: u in pending
    ensures |r| == |users| && forall i | 0 <= i < |r| :: r[i] == Entry(users[i], pending[users[i]])
  {
    if users == [] then [] else [Entry(users[0], pending[users[0]])] + Entries(pending, users[1..])
  }

  /** removeSeen: compare and remove. */
  function Removed(pending: map<Id, Time>, e: Entry): map<Id, Time> {
    if e.user in pending && pending[e.user] == e.score then pending - {e.user} else pending
  }

  function Play(s: State, steps: seq<Step>): State
    decreases |steps|
  {
    if steps == [] then s else Play(Next(s, steps[0]), steps[1..])
  }

  predicate Start(s: State) {
    s.leases == map[] && s.pending == map[] && s.seen == map[] && s.flushers == map[] && s.latest == map[]
  }

  // ----- the invariant -----

  /** max(last_seen_at, pending marker). */
  function LastSeen(seen: map<Id, Time>, pending: map<Id, Time>, user: Id): Option<Time> {
    if user in pending then Some(Greatest(seen, user, pending[user]))
    else if user in seen then Some(seen[user])
    else None
  }

  function Latest(s: State, user: Id): Option<Time> {
    if user in s.latest then Some(s.latest[user]) else None
  }

  ghost predicate UserOk(s: State, u: Id) {
    && (u in s.pending ==> u in s.latest && s.pending[u] == s.latest[u])
    && (u in s.seen ==> u in s.latest && s.seen[u] <= s.latest[u])
    && (u in s.latest ==> s.latest[u] <= s.now && (u in s.pending || (u in s.seen && s.seen[u] == s.latest[u])))
  }

  /** A flusher never holds a score from the future, and what it has written is stored. */
  ghost predicate FlusherOk(s: State, f: Flusher) {
    && (forall i | 0 <= i < |f.batch| :: f.batch[i].user in s.latest && f.batch[i].score <= s.latest[f.batch[i].user])
    && (f.written ==> f.batch != [] && f.batch[0].user in s.seen && f.batch[0].score <= s.seen[f.batch[0].user])
  }

  ghost predicate Safe(s: State) {
    && (forall u :: UserOk(s, u))
    && (forall w | w in s.flushers :: FlusherOk(s, s.flushers[w]))
    && Bounded(s.leases)
  }

  lemma Shrinks(a: Leases, b: Leases)
    requires forall k | k in b :: k in a
    ensures |b| <= |a|
  {
    assert a.Keys == b.Keys + (a.Keys - b.Keys);
    assert |a.Keys| == |a| && |b.Keys| == |b|;
  }

  lemma LeaseBound(leases: Leases, now: Time, connection: Id)
    requires |leases| <= LEASES
    ensures var live := Unexpired(leases, now);
      && |live| <= LEASES && (Fits(live, connection) ==> |live[connection := now + TTL]| <= LEASES)
  {
    var live := Unexpired(leases, now);
    Shrinks(leases, live);
    var renewed := live[connection := now + TTL];
    if connection in live {
      Shrinks(live, renewed);
    } else {
      assert renewed.Keys == live.Keys + {connection};
      assert |renewed.Keys| == |renewed| && |live.Keys| == |live|;
    }
  }

  lemma NextSafe(s: State, x: Step)
    requires Safe(s)
    ensures Safe(Next(s, x))
  {
    hide UserOk, FlusherOk, Next;
    var b := Next(s, x);
    forall u ensures UserOk(b, u) { UserKept(s, x, u); }
    forall w | w in b.flushers ensures FlusherOk(b, b.flushers[w]) { FlusherKept(s, x, w); }
    LeasesKept(s, x);
  }

  predicate Bounded(leases: map<Id, Leases>) {
    forall u | u in leases :: |leases[u]| <= LEASES
  }

  lemma PutBounded(leases: map<Id, Leases>, user: Id, m: Leases)
    requires Bounded(leases) && |m| <= LEASES
    ensures Bounded(leases[user := m])
  {
  }

  lemma LeasesKept(s: State, x: Step)
    requires Bounded(s.leases)
    ensures Bounded(Next(s, x).leases)
  {
    hide Entries, Removed, Unexpired, Greatest, Bounded, Fits;
    match x {
      case Touch(user, connection) =>
        var live := Unexpired(LeasesOf(s, user), s.now);
        assert |LeasesOf(s, user)| <= LEASES by { LeasesBounded(s, user); }
        LeaseBound(LeasesOf(s, user), s.now, connection);
        PutBounded(s.leases, user, live);
        if Fits(live, connection) { PutBounded(s.leases, user, live[connection := s.now + TTL]); }
      case Drop(user, connection) =>
        assert |LeasesOf(s, user)| <= LEASES by { LeasesBounded(s, user); }
        Shrinks(LeasesOf(s, user), LeasesOf(s, user) - {connection});
        PutBounded(s.leases, user, LeasesOf(s, user) - {connection});
      case _ => assert Next(s, x).leases == s.leases;
    }
  }

  lemma LeasesBounded(s: State, user: Id)
    requires Bounded(s.leases)
    ensures |LeasesOf(s, user)| <= LEASES
  {
  }

  lemma UserKept(s: State, x: Step, u: Id)
    requires Safe(s)
    ensures UserOk(Next(s, x), u)
  {
    assert UserOk(s, u);
    if (x.Write? || x.Remove?) && x.w in s.flushers { assert FlusherOk(s, s.flushers[x.w]); }
  }

  /** Newer heartbeats and stored times leave a flusher's promises standing. */
  lemma FlusherStays(s: State, b: State, f: Flusher)
    requires FlusherOk(s, f)
    requires forall u | u in s.latest :: u in b.latest && s.latest[u] <= b.latest[u]
    requires forall u | u in s.seen :: u in b.seen && s.seen[u] <= b.seen[u]
    ensures FlusherOk(b, f)
  {
  }

  lemma TimesGrow(s: State, x: Step)
    requires Safe(s)
    ensures forall u | u in s.latest :: u in Next(s, x).latest && s.latest[u] <= Next(s, x).latest[u]
    ensures forall u | u in s.seen :: u in Next(s, x).seen && s.seen[u] <= Next(s, x).seen[u]
  {
    hide Entries, Removed, Unexpired, Fits, Bounded, FlusherOk;
    if x.Touch? { assert UserOk(s, x.user); }
  }

  lemma FlusherKept(s: State, x: Step, w: Id)
    requires Safe(s) && w in Next(s, x).flushers
    ensures FlusherOk(Next(s, x), Next(s, x).flushers[w])
  {
    hide Entries, Removed, Unexpired, Fits, Bounded, UserOk;
    var b := Next(s, x);
    TimesGrow(s, x);
    if w in s.flushers {
      FlusherStays(s, b, s.flushers[w]);
      if x.Remove? && x.w == w && b.flushers[w] != s.flushers[w] {
        assert forall i | 0 <= i < |b.flushers[w].batch| :: b.flushers[w].batch[i] == s.flushers[w].batch[i + 1];
      }
    } else {
      assert x.Fetch?;
      FetchedOk(s, x.users);
      FlusherStays(s, b, Flusher(Entries(s.pending, x.users), false));
    }
  }

  lemma FetchedOk(s: State, users: seq<Id>)
    requires Safe(s) && forall u | u in users :: u in s.pending
    ensures FlusherOk(s, Flusher(Entries(s.pending, users), false))
  {
    var batch := Entries(s.pending, users);
    forall i | 0 <= i < |batch| ensures batch[i].user in s.latest && batch[i].score <= s.latest[batch[i].user] {
      assert UserOk(s, users[i]);
    }
  }

  lemma {:induction false} PlaySafe(s: State, steps: seq<Step>)
    requires Safe(s)
    ensures Safe(Play(s, steps))
    decreases |steps|
  {
    hide Safe, Next;
    if steps != [] {
      NextSafe(s, steps[0]);
      PlaySafe(Next(s, steps[0]), steps[1..]);
    }
  }

  /** No heartbeat is lost: for every user, the greater of the stored time and the pending
      marker is the newest accepted heartbeat, whatever flushers interleave or crash; and
      nobody holds more than 16 leases. */
  lemma NoLostHeartbeat(start: State, steps: seq<Step>, u: Id)
    requires Start(start)
    ensures var s := Play(start, steps);
      && LastSeen(s.seen, s.pending, u) == Latest(s, u)
      && |LeasesOf(s, u)| <= LEASES
  {
    PlaySafe(start, steps);
    hide Play;
    assert UserOk(Play(start, steps), u);
  }

  /** last_seen_at never decreases. */
  lemma {:induction false} SeenOnlyGrows(s: State, steps: seq<Step>, u: Id)
    requires u in s.seen
    ensures u in Play(s, steps).seen && s.seen[u] <= Play(s, steps).seen[u]
    decreases |steps|
  {
    if steps != [] { SeenOnlyGrows(Next(s, steps[0]), steps[1..], u); }
  }

  // ----- the scripts and the flush loop -----

  class Redis {
    var leases: map<Id, Leases>
    var pending: map<Id, Time>

    constructor ()
      ensures leases == map[] && pending == map[]
    {
      leases, pending := map[], map[];
    }

    /** The heartbeat script. */
    method Heartbeat(now: Time, user: Id, connection: Id) returns (ok: bool)
      modifies this
      ensures var live := Unexpired(if user in old(leases) then old(leases)[user] else map[], now);
        && ok == Fits(live, connection)
        && leases == old(leases)[user := if ok then live[connection := now + TTL] else live]
        && pending == if ok then old(pending)[user := now] else old(pending)
    {
      var current := if user in leases then leases[user] else map[];
      var live := Unexpired(current, now);
      leases := leases[user := live];
      if connection !in live && |live| >= LEASES { return false; }
      leases := leases[user := live[connection := now + TTL]];
      pending := pending[user := now];
      return true;
    }
  }

  class Users {
    var seen: map<Id, Time>

    constructor ()
      ensures seen == map[]
    {
      seen := map[];
    }
  }

  /** Flush over one fetched batch. Either statement may fail; the loop stops there, and
      what every user was last seen at is the same as before. */
  method Flush(r: Redis, d: Users, batch: seq<Entry>, sqlFails: int, redisFails: int) returns (ok: bool)
    requires |batch| <= BATCH
    requires forall i | 0 <= i < |batch| :: batch[i].user in r.pending && batch[i].score == r.pending[batch[i].user]
    requires forall i, j | 0 <= i < j < |batch| :: batch[i].user != batch[j].user
    modifies r`pending, d
    ensures forall u :: LastSeen(d.seen, r.pending, u) == old(LastSeen(d.seen, r.pending, u))
    ensures forall u | u in old(d.seen) :: u in d.seen && old(d.seen[u]) <= d.seen[u]
    ensures ok ==> forall i | 0 <= i < |batch| :: batch[i].user !in r.pending && batch[i].user in d.seen && batch[i].score <= d.seen[batch[i].user]
    ensures forall u | u in r.pending :: u in old(r.pending) && r.pending[u] == old(r.pending[u])
  {
    var i := 0;
    while i < |batch|
      invariant 0 <= i <= |batch|
      invariant forall u :: LastSeen(d.seen, r.pending, u) == old(LastSeen(d.seen, r.pending, u))
      invariant forall u | u in old(d.seen) :: u in d.seen && old(d.seen[u]) <= d.seen[u]
      invariant forall k | 0 <= k < i :: batch[k].user !in r.pending && batch[k].user in d.seen && batch[k].score <= d.seen[batch[k].user]
      invariant forall k | i <= k < |batch| :: batch[k].user in r.pending && r.pending[batch[k].user] == batch[k].score
      invariant forall u | u in r.pending :: u in old(r.pending) && r.pending[u] == old(r.pending[u])
    {
      var e := batch[i];
      if i == sqlFails { return false; }
      d.seen := d.seen[e.user := Greatest(d.seen, e.user, e.score)];
      if i == redisFails { return false; }
      r.pending := Removed(r.pending, e);
      i := i + 1;
    }
    return true;
  }

  // ----- what one heartbeat does -----

  /** A lease of `user` that has not run out. */
  predicate Holds(s: State, user: Id, connection: Id) {
    user in s.leases && connection in s.leases[user] && s.now < s.leases[user][connection]
  }

  /** A heartbeat is accepted exactly for a connection that holds a live lease or while fewer
      than 16 others do; then the lease runs 75 seconds from now and the marker is set. Either
      way the other live leases stand and the expired ones are gone. */
  lemma HeartbeatAnswers(s: State, user: Id, connection: Id)
    ensures var b := Next(s, Touch(user, connection));
      var accepted := Holds(s, user, connection) || |set k | k in LeasesOf(s, user) && s.now < LeasesOf(s, user)[k]| < 16;
      && user in b.leases
      && (forall k :: k in b.leases[user] <==> Holds(s, user, k) || (accepted && k == connection))
      && (forall k | k in b.leases[user] && k != connection :: b.leases[user][k] == s.leases[user][k])
      && (accepted ==> b.leases[user][connection] == s.now + 75)
      && b.pending == (if accepted then s.pending[user := s.now] else s.pending)
      && b.leases == s.leases[user := b.leases[user]] && b.seen == s.seen
  {
    var live := Unexpired(LeasesOf(s, user), s.now);
    assert live.Keys == set k | k in LeasesOf(s, user) && s.now < LeasesOf(s, user)[k];
    assert |live.Keys| == |live|;
  }

  /** A flusher takes a batch exactly while it has none, of at most 256 markers, as they stand. */
  lemma FetchAnswers(s: State, w: Id, users: seq<Id>)
    ensures var b := Next(s, Fetch(w, users));
      if w !in s.flushers && |users| <= 256 && forall i | 0 <= i < |users| :: users[i] in s.pending
      then
        && w in b.flushers && !b.flushers[w].written && |b.flushers[w].batch| == |users|
        && (forall i | 0 <= i < |users| :: b.flushers[w].batch[i] == Entry(users[i], s.pending[users[i]]))
        && b == s.(flushers := s.flushers[w := b.flushers[w]])
      else b == s
  {
  }

  /** The two halves of one flush entry: the stored time rises to the marker, never falls, and
      then the marker goes, unless a newer heartbeat replaced it. */
  lemma FlushAnswers(s: State, w: Id)
    requires w in s.flushers && s.flushers[w].batch != []
    ensures var f, e := s.flushers[w], s.flushers[w].batch[0];
      && Next(s, Write(w)) ==
           (if f.written then s
            else s.(seen := s.seen[e.user := if e.user in s.seen && s.seen[e.user] > e.score then s.seen[e.user] else e.score],
                    flushers := s.flushers[w := Flusher(f.batch, true)]))
      && Next(s, Remove(w)) ==
           (if !f.written then s
            else s.(pending := if e.user in s.pending && s.pending[e.user] == e.score then s.pending - {e.user} else s.pending,
                    flushers := s.flushers[w := Flusher(f.batch[1..], false)]))
  {
  }
}
