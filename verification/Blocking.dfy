/** Which records the router can pass and which stop the hints of their partition for good
    (internal/outbox/router.go). */
module Blocking {
  import opened Basics
  import opened Schema
  import opened Deltas
  import Outbox
  import opened Router

  function Records(s: State, p: int): seq<Delivery> {
    Partition(s.topic, p)
  }

  // ----- stuck records -----

  /** The record names an event under its own conversation and sequence, and nothing that
      is logged contradicts it. */
  predicate Fits(log: Log, m: Delivery) {
    m.id == (m.aggregate, m.sequence) && (m.id in log ==> log[m.id] == m.envelope)
  }

  predicate FirstOf(records: seq<Delivery>, j: int)
    requires 0 <= j < |records|
  {
    forall k | 0 <= k < j :: records[k].id != records[j].id
  }

  /** It claims another conversation than its key; or it is the first of its event in the
      partition, the event is not in the inbox, and the record is not the event. */
  predicate Stuck(s: State, p: int, j: int)
    requires 0 <= j < |Records(s, p)|
  {
    var m := Records(s, p)[j];
    m.aggregate != m.key || (m.id !in s.inbox && FirstOf(Records(s, p), j) && !Fits(s.log, m))
  }

  /** Records lie where the worker puts them: under the conversation of their event, in the
      partition of that key. */
  predicate Keyed(route: Id -> int, topic: map<int, seq<Delivery>>) {
    forall p, k | p in topic && 0 <= k < |topic[p]| :: topic[p][k].key == topic[p][k].id.0 && p == route(topic[p][k].key)
  }

  predicate KeyedSteps(route: Id -> int, steps: seq<Step>) {
    forall i | 0 <= i < |steps| :: steps[i].Grow? ==> Keyed(route, steps[i].topic)
  }

  /** Record `j` of the partition is at or beyond the committed offset and has the
      property that stops it. */
  ghost predicate StuckAhead(s: State, p: int, j: int) {
    Offset(s.offsets, p) <= j < |Records(s, p)| && 0 <= j && Stuck(s, p, j)
  }

  ghost predicate MalformedAhead(s: State, p: int, j: int) {
    Offset(s.offsets, p) <= j < |Records(s, p)| && 0 <= j && Records(s, p)[j].aggregate != Records(s, p)[j].key
  }

  lemma MalformedStep(s: State, x: Step, p: int, j: int)
    requires Safe(s) && MalformedAhead(s, p, j)
    ensures MalformedAhead(Next(s, x), p, j)
  {
    if Enabled(s, x) && x.Commit? { assert ConsumerOk(s, s.consumers[x.w]); }
  }

  lemma {:induction false} MalformedStays(s: State, steps: seq<Step>, p: int, j: int)
    requires Safe(s) && MalformedAhead(s, p, j)
    ensures MalformedAhead(Play(s, steps), p, j)
    decreases |steps|
  {
    hide Safe, Next, MalformedAhead;
    if steps != [] {
      MalformedStep(s, steps[0], p, j);
      NextSafe(s, steps[0]);
      MalformedStays(Next(s, steps[0]), steps[1..], p, j);
    }
  }

  /** The inbox gains an event only from a record of that event, and that record lies in
      the same partition. */
  lemma StuckIsNotStored(s: State, w: Id, route: Id -> int, p: int, j: int)
    requires Safe(s) && Keyed(route, s.topic) && StuckAhead(s, p, j) && Records(s, p)[j].aggregate == Records(s, p)[j].key
    requires Enabled(s, Step.Store(w))
    ensures At(s, s.consumers[w]).id != Records(s, p)[j].id
  {
    var c := s.consumers[w];
    assert ConsumerOk(s, c);
  }

  lemma StuckStep(s: State, x: Step, route: Id -> int, p: int, j: int)
    requires Safe(s) && Keyed(route, s.topic) && StuckAhead(s, p, j)
    ensures StuckAhead(Next(s, x), p, j)
  {
    if Records(s, p)[j].aggregate != Records(s, p)[j].key {
      MalformedStep(s, x, p, j);
    } else if Enabled(s, x) {
      if x.Commit? { assert ConsumerOk(s, s.consumers[x.w]); }
      if x.Store? { StuckIsNotStored(s, x.w, route, p, j); }
    }
  }

  lemma {:induction false} StuckStays(s: State, steps: seq<Step>, route: Id -> int, p: int, j: int)
    requires Safe(s) && Keyed(route, s.topic) && KeyedSteps(route, steps) && StuckAhead(s, p, j)
    ensures StuckAhead(Play(s, steps), p, j)
    decreases |steps|
  {
    hide Safe, StuckAhead, Keyed, Enabled;
    if steps != [] {
      StuckStep(s, steps[0], route, p, j);
      NextSafe(s, steps[0]);
      assert forall i | 0 <= i < |steps| - 1 :: steps[1..][i] == steps[i + 1];
      StuckStays(Next(s, steps[0]), steps[1..], route, p, j);
    }
  }

  // ----- how a record is passed -----

  lemma {:induction false} PlayConcat(s: State, a: seq<Step>, b: seq<Step>)
    ensures Play(s, a + b) == Play(Play(s, a), b)
    decreases |a|
  {
    hide Next;
    if a == [] {
      assert a + b == b;
    } else {
      assert (a + b)[1..] == a[1..] + b;
      PlayConcat(Next(s, a[0]), a[1..], b);
    }
  }

  lemma PlayOne(s: State, x: Step)
    ensures Play(s, [x]) == Next(s, x)
  {
    hide Next;
    assert [x][1..] == [];
    assert Play(s, [x]) == Play(Next(s, x), []);
  }

  lemma PlayTwo(s: State, x: Step, y: Step)
    ensures Play(s, [x, y]) == Next(Next(s, x), y)
  {
    hide Next, Play;
    assert [x, y] == [x] + [y];
    PlayConcat(s, [x], [y]);
    PlayOne(s, x);
    PlayOne(Next(s, x), y);
  }

  /** Consumer `w` starts again at the committed offset of `p`. */
  function Joined(s: State, w: Id, p: int): State {
    s.(consumers := s.consumers[w := Consumer(p, Offset(s.offsets, p), Fetched)])
  }

  lemma JoinSteps(s: State, w: Id, p: int)
    ensures Play(s, [Step.Crash(w), Step.Join(w, p)]) == Joined(s, w, p)
  {
    PlayTwo(s, Step.Crash(w), Step.Join(w, p));
    var b := s.(consumers := s.consumers - {w});
    assert Next(s, Step.Crash(w)) == b;
    assert b.consumers[w := Consumer(p, Offset(s.offsets, p), Fetched)] == s.consumers[w := Consumer(p, Offset(s.offsets, p), Fetched)];
  }

  /** The state after the record at the committed offset of `p` was committed by `w`. */
  function Past(s: State, w: Id, p: int): State {
    var n := Offset(s.offsets, p);
    s.(offsets := s.offsets[p := n + 1], consumers := s.consumers[w := Consumer(p, n + 1, Fetched)])
  }

  lemma PassKnown(s: State, w: Id, p: int) returns (steps: seq<Step>)
    requires 0 <= Offset(s.offsets, p) < |Records(s, p)| && Known(s.inbox, Records(s, p)[Offset(s.offsets, p)])
    ensures Play(s, steps) == Past(s, w, p) && forall i | 0 <= i < |steps| :: !steps[i].Grow?
  {
    JoinSteps(s, w, p);
    var b := Joined(s, w, p);
    var skipped := b.(consumers := b.consumers[w := b.consumers[w].(phase := Stored)]);
    assert Next(b, Step.Skip(w)) == skipped;
    assert Next(skipped, Step.Commit(w)) == Past(s, w, p);
    PlayTwo(b, Step.Skip(w), Step.Commit(w));
    hide Play, Next;
    steps := [Step.Crash(w), Step.Join(w, p)] + [Step.Skip(w), Step.Commit(w)];
    PlayConcat(s, [Step.Crash(w), Step.Join(w, p)], [Step.Skip(w), Step.Commit(w)]);
  }

  /** Nobody is between hint and inbox of this event. */
  predicate Unhinted(s: State, id: Outbox.Key) {
    forall v | v in s.consumers && s.consumers[v].phase == Hinted && InRange(s, s.consumers[v]) :: At(s, s.consumers[v]).id != id
  }

  /** The event of the record at the committed offset of `p` is received by `w`. */
  function Taken(s: State, w: Id, p: int, id: Outbox.Key): State {
    s.(hints := s.hints + [id], inbox := s.inbox + {id},
       consumers := s.consumers[w := Consumer(p, Offset(s.offsets, p), Stored)])
  }

  lemma TakeValid(s: State, w: Id, p: int) returns (steps: seq<Step>)
    requires 0 <= Offset(s.offsets, p) < |Records(s, p)|
    requires var m := Records(s, p)[Offset(s.offsets, p)]; Valid(s.log, m) && m.id !in s.inbox && Unhinted(s, m.id)
    ensures Play(s, steps) == Taken(s, w, p, Records(s, p)[Offset(s.offsets, p)].id)
    ensures forall i | 0 <= i < |steps| :: !steps[i].Grow?
  {
    var m := Records(s, p)[Offset(s.offsets, p)];
    JoinSteps(s, w, p);
    var b := Joined(s, w, p);
    assert At(b, b.consumers[w]) == m && Free(b, w, m.id);
    var hinted := b.(hints := s.hints + [m.id], consumers := b.consumers[w := b.consumers[w].(phase := Hinted)]);
    assert Next(b, Step.Hint(w)) == hinted;
    assert At(hinted, hinted.consumers[w]) == m;
    assert Next(hinted, Step.Store(w)) == Taken(s, w, p, m.id);
    PlayTwo(b, Step.Hint(w), Step.Store(w));
    hide Play, Next;
    steps := [Step.Crash(w), Step.Join(w, p)] + [Step.Hint(w), Step.Store(w)];
    PlayConcat(s, [Step.Crash(w), Step.Join(w, p)], [Step.Hint(w), Step.Store(w)]);
  }

  /** What a continuation that only receives one more event leaves alone. */
  ghost predicate Receives(s: State, b: State, id: Outbox.Key) {
    && b.offsets == s.offsets && id in b.inbox && s.inbox <= b.inbox
    && Grows(s.log, b.log) && (forall k | k in b.log :: k in s.log || k == id)
  }

  lemma StoreHinted(s: State, v: Id)
    requires v in s.consumers && s.consumers[v].phase == Hinted && InRange(s, s.consumers[v])
    ensures var b := Play(s, [Step.Store(v)]); Receives(s, b, At(s, s.consumers[v]).id) && b.topic == s.topic
  {
    PlayOne(s, Step.Store(v));
  }

  lemma GrowStep(s: State, log: Log, topic: map<int, seq<Delivery>>)
    requires Grows(s.log, log) && Extends(s.topic, topic)
    ensures Play(s, [Step.Grow(log, topic)]) == s.(log := log, topic := topic)
  {
    PlayOne(s, Step.Grow(log, topic));
  }

  /** A fitting record at the committed offset: if its event is not logged yet it may be
      logged as the record says, and then it is received. */
  lemma ReceiveHead(s: State, w: Id, p: int) returns (steps: seq<Step>)
    requires 0 <= Offset(s.offsets, p) < |Records(s, p)|
    requires var m := Records(s, p)[Offset(s.offsets, p)]; m.aggregate == m.key && m.id !in s.inbox && Fits(s.log, m)
    ensures var b := Play(s, steps); Receives(s, b, Records(s, p)[Offset(s.offsets, p)].id) && b.topic == s.topic
    ensures forall i | 0 <= i < |steps| :: steps[i].Grow? ==> steps[i].topic == s.topic
  {
    var m := Records(s, p)[Offset(s.offsets, p)];
    if !Unhinted(s, m.id) {
      var v :| v in s.consumers && s.consumers[v].phase == Hinted && InRange(s, s.consumers[v]) && At(s, s.consumers[v]).id == m.id;
      StoreHinted(s, v);
      steps := [Step.Store(v)];
    } else {
      var b := s.(log := s.log[m.id := m.envelope]);
      GrowStep(s, b.log, s.topic);
      assert Unhinted(b, m.id);
      var rest := TakeValid(b, w, p);
      hide Play;
      steps := [Step.Grow(b.log, s.topic)] + rest;
      PlayConcat(s, [Step.Grow(b.log, s.topic)], rest);
    }
  }

  lemma {:induction false} Fresh(used: set<int>) returns (q: int)
    ensures forall p | p in used :: p < q
    decreases |used|
  {
    q := 0;
    if p :| p in used {
      var r := Fresh(used - {p});
      q := if p < r then r else p + 1;
      forall x | x in used ensures x < q { assert x == p || x in used - {p}; }
    }
  }

  /** Any event at all is received once somebody else delivers it properly, in a partition
      of its own. */
  lemma ReceiveElsewhere(s: State, w: Id, id: Outbox.Key) returns (steps: seq<Step>)
    requires Safe(s) && id !in s.inbox
    ensures var b := Play(s, steps); Receives(s, b, id) && forall p | p in s.topic :: p in b.topic && b.topic[p] == s.topic[p]
  {
    if !Unhinted(s, id) {
      var v :| v in s.consumers && s.consumers[v].phase == Hinted && InRange(s, s.consumers[v]) && At(s, s.consumers[v]).id == id;
      StoreHinted(s, v);
      steps := [Step.Store(v)];
    } else {
      var e := if id in s.log then s.log[id] else Envelope(SyncAdvance, NOTHING);
      var q := Fresh(s.topic.Keys);
      var m := Delivery(id.0, id, id.0, id.1, e);
      var b := s.(log := s.log[id := e], topic := s.topic[q := [m]]);
      assert q !in s.topic.Keys;
      GrowStep(s, b.log, b.topic);
      assert Received(Records(s, q), s.inbox, Offset(s.offsets, q));
      assert Records(b, q) == [m];
      StillUnhinted(s, b, id);
      var rest := TakeValid(b, w, q);
      hide Play;
      steps := [Step.Grow(b.log, b.topic)] + rest;
      PlayConcat(s, [Step.Grow(b.log, b.topic)], rest);
    }
  }

  lemma StillUnhinted(s: State, b: State, id: Outbox.Key)
    requires Safe(s) && Unhinted(s, id) && b.consumers == s.consumers && Extends(s.topic, b.topic)
    ensures Unhinted(b, id)
  {
    forall v | v in b.consumers && b.consumers[v].phase == Hinted && InRange(b, b.consumers[v])
      ensures At(b, b.consumers[v]).id != id
    {
      assert ConsumerOk(s, s.consumers[v]);
    }
  }

  // ----- exactly which records are passed -----

  /** The record at the committed offset of `p` is passed while producers keep to their
      partitions. */
  lemma PassFitting(s: State, w: Id, route: Id -> int, p: int) returns (steps: seq<Step>)
    requires Safe(s) && Keyed(route, s.topic) && 0 <= Offset(s.offsets, p) < |Records(s, p)| && !Stuck(s, p, Offset(s.offsets, p))
    ensures KeyedSteps(route, steps)
    ensures var b, n := Play(s, steps), Offset(s.offsets, p);
      && b.topic == s.topic && b.offsets == s.offsets[p := n + 1] && s.inbox <= b.inbox && Grows(s.log, b.log)
      && forall k | k in b.log :: k in s.log || k == Records(s, p)[n].id
  {
    var n := Offset(s.offsets, p);
    var m := Records(s, p)[n];
    assert Received(Records(s, p), s.inbox, n);
    hide Safe, Play, Next;
    if m.id in s.inbox {
      steps := PassKnown(s, w, p);
    } else {
      assert Fits(s.log, m);
      var first := ReceiveHead(s, w, p);
      var b := Play(s, first);
      var rest := PassKnown(b, w, p);
      steps := first + rest;
      PlayConcat(s, first, rest);
    }
  }

  lemma StuckOnlyBefore(s: State, b: State, p: int, n: int, j: int)
    requires 0 <= n < j < |Records(s, p)| && b.topic == s.topic && s.inbox <= b.inbox && !Stuck(s, p, j) && Grows(s.log, b.log)
    requires forall k | k in b.log :: k in s.log || k == Records(s, p)[n].id
    ensures !Stuck(b, p, j)
  {
  }

  lemma {:induction false} PassUpTo(s: State, w: Id, route: Id -> int, p: int, i: int) returns (steps: seq<Step>)
    requires Safe(s) && Keyed(route, s.topic) && i < |Records(s, p)|
    requires forall j | 0 <= j <= i && Offset(s.offsets, p) <= j :: !Stuck(s, p, j)
    ensures KeyedSteps(route, steps) && Offset(Play(s, steps).offsets, p) > i
    decreases i - Offset(s.offsets, p)
  {
    var n := Offset(s.offsets, p);
    assert Received(Records(s, p), s.inbox, n);
    if n > i {
      steps := [];
    } else {
      var first := PassFitting(s, w, route, p);
      var b := Play(s, first);
      PlaySafe(s, first);
      forall j | n + 1 <= j <= i ensures !Stuck(b, p, j) { StuckOnlyBefore(s, b, p, n, j); }
      hide Safe, Stuck, Play;
      var rest := PassUpTo(b, w, route, p, i);
      steps := first + rest;
      PlayConcat(s, first, rest);
    }
  }

  /** While producers put records where the worker puts them, a record is passed by some
      continuation exactly when nothing from the committed offset up to it is stuck. */
  lemma KeyedRecordsPassExactly(start: State, past: seq<Step>, route: Id -> int, p: int, i: int)
    requires Start(start) && Keyed(route, Play(start, past).topic) && 0 <= i < |Records(Play(start, past), p)|
    ensures var s := Play(start, past);
      (exists steps :: KeyedSteps(route, steps) && Offset(Play(s, steps).offsets, p) > i)
      <==> forall j | Offset(s.offsets, p) <= j <= i && 0 <= j :: !Stuck(s, p, j)
  {
    var s := Play(start, past);
    PlaySafe(start, past);
    hide Safe, Play, Stuck, Keyed, KeyedSteps;
    if forall j | Offset(s.offsets, p) <= j <= i && 0 <= j :: !Stuck(s, p, j) {
      var steps := PassUpTo(s, Id(0), route, p, i);
    } else {
      var j :| Offset(s.offsets, p) <= j <= i && 0 <= j && Stuck(s, p, j);
      forall steps | KeyedSteps(route, steps) ensures Offset(Play(s, steps).offsets, p) <= i {
        StuckStays(s, steps, route, p, j);
      }
    }
  }

  /** A record under its own key at the committed offset is passed when anybody may still
      log its event and deliver it properly elsewhere. */
  lemma PassOwnKey(s: State, w: Id, p: int) returns (steps: seq<Step>)
    requires Safe(s) && 0 <= Offset(s.offsets, p) < |Records(s, p)|
    requires Records(s, p)[Offset(s.offsets, p)].aggregate == Records(s, p)[Offset(s.offsets, p)].key
    ensures var b := Play(s, steps); Records(b, p) == Records(s, p) && b.offsets == s.offsets[p := Offset(s.offsets, p) + 1]
  {
    var m := Records(s, p)[Offset(s.offsets, p)];
    hide Safe, Play, Next;
    if m.id in s.inbox {
      steps := PassKnown(s, w, p);
    } else {
      var first := ReceiveElsewhere(s, w, m.id);
      var b := Play(s, first);
      var rest := PassKnown(b, w, p);
      steps := first + rest;
      PlayConcat(s, first, rest);
    }
  }

  lemma {:induction false} PassOwnKeys(s: State, w: Id, p: int, i: int) returns (steps: seq<Step>)
    requires Safe(s) && i < |Records(s, p)|
    requires forall j | 0 <= j <= i :: Records(s, p)[j].aggregate == Records(s, p)[j].key
    ensures Offset(Play(s, steps).offsets, p) > i
    decreases i - Offset(s.offsets, p)
  {
    assert Received(Records(s, p), s.inbox, Offset(s.offsets, p));
    if Offset(s.offsets, p) > i {
      steps := [];
    } else {
      var first := PassOwnKey(s, w, p);
      PlaySafe(s, first);
      hide Safe, Play;
      var rest := PassOwnKeys(Play(s, first), w, p, i);
      steps := first + rest;
      PlayConcat(s, first, rest);
    }
  }

  /** With producers that may do anything, only a record that claims another conversation
      than its key blocks for good, and such a record always does. */
  lemma MalformedBlocksExactly(start: State, past: seq<Step>, p: int, i: int)
    requires Start(start) && 0 <= i < |Records(Play(start, past), p)|
    ensures var s := Play(start, past);
      (exists steps :: Offset(Play(s, steps).offsets, p) > i)
      <==> forall j | 0 <= j <= i :: Records(s, p)[j].aggregate == Records(s, p)[j].key
  {
    var s := Play(start, past);
    PlaySafe(start, past);
    assert Received(Records(s, p), s.inbox, Offset(s.offsets, p));
    hide Safe, Play;
    if forall j | 0 <= j <= i :: Records(s, p)[j].aggregate == Records(s, p)[j].key {
      var steps := PassOwnKeys(s, Id(0), p, i);
    } else {
      var j :| 0 <= j <= i && Records(s, p)[j].aggregate != Records(s, p)[j].key;
      assert Offset(s.offsets, p) <= j;
      forall steps ensures Offset(Play(s, steps).offsets, p) <= i {
        MalformedStays(s, steps, p, j);
      }
    }
  }

  // ----- one hint at a time -----

  /** No two consumers are between hint and inbox of one event. */
  ghost predicate OneHint(s: State) {
    forall v, w | v in s.consumers && w in s.consumers && v != w
                  && s.consumers[v].phase == Hinted && InRange(s, s.consumers[v]) && s.consumers[w].phase == Hinted && InRange(s, s.consumers[w]) ::
      At(s, s.consumers[v]).id != At(s, s.consumers[w]).id
  }

  lemma OneHintStep(s: State, x: Step)
    requires Safe(s) && OneHint(s)
    ensures OneHint(Next(s, x))
  {
    if Enabled(s, x) && x.Grow? {
      forall w | w in s.consumers && s.consumers[w].phase == Hinted ensures InRange(s, s.consumers[w]) { assert ConsumerOk(s, s.consumers[w]); }
    }
  }

  lemma {:induction false} HintsStay(s: State, steps: seq<Step>)
    requires Safe(s) && OneHint(s)
    ensures OneHint(Play(s, steps))
    decreases |steps|
  {
    hide Safe, OneHint, Next;
    if steps != [] {
      OneHintStep(s, steps[0]);
      NextSafe(s, steps[0]);
      HintsStay(Next(s, steps[0]), steps[1..]);
    }
  }

  /** The lock of an event is held by one consumer at a time, over every run. */
  lemma HintsExclude(start: State, steps: seq<Step>)
    requires Start(start)
    ensures OneHint(Play(start, steps))
  {
    hide Play;
    assert Safe(start) && OneHint(start);
    HintsStay(start, steps);
  }
}
