/** Which circles of waits the transactions can really form (internal/message/repository,
    internal/attachment/repository). */
module Circles {
  import opened Basics
  import opened Locks

  // ----- what the database knows about two running transactions -----

  /** Consumes or finishes the upload `a`, which no message links yet. */
  predicate TakesUpload(p: Program, a: Id) {
    || (p.Send? && p.file.Some? && p.file.value.0 == a)
    || (p.FinishUpload? && p.a == a)
  }

  /** Names `a` because a message links it. */
  predicate NamesLinked(p: Program, a: Id) {
    || (p.Mutate? && p.attachment == Some(a))
    || (p.Forward? && p.file.Some? && p.file.value.0 == a)
  }

  /** A message lies in one conversation; an attachment is linked to one message, and not
      before it was consumed. */
  ghost predicate Agree(p: Program, q: Program) {
    && (p.Mutate? && q.Forward? && p.m == q.m ==> p.c == q.source)
    && (p.Mutate? && q.Download? && p.attachment == Some(q.a) ==> p.m == q.m)
    && (forall a | NamesLinked(p, a) :: !TakesUpload(q, a))
  }

  ghost predicate Consistent(s: State) {
    forall t, u | t in s && u in s && t != u :: Agree(s[t].program, s[u].program)
  }

  // ----- who holds what -----

  /** Where a plan may ask for an exclusive lock. */
  ghost predicate ExclusivePlace(q: Program, i: int)
    requires 0 <= i < |Plan(q)|
  {
    match Plan(q)[i].resource
    case ProjectRow => q.Administer? && i == 0
    case MessageRow(m) => q.Mutate? && i == 4 && m == q.m
    case AttachmentRow(a) => TakesUpload(q, a) || (q.Mutate? && i == |Plan(q)| - 1)
    case ObjectRow(_) => i == |Plan(q)| - 1
    case UserRow(_) => i == |Plan(q)| - 1
    case MemberRow(c, _) => i == |Plan(q)| - 1 || (q.Membership? && c == q.c && i >= 3 + |q.users|)
    case _ => true
  }

  lemma ListExclusive(q: Program, i: int)
    requires (q.Membership? || q.Create?) && 0 <= i < |Plan(q)| && Plan(q)[i].exclusive
    ensures ExclusivePlace(q, i)
  {
  }

  lemma MessageExclusive(q: Program, i: int)
    requires (q.Forward? || q.Send? || q.Mutate? || q.Download?) && 0 <= i < |Plan(q)| && Plan(q)[i].exclusive
    ensures ExclusivePlace(q, i)
  {
  }

  lemma ExclusiveAt(q: Program, i: int)
    requires 0 <= i < |Plan(q)| && Plan(q)[i].exclusive
    ensures ExclusivePlace(q, i)
  {
    if q.Membership? || q.Create? {
      ListExclusive(q, i);
    } else if q.Forward? || q.Send? || q.Mutate? || q.Download? {
      MessageExclusive(q, i);
    }
  }

  lemma UserUnderProject(q: Program, i: int) returns (j: int)
    requires 0 <= i < |Plan(q)| && Plan(q)[i].resource.UserRow?
    ensures 0 <= j < i && Plan(q)[j].resource == ProjectRow
  {
    j := if q.Forward? then 1 else 0;
  }

  lemma AttachmentAt(q: Program, i: int)
    requires 0 <= i < |Plan(q)| && Plan(q)[i].resource.AttachmentRow?
    ensures var a := Plan(q)[i].resource.a;
      || TakesUpload(q, a)
      || (q.Mutate? && i == |Plan(q)| - 1)
      || (q.Forward? && NamesLinked(q, a) && i == |Plan(q)| - 2)
      || (q.Download? && q.a == a && i == 0)
  {
  }

  // ----- rings -----

  /** Everybody in the ring holds something and waits for somebody in it. */
  ghost predicate Ring(s: State, ring: set<Id>) {
    forall t | t in ring :: t in s && s[t].held > 0 && Wants(s[t]) && exists u :: u in ring && Waits(s, t, u)
  }

  /** The circumstances of every lemma below. */
  ghost predicate Circling(s: State, ring: set<Id>) {
    Coherent(s) && Consistent(s) && Ring(s, ring)
  }

  function Wanted(s: State, t: Id): Request
    requires t in s && Wants(s[t])
  {
    Plan(s[t].program)[s[t].held]
  }

  /** Whom `t` waits for, and over which lock: never the last one of a plan. */
  lemma Blocker(s: State, ring: set<Id>, t: Id) returns (u: Id, i: int)
    requires Circling(s, ring) && t in ring
    ensures u in ring && u != t && u in s && Holds(s[u], i) && Wants(s[u]) && i < |Plan(s[u].program)| - 1
    ensures Conflicts(Wanted(s, t), Plan(s[u].program)[i])
  {
    hide Plan, Coherent, Consistent;
    u :| u in ring && Waits(s, t, u);
    i :| Holds(s[u], i) && Conflicts(Wanted(s, t), Plan(s[u].program)[i]);
  }

  lemma NoConflict(s: State, ring: set<Id>, t: Id, i: int, u: Id, j: int)
    requires Circling(s, ring) && t in s && u in s && t != u && Holds(s[t], i) && Holds(s[u], j)
    ensures !Conflicts(Plan(s[t].program)[i], Plan(s[u].program)[j])
  {
    hide Plan, Consistent, Ring;
  }

  lemma InRing(s: State, ring: set<Id>, t: Id)
    requires Circling(s, ring) && t in ring
    ensures t in s && s[t].held > 0 && Wants(s[t])
  {
    hide Coherent, Consistent, Plan;
  }

  lemma AdministerPlan(p: Program, n: int)
    requires p.Administer? && 0 < n < |Plan(p)|
    ensures Plan(p)[0] == Exclusive(ProjectRow, PROJECT) && Plan(p)[n].resource.UserRow?
  {
  }

  /** An administrator who owns the project waits for nobody who waits. */
  lemma AdministratorProceeds(s: State, ring: set<Id>, t: Id)
    requires Circling(s, ring) && t in ring && t in s
    ensures !s[t].program.Administer?
  {
    hide Circling, Plan;
    if s[t].program.Administer? {
      InRing(s, ring, t);
      AdministerPlan(s[t].program, s[t].held);
      var u, i := Blocker(s, ring, t);
      if Plan(s[u].program)[i].exclusive {
        ExclusiveAt(s[u].program, i);
      } else {
        var j := UserUnderProject(s[u].program, i);
        NoConflict(s, ring, t, 0, u, j);
      }
    }
  }

  // ----- a download in a ring -----

  lemma DownloadPlan(p: Program)
    requires p.Download?
    ensures Plan(p) == [Shared(AttachmentRow(p.a), ATTACHMENT), Shared(ObjectRow(p.o), OBJECT), Shared(ProjectRow, PROJECT),
                        Shared(MessageRow(p.m), MESSAGE), Shared(MemberRow(p.c, p.actor), FREE_MEMBER)]
  {
  }

  lemma DownloadIsDeep(s: State, ring: set<Id>, d: Id)
    requires Circling(s, ring) && d in ring && d in s && s[d].program.Download?
    ensures s[d].held == 3 || s[d].held == 4
  {
    hide Circling, Plan;
    InRing(s, ring, d);
    DownloadPlan(s[d].program);
    var u, i := Blocker(s, ring, d);
    ExclusiveAt(s[u].program, i);
    AdministratorProceeds(s, ring, u);
  }

  // ----- who cannot be waited for -----

  lemma ForwardPlan(p: Program, n: int)
    requires p.Forward? && 7 <= n < |Plan(p)|
    ensures !Plan(p)[n].exclusive
    ensures match Plan(p)[n].resource
            case MessageRow(m) => m == p.m
            case UserRow(_) => true
            case AttachmentRow(a) => NamesLinked(p, a)
            case ObjectRow(_) => true
            case _ => false
  {
  }

  lemma MutatePlan(p: Program)
    requires p.Mutate?
    ensures |Plan(p)| >= 5 && Plan(p)[2] == Exclusive(ConversationRow(p.c), CONVERSATION) && Plan(p)[4] == Exclusive(MessageRow(p.m), MESSAGE)
    ensures |Plan(p)| == if p.attachment.Some? then 6 else 5
    ensures p.attachment.Some? ==> Plan(p)[5] == Exclusive(AttachmentRow(p.attachment.value), ATTACHMENT)
  {
  }

  /** A forward past its members waits only for a mutation of its message, and not while
      somebody else owns the source conversation. */
  lemma ForwardProceeds(s: State, ring: set<Id>, f: Id, w: Id, k: int)
    requires Circling(s, ring) && f in ring && f in s && s[f].program.Forward?
    requires w in s && w != f && Holds(s[w], k) && Plan(s[w].program)[k] == Exclusive(ConversationRow(s[f].program.source), CONVERSATION)
    requires !s[w].program.Mutate?
    ensures s[f].held < 7
  {
    hide Circling, Plan;
    InRing(s, ring, f);
    if s[f].held >= 7 {
      ForwardPlan(s[f].program, s[f].held);
      var u, i := Blocker(s, ring, f);
      ExclusiveAt(s[u].program, i);
      AgreeIn(s, ring, u, f);
      AgreeIn(s, ring, f, u);
      if s[u].program.Mutate? {
        MutatePlan(s[u].program);
        NoConflict(s, ring, u, 2, w, k);
      }
    }
  }

  lemma AgreeIn(s: State, ring: set<Id>, t: Id, u: Id)
    requires Circling(s, ring) && t in s && u in s && t != u
    ensures Agree(s[t].program, s[u].program)
  {
    hide Coherent, Ring, Plan, Agree;
  }

  lemma MembershipPlan(p: Program, n: int)
    requires p.Membership? && 0 <= n < |Plan(p)|
    ensures |Plan(p)| == 3 + |p.users| + |p.targets|
    ensures Plan(p)[1 + |p.users|] == Exclusive(ConversationRow(p.c), CONVERSATION)
    ensures n >= 3 + |p.users| ==> Plan(p)[n] == Exclusive(MemberRow(p.c, p.targets[n - 3 - |p.users|]), MEMBER_WRITE)
  {
  }

  /** A member row is held under its conversation, or as the last lock of a read, or by a
      forward that reads its source. */
  lemma MemberAt(q: Program, i: int)
    requires 0 <= i < |Plan(q)| - 1 && Plan(q)[i].resource.MemberRow?
    ensures || UnderConversation(Plan(q), i)
            || (q.Forward? && i == 6 && q.source == Plan(q)[i].resource.c)
  {
    if q.Membership? {
      MembershipPlan(q, i);
    } else if q.Forward? {
      assert Plan(q)[4] == Exclusive(ConversationRow(q.target), CONVERSATION);
    } else if q.Send? {
      assert Plan(q)[3] == Exclusive(ConversationRow(q.c), CONVERSATION);
    } else if q.Mutate? {
      assert Plan(q)[2] == Exclusive(ConversationRow(q.c), CONVERSATION);
    }
  }

  /** A membership change that owns one of its targets waits for nobody who waits. */
  lemma MembershipProceeds(s: State, ring: set<Id>, t: Id)
    requires Circling(s, ring) && t in ring && t in s && s[t].program.Membership?
    ensures s[t].held <= 3 + |s[t].program.users|
  {
    hide Circling, Plan, Disciplined;
    InRing(s, ring, t);
    var p := s[t].program;
    MembershipPlan(p, s[t].held);
    if s[t].held > 3 + |p.users| {
      var u, i := Blocker(s, ring, t);
      MemberAt(s[u].program, i);
      if UnderConversation(Plan(s[u].program), i) {
        var j :| 0 <= j < i && Plan(s[u].program)[j] == Exclusive(ConversationRow(p.c), CONVERSATION);
        NoConflict(s, ring, t, 1 + |p.users|, u, j);
      } else {
        ForwardProceeds(s, ring, u, t, 1 + |p.users|);
      }
    }
  }

  lemma DownloadWaitsForMessage(s: State, ring: set<Id>, d: Id)
    requires Circling(s, ring) && d in ring && d in s && s[d].program.Download?
    ensures s[d].held == 3
  {
    hide Circling, Plan;
    InRing(s, ring, d);
    DownloadPlan(s[d].program);
    DownloadIsDeep(s, ring, d);
    if s[d].held == 4 {
      var u, i := Blocker(s, ring, d);
      ExclusiveAt(s[u].program, i);
      MembershipProceeds(s, ring, u);
    }
  }

  /** A mutation that owns its message waits in a ring only for a download. */
  lemma MutationWaitsForDownload(s: State, ring: set<Id>, x: Id) returns (d: Id)
    requires Circling(s, ring) && x in ring && x in s && s[x].program.Mutate? && s[x].held >= 5
    ensures s[x].program.attachment.Some? && Waits(s, d, x) && Waits(s, x, d) && d in ring
    ensures s[d].program.Download? && s[d].program.a == s[x].program.attachment.value && s[d].program.m == s[x].program.m
  {
    hide Circling, Plan;
    InRing(s, ring, x);
    MutatePlan(s[x].program);
    var i;
    d, i := Blocker(s, ring, x);
    AttachmentAt(s[d].program, i);
    AgreeIn(s, ring, x, d);
    AgreeIn(s, ring, d, x);
    if s[d].program.Forward? {
      InRing(s, ring, d);
      var u, k := Blocker(s, ring, d);
      ForwardEnds(s[d].program, i);
      ExclusiveAt(s[u].program, k);
    } else {
      DownloadWaitsForMessage(s, ring, d);
      DownloadPlan(s[d].program);
      assert Holds(s[x], 4);
    }
  }

  lemma ForwardEnds(p: Program, i: int)
    requires p.Forward? && 0 <= i == |Plan(p)| - 2 && Plan(p)[i].resource.AttachmentRow?
    ensures Plan(p)[i + 1].resource.ObjectRow? && !Plan(p)[i + 1].exclusive
  {
  }

  lemma RingHasThePair(s: State, ring: set<Id>, first: Id) returns (d: Id, x: Id)
    requires Circling(s, ring) && first in ring && first in s && s[first].program.Download?
    ensures d in ring && x in ring && Waits(s, d, x) && Waits(s, x, d) && s[d].program.Download? && s[x].program.Mutate?
    ensures s[x].program.attachment == Some(s[d].program.a) && s[d].program.m == s[x].program.m
  {
    hide Circling, Plan, Waits;
    InRing(s, ring, first);
    DownloadWaitsForMessage(s, ring, first);
    DownloadPlan(s[first].program);
    var i;
    x, i := Blocker(s, ring, first);
    ExclusiveAt(s[x].program, i);
    d := MutationWaitsForDownload(s, ring, x);
  }

  lemma NobodyCoheres()
    ensures Coherent(map[])
  {
  }

  lemma WaitFacts(s: State, t: Id, u: Id)
    requires Waits(s, t, u)
    ensures t in s && u in s && Wants(s[t]) && s[u].held > 0
  {
    hide Plan, Conflicts;
  }

  lemma Link(s: State, cycle: seq<Id>, k: int)
    requires Chain(s, cycle) && 0 <= k < |cycle| - 1
    ensures Waits(s, cycle[k], cycle[k + 1])
  {
    hide Waits;
  }

  lemma PlaceInCycle(s: State, cycle: seq<Id>, k: int) returns (u: Id)
    requires |cycle| >= 2 && cycle[0] == cycle[|cycle| - 1] && Chain(s, cycle) && 0 <= k < |cycle|
    ensures u in cycle && Waits(s, cycle[k], u) && cycle[k] in s && s[cycle[k]].held > 0 && Wants(s[cycle[k]])
  {
    hide Plan, Chain, Waits, Wants;
    var from := if k == |cycle| - 1 then 0 else k;
    var before := if k == 0 then |cycle| - 2 else k - 1;
    Link(s, cycle, from);
    Link(s, cycle, before);
    u := cycle[from + 1];
    WaitFacts(s, cycle[k], u);
    WaitFacts(s, cycle[before], cycle[k]);
  }

  lemma CycleIsRing(s: State, cycle: seq<Id>, ring: set<Id>)
    requires |cycle| >= 2 && cycle[0] == cycle[|cycle| - 1] && Chain(s, cycle) && ring == set t | t in cycle
    ensures Ring(s, ring)
  {
    hide Plan, Chain, Waits, Wants;
    forall t | t in ring ensures t in s && s[t].held > 0 && Wants(s[t]) && exists u :: u in ring && Waits(s, t, u) {
      var k :| 0 <= k < |cycle| && cycle[k] == t;
      var u := PlaceInCycle(s, cycle, k);
      assert u in ring;
    }
  }

  /** In every reachable circle of waits whose transactions agree with one database, a
      download waits for the message of a mutation that waits for its attachment. */
  lemma EveryCircleIsDownloadAgainstMutation(steps: seq<Step>, cycle: seq<Id>) returns (d: Id, x: Id)
    requires |cycle| >= 2 && cycle[0] == cycle[|cycle| - 1]
    requires Chain(Play(map[], steps), cycle) && Consistent(Play(map[], steps))
    ensures var s := Play(map[], steps);
      && d in cycle && x in cycle && Waits(s, d, x) && Waits(s, x, d)
      && s[d].program.Download? && s[x].program.Mutate?
      && s[x].program.attachment == Some(s[d].program.a) && s[d].program.m == s[x].program.m
  {
    hide Plan, Play, Coherent, Consistent, Waits, Chain, Ring;
    var s := Play(map[], steps);
    NobodyCoheres();
    PlayCoherent(map[], steps);
    EveryCycleHasADownload(steps, cycle);
    var k :| 0 <= k < |cycle| && cycle[k] in s && s[cycle[k]].program.Download?;
    var ring := set t | t in cycle;
    CycleIsRing(s, cycle, ring);
    d, x := RingHasThePair(s, ring, cycle[k]);
  }
}
