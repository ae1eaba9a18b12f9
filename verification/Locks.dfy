/** Row and advisory locks of the transactions of one Project, and the cycles of waits
    they can form (internal/message/repository, internal/conversation/repository,
    internal/identity/repository, internal/moderation/repository,
    internal/attachment/repository). */
module Locks {
  import opened Basics

  datatype Resource =
    | ForwardGate                        // advisory: one forward at a time
    | ProjectRow
    | UserRow(u: Id)
    | PairGate(low: Id, high: Id)        // advisory: creation of one DIRECT
    | RetryGate(u: Id, client: Id)       // advisory: one client id
    | ConversationRow(c: Id)
    | MemberRow(c: Id, u: Id)
    | MessageRow(m: Id)
    | AttachmentRow(a: Id)
    | ObjectRow(o: Id)

  /** A lock request; exclusive requests conflict with everything, shared ones with
      exclusive only. `rank` is the place the request has in the locking discipline. */
  datatype Request = Request(resource: Resource, exclusive: bool, rank: int)

  function Shared(r: Resource, rank: int): Request { Request(r, false, rank) }

  function Exclusive(r: Resource, rank: int): Request { Request(r, true, rank) }

  const GATE := 0
  const PROJECT := 1
  const USER_WRITE := 2
  const USER := 3
  const PAIR := 4
  const RETRY := 5
  const CONVERSATION := 6
  const FREE_MEMBER := 7     // a membership read without its conversation
  const MEMBER := 8
  const MEMBER_WRITE := 9
  const MESSAGE := 10
  const SENDER := 11         // the original sender of a forwarded message
  const ATTACHMENT := 12
  const OBJECT := 13

  // ----- the transactions -----

  /** Each transaction with the identities it will lock; `file` is an attachment row and
      its object. */
  datatype Program =
    | Forward(actor: Id, client: Id, target: Id, source: Id, m: Id, sender: Option<Id>, file: Option<(Id, Id)>)
    | Send(actor: Id, client: Id, c: Id, system: bool, file: Option<(Id, Id)>)
    | Mutate(actor: Id, c: Id, m: Id, attachment: Option<Id>)  // edit, delete, react, pin
    | Acknowledge(actor: Id, c: Id)
    | Membership(actor: Id, c: Id, users: seq<Id>, targets: seq<Id>)
    | Create(users: seq<Id>, pair: Option<(Id, Id)>)
    | Profile(u: Id)
    | Administer(actor: Id, subject: Option<Id>)
    | Read(actor: Id, c: Id)
    | BeginUpload(actor: Id)
    | FinishUpload(a: Id, o: Id)
    | Download(actor: Id, a: Id, o: Id, m: Id, c: Id)

  function Users(users: seq<Id>): (r: seq<Request>)
    ensures |r| == |users| && forall i | 0 <= i < |r| :: r[i] == Shared(UserRow(users[i]), USER)
  {
    seq(|users|, i requires 0 <= i < |users| => Shared(UserRow(users[i]), USER))
  }

  function Targets(c: Id, users: seq<Id>): (r: seq<Request>)
    ensures |r| == |users| && forall i | 0 <= i < |r| :: r[i] == Exclusive(MemberRow(c, users[i]), MEMBER_WRITE)
  {
    seq(|users|, i requires 0 <= i < |users| => Exclusive(MemberRow(c, users[i]), MEMBER_WRITE))
  }

  function File(file: Option<(Id, Id)>, exclusive: bool): seq<Request> {
    match file
    case None => []
    case Some((a, o)) => [Request(AttachmentRow(a), exclusive, ATTACHMENT), Request(ObjectRow(o), exclusive, OBJECT)]
  }

  /** The requests of a transaction in the order its statements make them. */
  function Plan(p: Program): seq<Request> {
    match p
    case Forward(actor, client, target, source, m, sender, file) =>
      [Exclusive(ForwardGate, GATE), Shared(ProjectRow, PROJECT), Shared(UserRow(actor), USER),
       Exclusive(RetryGate(actor, client), RETRY), Exclusive(ConversationRow(target), CONVERSATION),
       Shared(MemberRow(target, actor), FREE_MEMBER), Shared(MemberRow(source, actor), FREE_MEMBER),
       Shared(MessageRow(m), MESSAGE)]
      + (if sender.Some? then [Shared(UserRow(sender.value), SENDER)] else [])
      + File(file, false)
    case Send(actor, client, c, system, file) =>
      [Shared(ProjectRow, PROJECT), Shared(UserRow(actor), USER),
       Exclusive(RetryGate(actor, client), RETRY), Exclusive(ConversationRow(c), CONVERSATION)]
      + (if system then [] else [Shared(MemberRow(c, actor), MEMBER)])
      + File(file, true)
    case Mutate(actor, c, m, attachment) =>
      [Shared(ProjectRow, PROJECT), Shared(UserRow(actor), USER), Exclusive(ConversationRow(c), CONVERSATION),
       Shared(MemberRow(c, actor), MEMBER), Exclusive(MessageRow(m), MESSAGE)]
      + (if attachment.Some? then [Exclusive(AttachmentRow(attachment.value), ATTACHMENT)] else [])
    case Acknowledge(actor, c) =>
      [Shared(ProjectRow, PROJECT), Shared(UserRow(actor), USER), Exclusive(ConversationRow(c), CONVERSATION),
       Exclusive(MemberRow(c, actor), MEMBER_WRITE)]
    case Membership(actor, c, users, targets) =>
      [Shared(ProjectRow, PROJECT)] + Users(users)
      + [Exclusive(ConversationRow(c), CONVERSATION), Shared(MemberRow(c, actor), MEMBER)] + Targets(c, targets)
    case Create(users, pair) =>
      [Shared(ProjectRow, PROJECT)] + Users(users)
      + (if pair.Some? then [Exclusive(PairGate(pair.value.0, pair.value.1), PAIR)] else [])
    case Profile(u) => [Shared(ProjectRow, PROJECT), Exclusive(UserRow(u), USER_WRITE)]
    case Administer(actor, subject) =>
      [Exclusive(ProjectRow, PROJECT), Shared(UserRow(actor), USER_WRITE)]
      + (if subject.Some? then [Exclusive(UserRow(subject.value), USER_WRITE)] else [])
    case Read(actor, c) => [Shared(MemberRow(c, actor), FREE_MEMBER)]
    case BeginUpload(actor) => [Shared(ProjectRow, PROJECT), Shared(UserRow(actor), USER)]
    case FinishUpload(a, o) => [Exclusive(AttachmentRow(a), ATTACHMENT), Exclusive(ObjectRow(o), OBJECT)]
    case Download(actor, a, o, m, c) =>
      [Shared(AttachmentRow(a), ATTACHMENT), Shared(ObjectRow(o), OBJECT), Shared(ProjectRow, PROJECT),
       Shared(MessageRow(m), MESSAGE), Shared(MemberRow(c, actor), FREE_MEMBER)]
  }

  // ----- the lock manager -----

  /** A running transaction holds the first `held` requests of its plan until it ends. */
  datatype Running = Running(program: Program, held: nat)

  type State = map<Id, Running>

  predicate Holds(x: Running, i: int) {
    0 <= i < x.held && i < |Plan(x.program)|
  }

  predicate Wants(x: Running) {
    x.held < |Plan(x.program)|
  }

  predicate Conflicts(a: Request, b: Request) {
    a.resource == b.resource && (a.exclusive || b.exclusive)
  }

  /** `t` cannot take its next lock because `u` holds one that conflicts. */
  ghost predicate Waits(s: State, t: Id, u: Id) {
    && t in s && u in s && t != u && Wants(s[t])
    && exists i :: Holds(s[u], i) && Conflicts(Plan(s[t].program)[s[t].held], Plan(s[u].program)[i])
  }

  ghost predicate Blocked(s: State, t: Id) {
    exists u :: Waits(s, t, u)
  }

  datatype Step = Start(t: Id, program: Program) | Grant(t: Id) | End(t: Id)

  /** A transaction may end after any of its requests: it commits or rolls back. */
  ghost function Next(s: State, x: Step): State {
    match x
    case Start(t, program) => if t in s then s else s[t := Running(program, 0)]
    case Grant(t) => if t in s && Wants(s[t]) && !Blocked(s, t) then s[t := s[t].(held := s[t].held + 1)] else s
    case End(t) => s - {t}
  }

  ghost function Play(s: State, steps: seq<Step>): State
    decreases |steps|
  {
    if steps == [] then s else Play(Next(s, steps[0]), steps[1..])
  }

  /** No two transactions hold conflicting locks. */
  ghost predicate Coherent(s: State) {
    && (forall t | t in s :: s[t].held <= |Plan(s[t].program)|)
    && forall t, u, i, j | t in s && u in s && t != u && Holds(s[t], i) && Holds(s[u], j) ::
         !Conflicts(Plan(s[t].program)[i], Plan(s[u].program)[j])
  }

  lemma NextCoherent(s: State, x: Step)
    requires Coherent(s)
    ensures Coherent(Next(s, x))
  {
    hide Plan;
    if x.Grant? && x.t in s && Wants(s[x.t]) && !Blocked(s, x.t) {
      var b := Next(s, x);
      forall t, u, i, j | t in b && u in b && t != u && Holds(b[t], i) && Holds(b[u], j)
        ensures !Conflicts(Plan(b[t].program)[i], Plan(b[u].program)[j])
      {
        if t == x.t && i == s[t].held {
          assert !Waits(s, t, u);
        } else if u == x.t && j == s[u].held {
          assert !Waits(s, u, t);
        }
      }
    }
  }

  lemma {:induction false} PlayCoherent(s: State, steps: seq<Step>)
    requires Coherent(s)
    ensures Coherent(Play(s, steps))
    decreases |steps|
  {
    hide Coherent, Next;
    if steps != [] {
      NextCoherent(s, steps[0]);
      PlayCoherent(Next(s, steps[0]), steps[1..]);
    }
  }

  // ----- the discipline -----

  predicate RankFits(x: Request) {
    match x.resource
    case ForwardGate => x.rank == GATE
    case ProjectRow => x.rank == PROJECT
    case UserRow(_) => x.rank == USER_WRITE || ((x.rank == USER || x.rank == SENDER) && !x.exclusive)
    case PairGate(_, _) => x.rank == PAIR
    case RetryGate(_, _) => x.rank == RETRY
    case ConversationRow(_) => x.rank == CONVERSATION && x.exclusive
    case MemberRow(_, _) => (x.rank == MEMBER_WRITE && x.exclusive) || ((x.rank == MEMBER || x.rank == FREE_MEMBER) && !x.exclusive)
    case MessageRow(_) => x.rank == MESSAGE
    case AttachmentRow(_) => x.rank == ATTACHMENT
    case ObjectRow(_) => x.rank == OBJECT
  }

  /** The plan owns the conversation of a membership row before it asks for that row. */
  ghost predicate UnderConversation(plan: seq<Request>, i: int)
    requires 0 <= i < |plan|
  {
    plan[i].resource.MemberRow? ==> exists j :: 0 <= j < i && plan[j] == Exclusive(ConversationRow(plan[i].resource.c), CONVERSATION)
  }

  /** Later requests rank higher; only four classes may repeat. */
  predicate Ascends(a: Request, b: Request) {
    a.rank < b.rank || (a.rank == b.rank && a.rank in {USER_WRITE, USER, FREE_MEMBER, MEMBER_WRITE})
  }

  /** What one place of a plan presupposes of the places before it. */
  ghost predicate Placed(plan: seq<Request>, i: int)
    requires 0 <= i < |plan|
  {
    && RankFits(plan[i])
    && (plan[i].rank in {MEMBER, MEMBER_WRITE} ==> UnderConversation(plan, i))
    && (plan[i].resource.UserRow? && plan[i].exclusive ==> i == |plan| - 1)
    && (plan[i].rank == USER_WRITE ==> i > 0 && plan[0].resource == ProjectRow)
  }

  /** What two places presuppose of each other. */
  ghost predicate Paired(plan: seq<Request>, i: int, j: int)
    requires 0 <= i < j < |plan|
  {
    && Ascends(plan[i], plan[j])
    && (plan[i].rank == plan[j].rank == USER_WRITE ==> plan[0] == Exclusive(ProjectRow, PROJECT))
    && (plan[i].rank == plan[j].rank == FREE_MEMBER ==> UnderConversation(plan, i))
    && (plan[i].rank == FREE_MEMBER < plan[j].rank ==> MESSAGE <= plan[j].rank)
  }

  /** What every plan but a download obeys. */
  ghost predicate Disciplined(plan: seq<Request>) {
    && (forall i | 0 <= i < |plan| :: Placed(plan, i))
    && (forall i, j | 0 <= i < j < |plan| :: Paired(plan, i, j))
  }

  lemma MembershipIsDisciplined(actor: Id, c: Id, users: seq<Id>, targets: seq<Id>)
    ensures Disciplined(Plan(Membership(actor, c, users, targets)))
  {
    var plan := Plan(Membership(actor, c, users, targets));
    var k := 1 + |users|;
    assert plan[0] == Shared(ProjectRow, PROJECT) && plan[k] == Exclusive(ConversationRow(c), CONVERSATION) && plan[k + 1] == Shared(MemberRow(c, actor), MEMBER);
    forall i | 0 <= i < |plan|
      ensures 1 <= i < k ==> plan[i] == Shared(UserRow(users[i - 1]), USER)
      ensures i > k + 1 ==> plan[i] == Exclusive(MemberRow(c, targets[i - k - 2]), MEMBER_WRITE)
    {}
  }

  lemma SendIsDisciplined(actor: Id, client: Id, c: Id, system: bool, file: Option<(Id, Id)>)
    ensures Disciplined(Plan(Send(actor, client, c, system, file)))
  {
    var plan := Plan(Send(actor, client, c, system, file));
    assert plan[3] == Exclusive(ConversationRow(c), CONVERSATION);
  }

  lemma ForwardIsDisciplined(actor: Id, client: Id, target: Id, source: Id, m: Id, sender: Option<Id>, file: Option<(Id, Id)>)
    ensures Disciplined(Plan(Forward(actor, client, target, source, m, sender, file)))
  {
    var plan := Plan(Forward(actor, client, target, source, m, sender, file));
    assert plan[4] == Exclusive(ConversationRow(target), CONVERSATION) && plan[5] == Shared(MemberRow(target, actor), FREE_MEMBER);
  }

  lemma MutateIsDisciplined(actor: Id, c: Id, m: Id, attachment: Option<Id>)
    ensures Disciplined(Plan(Mutate(actor, c, m, attachment)))
  {
    var plan := Plan(Mutate(actor, c, m, attachment));
    assert plan[2] == Exclusive(ConversationRow(c), CONVERSATION);
  }

  lemma CreateIsDisciplined(users: seq<Id>, pair: Option<(Id, Id)>)
    ensures Disciplined(Plan(Create(users, pair)))
  {
    var plan := Plan(Create(users, pair));
    forall i | 0 <= i < |plan| ensures 1 <= i <= |users| ==> plan[i] == Shared(UserRow(users[i - 1]), USER) {}
  }

  lemma ShortPlansAreDisciplined(p: Program)
    requires p.Acknowledge? || p.Profile? || p.Administer? || p.Read? || p.BeginUpload? || p.FinishUpload?
    ensures Disciplined(Plan(p))
  {
    var plan := Plan(p);
    if p.Acknowledge? { assert plan[2] == Exclusive(ConversationRow(p.c), CONVERSATION); }
  }

  lemma PlansAreDisciplined(p: Program)
    requires !p.Download?
    ensures Disciplined(Plan(p))
  {
    hide Plan, Disciplined;
    match p {
      case Forward(actor, client, target, source, m, sender, file) => ForwardIsDisciplined(actor, client, target, source, m, sender, file);
      case Send(actor, client, c, system, file) => SendIsDisciplined(actor, client, c, system, file);
      case Mutate(actor, c, m, attachment) => MutateIsDisciplined(actor, c, m, attachment);
      case Membership(actor, c, users, targets) => MembershipIsDisciplined(actor, c, users, targets);
      case Create(users, pair) => CreateIsDisciplined(users, pair);
      case _ => ShortPlansAreDisciplined(p);
    }
  }

  // ----- no cycle -----

  /** One wait, seen from the two plans: `p` asks for its n-th request, `q` holds its first
      m and asks for the next, and no two held requests conflict. */
  ghost predicate WaitAt(p: seq<Request>, n: int, q: seq<Request>, m: int, i: int) {
    && Disciplined(p) && Disciplined(q) && 0 <= n < |p| && 0 <= i < m < |q|
    && Conflicts(p[n], q[i])
    && forall a, b | 0 <= a < n && 0 <= b < m :: !Conflicts(p[a], q[b])
  }

  /** Two plans that own the conversation of one membership row hold conflicting locks. */
  lemma OneOwner(p: seq<Request>, n: int, q: seq<Request>, i: int)
    requires 0 <= n < |p| && 0 <= i < |q| && p[n].resource.MemberRow? && q[i].resource == p[n].resource
    requires UnderConversation(p, n) && UnderConversation(q, i)
    ensures exists a, b :: 0 <= a < n && 0 <= b < i && Conflicts(p[a], q[b])
  {
    var c := Exclusive(ConversationRow(p[n].resource.c), CONVERSATION);
    var a :| 0 <= a < n && p[a] == c;
    var b :| 0 <= b < i && q[b] == c;
    assert Conflicts(p[a], q[b]);
  }

  lemma MemberClimbs(p: seq<Request>, n: int, q: seq<Request>, m: int, i: int)
    requires WaitAt(p, n, q, m, i) && p[n].resource.MemberRow?
    ensures p[n].rank < q[m].rank
  {
    assert Placed(p, n) && Placed(q, i) && Paired(q, i, m);
    hide Disciplined;
    assert !(UnderConversation(p, n) && UnderConversation(q, i)) by {
      if UnderConversation(p, n) && UnderConversation(q, i) { OneOwner(p, n, q, i); }
    }
  }

  lemma UserClimbs(p: seq<Request>, n: int, q: seq<Request>, m: int, i: int)
    requires WaitAt(p, n, q, m, i) && p[n].resource.UserRow?
    ensures p[n].rank < q[m].rank
  {
    assert Placed(p, n) && Placed(q, i) && Paired(q, i, m);
    assert !q[i].exclusive;
    assert p[n].rank == USER_WRITE && p[0].resource == ProjectRow;
    if q[m].rank <= USER_WRITE {
      assert q[0] == Exclusive(ProjectRow, PROJECT);
      assert Conflicts(p[0], q[0]);
    }
  }

  lemma WaitClimbs(p: seq<Request>, n: int, q: seq<Request>, m: int, i: int)
    requires WaitAt(p, n, q, m, i)
    ensures p[n].rank < q[m].rank
  {
    if p[n].resource.MemberRow? {
      MemberClimbs(p, n, q, m, i);
    } else if p[n].resource.UserRow? {
      UserClimbs(p, n, q, m, i);
    } else {
      assert Placed(p, n) && Placed(q, i) && Paired(q, i, m);
    }
  }

  /** A wait between disciplined transactions climbs: whoever is waited for waits for
      something of strictly higher rank. */
  lemma WaitsClimb(s: State, t: Id, u: Id)
    requires Coherent(s) && Waits(s, t, u) && Wants(s[u])
    requires !s[t].program.Download? && !s[u].program.Download?
    ensures Plan(s[t].program)[s[t].held].rank < Plan(s[u].program)[s[u].held].rank
  {
    PlansAreDisciplined(s[t].program);
    PlansAreDisciplined(s[u].program);
    hide Plan, Disciplined;
    var p, q := Plan(s[t].program), Plan(s[u].program);
    var i :| Holds(s[u], i) && Conflicts(p[s[t].held], q[i]);
    forall a, b | 0 <= a < s[t].held && 0 <= b < s[u].held ensures !Conflicts(p[a], q[b]) {
      assert Holds(s[t], a) && Holds(s[u], b);
    }
    WaitClimbs(p, s[t].held, q, s[u].held, i);
  }

  /** `chain` walks along waits. */
  ghost predicate Chain(s: State, chain: seq<Id>) {
    |chain| >= 1 && forall i | 0 <= i < |chain| - 1 :: Waits(s, chain[i], chain[i + 1])
  }

  lemma {:induction false} ChainClimbs(s: State, chain: seq<Id>)
    requires Coherent(s) && Chain(s, chain) && |chain| >= 2
    requires chain[|chain| - 1] in s && Wants(s[chain[|chain| - 1]])
    requires forall i | 0 <= i < |chain| :: chain[i] in s && !s[chain[i]].program.Download?
    ensures var a, z := s[chain[0]], s[chain[|chain| - 1]];
      Wants(a) && Plan(a.program)[a.held].rank < Plan(z.program)[z.held].rank
    decreases |chain|
  {
    hide Plan;
    assert Waits(s, chain[0], chain[1]);
    if |chain| > 2 {
      assert Waits(s, chain[1], chain[2]);
      var rest := chain[1..];
      forall i | 0 <= i < |rest| - 1 ensures Waits(s, rest[i], rest[i + 1]) { assert Waits(s, chain[i + 1], chain[i + 2]); }
      ChainClimbs(s, rest);
    }
    WaitsClimb(s, chain[0], chain[1]);
  }

  /** No deadlock: in no reachable state do sends, forwards in opposite directions, edits,
      deletions, relations, receipts, membership changes (self-patch and self-removal
      included), creations, profile and administrator writes, reads and uploads wait for
      each other in a circle. Every circle contains an attachment download. */
  lemma EveryCycleHasADownload(steps: seq<Step>, cycle: seq<Id>)
    requires |cycle| >= 2 && cycle[0] == cycle[|cycle| - 1]
    requires Chain(Play(map[], steps), cycle)
    ensures exists i :: 0 <= i < |cycle| && cycle[i] in Play(map[], steps) && Play(map[], steps)[cycle[i]].program.Download?
  {
    hide Plan, Play;
    var s := Play(map[], steps);
    PlayCoherent(map[], steps);
    forall i | 0 <= i < |cycle| ensures cycle[i] in s && Wants(s[cycle[i]]) {
      if i < |cycle| - 1 { assert Waits(s, cycle[i], cycle[i + 1]); } else { assert Waits(s, cycle[0], cycle[1]); }
    }
    if forall i | 0 <= i < |cycle| :: !s[cycle[i]].program.Download? {
      ChainClimbs(s, cycle);
    }
  }

  /** The waiting transaction of highest rank, if any waits. */
  lemma {:induction false} Highest(s: State, left: set<Id>) returns (t: Id)
    requires left != {} && left <= s.Keys
    ensures t in left
    ensures forall u | u in left && Wants(s[u]) :: Wants(s[t]) && Plan(s[u].program)[s[u].held].rank <= Plan(s[t].program)[s[t].held].rank
    decreases |left|
  {
    hide Plan;
    t :| t in left;
    if left != {t} {
      var u := Highest(s, left - {t});
      if Wants(s[u]) && (!Wants(s[t]) || Plan(s[t].program)[s[t].held].rank < Plan(s[u].program)[s[u].held].rank) { t := u; }
    }
  }

  /** Without downloads somebody can always go on: either finish, or be granted its next
      lock as soon as transactions that already have all of theirs have ended. */
  lemma SomebodyProceeds(steps: seq<Step>) returns (t: Id)
    requires Play(map[], steps) != map[]
    requires forall u | u in Play(map[], steps) :: !Play(map[], steps)[u].program.Download?
    ensures t in Play(map[], steps)
    ensures forall u | Waits(Play(map[], steps), t, u) :: !Wants(Play(map[], steps)[u])
  {
    hide Plan, Play;
    var s := Play(map[], steps);
    PlayCoherent(map[], steps);
    assert s.Keys != {} by { var k :| k in s; }
    t := Highest(s, s.Keys);
    forall u | Waits(s, t, u) ensures !Wants(s[u]) {
      if Wants(s[u]) { WaitsClimb(s, t, u); }
    }
  }

  // ----- the exception -----

  function Collision(download: Program, i: nat, deletion: Program, j: nat): State {
    map[Id(1) := Running(download, i), Id(2) := Running(deletion, j)]
  }

  lemma GrantDeletion(d: Program, m: Program, j: nat)
    requires d.Download? && m.Mutate? && j < |Plan(m)|
    ensures Next(Collision(d, 0, m, j), Grant(Id(2))) == Collision(d, 0, m, j + 1)
  {
    hide Plan;
    var s := Collision(d, 0, m, j);
    forall u ensures !Waits(s, Id(2), u) {
      if u == Id(1) { assert s[u].held == 0; }
    }
  }

  lemma GrantDownload(d: Program, m: Program, i: nat)
    requires d.Download? && m.Mutate? && i < 3
    ensures Next(Collision(d, i, m, 5), Grant(Id(1))) == Collision(d, i + 1, m, 5)
  {
    var s := Collision(d, i, m, 5);
    forall u ensures !Waits(s, Id(1), u) {}
  }

  /** A download locks the attachment before the message, a deletion the message before the
      attachment: two transactions suffice. */
  lemma DownloadAndDeletionDeadlock(reader: Id, author: Id, c: Id, m: Id, a: Id, o: Id)
    ensures var download, deletion := Id(1), Id(2);
      var steps := [Start(download, Download(reader, a, o, m, c)), Start(deletion, Mutate(author, c, m, Some(a))),
                    Grant(deletion), Grant(deletion), Grant(deletion), Grant(deletion), Grant(deletion),
                    Grant(download), Grant(download), Grant(download)];
      Waits(Play(map[], steps), download, deletion) && Waits(Play(map[], steps), deletion, download)
  {
    var d, x := Download(reader, a, o, m, c), Mutate(author, c, m, Some(a));
    var steps := [Start(Id(1), d), Start(Id(2), x), Grant(Id(2)), Grant(Id(2)), Grant(Id(2)), Grant(Id(2)), Grant(Id(2)),
                  Grant(Id(1)), Grant(Id(1)), Grant(Id(1))];
    assert Next(Next(map[], steps[0]), steps[1]) == Collision(d, 0, x, 0);
    assert steps[1..][1..] == steps[2..];
    assert Play(map[], steps) == Play(Next(map[], steps[0]), steps[1..]) == Play(Collision(d, 0, x, 0), steps[2..]);
    GrantsDeletion(d, x, steps, 0);
    GrantsDownload(d, x, steps, 0);
    assert steps[10..] == [];
    assert Play(map[], steps) == Collision(d, 3, x, 5);
    hide Play, Collision, Waits;
    CollisionWaits(reader, author, c, m, a, o);
  }

  lemma CollisionWaits(reader: Id, author: Id, c: Id, m: Id, a: Id, o: Id)
    ensures var end := Collision(Download(reader, a, o, m, c), 3, Mutate(author, c, m, Some(a)), 5);
      Waits(end, Id(1), Id(2)) && Waits(end, Id(2), Id(1))
  {
    var d, x := Download(reader, a, o, m, c), Mutate(author, c, m, Some(a));
    var end := Collision(d, 3, x, 5);
    assert Holds(end[Id(2)], 4) && Conflicts(Plan(d)[3], Plan(x)[4]);
    assert Holds(end[Id(1)], 0) && Conflicts(Plan(x)[5], Plan(d)[0]);
  }

  lemma {:induction false} GrantsDeletion(d: Program, m: Program, steps: seq<Step>, j: nat)
    requires d.Download? && m.Mutate? && m.attachment.Some? && |steps| == 10 && j <= 5
    requires forall k | 2 <= k < 7 :: steps[k] == Grant(Id(2))
    ensures Play(Collision(d, 0, m, j), steps[2 + j..]) == Play(Collision(d, 0, m, 5), steps[7..])
    decreases 5 - j
  {
    if j < 5 {
      GrantDeletion(d, m, j);
      assert steps[2 + j..][1..] == steps[3 + j..];
      GrantsDeletion(d, m, steps, j + 1);
    }
  }

  lemma {:induction false} GrantsDownload(d: Program, m: Program, steps: seq<Step>, i: nat)
    requires d.Download? && m.Mutate? && |steps| == 10 && i <= 3
    requires forall k | 7 <= k < 10 :: steps[k] == Grant(Id(1))
    ensures Play(Collision(d, i, m, 5), steps[7 + i..]) == Play(Collision(d, 3, m, 5), steps[10..])
    decreases 3 - i
  {
    if i < 3 {
      GrantDownload(d, m, i);
      assert steps[7 + i..][1..] == steps[8 + i..];
      GrantsDownload(d, m, steps, i + 1);
    }
  }

  // ----- what the locks are for -----

  /** The transaction has every lock of its plan. */
  predicate Complete(x: Running) {
    x.held == |Plan(x.program)|
  }

  lemma SendLocks(p: Program)
    requires p.Send?
    ensures |Plan(p)| >= 4 && Plan(p)[3] == Exclusive(ConversationRow(p.c), CONVERSATION)
    ensures p.file.Some? ==> Plan(p)[|Plan(p)| - 2] == Exclusive(AttachmentRow(p.file.value.0), ATTACHMENT)
    ensures !p.system ==> |Plan(p)| >= 5 && Plan(p)[4] == Shared(MemberRow(p.c, p.actor), MEMBER)
  {
  }

  /** In no reachable state do two sends both write to one conversation, or both consume one
      upload: each sequence is taken once and each upload attached once. */
  lemma SendsExclude(steps: seq<Step>, t: Id, u: Id)
    requires t in Play(map[], steps) && u in Play(map[], steps) && t != u
    requires var s := Play(map[], steps); s[t].program.Send? && s[u].program.Send? && Complete(s[t]) && Complete(s[u])
    ensures var p, q := Play(map[], steps)[t].program, Play(map[], steps)[u].program;
      p.c != q.c && (p.file.Some? && q.file.Some? ==> p.file.value.0 != q.file.value.0)
  {
    var s := Play(map[], steps);
    PlayCoherent(map[], steps);
    hide Plan, Play;
    var p, q := s[t].program, s[u].program;
    SendLocks(p);
    SendLocks(q);
    assert Holds(s[t], 3) && Holds(s[u], 3);
    if p.file.Some? && q.file.Some? { assert Holds(s[t], |Plan(p)| - 2) && Holds(s[u], |Plan(q)| - 2); }
  }
}
