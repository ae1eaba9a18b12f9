/** Conversations and their members (internal/conversation/repository). */
module Memberships {
  import opened Basics
  import opened Schema
  import opened Access

  // ----- user locks -----

  /** The one order in which user rows are locked. */
  predicate Increasing(s: seq<Id>) {
    forall i, j | 0 <= i < j < |s| :: s[i].Below(s[j])
  }

  /** Sorted insertion; an identity already present is not repeated. */
  function Place(x: Id, s: seq<Id>): (r: seq<Id>)
    requires Increasing(s)
    ensures forall y :: y in r <==> y == x || y in s
    ensures Increasing(r)
  {
    if s == [] then [x]
    else if x == s[0] then s
    else if x.Below(s[0]) then [x] + s
    else
      var rest := Place(x, s[1..]);
      assert forall k | 0 <= k < |rest| :: rest[k] in rest && s[0].Below(rest[k]);
      [s[0]] + rest
  }

  /** The users to lock, each once and in increasing order, whoever asks. */
  function Sort(s: seq<Id>): (r: seq<Id>)
    ensures forall y :: y in r <==> y in s
    ensures Increasing(r)
  {
    if s == [] then [] else Place(s[0], Sort(s[1..]))
  }

  function RowRefusal(actor: Id, id: Id, u: User): Option<Error> {
    if id == actor && u.banned then Some(Banned)
    else if id == actor && u.kind != Human then Some(Forbidden)
    else if u.kind == System then Some(Forbidden)
    else None
  }

  /** The first refusal among the existing rows, in lock order. */
  function FirstRefusal(users: map<Id, User>, actor: Id, ids: seq<Id>): (r: Option<Error>)
    ensures r.None? ==> forall x | x in ids && x in users :: RowRefusal(actor, x, users[x]).None?
    ensures r.Some? ==> exists x :: x in ids && x in users && RowRefusal(actor, x, users[x]) == r
  {
    if ids == [] then None
    else if ids[0] in users && RowRefusal(actor, ids[0], users[ids[0]]).Some? then RowRefusal(actor, ids[0], users[ids[0]])
    else FirstRefusal(users, actor, ids[1..])
  }

  /** lockUsers: existence, the actor's own restrictions, and bots only where allowed. */
  function UsersRefusal(db: Db, actor: Id, ids: seq<Id>, inviting: bool): Option<Error> {
    var refused := FirstRefusal(db.users, actor, ids);
    if refused.Some? then refused
    else if exists x | x in ids :: x !in db.users then Some(NotFound)
    else if inviting && AllowBots !in db.settings.flags && (exists x | x in ids :: x in db.users && db.users[x].kind == Bot)
    then Some(FeatureDisabled)
    else None
  }

  // ----- Create -----

  predicate Distinct(s: seq<Id>) {
    forall i, j | 0 <= i < j < |s| :: s[i] != s[j]
  }

  predicate ValidCreate(actor: Id, ctype: ConversationType, others: seq<Id>) {
    && |others| <= 100 && Distinct(others) && actor !in others
    && (ctype == Direct ==> |others| == 1)
  }

  const NEWCOMER := Membership(Member, false, false, false, 1, 0, 0)

  function Enrol(members: map<(Id, Id), Membership>, c: Id, ids: seq<Id>, governor: Option<Id>): map<(Id, Id), Membership>
    decreases |ids|
  {
    if ids == [] then members
    else
      var role := if Some(ids[0]) == governor then Moderator else Member;
      Enrol(members[(c, ids[0]) := NEWCOMER.(role := role)], c, ids[1..], governor)
  }

  function PairOf(a: Id, b: Id): (Id, Id) {
    if a.Below(b) then (a, b) else (b, a)
  }

  function CreatedRows(db: Db, actor: Id, ctype: ConversationType, others: seq<Id>, id: Id): Db
    requires ctype == Direct ==> |others| == 1
  {
    var governor := if ctype == Direct then None else Some(actor);
    var started := db.(
      conversations := db.conversations[id := Conversation(ctype, 1, 0, 0, None)],
      pairs := if ctype == Direct then db.pairs[PairOf(actor, others[0]) := id] else db.pairs,
      members := Enrol(db.members, id, Sort([actor] + others), governor));
    Append(started, id, Envelope(ConversationCreated, NOTHING))
  }

  function CreateSpec(db: Db, actor: Id, ctype: ConversationType, others: seq<Id>, id: Id): Outcome<(Id, bool)> {
    if !ValidCreate(actor, ctype, others) then Outcome(db, Err(Invalid))
    else if !db.settings.active then Outcome(db, Err(Unauthenticated))
    else
      match UsersRefusal(db, actor, Sort([actor] + others), true)
      case Some(e) => Outcome(db, Err(e))
      case None =>
        if ctype == Direct && PairOf(actor, others[0]) in db.pairs then
          var existing := db.pairs[PairOf(actor, others[0])];
          Outcome(db, if Readable(db, existing, actor) then Ok((existing, false)) else Err(NotFound))
        else if id in db.conversations then Outcome(db, Err(Unavailable))
        else Outcome(CreatedRows(db, actor, ctype, others, id), Ok((id, true)))
  }

  method Create(d: Database, actor: Id, ctype: ConversationType, others: seq<Id>, id: Id) returns (r: Result<(Id, bool)>)
    modifies d
    ensures Outcome(d.state, r) == CreateSpec(old(d.state), actor, ctype, others, id)
  {
    if !ValidCreate(actor, ctype, others) { return Err(Invalid); }
    if !d.state.settings.active { return Err(Unauthenticated); }
    var ids := Sort([actor] + others);
    var refusal := UsersRefusal(d.state, actor, ids, true);
    if refusal.Some? { return Err(refusal.value); }
    if ctype == Direct {
      var pair := PairOf(actor, others[0]);
      if pair in d.state.pairs {
        var existing := d.state.pairs[pair];
        return if Readable(d.state, existing, actor) then Ok((existing, false)) else Err(NotFound);
      }
    }
    if id in d.state.conversations { return Err(Unavailable); }
    var tx := WriteCreated(d.state, actor, ctype, others, id);
    d.state := tx;
    return Ok((id, true));
  }

  method WriteCreated(db: Db, actor: Id, ctype: ConversationType, others: seq<Id>, id: Id) returns (tx: Db)
    requires ctype == Direct ==> |others| == 1
    ensures tx == CreatedRows(db, actor, ctype, others, id)
  {
    tx := db.(conversations := db.conversations[id := Conversation(ctype, 1, 0, 0, None)]);
    if ctype == Direct {
      tx := tx.(pairs := tx.pairs[PairOf(actor, others[0]) := id]);
    }
    ghost var governor := if ctype == Direct then None else Some(actor);
    var members := tx.members;
    var rest := Sort([actor] + others);
    while rest != []
      invariant Enrol(members, id, rest, governor) == Enrol(db.members, id, Sort([actor] + others), governor)
      decreases |rest|
    {
      var role := if rest[0] == actor && ctype != Direct then Moderator else Member;
      members := members[(id, rest[0]) := NEWCOMER.(role := role)];
      rest := rest[1..];
    }
    tx := tx.(members := members);
    tx := Append(tx, id, Envelope(ConversationCreated, NOTHING));
  }

  // ----- the membership transaction -----

  /** membershipTx: project, sorted users, conversation, then the actor's own row. */
  function TxRefusal(db: Db, actor: Id, c: Id, others: seq<Id>, inviting: bool): (r: Option<Error>)
    ensures r.None? ==> c in db.conversations && Joined(db, c, actor)
    ensures r.None? ==> forall x | x == actor || x in others :: x in db.users
  {
    if !db.settings.active then Some(Unauthenticated)
    else
      match UsersRefusal(db, actor, Sort([actor] + others), inviting)
      case Some(e) => Some(e)
      case None =>
        if c !in db.conversations || !Joined(db, c, actor) then Some(NotFound)
        else if db.members[(c, actor)].banned then Some(Banned)
        else None
  }

  // ----- PatchConversation -----

  function PatchSpec(db: Db, actor: Id, c: Id, expected: int): Outcome<int> {
    if expected < 1 then Outcome(db, Err(Invalid))
    else
      match TxRefusal(db, actor, c, [], false)
      case Some(e) => Outcome(db, Err(e))
      case None =>
        var conv := db.conversations[c];
        if conv.ctype == Direct then Outcome(db, Err(Unsupported))
        else if db.members[(c, actor)].role != Moderator then Outcome(db, Err(Forbidden))
        else if conv.version != expected then Outcome(db, Err(Conflict))
        else Outcome(PatchedRows(db, c), Ok(conv.version + 1))
  }

  function PatchedRows(db: Db, c: Id): Db
    requires c in db.conversations
  {
    var conv := db.conversations[c];
    Append(db.(conversations := db.conversations[c := conv.(version := conv.version + 1)]), c, Envelope(ConversationUpdated, NOTHING))
  }

  // ----- AddMembers -----

  function UserRefs(user: Id): Refs {
    NOTHING.(user := Some(user))
  }

  /** The upsert of one invitee: a new row, a rejoin as an ordinary unbanned member, or
      nothing for an active member. Cursors and mute survive a rejoin. */
  function Admitted(db: Db, c: Id, user: Id): Membership {
    if (c, user) !in db.members then NEWCOMER
    else if db.members[(c, user)].left then
      var m := db.members[(c, user)];
      m.(role := Member, left := false, banned := false, version := m.version + 1)
    else db.members[(c, user)]
  }

  function AdmitOne(db: Db, c: Id, user: Id): (r: Db)
    requires c in db.conversations
    ensures c in r.conversations
  {
    if Joined(db, c, user) then db
    else Append(db.(members := db.members[(c, user) := Admitted(db, c, user)]), c, Envelope(MembersAdded, UserRefs(user)))
  }

  function AdmitAll(db: Db, c: Id, users: seq<Id>): Db
    requires c in db.conversations
    decreases |users|
  {
    if users == [] then db else AdmitAll(AdmitOne(db, c, users[0]), c, users[1..])
  }

  predicate ValidBatch(users: seq<Id>) {
    1 <= |users| <= 100 && Distinct(users)
  }

  function AddMembersSpec(db: Db, actor: Id, c: Id, users: seq<Id>): Outcome<()> {
    if !ValidBatch(users) then Outcome(db, Err(Invalid))
    else
      match TxRefusal(db, actor, c, users, true)
      case Some(e) => Outcome(db, Err(e))
      case None =>
        if db.conversations[c].ctype == Direct then Outcome(db, Err(Unsupported))
        else if db.members[(c, actor)].role != Moderator then Outcome(db, Err(Forbidden))
        else Outcome(AdmitAll(db, c, users), Ok(()))
  }

  method AddMembers(d: Database, actor: Id, c: Id, users: seq<Id>) returns (r: Result<()>)
    modifies d
    ensures Outcome(d.state, r) == AddMembersSpec(old(d.state), actor, c, users)
  {
    if !ValidBatch(users) { return Err(Invalid); }
    var refusal := TxRefusal(d.state, actor, c, users, true);
    if refusal.Some? { return Err(refusal.value); }
    if d.state.conversations[c].ctype == Direct { return Err(Unsupported); }
    if d.state.members[(c, actor)].role != Moderator { return Err(Forbidden); }
    var tx := WriteAdmissions(d.state, c, users);
    d.state := tx;
    return Ok(());
  }

  method WriteAdmissions(db: Db, c: Id, users: seq<Id>) returns (tx: Db)
    requires c in db.conversations
    ensures tx == AdmitAll(db, c, users)
  {
    tx := db;
    var rest := users;
    while rest != []
      invariant c in tx.conversations
      invariant AdmitAll(tx, c, rest) == AdmitAll(db, c, users)
      decreases |rest|
    {
      tx := AdmitOne(tx, c, rest[0]);
      rest := rest[1..];
    }
  }

  // ----- PatchMember, RemoveMember -----

  datatype MemberPatch = MemberPatch(role: Option<Role>, banned: Option<bool>, muted: Option<bool>, expected: int) {
    predicate Valid() { expected >= 1 && (role.Some? || banned.Some? || muted.Some?) }

    predicate Demotes() { role == Some(Member) || banned == Some(true) }
  }

  /** keepModerator: somebody else still governs. */
  predicate GovernedWithout(db: Db, c: Id, user: Id) {
    exists k | k in db.members :: k.0 == c && k.1 != user && db.members[k].Governs()
  }

  function Patched(m: Membership, p: MemberPatch): Membership {
    m.(role := if p.role.Some? then p.role.value else m.role,
       banned := if p.banned.Some? then p.banned.value else m.banned,
       muted := if p.muted.Some? then p.muted.value else m.muted,
       version := m.version + 1)
  }

  function PatchRefusal(db: Db, actor: Id, c: Id, user: Id, p: MemberPatch): (r: Option<Error>)
    requires c in db.conversations && Joined(db, c, actor) && user in db.users
    ensures r.None? ==> Joined(db, c, user)
  {
    var governs := p.role.Some? || p.banned.Some?;
    if db.conversations[c].ctype == Direct && governs then Some(Unsupported)
    else if (p.muted.Some? && user != actor) || (governs && db.members[(c, actor)].role != Moderator) then Some(Forbidden)
    else if !Joined(db, c, user) then Some(NotFound)
    else
      var m := db.members[(c, user)];
      if m.version != p.expected then Some(Conflict)
      else if p.role == Some(Moderator) && db.users[user].kind != Human then Some(Forbidden)
      else if m.role == Moderator && p.Demotes() && !GovernedWithout(db, c, user) then Some(LastModerator)
      else None
  }

  /** One membership row and the event that names it. */
  function MemberRows(db: Db, c: Id, user: Id, m: Membership, kind: EventKind): Db
    requires c in db.conversations
  {
    Append(db.(members := db.members[(c, user) := m]), c, Envelope(kind, UserRefs(user)))
  }

  function PatchMemberSpec(db: Db, actor: Id, c: Id, user: Id, p: MemberPatch): Outcome<Membership> {
    if !p.Valid() then Outcome(db, Err(Invalid))
    else
      match TxRefusal(db, actor, c, [user], false)
      case Some(e) => Outcome(db, Err(e))
      case None =>
        assert user in [user];
        match PatchRefusal(db, actor, c, user, p)
        case Some(e) => Outcome(db, Err(e))
        case None =>
          var m := Patched(db.members[(c, user)], p);
          Outcome(MemberRows(db, c, user, m, MemberUpdated), Ok(m))
  }

  method PatchMember(d: Database, actor: Id, c: Id, user: Id, p: MemberPatch) returns (r: Result<Membership>)
    modifies d
    ensures Outcome(d.state, r) == PatchMemberSpec(old(d.state), actor, c, user, p)
  {
    if !p.Valid() { return Err(Invalid); }
    var refusal := TxRefusal(d.state, actor, c, [user], false);
    if refusal.Some? { return Err(refusal.value); }
    assert user in [user];
    refusal := PatchRefusal(d.state, actor, c, user, p);
    if refusal.Some? { return Err(refusal.value); }
    var tx := d.state;
    var m := tx.members[(c, user)];
    if p.role.Some? { m := m.(role := p.role.value); }
    if p.banned.Some? { m := m.(banned := p.banned.value); }
    if p.muted.Some? { m := m.(muted := p.muted.value); }
    m := m.(version := m.version + 1);
    tx := tx.(members := tx.members[(c, user) := m]);
    tx := Append(tx, c, Envelope(MemberUpdated, UserRefs(user)));
    d.state := tx;
    return Ok(m);
  }

  function Departed(m: Membership): Membership {
    m.(left := true, version := m.version + 1)
  }

  function RemoveRefusal(db: Db, actor: Id, c: Id, user: Id): (r: Option<Error>)
    requires c in db.conversations && Joined(db, c, actor)
    ensures r.None? ==> Joined(db, c, user)
  {
    if db.conversations[c].ctype == Direct then Some(Unsupported)
    else if user != actor && db.members[(c, actor)].role != Moderator then Some(Forbidden)
    else if !Joined(db, c, user) then Some(NotFound)
    else if db.members[(c, user)].role == Moderator && !GovernedWithout(db, c, user) then Some(LastModerator)
    else None
  }

  function RemoveMemberSpec(db: Db, actor: Id, c: Id, user: Id): Outcome<()> {
    match TxRefusal(db, actor, c, [user], false)
    case Some(e) => Outcome(db, Err(e))
    case None =>
      match RemoveRefusal(db, actor, c, user)
      case Some(e) => Outcome(db, Err(e))
      case None => Outcome(MemberRows(db, c, user, Departed(db.members[(c, user)]), MemberLeft), Ok(()))
  }

  method RemoveMember(d: Database, actor: Id, c: Id, user: Id) returns (r: Result<()>)
    modifies d
    ensures Outcome(d.state, r) == RemoveMemberSpec(old(d.state), actor, c, user)
  {
    var refusal := TxRefusal(d.state, actor, c, [user], false);
    if refusal.Some? { return Err(refusal.value); }
    refusal := RemoveRefusal(d.state, actor, c, user);
    if refusal.Some? { return Err(refusal.value); }
    var tx := d.state;
    var m := tx.members[(c, user)];
    tx := tx.(members := tx.members[(c, user) := m.(left := true, version := m.version + 1)]);
    tx := Append(tx, c, Envelope(MemberLeft, UserRefs(user)));
    d.state := tx;
    return Ok(());
  }

  method PatchConversation(d: Database, actor: Id, c: Id, expected: int) returns (r: Result<int>)
    modifies d
    ensures Outcome(d.state, r) == PatchSpec(old(d.state), actor, c, expected)
  {
    if expected < 1 { return Err(Invalid); }
    var refusal := TxRefusal(d.state, actor, c, [], false);
    if refusal.Some? { return Err(refusal.value); }
    var tx := d.state;
    var conv := tx.conversations[c];
    if conv.ctype == Direct { return Err(Unsupported); }
    if tx.members[(c, actor)].role != Moderator { return Err(Forbidden); }
    if conv.version != expected { return Err(Conflict); }
    tx := tx.(conversations := tx.conversations[c := conv.(version := conv.version + 1)]);
    tx := Append(tx, c, Envelope(ConversationUpdated, NOTHING));
    d.state := tx;
    return Ok(conv.version + 1);
  }
}
