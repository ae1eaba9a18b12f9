/** Who may create, change and leave conversations, and what everybody else is told, said of
    the rows alone (internal/conversation/repository). */
module Organizers {
  import opened Basics
  import opened Schema
  import opened Access
  import opened Memberships
  import opened Deltas
  import opened Invariants
  import opened MembershipProofs
  import opened Evolution
  import opened System
  import opened Guarantees
  import opened Admission

  // ----- the users of one transaction -----

  /** An unbanned human organises; nobody involves a SYSTEM account, and nobody invites a bot
      where the Project does not allow them. */
  predicate Involves(db: Db, actor: Id, others: seq<Id>, inviting: bool) {
    && actor in db.users && !db.users[actor].banned && db.users[actor].kind == Human
    && forall x | x in others ::
         && x in db.users && db.users[x].kind != System
         && (inviting && db.users[x].kind == Bot ==> AllowBots in db.settings.flags)
  }

  lemma SortedAre(actor: Id, others: seq<Id>)
    ensures forall x :: x in Sort([actor] + others) <==> x == actor || x in others
  {
    assert forall x :: x in [actor] + others <==> x == actor || x in others;
  }

  lemma UsersAnswer(db: Db, actor: Id, others: seq<Id>, inviting: bool)
    ensures var r := UsersRefusal(db, actor, Sort([actor] + others), inviting);
      && (r == None <==> Involves(db, actor, others, inviting))
      && (r == Some(Banned) ==> actor in db.users && db.users[actor].banned)
      && (r == Some(Forbidden) ==> exists x | x == actor || x in others ::
            x in db.users && (db.users[x].kind == System || (x == actor && db.users[x].kind != Human)))
      && (r == Some(NotFound) ==> exists x | x == actor || x in others :: x !in db.users)
      && (r == Some(FeatureDisabled) ==>
            inviting && AllowBots !in db.settings.flags && exists x | x in others :: x in db.users && db.users[x].kind == Bot)
      && (r.Some? ==> r.value in {Banned, Forbidden, NotFound, FeatureDisabled})
  {
    SortedAre(actor, others);
    hide Sort;
    var ids := Sort([actor] + others);
    var refused := FirstRefusal(db.users, actor, ids);
    if refused.Some? {
      var x :| x in ids && x in db.users && RowRefusal(actor, x, db.users[x]) == refused;
    }
  }

  /** The gate of every change of an existing conversation. */
  lemma OrganizerAnswers(db: Db, actor: Id, c: Id, others: seq<Id>, inviting: bool)
    ensures var r := TxRefusal(db, actor, c, others, inviting);
      && (r == None <==>
            db.settings.active && Involves(db, actor, others, inviting) && CurrentMember(db, c, actor) && !db.members[(c, actor)].banned)
      && if !db.settings.active then r == Some(Unauthenticated)
         else if !Involves(db, actor, others, inviting) then r.Some? && r == UsersRefusal(db, actor, Sort([actor] + others), inviting)
         else if !CurrentMember(db, c, actor) then r == Some(NotFound)
         else if db.members[(c, actor)].banned then r == Some(Banned)
         else r == None
  {
    UsersAnswer(db, actor, others, inviting);
    hide UsersRefusal, Sort, Involves;
  }

  // ----- creation -----

  predicate CreateAsked(actor: Id, ctype: ConversationType, others: seq<Id>) {
    && |others| <= 100 && actor !in others && (forall i, j | 0 <= i < j < |others| :: others[i] != others[j])
    && (ctype == Direct ==> |others| == 1)
  }

  /** `d` is the DIRECT of the two users. */
  predicate Between(db: Db, u: Id, v: Id, d: Id) {
    d in db.conversations && db.conversations[d].ctype == Direct && (d, u) in db.members && (d, v) in db.members
  }

  /** The pair index finds exactly the DIRECT of the two users, and both are current members. */
  lemma PairIs(db: Db, u: Id, v: Id, d: Id)
    requires Governance(db.conversations, db.users, db.members, db.pairs) && u != v
    ensures Between(db, u, v, d) <==> PairOf(u, v) in db.pairs && db.pairs[PairOf(u, v)] == d
    ensures Between(db, u, v, d) ==> CurrentMember(db, d, u) && CurrentMember(db, d, v)
  {
    hide RoleOk, Governed;
    if Between(db, u, v, d) {
      assert Paired(db.pairs, d);
      var p :| p in db.pairs && db.pairs[p] == d;
      assert PairOk(db.conversations, db.members, p, d);
      assert p == (p.0, p.1);
    }
    if PairOf(u, v) in db.pairs && db.pairs[PairOf(u, v)] == d {
      assert PairOk(db.conversations, db.members, PairOf(u, v), d);
    }
  }

  /** A new conversation: the actor and the others, each with a fresh row, the actor a
      moderator unless it is a DIRECT. */
  ghost predicate Founded(a: Db, b: Db, actor: Id, ctype: ConversationType, others: seq<Id>, id: Id) {
    && b.conversations == a.conversations[id := Conversation(ctype, 1, 0, 1, None)]
    && (forall k :: k in b.members <==> k in a.members || (k.0 == id && (k.1 == actor || k.1 in others)))
    && (forall k | k in b.members ::
          b.members[k] == if k.0 == id && (k.1 == actor || k.1 in others)
                          then Membership(if ctype != Direct && k.1 == actor then Moderator else Member, false, false, false, 1, 0, 0)
                          else a.members[k])
  }

  lemma CreatedIsFounded(db: Db, actor: Id, ctype: ConversationType, others: seq<Id>, id: Id)
    requires CreateAsked(actor, ctype, others)
    ensures Founded(db, CreatedRows(db, actor, ctype, others, id), actor, ctype, others, id)
  {
    hide Sort, Enrol, CreatedRows;
    SortedAre(actor, others);
    CreatedTables(db, actor, ctype, others, id);
    EnrolIs(db.members, id, Sort([actor] + others), if ctype == Direct then None else Some(actor));
  }

  lemma CreatedTables(db: Db, actor: Id, ctype: ConversationType, others: seq<Id>, id: Id)
    requires ctype == Direct ==> |others| == 1
    ensures var b := CreatedRows(db, actor, ctype, others, id);
      && b.conversations == db.conversations[id := Conversation(ctype, 1, 0, 1, None)]
      && b.members == Enrol(db.members, id, Sort([actor] + others), if ctype == Direct then None else Some(actor))
  {
    hide Sort, Enrol, PairOf;
  }

  /** The steps of a creation. */
  lemma CreateFlows(db: Db, actor: Id, ctype: ConversationType, others: seq<Id>, id: Id)
    ensures var o, refused := CreateSpec(db, actor, ctype, others, id), UsersRefusal(db, actor, Sort([actor] + others), true);
      if !CreateAsked(actor, ctype, others) then o.result == Err(Invalid)
      else if !db.settings.active then o.result == Err(Unauthenticated)
      else if refused.Some? then o.result == Err(refused.value)
      else if ctype == Direct && PairOf(actor, others[0]) in db.pairs
      then
        var d := db.pairs[PairOf(actor, others[0])];
        o.db == db && o.result == if CurrentMember(db, d, actor) then Ok((d, false)) else Err(NotFound)
      else if id in db.conversations then o.result == Err(Unavailable)
      else o.result == Ok((id, true)) && o.db == CreatedRows(db, actor, ctype, others, id)
  {
    hide UsersRefusal, Sort, CreatedRows, PairOf;
  }

  lemma DirectExists(db: Db, u: Id, v: Id)
    requires Governance(db.conversations, db.users, db.members, db.pairs) && u != v
    ensures PairOf(u, v) in db.pairs ==> Between(db, u, v, db.pairs[PairOf(u, v)]) && CurrentMember(db, db.pairs[PairOf(u, v)], u)
    ensures PairOf(u, v) !in db.pairs ==> forall d :: !Between(db, u, v, d)
  {
    hide Governance, PairOf, Between, CurrentMember;
    if PairOf(u, v) in db.pairs {
      PairIs(db, u, v, db.pairs[PairOf(u, v)]);
    } else {
      forall d ensures !Between(db, u, v, d) { PairIs(db, u, v, d); }
    }
  }

  /** A creation succeeds exactly for an unbanned human with up to a hundred distinct others
      it may involve; a second DIRECT of the same two users is answered by the first one,
      with nothing changed, and anything else is a new conversation of exactly these users. */
  lemma CreateAnswers(db: Db, actor: Id, ctype: ConversationType, others: seq<Id>, id: Id)
    requires Reachable(db)
    ensures var o := CreateSpec(db, actor, ctype, others, id);
      if !CreateAsked(actor, ctype, others) then o.result == Err(Invalid)
      else if !db.settings.active then o.result == Err(Unauthenticated)
      else if !Involves(db, actor, others, true)
      then o.result.Err? && UsersRefusal(db, actor, Sort([actor] + others), true) == Some(o.result.error)
      else if ctype == Direct && exists d :: Between(db, actor, others[0], d)
      then o.result.Ok? && Between(db, actor, others[0], o.result.value.0) && !o.result.value.1 && o.db == db
      else if id in db.conversations then o.result == Err(Unavailable)
      else o.result == Ok((id, true)) && Founded(db, o.db, actor, ctype, others, id)
  {
    hide Reachable, Checkpointed, DenseLog, Ledger, Ordered, Tails, Bodies, Indexed, Receipts, Related, Cursors, Governance, Files;
    hide CreateSpec, Sort, UsersRefusal, Involves, CreatedRows, Founded, PairOf, Between, CurrentMember;
    ReachableInv(db);
    UsersAnswer(db, actor, others, true);
    CreateFlows(db, actor, ctype, others, id);
    if CreateAsked(actor, ctype, others) {
      CreatedIsFounded(db, actor, ctype, others, id);
      if ctype == Direct {
        assert others[0] in others;
        DirectExists(db, actor, others[0]);
      }
    }
  }

  // ----- changes -----

  predicate Moderates(db: Db, c: Id, actor: Id) {
    CurrentMember(db, c, actor) && !db.members[(c, actor)].banned && db.members[(c, actor)].role == Moderator
  }

  /** A conversation is changed exactly by a moderator, outside a DIRECT, over the current
      version; the next version is stored and answered. */
  lemma PatchAnswers(db: Db, actor: Id, c: Id, expected: int)
    ensures var o, gate := PatchSpec(db, actor, c, expected), TxRefusal(db, actor, c, [], false);
      && (o.result.Ok? <==>
            && 1 <= expected && db.settings.active && Involves(db, actor, [], false) && Moderates(db, c, actor)
            && db.conversations[c].ctype != Direct && db.conversations[c].version == expected)
      && if expected < 1 then o.result == Err(Invalid)
         else if gate.Some? then o.result == Err(gate.value)
         else if db.conversations[c].ctype == Direct then o.result == Err(Unsupported)
         else if !Moderates(db, c, actor) then o.result == Err(Forbidden)
         else if db.conversations[c].version != expected then o.result == Err(Conflict)
         else
           && o.result == Ok(expected + 1)
           && o.db.conversations == db.conversations[c := db.conversations[c].(version := expected + 1,
                                                                              eventSequence := db.conversations[c].eventSequence + 1)]
  {
    OrganizerAnswers(db, actor, c, [], false);
    hide TxRefusal, Involves, Append;
    if c in db.conversations { PatchedConversation(db, c); }
    hide PatchedRows;
  }

  lemma PatchedConversation(db: Db, c: Id)
    requires c in db.conversations
    ensures var conv := db.conversations[c];
      PatchedRows(db, c).conversations == db.conversations[c := conv.(version := conv.version + 1, eventSequence := conv.eventSequence + 1)]
  {
  }

  /** The row of somebody who is invited: a new one, a rejoin as an ordinary unbanned member,
      or the current one. */
  function Welcomed(members: map<(Id, Id), Membership>, k: (Id, Id)): Membership {
    if k !in members then Membership(Member, false, false, false, 1, 0, 0)
    else if members[k].left then members[k].(role := Member, left := false, banned := false, version := members[k].version + 1)
    else members[k]
  }

  ghost predicate Invited(a: map<(Id, Id), Membership>, b: map<(Id, Id), Membership>, c: Id, users: seq<Id>) {
    && (forall k :: k in b <==> k in a || (k.0 == c && k.1 in users))
    && (forall k | k in b :: b[k] == if k.0 == c && k.1 in users then Welcomed(a, k) else a[k])
  }

  lemma AdmittedRow(db: Db, c: Id, user: Id)
    requires c in db.conversations
    ensures AdmitOne(db, c, user).members == db.members[(c, user) := Welcomed(db.members, (c, user))]
  {
    if Joined(db, c, user) { assert db.members[(c, user) := db.members[(c, user)]] == db.members; }
  }

  lemma AdmitInvites(members: map<(Id, Id), Membership>, c: Id, user: Id)
    ensures Invited(members, members[(c, user) := Welcomed(members, (c, user))], c, [user])
  {
    hide Welcomed;
    var b := members[(c, user) := Welcomed(members, (c, user))];
    forall k ensures k in b <==> k in members || (k.0 == c && k.1 in [user]) {
      assert k.0 == c && k.1 == user ==> k == (c, user);
    }
    forall k | k in b ensures b[k] == if k.0 == c && k.1 in [user] then Welcomed(members, k) else members[k] {
      assert k.0 == c && k.1 == user ==> k == (c, user);
    }
  }

  lemma InvitesCompose(a: map<(Id, Id), Membership>, b: map<(Id, Id), Membership>, d: map<(Id, Id), Membership>, c: Id, users: seq<Id>)
    requires users != [] && Invited(a, b, c, [users[0]]) && Invited(b, d, c, users[1..])
    ensures Invited(a, d, c, users)
  {
    assert forall x :: x in users <==> x in [users[0]] || x in users[1..];
    forall k | k in d ensures d[k] == if k.0 == c && k.1 in users then Welcomed(a, k) else a[k] {
      assert k in b || (k.0 == c && k.1 in users[1..]);
    }
  }

  lemma {:induction false} AdmitAllInvites(db: Db, c: Id, users: seq<Id>)
    requires c in db.conversations
    ensures Invited(db.members, AdmitAll(db, c, users).members, c, users)
    decreases |users|
  {
    hide AdmitOne, Welcomed;
    if users != [] {
      hide Invited;
      var b := AdmitOne(db, c, users[0]);
      AdmittedRow(db, c, users[0]);
      AdmitInvites(db.members, c, users[0]);
      AdmitAllInvites(b, c, users[1..]);
      InvitesCompose(db.members, b.members, AdmitAll(db, c, users).members, c, users);
    }
  }

  /** Members are added exactly by a moderator, outside a DIRECT, in batches of up to a hundred
      distinct users it may invite; each of them is a current member afterwards, and nobody
      else's row changes. */
  lemma AddMembersAnswers(db: Db, actor: Id, c: Id, users: seq<Id>)
    ensures var o, gate := AddMembersSpec(db, actor, c, users), TxRefusal(db, actor, c, users, true);
      var asked := 1 <= |users| <= 100 && forall i, j | 0 <= i < j < |users| :: users[i] != users[j];
      && (o.result.Ok? <==>
            && asked && db.settings.active && Involves(db, actor, users, true) && Moderates(db, c, actor)
            && db.conversations[c].ctype != Direct)
      && if !asked then o.result == Err(Invalid)
         else if gate.Some? then o.result == Err(gate.value)
         else if db.conversations[c].ctype == Direct then o.result == Err(Unsupported)
         else if !Moderates(db, c, actor) then o.result == Err(Forbidden)
         else Invited(db.members, o.db.members, c, users)
  {
    OrganizerAnswers(db, actor, c, users, true);
    hide TxRefusal, Involves, AdmitAll, Invited;
    if c in db.conversations { AdmitAllInvites(db, c, users); }
  }

  // ----- one member -----

  /** The row a patch asks for. */
  function Amended(m: Membership, p: MemberPatch): Membership {
    Membership(match p.role case Some(r) => r case None => m.role,
               m.left,
               match p.banned case Some(b) => b case None => m.banned,
               match p.muted case Some(b) => b case None => m.muted,
               m.version + 1, m.read, m.delivered)
  }

  predicate Presides(m: Membership) {
    m.role == Moderator && !m.left && !m.banned
  }

  /** Somebody would still moderate `c`. */
  predicate Presided(members: map<(Id, Id), Membership>, c: Id) {
    exists k | k in members :: k.0 == c && Presides(members[k])
  }

  lemma PresidedIs(members: map<(Id, Id), Membership>, c: Id)
    ensures Presided(members, c) <==> Governed(members, c)
  {
    if Presided(members, c) {
      var k :| k in members && k.0 == c && Presides(members[k]);
      assert k == (c, k.1) && members[(c, k.1)].Governs();
    }
    if Governed(members, c) {
      var u :| (c, u) in members && members[(c, u)].Governs();
      assert Presides(members[(c, u)]);
    }
  }

  lemma PatchFlows(db: Db, actor: Id, c: Id, user: Id, p: MemberPatch)
    ensures var o, gate := PatchMemberSpec(db, actor, c, user, p), TxRefusal(db, actor, c, [user], false);
      var governs := p.role != None || p.banned != None;
      if p.expected < 1 || (!governs && p.muted == None) then o.result == Err(Invalid)
      else if gate.Some? then o.result == Err(gate.value)
      else if governs && db.conversations[c].ctype == Direct then o.result == Err(Unsupported)
      else if (p.muted != None && user != actor) || (governs && db.members[(c, actor)].role != Moderator) then o.result == Err(Forbidden)
      else if !CurrentMember(db, c, user) then o.result == Err(NotFound)
      else if db.members[(c, user)].version != p.expected then o.result == Err(Conflict)
      else if p.role == Some(Moderator) && (user !in db.users || db.users[user].kind != Human) then o.result == Err(Forbidden)
      else
        || o.result == Err(LastModerator)
        || (o.result == Ok(Patched(db.members[(c, user)], p)) && o.db.members == db.members[(c, user) := Patched(db.members[(c, user)], p)])
  {
    assert user in [user];
    hide TxRefusal, GovernedWithout, Append;
    if c in db.conversations && (c, user) in db.members { AppendLeavesMembers(db, c, user, Patched(db.members[(c, user)], p), MemberUpdated); }
  }

  lemma AppendLeavesMembers(db: Db, c: Id, user: Id, m: Membership, kind: EventKind)
    requires c in db.conversations
    ensures MemberRows(db, c, user, m, kind).members == db.members[(c, user) := m]
  {
  }

  /** Role and ban are changed by moderators outside a DIRECT, mute by oneself; over the
      current version, to a human if a moderator is made, and never so that nobody moderates. */
  lemma PatchMemberAnswers(db: Db, actor: Id, c: Id, user: Id, p: MemberPatch)
    requires Reachable(db)
    ensures var o, gate := PatchMemberSpec(db, actor, c, user, p), TxRefusal(db, actor, c, [user], false);
      var governs := p.role != None || p.banned != None;
      if p.expected < 1 || (!governs && p.muted == None) then o.result == Err(Invalid)
      else if gate.Some? then o.result == Err(gate.value)
      else if governs && db.conversations[c].ctype == Direct then o.result == Err(Unsupported)
      else if (p.muted != None && user != actor) || (governs && !Moderates(db, c, actor)) then o.result == Err(Forbidden)
      else if !CurrentMember(db, c, user) then o.result == Err(NotFound)
      else if db.members[(c, user)].version != p.expected then o.result == Err(Conflict)
      else if p.role == Some(Moderator) && (user !in db.users || db.users[user].kind != Human) then o.result == Err(Forbidden)
      else
        var m := Amended(db.members[(c, user)], p);
        if db.conversations[c].ctype != Direct && !Presided(db.members[(c, user) := m], c) then o.result == Err(LastModerator)
        else o.result == Ok(m) && o.db.members == db.members[(c, user) := m]
  {
    hide Reachable, TxRefusal, PatchMemberSpec, PatchRefusal, Involves, Presided, Governed;
    OrganizerAnswers(db, actor, c, [user], false);
    DemotionExactly(db, actor, c, user, p);
    PatchFlows(db, actor, c, user, p);
    if c in db.conversations && (c, user) in db.members {
      PresidedIs(db.members[(c, user) := Patched(db.members[(c, user)], p)], c);
    }
  }

  /** A member leaves by itself or by a moderator, outside a DIRECT, and never so that nobody
      moderates; the row stays, marked as left. */
  lemma RemoveMemberAnswers(db: Db, actor: Id, c: Id, user: Id)
    requires Reachable(db)
    ensures var o, gate := RemoveMemberSpec(db, actor, c, user), TxRefusal(db, actor, c, [user], false);
      if gate.Some? then o.result == Err(gate.value)
      else if db.conversations[c].ctype == Direct then o.result == Err(Unsupported)
      else if user != actor && !Moderates(db, c, actor) then o.result == Err(Forbidden)
      else if !CurrentMember(db, c, user) then o.result == Err(NotFound)
      else
        var m := db.members[(c, user)].(left := true, version := db.members[(c, user)].version + 1);
        if !Presided(db.members[(c, user) := m], c) then o.result == Err(LastModerator)
        else o.result == Ok(()) && o.db.members == db.members[(c, user) := m]
  {
    OrganizerAnswers(db, actor, c, [user], false);
    LastModeratorExactly(db, actor, c, user);
    hide Reachable, TxRefusal, GovernedWithout, Append;
    if (c, user) in db.members { PresidedIs(db.members[(c, user) := Departed(db.members[(c, user)])], c); }
  }
}
