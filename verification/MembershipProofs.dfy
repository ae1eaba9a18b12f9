/** Receipts, membership changes and new conversations keep every invariant. */
module MembershipProofs {
  import opened Basics
  import opened Schema
  import opened Access
  import opened Recovery
  import opened Memberships
  import opened Deltas
  import opened Invariants

  // ----- one event that names no message -----

  lemma AppendOther(a: Db, c: Id, e: Envelope)
    requires c in a.conversations && !MessageState(e.kind)
    ensures OtherWrite(a, Append(a, c, e), c, e)
    ensures SameConversations(a.conversations, Append(a, c, e).conversations)
  {
  }

  lemma AppendKeeps(a: Db, c: Id, e: Envelope)
    requires Inv(a) && c in a.conversations && !MessageState(e.kind)
    ensures Inv(Append(a, c, e))
  {
    hide DenseLog, Ledger, Ordered, Tails, Bodies, Indexed, Receipts, Related, Cursors, Governance, Files, SameConversations;
    var b := Append(a, c, e);
    AppendOther(a, c, e);
    AppendKeepsDense(a, b, c, e);
    OtherWriteKeepsLedger(a, b, c, e);
    ConversationFrame(a, b);
  }

  lemma MembersOther(a: Db, members: map<(Id, Id), Membership>, c: Id, e: Envelope)
    requires c in a.conversations && !MessageState(e.kind)
    ensures OtherWrite(a, Append(a.(members := members), c, e), c, e)
  {
  }

  lemma MembersKeep(a: Db, members: map<(Id, Id), Membership>, c: Id, e: Envelope)
    requires Inv(a) && c in a.conversations && !MessageState(e.kind)
    requires Cursors(a.conversations, members) && Governance(a.conversations, a.users, members, a.pairs)
    ensures Inv(Append(a.(members := members), c, e))
  {
    hide DenseLog, Ledger, Ordered, Tails, BodyOk, Indexed, Receipts, Related, Cursors, Governance, Files, Append;
    AppendKeeps(a.(members := members), c, e);
  }

  /** When one membership row may be written without losing governance. */
  ghost predicate RowFits(convs: map<Id, Conversation>, users: map<Id, User>, members: map<(Id, Id), Membership>, k: (Id, Id), m: Membership) {
    && k.0 in convs && RoleOk(convs, users, k, m)
    && if convs[k.0].ctype == Direct then k in members && m.left == members[k].left
       else m.Governs() || (k in members ==> !members[k].Governs()) || GovernedBy(members, k)
  }

  /** Somebody else governs. */
  ghost predicate GovernedBy(members: map<(Id, Id), Membership>, k: (Id, Id)) {
    exists u :: u != k.1 && (k.0, u) in members && members[(k.0, u)].Governs()
  }

  lemma RowKeepsGovernance(convs: map<Id, Conversation>, users: map<Id, User>, members: map<(Id, Id), Membership>, pairs: map<(Id, Id), Id>, k: (Id, Id), m: Membership)
    requires Governance(convs, users, members, pairs) && RowFits(convs, users, members, k, m)
    ensures Governance(convs, users, members[k := m], pairs)
  {
    var after := members[k := m];
    forall l | l in after ensures RoleOk(convs, users, l, after[l]) {
      if l != k { assert RoleOk(convs, users, l, members[l]); }
    }
    forall c | c in convs && convs[c].ctype != Direct ensures Governed(after, c) {
      assert Governed(members, c);
      var u :| (c, u) in members && members[(c, u)].Governs();
      if c == k.0 && u == k.1 {
        if m.Governs() {
          assert after[(c, u)] == m;
        } else {
          var v :| v != k.1 && (k.0, v) in members && members[(k.0, v)].Governs();
          assert after[(c, v)] == members[(c, v)];
        }
      } else {
        assert after[(c, u)] == members[(c, u)];
      }
    }
    forall p | p in pairs ensures PairOk(convs, after, p, pairs[p]) {
      assert PairOk(convs, members, p, pairs[p]);
      forall u ensures (pairs[p], u) in after <==> u == p.0 || u == p.1 {
        assert (pairs[p], u) in members <==> u == p.0 || u == p.1;
      }
    }
  }

  lemma RowKeeps(a: Db, k: (Id, Id), m: Membership, e: Envelope)
    requires Inv(a) && !MessageState(e.kind)
    requires RowFits(a.conversations, a.users, a.members, k, m) && CursorOk(a.conversations, k, m)
    ensures var b := Append(a.(members := a.members[k := m]), k.0, e);
      Inv(b) && OtherWrite(a, b, k.0, e)
  {
    RowKeepsGovernance(a.conversations, a.users, a.members, a.pairs, k, m);
    var members := a.members[k := m];
    forall l | l in members ensures CursorOk(a.conversations, l, members[l]) {
      if l != k { assert CursorOk(a.conversations, l, a.members[l]); }
    }
    MembersOther(a, members, k.0, e);
    MembersKeep(a, members, k.0, e);
  }

  // ----- Receipt -----

  lemma ReceiptShape(db: Db, user: Id, c: Id, readKind: bool, sequence: int)
    ensures var o := ReceiptSpec(db, user, c, readKind, sequence);
      if o.result.Err? then o.db == db
      else
        && c in db.conversations && Joined(db, c, user)
        && 0 <= sequence <= db.conversations[c].messageSequence
        && var m := db.members[(c, user)];
           var next := Advanced(m, readKind, sequence);
           if next == m then o.db == db
           else o.db == ReceiptRows(db, user, c, readKind, Receipted(m, readKind, sequence))
  {
  }

  function Receipted(m: Membership, readKind: bool, sequence: int): Membership {
    Advanced(m, readKind, sequence).(version := m.version + 1)
  }

  function ReceiptKind(readKind: bool): EventKind {
    if readKind then MessageRead else MessageDelivered
  }

  lemma ReceiptFits(db: Db, user: Id, c: Id, readKind: bool, sequence: int)
    requires Inv(db) && c in db.conversations && (c, user) in db.members
    requires 0 <= sequence <= db.conversations[c].messageSequence
    ensures var next := Receipted(db.members[(c, user)], readKind, sequence);
      RowFits(db.conversations, db.users, db.members, (c, user), next) && CursorOk(db.conversations, (c, user), next)
  {
    var m := db.members[(c, user)];
    assert CursorOk(db.conversations, (c, user), m) && RoleOk(db.conversations, db.users, (c, user), m);
  }

  lemma ReceiptKeeps(db: Db, user: Id, c: Id, readKind: bool, sequence: int)
    requires Inv(db) && c in db.conversations && (c, user) in db.members
    requires 0 <= sequence <= db.conversations[c].messageSequence
    ensures var stored := Receipted(db.members[(c, user)], readKind, sequence);
      var b := ReceiptRows(db, user, c, readKind, stored);
      Inv(b) && OtherWrite(db, b, c, Envelope(ReceiptKind(readKind), ReceiptRefs(user, stored)))
  {
    hide Inv, OtherWrite, RowFits, CursorOk;
    var stored := Receipted(db.members[(c, user)], readKind, sequence);
    ReceiptFits(db, user, c, readKind, sequence);
    RowKeeps(db, (c, user), stored, Envelope(ReceiptKind(readKind), ReceiptRefs(user, stored)));
  }

  // ----- PatchMember, RemoveMember -----

  lemma GovernedElsewhere(db: Db, c: Id, user: Id)
    ensures GovernedWithout(db, c, user) <==> GovernedBy(db.members, (c, user))
  {
    if GovernedWithout(db, c, user) {
      var k :| k in db.members && k.0 == c && k.1 != user && db.members[k].Governs();
      assert k == (c, k.1);
    }
    if GovernedBy(db.members, (c, user)) {
      var u :| u != user && (c, u) in db.members && db.members[(c, u)].Governs();
      assert (c, u).0 == c;
    }
  }

  lemma PatchMemberShape(db: Db, actor: Id, c: Id, user: Id, p: MemberPatch)
    ensures var o := PatchMemberSpec(db, actor, c, user, p);
      if o.result.Err? then o.db == db
      else
        && c in db.conversations && Joined(db, c, user) && Joined(db, c, actor) && user in db.users
        && PatchRefusal(db, actor, c, user, p).None?
        && o.db == MemberRows(db, c, user, Patched(db.members[(c, user)], p), MemberUpdated)
  {
    assert user in [user];
  }

  lemma PatchFits(db: Db, actor: Id, c: Id, user: Id, p: MemberPatch)
    requires Governance(db.conversations, db.users, db.members, db.pairs)
    requires c in db.conversations && Joined(db, c, user) && Joined(db, c, actor) && user in db.users
    requires PatchRefusal(db, actor, c, user, p).None?
    ensures RowFits(db.conversations, db.users, db.members, (c, user), Patched(db.members[(c, user)], p))
  {
    GovernedElsewhere(db, c, user);
    assert RoleOk(db.conversations, db.users, (c, user), db.members[(c, user)]);
  }

  lemma PatchMemberKeeps(db: Db, actor: Id, c: Id, user: Id, p: MemberPatch)
    requires Inv(db) && c in db.conversations && Joined(db, c, user) && Joined(db, c, actor) && user in db.users
    requires PatchRefusal(db, actor, c, user, p).None?
    ensures var b := MemberRows(db, c, user, Patched(db.members[(c, user)], p), MemberUpdated);
      Inv(b) && OtherWrite(db, b, c, Envelope(MemberUpdated, UserRefs(user)))
  {
    PatchFits(db, actor, c, user, p);
    assert CursorOk(db.conversations, (c, user), db.members[(c, user)]);
    RowKeeps(db, (c, user), Patched(db.members[(c, user)], p), Envelope(MemberUpdated, UserRefs(user)));
  }

  lemma RemoveMemberShape(db: Db, actor: Id, c: Id, user: Id)
    ensures var o := RemoveMemberSpec(db, actor, c, user);
      if o.result.Err? then o.db == db
      else
        && c in db.conversations && Joined(db, c, actor) && Joined(db, c, user)
        && RemoveRefusal(db, actor, c, user).None?
        && o.db == MemberRows(db, c, user, Departed(db.members[(c, user)]), MemberLeft)
  {
  }

  lemma RemoveMemberKeeps(db: Db, actor: Id, c: Id, user: Id)
    requires Inv(db) && c in db.conversations && Joined(db, c, actor) && Joined(db, c, user)
    requires RemoveRefusal(db, actor, c, user).None?
    ensures var b := MemberRows(db, c, user, Departed(db.members[(c, user)]), MemberLeft);
      Inv(b) && OtherWrite(db, b, c, Envelope(MemberLeft, UserRefs(user)))
  {
    GovernedElsewhere(db, c, user);
    var m := db.members[(c, user)];
    assert RoleOk(db.conversations, db.users, (c, user), m) && CursorOk(db.conversations, (c, user), m);
    RowKeeps(db, (c, user), Departed(m), Envelope(MemberLeft, UserRefs(user)));
  }

  // ----- AddMembers -----

  lemma AddMembersShape(db: Db, actor: Id, c: Id, users: seq<Id>)
    ensures var o := AddMembersSpec(db, actor, c, users);
      if o.result.Ok? then c in db.conversations && db.conversations[c].ctype != Direct && o.db == AdmitAll(db, c, users) else o.db == db
  {
  }

  lemma AdmitFits(db: Db, c: Id, user: Id)
    requires Inv(db) && c in db.conversations && db.conversations[c].ctype != Direct && !Joined(db, c, user)
    ensures RowFits(db.conversations, db.users, db.members, (c, user), Admitted(db, c, user))
    ensures CursorOk(db.conversations, (c, user), Admitted(db, c, user))
  {
    if (c, user) in db.members {
      var m := db.members[(c, user)];
      assert RoleOk(db.conversations, db.users, (c, user), m) && CursorOk(db.conversations, (c, user), m);
    }
  }

  lemma AdmitKeeps(db: Db, c: Id, user: Id)
    requires Inv(db) && c in db.conversations && db.conversations[c].ctype != Direct
    ensures var b := AdmitOne(db, c, user);
      && Inv(b) && b.conversations[c].ctype != Direct
      && (if Joined(db, c, user) then b == db else OtherWrite(db, b, c, Envelope(MembersAdded, UserRefs(user))))
  {
    hide Inv, OtherWrite, RowFits, CursorOk;
    if !Joined(db, c, user) {
      AdmitFits(db, c, user);
      RowKeeps(db, (c, user), Admitted(db, c, user), Envelope(MembersAdded, UserRefs(user)));
    }
  }

  lemma {:induction false} AdmitAllKeeps(db: Db, c: Id, users: seq<Id>)
    requires Inv(db) && c in db.conversations && db.conversations[c].ctype != Direct
    ensures Inv(AdmitAll(db, c, users))
    decreases |users|
  {
    if users != [] {
      AdmitKeeps(db, c, users[0]);
      AdmitAllKeeps(AdmitOne(db, c, users[0]), c, users[1..]);
    }
  }

  // ----- PatchConversation -----

  lemma PatchShape(db: Db, actor: Id, c: Id, expected: int)
    ensures var o := PatchSpec(db, actor, c, expected);
      if o.result.Ok? then c in db.conversations && o.db == PatchedRows(db, c) else o.db == db
  {
  }

  function Retitled(db: Db, c: Id): Db
    requires c in db.conversations
  {
    var conv := db.conversations[c];
    db.(conversations := db.conversations[c := conv.(version := conv.version + 1)])
  }

  lemma PatchOther(db: Db, c: Id)
    requires c in db.conversations
    ensures OtherWrite(db, PatchedRows(db, c), c, Envelope(ConversationUpdated, NOTHING))
  {
  }

  lemma PatchKeeps(db: Db, c: Id)
    requires Inv(db) && c in db.conversations
    ensures Inv(PatchedRows(db, c))
    ensures OtherWrite(db, PatchedRows(db, c), c, Envelope(ConversationUpdated, NOTHING))
  {
    hide Inv, OtherWrite, Append;
    PatchOther(db, c);
    RetitleKeeps(db, c, Retitled(db, c));
    AppendKeeps(Retitled(db, c), c, Envelope(ConversationUpdated, NOTHING));
  }

  lemma RetitleKeeps(a: Db, c: Id, b: Db)
    requires Inv(a) && c in a.conversations
    requires b == Retitled(a, c)
    ensures Inv(b)
  {
    hide Ordered, Tails, Bodies, Indexed, Receipts, Related, Cursors, Governance, Files;
    ConversationFrame(a, b);
    assert forall m | m in a.messages :: Counted(a.conversations, a.messages, a.events, m);
    assert forall k, s :: Numbered(a.messages, a.events, k, s);
  }

  // ----- Create -----

  lemma {:induction false} EnrolIs(members: map<(Id, Id), Membership>, c: Id, ids: seq<Id>, governor: Option<Id>)
    ensures var r := Enrol(members, c, ids, governor);
      && (forall k :: k in r <==> k in members || (k.0 == c && k.1 in ids))
      && (forall k | k in r ::
            r[k] == if k.0 == c && k.1 in ids then NEWCOMER.(role := if Some(k.1) == governor then Moderator else Member) else members[k])
    decreases |ids|
  {
    if ids != [] {
      var role := if Some(ids[0]) == governor then Moderator else Member;
      EnrolIs(members[(c, ids[0]) := NEWCOMER.(role := role)], c, ids[1..], governor);
    }
  }

  ghost predicate CreateAccepted(db: Db, actor: Id, ctype: ConversationType, others: seq<Id>, id: Id) {
    && ValidCreate(actor, ctype, others) && id !in db.conversations
    && HumanUser(db.users, actor)
    && (ctype == Direct ==> PairOf(actor, others[0]) !in db.pairs)
  }

  lemma CreateShape(db: Db, actor: Id, ctype: ConversationType, others: seq<Id>, id: Id)
    ensures var o := CreateSpec(db, actor, ctype, others, id);
      if o.result == Ok((id, true)) then CreateAccepted(db, actor, ctype, others, id) && o.db == CreatedRows(db, actor, ctype, others, id)
      else o.db == db
  {
    assert actor in [actor] + others;
    assert actor in Sort([actor] + others);
  }

  function Governor(ctype: ConversationType, actor: Id): Option<Id> {
    if ctype == Direct then None else Some(actor)
  }

  lemma CreatedGovernance(convs: map<Id, Conversation>, users: map<Id, User>, members: map<(Id, Id), Membership>, pairs: map<(Id, Id), Id>,
                          actor: Id, ctype: ConversationType, others: seq<Id>, id: Id, after: map<Id, Conversation>)
    requires Governance(convs, users, members, pairs) && id !in convs && HumanUser(users, actor)
    requires ValidCreate(actor, ctype, others)
    requires after.Keys == convs.Keys + {id} && after[id].ctype == ctype && forall c | c in convs :: after[c] == convs[c]
    ensures var enrolled := Enrol(members, id, Sort([actor] + others), Governor(ctype, actor));
      var linked := if ctype == Direct then pairs[PairOf(actor, others[0]) := id] else pairs;
      (ctype == Direct ==> PairOf(actor, others[0]) !in pairs) ==> Governance(after, users, enrolled, linked)
  {
    var ids := Sort([actor] + others);
    var enrolled := Enrol(members, id, ids, Governor(ctype, actor));
    var linked := if ctype == Direct then pairs[PairOf(actor, others[0]) := id] else pairs;
    EnrolIs(members, id, ids, Governor(ctype, actor));
    assert actor in [actor] + others;
    forall k | k in enrolled ensures RoleOk(after, users, k, enrolled[k]) {
      if k in members { assert RoleOk(convs, users, k, members[k]); }
    }
    forall c | c in after && after[c].ctype != Direct ensures Governed(enrolled, c) {
      if c == id {
        assert (id, actor) in enrolled && enrolled[(id, actor)].Governs();
      } else {
        assert Governed(members, c);
        var u :| (c, u) in members && members[(c, u)].Governs();
        assert (c, u) in enrolled && enrolled[(c, u)].Governs();
      }
    }
    if ctype == Direct ==> PairOf(actor, others[0]) !in pairs {
      CreatedPairs(convs, users, members, pairs, actor, ctype, others, id, after);
    }
  }

  lemma CreatedPair(members: map<(Id, Id), Membership>, actor: Id, other: Id, id: Id, after: map<Id, Conversation>)
    requires actor != other && id in after && after[id].ctype == Direct && forall k | k in members :: k.0 != id
    ensures PairOk(after, Enrol(members, id, Sort([actor, other]), None), PairOf(actor, other), id)
  {
    EnrolIs(members, id, Sort([actor, other]), None);
    assert forall u :: u in [actor, other] <==> u == actor || u == other;
  }

  lemma PairIsConversation(convs: map<Id, Conversation>, members: map<(Id, Id), Membership>, p: (Id, Id), c: Id)
    requires PairOk(convs, members, p, c)
    ensures c in convs
  {
  }

  lemma KeptPair(convs: map<Id, Conversation>, members: map<(Id, Id), Membership>, p: (Id, Id), kept: Id, id: Id, ids: seq<Id>, governor: Option<Id>, after: map<Id, Conversation>)
    requires PairOk(convs, members, p, kept) && id !in convs && kept in after && after[kept] == convs[kept]
    ensures PairOk(after, Enrol(members, id, ids, governor), p, kept)
  {
    EnrolIs(members, id, ids, governor);
    assert forall u :: (kept, u) in members <==> u == p.0 || u == p.1;
  }

  lemma CreatedPairs(convs: map<Id, Conversation>, users: map<Id, User>, members: map<(Id, Id), Membership>, pairs: map<(Id, Id), Id>,
                     actor: Id, ctype: ConversationType, others: seq<Id>, id: Id, after: map<Id, Conversation>)
    requires Governance(convs, users, members, pairs) && id !in convs
    requires ValidCreate(actor, ctype, others) && (ctype == Direct ==> PairOf(actor, others[0]) !in pairs)
    requires after.Keys == convs.Keys + {id} && after[id].ctype == ctype && forall c | c in convs :: after[c] == convs[c]
    ensures var enrolled := Enrol(members, id, Sort([actor] + others), Governor(ctype, actor));
      var linked := if ctype == Direct then pairs[PairOf(actor, others[0]) := id] else pairs;
      && (forall p | p in linked :: PairOk(after, enrolled, p, linked[p]))
      && (forall c | c in after && after[c].ctype == Direct :: Paired(linked, c))
  {
    hide Enrol, Sort, PairOk, PairOf, Governed;
    var ids := Sort([actor] + others);
    var enrolled := Enrol(members, id, ids, Governor(ctype, actor));
    var linked := if ctype == Direct then pairs[PairOf(actor, others[0]) := id] else pairs;
    forall k | k in members ensures k.0 != id { assert RoleOk(convs, users, k, members[k]); }
    forall p | p in linked ensures PairOk(after, enrolled, p, linked[p]) {
      if ctype != Direct || p != PairOf(actor, others[0]) {
        assert pairs[p] in convs by { assert PairOk(convs, members, p, pairs[p]); PairIsConversation(convs, members, p, pairs[p]); }
        KeptPair(convs, members, p, pairs[p], id, ids, Governor(ctype, actor), after);
      } else {
        assert [actor] + others == [actor, others[0]];
        CreatedPair(members, actor, others[0], id, after);
      }
    }
    forall c | c in after && after[c].ctype == Direct ensures Paired(linked, c) {
      if c == id {
        assert linked[PairOf(actor, others[0])] == id;
      } else {
        assert Paired(pairs, c);
        var p :| p in pairs && pairs[p] == c;
        assert p in linked && linked[p] == c;
      }
    }
  }

  lemma CreatedOpens(db: Db, actor: Id, ctype: ConversationType, others: seq<Id>, id: Id)
    requires CreateAccepted(db, actor, ctype, others, id)
    ensures var b := CreatedRows(db, actor, ctype, others, id);
      && Opened(db, b, id, Envelope(ConversationCreated, NOTHING))
      && b.conversations[id] == Conversation(ctype, 1, 0, 1, None)
  {
  }

  lemma CreatedOrder(convs: map<Id, Conversation>, messages: map<Id, Row>, order: map<(Id, int), Id>, now: Time, id: Id, after: map<Id, Conversation>)
    requires Ordered(convs, messages, order) && Tails(convs, messages, now) && id !in convs
    requires after.Keys == convs.Keys + {id} && after[id].messageSequence == 0 && after[id].last.None?
    requires forall c | c in convs :: after[c] == convs[c]
    ensures Ordered(after, messages, order) && Tails(after, messages, now)
  {
    forall m | m in messages ensures Placed(messages, order, m) && messages[m].conversation != id {
      assert Placed(messages, order, m);
    }
    forall c | c in after ensures TailAt(after[c].last, messages, now, c) {
      if c != id { assert TailAt(convs[c].last, messages, now, c); }
    }
  }

  lemma CreatedCursors(convs: map<Id, Conversation>, members: map<(Id, Id), Membership>, id: Id, ids: seq<Id>, governor: Option<Id>, after: map<Id, Conversation>)
    requires Cursors(convs, members) && id !in convs
    requires after.Keys == convs.Keys + {id} && after[id].messageSequence == 0 && forall c | c in convs :: after[c] == convs[c]
    ensures Cursors(after, Enrol(members, id, ids, governor))
  {
    var enrolled := Enrol(members, id, ids, governor);
    EnrolIs(members, id, ids, governor);
    forall k | k in enrolled ensures CursorOk(after, k, enrolled[k]) {
      if k in members { assert CursorOk(convs, k, members[k]); }
    }
  }

  lemma CreateKeeps(db: Db, actor: Id, ctype: ConversationType, others: seq<Id>, id: Id)
    requires Inv(db) && CreateAccepted(db, actor, ctype, others, id)
    ensures Inv(CreatedRows(db, actor, ctype, others, id))
  {
    hide DenseLog, Ledger, Ordered, Tails, Bodies, Indexed, Receipts, Related, Cursors, Governance, Files, Enrol;
    var b := CreatedRows(db, actor, ctype, others, id);
    CreatedOpens(db, actor, ctype, others, id);
    CreatedOrder(db.conversations, db.messages, db.order, db.now, id, b.conversations);
    OpenedKeepsLog(db, b, id, Envelope(ConversationCreated, NOTHING));
    CreatedGovernance(db.conversations, db.users, db.members, db.pairs, actor, ctype, others, id, b.conversations);
    CreatedCursors(db.conversations, db.members, id, Sort([actor] + others), Governor(ctype, actor), b.conversations);
  }
}
