/** What the invariants mean to a caller, over every run from an empty project. */
module Guarantees {
  import opened Basics
  import opened Schema
  import opened Access
  import Cryptography
  import opened Commands
  import opened Sending
  import opened Mutations
  import opened Relations
  import opened Recovery
  import opened Memberships
  import opened Attachments
  import opened Deltas
  import opened Invariants
  import opened SendingProofs
  import opened MutationProofs
  import opened MembershipProofs
  import opened OperationsProofs
  import opened Footprints
  import opened Evolution
  import opened System

  // ----- version ledger -----

  /** The log of every conversation is gap-free and equal to the outbox; the k-th event of
      a message carries version k and its row carries their number. */
  lemma VersionLedger(db: Db)
    requires Reachable(db)
    ensures db.outbox == db.events
    ensures forall k :: k in db.events <==> k.0 in db.conversations && 1 <= k.1 <= db.conversations[k.0].eventSequence
    ensures forall m | m in db.messages ::
              && db.messages[m].conversation in db.conversations
              && var c := db.messages[m].conversation;
                 db.messages[m].version == Occurrences(db.events, c, db.conversations[c].eventSequence, m) >= 1
    ensures forall k | k in db.events && MessageState(db.events[k].kind) ::
              && db.events[k].refs.message.Some?
              && db.events[k].refs.version == Occurrences(db.events, k.0, k.1, db.events[k].refs.message.value)
  {
    hide Ordered, Tails, Bodies, Indexed, Receipts, Related, Cursors, Governance, Files, Checkpointed;
    ReachableInv(db);
    forall m | m in db.messages
      ensures db.messages[m].conversation in db.conversations
      ensures var c := db.messages[m].conversation;
        db.messages[m].version == Occurrences(db.events, c, db.conversations[c].eventSequence, m) >= 1
    {
      assert Counted(db.conversations, db.messages, db.events, m);
    }
    forall k | k in db.events && MessageState(db.events[k].kind)
      ensures db.events[k].refs.message.Some?
      ensures db.events[k].refs.version == Occurrences(db.events, k.0, k.1, db.events[k].refs.message.value)
    {
      assert Numbered(db.messages, db.events, k.0, k.1);
    }
  }

  // ----- order and tail pointer -----

  ghost predicate At(db: Db, m: Id, c: Id, s: int) {
    m in db.messages && db.messages[m].conversation == c && db.messages[m].sequence == s
  }

  ghost predicate Filled(db: Db, c: Id, s: int) {
    exists m :: At(db, m, c, s)
  }

  /** Sequences are exactly 1..message_sequence, one message each, and the tail pointer is
      null only when nothing is live and never precedes a live message. */
  lemma SequenceAndTail(db: Db, c: Id)
    requires Reachable(db) && c in db.conversations
    ensures forall s :: 1 <= s <= db.conversations[c].messageSequence <==> Filled(db, c, s)
    ensures forall m, k, s | At(db, m, c, s) && At(db, k, c, s) :: m == k
    ensures match db.conversations[c].last
            case None => forall m | m in db.messages && db.messages[m].conversation == c :: !db.messages[m].Live(db.now)
            case Some(t) =>
              && t in db.messages && db.messages[t].conversation == c && db.messages[t].deletedAt.None?
              && forall m | m in db.messages && db.messages[m].conversation == c && db.messages[m].Live(db.now) ::
                   db.messages[m].sequence <= db.messages[t].sequence
  {
    hide DenseLog, Ledger, Bodies, Indexed, Receipts, Related, Cursors, Governance, Files, Checkpointed;
    ReachableInv(db);
    assert TailAt(db.conversations[c].last, db.messages, db.now, c);
    forall m | m in db.messages ensures Placed(db.messages, db.order, m) {}
    forall s ensures 1 <= s <= db.conversations[c].messageSequence <==> Filled(db, c, s) {
      if 1 <= s <= db.conversations[c].messageSequence {
        assert At(db, db.order[(c, s)], c, s);
      }
    }
  }

  // ----- receipts -----

  /** The bounds of the stored cursors, and the log announces them exactly: each receipt
      event raises its predecessor, and the last one carries the stored values. */
  lemma ReceiptCursors(db: Db, k: (Id, Id))
    requires Reachable(db) && k in db.members
    ensures k.0 in db.conversations
    ensures 0 <= db.members[k].read <= db.members[k].delivered <= db.conversations[k.0].messageSequence
    ensures Announced(db.events, k.0, db.conversations[k.0].eventSequence, k.1) == (db.members[k].read, db.members[k].delivered)
    ensures forall s | (k.0, s) in db.events && IsReceipt(db.events[(k.0, s)], k.1) ::
              Rises(Announced(db.events, k.0, s - 1, k.1), (db.events[(k.0, s)].refs.read, db.events[(k.0, s)].refs.delivered))
  {
    hide DenseLog, Ledger, Ordered, Tails, Bodies, Indexed, Receipts, Related, Governance, Files;
    ReachableInv(db);
    assert CursorOk(db.conversations, k, db.members[k]);
    assert Current(db.conversations, db.members, db.events, k.0, k.1);
    forall s | (k.0, s) in db.events && IsReceipt(db.events[(k.0, s)], k.1)
      ensures Rises(Announced(db.events, k.0, s - 1, k.1), (db.events[(k.0, s)].refs.read, db.events[(k.0, s)].refs.delivered))
    {
      assert Raises(db.events, k.0, s, k.1);
    }
  }

  /** Cursors and member versions only grow over any further run, across leave and rejoin. */
  lemma CursorsOnlyGrow(db: Db, later: seq<Action>, k: (Id, Id))
    requires Reachable(db) && k in db.members
    ensures k in Run(db, later).members && RowMoves(db.members[k], Run(db, later).members[k])
  {
    hide Inv, Run, Checkpointed, Evolves;
    ReachableInv(db);
    RunKeeps(db, later);
  }

  // ----- membership -----

  /** A GROUP or CHANNEL has an active, unbanned, human moderator in every reachable state. */
  lemma AlwaysModerated(db: Db, c: Id)
    requires Reachable(db) && c in db.conversations && db.conversations[c].ctype != Direct
    ensures exists u :: (c, u) in db.members && db.members[(c, u)].Governs() && HumanUser(db.users, u)
  {
    hide DenseLog, Ledger, Ordered, Tails, Bodies, Indexed, Receipts, Related, Cursors, Files, Checkpointed;
    ReachableInv(db);
    assert Governed(db.members, c);
    var u :| (c, u) in db.members && db.members[(c, u)].Governs();
    assert RoleOk(db.conversations, db.users, (c, u), db.members[(c, u)]);
  }

  /** `p` are the two members of the DIRECT `c`. */
  ghost predicate Between(db: Db, c: Id, p: (Id, Id)) {
    && p.0 != p.1 && (forall u :: (c, u) in db.members <==> u == p.0 || u == p.1)
    && Joined(db, c, p.0) && Joined(db, c, p.1)
    && db.members[(c, p.0)].role == Member && db.members[(c, p.1)].role == Member
  }

  /** A DIRECT keeps exactly two active ordinary members. */
  lemma DirectIsAPair(db: Db, c: Id) returns (p: (Id, Id))
    requires Reachable(db) && c in db.conversations && db.conversations[c].ctype == Direct
    ensures p in db.pairs && db.pairs[p] == c && p.0.Below(p.1) && Between(db, c, p)
  {
    hide DenseLog, Ledger, Ordered, Tails, Bodies, Indexed, Receipts, Related, Cursors, Governance, Files, Checkpointed, Reachable;
    ReachableInv(db);
    p := PairOfDirect(db.conversations, db.users, db.members, db.pairs, c);
  }

  lemma PairOfDirect(convs: map<Id, Conversation>, users: map<Id, User>, members: map<(Id, Id), Membership>, pairs: map<(Id, Id), Id>, c: Id)
    returns (p: (Id, Id))
    requires Governance(convs, users, members, pairs) && c in convs && convs[c].ctype == Direct
    ensures p in pairs && pairs[p] == c && PairOk(convs, members, p, c)
    ensures (c, p.0) in members && members[(c, p.0)].role == Member
    ensures (c, p.1) in members && members[(c, p.1)].role == Member
  {
    hide RoleOk, Governed, PairOk;
    assert Paired(pairs, c);
    p :| p in pairs && pairs[p] == c;
    assert PairOk(convs, members, p, c);
    hide Governance;
    PairMembers(convs, members, p, c);
    OrdinaryInDirect(convs, users, members, pairs, (c, p.0));
    OrdinaryInDirect(convs, users, members, pairs, (c, p.1));
  }

  lemma PairMembers(convs: map<Id, Conversation>, members: map<(Id, Id), Membership>, p: (Id, Id), c: Id)
    requires PairOk(convs, members, p, c)
    ensures (c, p.0) in members && (c, p.1) in members
  {
  }

  lemma OrdinaryInDirect(convs: map<Id, Conversation>, users: map<Id, User>, members: map<(Id, Id), Membership>, pairs: map<(Id, Id), Id>, k: (Id, Id))
    requires Governance(convs, users, members, pairs) && k in members && k.0 in convs && convs[k.0].ctype == Direct
    ensures members[k].role == Member
  {
    hide PairOk, Governed, Paired;
    assert RoleOk(convs, users, k, members[k]);
  }

  /** Two users never share a second DIRECT. */
  lemma DirectIsUnique(db: Db, c: Id, d: Id, u: Id, v: Id)
    requires Reachable(db) && c in db.conversations && d in db.conversations && u != v
    requires db.conversations[c].ctype == Direct && db.conversations[d].ctype == Direct
    requires (c, u) in db.members && (c, v) in db.members && (d, u) in db.members && (d, v) in db.members
    ensures c == d
  {
    hide Reachable, Joined;
    var p := DirectIsAPair(db, c);
    var q := DirectIsAPair(db, d);
    assert p == (p.0, p.1) && q == (q.0, q.1);
  }

  /** A departed row as some transaction may leave it. */
  ghost predicate Rejoins(m: Membership, n: Membership) {
    n == m || n == m.(role := Member, left := false, banned := false, version := m.version + 1)
  }

  /** The only transaction that moves a departed member's row re-admits it as an ordinary,
      unbanned member with its cursors and mute; nothing restores a moderator or a ban. */
  lemma RejoinRestoresNothing(db: Db, x: Action, k: (Id, Id))
    requires Reachable(db) && k in db.members && db.members[k].left
    ensures k in Apply(db, x).members && Rejoins(db.members[k], Apply(db, x).members[k])
    ensures !x.AAddMembers? ==> Apply(db, x).members[k] == db.members[k]
  {
    hide Inv, Reachable, Checkpointed, Rejoins, Apply;
    ReachableInv(db);
    if x.AAddMembers? {
      AddMembersRejoins(db, x.actor, x.c, x.users, k);
      hide AddMembersSpec;
      assert Apply(db, x) == AddMembersSpec(db, x.actor, x.c, x.users).db by { ApplyAddMembers(db, x); }
    } else if MemberAction(x) {
      DepartedRowStays(db, x, k);
      StaysIsRejoin(db.members[k]);
    } else {
      OthersLeaveMembers(db, x);
      StaysIsRejoin(db.members[k]);
    }
  }

  lemma ApplyAddMembers(db: Db, x: Action)
    requires x.AAddMembers?
    ensures Apply(db, x) == AddMembersSpec(db, x.actor, x.c, x.users).db
  {
    hide AddMembersSpec;
  }

  lemma StaysIsRejoin(m: Membership)
    ensures Rejoins(m, m)
  {
  }

  lemma AddMembersRejoins(db: Db, actor: Id, c: Id, users: seq<Id>, k: (Id, Id))
    requires k in db.members
    ensures var b := AddMembersSpec(db, actor, c, users).db; k in b.members && Rejoins(db.members[k], b.members[k])
  {
    hide AddMembersSpec, AdmitAll, Rejoins;
    AddMembersShape(db, actor, c, users);
    if AddMembersSpec(db, actor, c, users).result.Ok? { AdmitsAsMember(db, c, users, k); }
    StaysIsRejoin(db.members[k]);
  }

  lemma DepartedKeepsPatch(db: Db, actor: Id, c: Id, user: Id, patch: MemberPatch, k: (Id, Id))
    requires k in db.members && db.members[k].left
    ensures var b := PatchMemberSpec(db, actor, c, user, patch).db; k in b.members && b.members[k] == db.members[k]
  {
    hide PatchMemberSpec, PatchRefusal;
    PatchMemberShape(db, actor, c, user, patch);
  }

  lemma DepartedKeepsRemoval(db: Db, actor: Id, c: Id, user: Id, k: (Id, Id))
    requires k in db.members && db.members[k].left
    ensures var b := RemoveMemberSpec(db, actor, c, user).db; k in b.members && b.members[k] == db.members[k]
  {
    hide RemoveMemberSpec, RemoveRefusal;
    RemoveMemberShape(db, actor, c, user);
  }

  lemma DepartedKeepsReceipt(db: Db, user: Id, c: Id, readKind: bool, sequence: int, k: (Id, Id))
    requires k in db.members && db.members[k].left
    ensures var b := ReceiptSpec(db, user, c, readKind, sequence).db; k in b.members && b.members[k] == db.members[k]
  {
    hide ReceiptSpec;
    ReceiptShape(db, user, c, readKind, sequence);
  }

  /** No other membership operation touches the row of a departed member. */
  lemma DepartedRowStays(db: Db, x: Action, k: (Id, Id))
    requires Inv(db) && MemberAction(x) && !x.AAddMembers? && k in db.members && db.members[k].left
    ensures k in Apply(db, x).members && Apply(db, x).members[k] == db.members[k]
  {
    hide Inv, CreateSpec, PatchMemberSpec, RemoveMemberSpec, ReceiptSpec, CreatedRows, CreateAccepted, PatchSpec, PatchedRows;
    match x {
      case ACreate(actor, ctype, others, id) =>
        CreateShape(db, actor, ctype, others, id);
        if CreateSpec(db, actor, ctype, others, id).result == Ok((id, true)) { CreateLeavesRows(db, actor, ctype, others, id, k); }
      case APatchMember(actor, c, user, patch) => DepartedKeepsPatch(db, actor, c, user, patch, k);
      case ARemoveMember(actor, c, user) => DepartedKeepsRemoval(db, actor, c, user, k);
      case AReceipt(user, c, readKind, sequence) => DepartedKeepsReceipt(db, user, c, readKind, sequence, k);
      case APatch(actor, c, expected) =>
        PatchShape(db, actor, c, expected);
        if PatchSpec(db, actor, c, expected).result.Ok? { PatchedFootprint(db, c); }
    }
  }

  lemma AdmitOneAsMember(db: Db, c: Id, user: Id, k: (Id, Id))
    requires c in db.conversations && k in db.members
    ensures k in AdmitOne(db, c, user).members && Rejoins(db.members[k], AdmitOne(db, c, user).members[k])
    ensures !db.members[k].left ==> AdmitOne(db, c, user).members[k] == db.members[k]
  {
  }

  lemma {:induction false} AdmitsAsMember(db: Db, c: Id, users: seq<Id>, k: (Id, Id))
    requires c in db.conversations && k in db.members
    ensures k in AdmitAll(db, c, users).members && Rejoins(db.members[k], AdmitAll(db, c, users).members[k])
    ensures !db.members[k].left ==> AdmitAll(db, c, users).members[k] == db.members[k]
    decreases |users|
  {
    hide AdmitOne;
    if users != [] {
      AdmitOneAsMember(db, c, users[0], k);
      AdmitsAsMember(AdmitOne(db, c, users[0]), c, users[1..], k);
    }
  }

  lemma CreateLeavesRows(db: Db, actor: Id, ctype: ConversationType, others: seq<Id>, id: Id, k: (Id, Id))
    requires Inv(db) && CreateAccepted(db, actor, ctype, others, id) && k in db.members
    ensures var b := CreatedRows(db, actor, ctype, others, id); k in b.members && b.members[k] == db.members[k]
  {
    EnrolIs(db.members, id, Sort([actor] + others), Governor(ctype, actor));
    assert CursorOk(db.conversations, k, db.members[k]);
  }

  /** Everything but membership operations and receipts leaves the member rows alone. */
  lemma OthersLeaveMembers(db: Db, x: Action)
    requires !MemberAction(x)
    ensures Apply(db, x).members == db.members
  {
    hide Apply;
    if x.ASend? {
      SendActionFootprint(db, x);
    } else if MessageAction(x) {
      MessageActionFootprint(db, x);
    } else if FileAction(x) {
      FileActionFootprint(db, x);
    } else {
      QuietActionFootprint(db, x);
    }
  }

  // ----- refusals -----

  /** The operation answered an error. */
  predicate Refused(db: Db, x: Action) {
    match x
    case ACreate(actor, ctype, others, id) => CreateSpec(db, actor, ctype, others, id).result.Err?
    case APatch(actor, c, expected) => PatchSpec(db, actor, c, expected).result.Err?
    case AAddMembers(actor, c, users) => AddMembersSpec(db, actor, c, users).result.Err?
    case APatchMember(actor, c, user, patch) => PatchMemberSpec(db, actor, c, user, patch).result.Err?
    case ARemoveMember(actor, c, user) => RemoveMemberSpec(db, actor, c, user).result.Err?
    case ASend(user, c, command, system, id, copy) => SendSpec(db, user, c, command, system, id, copy).result.Err?
    case AEdit(user, m, scope, content, expected) => EditSpec(db, user, m, scope, content, expected).result.Err?
    case ADelete(user, m, scope) => DeleteSpec(db, user, m, scope).result.Err?
    case AReact(user, m, scope, raw, add) => ReactSpec(db, user, m, scope, raw, add).result.Err?
    case APin(user, m, scope, add) => SetPinSpec(db, user, m, scope, add).result.Err?
    case AReceipt(user, c, readKind, sequence) => ReceiptSpec(db, user, c, readKind, sequence).result.Err?
    case ABegin(actor, a, o, meta, global) => BeginSpec(db, actor, a, o, meta, global).result.Err?
    case AReady(actor, a) => ReadySpec(db, actor, a).result.Err?
    case _ => false
  }

  lemma SendRefusal(db: Db, user: Id, c: Id, p: Command, system: bool, id: Id, copy: Id)
    requires SendSpec(db, user, c, p, system, id, copy).result.Err?
    ensures SendSpec(db, user, c, p, system, id, copy).db == db
  {
    hide SendBody, ForwardSpec, Cryptography.IndexOf;
    if p.forwardFrom.Some? {
      ForwardLeaves(db, user, c, p, id, copy);
    } else if Validate(db.unicode, p, system) && Cryptography.IndexOf(db.keys, db.unicode, SearchText(p)).Ok? {
      SendBodyShape(db, user, c, p, system, id);
    }
  }

  /** A refused operation changes nothing: no row, no version, no sequence, no event. */
  lemma RefusalChangesNothing(db: Db, x: Action)
    requires Refused(db, x)
    ensures Apply(db, x) == db
  {
    hide CreateSpec, PatchSpec, AddMembersSpec, PatchMemberSpec, RemoveMemberSpec, ReceiptSpec, BeginSpec, ReadySpec;
    hide SendSpec, EditSpec, DeleteSpec, ReactSpec, SetPinSpec;
    match x {
      case ASend(user, c, p, system, id, copy) => SendRefusal(db, user, c, p, system, id, copy);
      case AEdit(_, _, _, _, _) => MessageRefusal(db, x);
      case ADelete(_, _, _) => MessageRefusal(db, x);
      case AReact(_, _, _, _, _) => MessageRefusal(db, x);
      case APin(_, _, _, _) => MessageRefusal(db, x);
      case ABegin(_, _, _, _, _) => UploadRefusal(db, x);
      case AReady(_, _) => UploadRefusal(db, x);
      case ACreate(_, _, _, _) => MemberRefusal(db, x);
      case APatch(_, _, _) => MemberRefusal(db, x);
      case AAddMembers(_, _, _) => MemberRefusal(db, x);
      case APatchMember(_, _, _, _) => MemberRefusal(db, x);
      case ARemoveMember(_, _, _) => MemberRefusal(db, x);
      case AReceipt(_, _, _, _) => MemberRefusal(db, x);
    }
  }

  lemma UploadRefusal(db: Db, x: Action)
    requires Refused(db, x) && (x.ABegin? || x.AReady?)
    ensures Apply(db, x) == db
  {
    hide UploadPolicy, CanBecomeReady, BeginRows, ReadyRows;
  }

  lemma MessageRefusal(db: Db, x: Action)
    requires Refused(db, x) && MessageAction(x)
    ensures Apply(db, x) == db
  {
    hide EditSpec, DeleteSpec, ReactSpec, SetPinSpec, ReactionMoves, PinMoves, EditAccepted, EditDone, DeleteDone;
    match x {
      case AEdit(user, m, scope, content, expected) => EditShape(db, user, m, scope, content, expected);
      case ADelete(user, m, scope) => DeleteShape(db, user, m, scope);
      case AReact(user, m, scope, raw, add) => ReactShape(db, user, m, scope, raw, add);
      case APin(user, m, scope, add) => SetPinShape(db, user, m, scope, add);
    }
  }

  lemma MemberRefusal(db: Db, x: Action)
    requires Refused(db, x) && MemberAction(x)
    ensures Apply(db, x) == db
  {
    hide CreateSpec, PatchSpec, AddMembersSpec, PatchMemberSpec, RemoveMemberSpec, ReceiptSpec;
    hide CreateAccepted, CreatedRows, AdmitAll, PatchedRows, MemberRows, ReceiptRows;
    match x {
      case ACreate(actor, ctype, others, id) => CreateShape(db, actor, ctype, others, id);
      case APatch(actor, c, expected) => PatchShape(db, actor, c, expected);
      case AAddMembers(actor, c, users) => AddMembersShape(db, actor, c, users);
      case APatchMember(actor, c, user, patch) => PatchMemberShape(db, actor, c, user, patch);
      case ARemoveMember(actor, c, user) => RemoveMemberShape(db, actor, c, user);
      case AReceipt(user, c, readKind, sequence) => ReceiptShape(db, user, c, readKind, sequence);
    }
  }

  // ----- the last moderator -----

  /** Who governs after one row that cannot govern was written. */
  lemma StillGoverned(members: map<(Id, Id), Membership>, c: Id, user: Id, m: Membership)
    requires !m.Governs()
    ensures Governed(members[(c, user) := m], c) <==> GovernedBy(members, (c, user))
    ensures Governed(members, c) && ((c, user) in members ==> !members[(c, user)].Governs()) ==> GovernedBy(members, (c, user))
  {
    var after := members[(c, user) := m];
    if Governed(after, c) {
      var u :| (c, u) in after && after[(c, u)].Governs();
      assert u != user && members[(c, u)].Governs();
    }
    if GovernedBy(members, (c, user)) {
      var u :| u != user && (c, u) in members && members[(c, u)].Governs();
      assert after[(c, u)] == members[(c, u)];
    }
    if Governed(members, c) && ((c, user) in members ==> !members[(c, user)].Governs()) {
      var u :| (c, u) in members && members[(c, u)].Governs();
      assert u != user;
    }
  }

  lemma GatesNeverBlameModerators(db: Db, actor: Id, c: Id, others: seq<Id>, inviting: bool)
    ensures TxRefusal(db, actor, c, others, inviting) != Some(LastModerator)
  {
  }

  /** Every other condition of a removal. */
  predicate RemovalAdmitted(db: Db, actor: Id, c: Id, user: Id) {
    && TxRefusal(db, actor, c, [user], false).None? && db.conversations[c].ctype != Direct
    && (user == actor || db.members[(c, actor)].role == Moderator) && Joined(db, c, user)
  }

  /** A removal that nothing else forbids succeeds exactly when somebody governs afterwards,
      and is refused as LAST_MODERATOR exactly when nobody would. */
  lemma LastModeratorExactly(db: Db, actor: Id, c: Id, user: Id)
    requires Reachable(db)
    ensures var r := RemoveMemberSpec(db, actor, c, user).result;
      && (r.Ok? <==> RemovalAdmitted(db, actor, c, user) && Governed(db.members[(c, user) := Departed(db.members[(c, user)])], c))
      && (r == Err(LastModerator) <==> RemovalAdmitted(db, actor, c, user) && !Governed(db.members[(c, user) := Departed(db.members[(c, user)])], c))
  {
    hide Reachable, Checkpointed, DenseLog, Ledger, Ordered, Tails, Bodies, Indexed, Receipts, Related, Cursors, Files, TxRefusal;
    ReachableInv(db);
    GatesNeverBlameModerators(db, actor, c, [user], false);
    if RemovalAdmitted(db, actor, c, user) {
      GovernedElsewhere(db, c, user);
      assert Governed(db.members, c);
      StillGoverned(db.members, c, user, Departed(db.members[(c, user)]));
    }
  }

  /** Every other condition of a member patch. */
  predicate PatchAdmitted(db: Db, actor: Id, c: Id, user: Id, p: MemberPatch) {
    && p.Valid() && TxRefusal(db, actor, c, [user], false).None?
    && (p.role.Some? || p.banned.Some? ==> db.conversations[c].ctype != Direct && db.members[(c, actor)].role == Moderator)
    && (p.muted.Some? ==> user == actor)
    && Joined(db, c, user) && db.members[(c, user)].version == p.expected
    && (p.role == Some(Moderator) ==> user in db.users && db.users[user].kind == Human)
  }

  /** The conversation is a DIRECT, or somebody governs it with the patched row. */
  ghost predicate GovernedAfter(db: Db, c: Id, user: Id, p: MemberPatch)
    requires c in db.conversations && (c, user) in db.members
  {
    db.conversations[c].ctype == Direct || Governed(db.members[(c, user) := Patched(db.members[(c, user)], p)], c)
  }

  /** A row whose patch does not demote it governs after as before. */
  lemma PatchGoverns(members: map<(Id, Id), Membership>, c: Id, user: Id, p: MemberPatch)
    requires (c, user) in members && !members[(c, user)].left && Governed(members, c)
    requires !(members[(c, user)].role == Moderator && p.Demotes())
    ensures Governed(members[(c, user) := Patched(members[(c, user)], p)], c)
  {
    var after := members[(c, user) := Patched(members[(c, user)], p)];
    var u :| (c, u) in members && members[(c, u)].Governs();
    assert after[(c, u)].Governs();
  }

  /** The same for every patch of role, ban and mute together. */
  lemma DemotionExactly(db: Db, actor: Id, c: Id, user: Id, p: MemberPatch)
    requires Reachable(db)
    ensures var r := PatchMemberSpec(db, actor, c, user, p).result;
      && (r.Ok? <==> PatchAdmitted(db, actor, c, user, p) && GovernedAfter(db, c, user, p))
      && (r == Err(LastModerator) <==> PatchAdmitted(db, actor, c, user, p) && !GovernedAfter(db, c, user, p))
  {
    hide Reachable, Checkpointed, DenseLog, Ledger, Ordered, Tails, Bodies, Indexed, Receipts, Related, Cursors, Files, TxRefusal;
    ReachableInv(db);
    GatesNeverBlameModerators(db, actor, c, [user], false);
    assert user in [user];
    if PatchAdmitted(db, actor, c, user, p) && db.conversations[c].ctype != Direct {
      GovernedElsewhere(db, c, user);
      assert Governed(db.members, c);
      var m := db.members[(c, user)];
      if m.role == Moderator && p.Demotes() {
        StillGoverned(db.members, c, user, Patched(m, p));
      } else {
        PatchGoverns(db.members, c, user, p);
      }
    }
  }
}
