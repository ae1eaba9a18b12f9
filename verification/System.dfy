/** The service as a state machine: one action per committed transaction, any number of
    them in any order, and what every reachable database satisfies. */
module System {
  import opened Basics
  import opened Cryptography
  import opened Text
  import opened Schema
  import opened Commands
  import opened Access
  import opened Sending
  import opened Mutations
  import opened Relations
  import opened Recovery
  import opened Memberships
  import opened Attachments
  import opened Deltas
  import opened Invariants
  import opened SendingProofs
  import opened MutationProofs
  import opened MembershipProofs
  import opened OperationsProofs
  import opened Footprints
  import opened Evolution

  datatype Action =
    | ACreate(actor: Id, ctype: ConversationType, others: seq<Id>, id: Id)
    | APatch(actor: Id, c: Id, expected: int)
    | AAddMembers(actor: Id, c: Id, users: seq<Id>)
    | APatchMember(actor: Id, c: Id, user: Id, patch: MemberPatch)
    | ARemoveMember(actor: Id, c: Id, user: Id)
    | ASend(user: Id, c: Id, command: Command, system: bool, id: Id, copy: Id)
    | AEdit(user: Id, m: Id, scope: Option<Id>, content: Content, expected: int)
    | ADelete(user: Id, m: Id, scope: Option<Id>)
    | AReact(user: Id, m: Id, scope: Option<Id>, raw: string, add: bool)
    | APin(user: Id, m: Id, scope: Option<Id>, add: bool)
    | AReceipt(user: Id, c: Id, readKind: bool, sequence: int)
    | ABegin(actor: Id, a: Id, o: Id, meta: Meta, global: int)
    | AReady(actor: Id, a: Id)
    | AClaim(o: Id)
    | AFinish(o: Id)
    | AConfigure(settings: Settings)
    | ARotate(keys: Keys)
    | AUser(id: Id, u: User)
    | ATick(t: Time)

  /** One transaction. Configuration, rotation and user changes outside what the service
      accepts, and a clock moving backwards, do not happen. */
  function Apply(db: Db, x: Action): Db {
    match x
    case ACreate(actor, ctype, others, id) => CreateSpec(db, actor, ctype, others, id).db
    case APatch(actor, c, expected) => PatchSpec(db, actor, c, expected).db
    case AAddMembers(actor, c, users) => AddMembersSpec(db, actor, c, users).db
    case APatchMember(actor, c, user, patch) => PatchMemberSpec(db, actor, c, user, patch).db
    case ARemoveMember(actor, c, user) => RemoveMemberSpec(db, actor, c, user).db
    case ASend(user, c, command, system, id, copy) => SendSpec(db, user, c, command, system, id, copy).db
    case AEdit(user, m, scope, content, expected) => EditSpec(db, user, m, scope, content, expected).db
    case ADelete(user, m, scope) => DeleteSpec(db, user, m, scope).db
    case AReact(user, m, scope, raw, add) => ReactSpec(db, user, m, scope, raw, add).db
    case APin(user, m, scope, add) => SetPinSpec(db, user, m, scope, add).db
    case AReceipt(user, c, readKind, sequence) => ReceiptSpec(db, user, c, readKind, sequence).db
    case ABegin(actor, a, o, meta, global) => BeginSpec(db, actor, a, o, meta, global).db
    case AReady(actor, a) => ReadySpec(db, actor, a).db
    case AClaim(o) => if Claimable(db, o) then ClaimRows(db, o) else db
    case AFinish(o) => FinishRows(db, o)
    case AConfigure(settings) => if settings.Valid() then db.(settings := settings) else db
    case ARotate(keys) => if db.keys.RetainedBy(keys) then db.(keys := keys) else db
    case AUser(id, u) => if id in db.users && db.users[id].kind != u.kind then db else db.(users := db.users[id := u])
    case ATick(t) => if db.now <= t then db.(now := t) else db
  }

  function Run(db: Db, actions: seq<Action>): Db
    decreases |actions|
  {
    if actions == [] then db else Run(Apply(db, actions[0]), actions[1..])
  }

  /** A project before its first conversation. */
  ghost predicate Init(db: Db) {
    && db.keys.Valid() && db.settings.Valid()
    && db.conversations == map[] && db.pairs == map[] && db.members == map[] && db.messages == map[] && db.order == map[]
    && db.reactions == map[] && db.pins == map[] && db.attachments == map[] && db.objects == map[] && db.links == map[]
    && db.search == map[] && db.receipts == map[] && db.events == map[] && db.outbox == map[]
  }

  lemma InitInv(db: Db)
    requires Init(db)
    ensures Inv(db)
  {
    forall m ensures |Kinds(ReactionRows(db.reactions, m))| <= 32 {
      assert ReactionRows(db.reactions, m) == {};
      assert Kinds(ReactionRows(db.reactions, m)) == {};
    }
    forall c, s ensures Numbered(db.messages, db.events, c, s) { assert (c, s) !in db.events; }
  }

  // ----- one transaction -----

  /** What one transaction establishes and keeps. */
  ghost predicate Kept(a: Db, b: Db) {
    && Inv(b) && Follows(a, b)
    && (Checkpointed(a.conversations, a.members, a.events) ==> Checkpointed(b.conversations, b.members, b.events))
  }

  lemma CausedKept(a: Db, b: Db, x: Effect)
    requires Inv(a) && Inv(b) && Caused(a, b, x)
    ensures Kept(a, b)
  {
    hide Inv, Caused, Checkpointed;
    CausedFollows(a, b, x);
    if Checkpointed(a.conversations, a.members, a.events) { CausedCheckpoints(a, b, x); }
  }

  lemma NothingKept(a: Db)
    requires Inv(a)
    ensures Kept(a, a)
  {
    hide Inv, Kept;
    assert Caused(a, a, Silence);
    hide Caused;
    CausedKept(a, a, Silence);
  }

  lemma KeptTransitive(a: Db, b: Db, d: Db)
    requires Kept(a, b) && Kept(b, d)
    ensures Kept(a, d)
  {
    hide Inv, Follows, Checkpointed;
    FollowsTransitive(a, b, d);
  }

  lemma SendStep(db: Db, user: Id, c: Id, p: Command, system: bool, id: Id, copy: Id)
    requires Inv(db)
    ensures Kept(db, SendSpec(db, user, c, p, system, id, copy).db)
  {
    hide Inv, Kept, SendBody, ForwardSpec, StateWrite, SendRows, ForwardRows;
    var b := SendSpec(db, user, c, p, system, id, copy).db;
    if b == db {
      NothingKept(db);
    } else if p.forwardFrom.Some? {
      ForwardLeaves(db, user, c, p, id, copy);
      var s := ReadSource(db, user, p.forwardFrom.value).value;
      ForwardKeeps(db, user, c, p, id, copy, s);
      ForwardFootprint(db, user, c, p, id, copy, s);
      CausedKept(db, b, State(c, id, MessageCreated));
    } else {
      SendBodyShape(db, user, c, p, system, id);
      SendKeeps(db, user, c, p, id);
      SendFootprint(db, user, c, p, id);
      CausedKept(db, b, State(c, id, MessageCreated));
    }
  }

  lemma EditStep(db: Db, user: Id, m: Id, scope: Option<Id>, content: Content, expected: int)
    requires Inv(db)
    ensures Kept(db, EditSpec(db, user, m, scope, content, expected).db)
  {
    hide Inv, Kept, EditSpec, StateWrite, EditRows;
    EditShape(db, user, m, scope, content, expected);
    var b := EditSpec(db, user, m, scope, content, expected).db;
    if b == db {
      NothingKept(db);
    } else {
      EditKeeps(db, m, content);
      EditFootprint(db, m, content);
      CausedKept(db, b, State(db.messages[m].conversation, m, MessageUpdated));
    }
  }

  lemma DeleteStep(db: Db, user: Id, m: Id, scope: Option<Id>)
    requires Inv(db)
    ensures Kept(db, DeleteSpec(db, user, m, scope).db)
  {
    hide Inv, Kept, DeleteSpec, StateWrite, DeleteDone;
    DeleteShape(db, user, m, scope);
    var b := DeleteSpec(db, user, m, scope).db;
    if b == db {
      NothingKept(db);
    } else {
      DeleteKeeps(db, m);
      DeleteWrites(db, m);
      DeleteFootprint(db, m);
      CausedKept(db, b, State(db.messages[m].conversation, m, MessageDeleted));
    }
  }

  lemma ReactStep(db: Db, user: Id, m: Id, scope: Option<Id>, raw: string, add: bool)
    requires Inv(db)
    ensures Kept(db, ReactSpec(db, user, m, scope, raw, add).db)
  {
    hide Inv, Kept, ReactSpec, StateWrite, SettleDone, ReactionFits;
    ReactShape(db, user, m, scope, raw, add);
    var b := ReactSpec(db, user, m, scope, raw, add).db;
    if b == db {
      NothingKept(db);
    } else {
      var x, kind := Reaction(m, user, db.unicode.emoji(raw).value), if add then ReactionCreated else ReactionDeleted;
      ReactKeeps(db, x, add);
      SettleFootprint(db, WithReaction(db, x, add), m, kind);
      CausedKept(db, b, State(db.messages[m].conversation, m, kind));
    }
  }

  lemma PinStep(db: Db, user: Id, m: Id, scope: Option<Id>, add: bool)
    requires Inv(db)
    ensures Kept(db, SetPinSpec(db, user, m, scope, add).db)
  {
    hide Inv, Kept, SetPinSpec, StateWrite, SettleDone;
    SetPinShape(db, user, m, scope, add);
    var b := SetPinSpec(db, user, m, scope, add).db;
    if b == db {
      NothingKept(db);
    } else {
      var kind := if add then MessagePinned else MessageUnpinned;
      SetPinKeeps(db, m, user, add);
      SettleFootprint(db, WithPin(db, m, user, add), m, kind);
      CausedKept(db, b, State(db.messages[m].conversation, m, kind));
    }
  }

  lemma ReceiptStep(db: Db, user: Id, c: Id, readKind: bool, sequence: int)
    requires Inv(db)
    ensures Kept(db, ReceiptSpec(db, user, c, readKind, sequence).db)
  {
    hide Inv, Kept, OtherWrite;
    ReceiptShape(db, user, c, readKind, sequence);
    var b := ReceiptSpec(db, user, c, readKind, sequence).db;
    if b == db {
      NothingKept(db);
    } else {
      var stored := Receipted(db.members[(c, user)], readKind, sequence);
      var e := Envelope(ReceiptKind(readKind), ReceiptRefs(user, stored));
      ReceiptKeeps(db, user, c, readKind, sequence);
      CausedKept(db, b, MemberRow(c, e, user, stored));
    }
  }

  lemma PatchMemberStep(db: Db, actor: Id, c: Id, user: Id, p: MemberPatch)
    requires Inv(db)
    ensures Kept(db, PatchMemberSpec(db, actor, c, user, p).db)
  {
    hide Inv, Kept, OtherWrite, PatchMemberSpec, PatchRefusal;
    PatchMemberShape(db, actor, c, user, p);
    var b := PatchMemberSpec(db, actor, c, user, p).db;
    if b == db {
      NothingKept(db);
    } else {
      PatchMemberKeeps(db, actor, c, user, p);
      CausedKept(db, b, MemberRow(c, Envelope(MemberUpdated, UserRefs(user)), user, Patched(db.members[(c, user)], p)));
    }
  }

  lemma RemoveMemberStep(db: Db, actor: Id, c: Id, user: Id)
    requires Inv(db)
    ensures Kept(db, RemoveMemberSpec(db, actor, c, user).db)
  {
    hide Inv, Kept, OtherWrite, RemoveMemberSpec, RemoveRefusal;
    RemoveMemberShape(db, actor, c, user);
    var b := RemoveMemberSpec(db, actor, c, user).db;
    if b == db {
      NothingKept(db);
    } else {
      RemoveMemberKeeps(db, actor, c, user);
      CausedKept(db, b, MemberRow(c, Envelope(MemberLeft, UserRefs(user)), user, Departed(db.members[(c, user)])));
    }
  }

  lemma AdmitCauses(db: Db, c: Id, user: Id, e: Envelope)
    requires c in db.conversations && !Joined(db, c, user) && e == Envelope(MembersAdded, UserRefs(user))
    requires OtherWrite(db, AdmitOne(db, c, user), c, e)
    ensures Caused(db, AdmitOne(db, c, user), MemberRow(c, e, user, Admitted(db, c, user)))
  {
    hide OtherWrite;
  }

  lemma AdmitStep(db: Db, c: Id, user: Id)
    requires Inv(db) && c in db.conversations && db.conversations[c].ctype != Direct
    ensures Kept(db, AdmitOne(db, c, user))
  {
    hide Inv, Kept, OtherWrite, Caused, Append;
    AdmitKeeps(db, c, user);
    if Joined(db, c, user) {
      NothingKept(db);
    } else {
      var e := Envelope(MembersAdded, UserRefs(user));
      AdmitCauses(db, c, user, e);
      CausedKept(db, AdmitOne(db, c, user), MemberRow(c, e, user, Admitted(db, c, user)));
    }
  }

  lemma {:induction false} AdmitAllStep(db: Db, c: Id, users: seq<Id>)
    requires Inv(db) && c in db.conversations && db.conversations[c].ctype != Direct
    ensures Kept(db, AdmitAll(db, c, users))
    decreases |users|
  {
    hide Inv, Kept, OtherWrite;
    if users == [] {
      NothingKept(db);
    } else {
      AdmitKeeps(db, c, users[0]);
      AdmitStep(db, c, users[0]);
      AdmitAllStep(AdmitOne(db, c, users[0]), c, users[1..]);
      KeptTransitive(db, AdmitOne(db, c, users[0]), AdmitAll(db, c, users));
    }
  }

  lemma AddMembersStep(db: Db, actor: Id, c: Id, users: seq<Id>)
    requires Inv(db)
    ensures Kept(db, AddMembersSpec(db, actor, c, users).db)
  {
    hide Inv, Kept, AdmitAll, AddMembersSpec;
    AddMembersShape(db, actor, c, users);
    if AddMembersSpec(db, actor, c, users).db == db { NothingKept(db); } else { AdmitAllStep(db, c, users); }
  }

  lemma PatchStep(db: Db, actor: Id, c: Id, expected: int)
    requires Inv(db)
    ensures Kept(db, PatchSpec(db, actor, c, expected).db)
  {
    hide Inv, Kept, OtherWrite, PatchSpec;
    PatchShape(db, actor, c, expected);
    var b := PatchSpec(db, actor, c, expected).db;
    if b == db {
      NothingKept(db);
    } else {
      PatchKeeps(db, c);
      CausedKept(db, b, Other(c, Envelope(ConversationUpdated, NOTHING)));
    }
  }

  lemma CreateStep(db: Db, actor: Id, ctype: ConversationType, others: seq<Id>, id: Id)
    requires Inv(db)
    ensures Kept(db, CreateSpec(db, actor, ctype, others, id).db)
  {
    hide Inv, Kept, CreateSpec, Caused;
    CreateShape(db, actor, ctype, others, id);
    var b := CreateSpec(db, actor, ctype, others, id).db;
    if b == db {
      NothingKept(db);
    } else {
      CreateKeeps(db, actor, ctype, others, id);
      CreatedCauses(db, actor, ctype, others, id);
      CausedKept(db, b, Start(id, Envelope(ConversationCreated, NOTHING)));
    }
  }

  lemma CreatedCauses(db: Db, actor: Id, ctype: ConversationType, others: seq<Id>, id: Id)
    requires Inv(db) && CreateAccepted(db, actor, ctype, others, id)
    ensures Caused(db, CreatedRows(db, actor, ctype, others, id), Start(id, Envelope(ConversationCreated, NOTHING)))
  {
    hide Opened, DenseLog, Ledger, Ordered, Tails, Bodies, Indexed, Receipts, Related, Files, Governance, Enrol;
    CreatedOpens(db, actor, ctype, others, id);
    EnrolIs(db.members, id, Sort([actor] + others), Governor(ctype, actor));
    forall k | k in db.members ensures k.0 != id { assert CursorOk(db.conversations, k, db.members[k]); }
  }

  lemma UploadStep(db: Db, x: Action)
    requires Inv(db) && (x.ABegin? || x.AReady? || x.AClaim? || x.AFinish?)
    ensures Kept(db, Apply(db, x))
  {
    hide Inv, Kept, Quiet, Claimable, CanBecomeReady;
    NothingKept(db);
    if x.ABegin? {
      BeginShape(db, x.actor, x.a, x.o, x.meta, x.global);
      if Apply(db, x) != db { BeginKeeps(db, x.actor, x.a, x.o, x.meta); }
    } else if x.AReady? {
      if CanBecomeReady(db, x.actor, x.a) { ReadyKeeps(db, x.actor, x.a); }
    } else if x.AClaim? {
      if Claimable(db, x.o) { ClaimKeeps(db, x.o); }
    } else {
      FinishKeeps(db, x.o);
    }
    if Apply(db, x) != db { CausedKept(db, Apply(db, x), Silence); }
  }

  lemma ConfigurationStep(db: Db, x: Action)
    requires Inv(db) && (x.AConfigure? || x.ARotate? || x.AUser? || x.ATick?)
    ensures Kept(db, Apply(db, x))
  {
    hide Inv, Kept, Quiet;
    NothingKept(db);
    if Apply(db, x) != db {
      match x {
        case AConfigure(s) => SettingsKeep(db, s);
        case ARotate(k) => RotateKeeps(db, k);
        case AUser(id, u) => UserKeeps(db, id, u);
        case ATick(t) => TickKeeps(db, t);
      }
      CausedKept(db, Apply(db, x), Silence);
    }
  }

  /** Every transaction keeps the whole invariant and every trace property. */
  lemma StepKeeps(db: Db, x: Action)
    requires Inv(db)
    ensures Kept(db, Apply(db, x))
  {
    hide Inv, Kept;
    match x
    case ACreate(actor, ctype, others, id) => CreateStep(db, actor, ctype, others, id);
    case APatch(actor, c, expected) => PatchStep(db, actor, c, expected);
    case AAddMembers(actor, c, users) => AddMembersStep(db, actor, c, users);
    case APatchMember(actor, c, user, patch) => PatchMemberStep(db, actor, c, user, patch);
    case ARemoveMember(actor, c, user) => RemoveMemberStep(db, actor, c, user);
    case ASend(user, c, command, system, id, copy) => SendStep(db, user, c, command, system, id, copy);
    case AEdit(user, m, scope, content, expected) => EditStep(db, user, m, scope, content, expected);
    case ADelete(user, m, scope) => DeleteStep(db, user, m, scope);
    case AReact(user, m, scope, raw, add) => ReactStep(db, user, m, scope, raw, add);
    case APin(user, m, scope, add) => PinStep(db, user, m, scope, add);
    case AReceipt(user, c, readKind, sequence) => ReceiptStep(db, user, c, readKind, sequence);
    case ABegin(_, _, _, _, _) => UploadStep(db, x);
    case AReady(_, _) => UploadStep(db, x);
    case AClaim(_) => UploadStep(db, x);
    case AFinish(_) => UploadStep(db, x);
    case AConfigure(_) => ConfigurationStep(db, x);
    case ARotate(_) => ConfigurationStep(db, x);
    case AUser(_, _) => ConfigurationStep(db, x);
    case ATick(_) => ConfigurationStep(db, x);
  }

  /** Safety over whole runs. */
  lemma {:induction false} RunKeeps(db: Db, actions: seq<Action>)
    requires Inv(db)
    ensures Kept(db, Run(db, actions))
    decreases |actions|
  {
    hide Inv, Follows, Checkpointed, Apply;
    if actions == [] {
      NothingKept(db);
    } else {
      StepKeeps(db, actions[0]);
      RunKeeps(Apply(db, actions[0]), actions[1..]);
      KeptTransitive(db, Apply(db, actions[0]), Run(db, actions));
    }
  }

  /** What some run from an empty project leaves. */
  ghost predicate Reachable(db: Db) {
    exists start, actions :: Init(start) && db == Run(start, actions)
  }

  lemma ReachableInv(db: Db)
    requires Reachable(db)
    ensures Inv(db) && Checkpointed(db.conversations, db.members, db.events)
  {
    hide Inv, Apply, Run, Follows;
    var start, actions :| Init(start) && db == Run(start, actions);
    InitInv(start);
    assert Checkpointed(start.conversations, start.members, start.events) by {
      assert forall c, s :: (c, s) !in start.events;
    }
    RunKeeps(start, actions);
  }

  // ----- the tables one transaction leaves alone -----

  predicate MessageAction(x: Action) {
    x.AEdit? || x.ADelete? || x.AReact? || x.APin?
  }

  predicate MemberAction(x: Action) {
    x.ACreate? || x.APatch? || x.AAddMembers? || x.APatchMember? || x.ARemoveMember? || x.AReceipt?
  }

  predicate FileAction(x: Action) {
    x.ABegin? || x.AReady? || x.AClaim? || x.AFinish?
  }

  lemma ReactFootprint(db: Db, user: Id, m: Id, scope: Option<Id>, raw: string, add: bool)
    ensures var b := ReactSpec(db, user, m, scope, raw, add).db;
      SameMembers(db, b) && ObjectsStay(db, b) && b.receipts == db.receipts
  {
    hide ReactSpec, SettleDone, ReactionFits, ReactionMoves, SameMembers, ObjectsStay;
    ReactShape(db, user, m, scope, raw, add);
    NothingMoves(db);
    if ReactSpec(db, user, m, scope, raw, add).db != db {
      var y := Reaction(m, user, db.unicode.emoji(raw).value);
      assert y.message in db.messages by { assert ReactionMoves(db, y, add); MovedIsStored(db, y, add); }
      SettleFootprint(db, WithReaction(db, y, add), m, if add then ReactionCreated else ReactionDeleted);
    }
  }

  lemma MovedIsStored(db: Db, x: Reaction, add: bool)
    requires ReactionMoves(db, x, add)
    ensures x.message in db.messages
  {
  }

  lemma PinFootprint(db: Db, user: Id, m: Id, scope: Option<Id>, add: bool)
    ensures var b := SetPinSpec(db, user, m, scope, add).db;
      SameMembers(db, b) && ObjectsStay(db, b) && b.receipts == db.receipts
  {
    hide SetPinSpec, SettleDone, SameMembers, ObjectsStay;
    SetPinShape(db, user, m, scope, add);
    NothingMoves(db);
    if SetPinSpec(db, user, m, scope, add).db != db {
      SettleFootprint(db, WithPin(db, m, user, add), m, if add then MessagePinned else MessageUnpinned);
    }
  }

  lemma MessageActionFootprint(db: Db, x: Action)
    requires MessageAction(x)
    ensures SameMembers(db, Apply(db, x)) && ObjectsStay(db, Apply(db, x)) && Apply(db, x).receipts == db.receipts
  {
    hide EditSpec, DeleteSpec, ReactSpec, SetPinSpec, EditDone, DeleteDone, SameMembers, ObjectsStay, EditAccepted;
    NothingMoves(db);
    match x {
      case AEdit(user, m, scope, content, expected) =>
        EditShape(db, user, m, scope, content, expected);
        if EditSpec(db, user, m, scope, content, expected).result.Ok? { EditFootprint(db, m, content); }
      case ADelete(user, m, scope) => DeletedFootprint(db, user, m, scope);
      case AReact(user, m, scope, raw, add) => ReactFootprint(db, user, m, scope, raw, add);
      case APin(user, m, scope, add) => PinFootprint(db, user, m, scope, add);
    }
  }

  lemma DeletedFootprint(db: Db, user: Id, m: Id, scope: Option<Id>)
    ensures var b := DeleteSpec(db, user, m, scope).db;
      SameMembers(db, b) && ObjectsStay(db, b) && b.receipts == db.receipts
  {
    hide DeleteSpec, DeleteDone, SameMembers, ObjectsStay;
    DeleteShape(db, user, m, scope);
    NothingMoves(db);
    if DeleteSpec(db, user, m, scope).db != db { DeleteFootprint(db, m); }
  }

  lemma MemberActionFootprint(db: Db, x: Action)
    requires MemberAction(x)
    ensures ObjectsStay(db, Apply(db, x)) && Apply(db, x).receipts == db.receipts
  {
    hide CreateSpec, PatchSpec, AddMembersSpec, PatchMemberSpec, RemoveMemberSpec, ReceiptSpec, CreatedRows, PatchedRows, AdmitAll, Append, PatchRefusal, RemoveRefusal;
    if x.ACreate? {
      CreateShape(db, x.actor, x.ctype, x.others, x.id);
      if Apply(db, x) != db { CreatedFootprint(db, x.actor, x.ctype, x.others, x.id); }
    } else if x.APatch? {
      PatchShape(db, x.actor, x.c, x.expected);
      if Apply(db, x) != db { PatchedFootprint(db, x.c); }
    } else if x.AAddMembers? {
      AddMembersShape(db, x.actor, x.c, x.users);
      if Apply(db, x) != db { AdmitFootprint(db, x.c, x.users); }
    } else {
      RowActionFootprint(db, x);
    }
  }

  lemma RowActionFootprint(db: Db, x: Action)
    requires x.APatchMember? || x.ARemoveMember? || x.AReceipt?
    ensures ObjectsStay(db, Apply(db, x)) && Apply(db, x).receipts == db.receipts
  {
    hide PatchMemberSpec, RemoveMemberSpec, ReceiptSpec, Append, PatchRefusal, RemoveRefusal;
    if x.APatchMember? {
      PatchMemberShape(db, x.actor, x.c, x.user, x.patch);
      if Apply(db, x) != db { RowFootprint(db, x.c, x.user, Patched(db.members[(x.c, x.user)], x.patch), Envelope(MemberUpdated, UserRefs(x.user))); }
    } else if x.ARemoveMember? {
      RemoveMemberShape(db, x.actor, x.c, x.user);
      if Apply(db, x) != db { RowFootprint(db, x.c, x.user, Departed(db.members[(x.c, x.user)]), Envelope(MemberLeft, UserRefs(x.user))); }
    } else {
      ReceiptShape(db, x.user, x.c, x.readKind, x.sequence);
      if Apply(db, x) != db {
        var stored := Receipted(db.members[(x.c, x.user)], x.readKind, x.sequence);
        RowFootprint(db, x.c, x.user, stored, Envelope(ReceiptKind(x.readKind), ReceiptRefs(x.user, stored)));
      }
    }
  }

  lemma FileActionFootprint(db: Db, x: Action)
    requires FileAction(x)
    ensures SameMembers(db, Apply(db, x)) && Apply(db, x).receipts == db.receipts
  {
    hide BeginSpec, ReadySpec, ClaimRows, FinishRows, Referenced, HasExpiredReady;
    match x {
      case ABegin(actor, a, o, meta, global) => BeginShape(db, actor, a, o, meta, global);
      case AReady(actor, a) => ReadyLeaves(db, actor, a);
      case AClaim(o) => if Claimable(db, o) { ClaimLeaves(db, o); }
      case AFinish(o) => FinishLeaves(db, o);
    }
  }

  lemma ReadyLeaves(db: Db, actor: Id, a: Id)
    ensures SameMembers(db, ReadySpec(db, actor, a).db) && ReadySpec(db, actor, a).db.receipts == db.receipts
  {
  }

  lemma ClaimLeaves(db: Db, o: Id)
    requires o in db.objects
    ensures SameMembers(db, ClaimRows(db, o)) && ClaimRows(db, o).receipts == db.receipts
  {
  }

  lemma FinishLeaves(db: Db, o: Id)
    ensures SameMembers(db, FinishRows(db, o)) && FinishRows(db, o).receipts == db.receipts
  {
  }

  lemma QuietActionFootprint(db: Db, x: Action)
    requires x.AConfigure? || x.ARotate? || x.AUser? || x.ATick?
    ensures SameMembers(db, Apply(db, x)) && Apply(db, x).receipts == db.receipts && ObjectsStay(db, Apply(db, x))
  {
    hide Keys.RetainedBy, SameMembers, ObjectsStay;
    match x {
      case AConfigure(s) => ConfigureLeaves(db, s);
      case ARotate(k) => RotateLeaves(db, k);
      case AUser(id, u) => UserLeaves(db, db.users[id := u]);
      case ATick(t) => TickLeaves(db, t);
    }
    NothingMoves(db);
  }

  lemma NothingMoves(db: Db)
    ensures SameMembers(db, db) && ObjectsStay(db, db)
  {
  }

  lemma ConfigureLeaves(db: Db, s: Settings)
    ensures var b := db.(settings := s); SameMembers(db, b) && b.receipts == db.receipts && ObjectsStay(db, b)
  {
  }

  lemma RotateLeaves(db: Db, k: Keys)
    ensures var b := db.(keys := k); SameMembers(db, b) && b.receipts == db.receipts && ObjectsStay(db, b)
  {
  }

  lemma UserLeaves(db: Db, users: map<Id, User>)
    ensures var b := db.(users := users); SameMembers(db, b) && b.receipts == db.receipts && ObjectsStay(db, b)
  {
  }

  lemma TickLeaves(db: Db, t: Time)
    ensures var b := db.(now := t); SameMembers(db, b) && b.receipts == db.receipts && ObjectsStay(db, b)
  {
  }

  /** A first send links one attachment; nothing else of the file tables or members moves. */
  lemma SendActionFootprint(db: Db, x: Action)
    requires x.ASend?
    ensures SameMembers(db, Apply(db, x)) && ObjectsStay(db, Apply(db, x)) && Apply(db, x).now == db.now
    ensures Apply(db, x) == db || Apply(db, x).receipts ==
              db.receipts[(x.user, x.command.client) := MakeReceipt(db, x.id, x.c, CanonicalOf(x.command, x.c))]
    ensures Apply(db, x) != db ==> Retry(db, x.user, x.command.client, CanonicalOf(x.command, x.c)).None?
  {
    hide SendBody, ForwardSpec, SendRows, ForwardRows, Retry;
    var p := x.command;
    if Apply(db, x) != db {
      if p.forwardFrom.Some? {
        ForwardLeaves(db, x.user, x.c, p, x.id, x.copy);
        ForwardFootprint(db, x.user, x.c, p, x.id, x.copy, ReadSource(db, x.user, p.forwardFrom.value).value);
      } else {
        SendBodyShape(db, x.user, x.c, p, x.system, x.id);
        SendFootprint(db, x.user, x.c, p, x.id);
      }
    }
  }
}
