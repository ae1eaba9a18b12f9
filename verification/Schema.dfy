/** The tables of one Project and the projections read from them
    (the SQL migrations, internal/message/repository/postgres.go). */
module Schema {
  import opened Basics
  import opened Text
  import opened Cryptography

  // ----- project, users, conversations -----

  datatype Flag =
    AllowImages | AllowReactions | AllowEdit | AllowDelete | AllowForward | AllowReply
    | AllowPin | ReadReceipts | AllowBots

  datatype Settings = Settings(
    active: bool,
    flags: set<Flag>,
    retentionDays: int,
    maxUpload: int,
    blacklist: Option<set<string>>)  // None while the blacklist is switched off
  {
    predicate Valid() { 1 <= retentionDays }
  }

  datatype Kind = Human | Bot | System

  datatype User = User(kind: Kind, banned: bool, name: string)

  datatype ConversationType = Direct | Group | Channel

  datatype Conversation = Conversation(
    ctype: ConversationType,
    version: int,
    messageSequence: int,
    eventSequence: int,
    last: Option<Id>)

  datatype Role = Member | Moderator

  datatype Membership = Membership(
    role: Role, left: bool, banned: bool, muted: bool, version: int, read: int, delivered: int)
  {
    predicate Governs() { role == Moderator && !left && !banned }
  }

  // ----- messages -----

  datatype Content = Content(text: string, caption: string)

  type Metadata = map<string, string>

  datatype Sender = Sender(id: Id, name: string)

  datatype Origin = Origin(message: Id, sender: Sender)

  datatype Payload = Payload(content: Content, metadata: Metadata, origin: Option<Origin>)

  datatype MessageType = TextType | ImageType | SystemType

  /** The type string of a command: absent, one of the known types, or anything else. */
  datatype TypeName = NoType | Named(t: MessageType) | UnknownType

  datatype Row = Row(
    conversation: Id,
    sender: Id,
    mtype: MessageType,
    sequence: int,
    version: int,
    createdAt: Time,
    expiresAt: Time,
    body: Option<Sealed<Payload>>,
    reply: Option<Id>,
    forwardedFrom: Option<Id>,
    editedAt: Option<Time>,
    deletedAt: Option<Time>)
  {
    predicate Live(now: Time) { deletedAt.None? && now < expiresAt }

    /** The text a message of this type is indexed and searched by. */
    function Searchable(p: Payload): string {
      if mtype == ImageType then p.content.caption else p.content.text
    }
  }

  datatype Reaction = Reaction(message: Id, user: Id, emoji: string)

  datatype Pin = Pin(author: Id, at: Time)

  // ----- attachments -----

  datatype AttachmentStatus = AUploading | AReady | AAttached | ADeleted

  datatype Attachment = Attachment(uploader: Id, objectId: Id, meta: Meta, status: AttachmentStatus, expiresAt: Time)

  datatype Meta = Meta(name: string, mime: string, size: int, width: int, height: int)

  datatype ObjectStatus = OUploading | OReady | OPendingDelete | ODeleted

  datatype StoredObject = StoredObject(status: ObjectStatus, createdAt: Time)

  // ----- idempotency, event log -----

  /** The canonical form of a send command: what two retries must agree on. */
  datatype Canonical =
    | CanonicalForward(conversation: Id, client: Id, source: Id)
    | CanonicalSend(conversation: Id, client: Id, typeName: TypeName, content: Content,
                    metadata: Metadata, reply: Option<Id>, attachments: seq<Id>)

  datatype Receipt = Receipt(message: Id, conversation: Id, fingerprint: Digest<Canonical>, expiresAt: Time)

  datatype EventKind =
    | MessageCreated | MessageUpdated | MessageDeleted
    | ReactionCreated | ReactionDeleted | MessagePinned | MessageUnpinned
    | MessageRead | MessageDelivered
    | ConversationCreated | ConversationUpdated | MembersAdded | MemberUpdated | MemberLeft
    | SyncAdvance

  /** Every message-affecting event hydrates the whole current resource. */
  predicate MessageState(k: EventKind) {
    k.MessageCreated? || k.MessageUpdated? || k.MessageDeleted? || k.ReactionCreated?
    || k.ReactionDeleted? || k.MessagePinned? || k.MessageUnpinned?
  }

  /** The references an event carries: never content. */
  datatype Refs = Refs(message: Option<Id>, messageSequence: int, version: int, user: Option<Id>, read: int, delivered: int)

  const NOTHING := Refs(None, 0, 0, None, 0, 0)

  datatype Envelope = Envelope(kind: EventKind, refs: Refs)

  // ----- the database -----

  datatype Db = Db(
    now: Time,
    settings: Settings,
    keys: Keys,
    unicode: Unicode,
    users: map<Id, User>,
    conversations: map<Id, Conversation>,
    pairs: map<(Id, Id), Id>,              // (low, high) -> DIRECT conversation
    members: map<(Id, Id), Membership>,    // (conversation, user)
    messages: map<Id, Row>,
    order: map<(Id, int), Id>,             // UNIQUE(conversation, sequence) of messages
    reactions: map<Reaction, Time>,        // primary key -> created_at
    pins: map<Id, Pin>,
    attachments: map<Id, Attachment>,
    objects: map<Id, StoredObject>,
    links: map<Id, Id>,                    // attachment -> message
    search: map<(Id, Version), set<Token>>,
    receipts: map<(Id, Id), Receipt>,      // (sender, client id)
    events: map<(Id, int), Envelope>,
    outbox: map<(Id, int), Envelope>)

  /** What one transaction leaves behind and what its caller sees. A failed
      transaction leaves the database it started from. */
  datatype Outcome<+T> = Outcome(db: Db, result: Result<T>)

  // ----- projections -----

  function Kinds(rows: set<Reaction>): set<string> {
    set r | r in rows :: r.emoji
  }

  function ReactionRows(reactions: map<Reaction, Time>, m: Id): set<Reaction> {
    set r | r in reactions && r.message == m
  }

  function LinkedTo(links: map<Id, Id>, m: Id): set<Id> {
    set a | a in links && links[a] == m
  }

  datatype AttachmentView = AttachmentView(meta: Meta, status: AttachmentStatus, expiresAt: Time)

  function Views(links: map<Id, Id>, attachments: map<Id, Attachment>, m: Id): map<Id, AttachmentView> {
    map a | a in LinkedTo(links, m) && a in attachments ::
      AttachmentView(attachments[a].meta, attachments[a].status, attachments[a].expiresAt)
  }

  datatype Status = Active | Deleted | Expired

  datatype PinView = PinView(author: Id, at: Time, version: int)

  /** The resource a client sees. `reactions` holds the rows the published per-emoji
      counts are aggregated from. Content and relations of a terminal message are absent. */
  datatype Message = Message(
    id: Id, row: Header, status: Status, content: Option<Content>, metadata: Metadata,
    origin: Option<Origin>, reply: Option<Id>,
    reactions: set<Reaction>, pin: Option<PinView>, attachments: map<Id, AttachmentView>)

  datatype Header = Header(
    conversation: Id, sender: Id, mtype: MessageType, sequence: int, version: int,
    createdAt: Time, expiresAt: Time, editedAt: Option<Time>, deletedAt: Option<Time>)

  function HeaderOf(r: Row): Header {
    Header(r.conversation, r.sender, r.mtype, r.sequence, r.version, r.createdAt, r.expiresAt, r.editedAt, r.deletedAt)
  }

  /** A present forward header must agree with the authenticated payload. */
  predicate HeaderAgrees(r: Row, p: Payload) {
    r.forwardedFrom.Some? ==> p.origin.Some? && p.origin.value.message == r.forwardedFrom.value
  }

  function PinOf(db: Db, m: Id, version: int): Option<PinView> {
    if m in db.pins then Some(PinView(db.pins[m].author, db.pins[m].at, version)) else None
  }

  /** scan: decrypts the exact row context; never decrypts a terminal row. */
  function Scan(db: Db, m: Id): (r: Result<Message>)
    ensures m in db.messages && r.Err? ==> r.error == Crypto
    ensures r.Ok? ==> m in db.messages && r.value.id == m && r.value.row == HeaderOf(db.messages[m])
  {
    if m !in db.messages then Err(NotFound)
    else
      var r := db.messages[m];
      var bare := Message(m, HeaderOf(r), Deleted, None, map[], None, None, {}, None, map[]);
      if r.deletedAt.Some? then Ok(bare)
      else if r.expiresAt <= db.now then Ok(bare.(status := Expired))
      else if r.body.None? then Err(Crypto)
      else
        match Open(db.keys, r.conversation, m, r.body.value)
        case Err(e) => Err(e)
        case Ok(p) =>
          if !HeaderAgrees(r, p) then Err(Crypto)
          else Ok(Message(m, HeaderOf(r), Active, Some(p.content), p.metadata, p.origin, r.reply,
                          ReactionRows(db.reactions, m), PinOf(db, m, r.version),
                          Views(db.links, db.attachments, m)))
  }

  // ----- Append (internal/event/repository/postgres.go) -----

  /** Append: the next cursor of the aggregate, one replay row and one outbox row. */
  function Append(db: Db, c: Id, e: Envelope): Db
    requires c in db.conversations
  {
    var n := db.conversations[c].eventSequence + 1;
    db.(conversations := db.conversations[c := db.conversations[c].(eventSequence := n)],
        events := db.events[(c, n) := e],
        outbox := db.outbox[(c, n) := e])
  }

  /** The connection pool: the one place where committed state lives. A transaction
      works on its own copy and publishes it with a single assignment. */
  class Database {
    var state: Db

    constructor (db: Db)
      ensures state == db
    {
      state := db;
    }
  }

  function StateRefs(m: Id, r: Row): Refs {
    Refs(Some(m), r.sequence, r.version, None, 0, 0)
  }
}
