/** New messages: Send and forward, with retry receipts
    (internal/message/repository/postgres.go, forward.go). */
module Sending {
  import opened Basics
  import opened Text
  import opened Cryptography
  import opened Schema
  import opened Commands
  import opened Access

  datatype Sent = Sent(message: Message, deduplicated: bool, expiresAt: Time)

  const DEDUP: int := 365 * DAY

  // ----- retry receipts -----

  /** The retry path: a live receipt answers the command without creating anything.
      None means that no live receipt exists. */
  function Retry(db: Db, user: Id, client: Id, command: Canonical): Option<Result<Sent>> {
    if (user, client) in db.receipts && db.now < db.receipts[(user, client)].expiresAt then
      var r := db.receipts[(user, client)];
      match Fingerprint(db.keys, r.fingerprint.version, command)
      case Err(e) => Some(Err(e))
      case Ok(candidate) =>
        if candidate != r.fingerprint then Some(Err(IdempotencyConflict))
        else
          match Scan(db, r.message)
          case Err(e) => Some(Err(e))
          case Ok(m) => Some(Ok(Sent(m, true, r.expiresAt)))
    else None
  }

  // ----- the rows of one new message -----

  datatype Draft = Draft(id: Id, row: Row, version: Version, tokens: set<Token>, owner: (Id, Id), receipt: Receipt)

  function MakeReceipt(db: Db, id: Id, c: Id, command: Canonical): Receipt {
    Receipt(id, c, Digest(db.keys.activeFingerprint, command), db.now + DEDUP)
  }

  /** Message, tail pointer, index row, receipt and event of one draft. */
  function Insert(db: Db, d: Draft): Db
    requires d.row.conversation in db.conversations
  {
    var c := d.row.conversation;
    var conv := db.conversations[c].(messageSequence := d.row.sequence, last := Some(d.id));
    Append(db.(conversations := db.conversations[c := conv],
               messages := db.messages[d.id := d.row],
               order := db.order[(c, d.row.sequence) := d.id],
               search := db.search[(d.id, d.version) := d.tokens],
               receipts := db.receipts[d.owner := d.receipt]),
           c, Envelope(MessageCreated, StateRefs(d.id, d.row)))
  }

  /** The statements of a new message in the order both transactions issue them. */
  method Store(db: Db, d: Draft) returns (tx: Db)
    requires d.row.conversation in db.conversations
    requires d.row.sequence == db.conversations[d.row.conversation].messageSequence + 1
    ensures tx == Insert(db, d)
  {
    var c := d.row.conversation;
    tx := db;
    var sequence := tx.conversations[c].messageSequence + 1;
    tx := tx.(conversations := tx.conversations[c := tx.conversations[c].(messageSequence := sequence)]);
    tx := tx.(messages := tx.messages[d.id := d.row], order := tx.order[(c, sequence) := d.id]);
    tx := tx.(conversations := tx.conversations[c := tx.conversations[c].(last := Some(d.id))]);
    tx := tx.(search := tx.search[(d.id, d.version) := d.tokens]);
    tx := tx.(receipts := tx.receipts[d.owner := d.receipt]);
    tx := Append(tx, c, Envelope(MessageCreated, StateRefs(d.id, d.row)));
  }

  /** Commit of a new message: the response is its projection. */
  function Commit(before: Db, after: Db, id: Id): Outcome<Sent> {
    match Scan(after, id)
    case Err(e) => Outcome(before, Err(e))
    case Ok(m) => Outcome(after, Ok(Sent(m, false, after.now + DEDUP)))
  }

  // ----- Send -----

  function SearchText(p: Command): string {
    if p.typeName == Named(ImageType) then p.content.caption else p.content.text
  }

  predicate Attachable(db: Db, user: Id, a: Id) {
    && a in db.attachments
    && var row := db.attachments[a];
       && row.uploader == user && row.status == AReady && db.now < row.expiresAt
       && row.objectId in db.objects && db.objects[row.objectId].status == OReady
  }

  predicate LiveTarget(db: Db, c: Id, m: Id) {
    m in db.messages && db.messages[m].conversation == c && db.messages[m].Live(db.now)
  }

  /** The primary and unique keys an insertion would violate. */
  predicate Collides(db: Db, id: Id, attached: Option<Id>) {
    id in db.messages || (attached.Some? && attached.value in db.links)
  }

  function NewRow(db: Db, user: Id, c: Id, p: Command, id: Id): Row
    requires c in db.conversations && Bodied(p)
  {
    Row(c, user, p.typeName.t, db.conversations[c].messageSequence + 1, 1, db.now,
        db.now + db.settings.retentionDays * DAY,
        Some(Seal(db.keys, c, id, Payload(p.content, Mapped(p.metadata), None))),
        p.reply, None, None, None)
  }

  function Attach(db: Db, m: Id, attached: Option<Id>): (r: Db)
    ensures r.conversations == db.conversations
  {
    if attached.Some? && attached.value in db.attachments then
      var a := attached.value;
      db.(links := db.links[a := m],
          attachments := db.attachments[a := db.attachments[a].(status := AAttached)])
    else db
  }

  function Forget(db: Db, user: Id, client: Id): Db {
    db.(receipts := db.receipts - {(user, client)})
  }

  function Consumed(p: Command): Option<Id>
    requires Bodied(p)
  {
    if p.typeName == Named(ImageType) then Some(Listed(p.attachments)[0]) else None
  }

  predicate FeaturesAllow(db: Db, p: Command) {
    && (p.reply.Some? ==> AllowReply in db.settings.flags)
    && (p.typeName == Named(ImageType) ==> AllowImages in db.settings.flags)
  }

  /** Why a command without a live receipt may not create a message. */
  function Refusal(db: Db, user: Id, c: Id, p: Command, id: Id): (r: Option<Error>)
    requires Bodied(p)
    ensures r.None? && Consumed(p).Some? ==>
              && Consumed(p).value in db.attachments && Consumed(p).value !in db.links
              && db.attachments[Consumed(p).value].uploader == user && db.attachments[Consumed(p).value].status == AReady
              && db.now < db.attachments[Consumed(p).value].expiresAt
    ensures r.None? && p.reply.Some? ==>
              && p.reply.value in db.messages && db.messages[p.reply.value].conversation == c && db.messages[p.reply.value].Live(db.now)
    ensures r.None? ==> id !in db.messages
  {
    if !Acceptable(db, SearchText(p)) then Some(Rejected)
    else if Consumed(p).Some? && !Attachable(db, user, Consumed(p).value) then Some(NotFound)
    else if p.reply.Some? && !LiveTarget(db, c, p.reply.value) then Some(NotFound)
    else if Collides(db, id, Consumed(p)) then Some(Unavailable)
    else None
  }

  function SendSpec(db: Db, user: Id, c: Id, p: Command, system: bool, id: Id, copy: Id): Outcome<Sent> {
    if !Validate(db.unicode, p, system) then Outcome(db, Err(Invalid))
    else if p.forwardFrom.Some? then ForwardSpec(db, user, c, p, id, copy)
    else if IndexOf(db.keys, db.unicode, SearchText(p)).Err? then Outcome(db, Err(Invalid))
    else SendBody(db, user, c, p, system, id)
  }

  function SendBody(db: Db, user: Id, c: Id, p: Command, system: bool, id: Id): Outcome<Sent>
    requires Bodied(p) && IndexOf(db.keys, db.unicode, SearchText(p)).Ok?
  {
    var access := Activity(db, user, c, system, true);
    if access.Err? then Outcome(db, Err(access.error))
    else if !FeaturesAllow(db, p) then Outcome(db, Err(FeatureDisabled))
    else
      match Retry(db, user, p.client, CanonicalOf(p, c))
      case Some(r) => Outcome(db, r)
      case None =>
        match Refusal(db, user, c, p, id)
        case Some(e) => Outcome(db, Err(e))
        case None => Commit(db, SendRows(db, user, c, p, id), id)
  }

  /** The rows a first, accepted send leaves behind. */
  function SendRows(db: Db, user: Id, c: Id, p: Command, id: Id): Db
    requires Bodied(p) && IndexOf(db.keys, db.unicode, SearchText(p)).Ok? && c in db.conversations
  {
    var (version, tokens) := IndexOf(db.keys, db.unicode, SearchText(p)).value;
    var receipt := MakeReceipt(db, id, c, CanonicalOf(p, c));
    var draft := Draft(id, NewRow(db, user, c, p, id), version, tokens, (user, p.client), receipt);
    Insert(Attach(Forget(db, user, p.client), id, Consumed(p)), draft)
  }

  method Send(d: Database, user: Id, c: Id, p: Command, system: bool, id: Id, copy: Id) returns (r: Result<Sent>)
    modifies d
    ensures Outcome(d.state, r) == SendSpec(old(d.state), user, c, p, system, id, copy)
  {
    if !Validate(d.state.unicode, p, system) { return Err(Invalid); }
    if p.forwardFrom.Some? {
      r := ForwardMessage(d, user, c, p, id, copy);
      return;
    }
    var index := Index(d.state.keys, d.state.unicode, SearchText(p));
    if index.Err? { return Err(Invalid); }
    r := SendIndexed(d, user, c, p, system, id, index.value);
  }

  method SendIndexed(d: Database, user: Id, c: Id, p: Command, system: bool, id: Id, index: (Version, set<Token>))
    returns (r: Result<Sent>)
    requires Bodied(p) && IndexOf(d.state.keys, d.state.unicode, SearchText(p)) == Ok(index)
    modifies d
    ensures Outcome(d.state, r) == SendBody(old(d.state), user, c, p, system, id)
  {
    var tx := d.state;
    var access := Activity(tx, user, c, system, true);
    if access.Err? { return Err(access.error); }
    if !FeaturesAllow(tx, p) { return Err(FeatureDisabled); }
    var retry := Retry(tx, user, p.client, CanonicalOf(p, c));
    if retry.Some? { return retry.value; }
    var refusal := Refusal(tx, user, c, p, id);
    if refusal.Some? { return Err(refusal.value); }
    tx := WriteSend(tx, user, c, p, id, index);
    var done := Commit(d.state, tx, id);
    d.state := done.db;
    return done.result;
  }

  /** The write half of Send: an expired receipt is replaced, an IMAGE consumes its
      ready attachment, and the draft is stored. */
  method WriteSend(db: Db, user: Id, c: Id, p: Command, id: Id, index: (Version, set<Token>)) returns (tx: Db)
    requires Bodied(p) && c in db.conversations
    requires IndexOf(db.keys, db.unicode, SearchText(p)) == Ok(index)
    requires Consumed(p).Some? ==> Consumed(p).value in db.attachments
    ensures tx == SendRows(db, user, c, p, id)
  {
    tx := db;
    if (user, p.client) in tx.receipts {
      tx := tx.(receipts := tx.receipts - {(user, p.client)});
    }
    assert tx == Forget(db, user, p.client);
    var consumed := Consumed(p);
    if consumed.Some? {
      var a := consumed.value;
      tx := tx.(links := tx.links[a := id]);
      tx := tx.(attachments := tx.attachments[a := tx.attachments[a].(status := AAttached)]);
    }
    assert tx == Attach(Forget(db, user, p.client), id, consumed);
    var body := Seal(tx.keys, c, id, Payload(p.content, Mapped(p.metadata), None));
    var row := Row(c, user, p.typeName.t, tx.conversations[c].messageSequence + 1, 1, tx.now,
                   tx.now + tx.settings.retentionDays * DAY, Some(body), p.reply, None, None, None);
    assert row == NewRow(db, user, c, p, id);
    var receipt := MakeReceipt(db, id, c, CanonicalOf(p, c));
    tx := Store(tx, Draft(id, row, index.0, index.1, (user, p.client), receipt));
  }

  // ----- forward -----

  /** What a forward copies from its live source. */
  datatype Source = Source(message: Message, content: Content, sender: Sender)

  /** The one live attachment of an IMAGE source whose bytes are still ready. */
  function SharedObject(db: Db, m: Id): Option<Attachment> {
    var linked := LinkedTo(db.links, m);
    if |linked| != 1 then None
    else
      var a := Only(linked);
      if a in db.attachments && db.attachments[a].status == AAttached
         && db.attachments[a].objectId in db.objects && db.objects[db.attachments[a].objectId].status == OReady
      then Some(db.attachments[a])
      else None
  }

  lemma OneElement<T>(s: set<T>)
    requires |s| == 1
    ensures exists x :: x in s
    ensures forall x, y | x in s && y in s :: x == y
  {
    var x :| x in s;
    assert |s - {x}| == 0;
    assert forall y | y in s :: y != x ==> y in s - {x};
  }

  function Only<T>(s: set<T>): (x: T)
    requires |s| == 1
    ensures s == {x}
  {
    OneElement(s);
    var x :| x in s;
    x
  }

  /** Discovery, source membership and extraction of the forwarded resource. */
  function ReadSource(db: Db, user: Id, source: Id): Result<Source> {
    if source !in db.messages || !db.messages[source].Live(db.now) then Err(NotFound)
    else if !Readable(db, db.messages[source].conversation, user) then Err(NotFound)
    else
      match Scan(db, source)
      case Err(e) => Err(e)
      case Ok(m) =>
        if m.status != Active || m.content.None? then Err(NotFound)
        else if m.row.mtype == SystemType then Err(Forbidden)
        else if m.row.mtype == ImageType && AllowImages !in db.settings.flags then Err(FeatureDisabled)
        else if m.row.mtype == ImageType && |m.attachments| != 1 then Err(NotFound)
        else if !Acceptable(db, ForwardText(m.row.mtype, m.content.value)) then Err(Rejected)
        else if m.origin.None? && m.row.sender !in db.users then Err(Unavailable)
        else
          var sender := if m.origin.Some? then m.origin.value.sender else Sender(m.row.sender, db.users[m.row.sender].name);
          Ok(Source(m, m.content.value, sender))
  }

  function ForwardText(mtype: MessageType, content: Content): string {
    if mtype == ImageType then content.caption else content.text
  }

  function ForwardRow(db: Db, user: Id, c: Id, id: Id, s: Source): Row
    requires c in db.conversations
  {
    Row(c, user, s.message.row.mtype, db.conversations[c].messageSequence + 1, 1, db.now,
        db.now + db.settings.retentionDays * DAY,
        Some(Seal(db.keys, c, id, Payload(s.content, map[], Some(Origin(s.message.id, s.sender))))),
        None, Some(s.message.id), None, None)
  }

  /** A new logical attachment over the shared, reference-counted object. */
  function Copy(db: Db, user: Id, m: Id, copy: Id, shared: Option<Attachment>): (r: Db)
    ensures r.conversations == db.conversations
  {
    if shared.None? then db
    else
      var a := shared.value.(uploader := user, status := AAttached, expiresAt := db.now + db.settings.retentionDays * DAY);
      db.(attachments := db.attachments[copy := a], links := db.links[copy := m])
  }

  function ForwardSpec(db: Db, user: Id, c: Id, p: Command, id: Id, copy: Id): Outcome<Sent>
    requires p.forwardFrom.Some?
  {
    var access := Activity(db, user, c, false, true);
    if access.Err? then Outcome(db, Err(access.error))
    else if AllowForward !in db.settings.flags then Outcome(db, Err(FeatureDisabled))
    else
      match Retry(db, user, p.client, CanonicalOf(p, c))
      case Some(r) => Outcome(db, r)
      case None =>
        match ReadSource(db, user, p.forwardFrom.value)
        case Err(e) => Outcome(db, Err(e))
        case Ok(s) =>
          match ForwardRefusal(db, s, id, copy)
          case Some(e) => Outcome(db, Err(e))
          case None => Commit(db, ForwardRows(db, user, c, p, id, copy, s), id)
  }

  predicate ImageSource(s: Source) {
    s.message.row.mtype == ImageType
  }

  function SharedBy(db: Db, s: Source): Option<Attachment> {
    if ImageSource(s) then SharedObject(db, s.message.id) else None
  }

  function ForwardRefusal(db: Db, s: Source, id: Id, copy: Id): Option<Error>
  {
    if IndexOf(db.keys, db.unicode, ForwardText(s.message.row.mtype, s.content)).Err? then Some(Invalid)
    else if id in db.messages then Some(Unavailable)
    else if ImageSource(s) && SharedBy(db, s).None? then Some(NotFound)
    else if ImageSource(s) && (copy in db.attachments || copy in db.links) then Some(Unavailable)
    else None
  }

  /** The rows a first, accepted forward leaves behind. */
  function ForwardRows(db: Db, user: Id, c: Id, p: Command, id: Id, copy: Id, s: Source): Db
    requires c in db.conversations
    requires IndexOf(db.keys, db.unicode, ForwardText(s.message.row.mtype, s.content)).Ok?
  {
    var (version, tokens) := IndexOf(db.keys, db.unicode, ForwardText(s.message.row.mtype, s.content)).value;
    var shared := SharedBy(db, s);
    var receipt := MakeReceipt(db, id, c, CanonicalOf(p, c));
    var draft := Draft(id, ForwardRow(db, user, c, id, s), version, tokens, (user, p.client), receipt);
    Insert(Copy(Forget(db, user, p.client), user, id, copy, shared), draft)
  }

  method ForwardMessage(d: Database, user: Id, c: Id, p: Command, id: Id, copy: Id) returns (r: Result<Sent>)
    requires p.forwardFrom.Some?
    modifies d
    ensures Outcome(d.state, r) == ForwardSpec(old(d.state), user, c, p, id, copy)
  {
    var canonical := CanonicalOf(p, c);
    var tx := d.state;
    var access := Activity(tx, user, c, false, true);
    if access.Err? { return Err(access.error); }
    if AllowForward !in tx.settings.flags { return Err(FeatureDisabled); }
    var retry := Retry(tx, user, p.client, canonical);
    if retry.Some? { return retry.value; }
    var found := ReadSource(tx, user, p.forwardFrom.value);
    if found.Err? { return Err(found.error); }
    var source := found.value;
    var refusal := ForwardRefusal(tx, source, id, copy);
    if refusal.Some? { return Err(refusal.value); }
    tx := WriteForward(tx, user, c, p, id, copy, source);
    var done := Commit(d.state, tx, id);
    d.state := done.db;
    return done.result;
  }

  /** The write half of forward: an IMAGE gets a new logical attachment over the
      shared object before the draft is stored. */
  method WriteForward(db: Db, user: Id, c: Id, p: Command, id: Id, copy: Id, source: Source) returns (tx: Db)
    requires c in db.conversations
    requires IndexOf(db.keys, db.unicode, ForwardText(source.message.row.mtype, source.content)).Ok?
    ensures tx == ForwardRows(db, user, c, p, id, copy, source)
  {
    tx := db;
    if (user, p.client) in tx.receipts {
      tx := tx.(receipts := tx.receipts - {(user, p.client)});
    }
    assert tx == Forget(db, user, p.client);
    var shared := SharedBy(db, source);
    if shared.Some? {
      var logical := Attachment(user, shared.value.objectId, shared.value.meta, AAttached, tx.now + tx.settings.retentionDays * DAY);
      tx := tx.(attachments := tx.attachments[copy := logical]);
      tx := tx.(links := tx.links[copy := id]);
    }
    assert tx == Copy(Forget(db, user, p.client), user, id, copy, shared);
    var index := Index(db.keys, db.unicode, ForwardText(source.message.row.mtype, source.content));
    var body := Seal(tx.keys, c, id, Payload(source.content, map[], Some(Origin(source.message.id, source.sender))));
    var row := Row(c, user, source.message.row.mtype, tx.conversations[c].messageSequence + 1, 1, tx.now,
                   tx.now + tx.settings.retentionDays * DAY, Some(body), None, Some(source.message.id), None, None);
    assert row == ForwardRow(db, user, c, id, source);
    var receipt := MakeReceipt(db, id, c, CanonicalOf(p, c));
    tx := Store(tx, Draft(id, row, index.value.0, index.value.1, (user, p.client), receipt));
  }
}
