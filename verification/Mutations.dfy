/** Edit and Delete (internal/message/repository/mutations.go). */
module Mutations {
  import opened Basics
  import opened Text
  import opened Cryptography
  import opened Schema
  import opened Commands
  import opened Access

  /** mutationAccess: the author of an ordinary message, under current write access. */
  function MutationAccess(db: Db, user: Id, m: Id, scope: Option<Id>, flag: Flag): (r: Result<Id>)
    ensures r.Ok? ==> m in db.messages && r.value == db.messages[m].conversation && r.value in db.conversations
    ensures r.Ok? ==> db.messages[m].sender == user && db.messages[m].mtype != SystemType && flag in db.settings.flags
    ensures r.Ok? ==> Joined(db, r.value, user) && !db.members[(r.value, user)].banned && (scope.Some? ==> scope.value == r.value)
  {
    if m !in db.messages then Err(NotFound)
    else
      var row := db.messages[m];
      var access := Activity(db, user, row.conversation, false, true);
      if scope.Some? && scope.value != row.conversation then Err(NotFound)
      else if access.Err? then Err(access.error)
      else if row.sender != user || row.mtype == SystemType then Err(Forbidden)
      else if flag !in db.settings.flags then Err(FeatureDisabled)
      else Ok(row.conversation)
  }

  /** DELETE FROM message_search for one message: every key version of it. */
  function DropIndex(search: map<(Id, Version), set<Token>>, m: Id): map<(Id, Version), set<Token>> {
    map k | k in search && k.0 != m :: search[k]
  }

  /** appendMutation: the projection is read back, then one reference event is added.
      A failed projection rolls the whole change back. */
  function Record(before: Db, changed: Db, c: Id, m: Id, kind: EventKind): Outcome<Message>
    requires c in changed.conversations
  {
    match Scan(changed, m)
    case Err(e) => Outcome(before, Err(e))
    case Ok(message) =>
      if m !in changed.messages then Outcome(before, Err(NotFound))
      else Outcome(Append(changed, c, Envelope(kind, StateRefs(m, changed.messages[m]))), Ok(message))
  }

  // ----- Edit -----

  predicate ValidEdit(u: Unicode, content: Content, expected: int) {
    expected >= 1 && |content.text| <= MAX_TEXT && !Blank(u, content.text)
  }

  function EditRefusal(db: Db, m: Id, content: Content, expected: int): Option<Error>
    requires m in db.messages
  {
    match Scan(db, m)
    case Err(e) => Some(e)
    case Ok(current) =>
      if current.status != Active then Some(NotFound)
      else if current.row.mtype != TextType then Some(Forbidden)
      else if current.row.version != expected then Some(Conflict)
      else if !Acceptable(db, content.text) then Some(Rejected)
      else if IndexOf(db.keys, db.unicode, content.text).Err? then Some(Invalid)
      else None
  }

  /** The stored row after an edit: identity, order, reply and expiry stay. */
  function EditedRow(db: Db, m: Id, content: Content): Row
    requires m in db.messages && Scan(db, m).Ok?
  {
    var row := db.messages[m];
    var current := Scan(db, m).value;
    row.(body := Some(Seal(db.keys, row.conversation, m, Payload(content, current.metadata, current.origin))),
         version := row.version + 1,
         editedAt := Some(db.now))
  }

  function EditRows(db: Db, m: Id, content: Content): Db
    requires m in db.messages && Scan(db, m).Ok? && IndexOf(db.keys, db.unicode, content.text).Ok?
  {
    var (version, tokens) := IndexOf(db.keys, db.unicode, content.text).value;
    db.(messages := db.messages[m := EditedRow(db, m, content)],
        search := DropIndex(db.search, m)[(m, version) := tokens])
  }

  function EditSpec(db: Db, user: Id, m: Id, scope: Option<Id>, content: Content, expected: int): Outcome<Message> {
    if !ValidEdit(db.unicode, content, expected) then Outcome(db, Err(Invalid))
    else
      match MutationAccess(db, user, m, scope, AllowEdit)
      case Err(e) => Outcome(db, Err(e))
      case Ok(c) =>
        match EditRefusal(db, m, content, expected)
        case Some(e) => Outcome(db, Err(e))
        case None => Record(db, EditRows(db, m, content), c, m, MessageUpdated)
  }

  method Edit(d: Database, user: Id, m: Id, scope: Option<Id>, content: Content, expected: int) returns (r: Result<Message>)
    modifies d
    ensures Outcome(d.state, r) == EditSpec(old(d.state), user, m, scope, content, expected)
  {
    if !ValidEdit(d.state.unicode, content, expected) { return Err(Invalid); }
    var access := MutationAccess(d.state, user, m, scope, AllowEdit);
    if access.Err? { return Err(access.error); }
    var refusal := EditRefusal(d.state, m, content, expected);
    if refusal.Some? { return Err(refusal.value); }
    var tx := WriteEdit(d.state, m, content);
    var done := Record(d.state, tx, access.value, m, MessageUpdated);
    d.state := done.db;
    return done.result;
  }

  /** The write half of Edit: ciphertext first, then the complete blind index. */
  method WriteEdit(db: Db, m: Id, content: Content) returns (tx: Db)
    requires m in db.messages && Scan(db, m).Ok? && IndexOf(db.keys, db.unicode, content.text).Ok?
    ensures tx == EditRows(db, m, content)
  {
    tx := db;
    var current := Scan(tx, m).value;
    var index := Index(tx.keys, tx.unicode, content.text);
    var row := tx.messages[m];
    var body := Seal(tx.keys, row.conversation, m, Payload(content, current.metadata, current.origin));
    row := row.(body := Some(body), version := row.version + 1, editedAt := Some(tx.now));
    tx := tx.(messages := tx.messages[m := row]);
    tx := tx.(search := DropIndex(tx.search, m));
    tx := tx.(search := tx.search[(m, index.value.0) := index.value.1]);
  }

  // ----- Delete -----

  /** The newest live message at or below sequence `n`. */
  function LatestLive(messages: map<Id, Row>, order: map<(Id, int), Id>, now: Time, c: Id, n: int): Option<Id>
    decreases n
  {
    if n <= 0 then None
    else if (c, n) in order && order[(c, n)] in messages && messages[order[(c, n)]].Live(now) then Some(order[(c, n)])
    else LatestLive(messages, order, now, c, n - 1)
  }

  /** Logical attachment access ends with the message; the shared bytes stay. */
  function Detach(db: Db, m: Id): Db {
    var gone := LinkedTo(db.links, m);
    db.(attachments := map a | a in db.attachments ::
                         if a in gone then db.attachments[a].(status := ADeleted) else db.attachments[a],
        links := db.links - gone)
  }

  function Tombstone(db: Db, m: Id): Row
    requires m in db.messages
  {
    var row := db.messages[m];
    row.(body := None, reply := None, deletedAt := Some(db.now), version := row.version + 1)
  }

  function DropRelations(db: Db, m: Id): Db {
    db.(reactions := (map x | x in db.reactions && x.message != m :: db.reactions[x]), pins := db.pins - {m})
  }

  function DeleteRows(db: Db, m: Id): Db
    requires m in db.messages && db.messages[m].conversation in db.conversations
  {
    var c := db.messages[m].conversation;
    var rows := db.messages[m := Tombstone(db, m)];
    var conv := db.conversations[c];
    Detach(DropRelations(db, m), m).(
      messages := rows,
      search := DropIndex(db.search, m),
      conversations := db.conversations[c := conv.(last := LatestLive(rows, db.order, db.now, c, conv.messageSequence))])
  }

  function DeleteSpec(db: Db, user: Id, m: Id, scope: Option<Id>): Outcome<Message> {
    match MutationAccess(db, user, m, scope, AllowDelete)
    case Err(e) => Outcome(db, Err(e))
    case Ok(c) =>
      if db.messages[m].deletedAt.Some? then Outcome(db, Scan(db, m))
      else Record(db, DeleteRows(db, m), c, m, MessageDeleted)
  }

  method Delete(d: Database, user: Id, m: Id, scope: Option<Id>) returns (r: Result<Message>)
    modifies d
    ensures Outcome(d.state, r) == DeleteSpec(old(d.state), user, m, scope)
  {
    var access := MutationAccess(d.state, user, m, scope, AllowDelete);
    if access.Err? { return Err(access.error); }
    if d.state.messages[m].deletedAt.Some? { return Scan(d.state, m); }
    var tx := WriteDelete(d.state, m);
    var done := Record(d.state, tx, access.value, m, MessageDeleted);
    d.state := done.db;
    return done.result;
  }

  /** The write half of Delete, statement by statement. */
  method WriteDelete(db: Db, m: Id) returns (tx: Db)
    requires m in db.messages && db.messages[m].conversation in db.conversations
    ensures tx == DeleteRows(db, m)
  {
    tx := db.(reactions := map x | x in db.reactions && x.message != m :: db.reactions[x]);
    tx := tx.(pins := tx.pins - {m});
    assert tx == DropRelations(db, m);
    tx := MarkDetached(tx, m);
    tx := tx.(messages := tx.messages[m := Tombstone(tx, m)]);
    tx := tx.(search := DropIndex(tx.search, m));
    var c := tx.messages[m].conversation;
    var last := LatestLive(tx.messages, tx.order, tx.now, c, tx.conversations[c].messageSequence);
    tx := tx.(conversations := tx.conversations[c := tx.conversations[c].(last := last)]);
  }

  method MarkDetached(db: Db, m: Id) returns (tx: Db)
    ensures tx == Detach(db, m)
  {
    var gone := LinkedTo(db.links, m);
    tx := db.(attachments := map a | a in db.attachments ::
                               if a in gone then db.attachments[a].(status := ADeleted) else db.attachments[a]);
    tx := tx.(links := tx.links - gone);
  }
}
