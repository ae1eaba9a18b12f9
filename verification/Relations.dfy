/** Reactions and pins (internal/message/repository/relations.go). */
module Relations {
  import opened Basics
  import opened Schema
  import opened Access
  import opened Mutations

  const REACTION_KINDS: int := 32
  const LIVE_PINS: int := 100

  /** relationAccess: membership for reactions, GROUP or CHANNEL moderation for pins. */
  function RelationAccess(db: Db, user: Id, m: Id, scope: Option<Id>, flag: Flag, pin: bool): (r: Result<Id>)
    ensures r.Ok? ==> m in db.messages && r.value == db.messages[m].conversation && r.value in db.conversations
    ensures r.Ok? ==> user in db.users && flag in db.settings.flags && (scope.Some? ==> scope.value == r.value)
    ensures r.Ok? ==> Joined(db, r.value, user) && !db.members[(r.value, user)].banned
    ensures r.Ok? && pin ==> db.conversations[r.value].ctype != Direct && db.members[(r.value, user)].Governs()
  {
    if m !in db.messages then Err(NotFound)
    else
      var c := db.messages[m].conversation;
      var access := Activity(db, user, c, false, false);
      if scope.Some? && scope.value != c then Err(NotFound)
      else if access.Err? then Err(access.error)
      else if pin && (db.conversations[c].ctype == Direct || db.members[(c, user)].role != Moderator) then Err(Forbidden)
      else if flag !in db.settings.flags then Err(FeatureDisabled)
      else Ok(c)
  }

  /** relationResult: a real change moves the version and appends one event; a no-op
      only reads the current projection. */
  function Settle(db: Db, changed: Db, c: Id, m: Id, kind: EventKind): Outcome<Message>
    requires m in changed.messages && c in changed.conversations
  {
    var row := changed.messages[m];
    Record(db, changed.(messages := changed.messages[m := row.(version := row.version + 1)]), c, m, kind)
  }

  // ----- React -----

  function ReactionsWith(reactions: map<Reaction, Time>, x: Reaction, at: Time, add: bool): map<Reaction, Time> {
    if add then reactions[x := at] else reactions - {x}
  }

  function WithReaction(db: Db, x: Reaction, add: bool): (r: Db)
    ensures r.messages == db.messages && r.conversations == db.conversations
  {
    db.(reactions := ReactionsWith(db.reactions, x, db.now, add))
  }

  predicate ReactionFits(db: Db, x: Reaction) {
    var kinds := Kinds(ReactionRows(db.reactions, x.message));
    x.emoji in kinds || |kinds| < REACTION_KINDS
  }

  function ReactSpec(db: Db, user: Id, m: Id, scope: Option<Id>, raw: string, add: bool): Outcome<Message> {
    match db.unicode.emoji(raw)
    case None => Outcome(db, Err(Invalid))
    case Some(emoji) =>
      match RelationAccess(db, user, m, scope, AllowReactions, false)
      case Err(e) => Outcome(db, Err(e))
      case Ok(c) => Toggle(db, c, Reaction(m, user, emoji), add)
  }

  function Toggle(db: Db, c: Id, x: Reaction, add: bool): Outcome<Message>
    requires x.message in db.messages && c in db.conversations
  {
    var m := x.message;
    var live := db.messages[m].Live(db.now);
    if add && !live then Outcome(db, Err(NotFound))
    else if add && !ReactionFits(db, x) then Outcome(db, Err(Invalid))
    else if !live || (add <==> x in db.reactions) then Outcome(db, Scan(db, m))
    else Settle(db, WithReaction(db, x, add), c, m, if add then ReactionCreated else ReactionDeleted)
  }

  method React(d: Database, user: Id, m: Id, scope: Option<Id>, raw: string, add: bool) returns (r: Result<Message>)
    modifies d
    ensures Outcome(d.state, r) == ReactSpec(old(d.state), user, m, scope, raw, add)
  {
    var canonical := d.state.unicode.emoji(raw);
    if canonical.None? { return Err(Invalid); }
    var access := RelationAccess(d.state, user, m, scope, AllowReactions, false);
    if access.Err? { return Err(access.error); }
    var tx := d.state;
    var live := tx.messages[m].Live(tx.now);
    if add && !live { return Err(NotFound); }
    var x := Reaction(m, user, canonical.value);
    var changed := false;
    if live {
      if add {
        if !ReactionFits(tx, x) { return Err(Invalid); }
        changed := x !in tx.reactions;
        if changed { tx := tx.(reactions := tx.reactions[x := tx.now]); }  // ON CONFLICT DO NOTHING
      } else {
        changed := x in tx.reactions;
        tx := tx.(reactions := tx.reactions - {x});
      }
    }
    if !changed { return Scan(d.state, m); }
    assert tx == WithReaction(d.state, x, add);
    var done := Settle(d.state, tx, access.value, m, if add then ReactionCreated else ReactionDeleted);
    d.state := done.db;
    return done.result;
  }

  // ----- SetPin -----

  /** The live pins of a conversation: what the collection bound counts. */
  function LivePins(db: Db, c: Id): set<Id> {
    set m | m in db.pins && m in db.messages && db.messages[m].conversation == c && db.messages[m].Live(db.now)
  }

  predicate PinFits(db: Db, c: Id, m: Id) {
    m in db.pins || |LivePins(db, c)| < LIVE_PINS
  }

  function PinsWith(pins: map<Id, Pin>, m: Id, pin: Pin, add: bool): map<Id, Pin> {
    if add then pins[m := pin] else pins - {m}
  }

  function WithPin(db: Db, m: Id, user: Id, add: bool): (r: Db)
    ensures r.messages == db.messages && r.conversations == db.conversations
  {
    db.(pins := PinsWith(db.pins, m, Pin(user, db.now), add))
  }

  function SetPinSpec(db: Db, user: Id, m: Id, scope: Option<Id>, add: bool): Outcome<Message> {
    match RelationAccess(db, user, m, scope, AllowPin, true)
    case Err(e) => Outcome(db, Err(e))
    case Ok(c) => TogglePin(db, c, m, user, add)
  }

  function TogglePin(db: Db, c: Id, m: Id, user: Id, add: bool): Outcome<Message>
    requires m in db.messages && c in db.conversations
  {
    var live := db.messages[m].Live(db.now);
    if add && !live then Outcome(db, Err(NotFound))
    else if add && !PinFits(db, c, m) then Outcome(db, Err(Invalid))
    else if !live || (add <==> m in db.pins) then Outcome(db, Scan(db, m))
    else Settle(db, WithPin(db, m, user, add), c, m, if add then MessagePinned else MessageUnpinned)
  }

  method SetPin(d: Database, user: Id, m: Id, scope: Option<Id>, add: bool) returns (r: Result<Message>)
    modifies d
    ensures Outcome(d.state, r) == SetPinSpec(old(d.state), user, m, scope, add)
  {
    var access := RelationAccess(d.state, user, m, scope, AllowPin, true);
    if access.Err? { return Err(access.error); }
    var tx := d.state;
    var live := tx.messages[m].Live(tx.now);
    if add && !live { return Err(NotFound); }
    var changed := false;
    if live {
      if add {
        if !PinFits(tx, access.value, m) { return Err(Invalid); }
        changed := m !in tx.pins;
        if changed { tx := tx.(pins := tx.pins[m := Pin(user, tx.now)]); }  // ON CONFLICT DO NOTHING
      } else {
        changed := m in tx.pins;
        tx := tx.(pins := tx.pins - {m});
      }
    }
    if !changed { return Scan(d.state, m); }
    assert tx == WithPin(d.state, m, user, add);
    var done := Settle(d.state, tx, access.value, m, if add then MessagePinned else MessageUnpinned);
    d.state := done.db;
    return done.result;
  }
}
