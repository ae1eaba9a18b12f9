/** Authorisation gates shared by every operation (internal/message/repository). */
module Access {
  import opened Basics
  import opened Schema

  predicate Joined(db: Db, c: Id, user: Id) {
    (c, user) in db.members && !db.members[(c, user)].left
  }

  /** readAccess: an active project, an existing conversation and a current membership.
      Bans keep read access. */
  predicate Readable(db: Db, c: Id, user: Id) {
    db.settings.active && c in db.conversations && Joined(db, c, user)
  }

  /** activityAccess: the ban, identity and membership checks of every write, in the
      order the locks are taken. */
  function Activity(db: Db, user: Id, c: Id, system: bool, channelWrite: bool): (r: Result<int>)
    ensures r.Ok? ==> c in db.conversations && user in db.users && db.settings.active
    ensures r.Ok? ==> r.value == db.settings.retentionDays
    ensures r.Ok? && !system ==> Joined(db, c, user) && !db.users[user].banned && !db.members[(c, user)].banned
  {
    if !db.settings.active then Err(Unauthenticated)
    else if user !in db.users then Err(NotFound)
    else
      var u := db.users[user];
      if u.banned then Err(Banned)
      else if system && u.kind != System then Err(Forbidden)
      else if !system && u.kind == System then Err(Forbidden)
      else if !system && u.kind == Bot && AllowBots !in db.settings.flags then Err(FeatureDisabled)
      else if c !in db.conversations then Err(NotFound)
      else if system then Ok(db.settings.retentionDays)
      else if !Joined(db, c, user) then Err(NotFound)
      else if db.members[(c, user)].banned then Err(Banned)
      else if channelWrite && db.conversations[c].ctype == Channel && db.members[(c, user)].role != Moderator then Err(Forbidden)
      else Ok(db.settings.retentionDays)
  }
}
