/** Who may do what, said of the rows alone (internal/message/repository/postgres.go). */
module Admission {
  import opened Basics
  import opened Schema
  import opened Access

  // ----- the actors -----

  /** A current member of an existing conversation. */
  predicate CurrentMember(db: Db, c: Id, user: Id) {
    c in db.conversations && (c, user) in db.members && !db.members[(c, user)].left
  }

  /** Current members of an active Project read; bans do not matter. */
  predicate MayRead(db: Db, c: Id, user: Id) {
    db.settings.active && CurrentMember(db, c, user)
  }

  /** A known, unbanned account of the kind the call is for: system calls belong to SYSTEM
      accounts, all others to humans and, where the Project allows them, to bots. */
  predicate Entitled(db: Db, user: Id, system: bool) {
    && user in db.users && !db.users[user].banned
    && match db.users[user].kind
       case System => system
       case Human => !system
       case Bot => !system && AllowBots in db.settings.flags
  }

  /** Takes part in `c`: reacts, pins, acknowledges. A conversation ban ends it. */
  predicate MayAct(db: Db, c: Id, user: Id) {
    && db.settings.active && Entitled(db, user, false)
    && CurrentMember(db, c, user) && !db.members[(c, user)].banned
  }

  /** Writes content: in a CHANNEL only moderators do. */
  predicate MayPost(db: Db, c: Id, user: Id) {
    MayAct(db, c, user) && (db.conversations[c].ctype == Channel ==> db.members[(c, user)].role == Moderator)
  }

  /** Service output needs no membership. */
  predicate MayAnnounce(db: Db, c: Id, user: Id) {
    db.settings.active && Entitled(db, user, true) && c in db.conversations
  }

  /** The write gate admits exactly these actors, and tells everybody else the first thing
      that is wrong: the Project, the account, its kind, the conversation, the membership. */
  lemma ActivityAnswers(db: Db, user: Id, c: Id, system: bool, channelWrite: bool)
    ensures var r := Activity(db, user, c, system, channelWrite);
      && (r.Ok? <==> if system then MayAnnounce(db, c, user) else if channelWrite then MayPost(db, c, user) else MayAct(db, c, user))
      && (r == Err(Unauthenticated) <==> !db.settings.active)
      && (r == Err(FeatureDisabled) <==>
            && db.settings.active && user in db.users && !db.users[user].banned
            && !system && db.users[user].kind == Bot && AllowBots !in db.settings.flags)
      && (r == Err(NotFound) <==>
            && db.settings.active
            && (user !in db.users
                || (Entitled(db, user, system) && (c !in db.conversations || (!system && !CurrentMember(db, c, user))))))
      && (r == Err(Banned) <==>
            && db.settings.active && user in db.users
            && (db.users[user].banned
                || (!system && Entitled(db, user, false) && CurrentMember(db, c, user) && db.members[(c, user)].banned)))
      && (r == Err(Forbidden) <==>
            && db.settings.active && user in db.users && !db.users[user].banned
            && ((system <==> db.users[user].kind != System)
                || (!system && channelWrite && MayAct(db, c, user) && !MayPost(db, c, user))))
  {
  }
}
