/** Retried sends over whole runs: while its receipt lives, a client id names one message. */
module Idempotency {
  import opened Basics
  import opened Cryptography
  import opened Schema
  import opened Commands
  import opened Access
  import opened Sending
  import opened Mutations
  import opened Memberships
  import opened Relations
  import opened Recovery
  import opened Attachments
  import opened Deltas
  import opened Invariants
  import opened SendingProofs
  import opened MutationProofs
  import opened MembershipProofs
  import opened OperationsProofs
  import opened Footprints
  import opened Evolution
  import opened System

  predicate LiveReceipt(db: Db, k: (Id, Id)) {
    k in db.receipts && db.now < db.receipts[k].expiresAt
  }

  /** Everything a send checks before it looks for a receipt. */
  predicate Admissible(db: Db, user: Id, c: Id, p: Command, system: bool) {
    && Validate(db.unicode, p, system)
    && if p.forwardFrom.Some? then Activity(db, user, c, false, true).Ok? && AllowForward in db.settings.flags
       else IndexOf(db.keys, db.unicode, SearchText(p)).Ok? && Activity(db, user, c, system, true).Ok? && FeaturesAllow(db, p)
  }

  /** What a live receipt answers to `command`. */
  function Answer(db: Db, r: Receipt, command: Canonical): Result<Sent>
    requires r.message in db.messages && Scan(db, r.message).Ok?
  {
    if r.fingerprint.command == command then Ok(Sent(Scan(db, r.message).value, true, r.expiresAt)) else Err(IdempotencyConflict)
  }

  lemma RetryIs(db: Db, user: Id, client: Id, command: Canonical)
    requires Inv(db) && LiveReceipt(db, (user, client))
    ensures var r := db.receipts[(user, client)];
      r.message in db.messages && Scan(db, r.message).Ok? && Retry(db, user, client, command) == Some(Answer(db, r, command))
  {
    var r := db.receipts[(user, client)];
    assert ReceiptOk(db.keys, db.messages, (user, client), r);
    ScanSucceeds(db, r.message);
    hide Scan;
  }

  lemma BodyAnswer(db: Db, user: Id, c: Id, p: Command, system: bool, id: Id, found: Result<Sent>)
    requires Bodied(p) && IndexOf(db.keys, db.unicode, SearchText(p)).Ok?
    requires Retry(db, user, p.client, CanonicalOf(p, c)) == Some(found)
    ensures SendBody(db, user, c, p, system, id).db == db
    ensures SendBody(db, user, c, p, system, id).result ==
              if Activity(db, user, c, system, true).Err? then Err(Activity(db, user, c, system, true).error)
              else if !FeaturesAllow(db, p) then Err(FeatureDisabled)
              else found
  {
    hide Retry, Activity, FeaturesAllow, Refusal, SendRows, Commit, CanonicalOf, IndexOf;
  }

  lemma ForwardAnswer(db: Db, user: Id, c: Id, p: Command, id: Id, copy: Id, found: Result<Sent>)
    requires p.forwardFrom.Some?
    requires Retry(db, user, p.client, CanonicalOf(p, c)) == Some(found)
    ensures ForwardSpec(db, user, c, p, id, copy).db == db
    ensures ForwardSpec(db, user, c, p, id, copy).result ==
              if Activity(db, user, c, false, true).Err? then Err(Activity(db, user, c, false, true).error)
              else if AllowForward !in db.settings.flags then Err(FeatureDisabled)
              else found
  {
    hide Retry, Activity, ReadSource, ForwardRefusal, ForwardRows, Commit, CanonicalOf;
  }

  /** While a receipt lives, a command with its client id changes nothing and is answered
      by the same message if it is the same command, and refused as a conflict if not. */
  lemma RetryAnswer(db: Db, user: Id, c: Id, p: Command, system: bool, id: Id, copy: Id)
    requires Inv(db) && LiveReceipt(db, (user, p.client))
    ensures SendSpec(db, user, c, p, system, id, copy).db == db
    ensures !Admissible(db, user, c, p, system) ==> SendSpec(db, user, c, p, system, id, copy).result.Err?
    ensures Admissible(db, user, c, p, system) ==>
              var r := db.receipts[(user, p.client)];
              && r.message in db.messages && Scan(db, r.message).Ok?
              && SendSpec(db, user, c, p, system, id, copy).result == Answer(db, r, CanonicalOf(p, c))
  {
    RetryIs(db, user, p.client, CanonicalOf(p, c));
    hide Inv, Scan, SendBody, ForwardSpec, Activity, Retry, Answer, CanonicalOf, FeaturesAllow, IndexOf;
    var found := Answer(db, db.receipts[(user, p.client)], CanonicalOf(p, c));
    if p.forwardFrom.Some? {
      ForwardAnswer(db, user, c, p, id, copy, found);
    } else if Validate(db.unicode, p, system) && IndexOf(db.keys, db.unicode, SearchText(p)).Ok? {
      BodyAnswer(db, user, c, p, system, id, found);
    }
  }

  // ----- receipts over runs -----

  lemma NoneIsDead(db: Db, user: Id, client: Id, command: Canonical)
    ensures Retry(db, user, client, command).None? <==> !LiveReceipt(db, (user, client))
  {
  }

  /** Replacing a receipt that is not live forgets nothing. */
  lemma ReplaceDead(now: Time, a: map<(Id, Id), Receipt>, k: (Id, Id), r: Receipt, l: (Id, Id))
    requires !(k in a && now < a[k].expiresAt) && l in a && now < a[l].expiresAt
    ensures l in a[k := r] && a[k := r][l] == a[l]
  {
  }

  lemma StepRemembers(db: Db, x: Action, k: (Id, Id))
    requires LiveReceipt(db, k)
    ensures k in Apply(db, x).receipts && Apply(db, x).receipts[k] == db.receipts[k]
  {
    hide Apply, SameMembers, ObjectsStay;
    if x.ASend? {
      SendStepRemembers(db, x, k);
    } else if MessageAction(x) {
      MessageActionFootprint(db, x);
    } else if MemberAction(x) {
      MemberActionFootprint(db, x);
    } else if FileAction(x) {
      FileActionFootprint(db, x);
    } else {
      QuietActionFootprint(db, x);
    }
  }

  lemma SendStepRemembers(db: Db, x: Action, k: (Id, Id))
    requires LiveReceipt(db, k) && x.ASend?
    ensures k in Apply(db, x).receipts && Apply(db, x).receipts[k] == db.receipts[k]
  {
    hide Apply, SameMembers, ObjectsStay, Retry;
    SendActionFootprint(db, x);
    var owner := (x.user, x.command.client);
    if Apply(db, x) != db {
      NoneIsDead(db, x.user, x.command.client, CanonicalOf(x.command, x.c));
      ReplaceDead(db.now, db.receipts, owner, MakeReceipt(db, x.id, x.c, CanonicalOf(x.command, x.c)), k);
    }
  }

  /** A live receipt is never replaced or forgotten before it expires. */
  lemma {:induction false} RunRemembers(db: Db, actions: seq<Action>, k: (Id, Id))
    requires Inv(db) && LiveReceipt(db, k) && Run(db, actions).now < db.receipts[k].expiresAt
    ensures k in Run(db, actions).receipts && Run(db, actions).receipts[k] == db.receipts[k]
    decreases |actions|
  {
    hide Inv, Apply;
    if actions != [] {
      var b := Apply(db, actions[0]);
      StepKeeps(db, actions[0]);
      StepRemembers(db, actions[0], k);
      RunClock(b, actions[1..]);
      RunRemembers(b, actions[1..], k);
    }
  }

  lemma RunClock(db: Db, actions: seq<Action>)
    requires Inv(db)
    ensures db.now <= Run(db, actions).now
  {
    RunKeeps(db, actions);
    hide Run, Inv, Checkpointed, Persists, LogGrows, RowMoves;
  }

  // ----- the theorem -----

  /** A first success records the canonical command it answered. */
  lemma FirstSend(db: Db, user: Id, c: Id, p: Command, system: bool, id: Id, copy: Id)
    requires Inv(db)
    ensures var o := SendSpec(db, user, c, p, system, id, copy);
      o.result.Ok? && !o.result.value.deduplicated ==>
        && id !in db.messages && id in o.db.messages && o.result.value.message.id == id
        && (user, p.client) in o.db.receipts && o.db.receipts[(user, p.client)] == MakeReceipt(db, id, c, CanonicalOf(p, c))
        && o.db.now == db.now
  {
    hide Inv, SendRows, ForwardRows, CanonicalOf, Activity;
    var o := SendSpec(db, user, c, p, system, id, copy);
    if o.result.Ok? && !o.result.value.deduplicated {
      if p.forwardFrom.Some? {
        ForwardLeaves(db, user, c, p, id, copy);
        ForwardFootprint(db, user, c, p, id, copy, ReadSource(db, user, p.forwardFrom.value).value);
      } else {
        SendBodyShape(db, user, c, p, system, id);
        SendFootprint(db, user, c, p, id);
      }
    }
  }

  /** After a first success, for any further run of any transactions (key rotations that
      retain old versions included) that stays within the receipt's lifetime, every command
      with the same sender and client id leaves the database alone; an admissible one names
      the first message exactly when it is the same command, and conflicts otherwise. */
  lemma SendOnce(db: Db, user: Id, c: Id, p: Command, system: bool, id: Id, copy: Id, between: seq<Action>,
                 c': Id, p': Command, system': bool, id': Id, copy': Id)
    requires Reachable(db) && p'.client == p.client
    requires First(SendSpec(db, user, c, p, system, id, copy).result, id)
    requires Run(SendSpec(db, user, c, p, system, id, copy).db, between).now < db.now + DEDUP
    ensures var later := Run(SendSpec(db, user, c, p, system, id, copy).db, between);
      var again := SendSpec(later, user, c', p', system', id', copy');
      && again.db == later
      && (again.result.Ok? <==> Admissible(later, user, c', p', system') && SameCommand(p, c, p', c'))
      && (again.result.Ok? ==> again.result.value.deduplicated && again.result.value.message.id == id)
      && (Admissible(later, user, c', p', system') && !SameCommand(p, c, p', c') ==> again.result == Err(IdempotencyConflict))
  {
    hide Reachable, Checkpointed, Inv, SendSpec, Run, Admissible, SameCommand, CanonicalOf;
    ReachableInv(db);
    var first := SendSpec(db, user, c, p, system, id, copy).db;
    FirstSend(db, user, c, p, system, id, copy);
    SendStep(db, user, c, p, system, id, copy);
    var later := Run(first, between);
    RunKeeps(first, between);
    RunClock(first, between);
    RunRemembers(first, between, (user, p.client));
    RetryAnswer(later, user, c', p', system', id', copy');
    CanonicalIdentifies(p, c, p', c');
  }
}
