/** Who may send, forward, edit, delete, react, pin and acknowledge, and what everybody else
    is told, said of the rows alone (internal/message/repository). */
module Writers {
  import opened Basics
  import opened Text
  import opened Cryptography
  import opened Schema
  import opened Commands
  import opened Access
  import opened Sending
  import opened Mutations
  import opened Relations
  import opened Recovery
  import opened Attachments
  import opened Deltas
  import opened Invariants
  import opened SendingProofs
  import opened MutationProofs
  import opened Evolution
  import opened Idempotency
  import opened System
  import opened Effects
  import opened Admission
  import opened Readers

  // ----- commands -----

  predicate NoBlank(u: Unicode, s: string) {
    exists i :: 0 <= i < |s| && !u.space(s[i])
  }

  predicate NoFiles(p: Command) {
    p.attachments == None || p.attachments == Some([])
  }

  /** The three shapes of an ordinary command. */
  predicate Sendable(u: Unicode, p: Command, system: bool) {
    && p.forwardFrom == None && (system ==> p.reply == None)
    && match p.typeName
       case Named(TextType) => !system && NoBlank(u, p.content.text) && |p.content.text| <= 16384 && p.content.caption == "" && NoFiles(p)
       case Named(SystemType) => system && NoBlank(u, p.content.text) && |p.content.text| <= 16384 && p.content.caption == "" && NoFiles(p)
       case Named(ImageType) =>
         !system && p.content.text == "" && |p.content.caption| <= 4096 && p.attachments.Some? && |p.attachments.value| == 1
       case _ => false
  }

  /** What of a command is indexed and moderated. */
  function Said(p: Command): string {
    if p.typeName == Named(ImageType) then p.content.caption else p.content.text
  }

  /** A forward names its source and nothing else. */
  predicate Forwardable(p: Command, system: bool) {
    && p.forwardFrom.Some? && !system && p.present == {}
    && p.typeName == NoType && p.content.text == "" && p.content.caption == ""
    && p.metadata == None && p.reply == None && p.attachments == None
  }

  lemma CommandsAre(u: Unicode, p: Command, system: bool)
    ensures Validate(u, p, system) <==> Sendable(u, p, system) || Forwardable(p, system)
  {
  }

  /** No word of the text is on an enabled blacklist. */
  predicate Allowed(db: Db, text: string) {
    db.settings.blacklist.Some? ==> forall w | w in db.settings.blacklist.value :: w !in Words(db.unicode, text)
  }

  predicate Alive(db: Db, m: Id) {
    m in db.messages && db.messages[m].deletedAt == None && db.now < db.messages[m].expiresAt
  }

  // ----- send -----

  predicate FlagsAllow(db: Db, p: Command) {
    (p.reply != None ==> AllowReply in db.settings.flags) && (p.typeName == Named(ImageType) ==> AllowImages in db.settings.flags)
  }

  /** The upload an IMAGE consumes is the sender's own, ready and unexpired. */
  predicate OwnUpload(db: Db, user: Id, p: Command) {
    p.typeName == Named(ImageType) && p.attachments.Some? && |p.attachments.value| == 1 ==>
      var a := p.attachments.value[0];
      && a in db.attachments && db.attachments[a].uploader == user
      && db.attachments[a].status == AttachmentStatus.AReady && db.now < db.attachments[a].expiresAt
  }

  predicate RepliesHere(db: Db, c: Id, p: Command) {
    p.reply.Some? ==> Alive(db, p.reply.value) && db.messages[p.reply.value].conversation == c
  }

  predicate WellFormed(db: Db, p: Command, system: bool) {
    Sendable(db.unicode, p, system) && |Words(db.unicode, Said(p))| <= 2048
  }

  predicate MaySend(db: Db, c: Id, user: Id, system: bool) {
    if system then MayAnnounce(db, c, user) else MayPost(db, c, user)
  }

  lemma RefusalIs(db: Db, user: Id, c: Id, p: Command, system: bool, id: Id)
    requires Files(db.messages, db.attachments, db.objects, db.links) && Sendable(db.unicode, p, system) && Bodied(p)
    ensures var r := Refusal(db, user, c, p, id);
      && (r.None? <==> Allowed(db, Said(p)) && OwnUpload(db, user, p) && RepliesHere(db, c, p) && id !in db.messages)
      && (!Allowed(db, Said(p)) ==> r == Some(Rejected))
      && (Allowed(db, Said(p)) && !(OwnUpload(db, user, p) && RepliesHere(db, c, p)) ==> r == Some(NotFound))
      && (Allowed(db, Said(p)) && OwnUpload(db, user, p) && RepliesHere(db, c, p) && id in db.messages ==> r == Some(Unavailable))
  {
    AllowedIs(db, Said(p));
    hide Acceptable, Allowed, Words;
    if p.typeName == Named(ImageType) && p.attachments.value[0] in db.attachments {
      assert AttachmentOk(db.messages, db.objects, db.links, p.attachments.value[0], db.attachments[p.attachments.value[0]]);
    }
  }

  lemma AllowedIs(db: Db, text: string)
    ensures Acceptable(db, text) <==> Allowed(db, text)
  {
    if db.settings.blacklist.Some? && Acceptable(db, text) {
      forall w | w in db.settings.blacklist.value ensures w !in Words(db.unicode, text) {
        assert w !in Words(db.unicode, text) * db.settings.blacklist.value;
      }
    }
  }

  lemma SendCommits(db: Db, user: Id, c: Id, p: Command, id: Id)
    requires Inv(db) && SendAccepted(db, user, c, p, id)
    ensures var done := Commit(db, SendRows(db, user, c, p, id), id); First(done.result, id)
  {
    SendKeeps(db, user, c, p, id);
    var b := SendRows(db, user, c, p, id);
    assert id in b.messages by { hide Inv; }
    hide SendRows, Core, Files, SendAccepted;
    MessageCommits(db, b, id);
  }

  lemma MessageCommits(before: Db, after: Db, id: Id)
    requires Inv(after) && id in after.messages
    ensures First(Commit(before, after, id).result, id)
  {
    hide DenseLog, Ledger, Ordered, Tails, BodyOk, Indexed, Receipts, Related, Cursors, Governance, Files;
    ScanSucceeds(after, id);
    assert Scan(after, id).value.id == id;
    hide Scan;
  }

  lemma BodyAnswers(db: Db, user: Id, c: Id, p: Command, system: bool, id: Id)
    requires Inv(db) && Sendable(db.unicode, p, system) && Bodied(p) && IndexOf(db.keys, db.unicode, SearchText(p)).Ok?
    requires Retry(db, user, p.client, CanonicalOf(p, c)).None?
    ensures var r := SendBody(db, user, c, p, system, id).result;
      var may := MaySend(db, c, user, system);
      && (First(r, id) <==> may && FlagsAllow(db, p) && Refusal(db, user, c, p, id).None?)
      && (r.Ok? ==> First(r, id))
      && (!may ==> r.Err? && Activity(db, user, c, system, true) == Err(r.error))
      && (may && !FlagsAllow(db, p) ==> r == Err(FeatureDisabled))
      && (may && FlagsAllow(db, p) && Refusal(db, user, c, p, id).Some? ==> r == Err(Refusal(db, user, c, p, id).value))
  {
    ActivityAnswers(db, user, c, system, true);
    hide Inv, Retry, IndexOf, Activity, SendRows, Commit, MayPost, MayAct, MayAnnounce, Sendable;
    if Activity(db, user, c, system, true).Ok? && FeaturesAllow(db, p) && Refusal(db, user, c, p, id).None? {
      SendCommits(db, user, c, p, id);
    }
  }

  /** A command without a live receipt creates a message exactly when it is well formed, its
      sender may post (or announce) here, the flags its reply and image need are on, no word
      is listed, its upload and its reply target are good, and the identity is fresh; and the
      first of these that fails is the answer. */
  lemma SendAnswers(db: Db, user: Id, c: Id, p: Command, system: bool, id: Id, copy: Id)
    requires Reachable(db) && p.forwardFrom == None && !LiveReceipt(db, (user, p.client))
    ensures var r := SendSpec(db, user, c, p, system, id, copy).result;
      var formed, may := WellFormed(db, p, system), MaySend(db, c, user, system);
      var clean := Allowed(db, Said(p));
      && (First(r, id) <==>
            formed && may && FlagsAllow(db, p) && clean && OwnUpload(db, user, p) && RepliesHere(db, c, p) && id !in db.messages)
      && (r.Ok? ==> First(r, id))
      && (!formed ==> r == Err(Invalid))
      && (formed && !may ==> r.Err? && Activity(db, user, c, system, true) == Err(r.error))
      && (formed && may && !FlagsAllow(db, p) ==> r == Err(FeatureDisabled))
      && (formed && may && FlagsAllow(db, p) && !clean ==> r == Err(Rejected))
      && (formed && may && FlagsAllow(db, p) && clean && !(OwnUpload(db, user, p) && RepliesHere(db, c, p)) ==> r == Err(NotFound))
      && (formed && may && FlagsAllow(db, p) && clean && OwnUpload(db, user, p) && RepliesHere(db, c, p) && id in db.messages
          ==> r == Err(Unavailable))
  {
    hide Reachable, Core, Checkpointed, Files, Refusal, SendBody, MaySend, OwnUpload, RepliesHere, Allowed, FlagsAllow;
    ReachableInv(db);
    CommandsAre(db.unicode, p, system);
    if WellFormed(db, p, system) {
      RefusalIs(db, user, c, p, system, id);
      BodyAnswers(db, user, c, p, system, id);
    }
  }

  // ----- forward -----

  /** A live message of a conversation the forwarder belongs to. */
  predicate Within(db: Db, user: Id, m: Id) {
    Alive(db, m) && MayRead(db, db.messages[m].conversation, user)
  }

  function PayloadOf(db: Db, m: Id): Payload
    requires m in db.messages && db.messages[m].body.Some?
  {
    db.messages[m].body.value.payload
  }

  /** The text a forward repeats. */
  function Repeated(db: Db, m: Id): string
    requires m in db.messages && db.messages[m].body.Some?
  {
    if db.messages[m].mtype == ImageType then PayloadOf(db, m).content.caption else PayloadOf(db, m).content.text
  }

  predicate OneFile(db: Db, m: Id) {
    |set a | a in db.links && db.links[a] == m| == 1
  }

  predicate NamesSender(db: Db, m: Id)
    requires m in db.messages && db.messages[m].body.Some?
  {
    PayloadOf(db, m).origin == None ==> db.messages[m].sender in db.users
  }

  lemma LiveScan(db: Db, m: Id)
    requires Inv(db) && Alive(db, m)
    ensures db.messages[m].body.Some? && Scan(db, m).Ok?
    ensures var s := Scan(db, m).value;
      && s.id == m && s.status == Active && s.row == HeaderOf(db.messages[m])
      && s.content == Some(PayloadOf(db, m).content) && s.origin == PayloadOf(db, m).origin
      && |s.attachments| == |set a | a in db.links && db.links[a] == m|
  {
    hide DenseLog, Ledger, Ordered, Tails, Indexed, Receipts, Related, Cursors, Governance, AttachmentOk;
    assert BodyOk(db.keys, m, db.messages[m]);
    var views := Views(db.links, db.attachments, m);
    assert views.Keys == LinkedTo(db.links, m);
  }

  /** A message of a kind that is forwarded, with the file an IMAGE needs. */
  predicate Sound(db: Db, m: Id)
    requires m in db.messages
  {
    && db.messages[m].mtype != SystemType
    && (db.messages[m].mtype == ImageType ==> AllowImages in db.settings.flags && OneFile(db, m))
  }

  /** What a forward may copy. */
  predicate Repeatable(db: Db, m: Id)
    requires m in db.messages && db.messages[m].body.Some?
  {
    && Sound(db, m)
    && Allowed(db, Repeated(db, m)) && NamesSender(db, m)
  }

  lemma SourceAnswers(db: Db, user: Id, m: Id)
    requires Inv(db)
    ensures var r := ReadSource(db, user, m);
      && (!Within(db, user, m) ==> r == Err(NotFound))
      && (Within(db, user, m) ==> db.messages[m].body.Some? && (r.Ok? <==> Repeatable(db, m)))
      && (Within(db, user, m) && db.messages[m].mtype == SystemType ==> r == Err(Forbidden))
      && (Within(db, user, m) && db.messages[m].mtype == ImageType ==>
            && (AllowImages !in db.settings.flags ==> r == Err(FeatureDisabled))
            && (AllowImages in db.settings.flags && !OneFile(db, m) ==> r == Err(NotFound)))
      && (Within(db, user, m) && Sound(db, m) && !Allowed(db, Repeated(db, m)) ==> r == Err(Rejected))
      && (Within(db, user, m) && Sound(db, m) && Allowed(db, Repeated(db, m)) && !NamesSender(db, m) ==> r == Err(Unavailable))
      && (r.Ok? ==> r.value.message.id == m && r.value.message.row.mtype == db.messages[m].mtype
                    && ForwardText(db.messages[m].mtype, r.value.content) == Repeated(db, m))
  {
    hide Inv;
    if Alive(db, m) {
      LiveScan(db, m);
      AllowedIs(db, Repeated(db, m));
    }
    hide Scan, Acceptable, Allowed;
  }

  /** The identities of the new rows are unused. */
  predicate Unused(db: Db, m: Id, id: Id, copy: Id)
    requires m in db.messages
  {
    id !in db.messages && (db.messages[m].mtype == ImageType ==> copy !in db.attachments)
  }

  lemma SharedExists(db: Db, s: Source)
    requires Files(db.messages, db.attachments, db.objects, db.links)
    requires OneFile(db, s.message.id) && s.message.row.mtype == ImageType
    ensures SharedBy(db, s).Some?
  {
    var linked := LinkedTo(db.links, s.message.id);
    assert linked == set a | a in db.links && db.links[a] == s.message.id;
    var a := Only(linked);
    assert a in linked;
    assert AttachmentOk(db.messages, db.objects, db.links, a, db.attachments[a]);
  }

  lemma ForwardRefusalIs(db: Db, user: Id, s: Source, id: Id, copy: Id)
    requires Inv(db) && ReadSource(db, user, s.message.id) == Ok(s)
    ensures Alive(db, s.message.id) && db.messages[s.message.id].body.Some?
    ensures var m := s.message.id; var words := |Words(db.unicode, Repeated(db, m))|;
      var r := ForwardRefusal(db, s, id, copy);
      && (r.None? <==> words <= 2048 && Unused(db, m, id, copy))
      && (words > 2048 ==> r == Some(Invalid))
      && (words <= 2048 && !Unused(db, m, id, copy) ==> r == Some(Unavailable))
  {
    hide DenseLog, Ledger, Ordered, Tails, Bodies, Indexed, Receipts, Related, Cursors, Governance, Words, Blind;
    assert Alive(db, s.message.id) && db.messages[s.message.id].body.Some? by { SourceAnswers(db, user, s.message.id); }
    SourceAnswers(db, user, s.message.id);
    hide ReadSource, Scan;
    if s.message.row.mtype == ImageType { SharedExists(db, s); }
    hide SharedBy;
    assert copy in db.links ==> copy in db.attachments;
  }

  lemma ForwardCommits(db: Db, user: Id, c: Id, p: Command, id: Id, copy: Id, s: Source)
    requires Inv(db) && ForwardAccepted(db, user, c, p, id, copy, s)
    ensures First(Commit(db, ForwardRows(db, user, c, p, id, copy, s), id).result, id)
  {
    ForwardKeeps(db, user, c, p, id, copy, s);
    var b := ForwardRows(db, user, c, p, id, copy, s);
    assert id in b.messages by { hide Inv; }
    hide ForwardRows, Core, Files, ForwardAccepted;
    MessageCommits(db, b, id);
  }

  lemma ForwardAccepts(db: Db, user: Id, c: Id, p: Command, id: Id, copy: Id, s: Source)
    requires Inv(db) && c in db.conversations && p.forwardFrom.Some? && Retry(db, user, p.client, CanonicalOf(p, c)).None?
    requires ReadSource(db, user, p.forwardFrom.value) == Ok(s) && ForwardRefusal(db, s, id, copy).None?
    ensures ForwardAccepted(db, user, c, p, id, copy, s)
  {
    hide Inv, ReadSource, Scan, Retry, SharedBy, IndexOf;
    SourceAnswers(db, user, p.forwardFrom.value);
    hide Repeatable, Allowed, NamesSender, Alive, MayRead;
    SharedIsReady(db, s);
    ImagesShare(db, s);
  }

  lemma ImagesShare(db: Db, s: Source)
    ensures SharedBy(db, s).Some? ==> ImageSource(s)
  {
  }

  /** The steps of a forward without a live receipt. */
  lemma ForwardFlows(db: Db, user: Id, c: Id, p: Command, id: Id, copy: Id)
    requires p.forwardFrom.Some? && Retry(db, user, p.client, CanonicalOf(p, c)).None?
    ensures var r, access, found := ForwardSpec(db, user, c, p, id, copy).result, Activity(db, user, c, false, true), ReadSource(db, user, p.forwardFrom.value);
      && (access.Err? ==> r == Err(access.error))
      && (access.Ok? && AllowForward !in db.settings.flags ==> r == Err(FeatureDisabled))
      && (access.Ok? && AllowForward in db.settings.flags ==>
            && (found.Err? ==> r == Err(found.error))
            && (found.Ok? ==>
                  var fault := ForwardRefusal(db, found.value, id, copy);
                  && (fault.Some? ==> r == Err(fault.value))
                  && (fault.None? ==> r == Commit(db, ForwardRows(db, user, c, p, id, copy, found.value), id).result)))
  {
    hide Retry, Activity, ReadSource, ForwardRefusal, ForwardRows, Commit;
  }

  /** A forward without a live receipt creates a message exactly when the forwarder may post
      in the target, forwarding is on, the source is a live message of a conversation the
      forwarder currently belongs to, it may be repeated, and the identities are unused. A
      forwarder without a current membership row in the source's conversation is told exactly
      that there is no such message. */
  lemma ForwardAnswers(db: Db, user: Id, c: Id, p: Command, id: Id, copy: Id)
    requires Reachable(db) && p.forwardFrom.Some? && !LiveReceipt(db, (user, p.client))
    ensures var o, m := ForwardSpec(db, user, c, p, id, copy), p.forwardFrom.value;
      var r, may := o.result, MayPost(db, c, user) && AllowForward in db.settings.flags;
      && (Within(db, user, m) ==> db.messages[m].body.Some?)
      && (First(r, id) <==>
            && may && Within(db, user, m) && Repeatable(db, m)
            && |Words(db.unicode, Repeated(db, m))| <= 2048 && Unused(db, m, id, copy))
      && (!First(r, id) ==> r.Err? && o.db == db)
      && (!MayPost(db, c, user) ==> r.Err? && Activity(db, user, c, false, true) == Err(r.error))
      && (MayPost(db, c, user) && !may ==> r == Err(FeatureDisabled))
      && (may && !Within(db, user, m) ==> r == Err(NotFound))
      && (may && Within(db, user, m) && !Repeatable(db, m) ==> r.Err? && ReadSource(db, user, m) == Err(r.error))
      && (may && Within(db, user, m) && Repeatable(db, m) && |Words(db.unicode, Repeated(db, m))| > 2048 ==> r == Err(Invalid))
      && (may && Within(db, user, m) && Repeatable(db, m) && |Words(db.unicode, Repeated(db, m))| <= 2048 && !Unused(db, m, id, copy)
          ==> r == Err(Unavailable))
  {
    hide Reachable, Inv, Checkpointed, Retry, Activity, ReadSource, ForwardRefusal, ForwardRows, Commit, MayPost, Within, Repeatable, Unused, Words, ForwardSpec;
    var m := p.forwardFrom.value;
    ReachableInv(db);
    ActivityAnswers(db, user, c, false, true);
    SourceAnswers(db, user, m);
    NoneIsDead(db, user, p.client, CanonicalOf(p, c));
    ForwardFlows(db, user, c, p, id, copy);
    if ReadSource(db, user, m).Ok? {
      var s := ReadSource(db, user, m).value;
      ForwardRefusalIs(db, user, s, id, copy);
      if MayPost(db, c, user) && ForwardRefusal(db, s, id, copy).None? {
        ForwardAccepts(db, user, c, p, id, copy, s);
        ForwardCommits(db, user, c, p, id, copy, s);
      }
    }
    ForwardLeaves(db, user, c, p, id, copy);
  }

  /** Every command is answered by the one or the other. */
  lemma CommandsSplit(db: Db, user: Id, c: Id, p: Command, system: bool, id: Id, copy: Id)
    requires p.forwardFrom.Some?
    ensures SendSpec(db, user, c, p, system, id, copy) ==
              if Forwardable(p, system) then ForwardSpec(db, user, c, p, id, copy) else Outcome(db, Err(Invalid))
  {
    CommandsAre(db.unicode, p, system);
    hide ForwardSpec;
  }

  // ----- edit and delete -----

  /** The message exists, in the conversation the caller named if any. */
  predicate Located(db: Db, m: Id, scope: Option<Id>) {
    m in db.messages && (scope == None || scope == Some(db.messages[m].conversation))
  }

  predicate OwnMessage(db: Db, user: Id, m: Id)
    requires m in db.messages
  {
    db.messages[m].sender == user && db.messages[m].mtype != SystemType
  }

  predicate EditAsked(u: Unicode, content: Content, expected: int) {
    1 <= expected && |content.text| <= 16384 && NoBlank(u, content.text)
  }

  /** The gate of both: an own message, where the author may still post, under the flag. */
  lemma MutationAnswers(db: Db, user: Id, m: Id, scope: Option<Id>, flag: Flag)
    ensures var r := MutationAccess(db, user, m, scope, flag);
      if !Located(db, m, scope) then r == Err(NotFound)
      else if !MayPost(db, db.messages[m].conversation, user)
      then r.Err? && Activity(db, user, db.messages[m].conversation, false, true) == Err(r.error)
      else if !OwnMessage(db, user, m) then r == Err(Forbidden)
      else if flag !in db.settings.flags then r == Err(FeatureDisabled)
      else r == Ok(db.messages[m].conversation)
  {
    hide Activity, MayPost;
    if m in db.messages { ActivityAnswers(db, user, db.messages[m].conversation, false, true); }
  }

  /** An edit succeeds exactly for a non-blank text of at most 2048 words without a listed
      one, by the author of a live TEXT who may still post there, over the current version;
      and the first condition that fails is the answer. */
  lemma EditAnswers(db: Db, user: Id, m: Id, scope: Option<Id>, content: Content, expected: int)
    requires Reachable(db)
    ensures var r := EditSpec(db, user, m, scope, content, expected).result;
      var access := MutationAccess(db, user, m, scope, AllowEdit);
      && (r.Ok? <==>
            && EditAsked(db.unicode, content, expected) && Located(db, m, scope) && MayPost(db, db.messages[m].conversation, user)
            && OwnMessage(db, user, m) && AllowEdit in db.settings.flags
            && Alive(db, m) && db.messages[m].mtype == TextType && db.messages[m].version == expected
            && Allowed(db, content.text) && |Words(db.unicode, content.text)| <= 2048)
      && if !EditAsked(db.unicode, content, expected) then r == Err(Invalid)
         else if access.Err? then r == Err(access.error)
         else if !Alive(db, m) then r == Err(NotFound)
         else if db.messages[m].mtype != TextType then r == Err(Forbidden)
         else if db.messages[m].version != expected then r == Err(Conflict)
         else if !Allowed(db, content.text) then r == Err(Rejected)
         else if |Words(db.unicode, content.text)| > 2048 then r == Err(Invalid)
         else r.Ok?
  {
    hide Reachable, Inv, Checkpointed, Scan, MutationAccess, MayPost, Allowed, Acceptable, Words, IndexOf, EditRows;
    ReachableInv(db);
    MutationAnswers(db, user, m, scope, AllowEdit);
    AllowedIs(db, content.text);
    IndexBound(db, content.text);
    if m in db.messages { AnyScan(db, m); }
    if EditAccepted(db, m, content) { KeysAreValid(db); EditedScan(db, m, content); }
  }

  lemma IndexBound(db: Db, text: string)
    ensures IndexOf(db.keys, db.unicode, text).Err? <==> |Words(db.unicode, text)| > 2048
  {
  }

  lemma KeysAreValid(db: Db)
    requires Inv(db)
    ensures db.keys.Valid()
  {
    hide DenseLog, Ledger, Ordered, Tails, Bodies, Indexed, Receipts, Related, Cursors, Governance, Files;
  }

  lemma AnyScan(db: Db, m: Id)
    requires Inv(db) && m in db.messages
    ensures Scan(db, m).Ok? && Scan(db, m).value.row == HeaderOf(db.messages[m])
    ensures Scan(db, m).value.status == Active <==> Alive(db, m)
  {
    hide DenseLog, Ledger, Ordered, Tails, BodyOk, Indexed, Receipts, Related, Cursors, Governance, Files;
    ScanSucceeds(db, m);
  }

  /** A deletion succeeds exactly for the author of an ordinary message who may still post
      there, also when it is expired or deleted already; then nothing changes and the
      tombstone is answered again. */
  lemma DeleteAnswers(db: Db, user: Id, m: Id, scope: Option<Id>)
    requires Reachable(db)
    ensures var o := DeleteSpec(db, user, m, scope);
      var access := MutationAccess(db, user, m, scope, AllowDelete);
      && (o.result.Ok? <==>
            && Located(db, m, scope) && MayPost(db, db.messages[m].conversation, user)
            && OwnMessage(db, user, m) && AllowDelete in db.settings.flags)
      && (access.Err? ==> o.result == Err(access.error))
      && (o.result.Ok? && db.messages[m].deletedAt != None ==> o.db == db && o.result == Scan(db, m))
      && (o.result.Ok? && db.messages[m].deletedAt == None ==> o.db != db && o.result.value.status == Deleted)
  {
    hide Reachable, Inv, Checkpointed, Scan, MutationAccess, MayPost, DeleteRows;
    ReachableInv(db);
    MutationAnswers(db, user, m, scope, AllowDelete);
    if m in db.messages {
      AnyScan(db, m);
      if db.messages[m].conversation in db.conversations { DeletedScan(db, m); }
    }
  }

  // ----- reactions and pins -----

  /** Governs a GROUP or a CHANNEL it may act in. */
  predicate MayPin(db: Db, c: Id, user: Id) {
    MayAct(db, c, user) && db.conversations[c].ctype != Direct && db.members[(c, user)].role == Moderator
  }

  lemma RelationAnswers(db: Db, user: Id, m: Id, scope: Option<Id>, flag: Flag, pin: bool)
    ensures var r := RelationAccess(db, user, m, scope, flag, pin);
      if !Located(db, m, scope) then r == Err(NotFound)
      else if !MayAct(db, db.messages[m].conversation, user)
      then r.Err? && Activity(db, user, db.messages[m].conversation, false, false) == Err(r.error)
      else if pin && !MayPin(db, db.messages[m].conversation, user) then r == Err(Forbidden)
      else if flag !in db.settings.flags then r == Err(FeatureDisabled)
      else r == Ok(db.messages[m].conversation)
  {
    hide Activity;
    if m in db.messages { ActivityAnswers(db, user, db.messages[m].conversation, false, false); }
  }

  /** The message already shows this emoji, or fewer than 32 others. */
  predicate RoomFor(db: Db, m: Id, emoji: string) {
    || (exists y :: y in db.reactions && y.message == m && y.emoji == emoji)
    || |set y | y in db.reactions && y.message == m :: y.emoji| < 32
  }

  lemma RoomIs(db: Db, x: Reaction)
    ensures ReactionFits(db, x) <==> RoomFor(db, x.message, x.emoji)
  {
    assert Kinds(ReactionRows(db.reactions, x.message)) == set y | y in db.reactions && y.message == x.message :: y.emoji;
  }

  lemma SettledCommits(db: Db, changed: Db, c: Id, m: Id, kind: EventKind)
    requires Inv(db) && Alive(db, m) && db.messages[m].conversation == c && c in db.conversations
    requires changed.(reactions := db.reactions, pins := db.pins) == db
    ensures m in changed.messages && c in changed.conversations
    ensures var o := Settle(db, changed, c, m, kind);
      o.result.Ok? && o.db.reactions == changed.reactions && o.db.pins == changed.pins
  {
    hide Inv, Scan;
    AnyScan(db, m);
    SettledScan(db, changed, m, kind);
  }

  lemma ToggleIs(db: Db, x: Reaction, add: bool)
    requires Inv(db) && x.message in db.messages && db.messages[x.message].conversation in db.conversations
    ensures var m := x.message; var o := Toggle(db, db.messages[m].conversation, x, add);
      if add && !Alive(db, m) then o.result == Err(NotFound)
      else if add && !RoomFor(db, m, x.emoji) then o.result == Err(Invalid)
      else if !Alive(db, m) || (add <==> x in db.reactions) then o.db == db && o.result == Scan(db, m) && o.result.Ok?
      else o.result.Ok? && o.db.reactions == if add then db.reactions[x := db.now] else db.reactions - {x}
  {
    hide Inv, Scan, ReactionFits, RoomFor, Settle;
    AnyScan(db, x.message);
    RoomIs(db, x);
    if Alive(db, x.message) {
      SettledCommits(db, WithReaction(db, x, add), db.messages[x.message].conversation, x.message, if add then ReactionCreated else ReactionDeleted);
    }
  }

  /** A reaction call succeeds exactly for a known emoji, by somebody who may act in the
      conversation of the message, where reactions are on, and for an addition only to a live
      message with room for it. Repeating an addition or a removal, and removing from a
      message that is gone, change nothing and answer the message as it is. */
  lemma ReactAnswers(db: Db, user: Id, m: Id, scope: Option<Id>, raw: string, add: bool)
    requires Reachable(db)
    ensures var o, emoji := ReactSpec(db, user, m, scope, raw, add), db.unicode.emoji(raw);
      var access := RelationAccess(db, user, m, scope, AllowReactions, false);
      && (o.result.Ok? <==>
            && emoji.Some? && Located(db, m, scope) && MayAct(db, db.messages[m].conversation, user) && AllowReactions in db.settings.flags
            && (add ==> Alive(db, m) && RoomFor(db, m, emoji.value)))
      && (if emoji == None then o.result == Err(Invalid)
          else if access.Err? then o.result == Err(access.error)
          else if add && !Alive(db, m) then o.result == Err(NotFound)
          else if add && !RoomFor(db, m, emoji.value) then o.result == Err(Invalid)
          else if !Alive(db, m) || (add <==> Reaction(m, user, emoji.value) in db.reactions)
          then o.db == db && o.result == Scan(db, m)
          else o.result.Ok? && o.db.reactions == if add then db.reactions[Reaction(m, user, emoji.value) := db.now]
                                                 else db.reactions - {Reaction(m, user, emoji.value)})
  {
    hide Reachable, Inv, Checkpointed, Scan, RelationAccess, MayAct, RoomFor, Toggle, Alive;
    ReachableInv(db);
    RelationAnswers(db, user, m, scope, AllowReactions, false);
    if db.unicode.emoji(raw).Some? && RelationAccess(db, user, m, scope, AllowReactions, false).Ok? {
      ToggleIs(db, Reaction(m, user, db.unicode.emoji(raw).value), add);
    }
  }

  /** The message is pinned already, or fewer than 100 live messages are. */
  predicate RoomForPin(db: Db, c: Id, m: Id) {
    || m in db.pins
    || |set x | x in db.pins && Alive(db, x) && db.messages[x].conversation == c| < 100
  }

  lemma PinRoomIs(db: Db, c: Id, m: Id)
    ensures PinFits(db, c, m) <==> RoomForPin(db, c, m)
  {
    assert LivePins(db, c) == set x | x in db.pins && Alive(db, x) && db.messages[x].conversation == c;
  }

  /** The same for a pin, which needs a moderator outside a DIRECT and at most 99 other live
      pins. A repeated pin keeps its author and time. */
  lemma PinAnswers(db: Db, user: Id, m: Id, scope: Option<Id>, add: bool)
    requires Reachable(db)
    ensures var o, access := SetPinSpec(db, user, m, scope, add), RelationAccess(db, user, m, scope, AllowPin, true);
      && (o.result.Ok? <==>
            && Located(db, m, scope) && MayPin(db, db.messages[m].conversation, user) && AllowPin in db.settings.flags
            && (add ==> Alive(db, m) && RoomForPin(db, db.messages[m].conversation, m)))
      && (if access.Err? then o.result == Err(access.error)
          else if add && !Alive(db, m) then o.result == Err(NotFound)
          else if add && !RoomForPin(db, db.messages[m].conversation, m) then o.result == Err(Invalid)
          else if !Alive(db, m) || (add <==> m in db.pins) then o.db == db && o.result == Scan(db, m)
          else o.result.Ok? && o.db.pins == if add then db.pins[m := Pin(user, db.now)] else db.pins - {m})
  {
    hide Reachable, Inv, Checkpointed, Scan, RelationAccess, MayAct, PinFits, RoomForPin, Settle;
    ReachableInv(db);
    RelationAnswers(db, user, m, scope, AllowPin, true);
    if RelationAccess(db, user, m, scope, AllowPin, true).Ok? {
      AnyScan(db, m);
      PinRoomIs(db, db.messages[m].conversation, m);
      if Alive(db, m) { SettledCommits(db, WithPin(db, m, user, add), db.messages[m].conversation, m, if add then MessagePinned else MessageUnpinned); }
    }
  }

  // ----- receipts -----

  /** The row with its cursors raised to `sequence`, one version on if one of them rose. */
  function Raised(m: Membership, readKind: bool, sequence: int): Membership {
    var rises := m.delivered < sequence || (readKind && m.read < sequence);
    m.(delivered := if m.delivered < sequence then sequence else m.delivered,
       read := if readKind && m.read < sequence then sequence else m.read,
       version := if rises then m.version + 1 else m.version)
  }

  lemma ReceiptRefusalIs(db: Db, user: Id, c: Id, sequence: int)
    ensures var r := ReceiptRefusal(db, user, c, sequence);
      if sequence < 0 then r == Some(Invalid)
      else if !db.settings.active then r == Some(NotFound)
      else if user !in db.users then r == Some(Unavailable)
      else if db.users[user].banned then r == Some(Banned)
      else if !CurrentMember(db, c, user) then r == Some(NotFound)
      else if db.members[(c, user)].banned then r == Some(Banned)
      else if sequence > db.conversations[c].messageSequence then r == Some(Invalid)
      else r == None
  {
  }

  lemma ReceiptRaises(db: Db, user: Id, c: Id, readKind: bool, sequence: int)
    requires ReceiptRefusal(db, user, c, sequence).None?
    ensures var o, next := ReceiptSpec(db, user, c, readKind, sequence), Raised(db.members[(c, user)], readKind, sequence);
      && o.db.members == db.members[(c, user) := next]
      && o.result == Ok(Checkpoint(user, next.read, next.delivered, next.version))
  {
    hide ReceiptRefusal;
    var m := db.members[(c, user)];
    if Advanced(m, readKind, sequence) == m { assert db.members[(c, user) := m] == db.members; }
  }

  /** Acknowledging needs no posting right and no kind, only an unbanned account and a
      current, unbanned membership; the sequence must exist. Then the caller's row, and no
      other, has its cursors raised, and the answer is what it holds. */
  lemma ReceiptAnswers(db: Db, user: Id, c: Id, readKind: bool, sequence: int)
    ensures var o := ReceiptSpec(db, user, c, readKind, sequence);
      && (o.result.Ok? <==>
            && 0 <= sequence && db.settings.active && user in db.users && !db.users[user].banned
            && CurrentMember(db, c, user) && !db.members[(c, user)].banned && sequence <= db.conversations[c].messageSequence)
      && if sequence < 0 then o.result == Err(Invalid)
         else if !db.settings.active then o.result == Err(NotFound)
         else if user !in db.users then o.result == Err(Unavailable)
         else if db.users[user].banned then o.result == Err(Banned)
         else if !CurrentMember(db, c, user) then o.result == Err(NotFound)
         else if db.members[(c, user)].banned then o.result == Err(Banned)
         else if sequence > db.conversations[c].messageSequence then o.result == Err(Invalid)
         else
           var next := Raised(db.members[(c, user)], readKind, sequence);
           o.db.members == db.members[(c, user) := next] && o.result == Ok(Checkpoint(user, next.read, next.delivered, next.version))
  {
    hide ReceiptRefusal, Raised, ReceiptRows, Advanced;
    ReceiptRefusalIs(db, user, c, sequence);
    if ReceiptRefusal(db, user, c, sequence).None? { ReceiptRaises(db, user, c, readKind, sequence); }
  }

  // ----- uploads -----

  /** An upload begins exactly for an entitled account of an active Project with images on,
      within both size limits and under unused identities; its two rows are uploading, and
      the logical one is promised a day. */
  lemma BeginAnswers(db: Db, actor: Id, a: Id, o: Id, meta: Meta, global: int)
    ensures var r, b := BeginSpec(db, actor, a, o, meta, global).result, BeginSpec(db, actor, a, o, meta, global).db;
      && (r.Ok? <==>
            && db.settings.active && Entitled(db, actor, false) && AllowImages in db.settings.flags
            && meta.size <= db.settings.maxUpload && meta.size <= global && o !in db.objects && a !in db.attachments)
      && if !db.settings.active || actor !in db.users then r == Err(Unauthenticated)
         else if db.users[actor].banned then r == Err(Banned)
         else if db.users[actor].kind == System then r == Err(Forbidden)
         else if !Entitled(db, actor, false) || AllowImages !in db.settings.flags then r == Err(FeatureDisabled)
         else if meta.size > db.settings.maxUpload || meta.size > global then r == Err(TooLarge)
         else if o in db.objects || a in db.attachments then r == Err(Unavailable)
         else
           var row := Attachment(actor, o, meta, AUploading, db.now + 86400);
           r == Ok(row) && b.attachments == db.attachments[a := row] && b.objects == db.objects[o := StoredObject(OUploading, db.now)]
  {
  }

  /** Only the uploader finishes an upload, once, and only while its object is uploading. */
  lemma ReadyAnswers(db: Db, actor: Id, a: Id)
    ensures var out := ReadySpec(db, actor, a);
      if a in db.attachments && db.attachments[a].uploader == actor && db.attachments[a].status == AUploading
         && db.attachments[a].objectId in db.objects && db.objects[db.attachments[a].objectId].status == OUploading
      then
        var row, o := db.attachments[a].(status := AttachmentStatus.AReady), db.attachments[a].objectId;
        && out.result == Ok(row) && out.db.attachments == db.attachments[a := row]
        && out.db.objects == db.objects[o := db.objects[o].(status := OReady)]
      else out.result == Err(Lifecycle) && out.db == db
  {
  }
}
