/** Send commands: the two disjoint shapes, their validation and their canonical form
    (internal/message/message.go). */
module Commands {
  import opened Basics
  import opened Text
  import opened Schema

  datatype Field = FType | FContent | FMetadata | FReply | FAttachments

  /** `present` records which of the mutually exclusive fields the JSON object named,
      including explicit nulls and empty values. */
  datatype Command = Command(
    client: Id,
    typeName: TypeName,
    content: Content,
    metadata: Option<Metadata>,
    reply: Option<Id>,
    attachments: Option<seq<Id>>,
    forwardFrom: Option<Id>,
    present: set<Field>)

  const MAX_TEXT: nat := 16384
  const MAX_CAPTION: nat := 4096

  predicate Blank(u: Unicode, s: string) {
    forall i | 0 <= i < |s| :: u.space(s[i])
  }

  function Listed(a: Option<seq<Id>>): seq<Id> {
    if a.Some? then a.value else []
  }

  function Mapped(m: Option<Metadata>): Metadata {
    if m.Some? then m.value else map[]
  }

  predicate ForwardShape(p: Command) {
    && p.present == {} && p.typeName == NoType && p.content == Content("", "")
    && p.metadata.None? && p.reply.None? && p.attachments.None?
  }

  predicate BodyShape(u: Unicode, p: Command, system: bool) {
    var ids := Listed(p.attachments);
    if system then p.typeName == Named(SystemType) && !Blank(u, p.content.text) && p.content.caption == "" && ids == []
    else if p.typeName == Named(TextType) then !Blank(u, p.content.text) && p.content.caption == "" && ids == []
    else p.typeName == Named(ImageType) && p.content.text == "" && |ids| == 1
  }

  /** A typed command; an IMAGE names exactly one attachment. */
  predicate Bodied(p: Command) {
    p.typeName.Named? && (p.typeName.t == ImageType ==> |Listed(p.attachments)| == 1)
  }

  /** Validate bounds a command before any cryptographic or database work. */
  predicate Validate(u: Unicode, p: Command, system: bool): (ok: bool)
    ensures ok && p.forwardFrom.None? ==> Bodied(p)
  {
    if p.forwardFrom.Some? then !system && ForwardShape(p)
    else
      && (p.reply.Some? ==> !system)
      && |p.content.text| <= MAX_TEXT && |p.content.caption| <= MAX_CAPTION
      && BodyShape(u, p, system)
  }

  function CanonicalOf(p: Command, conversation: Id): Canonical {
    if p.forwardFrom.Some? then CanonicalForward(conversation, p.client, p.forwardFrom.value)
    else CanonicalSend(conversation, p.client, p.typeName, p.content, Mapped(p.metadata), p.reply, Listed(p.attachments))
  }

  /** Two commands a retry may not distinguish: a forward is compared on its source
      alone, any other command on its whole body with nil and empty collections equal. */
  predicate SameCommand(p: Command, c: Id, q: Command, d: Id) {
    && c == d && p.client == q.client
    && p.forwardFrom == q.forwardFrom
    && (p.forwardFrom.None? ==>
          && p.typeName == q.typeName && p.content == q.content && p.reply == q.reply
          && (p.metadata == q.metadata || (p.metadata in {None, Some(map[])} && q.metadata in {None, Some(map[])}))
          && (p.attachments == q.attachments || (p.attachments in {None, Some([])} && q.attachments in {None, Some([])})))
  }

  /** The canonical form identifies a command up to nil versus empty collections, and
      in particular never confuses a forward with an ordinary send. */
  lemma CanonicalIdentifies(p: Command, c: Id, q: Command, d: Id)
    ensures CanonicalOf(p, c) == CanonicalOf(q, d) <==> SameCommand(p, c, q, d)
  {
    if p.metadata.Some? { assert p.metadata == Some(p.metadata.value); }
    if q.metadata.Some? { assert q.metadata == Some(q.metadata.value); }
    if p.attachments.Some? { assert p.attachments == Some(p.attachments.value); }
    if q.attachments.Some? { assert q.attachments == Some(q.attachments.value); }
  }

  /** CheckContent: an enabled blacklist refuses any text containing a listed word. */
  predicate Acceptable(db: Db, text: string) {
    db.settings.blacklist.Some? ==> Words(db.unicode, text) * db.settings.blacklist.value == {}
  }
}
