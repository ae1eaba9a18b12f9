# A verified model of the AlUr messenger backend

This project models the part of the Go/PostgreSQL chat service where state has to agree
across tables, transactions and processes, and proves what the service promises about it.
`dafny verify dfyconfig.toml` checks everything.

## What is modelled

**The conversation store.** `Schema` holds the tables of one Project as maps; a committed
transaction is one atomic step. Send, forward, edit, delete, reactions, pins, receipts,
membership and uploads (`Sending`, `Mutations`, `Relations`, `Recovery`, `Reading`,
`Memberships`, `Attachments`) are imperative methods over a `Database` object, in the order
of the statements they model, each proved equal on every path to a specification function.
`System` runs those functions in any order, with key rotations, configuration and user
changes and the clock, and proves one invariant (`Invariants`, `Deltas`) over every run:
dense log, version ledger, message order, tail pointer, readable bodies, blind index,
retry receipts, relations, cursors, governance, files. From it follow `Guarantees`,
`Effects`, `Idempotency`, `ReadingProofs` (blind search is plain search) and `Convergence`
(a client rebuilds the server's state from a snapshot and pages of any size, although replay
hydrates old events with newer state). `Admission`, `Readers`, `Writers` and `Organizers` say of
every operation, on the rows alone, exactly when it succeeds and what is answered otherwise.

**Machines with external effects**, as interleavable steps with crashes: `Uploads` and
`Orphans` (uploads, cleaners and a blob store; `Lifetimes` is their database side), `Outbox`
(publication in order), `Router` and `Blocking` (inbox deduplication and offsets), `Session`
and `Delivery` (one WebSocket with its queue and writer), `Presence` (leases and the last-seen cache),
`Locks` and `Circles` (who can wait for whom). `Container` is the PNG chunk walk.

| module | part of the service |
|---|---|
| `Basics`, `Schema`, `Text`, `Cryptography`, `Commands`, `Access` | values, tables, tokens, keys, commands, authorisation gates |
| `Sending`, `Mutations`, `Relations`, `Recovery`, `Reading`, `Memberships`, `Attachments` | the transactions |
| `Deltas`, `Invariants`, `Evolution`, `Footprints`, `SendingProofs`, `MutationProofs`, `MembershipProofs`, `OperationsProofs` | what each transaction keeps |
| `System`, `Guarantees`, `Effects`, `Idempotency`, `ReadingProofs`, `Convergence` | properties of whole runs and answers |
| `Admission`, `Readers`, `Writers`, `Organizers` | who may do what, and every refusal |
| `Lifetimes`, `Uploads`, `Orphans`, `Outbox`, `Router`, `Blocking`, `Session`, `Delivery`, `Presence`, `Locks`, `Circles`, `Container` | processes and protocols |

## Assumptions

- HMAC is injective per purpose and version, and AEAD open inverts seal exactly in the
  authenticated context (`Cryptography`); Unicode folding and the emoji table are parameters.
- A fresh identity that collides with an existing key makes the statement fail; nothing else
  is assumed of UUIDs. All clocks read one monotone instant.
- A broker append never lands after the publishing transaction has released its lock, and one
  publication appends at most once (`Outbox`).
- The cleaner selects and claims atomically with respect to attachment rows.
- A lock request waits only for granted conflicting locks (`Locks`); the identities two
  running transactions lock agree with one database (`Circles.Consistent`: a message lies in
  one conversation, an attachment is linked to one message and not before it was consumed).

## Where the code and its description part

- The cleaner's comment speaks of expired ready uploads; that branch of its query never
  decides anything. What decides is the age of the object: an upload is promised a day and
  exposed after an hour (`Lifetimes.ClaimableIsAge`, `Lifetimes.ReadyIsClaimedExactly`; the
  run is `Lifetimes.UnexpiredUploadIsClaimed`).
- A cleaner that overtakes a slow upload leaves bytes in the store that no row will ever
  remove (`Orphans.LateUploadLeaks`). An upload that stores within the hour never does
  (`Orphans.PromptIsTimely`, `Orphans.TimelyRunsLeakNothing`); bytes stored later can leak
  exactly when their erasure already lies behind (`Orphans.LateBytesLeakExactly`). No
  attached row is affected (`Uploads.AttachmentSafety`).
- The documented lock order is kept by every modelled transaction except the authorised
  attachment read, which locks the attachment before the message and can deadlock with a
  deletion (`Locks.DownloadAndDeletionDeadlock`); every circle of waits contains that pair
  (`Circles.EveryCircleIsDownloadAgainstMutation`).
- Replay alone does not tell a client that a message expired: a held message equals the
  server's projection exactly unless it was last shown active and has expired since
  (`Convergence.Converges`).
- A broker record that is not the event it names stops the hints of its partition, for good
  exactly under the condition of `Blocking.KeyedRecordsPassExactly` (a foreign key alone
  suffices whatever else happens: `Blocking.MalformedBlocksExactly`); hints are disposable,
  so delivery only slows down.

## Model

| member | source | states |
|---|---|---|
| `Text.FieldsAreWords` | internal/cryptography/keys.go:224-240 | the tokens of a text are exactly its maximal runs of letters and digits (both directions) |
| `Text.CollectWords` | internal/cryptography/keys.go:224-240 | the distinct words, or INVALID exactly when there are more than the limit; no tail is dropped silently |
| `Cryptography.BlindIsMonotone` | internal/cryptography/keys.go:242-255 | containment of blind token sets is containment of words within one key version and never across two |
| `Cryptography.BlindWords` | internal/cryptography/keys.go:242-255 | every word once under the key of one version |
| `Cryptography.Index` | internal/cryptography/keys.go:257-265 | at most 2048 words, blinded under the active version |
| `Cryptography.Queries` | internal/cryptography/keys.go:267-282 | 1 to 8 words, blinded under every retained version |
| `Commands.Validate` | internal/message/message.go:98-134 | an accepted ordinary command is typed and an IMAGE names exactly one attachment |
| `Commands.CanonicalIdentifies` | internal/message/message.go:136-156 | two commands share a canonical form exactly when they agree up to nil versus empty collections; a forward is never confused with a send |
| `Access.Activity` | internal/message/repository/postgres.go:129-197 | an admitted actor is unbanned, the project active, and a non-system actor a joined, unbanned member; exactly whom it admits: Admission.ActivityAnswers |
| `Admission.ActivityAnswers` | internal/message/repository/postgres.go:129-197 | on rows: the write gate admits exactly entitled, current, unbanned members (in a CHANNEL only moderators write content; service output needs a SYSTEM account), and each refusal is the first thing that is wrong |
| `Schema.Scan` | internal/message/repository/postgres.go:44-104 | the projection has the row's own header; it fails only for a missing row or a payload of another context |
| `Readers.ScanAnswers` | internal/message/repository/postgres.go:44-104 | in any database: a terminal message is shown bare, a live one with exactly its payload and relations if the payload is authentic, otherwise not at all |
| `Sending.Store` | internal/message/repository/postgres.go:321-363 | the statements of a new message leave exactly the message, order, tail, index, receipt, log and outbox rows of the draft |
| `Sending.Send` | internal/message/repository/postgres.go:201-366 | the transaction leaves exactly the specified database and answer on every path, error paths included; who may: Writers.SendAnswers; what that is: Effects.SendDelivers, Idempotency.SendOnce, Guarantees.RefusalChangesNothing |
| `Sending.SendIndexed` | internal/message/repository/postgres.go:223-366 | the part of Send after validation and indexing, on every path; what it leaves: SendingProofs.SendBodyShape, SendingProofs.SendKeeps, Writers.BodyAnswers |
| `Sending.WriteSend` | internal/message/repository/postgres.go:266-352 | the write half replaces the expired receipt, consumes the attachment and stores the draft; read back: Effects.SendDelivers |
| `Sending.Refusal` | internal/message/repository/postgres.go:272-316 | a first send that is not refused consumes an unexpired ready upload of the sender that no message links, replies to a live message of the conversation, and has a fresh identity |
| `Sending.ForwardMessage` | internal/message/repository/forward.go:27-217 | the transaction leaves exactly the specified database and answer on every path; who may: Writers.ForwardAnswers; what that is: SendingProofs.ForwardLeaves, Effects.ForwardDelivers, Idempotency.SendOnce |
| `Sending.WriteForward` | internal/message/repository/forward.go:141-210 | the write half of a forward: a new logical attachment over the shared object, then the draft; read back: Effects.ForwardDelivers |
| `Mutations.MutationAccess` | internal/message/repository/mutations.go:36-66 | an admitted mutation names an existing message of the actor that is no SYSTEM message, in a conversation the actor is an unbanned member of, and the Project allows it |
| `Mutations.Edit` | internal/message/repository/mutations.go:68-135 | the transaction leaves exactly the specified database and answer on every path; what that is: Writers.EditAnswers, MutationProofs.EditShape, Effects.EditDelivers |
| `Mutations.WriteEdit` | internal/message/repository/mutations.go:97-123 | ciphertext, version and the complete index replaced together; read back: Effects.EditDelivers |
| `Mutations.Delete` | internal/message/repository/mutations.go:137-196 | the transaction leaves exactly the specified database and answer on every path; what that is: Writers.DeleteAnswers, MutationProofs.DeleteShape, Effects.DeleteDelivers |
| `Mutations.WriteDelete` | internal/message/repository/mutations.go:150-182 | relations, attachments, body, index and tail pointer, statement by statement; what remains: Effects.DeleteDelivers, MutationProofs.DeleteKeeps |
| `Mutations.MarkDetached` | internal/message/repository/mutations.go:160-169 | the logical attachments of the message become deleted and unlinked |
| `Relations.RelationAccess` | internal/message/repository/relations.go:18-54 | an admitted relation change names an existing message, and the actor is an unbanned member of its conversation; a pin needs a governing moderator outside a DIRECT; the Project allows it |
| `Relations.React` | internal/message/repository/relations.go:56-108 | the transaction leaves exactly the specified database and answer on every path; what that is: Writers.ReactAnswers, MutationProofs.ReactShape, Effects.ReactDelivers |
| `Relations.SetPin` | internal/message/repository/relations.go:110-158 | the transaction leaves exactly the specified database and answer on every path; what that is: Writers.PinAnswers, MutationProofs.SetPinShape, Effects.PinDelivers |
| `Recovery.Acknowledge` | internal/message/repository/recovery.go:185-248 | the transaction leaves exactly the specified database and answer on every path; what that is: Writers.ReceiptAnswers, MembershipProofs.ReceiptShape, Guarantees.ReceiptCursors |
| `Recovery.Collect` | internal/message/repository/recovery.go:45-74 | on any stored log the contiguity phase succeeds exactly when every sequence up to the page end is stored, and returns those rows in order with only peer receipts masked; which are masked: Readers.PageShowsTheLog |
| `Recovery.Hydrate` | internal/message/repository/recovery.go:75-117 | every state event carries the current resource, or the page fails with the first applicable reason |
| `Recovery.AttachCurrent` | internal/message/repository/recovery.go:103-117 | an event naming a message that is gone forces a resync, otherwise each gets its current resource |
| `Recovery.Replay` | internal/message/repository/recovery.go:20-119 | a page of the log or the reason there is none, for every cursor, limit and stored log; who gets it and what its events show: Readers.ReplayAnswers, Readers.PageShowsTheLog |
| `Reading.Decode` | internal/message/repository/postgres.go:430-447 | every listed row is projected in order, or the first failure is reported |
| `Reading.History` | internal/message/repository/postgres.go:393-452 | the specified page on every path; which messages it holds: ReadingProofs.HistoryIs; who gets it: Readers.HistoryAnswers |
| `Reading.Search` | internal/message/repository/postgres.go:393-463 | the specified search page on every path; which messages it holds: ReadingProofs.SearchIsPlain; who gets it: Readers.SearchAnswers |
| `Reading.TakeSnapshot` | internal/message/repository/recovery.go:121-172 | the specified snapshot on every path; what it holds: Convergence.SnapshotIs; who gets it: Readers.SnapshotAnswers |
| `Memberships.Sort` | internal/conversation/repository/postgres.go:186-190 | the users to lock, each exactly once, in strictly increasing order whoever asks |
| `Memberships.TxRefusal` | internal/conversation/repository/membership.go:65-107 | an admitted membership transaction has an existing conversation, a joined actor and existing users; exactly whom it admits: Organizers.OrganizerAnswers |
| `Memberships.Create` | internal/conversation/repository/postgres.go:174-244 | the transaction leaves exactly the specified database and answer on every path; what that is: Organizers.CreateAnswers, MembershipProofs.CreateShape, Guarantees.DirectIsUnique |
| `Memberships.WriteCreated` | internal/conversation/repository/postgres.go:208-240 | conversation, pair and member rows and the first event; what they satisfy: MembershipProofs.CreateKeeps |
| `Memberships.AddMembers` | internal/conversation/repository/membership.go:109-142 | the transaction leaves exactly the specified database and answer on every path; what that is: Organizers.AddMembersAnswers, MembershipProofs.AdmitAllKeeps, Guarantees.RejoinRestoresNothing |
| `Memberships.WriteAdmissions` | internal/conversation/repository/membership.go:124-140 | the per-user upserts and events, in order; what they satisfy: MembershipProofs.AdmitAllKeeps |
| `Memberships.PatchMember` | internal/conversation/repository/membership.go:160-208 | the transaction leaves exactly the specified database and answer on every path; what that is: Organizers.PatchMemberAnswers, Guarantees.DemotionExactly, MembershipProofs.PatchMemberKeeps |
| `Memberships.RemoveMember` | internal/conversation/repository/membership.go:210-238 | the transaction leaves exactly the specified database and answer on every path; what that is: Organizers.RemoveMemberAnswers, Guarantees.LastModeratorExactly, MembershipProofs.RemoveMemberKeeps |
| `Memberships.PatchConversation` | internal/conversation/repository/postgres.go:246-301 | the transaction leaves exactly the specified database and answer on every path; what that is: Organizers.PatchAnswers; what it keeps: System.StepKeeps, Guarantees.RefusalChangesNothing |
| `Attachments.Begin` | internal/attachment/repository/postgres.go:62-91 | the transaction leaves exactly the specified database and answer on every path; what that is: Writers.BeginAnswers, OperationsProofs.BeginKeeps, Lifetimes.UploadIsStamped |
| `Attachments.Ready` | internal/attachment/repository/postgres.go:93-122 | the transaction leaves exactly the specified database and answer on every path; what that is: Writers.ReadyAnswers, OperationsProofs.ReadyKeeps, Lifetimes.ReadyIsClaimedExactly |
| `Attachments.CleanOne` | internal/attachment/repository/reconcile.go:29-66 | works exactly when an unlocked claimable object exists; claims the oldest of them, deletes its blob, finishes; a refused deletion leaves the durable claim |
| `Deltas.AppendKeepsDense` | internal/event/repository/postgres.go:15-33 | one append keeps every conversation's log dense and equal to the outbox |
| `Deltas.AppendCounts` | internal/event/repository/postgres.go:15-33 | one append raises the event count of the message it names by one and of no other |
| `Deltas.StateWriteKeepsLedger` | internal/message/repository/mutations.go:198-203 | a message write with its event keeps the version ledger |
| `Deltas.OtherWriteKeepsLedger` | internal/event/repository/postgres.go:15-33 | an event that names no message keeps the version ledger |
| `Deltas.EvolvesTransitive` | internal/message/repository/recovery.go:75-117 | "the log grows and a projection changes only under an event that names it" composes over any number of transactions |
| `Deltas.StateWriteEvolves` | internal/message/repository/recovery.go:174-183 | a message write changes the projection of no message its event does not name |
| `SendingProofs.SendBodyShape` | internal/message/repository/postgres.go:223-366 | a first success left exactly the new rows; every other answer left the database alone |
| `SendingProofs.ForwardLeaves` | internal/message/repository/forward.go:27-217 | a first success left exactly the new rows over the source it read; every other answer left the database alone; whose sources may be read: Writers.SourceAnswers |
| `SendingProofs.SendKeeps` | internal/message/repository/postgres.go:266-363 | a first send keeps every invariant and is one write of one new message |
| `SendingProofs.ForwardKeeps` | internal/message/repository/forward.go:141-216 | a first forward keeps every invariant and is one write of one new message |
| `MutationProofs.EditShape` | internal/message/repository/mutations.go:68-135 | success means the author edited the expected version of a live TEXT message; anything else left the database alone |
| `MutationProofs.EditKeeps` | internal/message/repository/mutations.go:97-135 | an edit keeps every invariant and is one write of one message |
| `MutationProofs.DeleteShape` | internal/message/repository/mutations.go:137-196 | a first deletion left exactly the tombstone rows; a repeated or refused one left the database alone |
| `MutationProofs.LatestLiveIs` | internal/message/repository/mutations.go:178-180 | the tail query finds the live message of greatest sequence, or nothing exactly when none is live |
| `MutationProofs.DeleteKeeps` | internal/message/repository/mutations.go:150-193 | a deletion keeps every invariant, the tail pointer included |
| `MutationProofs.DeleteWrites` | internal/message/repository/mutations.go:150-193 | a deletion is one write of one message |
| `MutationProofs.ReactShape` | internal/message/repository/relations.go:56-109 | a reaction changed the database exactly when it was admitted and really added or removed a row of a live message |
| `MutationProofs.ReactionKinds` | internal/message/repository/relations.go:76-86 | no message ever has more than 32 kinds of reaction |
| `MutationProofs.ReactKeeps` | internal/message/repository/relations.go:84-108 | a changing reaction keeps every invariant and is one write of one message |
| `MutationProofs.SetPinShape` | internal/message/repository/relations.go:110-159 | a pin changed the database exactly when it was admitted and really pinned or unpinned a live message |
| `MutationProofs.SetPinKeeps` | internal/message/repository/relations.go:133-158 | a changing pin keeps every invariant and is one write of one message |
| `MembershipProofs.ReceiptShape` | internal/message/repository/recovery.go:185-248 | an accepted receipt raises the cursors and appends its event exactly when one of them moves |
| `MembershipProofs.ReceiptKeeps` | internal/message/repository/recovery.go:225-248 | an advancing receipt keeps every invariant |
| `MembershipProofs.PatchMemberKeeps` | internal/conversation/repository/membership.go:160-208 | an admitted patch keeps every invariant |
| `MembershipProofs.RemoveMemberKeeps` | internal/conversation/repository/membership.go:210-238 | an admitted removal keeps every invariant |
| `MembershipProofs.AdmitAllKeeps` | internal/conversation/repository/membership.go:109-142 | a batch of admissions keeps every invariant |
| `MembershipProofs.GovernedElsewhere` | internal/conversation/repository/membership.go:147-159 | keepModerator passes exactly when somebody else is an active, unbanned moderator |
| `MembershipProofs.CreateShape` | internal/conversation/repository/postgres.go:174-244 | a creation left a new conversation governed by a human, or the database alone |
| `MembershipProofs.CreateKeeps` | internal/conversation/repository/postgres.go:208-240 | a new conversation keeps every invariant, pair uniqueness included |
| `OperationsProofs.BeginKeeps` | internal/attachment/repository/postgres.go:62-91 | starting an upload keeps every invariant and every projection |
| `OperationsProofs.ReadyKeeps` | internal/attachment/repository/postgres.go:93-122 | finishing an upload keeps every invariant and every projection |
| `OperationsProofs.ClaimKeeps` | internal/attachment/repository/reconcile.go:36-60 | a cleaner's claim keeps every invariant and every projection |
| `OperationsProofs.FinishKeeps` | internal/attachment/repository/reconcile.go:64-65 | a cleaner's second transaction keeps every invariant and every projection |
| `OperationsProofs.RotateKeeps` | internal/cryptography/keys.go:79-109 | a rotation that retains old versions keeps every stored row readable, findable and comparable |
| `OperationsProofs.TickKeeps` | internal/message/repository/postgres.go:44-60 | expiry alone breaks no invariant |
| `Evolution.CausedFollows` | internal/message/repository/recovery.go:20-119 | every transaction's effect lets the log only grow, projections change only under an event, and member rows only advance |
| `Evolution.AppendCheckpoints` | internal/message/repository/recovery.go:236-248 | an event and the member rows it came with stay in agreement about who acknowledged what |
| `System.StepKeeps` | internal/message/repository/postgres.go:129-197 | every transaction of every kind keeps the whole invariant and every trace property |
| `System.RunKeeps` | internal/message/repository/postgres.go:129-197 | the same over every run of any transactions in any order |
| `System.ReachableInv` | migrations/00007_messages.sql:1-110 | every database reachable from an empty project satisfies the invariant and the receipt log property |
| `Guarantees.VersionLedger` | internal/message/repository/mutations.go:112-203 | the log is dense and equal to the outbox; a message's version is the number of its state events and the k-th of them carries k |
| `Guarantees.SequenceAndTail` | internal/message/repository/postgres.go:321-340 | sequences are exactly 1..message_sequence, once each; the tail pointer is null only when nothing is live and never precedes a live message |
| `Guarantees.ReceiptCursors` | internal/message/repository/recovery.go:185-248 | read <= delivered <= message_sequence; each receipt event raises its predecessor and the last one announces the stored cursors |
| `Guarantees.CursorsOnlyGrow` | internal/conversation/repository/membership.go:125-127 | cursors and member versions only grow over any further run, across leave and rejoin |
| `Guarantees.AlwaysModerated` | internal/conversation/repository/membership.go:147-238 | every GROUP and CHANNEL always has an active, unbanned, human moderator |
| `Guarantees.DirectIsAPair` | internal/conversation/repository/postgres.go:191-232 | a DIRECT always has exactly two active ordinary members, the pair that names it |
| `Guarantees.DirectIsUnique` | internal/conversation/repository/postgres.go:191-222 | two users never share a second DIRECT |
| `Guarantees.RejoinRestoresNothing` | internal/conversation/repository/membership.go:124-140 | a departed row changes only by readmission as an ordinary, unbanned member with its cursors and mute |
| `Guarantees.RefusalChangesNothing` | internal/message/repository/postgres.go:223-366 | an operation that answers an error changes no row, version, sequence or event |
| `Writers.CommandsAre` | internal/message/message.go:98-134 | a command is valid exactly if it is a TEXT, an IMAGE with one file, a service message, or a bare forward |
| `Writers.SendAnswers` | internal/message/repository/postgres.go:201-366 | on rows: without a live receipt a message is created exactly when the command is well formed, the sender may post here, the flags for reply and image are on, no word is listed, the upload is the sender's own and ready, the reply target live and here, and the identity fresh; otherwise the first that fails is the answer |
| `Writers.SourceAnswers` | internal/message/repository/forward.go:84-130 | on rows: a source is read exactly if it is live, the forwarder a current member of its conversation, and it may be repeated; a stranger is told NOT_FOUND |
| `Writers.ForwardAnswers` | internal/message/repository/forward.go:27-217 | on rows: without a live receipt a forward succeeds exactly when the forwarder may post in the target, forwarding is on, the source is live in a conversation the forwarder belongs to, and it may be repeated; a forwarder without a current row there is answered exactly NOT_FOUND and nothing changes |
| `Writers.MutationAnswers` | internal/message/repository/mutations.go:36-66 | on rows: exactly the author of an ordinary message who may still post there, under the flag; otherwise the first that fails |
| `Writers.EditAnswers` | internal/message/repository/mutations.go:68-135 | on rows: exactly when an edit succeeds, and which refusal comes first |
| `Writers.DeleteAnswers` | internal/message/repository/mutations.go:137-196 | on rows: exactly when a deletion succeeds; a repeated one changes nothing and answers the tombstone |
| `Writers.RelationAnswers` | internal/message/repository/relations.go:18-54 | on rows: exactly who may react, and that only moderators outside a DIRECT pin |
| `Writers.ReactAnswers` | internal/message/repository/relations.go:56-109 | on rows: exactly when a reaction call succeeds; at most 32 kinds; repeats and removals on a terminal message answer the message unchanged |
| `Writers.PinAnswers` | internal/message/repository/relations.go:110-159 | on rows: exactly when a pin call succeeds; at most 100 live pins; a repeated pin keeps author and time |
| `Writers.ReceiptAnswers` | internal/message/repository/recovery.go:185-248 | on rows: exactly when an acknowledgement succeeds; the caller's row alone has its cursors raised, and is answered |
| `Writers.BeginAnswers` | internal/attachment/repository/postgres.go:62-91 | on rows: exactly when an upload begins and the two rows it leaves, promised a day |
| `Writers.ReadyAnswers` | internal/attachment/repository/postgres.go:93-122 | on rows: only the uploader finishes an upload, once; both rows become ready, or nothing changes |
| `Guarantees.LastModeratorExactly` | internal/conversation/repository/membership.go:210-238 | for every removal: it succeeds exactly when nothing else forbids it and somebody governs afterwards, and answers LAST_MODERATOR exactly when nobody would |
| `Guarantees.DemotionExactly` | internal/conversation/repository/membership.go:160-208 | for every patch of role, ban and mute together: it succeeds exactly when nothing else forbids it and somebody governs afterwards (or it is a DIRECT), and answers LAST_MODERATOR exactly when nobody would |
| `Organizers.UsersAnswer` | internal/conversation/repository/postgres.go:104-148 | on rows: exactly which actors and others one transaction may involve, and what each refusal says about them |
| `Organizers.OrganizerAnswers` | internal/conversation/repository/membership.go:63-107 | on rows: the gate of every change of a conversation admits exactly an unbanned human who is a current, unbanned member |
| `Organizers.CreateAnswers` | internal/conversation/repository/postgres.go:174-244 | on rows: exactly when a creation succeeds; a second DIRECT of the same two users answers the first one and changes nothing; a new conversation has exactly these members |
| `Organizers.PatchAnswers` | internal/conversation/repository/postgres.go:246-301 | on rows: exactly a moderator outside a DIRECT over the stored version; the next version is stored and answered |
| `Organizers.AddMembersAnswers` | internal/conversation/repository/membership.go:109-142 | on rows: exactly a moderator outside a DIRECT; every invited user is a current member afterwards and nobody else's row changes |
| `Organizers.PatchMemberAnswers` | internal/conversation/repository/membership.go:160-208 | on rows: every answer of a member patch in order, and the row it leaves |
| `Organizers.RemoveMemberAnswers` | internal/conversation/repository/membership.go:210-238 | on rows: every answer of a removal in order, and the row it leaves |
| `Effects.SendDelivers` | internal/message/repository/postgres.go:201-366 | round trip: a first success answers the command's own content, metadata and reply read back from storage, under the next sequence, and adds this message and one event |
| `Effects.ForwardDelivers` | internal/message/repository/forward.go:92-216 | a forward shows the source's current content under its own sequence, drops metadata and reply, keeps the first sender of a chain, and shares the source's object through a row of its own |
| `Effects.EditDelivers` | internal/message/repository/mutations.go:68-135 | an edit answers the message as it was with only text, version and edit time changed |
| `Effects.DeleteDelivers` | internal/message/repository/mutations.go:137-196 | a deletion answers the bare tombstone and leaves no body, relation, link or index row |
| `Effects.ReactDelivers` | internal/message/repository/relations.go:56-109 | a changing reaction answers the message with exactly that row added or removed |
| `Effects.PinDelivers` | internal/message/repository/relations.go:110-177 | a changing pin answers the message pinned by its author, or unpinned |
| `Idempotency.RetryIs` | internal/message/repository/postgres.go:242-264 | a live receipt is answered by its message or by a conflict, never by a missing key or row |
| `Idempotency.RetryAnswer` | internal/message/repository/postgres.go:242-264 | while a receipt lives, a command with its client id changes nothing; the same command names the same message, another one conflicts |
| `Idempotency.RunRemembers` | internal/message/repository/postgres.go:266-352 | a live receipt is neither replaced nor lost by any run within its lifetime |
| `Idempotency.FirstSend` | internal/message/repository/postgres.go:344-352 | a first success stores the receipt of exactly the command it answered |
| `Idempotency.SendOnce` | internal/message/repository/forward.go:48-79 | after a first send or forward, over any run with rotations, success with its client id means the same command and names the first message; everything else conflicts or is refused, and nothing changes |
| `ReadingProofs.NewestIs` | internal/message/repository/postgres.go:393-447 | the descending query returns exactly the newest kept messages below the bound, none skipped |
| `ReadingProofs.OldestIs` | internal/message/repository/postgres.go:393-447 | the ascending query returns exactly the oldest kept messages above the bound, none skipped |
| `ReadingProofs.HitIsContainment` | internal/message/repository/postgres.go:411-425 | a row matches some retained blinding exactly when the plain words are contained |
| `ReadingProofs.HistoryIs` | internal/message/repository/postgres.go:393-452 | a member's history page is the newest (or oldest) messages with their current projections |
| `ReadingProofs.SearchIsPlain` | internal/message/repository/postgres.go:393-463 | blind search is plain word search: exactly the newest Limit live messages below the bound containing every query word, whatever keys they were indexed under |
| `Readers.HistoryAnswers` | internal/message/repository/postgres.go:109-119 | on rows: in every reachable database a valid history query is answered exactly to current members of an active Project, and everybody else gets exactly NOT_FOUND |
| `Readers.SearchAnswers` | internal/message/repository/postgres.go:454-463 | on rows: the same for a search of one to eight words |
| `Readers.ReplayAnswers` | internal/message/repository/recovery.go:20-45 | on rows: the same for replay; a cursor beyond the log is answered RESYNC |
| `Readers.PageShowsTheLog` | internal/message/repository/recovery.go:45-66 | on any stored log a page shows the events as stored, except that another member's receipt is a bare advance exactly where read receipts are off |
| `Readers.SnapshotAnswers` | internal/message/repository/recovery.go:121-172 | on rows: the same for a snapshot; it shows the caller's row, the counters and tail, and exactly the live pins |
| `Readers.FileAnswers` | internal/attachment/repository/postgres.go:124-169 | on rows: a file is served exactly to its uploader while ready and unexpired, and once sent to the current members of its live message |
| `Convergence.ReplayNeverFails` | internal/message/repository/recovery.go:20-119 | in reachable states a member's replay at or below the watermark always gets its page |
| `Convergence.PagesConcatenate` | internal/message/repository/recovery.go:115-117 | on any stored log successful pages concatenate to the log suffix, and as many pages as events reach the watermark |
| `Convergence.ProjectionAges` | internal/message/repository/postgres.go:44-104 | while no event names a message its projection changes only by expiring |
| `Convergence.PageHydrates` | internal/message/repository/recovery.go:75-117 | a page carries the current projection of exactly the messages its rows name |
| `Convergence.FollowSyncs` | internal/message/repository/recovery.go:20-119 | agreement of client and server survives every interleaving of pages and transactions |
| `Convergence.SnapshotIs` | internal/message/repository/recovery.go:121-172 | a snapshot is the current projections of the newest 50 messages, oldest first, at one log cursor |
| `Convergence.Converges` | internal/message/repository/recovery.go:20-172 | after a snapshot and pages of any limits interleaved with any transactions, a client at More=false holds the server's projection of every message of the snapshot or of a later event; without ageing, exactly unless it expired while shown active |
| `Uploads.ReachableIsSafe` | internal/attachment/repository/reconcile.go:29-66 | every reachable world of uploads, cleaners and transactions satisfies the invariant on rows and bytes |
| `Uploads.NextSafe` | internal/attachment/repository/reconcile.go:29-66 | every step of uploads, cleaners and transactions keeps rows and bytes consistent |
| `Uploads.AttachmentSafety` | internal/attachment/repository/reconcile.go:29-66 | an attached row has a ready object with its bytes; scheduled or deleted objects have only deleted rows; attached means linked to one undeleted message; an authorised reader finds the bytes |
| `Lifetimes.UploadIsStamped` | internal/attachment/repository/postgres.go:62-91 | in every reachable database a row that is not consumed yet is alone with its object and expires a day after its creation |
| `Lifetimes.ClaimableIsAge` | internal/attachment/repository/reconcile.go:36-45 | in every reachable database the query branch for expired ready uploads is dead: an unscheduled object is claimable exactly when it is unreferenced and more than an hour old |
| `Lifetimes.ClaimAnswers` | internal/attachment/repository/reconcile.go:54-60 | in every reachable database a claim schedules its object and ends every row of it, and touches no other row or object |
| `Lifetimes.FinishAnswers` | internal/attachment/repository/reconcile.go:64-65 | the second transaction ends exactly a scheduled object and touches nothing else |
| `Lifetimes.ReadyIsClaimedExactly` | internal/attachment/repository/reconcile.go:36-45 | in every reachable database a ready upload is claimable exactly from an hour after it began on, 23 hours before it expires |
| `Lifetimes.UnexpiredUploadIsClaimed` | internal/attachment/repository/reconcile.go:39-60 | a run from the empty project, for every age between an hour and a day: the uploader can read an unexpired upload, the cleaner may claim it, and the claim ends it |
| `Orphans.WorldsAreSound` | internal/attachment/attachment.go:178-194 | the database under uploads and cleaners is one the service reaches by itself; an upload that has not stored its bytes still finds its object uploading unless the object is more than an hour old |
| `Orphans.PromptIsTimely` | internal/attachment/attachment.go:178-194 | an upload that stores its bytes within the hour stores them while its object is uploading, whatever cleaners do |
| `Orphans.TimelyRunsLeakNothing` | internal/attachment/repository/reconcile.go:27-66 | over every run whose uploads store while their object is uploading, stored bytes belong to an object that is referenced or that the cleaner takes once it is an hour old, and none are behind a cleaner that erased them |
| `Orphans.OrphansStay` | internal/attachment/repository/reconcile.go:36-45 | bytes of a deleted object that no cleaner is about to erase stay over every further run |
| `Orphans.LateBytesLeakExactly` | internal/attachment/attachment.go:178-194 | in every reachable world, bytes stored now can be left behind in some continuation exactly when their object is deleted or some cleaner has already erased it |
| `Orphans.OvertakenUploadLeaks` | internal/attachment/repository/reconcile.go:56-66 | whenever the object of an upload that has not stored yet is claimable, one cleaner working between two steps of the upload orphans its bytes |
| `Orphans.LateUploadLeaks` | internal/attachment/repository/reconcile.go:56-66 | the run from the empty project that leaves an orphan: begin, an hour, claim, erase, store, finish |
| `Outbox.Backoff` | internal/outbox/outbox.go:76-77 | the retry delay lies between 1 and 60 seconds |
| `Outbox.BackoffDoubles` | internal/outbox/outbox.go:76-77 | the delay starts at a second and doubles with every failure up to a minute |
| `Outbox.Head` | internal/outbox/outbox.go:60-66 | the least unpublished sequence, or none exactly when all are published |
| `Outbox.One` | internal/outbox/outbox.go:40-95 | publishes only a due head under the free aggregate lock; success marks that row, failure moves only its deadline |
| `Outbox.OneAnswers` | internal/outbox/outbox.go:40-95 | one attempt on a free due head: an acknowledged publication marks exactly that row, anything else only postpones it by its backoff; unless refused, its partition gains exactly the logged event |
| `Outbox.OneIdles` | internal/outbox/outbox.go:40-66 | without a due head, or while another worker holds the conversation, an attempt does nothing |
| `Outbox.CandidatesAreDueHeads` | internal/outbox/outbox.go:99-104 | the candidate query selects exactly the due heads |
| `Outbox.Select` | internal/outbox/outbox.go:99-120 | at most 32 conversations with due heads, longest due first, and nobody left out unless the batch is full of earlier ones |
| `Outbox.Batch` | internal/outbox/outbox.go:97-134 | the candidates of the query are each tried once, in order, whatever happened to the others; what that keeps: Outbox.BatchSafe |
| `Outbox.BatchSafe` | internal/outbox/outbox.go:97-134 | a batch keeps the publication invariant |
| `Outbox.NextSafe` | internal/outbox/outbox.go:40-95 | every step of any number of workers keeps the publication invariant |
| `Outbox.OrderedPublication` | internal/outbox/outbox.go:40-132 | the published set is always a prefix; broker records start at 1, repeat or increment, and end at the prefix or one beyond; every record is the logged envelope |
| `Router.Handle` | internal/outbox/router.go:46-87 | done exactly for a known event or a valid record with both effects; a hint precedes the inbox row and a failure leaves no inbox row |
| `Router.Run` | internal/outbox/router.go:89-125 | every record below the committed offset is in the inbox and nothing beyond the offset is handled |
| `Router.AtLeastOnce` | internal/outbox/router.go:46-125 | with overlapping consumers and crashes anywhere: records below a committed offset are in the inbox, inbox ids are logged events with a published hint |
| `Blocking.MalformedBlocksExactly` | internal/outbox/router.go:46-118 | whatever producers may still do, a record can be passed exactly when no record up to it claims another conversation than its key |
| `Blocking.KeyedRecordsPassExactly` | internal/outbox/router.go:46-118 | while records keep to the key and partition of their event, a record can be passed exactly when none from the committed offset up to it is stuck: foreign key, or first of an unreceived event it does not match |
| `Blocking.HintsExclude` | internal/outbox/router.go:59-61 | over every run no two consumers are between hint and inbox of one event |
| `Router.WorkersAreAccepted` | internal/outbox/router.go:73-79 | every record a worker ever publishes is valid, now and in every later log |
| `Session.PageIsContiguous` | internal/realtime/session.go:477-504 | a page carries exactly the sequences after the cursor |
| `Session.Connection.Stop` | internal/realtime/connection.go:56-61 | a close is requested and nothing is enqueued |
| `Session.Connection.Push` | internal/realtime/connection.go:62-71 | a frame is queued exactly when there is room, otherwise a close is requested |
| `Session.Live.Replay` | internal/realtime/session.go:469-516 | the code of replay does what the machine's read and emit steps do, on every path |
| `Session.Live.EmitPage` | internal/realtime/session.go:496-509 | one page is enqueued event by event with the cursor behind each success |
| `Session.NextSafe` | internal/realtime/session.go:163-281 | every step of producer and writer keeps queue, stream and cursors in step; what delivery shows to whom: Delivery.DeliveryIsChecked |
| `Session.DeliveryIsGapFree` | internal/realtime/session.go:163-516 | the frames written to the socket are gap-free under every interleaving, overflow, failed re-read and close; that each of them was authorised: Delivery.EveryFrameIsChecked |
| `Session.ConsecutiveAfterAck` | internal/realtime/session.go:308-516 | after an acknowledged subscription at n, until the next interruption, the k-th event frame carries n+k and sync.complete(t) follows event t |
| `Session.CatchupNeverOverflows` | internal/realtime/session.go:469-524 | a catch-up replay never overflows the queue and its cursor is the last event it enqueued |
| `Delivery.RefusedIsRevoked` | internal/realtime/session.go:199-202 | a queued frame whose check refuses is replaced by exactly the revocation of its conversation |
| `Delivery.DeliveryIsChecked` | internal/realtime/session.go:199-227 | one delivery writes at most one frame; one that is not harmless only if the check allowed it; an event only to a current member, from the log |
| `Delivery.EventAnswers` | internal/realtime/session.go:203-227 | in reachable databases an allowed event is shown exactly to a current member, revoked for anybody else, and resynced or dropped when the log ends before it |
| `Delivery.FrameAnswers` | internal/realtime/session.go:228-268 | what becomes of every other allowed frame |
| `Delivery.EveryFrameIsChecked` | internal/realtime/session.go:163-281 | over every run, each frame written went through a check of its own at that moment |
| `Delivery.SubscribeAnswers` | internal/realtime/session.go:316-331 | a subscription is granted exactly at a cursor of the log, to a current member, while fewer than 16 others stand |
| `Delivery.SubscriptionsAreBounded` | internal/realtime/session.go:324-327 | no connection ever follows more than 16 conversations |
| `Delivery.ReadAnswers` | internal/realtime/session.go:469-495 | a catch-up revokes, resyncs, or pages at most 32 events on from its cursor |
| `Delivery.EmitAnswers` | internal/realtime/session.go:496-509 | the cursor moves exactly with the event enqueued; a full queue leaves it and closes |
| `Locks.NextCoherent` | internal/message/repository/postgres.go:122-197 | granting keeps held locks free of conflicts |
| `Locks.PlansAreDisciplined` | internal/message/repository/forward.go:21-44 | every transaction but a download asks in the ranked order, with the exceptions named there |
| `Locks.WaitsClimb` | internal/conversation/repository/membership.go:63-105 | whoever is waited for waits for something of strictly higher rank |
| `Locks.EveryCycleHasADownload` | internal/message/repository/forward.go:21-44 | no reachable circle of waits without an attachment download, opposite forwards and self-upgrades included |
| `Circles.EveryCircleIsDownloadAgainstMutation` | internal/attachment/repository/postgres.go:124-169 | every reachable circle of waits contains a download that waits for the message of a mutation that waits for its attachment |
| `Locks.SendsExclude` | internal/message/repository/postgres.go:199-300 | no two sends write to one conversation or consume one upload at the same time |
| `Locks.SomebodyProceeds` | internal/message/repository/mutations.go:32-54 | without downloads some transaction can always finish or waits only for ones that can |
| `Locks.DownloadAndDeletionDeadlock` | internal/attachment/repository/postgres.go:124-169 | the converse: a run in which one download and one deletion reach that circle, for all identities |
| `Presence.Redis.Heartbeat` | internal/realtime/presence.go:32-46 | a renewal always fits, a new connection only below 16 live leases; acceptance sets the marker |
| `Presence.HeartbeatAnswers` | internal/realtime/presence.go:32 | a heartbeat is accepted exactly for a live lease or below 16 others; it runs 75 seconds from now; live leases stand and expired ones are gone |
| `Presence.FlushAnswers` | internal/realtime/presence.go:243-249 | the two halves of a flush entry: the stored time rises to the marker and never falls; the marker goes unless a newer heartbeat replaced it |
| `Presence.FetchAnswers` | internal/realtime/presence.go:229-233 | a flusher takes at most 256 markers, as they stand |
| `Presence.Flush` | internal/realtime/presence.go:227-253 | whatever fails, what every user was last seen at is unchanged and stored times only grow; success removes the batch's markers |
| `Presence.NoLostHeartbeat` | internal/realtime/presence.go:32-253 | max(last_seen_at, marker) is the newest accepted heartbeat and nobody holds more than 16 leases |
| `Presence.SeenOnlyGrows` | internal/realtime/presence.go:243-247 | last_seen_at never decreases |
| `Container.ExactContainerEnd` | internal/attachment/attachment.go:264-306 | on any bytes and any announced size the loop decides as the walk does; JPEG and WEBP by their last bytes and length field |
| `Container.WalkOfPadded` | internal/attachment/attachment.go:283-303 | when fewer bytes are held than announced, the walk accepts exactly if at most four are missing and it accepts them filled up |
| `Container.WalkParses` | internal/attachment/attachment.go:283-303 | an accepted file splits into an ended chunk list |
| `Container.WalkOfSerialized` | internal/attachment/attachment.go:283-303 | a chunk list followed by anything is accepted exactly when nothing follows |
| `Container.PngIsAChunkList` | internal/attachment/attachment.go:283-303 | on any bytes and any announced size, a PNG is accepted exactly when what follows its signature is a chunk list whose only IEND is last and empty, of which at most the checksum of that IEND is missing |
| `Container.TrailersAreRejected` | internal/attachment/attachment.go:283-303 | serialising any ended list is accepted and no non-empty trailer is |

## Left out

- One Project only: no state is shared between Projects, so cross-Project isolation is not a statement of this model.
- Transport and plumbing: HTTP and WebSocket framing, JSON decoding, multipart staging, rate limits, configuration, logging and the deadlines of timers, which appear as nondeterministic failures.
- Real cryptography, image decoding, Unicode folding and UUID generation: library code behind the assumptions above.
- Reports, blacklist CRUD, profile edits, Project settings CRUD and audit rows: single-branch checks or CRUD; the blacklist appears as one predicate on texts, the other writes as free changes of users and settings.
- SQL failures inside a transaction other than key collisions: a failed transaction leaves the database it started from.
- Event envelope identities: an event is identified by its conversation and sequence, its payload by the references it carries.
- Byte lengths: the size limits of texts count characters, and the metadata size limit and the syntax of identifiers are not modelled.
- Conversation titles and avatars, join times, presence and typing contents: they take part in no property here.
- Per-emoji reaction counts: the projection keeps the reaction rows they are aggregated from.
- Ties among the due heads of one instant: any order is allowed; the machines of `Uploads` and `Outbox` allow any order at all.
- The cleaner's row locks and locks taken by foreign keys: not part of `Locks`.
- PostgreSQL statement snapshots: a transaction reads the state it is serialised at.
- Commands.Validate: the metadata size limit, identifier syntax and byte lengths are not modelled.
- Schema.Scan: reactions stay rows instead of per-emoji counts; what a projection contains is Readers.ScanAnswers.
- Memberships.AddMembers: answers no rows; what they hold is Organizers.AddMembersAnswers.
- Router.Handle: the size, version and identifier syntax checks of a record are part of being valid, and an event identity is its conversation and sequence.
- Session.Live.Replay: the code is related to the machine without a writer in between, and the writer's wake signal is left out; the interleavings are those of the machine.
- Locks.SomebodyProceeds: fairness of the lock queue and the rollback PostgreSQL performs on a detected deadlock are not modelled.
