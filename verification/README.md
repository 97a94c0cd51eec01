# Verified model of the owney mail server's core

This project models the parts of the owney mail server in which state, runs and
arithmetic interact, and proves what they promise for all inputs, all runs and
all interleavings. Where the code does something else than its comments or the
standards say, the model follows the code, a lemma shows a concrete case, and
another says exactly when the promise is met.

| module | what it models |
|---|---|
| `SmtpReceivers`, `SmtpSession`, `SmtpProperties` | the inbound SMTP session: pipelined reads, command and DATA mode, error budget, STARTTLS |
| `SmtpDelivery` | what a delivery leaves in the store, and what the reply says about it |
| `Federation` | the calendar federation pull protocol, both sides |
| `Schedule`, `Queue` | the outbound queue with any number of workers, crashes and the retry schedule |
| `BlobStore` | the content-addressed store with any number of concurrent writers |
| `Civil` | the two halves of the Gregorian day count |
| `ZBase32` | the z-base-32 encoder |
| `Json`, `Dispatcher` | JMAP result references, JSON pointers with wildcards, request dispatch |
| `MailStore` | email attributes, placement, modification counters and delta sync |
| `ActionLog` | recorded actions on mail and their undo |
| `Ics` | reading an invitation out of iCalendar text |
| `Arithmetic`, `Collections`, `Text` | small facts the others share |

Methods and classes carry the imperative parts of the source, with the same
branches; each is proved against a function of its inputs or of the old state,
and the theorems are about those functions and about the runs they make up.

## What the model says about the code

- A second delivery worker is not safe: the claim is said to make it so
  (`crates/owney-storage/src/queue.rs:106-108`), but starting one while another
  has an attempt open resets that claim, and a delivered or failed item can then
  change. `Queue.StartIsSafeIffAlone` gives the exact condition.
- `changes_since` returns the current state even when it leaves rows out
  (`crates/owney-storage/src/mail_queries.rs:258-281`); a client that continues
  from it, as the enrichment worker does with its cursor
  (`crates/owney-ai/src/worker.rs:62-136`), never sees the rest unless they are
  written again (`MailStore.LeftOutReturnsIff`).
- Undo finds only the newest 10,000 actions (`ActionLog.UndoInvertsHistory`).
- The uid of an invitation, which is TEXT, is the one value that stays escaped
  (`Ics.UidIsKeptIff`).
- The error count survives STARTTLS (`SmtpProperties.ErrorsAreCarriedOver`).
- The budget counts all errors, although its setting is described as one of consecutive
  errors (`crates/owney-smtp-in/src/lib.rs:66-67`): `SmtpProperties.AllErrorsCount`,
  `SmtpProperties.SpreadErrorsClose`. The two differ exactly when something else
  came between the errors (`SmtpProperties.ClosesUnderBothIff`).
- 451 after DATA can mean that every copy is already stored
  (`SmtpDelivery.DeliveryIsTold`).
- An edit in a second that was already served can be lost to the mirror
  (`Federation.SameSecondEditIsLost`); `Federation.EditIsSafeIff` says exactly
  which edits are safe, also while a pull is under way.
- A storage error while an item is applied skips that item only
  (`crates/owney-api/src/fed_apply.rs:114-127`), and the cursor still goes past it:
  the event can be lost to the mirror (`Federation.SkippedEventIsLost`).
  `Federation.SkipIsSafeIff` says exactly which skips are safe, and
  `Federation.PullLeavesOut` what one pull leaves out.
- An event that is created and not mapped, by a crash or by a storage error, stays
  for good and unchanged, and its next delivery makes a second one
  (`Federation.OrphanDuplicates`). There are exactly as many such events as steps
  that made one (`Federation.StraysAreCounted`, `Federation.TidyIff`).
- Nothing keeps two pulls of one federation apart: a notification starts one
  (`crates/owney-api/src/wellknown.rs:451-458`) beside the periodic one. Then the
  older version of an event can come back for good: `Federation.OverlapIsSafeIff`
  says exactly when it cannot. `FederationIsSafe` is about one pull at a time.
- An action on mail whose log entry cannot be written stays and cannot be undone
  (`ActionLog.UnloggedMoveStays`); `ActionLog.FieldIsRestoredIff` says what undoing
  the rest of a run still restores.
- A key `*` is read as the wildcard, which gives back the value meant only in one
  case (`Json.PointerCompleteIff`, `Json.StarMemberIff`), the empty pointer is not
  the whole document (`Json.EmptyPointerIsEmptyKey`), and keys that begin with
  `##` become references (`Dispatcher.ResolutionIsIdempotent`).
- A property of an alarm or of any other component nested in an event takes the
  place of the event's own (`Ics.OwnValueIsReadIff`).
- The comment on the blob store's deduplication says that overwriting a blob
  would leave it unreadable (`crates/owney-storage/src/blob.rs:67-72`). With the
  rename it does not: `BlobStore.RunKeeps` allows such overwrites.

## Assumptions

- SMTP: the line and DATA receivers come from a library that is not part of the
  repository; `SmtpReceivers` states them after RFC 5321. Their streaming law is
  proved there and is what the session relies on. In particular the message
  buffer only gains bytes that stay. The command grammar, the mail handler and
  its clock are parameters. A line feed ends a command line.
- Queue: a recorded attempt adds one to `attempts`; a worker's recorded rows are
  the ones it claimed; a worker may start again after a crash.
- Delivery: within one call the account of a recipient and what the pipeline makes
  of a text for an account do not change.
- Blob store: renames are atomic and durable, temporary names are unique, the
  AEAD opens what it sealed, its wrapped keys have the length of the layout, and
  (only for `CompletedPutIsDurable`) the hash has no collisions.
- Federation: one pull of a federation at a time, which the source does not ensure,
  and no deletions. Ids are ordered as text; the model knows them by their rank.
  Nothing is assumed of the server's clock or of the subscriber's storage:
  `FederationIsSafe` asks each edit for the condition `Federation.EditOk`, which any
  edit in a later second meets (`Federation.LaterSecondIsOk`), and each item that is
  not applied for `Federation.SkipOk`.
- Mail store: email ids are never reused; the newest actions are the last
  inserted ones when two share a second; in `UndoInvertsHistory` both counters
  have room for the undos.

## Model

| member | source | states |
|---|---|---|
| `SmtpReceivers.IngestLine` | crates/owney-smtp-in/src/session.rs:139-170 | takes one read through the line receiver; equal to the byte-wise receiver |
| `SmtpReceivers.LineLaw` | crates/owney-smtp-in/src/session.rs:139-166 | the streaming law for commands: only a used-up read ends without an event, and every event uses at least one byte, so the drain loop ends |
| `SmtpReceivers.IngestData` | crates/owney-smtp-in/src/session.rs:177 | takes one read through the DATA receiver; the buffer only gains bytes that stay |
| `SmtpReceivers.DataLaw` | crates/owney-smtp-in/src/session.rs:177-188 | the streaming law for DATA |
| `SmtpReceivers.DotStuffingRoundTrip` | crates/owney-smtp-in/src/session.rs:387-391 | every body of whole lines, dot-stuffed and ended by a dot (section 4.5.2 of RFC 5321), is received byte for byte, and what is pipelined behind it stays unread |
| `SmtpSession.FeedConcat` | crates/owney-smtp-in/src/session.rs:112-195 | what a connection does with two stretches of bytes is what it does with their concatenation, from every state |
| `SmtpSession.FeedLine` | crates/owney-smtp-in/src/session.rs:139-170 | a read in command mode does what its bytes do one at a time |
| `SmtpSession.FeedData` | crates/owney-smtp-in/src/session.rs:172-188 | a read in DATA mode does what its bytes do one at a time; testing the size once per read decides as testing it after every byte |
| `SmtpSession.Session.constructor` | crates/owney-smtp-in/src/session.rs:55-67 | a new session: command mode, no name, no transaction, no errors, no TLS |
| `SmtpSession.Session.ResetTransaction` | crates/owney-smtp-in/src/session.rs:230-233 | forgets the sender and the recipients and nothing else |
| `SmtpSession.Session.Apply` | crates/owney-smtp-in/src/session.rs:235-340 | the new state, reply and flow of every request; the accepted sender and recipients change only with their 250 |
| `SmtpSession.Session.ProtocolError` | crates/owney-smtp-in/src/session.rs:350-369 | an over-long line closes at once; any other error counts, and at the limit closes with 421 |
| `SmtpSession.Session.FinishData` | crates/owney-smtp-in/src/session.rs:371-411 | an oversized body resets and answers 552; otherwise the whole envelope goes to the handler once and the reply is the handler's outcome |
| `SmtpSession.Session.Drain` | crates/owney-smtp-in/src/session.rs:133-190 | draining one read through both modes equals feeding its bytes one by one |
| `SmtpSession.Session.RunProtocol` | crates/owney-smtp-in/src/session.rs:105-198 | replies, deliveries, state and end after any sequence of reads are those of the concatenated bytes |
| `SmtpSession.Session.ServeConnection` | crates/owney-smtp-in/src/session.rs:40-95 | a whole connection: the plaintext run and, after a handshake, the run inside TLS from a reset session |
| `SmtpSession.CodeTellsEffect` | crates/owney-smtp-in/src/session.rs:235-340 | a command answered with 400 or above changes nothing but the history and keeps the connection; 354, 220 and 221 start the message, the handshake and the end; MAIL and RCPT enter the envelope exactly with their 250 |
| `SmtpSession.HeloStaysOneLine` | crates/owney-smtp-in/src/session.rs:415-432 | no greeting can put a control character into the Received header |
| `SmtpProperties.DrainedIsFed` | crates/owney-smtp-in/src/session.rs:133-190 | draining a read part by part, through both modes and with one size check per part, equals feeding its bytes one by one |
| `SmtpProperties.CutsDoNotMatter` | crates/owney-smtp-in/src/session.rs:105-198 | read-boundary independence: two ways of cutting one byte stream into reads, each drained read by read, give the same replies, deliveries, state and end |
| `SmtpProperties.InjectionIsDropped` | crates/owney-smtp-in/src/session.rs:150-160 | plaintext pipelined behind STARTTLS has no effect whatever |
| `SmtpProperties.NeverUpgradesTwice` | crates/owney-smtp-in/src/session.rs:317-325 | no run inside TLS ends in another upgrade |
| `SmtpProperties.TraceIsAppended` | crates/owney-smtp-in/src/session.rs:105-198 | the history of a session never influences what it does next |
| `SmtpProperties.TlsIsolation` | crates/owney-smtp-in/src/session.rs:79-87 | sessions with equal handler state and error count behave alike inside TLS after arbitrarily different plaintext (section 4.2 of RFC 3207) |
| `SmtpProperties.ErrorsAreCarriedOver` | crates/owney-smtp-in/src/session.rs:79-87 | the error count survives the upgrade: two sessions give the same replies inside TLS on all inputs, or just the same codes, if and only if they made equally many errors before it |
| `SmtpProperties.BadLinesCount` | crates/owney-smtp-in/src/session.rs:350-369 | k rejected lines leave the connection open and add exactly k to the count, as long as the limit is not reached |
| `SmtpProperties.AllErrorsCount` | crates/owney-smtp-in/src/session.rs:350-369 | on every connection the budget counts all rejected lines so far except over-long ones, whatever lies between them, and 421 answers one exactly when that total reaches the limit, as the last thing the connection does |
| `SmtpProperties.ClosesUnderBothIff` | crates/owney-smtp-in/src/lib.rs:66-67 | a connection closed with 421 made exactly max_errors errors, and has that many in a row, as the setting is described, if and only if nothing else came between them |
| `SmtpProperties.SpreadErrorsClose` | crates/owney-smtp-in/src/lib.rs:66-67 | a concrete stream of alternating errors and NOOPs, never two errors in a row, that ends with 421 |
| `SmtpProperties.TransactionIntegrity` | crates/owney-smtp-in/src/session.rs:229-411 | on every connection each delivery carries the sender and exactly the recipients that the client saw accepted since the last reset, between one and max_recipients of them, and a body within max_message_size |
| `SmtpProperties.FeedKeeps` | crates/owney-smtp-in/src/session.rs:235-411 | the invariant behind it holds after every byte: envelope as seen by the client, limits, DATA only with recipients, error budget |
| `SmtpProperties.MessageArrivesIff` | crates/owney-smtp-in/src/session.rs:172-188 | a dot-stuffed body sent after 354 is delivered unchanged if it is within the limit and otherwise answered 552 with nothing delivered |
| `SmtpDelivery.ServerCore.StoreFor` | bin/owneyd/src/handler.rs:93-163 | one recipient: the copy of this message as processed for the account that this recipient resolves to, or none |
| `SmtpDelivery.ServerCore.Deliver` | bin/owneyd/src/handler.rs:43-178 | spam rejection and the recipient loop with its early returns: which copies exist afterwards and what is returned |
| `SmtpDelivery.Progress` | bin/owneyd/src/handler.rs:92-177 | accepted exactly when every recipient's steps completed; otherwise the copies are those of the recipients before the failure |
| `SmtpDelivery.DeliveryIsTold` | bin/owneyd/src/handler.rs:73-177 | per delivery: 250 means that the account of each listed recipient has its copy of this very message, 550 means none has, 451 means those of a prefix have; the prefix is the whole list exactly when only the mark after the last copy failed |
| `SmtpDelivery.RepliesTellTheTruth` | crates/owney-smtp-in/src/session.rs:371-411 | over every connection, with or without TLS: the store is exactly what the deliveries in the transcript account for, recipient by recipient and each as its reply says |
| `SmtpDelivery.StoredTextEndsWithBody` | bin/owneyd/src/handler.rs:86-90 | the text handed to the pipeline ends with the body that was received |
| `SmtpDelivery.DeferredAlthoughStored` | bin/owneyd/src/handler.rs:158-163 | a concrete 451 after which the copy exists, so that the sender's retry stores a second one |
| `Federation.CalendarSync` | crates/owney-api/src/wellknown.rs:343-409 | builds items, next cursor and has_more from the rows in one pass |
| `Federation.RowsExist` | crates/owney-storage/src/calendar.rs:407-467 | the database can always answer the page query in its order |
| `Federation.PageCovers` | crates/owney-api/src/wellknown.rs:343-409 | a page holds every native event between the cursor and the next one; an empty page keeps the second and drops the id |
| `Federation.FullPageShrinks` | crates/owney-api/src/wellknown.rs:365-395 | a full page leaves at least 500 events fewer to pull |
| `Federation.Mirror.ApplyOne` | crates/owney-api/src/fed_apply.rs:168-210 | update through the map, or mint a local event and map it; an untrusted item changes nothing; each storage call can fail, and a failed mapping leaves the event it created |
| `Federation.Mirror.ApplyPage` | crates/owney-api/src/fed_apply.rs:85-129 | all items in order, or none if the author certificate is unusable; items that are untrusted or fail on a storage error are skipped, and the applied ones counted |
| `Federation.Mirror.SyncFederation` | crates/owney-api/src/calendar_sync.rs:54-99 | the pull loop from the stored token, against any peer and with any storage failures; only a pull that reaches a last page and can store it moves the token |
| `Federation.MapIsInjective` | crates/owney-api/src/fed_apply.rs:168-210 | no local event is the image of two remote events, across all federations |
| `Federation.ApplyAllIsIsolated` | crates/owney-api/src/fed_apply.rs:131-213 | applying any items keeps the map one to one, keeps earlier mappings, and changes no event outside the federation's own map |
| `Federation.OtherViewsStay` | crates/owney-storage/src/federation_store.rs:189-212 | what other federations show is untouched |
| `Federation.ApplyAllShowsLatest` | crates/owney-api/src/fed_apply.rs:101-128 | the mirror shows the last trusted version of each remote event over what was there |
| `Federation.LatestIsLast` | crates/owney-api/src/fed_apply.rs:101-128 | that version is the payload of a trusted item which no later trusted item of the same uid follows |
| `Federation.ApplyIsIdempotent` | crates/owney-api/src/fed_apply.rs:85-213 | series of items with the same last versions leave the same mirror, also when applied one after the other |
| `Federation.TryAllShowsLanded` | crates/owney-api/src/fed_apply.rs:101-128 | however the storage calls of a page go: the mirror shows the last version that was applied, the map stays one to one and nothing outside the federation changes |
| `Federation.OneEventEach` | crates/owney-api/src/fed_apply.rs:168-210 | a federation's local events are one for each uid it knows, and the strays that no uid leads to |
| `Federation.StraysAreCounted` | crates/owney-api/src/fed_apply.rs:187-209 | over every run the strays grow by exactly one where an event is created and, by a crash or a storage error, not mapped; none ever changes or goes away |
| `Federation.TidyIff` | crates/owney-api/src/fed_apply.rs:187-209 | after a run every event of the federation is mapped if and only if it was so before and no step created an event without mapping it |
| `Federation.OrphanDuplicates` | crates/owney-api/src/fed_apply.rs:187-209 | such an event and the one that the next delivery of its uid creates are twins |
| `Federation.CompletePullConverges` | crates/owney-api/src/calendar_sync.rs:54-99 | against an unchanging server a pull ends after at most \|events past the cursor\| / 500 + 1 pages and then, if no storage call failed, mirrors every native event past its starting point |
| `Federation.PullLeavesOut` | crates/owney-api/src/fed_apply.rs:114-127 | a complete pull shows the current content of exactly those events that it was served and applied; its cursor goes past the ones it skipped as well, unless it ends on an empty page in their second |
| `Federation.SkippedEventIsLost` | crates/owney-api/src/fed_apply.rs:114-127 | a concrete item that fails on a storage error: the pull completes, its cursor passes the event by, and a failed mapping leaves a stray |
| `Federation.PullIsARun` | crates/owney-api/src/calendar_sync.rs:54-99 | the pull loop against an honest peer, whatever storage calls fail, is a run of the protocol steps and persists its cursor |
| `Federation.CursorAdvances` | crates/owney-api/src/calendar_sync.rs:54-99 | a complete pull ends no earlier than the second it started in and any event it found waiting |
| `Federation.FederationIsSafe` | crates/owney-api/src/calendar_sync.rs:54-99 | over every interleaving of edits and skipped items that meet the conditions below, pulls, single items, storage failures and crashes between creating and mapping, each native event at or below the persisted cursor is mirrored with its current content |
| `Federation.StepKeepsIff` | crates/owney-api/src/calendar_sync.rs:54-99 | a step keeps the invariant of the protocol exactly if it is an edit or a skip that meets its condition, or any other step |
| `Federation.SkipKeepsIff` | crates/owney-api/src/fed_apply.rs:114-127 | the condition on a skipped item is exactly what the invariant needs: the item was rejected, or the rest of the page or the mirror has what the server has now, or the event has moved past the page |
| `Federation.SkipIsSafeIff` | crates/owney-api/src/fed_apply.rs:114-127 | after a skipped item, every continuation keeps the persisted cursor safe if and only if the skip meets that condition |
| `Federation.EditKeepsIff` | crates/owney-api/src/wellknown.rs:365-395 | the condition on an edit is exactly what the invariant of the protocol needs, at every moment of a pull |
| `Federation.EditIsSafeIff` | crates/owney-api/src/wellknown.rs:365-395 | after an edit, every continuation keeps the persisted cursor safe if and only if the edit lies past that cursor and past the pull in flight, or is not native, or its content is shown or on its way |
| `Federation.LaterSecondIsOk` | crates/owney-api/src/wellknown.rs:365-395 | an edit in a later second than the protocol has named so far meets that condition |
| `Federation.UnfitEventEndsUnsafe` | crates/owney-api/src/calendar_sync.rs:54-99 | an event that does not meet it is the end of safety in some continuation, whatever the pull is doing |
| `Federation.EditBehindTheCursorIsMissed` | crates/owney-api/src/wellknown.rs:367-395 | no pull delivers an event at or below its cursor, and the new cursor stays past it unless the pull ends on an empty page in the event's own second |
| `Federation.SameSecondEditIsLost` | crates/owney-api/src/wellknown.rs:367-395 | a concrete second edit in one second that the following pull passes over |
| `Federation.OverlapIsSafeIff` | crates/owney-api/src/wellknown.rs:451-458 | a second pull beside one in flight keeps the stored cursor safe, whatever happens, if and only if the first has nothing left to apply and no page left to ask for |
| `Federation.OverlappingPullIsUnsafe` | crates/owney-api/src/wellknown.rs:451-458 | while a pull still has a trusted item to apply, a second pull beside it can end with an older version shown behind the stored cursor, for every such state |
| `Federation.SecondPullKeeps` | crates/owney-api/src/wellknown.rs:451-458 | beside a pull with nothing left to do a second one keeps the invariant |
| `Federation.CursorRoundTrip` | crates/owney-api/src/calendar_sync.rs:169-174 | the stored cursor is parsed back as it was, for every signed 64-bit second and every id |
| `Schedule.JitterBound` | crates/owney-delivery/src/worker.rs:79-107 | jitter, truncated toward zero, is at most a tenth of the delay either way for every hash |
| `Schedule.RetryIsScheduled` | crates/owney-delivery/src/worker.rs:79-107 | every retry is strictly in the future, within a tenth of its table entry, and only while the table has an entry |
| `Schedule.MaxDelayTotal` | crates/owney-delivery/src/lib.rs:69-72 | the whole schedule is at most 188496 s, or 24585 s for chat |
| `Queue.TryRelays` | crates/owney-delivery/src/worker.rs:156-183 | the first relay answer that is not transient decides; an unreadable blob, a failed lookup and no relay are transient |
| `Queue.QueueTable.Enqueue` | crates/owney-storage/src/queue.rs:55-105 | one more row, due from now on and not before, never tried; all others as they were |
| `Queue.QueueTable.Submit` | crates/owney-delivery/src/lib.rs:138-179 | queues the recipients in order up to the first without an @ or with a storage error, and says so |
| `Queue.SubmitIsARun` | crates/owney-delivery/src/lib.rs:138-179 | what a submission queues, it queues by steps of the protocol |
| `Queue.QueueTable.Claim` | crates/owney-storage/src/queue.rs:109-172 | hands out at most sixteen due rows as they were, none already in hand, and marks just these; fewer than sixteen only if nothing due is left |
| `Queue.BatchExists` | crates/owney-storage/src/queue.rs:106-172 | a batch of at most sixteen due rows, chat first and then earliest, always exists |
| `Queue.QueueTable.ResetStaleClaims` | crates/owney-storage/src/queue.rs:207-218 | no row is left in sending |
| `Queue.QueueTable.ProcessItem` | crates/owney-delivery/src/worker.rs:69-153 | records the decided outcome and bounces only what was recorded as failed |
| `Queue.ProcessAll` | crates/owney-delivery/src/worker.rs:62-64 | processing what was claimed, item by item in any order, is a run of the protocol's steps on the table and its bounces |
| `Queue.WorkerRound` | crates/owney-delivery/src/worker.rs:46-65 | one round of the worker's loop on the table is a run of the protocol's steps, after which it holds nothing |
| `Queue.StepKeeps` | crates/owney-delivery/src/worker.rs:27-66 | every step of every worker, with crashes and storage errors, keeps the queue's invariant, provided a worker starts while no other has an attempt open |
| `Queue.NeverLostAndFinal` | crates/owney-delivery/src/worker.rs:27-153 | over every such run no item is lost, and delivered and failed rows never change |
| `Queue.QueueSafety` | crates/owney-delivery/src/worker.rs:14-153 | over every such run from the empty queue: delivered implies an accepting relay, at most 10 attempts plus resets, at most 188496 s or 24585 s of scheduled delay, at most one bounce and only for failed items, exactly one without mishaps |
| `Queue.StartRecovers` | crates/owney-delivery/src/worker.rs:38-45 | a start is always possible and leaves every unfinished item queued |
| `Queue.StartIsSafeIffAlone` | crates/owney-storage/src/queue.rs:106-108 | from a worker's start on, no delivered or failed row ever changes in any continuation if and only if no other worker has an attempt open at that start |
| `Queue.OpenClaimBreaksFinality` | bin/owneyd/src/main.rs:1089-1166 | for every open attempt, tried or not and however often, and any number of items in between: a continuation in which the newcomer settles the item and the first worker then changes it |
| `Queue.RaceIsReachable` | bin/owneyd/src/main.rs:1089-1166 | four steps from the empty queue lead to such a start |
| `BlobStore.FormatRoundTrip` | crates/owney-storage/src/blob.rs:64-158 | get undoes put, for all nonces and keys, in the file layout of the header |
| `BlobStore.DecodedHashesToName` | crates/owney-storage/src/blob.rs:111-158 | a file decodes only to a plaintext whose hash is its name |
| `BlobStore.Store.Put` | crates/owney-storage/src/blob.rs:64-108 | an existing blob is left alone; otherwise the file appears complete or not at all; errors leave the final paths as they were |
| `BlobStore.Store.Get` | crates/owney-storage/src/blob.rs:111-158 | absent, or the decoded file |
| `BlobStore.StepKeeps` | crates/owney-storage/src/blob.rs:64-215 | every step of any number of writers, kills and power cuts keeps every final path readable |
| `BlobStore.RunKeeps` | crates/owney-storage/src/blob.rs:64-215 | over every interleaving a present blob stays present and readable |
| `BlobStore.ReadsAreSound` | crates/owney-storage/src/blob.rs:111-158 | on every reachable disk a read finds nothing or content that hashes to the name |
| `BlobStore.CompletedPutIsDurable` | crates/owney-storage/src/blob.rs:64-215 | after a completed put of p every later read of its id returns p, whatever else happens |
| `BlobStore.SharedTempNameCorrupts` | crates/owney-storage/src/blob.rs:169-215 | two writers of one blob with one temporary name: the second's opening it empties it and the first's rename publishes an unreadable blob, from every state with both |
| `BlobStore.PutIsARun` | crates/owney-storage/src/blob.rs:64-215 | put, with each way it can fail, is a run of the concurrent steps with the same files and answer |
| `Civil.FastCalendarIsCounting` | crates/owney-core/src/time.rs:47-58 | civil_from_days equals counting day by day from 1970-01-01 for every integer |
| `Civil.NextDay` | crates/owney-core/src/time.rs:47-58 | the day after z is the Gregorian successor of the day z, and all results are valid dates |
| `Civil.MutualInverses` | crates/owney-ai/src/ics.rs:150-157 | the two functions, in different crates, invert each other; exactly the valid dates are fixed by the round trip |
| `Civil.DayOrderIsDateOrder` | crates/owney-core/src/time.rs:47-58 | day numbers are ordered as their dates are, lexicographically |
| `Civil.YearOfEra` | crates/owney-core/src/time.rs:50-52 | the division chain recovers the year of the era |
| `Civil.CivilInvertsDays` | crates/owney-ai/src/ics.rs:150-157 | on valid dates civil_from_days undoes days_from_civil |
| `ZBase32.Encode` | crates/owney-pgp/src/wkd.rs:35-51 | the loop with its 64-bit buffer that is never masked emits exactly the five-bit groups of the padded input |
| `ZBase32.ShiftIn` | crates/owney-pgp/src/wkd.rs:39-41 | bits that fall off the top of the buffer never matter |
| `ZBase32.PaddedLength` | crates/owney-pgp/src/wkd.rs:45-50 | the padding is fewer than five zero bits |
| `ZBase32.RoundTrip` | crates/owney-pgp/src/wkd.rs:35-51 | the text has ceil(8n / 5) letters and a decoder gets the input back, at every length |
| `ZBase32.EncodingIsInjective` | crates/owney-pgp/src/wkd.rs:35-51 | no two inputs share an encoding |
| `Json.EvaluateTokens` | crates/jmap-core/src/refs.rs:186-221 | the recursive evaluation with its flatten loops meets its specification |
| `Json.FlattenItems` | crates/jmap-core/src/refs.rs:186-221 | the wildcard loop flattens one level and fails if any item fails |
| `Json.PointerComplete` | crates/jmap-core/src/refs.rs:181-221 | every location without a * key, printed as an escaped pointer, evaluates to exactly the value there (sections 3 and 4 of RFC 6901) |
| `Json.PointerCompleteIff` | crates/jmap-core/src/refs.rs:181-221 | and every location at all exactly if, at each * key, the value meant is an array and the rest of the pointer gives the empty array on all other members |
| `Json.StarMemberIff` | crates/jmap-core/src/refs.rs:186-221 | the member * itself comes back exactly if it is an array and all other members are empty arrays |
| `Json.PointerSound` | crates/jmap-core/src/refs.rs:186-221 | a path without wildcards yields only values at a location of the same length |
| `Json.PathsCompose` | crates/jmap-core/src/refs.rs:181-221 | a wildcard-free path followed by another path is evaluation in two steps |
| `Json.WildcardFlattens` | crates/jmap-core/src/refs.rs:186-221 | the rest of the path applied to each item, results flattened one level |
| `Json.StarWraps` | crates/jmap-core/src/refs.rs:186-221 | a concrete number under the key * that comes back wrapped in an array |
| `Json.EmptyPointerIsEmptyKey` | crates/jmap-core/src/refs.rs:181-184 | the empty pointer is the member with the empty name, not the document |
| `Dispatcher.ResolveAll` | crates/jmap-core/src/refs.rs:125-158 | all references, or the first error in key order |
| `Dispatcher.Substitute` | crates/jmap-core/src/refs.rs:158-176 | the second loop; its expect never fails |
| `Dispatcher.ResolveArguments` | crates/jmap-core/src/refs.rs:125-176 | resolve_references as a whole |
| `Dispatcher.KeepsCount` | crates/jmap-core/src/refs.rs:125-176 | succeeds exactly when every reference resolves, and then keeps the number of arguments |
| `Dispatcher.ResolutionIsIdempotent` | crates/jmap-core/src/refs.rs:125-176 | resolving twice is resolving once if and only if no key begins with ## |
| `Dispatcher.DoubleHashResolves` | crates/jmap-core/src/refs.rs:125-176 | a concrete ## key for which it is not |
| `Dispatcher.Dispatcher.constructor` | crates/jmap-core/src/lib.rs:204-220 | a new dispatcher knows the core capability and Core/echo |
| `Dispatcher.Dispatcher.Register` | crates/jmap-core/src/lib.rs:280-298 | adds the method and, if needed, declares its capability |
| `Dispatcher.Dispatcher.Process` | crates/jmap-core/src/lib.rs:300-333 | exactly when a request is refused and with which error, and otherwise the responses and handler state of the calls in order |
| `Dispatcher.RefusalIsFirst` | crates/jmap-core/src/lib.rs:300-333 | the first entry of using that repeats an earlier one or is unsupported decides the error, the call limit only comes after |
| `Dispatcher.Dispatcher.CallOne` | crates/jmap-core/src/lib.rs:335-375 | one call: unknown method, capability not in using, unresolvable arguments, or the handler's answer |
| `Dispatcher.EarlierCallsDecide` | crates/jmap-core/src/lib.rs:317-333 | the first n responses depend on the first n calls only |
| `Dispatcher.ResponsesAnswerCalls` | crates/jmap-core/src/lib.rs:317-333 | response i carries the id of call i and its name unless it is an error |
| `Dispatcher.PartialInliningResolvesAlike` | crates/jmap-core/src/refs.rs:125-176 | writing out any of the references that resolve, next to others that may fail, leaves the resolution of the whole as it was: the same result or the same first error in key order |
| `Dispatcher.InliningPreservesMeaning` | crates/jmap-core/src/lib.rs:317-349 | writing out any choice of resolvable references in any calls changes no response, errors included, and no handler state, for whole requests |
| `MailStore.Database.SetEmailAttribute` | crates/owney-storage/src/attributes.rs:29-77 | upsert: content and time change, a dismissal stays; counter and stamp move together; a failure changes nothing |
| `MailStore.Database.DismissEmailAttribute` | crates/owney-storage/src/attributes.rs:115-158 | dismisses an active attribute of an owned email, else fails and changes nothing |
| `MailStore.Database.UpdateEmail` | crates/owney-storage/src/mail_queries.rs:318-400 | replaces keywords and mailboxes or rolls everything back |
| `MailStore.Database.StoredKeywords` | crates/owney-storage/src/mail_queries.rs:343-352 | the stored keywords are the lower-cased ones, as a set |
| `MailStore.Database.StoredMailboxes` | crates/owney-storage/src/mail_queries.rs:353-380 | accepted exactly when the list is non-empty, owned throughout and free of repetitions |
| `MailStore.WriteKeeps` | crates/owney-storage/src/attributes.rs:29-158 | every write keeps the invariant: stamps between creation and the counter, distinct within an account, counters below 2^63, attributes on existing emails, owned non-empty placement |
| `MailStore.DeltaSync` | crates/owney-storage/src/lib.rs:508-523 | for every run and every state seen at its start: the emails stamped above it are exactly those some successful write named, and the state moves exactly when there are any |
| `MailStore.DismissalSticks` | crates/owney-storage/src/attributes.rs:29-77 | no later run of writes clears or moves a dismissal |
| `MailStore.ChangesSince` | crates/owney-storage/src/mail_queries.rs:208-281 | created and updated split by the token; complete exactly when has_more is false |
| `MailStore.RowsExist` | crates/owney-storage/src/mail_queries.rs:246-256 | distinct stamps make the query's order unique and answerable |
| `MailStore.PageIsWholeIff` | crates/owney-storage/src/mail_queries.rs:251-258 | a page leaves something out exactly when more than max emails changed |
| `MailStore.LeftOutReturnsIff` | crates/owney-storage/src/mail_queries.rs:258-281 | an email left out of a page comes back from the returned state if and only if it is written again |
| `MailStore.PagingLosesMail` | crates/owney-storage/src/mail_queries.rs:690-724 | two new emails read one at a time: the second is never reported |
| `ActionLog.Activity.constructor` | crates/owney-storage/src/ai_store.rs:25-55 | an empty log over a database |
| `ActionLog.Activity.RecordAction` | crates/owney-storage/src/ai_store.rs:25-55 | the new action can be undone at once, and each earlier action of the account is one further from the front |
| `ActionLog.RecordingAges` | crates/owney-storage/src/ai_store.rs:57-110 | recording an action pushes exactly the account's own earlier ones toward the end of the window, and out of it when 9,999 newer ones exist |
| `ActionLog.Activity.MoveEmail` | crates/owney-mcp/src/service.rs:156-187 | moves and records the prior placement, or changes nothing, or has moved and errs because the entry could not be written |
| `ActionLog.Activity.Screen` | crates/owney-ai/src/skills.rs:110-149 | moves exactly a first-time sender's inbox mail and records the prior placement, with the same two ways to err |
| `ActionLog.Activity.Categorize` | crates/owney-ai/src/skills.rs:228-281 | adds the category keyword and records the prior keywords, with the same two ways to err |
| `ActionLog.Activity.FindAction` | crates/owney-storage/src/ai_store.rs:57-110 | finds an action exactly when fewer than 10,000 newer ones of the account exist |
| `ActionLog.Activity.UndoAction` | crates/owney-ai/src/lib.rs:36-80 | applies the inverse patch and marks the action; if the mark fails, the patch stays applied, an error is returned and the action is still to undo |
| `ActionLog.FailedMarkIsRepeatable` | crates/owney-ai/src/lib.rs:75-78 | an undo whose mark failed can be repeated: that finds the action, succeeds, marks it and leaves the placement as the first time |
| `ActionLog.StepInverts` | crates/owney-ai/src/skills.rs:133-147 | each move, screening and categorisation records a patch that inverts it, and touches no other email; what it does not record it leaves alone, unless the entry could not be written |
| `ActionLog.UndoRestores` | crates/owney-ai/src/lib.rs:36-80 | undoing one action succeeds exactly when it can still be found, and then what the action touched is as it was before it and the rest as it is |
| `ActionLog.UndoGivesOldest` | crates/owney-ai/src/lib.rs:36-80 | for every sequential run, entries that could not be written included, undoing its actions newest first goes through if and only if the oldest is among the newest 10,000, and then each field of each email is what it was before the oldest logged action on it, or untouched |
| `ActionLog.FieldIsRestoredIff` | crates/owney-ai/src/skills.rs:133-147 | so undoing the run restores a field if and only if no unlogged change before the oldest logged action on it is left in it |
| `ActionLog.UnloggedMoveStays` | crates/owney-mcp/src/service.rs:172-186 | a move whose entry could not be written errs, stays, and cannot be undone |
| `ActionLog.UndoInvertsHistory` | crates/owney-ai/src/lib.rs:36-80 | for every sequential run whose entries were all written, undoing its actions newest first goes through if and only if the oldest is among the newest 10,000, and then restores keywords and mailboxes of every email |
| `ActionLog.UndoTwice` | crates/owney-ai/src/lib.rs:45-47 | undoing an undone action succeeds and changes nothing |
| `ActionLog.OldestIsLost` | crates/owney-storage/src/ai_store.rs:103-110 | the oldest of 10,001 actions cannot be undone any more |
| `ActionLog.StaleSnapshotUndoes` | crates/owney-ai/src/skills.rs:266-279 | from an older snapshot, categorise and undo give back the keywords exactly when they had not changed since the snapshot |
| `ActionLog.StaleMoveUndoes` | crates/owney-mcp/src/service.rs:156-187 | from an older snapshot, move and undo give back the mailboxes exactly when the snapshot's are still the email's, or the snapshot has none and the email was only where it was moved |
| `ActionLog.StaleScreeningUndoes` | crates/owney-ai/src/skills.rs:133-147 | the same for a screening that moves |
| `Ics.Unfold` | crates/owney-ai/src/ics.rs:71-83 | the unfolding loop meets its specification |
| `Ics.SplitProperty` | crates/owney-ai/src/ics.rs:87-104 | the first colon outside quotes decides |
| `Ics.Unescape` | crates/owney-ai/src/ics.rs:107-122 | the unescaping loop meets its specification |
| `Ics.ParseInvite` | crates/owney-ai/src/ics.rs:13-67 | the line loop meets its specification: only the first VEVENT counts |
| `Ics.UnescapeInverts` | crates/owney-ai/src/ics.rs:107-122 | unescaping undoes the TEXT escaping of section 3.3.11 of RFC 5545 |
| `Ics.UnfoldInvertsFold` | crates/owney-ai/src/ics.rs:71-83 | unfolding undoes any folding at positive positions, with CRLF, LF or CR |
| `Ics.PropertyRoundTrip` | crates/owney-ai/src/ics.rs:87-104 | a printed property splits as it was put together, colons and semicolons in quoted parameters included |
| `Ics.StampReads` | crates/owney-ai/src/ics.rs:127-146 | the UTC stamp of any instant of the years 0 to 9999 reads back as that instant |
| `Ics.InviteRoundTrip` | crates/owney-ai/src/ics.rs:13-146 | print, then parse: for every calendar around the event, in any order and folding, times come back exactly and texts without white space at their edges |
| `Ics.PrintedEventIsRead` | crates/owney-ai/src/ics.rs:13-146 | every event whose texts hold no carriage return and whose years have four digits can be printed, and printed alone is read back with its times and texts |
| `Ics.OwnValueIsReadIff` | crates/owney-ai/src/ics.rs:30-52 | nested components are not told apart: for every field and every component anywhere in the event, the event's own value is read exactly if it also stands behind the component, or the component has none of that name or its last one reads the same |
| `Ics.TextIsKeptIff` | crates/owney-ai/src/ics.rs:100-122 | a text comes back unchanged if and only if no white space other than a newline is at its edges |
| `Ics.UidIsKeptIff` | crates/owney-ai/src/ics.rs:40 | the uid is not unescaped: it comes back unchanged if and only if it has no such edges and no backslash, semicolon, comma or newline |
| `Ics.CommaInUid` | crates/owney-ai/src/ics.rs:40 | a concrete uid that comes back with a backslash |

## Left out

- Sockets, TLS itself, timeouts, the session's wall-clock budget and failing writes to the client: time and transport are inputs.
- SPF, DKIM, DMARC, PGP and spam scoring: their verdicts are inputs to `SmtpDelivery`; a score that is not a number is not considered.
- The text of bounce messages, their status codes and the mapping of relay errors: an attempt is accepted, permanent or transient.
- Panics, time limits and the created-ids echo of the JMAP dispatcher: a handler is a function of its arguments and its state.
- The session object and other endpoints of JMAP, and `Email/set`: beyond dispatch they add no deep property.
- `Dispatcher.ResolveArguments`: the texts of errors that the JSON library words are not modelled, nor is a reference written as an array.
- `Json.EvaluateTokens`: numbers stand for all scalar values other than strings.
- `MailStore.ChangesSince`: threads and mailboxes, which use the same query on their own tables; a page size of 2^63 - 1 or more, which overflows in the source.
- `MailStore.Database.UpdateEmail`: lower-casing is that of ASCII.
- `ActionLog.UndoInvertsHistory`: runs with entries that could not be written; `ActionLog.UndoGivesOldest` and `ActionLog.FieldIsRestoredIff` are about those.
- `Civil.FastCalendarIsCounting`: overflow of 64-bit integers, beyond any year a clock can show.
- `Ics.UnfoldInvertsFold`: a fold before the first character of a line, which joins the line to the one before it; positions are positive here.
- `Ics.InviteRoundTrip`: a carriage return inside a text, which TEXT cannot express.
- `Ics.ParseInvite`: TZID times are passed through as raw values and have no epoch, as in the source; seconds above 59 and days past a month's end are accepted as in the source.
- `SmtpSession.Session.Apply`: ESMTP parameters other than SIZE; unimplemented commands are one case; replies are told apart and have their codes, but not their wording.
- `Federation.Mirror.ApplyOne`: the checks on signature and author domain are one input, whether the item is trusted.
- `Queue.QueueTable.Claim`: the order of the claimed items within a batch; `Queue.ProcessAll` takes them in any order.
- `Queue.QueueTable.Submit`: the clock stands still during one submission.
- Authorisation of federation requests, invitations, notifications and the push outbox.
- Backup, search, IMAP, the administration commands and the user interface.
