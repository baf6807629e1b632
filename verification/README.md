# Verification of Envelope's sending, archive and mailbox protocols

A Dafny model of the parts of Envelope where a mistake costs mail: sending a
queued draft twice, sending it without anybody answering for it, restoring an
archived message twice, or losing one in a bulk move. Each part is modelled as
the code has it, with its branches, constants and failure points, and the
properties are proved for every input, every run and every interleaving.

`dafny verify dfyconfig.toml` checks the whole project.

## The pieces

* **Sending.** `DraftStore` is the drafts table: one row, and every statement
  that may match it. `SendSweep` is the protocol over the table: any number of
  senders (the scheduled sweep and the immediate send), editors, operators and
  provider sync, with a statement able to fail and a sender able to crash
  anywhere. `SendGuarantees` and `CorrectionLoop` prove what every run keeps.
  `Sweeper` is the sweep as it is written: a loop over the due drafts with
  everybody else running between its database calls, proved to take only steps
  of the protocol. `ImmediateSend` shows where at-most-once stops, and `SentContent`
  which content goes out for a claim.
* **Attribution.** `Attribution` decides which keys may reach the Governor;
  `AttributionPersist` binds the decision to a revision and bounds the retries.
* **Archive.** `Text`, `Percent` and `ArchivePaths` cover slugs, decimal
  numbers, message paths and dashboard routes; `Manifest` the structural checks;
  `VerifyArchive` the check of the tree; `RestorePlan` and `Restore` the log, the
  plan, the audit and the crash-safe executor.
* **Mailbox.** `UidSets`, `Bulk` and `BulkMove` cover ranges, chunks, the
  batch-then-single retry, and when a move can lose a message.
* **Wire.** `McpFraming` is the stdio framing, `Crlf` the line-ending normalizer.

## What turned out not to hold

* *At most one SMTP attempt per draft* holds of the scheduled sweep, but not of
  the immediate send: its claim guard is still armed when SMTP reports an error,
  so the row returns to `draft` and can be sent again. `AttemptsBounded` gives the
  exact bound (one more attempt than drops), `SweepTransmitsAtMostOnce` the guarantee
  for each draft that only sweepers claim, and `ImmediateSendRepeats` a run with
  n attempts for every n. The comment at crates/cli/src/commands/drafts.rs:2270-2273
  speaks only of failures before SMTP; the model follows the code.
* *What is claimed is what is sent* holds of the sweep, and of an immediate send exactly
  when it saw no copy of the draft at the provider (`SendsWhatItClaimedIff`). With a copy,
  the letter is fetched after the claim and goes out whatever it says, without Bcc or
  Reply-To. The Governor is asked about that content, but the claim and its revision
  are the row's.
* *Restore is exactly once* does not hold. A message that was logged is delivered,
  once and for good, exactly when its append took effect. Refused, cut off by a crash
  before it was applied, or never sent because the pending line was not confirmed, it
  is logged and no later run tries it again (`DeliveredExactlyWhenApplied`).
* *A bulk move never loses a message* fails exactly when the server lacks UIDPLUS,
  the message already carried `\Deleted`, and the request names another message too
  (`LosesExactlyWhen`).
* *The archive walk never enters a link* holds below `messages/`, and fails exactly
  when `messages` itself is a link to a directory with something in it
  (`EscapesExactlyWhen`); such an archive can pass (`LinkedMessagesPassExactlyWhen`).
* *Encoding undoes decoding of a slug* holds exactly of canonical slugs
  (`EncodeUnescapeIffCanonical`).
* *What the host observed agrees with what it derived* fails of the two functions
  alone for one key: on a reply that carries a looked-up cold contact, `cold_email` is
  derived but reported absent (`ObservationAgrees`). The program never builds such a
  context: crates/cli/src/commands/governor_gate.rs:82-86 and
  crates/dashboard/src/lib.rs:1625-1629 clear the look-up on a reply, and the
  unsubscribe builder sets no reply. For contexts so built the agreement holds for
  every key (`ObservationAgreesAsBuilt`).

## Model

| member | source | states |
|---|---|---|
| SendSweep.AttemptsBounded | crates/dashboard/src/lib.rs:658-1110 | In every run of senders, editors, failures and crashes a draft is handed to SMTP at most once more than immediate sends put it back; after each attempt not put back the row is still `sending` under the transmitting lease, or sent, uncertain or discarded, and no claim can match it |
| SendSweep.SweepTransmitsAtMostOnce | crates/dashboard/src/lib.rs:658-1110 | A draft that only sweepers claim is never transmitted twice, however everybody interleaves, whatever fails, and however other drafts are sent |
| SendSweep.SweepNeverDrops | crates/dashboard/src/lib.rs:1068-1106 | A draft that only sweepers claim is never returned to a claimable state once attempted |
| SendSweep.RunKeeps | crates/dashboard/src/lib.rs:672-698 | Every reachable state keeps lease ownership and attempt accounting: a holder's row is still `sending`, under its lease, at the claimed revision |
| SendSweep.ClaimedIsFrozen | crates/store/src/drafts.rs:494-510 | No statement without the lease matches a row in `sending` |
| SendSweep.ExitMatches | crates/store/src/drafts.rs:1570-1578 | The lease holder's own statement always matches, and after SMTP it closes the row unless it is the immediate send's guard |
| SendGuarantees.TransmitsTheClaimedRevision | crates/dashboard/src/lib.rs:700-726 | When a sender is about to transmit, the row in the table is still field for field the snapshot it claimed, the gate's reason holds of it, and what goes out is its content, or on an immediate send with a copy at the provider the copy's letter with the row's attachments |
| SentContent.SendsWhatItClaimedIff | crates/cli/src/commands/drafts.rs:2608-2680 | After a claim, whatever anybody does and whatever the provider holds, every attempt under its lease sends exactly the claimed content, if and only if the path is scheduled or the sender saw no copy at the provider |
| SentContent.AttemptIsOfTheClaim | crates/cli/src/commands/drafts.rs:2586-2593 | In every continuation after a claim, each attempt under its lease is made for the claimed row, on the claimed path |
| SendGuarantees.EveryAttemptIsAnswered | crates/dashboard/src/lib.rs:790-822 | Every transmission, by either path, was a current dashboard Human-only Send or resolved as attributed and was allowed by the Governor; a scheduled one without a human author and approval had a declaration of that very revision with an accepted key |
| SendGuarantees.TransmittedWasAllowed | crates/email/src/outbound.rs:1088-1113 | Over every run, each transmission on a Governed basis follows an earlier gate action of the same sender, holding that lease on that snapshot and content, that put that request to the Governor and was allowed |
| SendGuarantees.DecisionJustified | crates/email/src/outbound.rs:1088-1113 | The gate proceeds only with a reason that holds of the snapshot, and on a Governed basis only when the Governor allowed that very request; an immediate send always needs a declaration |
| SendGuarantees.LeaseIsExclusive | crates/dashboard/src/lib.rs:1139-1206 | Nobody else's action changes a held row or moves its holder |
| SendGuarantees.OnlyTheHolderReleases | crates/store/src/drafts.rs:1570-1578 | A row leaves `sending` only by a statement of the sender whose lease it carries |
| SendGuarantees.ReportsAreTruthful | crates/dashboard/src/lib.rs:895-918 | Every published `sent`, `blocked` or `deferred` is backed by the row's own transition under that lease |
| SendGuarantees.ExitStatus | crates/dashboard/src/lib.rs:1131-1137 | The statement behind each published outcome leaves the row in the status the outcome names |
| SendGuarantees.DoubtIsPublishedUnparked | crates/dashboard/src/lib.rs:1094-1105 | `delivery_uncertain` is published although the park failed and the row is still `sending` |
| ImmediateSend.ImmediateSendRepeats | crates/cli/src/commands/drafts.rs:2753-2780 | For every n a run hands one draft to SMTP n times, because the claim guard returns it to `draft` after each SMTP error |
| ImmediateSend.GuardReleases | crates/cli/src/commands/drafts.rs:2298-2319 | An armed guard puts the held row back to `draft` with its schedule intact |
| DraftStore.ExceptionIffLatestHumanSend | crates/dashboard/src/lib.rs:1732-1760 | Over every history of statements, the Governor exception holds if and only if the latest queue transition was a dashboard Human-only Send and no edit, hold or requeue took effect since |
| DraftStore.GrantIsOfThePresentRevision | crates/store/src/drafts.rs:1865-1905 | The send that stands was queued for the revision the row has now |
| DraftStore.AuthorizationStep | crates/store/src/drafts.rs:1779-1812 | One statement grants, keeps or withdraws the exception, and a current send stamp never stands without a current approval |
| CorrectionLoop.LoopEnds | crates/email/src/attribution_persist.rs:380-461 | At a fixed revision, declaration and schedule, a draft with k recorded attempts fails attribution at most max(1, 3 - k) more times over every run, one of human origin at most once, an unscheduled one never |
| CorrectionLoop.LoopReachesItsBound | crates/dashboard/src/lib.rs:830-919 | An uncorrected bot or unknown draft does fail that many times, and is then in `pending_review` without a schedule |
| CorrectionLoop.SpentIsUnscheduled | crates/dashboard/src/lib.rs:830-919 | In every undisturbed run that has met its bound, the draft is off the schedule or its row is still claimed |
| CorrectionLoop.ParkedStaysUnscheduled | crates/store/src/drafts.rs:1448-1468 | A parked row stays off the schedule until a statement reopens it |
| CorrectionLoop.HumanDraftLeavesOnce | crates/email/src/attribution_persist.rs:440-461 | Over every undisturbed run a human-origin draft fails attribution at most once, and its author, declaration, revision and content are never rewritten |
| CorrectionLoop.HumanDraftIsParkedUnchanged | crates/dashboard/src/lib.rs:849-866 | That failure parks the draft for review, off the schedule, everything else as it was |
| CorrectionLoop.StepSpends | crates/dashboard/src/lib.rs:830-919 | No step raises refusals so far plus refusals still possible |
| Sweeper.Sweeper.RunScheduledSendSweep | crates/dashboard/src/lib.rs:658-1110 | One sweep takes exactly the drafts due at its scan, every claimed one runs the course its answers dictate, it ends holding nothing, and leaves no claim behind unless a statement of its own failed |
| Sweeper.Sweeper.SweepOne | crates/dashboard/src/lib.rs:672-726 | A draft is claimed if and only if the statement runs and the row is due at that revision then, and the claimed row is that row under the new lease; it is then moved and reported as its final exit says |
| Sweeper.Sweeper.TakeTurn | crates/dashboard/src/lib.rs:700-1106 | From a claim to the end: the row ends as the statement of its final exit leaves it, and the matching outcome is published |
| Sweeper.Sweeper.OthersRun | crates/dashboard/src/lib.rs:672-698 | Whatever others do meanwhile, the held row and the place in the code are unchanged |
| Sweeper.Sweeper.ClaimDraftForSending | crates/store/src/drafts.rs:918-934 | A lease is returned if and only if the row is due at the scanned revision and the statement runs, and the row is then `sending` under it |
| Sweeper.Sweeper.ReleaseClaim | crates/dashboard/src/lib.rs:1149-1177 | True if and only if the held row was moved to the requested status, everything else unchanged |
| Sweeper.Sweeper.ParkReviewClaimWithBlock | crates/dashboard/src/lib.rs:1182-1208 | True if and only if the held row is now `pending_review`, off the schedule, with its block |
| Sweeper.Sweeper.ParkDeliveryUncertain | crates/dashboard/src/lib.rs:1428-1453 | True if and only if the held row is now `delivery_uncertain`, off the schedule |
| Sweeper.Sweeper.PersistSentState | crates/dashboard/src/lib.rs:1468-1489 | Recorded as `sent`; otherwise parked if the fallback runs, and still `sending` if it does not |
| Sweeper.Sweeper.ListDraftsDueForSend | crates/store/src/drafts.rs:1581-1597 | Exactly the due rows with their revisions, each once |
| Sweeper.Sweeper.Accountable | crates/dashboard/src/lib.rs:658-1110 | At every point of the sweep's life the attempt bound and the truth of reports hold |
| Sweeper.RunGovernorGate | crates/dashboard/src/lib.rs:1773-1863 | The gate as run, through the resolver, decides as the protocol's gate does |
| Attribution.Resolve | crates/email/src/attribution.rs:413-527 | Attributed exactly when nothing is at fault, a required declaration has an accepted key and derived and accepted keys are not both empty; the submitted set is then their strictly sorted union, otherwise empty; rejections are exactly the faults |
| Attribution.ResolutionIgnoresOrder | crates/email/src/attribution.rs:413-527 | State and submitted set ignore order, repetition and padding of the declaration |
| Attribution.AttestationOnlyFromHost | crates/email/src/attribution.rs:448-455 | A human-authority key is submitted only when the host itself derived it from an approval |
| Attribution.ObservationAgrees | crates/email/src/attribution.rs:227-281 | A corroborated key was already derived; an observed-absent key is derived if and only if it is `cold_email` on a reply that still carries a looked-up cold contact |
| Attribution.ObservationAgreesAsBuilt | crates/dashboard/src/lib.rs:1625-1629 | In every context as the program builds them, an observable key is derived if and only if it was observed present |
| Attribution.DerivedIffExhibited | crates/email/src/attribution.rs:107-182 | A key is derived exactly when its test holds |
| Attribution.DerivedDistinct | crates/email/src/attribution.rs:107-182 | No key is derived twice |
| Attribution.ConflictingPartner | crates/email/src/attribution_provenance.rs:124-137 | A partner is reported if and only if some exclusivity pair joins the key to a present one |
| Attribution.FindConflicts | crates/email/src/attribution.rs:485-496 | Exactly the accepted keys that clash with the union are rejected, and nothing else is |
| Attribution.Sift | crates/email/src/attribution.rs:437-476 | Every declared key is accepted as declarable, accepted as corroborated, or rejected with the code its provenance and observation give |
| AttributionPersist.NormalizeContextCorrectionAttrs | crates/email/src/attribution_persist.rs:64-110 | Accepted exactly when every token is declarable and there is one; otherwise the first offender is named with its code; the keys come in catalog order |
| AttributionPersist.NormalizedIsAttributed | crates/email/src/attribution_persist.rs:64-110 | What it accepts resolves as attributed in every context |
| AttributionPersist.AttributedNeedsDeclaration | crates/email/src/attribution_persist.rs:301-350 | A scheduled draft that resolves is human-written and approved, or has a declaration of its revision with a standing key |
| AttributionPersist.NewBot | crates/email/src/attribution_persist.rs:164-183 | A fresh declaration holds the distinct tokens once each, is current, and counts no failure |
| Percent.DecodeEncode | crates/email/src/backup.rs:418-465 | Decoding an encoded UTF-8 name gives the name back |
| Percent.DecodeFolderForDisk | crates/email/src/backup.rs:431-465 | The indexed loop computes the decoding, with each of its four errors |
| Percent.EncodeFolderForDisk | crates/email/src/backup.rs:418-429 | The byte loop computes the encoding over the slug alphabet |
| Percent.EncodePathSegment | crates/dashboard/src/ui_paths.rs:6-17 | The byte loop computes the encoding over the unreserved alphabet |
| Percent.EncodeIsSafe | crates/email/src/backup.rs:414-429 | Only kept bytes, `%` and upper-case hex digits come out |
| Percent.EncodeInjective | crates/email/src/backup.rs:418-429 | Different names have different slugs |
| Percent.EncodeUnescapeIffCanonical | crates/email/src/backup.rs:431-465 | Re-encoding a decoded slug gives it back if and only if the slug is canonical |
| Percent.NotEverySlugIsCanonical | crates/email/src/backup.rs:449-457 | A lower-case escape and a signed escape decode, and do not survive re-encoding |
| ArchivePaths.ValidateMessageRelPath | crates/email/src/backup.rs:496-568 | A path is accepted if and only if it is the canonical path of the message and the folder is not empty, `.` or `..` |
| ArchivePaths.PathInjective | crates/email/src/backup.rs:467-477 | The canonical path determines folder, uidvalidity and UID |
| ArchivePaths.PathSegments | crates/email/src/backup.rs:471-477 | The canonical path has exactly three segments, whatever the folder is called |
| ArchivePaths.MessageRouteInjective | crates/dashboard/src/ui_paths.rs:22-33 | Reader links determine account, folder and UID |
| ArchivePaths.DraftRouteInjective | crates/dashboard/src/ui_paths.rs:35-41 | Draft links determine account and draft |
| ArchivePaths.MessageRouteSegments | crates/dashboard/src/ui_paths.rs:22-33 | A reader link always has five segments, whatever account and folder are called |
| ArchivePaths.RouteSegments | crates/dashboard/src/ui_paths.rs:35-41 | A draft link always has five segments |
| Manifest.ValidateManifest | crates/email/src/backup.rs:634-721 | A manifest passes if and only if it is acceptable, a condition that does not mention shared paths although the code checks them |
| Manifest.AcceptedPathsAreDistinct | crates/email/src/backup.rs:687-689 | No accepted manifest names a file twice, so dropping the duplicate-path check accepts the same manifests |
| Manifest.AcceptedCountsAddUp | crates/email/src/backup.rs:710-718 | The declared folder counts of an accepted manifest sum to its messages |
| Manifest.CheckMessages | crates/email/src/backup.rs:663-707 | Passes exactly when every record is sound and identities are unique, and then counts each folder exactly |
| VerifyArchive.VerifyArchive | crates/email/src/backup.rs:1301-1378 | Missing, wrong-sized and wrong-digest records are exactly those the look-up of each path says; extras and unsafe entries are exactly what the walk adds |
| VerifyArchive.OkMeans | crates/email/src/backup.rs:1364-1370 | The archive passes if and only if a file with the recorded size and digest lies at every record's path through real directories and the walk met no link |
| VerifyArchive.VerdictsPartition | crates/email/src/backup.rs:1307-1350 | In every report each record is clean or lies in exactly one of the missing, wrong-sized and wrong-digest lists, the lists name records only, and the counts add up |
| VerifyArchive.CleanMeans | crates/email/src/backup.rs:593-628 | A record is clean if and only if real directories lead to a file with its size and digest |
| VerifyArchive.ExtrasMean | crates/email/src/backup.rs:1352-1361 | Extras are exactly the message files the walk reaches and no record names |
| VerifyArchive.WalkDir | crates/email/src/backup.rs:1278-1296 | The recursive walk reports exactly the message files and links among the leaves, in order |
| VerifyArchive.LeavesAreReached | crates/email/src/backup.rs:1278-1296 | The walk meets exactly the files and links real directories lead to |
| VerifyArchive.EscapesExactlyWhen | crates/email/src/backup.rs:1258-1267 | The walk meets something outside the archive if and only if `messages` itself is a link to a directory that holds a file or a link |
| VerifyArchive.LinkedMessagesPassExactlyWhen | crates/email/src/backup.rs:1301-1378 | An archive whose `messages` is a link to a directory passes if and only if it has no record and the target holds no further link |
| RestorePlan.LoadRestoreState | crates/email/src/backup.rs:1160-1214 | Exactly the keys of all readable lines, with one warning for each malformed line and each pending key that is not done |
| RestorePlan.LoadIgnoresOrder | crates/email/src/backup.rs:1160-1214 | The loaded keys and the doubted keys do not depend on the order of the lines |
| RestorePlan.KeysGrow | crates/email/src/backup.rs:1160-1214 | A longer log never yields fewer keys |
| RestorePlan.PlanRestore | crates/email/src/backup.rs:893-926 | The plan holds exactly the selected, unlogged records in archive order, each to its mapped folder; plan and skip counts cover every record; destinations are the first occurrences |
| RestorePlan.PlanRestoreStateAudit | crates/email/src/backup.rs:978-1020 | One row for each selected doubted key, in order, with the status the manifest gives it |
| RestorePlan.AuditedIsNeverPlanned | crates/email/src/backup.rs:978-1020 | Nothing the audit lists would be appended by any plan made from the same log |
| Restore.AtMostOnce | crates/cli/src/commands/backup.rs:679-857 | Over any number of runs, each crashing or failing anywhere between pending line, append and done line, no archived message is appended twice, and a logged key is never appended again |
| Restore.SmoothSessionCompletes | crates/cli/src/commands/backup.rs:679-857 | A run without failures leaves every selected message logged: before, found at the destination, or appended now with its one copy in the mailbox |
| Restore.DeliveredExactlyWhenApplied | crates/cli/src/commands/backup.rs:785-843 | Whatever later runs do, a message this step logged ends with at most one copy, and with one if and only if it was not found at the destination, its pending line was confirmed and the append took effect |
| Restore.StepAccounts | crates/cli/src/commands/backup.rs:698-843 | The log grows only by lines of this message, the mailbox by at most one copy and only behind a pending line, and each outcome names exactly the lines and the copy it stands for |
| Restore.Restorer.Execute | crates/cli/src/commands/backup.rs:679-857 | Source folder by source folder in name order, stopping at the first abort |
| Restore.Restorer.RunRestore | crates/cli/src/commands/backup.rs:553-878 | A run is: read the log, plan, work the plan off |
| Restore.WriteKeys | crates/email/src/backup.rs:1120-1134 | A line that landed, confirmed or not, puts its key among those a later run loads; a lost one changes nothing |
| Restore.WorkOrderIsWanted | crates/cli/src/commands/backup.rs:609-620 | Bucketing by folder loses, adds and repeats no planned message |
| Restore.AcceptedKeysAreDistinct | crates/email/src/backup.rs:679-686 | An accepted manifest gives every message its own key |
| UidSets.CoalesceUids | crates/email/src/bulk.rs:277-299 | The runs denote exactly the given UIDs, are strictly separated, and no successor overflows |
| UidSets.FewestRuns | crates/email/src/bulk.rs:277-299 | No sequence-set for the same UIDs has fewer runs |
| UidSets.ChunkUids | crates/email/src/bulk.rs:303-308 | Chunks concatenate to the sorted, duplicate-free list, are non-empty and at most 200 long, and all but the last are full |
| UidSets.ChunkRunsDenote | crates/email/src/bulk.rs:376-379 | The sequence-sets of all chunks together name exactly the UIDs of the whole list |
| Bulk.Client.Execute | crates/email/src/bulk.rs:340-406 | Refused for a failed search, no target or more than 500; a dry run changes nothing; a tag touches only the store, any other operation only the mailbox; every target ends in exactly one list |
| Bulk.Client.ExecuteChunk | crates/email/src/bulk.rs:378-396 | Batch first, then one UID at a time, over the same mailbox |
| Bulk.CallPartitions | crates/email/src/bulk.rs:373-406 | For every failure pattern each UID is in exactly one of succeeded and failed, once |
| Bulk.OnlyPresentMatter | crates/email/src/bulk.rs:409-426 | An operation over a sequence-set concerns only the messages that exist |
| Bulk.Client.ExecuteTag | crates/email/src/bulk.rs:430-488 | The tag is stored for exactly the UIDs that succeeded; each other one fails with the code of what went wrong in fetching, identifying or storing it; each is in one list, once |
| Bulk.Client.TagMessage | crates/email/src/bulk.rs:442-478 | Stored under the Message-ID if and only if the message was found, has one and the store took it; otherwise the code names the first thing that went wrong and nothing is stored |
| Bulk.ResolveTarget | crates/email/src/bulk.rs:312-333 | The targets are sorted and duplicate-free |
| BulkMove.LosesExactlyWhen | crates/email/src/bulk.rs:42-78 | A target can be lost if and only if the server lacks UIDPLUS, the target was already deleted-flagged, and the request names another message |
| BulkMove.CallIsHonest | crates/email/src/bulk.rs:42-78 | A guarded message stays in the source or is copied through every partial failure, and is reported as moved only if copied |
| BulkMove.AloneIsSafe | crates/email/src/bulk.rs:373-396 | A request for one message alone never loses it |
| McpFraming.ReadsBack | crates/cli/src/mcp.rs:2664-2722 | Any mix of messages in either framing, with blank lines between, reads back as those messages in order and then the end of the stream |
| McpFraming.Reader.ReadMcpMessage | crates/cli/src/mcp.rs:2664-2710 | The reader delivers the next message and leaves the rest, with each of its errors |
| McpFraming.Writer.WriteMcpMessage | crates/cli/src/mcp.rs:2715-2722 | The writer appends the newline framing of its message |
| Crlf.NormalizeCrlf | crates/email/src/compose.rs:305-322 | The single pass with lookahead computes the reference definition |
| Crlf.NormalHasOnlyPairs | crates/email/src/compose.rs:305-322 | CR and LF occur in the result only as pairs |
| Crlf.OnlyPairsIffPaired | crates/email/src/compose.rs:291-304 | Only pairs means exactly: every CR is followed by LF and every LF preceded by CR |
| Crlf.FixedIffOnlyPairs | crates/email/src/compose.rs:305-322 | An input is left unchanged if and only if it is strict already |
| Crlf.NormalIsTheOnlyOne | crates/email/src/compose.rs:305-322 | The result is the only strict text with the same lines |
| Crlf.NormalKeepsPayload | crates/email/src/compose.rs:305-322 | Every byte that is no line break is kept, in order |
| Crlf.NormalLength | crates/email/src/compose.rs:305-322 | The result is at most twice as long and never shorter |
| Crlf.NormalTwice | crates/email/src/compose.rs:305-322 | Normalizing twice changes nothing more |

## Left out

* SMTP, IMAP sockets, SQL, TLS, timers and the HTTP surface: every answer of theirs is an input that may be anything, including partial effects.
* The Governor's scoring: an arbitrary verdict, asked only about attributed requests.
* Sent-folder proof, provider draft cleanup and the audit events that accompany a send.
* A database statement that fails is taken to have had no effect; revision numbers and folder counts do not wrap; leases are fresh because they are random UUIDs.
* JSON and metadata parsing: declarations, approval stamps and log lines are records; whether a timestamp is RFC 3339 is a flag.
* The domain class tables, the short-body word count, recipient parsing and the suggestion texts: a domain carries its classes, the context its flags.
* SentContent.SendsWhatItClaimedIff: recipients, subject and bodies are one opaque letter; the From header, the Message-ID and the threading headers, which fall back to the copy's when the row has none, are not part of the content.
* Restore.AtMostOnce: a torn log line without its newline would merge with the next one; lines are written whole or not at all, and one archive is restored by one process at a time.
* Restore.SmoothSessionCompletes: the preflight check of the archive and folder creation come before the model's run starts.
* SHA-256 is an arbitrary function, so equal digests are not taken to mean equal bytes.
* VerifyArchive.VerifyArchive: extras are a set, so their sorting is not stated; special files and directories that cannot be listed do not occur.
* Sweeper.Sweeper.ListDraftsDueForSend: the query orders by the text of the timestamp; the scan is proved for any order.
* Folder include and exclude patterns: an arbitrary predicate on the source folder.
* UidSets.CoalesceUids: the runs, not their rendering as text.
* BulkMove.LosesExactlyWhen: no new message arrives under a targeted UID between the copy and the expunge.
* McpFraming.Reader.ReadMcpMessage: a length too large to allocate is treated as a body that ends early.
* `abridge_words`, `html_visible_word_count` and the rest of message composition.
