# A verified model of Kraai's conversation core

Kraai keeps conversations in one SQLite database shared by any number of runtimes and streams them to
clients over channels that may lose events. This project models the parts where those two facts make
correctness hard, and proves what they promise over every input and every run:

- **Leases and the shared message graph** (`Database`, `Leases`, `MessageGraph`, `References`, `SessionStore`,
  `Turns`, `ChainRuns`, `IdempotentAppend`). The database is a value; a committed transaction is one step from a value to the
  next. Each runtime has its own map of lease tokens.
- **Views that must agree with a simple one** (`History`, `StreamDeltas`, `StreamWriter`, `ContextDocument`,
  `KeyedLocks`, `Executions`).
- **Prompt assembly** (`ContextState`, `Assembly`, `PromptPrefix`, `RetainedUsers`, `RequestImages`, `LineNumbers`,
  `Utf8`).
- **Delivery and configuration over the Agent Client Protocol** (`PromptOutput`, `Delivery`, `Transcript`,
  `ConfigUpdates`, `FailedRefresh`).

Code that updates state in loops or fields is modelled by methods and classes proved against functions of the old
state; the theorems are lemmas about those functions and about runs of steps. `dafny verify dfyconfig.toml` checks
everything.

## Assumptions

- A new session row is inactive with token 0, session and event ids are never reused, the clock does not go back, and
  a message is stored under its own id.
- Tokens, revisions, generations and sequences are unbounded integers, except where the source checks or saturates
  (lease expiry, page sizes, image bytes, byte budgets).
- A recursive SQL query means reachability along parents.
- `ChainRuns.Enabled` lists what callers guarantee: saving metadata keeps the tip it was read with, and a stored message
  is saved again with the parent it has. A message that was removed may be stored again under any parent. The source
  creates sessions empty; the model also lets one start at a message of an existing history, so that histories are
  shared.
- `Delivery.Coherent`: a snapshot reflects exactly the events up to its sequence and holds all messages of the prompt.
  The runtime captures both under one barrier (`crates/kraai-runtime/src/runtime/session/snapshot.rs:46-91`).
- `History.Agrees`: an overlay entry keeps the parent of the stored message it replaces.
- In the histories of calls of an idempotent append nobody else stores, rewrites or removes that message; within a call
  it may be removed at any time.
- A configuration is identified by the model list and the settings it was rendered from.

## Results that are not plain confirmations

- Linking messages that were saved one by one is not safe against a deletion in between, because nothing re-checks that
  they are still stored. Only a store without the one-transaction link does this. `ChainRuns.ChainsStaySound` gives the
  exact condition, `ChainRuns.LinkAfterDeletionBreaks` a run, `IdempotentAppend.AppendMessageIdempotent` what it means
  for a retry.
- A restart of the provider stream that is lost between two deliveries garbles the item: the byte count of the old text
  is applied to the new one. `Delivery.CatchUpExact` gives the exact condition, `Delivery.SkippedRestartGarbles` the
  family of inputs.
- A stored message's parent that is only in the overlay cannot be read when it falls on the same page behind a message
  that is not in the overlay, although the walk over both succeeds. `History.HistoryCursor.NextPage` and
  `History.ReadPages` give the exact condition, `History.ReadFromBoth` an input on which the cursor fails and one a
  step further on which it does not.
- Resending a stored image to a finished execution moves its last-touched time, so its elapsed time grows after it
  finished; `Executions.FinishedTouch` says exactly when, `Executions.ResentImageMovesTime` shows it.
- A failed refresh of the configuration is not retried: `FailedRefresh.FailedRefreshIsNotRetried` is a run,
  `ConfigUpdates.BehindStaysBehind` says that the session then stays behind, and `ConfigUpdates.NoMissedChange` that
  nothing else can make it miss a change.
- A session leased to one runtime can still be changed by another in one way: deltas streamed into a message it shares
  are checked against the session the message was created for only. `ChainRuns.StepIsolated` gives the exact condition,
  `ChainRuns.StreamReachesForks` an input.
- A cycle of parents always ends in an error, but the paged cursor and the plain walk may name different messages of it.
- After one user text was cut, up to three bytes of budget may still go to the beginning of an older one.

## Model

| member | source | states |
|---|---|---|
| `Database.AssertOwner` | crates/kraai-persistence/src/database.rs:205-240 | A write is allowed on an active row exactly when the remembered token is the row's, on an inactive or missing row exactly when no token is remembered. |
| `Leases.ClaimTurnFor` | crates/kraai-persistence/src/leases.rs:104-125 | A claim succeeds exactly when the duration is positive, the expiry fits 63 bits and the session exists and is free or expired at both checks; then the row is active until now + duration with the next token and revision, nothing else changes and the token is remembered; a refused claim changes nothing and says why. |
| `Leases.RenewTurnOf` | crates/kraai-persistence/src/leases.rs:127-155 | A renewal succeeds exactly when the remembered token is that of the active row and the expiry fits 63 bits; it moves the expiry to now + duration and changes nothing else. |
| `Leases.ReleaseTurnOf` | crates/kraai-persistence/src/leases.rs:157-185 | A release forgets the token; exactly while that token is the active one it deactivates the row, bumps its revision and stores the timer if one is given. |
| `Leases.SaveTurnTimerOf` | crates/kraai-persistence/src/leases.rs:187-202 | A timer is stored only in the row whose active token is the expected one. |
| `Leases.InvRun` | crates/kraai-persistence/src/leases.rs:18-202 | Every run of claims, renewals, releases, timer saves, writes, deletions, restarts and clock ticks keeps each token of a session issued to one runtime only. |
| `Leases.AtMostOneOwner` | crates/kraai-persistence/src/leases.rs:104-125 | In every interleaving at most one runtime's remembered token matches an active row. |
| `Leases.StaleOwnerIsFenced` | crates/kraai-persistence/src/database.rs:205-240 | While another runtime's lease is active nothing a runtime does changes that row, unless the lease has expired and it claims anew with the next token. |
| `Leases.ClaimsStrictlyIncrease` | crates/kraai-persistence/src/leases.rs:104-125 | Of two successful claims of a session in a run, the later has the larger token. |
| `Leases.UnexpiredLeaseIsKept` | crates/kraai-persistence/src/leases.rs:18-45 | A lease that is kept from expiring and is not released or deleted by its owner stays active with its token, whatever other runtimes do. |
| `Leases.ClaimCommits` | crates/kraai-persistence/src/leases.rs:104-125 | In every reachable world a claim commits exactly when the session is free or expired and the expiry fits; it grants the lease until now + duration, and the claimant holds it once it has remembered the token. |
| `Leases.LeaseLasts` | crates/kraai-persistence/src/leases.rs:18-44 | A lease that runs until a deadline stays its owner's, with its token, through any steps of any runtimes up to the deadline in which the owner neither gives it up nor renews it for less, and nobody's claim changes anything. |
| `Leases.GrantedLeaseLasts` | crates/kraai-persistence/src/leases.rs:104-125 | After a committed claim at time t for duration d, no claim of the session succeeds while the clock is at most t + d and the claimant neither gives the lease up nor shortens it, whatever the others do. |
| `Leases.RenewedLeaseLasts` | crates/kraai-persistence/src/leases.rs:127-155 | The same for a renewal, which with the active token moves the expiry to t + d and otherwise does nothing. |
| `Leases.ReleasedIsClaimable` | crates/kraai-persistence/src/leases.rs:169-185 | What its holder releases, any runtime may claim at once, with the next token. |
| `Leases.HolderMayWrite` | crates/kraai-persistence/src/database.rs:205-240 | The holder's writes, timer saves and deletion of the session take effect. |
| `MessageGraph.HistoryIsDescent` | crates/kraai-persistence/src/message_references.rs:10-34 | The recursive descendant query and walking parents from a session's tip agree on which sessions contain a message. |
| `MessageGraph.ChainIsRead` | crates/kraai-persistence/src/history.rs:18-38 | A complete chain is read in full, tip first, by the parent walk. |
| `MessageGraph.ChainDistinct` | crates/kraai-persistence/src/history.rs:26-31 | A complete chain never repeats a message, so the walk over it reports no cycle. |
| `References.AssertMessageOwners` | crates/kraai-persistence/src/message_references.rs:36-78 | The loop with its moving cursor and visited set returns the owners, or the refusal, that the recursive definition gives, for cyclic and broken parent links too. |
| `References.OwnersCoverForks` | crates/kraai-persistence/src/message_references.rs:36-78 | When the check passes, every session whose history contains the message was found and is owned. |
| `References.OwnersNearest` | crates/kraai-persistence/src/message_references.rs:36-78 | The check passes exactly when this runtime may write every session that refers to the nearest referenced message up the parent chain and every session the messages on the way were created for; it returns exactly the former. |
| `References.Save` | crates/kraai-persistence/src/messages.rs:172-198 | A save either commits the record, clears its deltas and bumps each owner once, or changes nothing and reports why. |
| `References.SaveAllowed` | crates/kraai-persistence/src/messages.rs:172-198 | A save commits exactly when this runtime may write everyone with a say in the message and, if it is not filed under a living session, in its parent. |
| `References.SaveFiles` | crates/kraai-persistence/src/message_references.rs:80-99 | A committed save stores this message with an empty log, filed where it was or with its parent, and leaves every other message, log and queue entry. |
| `References.SaveIsolated` | crates/kraai-persistence/src/messages.rs:172-198 | A committed save leaves the row and the full history of every session leased to another runtime unchanged, however many sessions share ancestors. |
| `References.DeleteIsolated` | crates/kraai-persistence/src/message_references.rs:101-128 | So does a committed deletion of a message. |
| `References.DeleteNotifiesForks` | crates/kraai-persistence/src/message_references.rs:101-128 | A committed deletion takes that message and its log only and bumps every session that referred to it once. |
| `References.SaveNotifiesForks` | crates/kraai-persistence/src/message_references.rs:80-99 | A committed save bumps exactly once the revision of each session whose history contains the message or under which it is filed; any other row stays, or is bumped too if this runtime may write it. |
| `Turns.SaveLinkedIsolated` | crates/kraai-persistence/src/messages.rs:200-240 | So does a committed linked append. |
| `Turns.SaveLinkedTransaction` | crates/kraai-persistence/src/messages.rs:200-240 | The loop over the messages commits all of them, the new tip and the consumption of the queue, or nothing: on a moved tip, a changed session, a reused id or a lost lease the database is as before. |
| `Turns.LinkedPlaces` | crates/kraai-persistence/src/turns.rs:95-106 | Each message of an append is what was given, with the one before it, or the tip that was read, as parent. |
| `Turns.PlanExact` | crates/kraai-persistence/src/turns.rs:88-126 | An append can be planned exactly when the tip is the expected one and there is a message; the title is set for the first message only, and the last message that names a model decides the model. |
| `Turns.AppendExact` | crates/kraai-persistence/src/messages.rs:200-240 | A committed append found the session owned, at the tip and the revision that were read; it leaves each message reading as given, every other message as it was, the row with the metadata asked for and its next revision, and the queue without exactly what this session consumed. |
| `Turns.FreshAppendCommits` | crates/kraai-persistence/src/messages.rs:200-240 | An append of new messages commits exactly when this runtime may write the session and its tip and revision are those that were read, and declines exactly when only the tip differs or the session is gone. |
| `Turns.AppendAllOrNothing` | crates/kraai-persistence/src/turns.rs:75-140 | An append planned from any earlier read extends the session's chain by exactly the new messages in order, or leaves the database as it was; all other chains stay. |
| `Turns.LinkIndividually` | crates/kraai-persistence/src/turns.rs:169-192 | For a store without the one-transaction link, with anything committed in between: each message is saved in a transaction of its own, a refused save ends the call, and the link commits exactly when the session is owned and at the tip and revision that were read; it changes the session's metadata only, the chain is then extended by exactly the messages in order if and only if all of them are still stored, and the queue is consumed when success is reported. |
| `Turns.LinkSavedExact` | crates/kraai-persistence/src/turns.rs:179-185 | A committed link of messages saved before keeps every chain complete if and only if all of them are still stored; then it extends the chain by exactly those. |
| `Turns.DequeueExact` | crates/kraai-persistence/src/sessions.rs:287-299 | Queued messages are removed exactly when this runtime may write the session: its own up to the given sequence, and nothing else. |
| `ChainRuns.ChainsStaySound` | crates/kraai-persistence/src/turns.rs:75-361 | In every run of creation, metadata saves, appends, saves and re-saves, deltas, recovered links, links of messages saved before, rewinds, queue consumption, clean-up and deletion, however stale what the caller had read and whatever ids come back under another parent, all chains stay complete and acyclic throughout if and only if every committed move of a tip finds what it must: a link of messages saved before all of them stored, a move whose messages were meanwhile stored under other parents a complete chain, any other nothing. |
| `ChainRuns.SoundExactly` | crates/kraai-persistence/src/sessions.rs:110-137 | The same for one step: stale rewinds, recoveries and metadata saves are refused by the tip, the presence or the revision check, and only moves of a tip can break a chain. |
| `ChainRuns.MovesStayCurrent` | crates/kraai-persistence/src/sessions.rs:110-137 | A rewind, recovery or link prepared from what was read stays current, however long it is under way, while the messages it relies on keep their parents. |
| `ChainRuns.StoredKeepsParent` | crates/kraai-persistence/src/messages.rs:172-240 | No step gives a message that stays stored another parent; only one that was removed can come back under another. |
| `ChainRuns.StepIsolated` | crates/kraai-persistence/src/sessions.rs:110-137 | No step of a runtime changes the row of a session leased to another, nor its history, unless the step streams into a message of that history; then a readable history changes if and only if that message reads differently. |
| `ChainRuns.RunIsolated` | crates/kraai-persistence/src/database.rs:205-240 | Over any run of steps by runtimes that do not hold its lease, none streaming into its history, a session keeps its row and its history. |
| `ChainRuns.StreamReachesForks` | crates/kraai-persistence/src/stream_deltas.rs:105-126 | Two sessions share a streaming message created for the first and the second is leased elsewhere: a delta still changes what the second reads. |
| `ChainRuns.SavesStayEnabled` | crates/kraai-persistence/src/sessions.rs:139-157 | A revision of a session is never recorded with another tip, so metadata once read may be saved back at any later time. |
| `ChainRuns.LinkAfterDeletionBreaks` | crates/kraai-persistence/src/turns.rs:176-185 | Two sessions at one message: a reply saved for the second is filed for the first, deleted with it and then linked; the run is possible and leaves the second session with a missing tip. |
| `Turns.RestoreUndoesAppend` | crates/kraai-persistence/src/turns.rs:319-347 | Whenever the compare-and-swap of a rollback commits, on metadata read at any earlier time, the session is back on the chain behind the abandoned message with its former title, and all chains are complete. |
| `Turns.RestoreMessage` | crates/kraai-persistence/src/turns.rs:319-361 | Read, swap and clean-up are three transactions with anything committed in between: it succeeds exactly when the message is the tip at both, the session is owned and its revision has not moved; failure changes nothing, success puts the tip and title back, and the clean-up changes no session and removes the message unless it is referenced or fenced. |
| `IdempotentAppend.MessageIsInHistory` | crates/kraai-persistence/src/turns.rs:268-280 | The page-by-page search answers whether the message is in the history; when the history cannot be read it never denies it, and affirms it only if it came across it. |
| `IdempotentAppend.HistorySearchExact` | crates/kraai-persistence/src/turns.rs:268-280 | Whenever the history of a complete chain can be read, reading it and the recursive query agree on membership. |
| `IdempotentAppend.LinkDurableMessage` | crates/kraai-persistence/src/turns.rs:236-266 | Linking a message commits exactly when the session is owned, at the tip and the revision that were read and, if required, the message is still stored; it puts the message in front of the chain, or fails and changes nothing; a message that is gone and not required leaves a missing tip. |
| `IdempotentAppend.AppendAtomically` | crates/kraai-persistence/src/turns.rs:216-222 | The one-transaction path links a new message with the requested content behind the tip exactly when the session has not moved since it was read, and otherwise leaves the history as it was. |
| `IdempotentAppend.AppendInTwoSteps` | crates/kraai-persistence/src/turns.rs:169-192 | Saving first and linking after, with a crash, a removal or other commits in between: it fails with the save, leaves the message durable but unlinked in a crash, and links exactly when the session has not moved; this has the effect of one call or breaks the chain exactly when the message was removed in between. |
| `IdempotentAppend.AppendMessageIdempotent` | crates/kraai-persistence/src/turns.rs:194-266 | A retry for a message that is the tip or found in a readable history returns it and changes nothing; one with other content, one without a session and one whose parent is not the tip are refused and change nothing; a durable unlinked message is linked exactly when the session has not moved since it was read and the message is still there; a new one exactly when the session has not moved. A call reports a new link exactly when it extended the history and never drops or changes a message it found stored; without the one-transaction link this fails exactly when the message is removed between save and link. |
| `IdempotentAppend.LinkedAtMostOnce` | crates/kraai-persistence/src/turns.rs:194-280 | Over any number of calls with one id, crashes included, the message enters the history at most once, and once exactly when some call says so. |
| `IdempotentAppend.FirstContentWins` | crates/kraai-persistence/src/turns.rs:211-266 | From the first moment the message is durable, linked or left behind by a crash, every call keeps it as it is, and every call that succeeds returns that very message and was asked for its content, status, profile and generation. |
| `IdempotentAppend.FirstRequestWins` | crates/kraai-persistence/src/turns.rs:399-411 | The request of whichever call first stored the message is what all later successful calls return. |
| `SessionStore.UpdateSound` | crates/kraai-persistence/src/sessions.rs:110-137 | A committed update keeps all chains complete if and only if the tip it names has a complete chain; one that does not match the expected tip changes nothing. |
| `SessionStore.UpdateExact` | crates/kraai-persistence/src/sessions.rs:110-137 | An update commits exactly when the session is owned, at the expected tip, at the revision of the metadata and, if required, the message is stored; it leaves the row with that metadata and its next revisions, lease and timer kept, files an unfiled tip under the session and changes nothing else; it declines exactly on another tip. |
| `SessionStore.UpdateIsolated` | crates/kraai-persistence/src/sessions.rs:110-137 | A session leased to another runtime is not updated, and the update of another session leaves its row and history. |
| `SessionStore.RemovalIsolated` | crates/kraai-persistence/src/sessions.rs:182-285 | Neither deleting a session nor dropping a message changes the row or history of a session leased to another runtime. |
| `SessionStore.DeleteUnreferencedSafe` | crates/kraai-persistence/src/sessions.rs:182-199 | A message that some history needs stays and nothing changes; any other goes alone, and every session's row and history are as they were. |
| `SessionStore.Delete` | crates/kraai-persistence/src/sessions.rs:259-285 | The transaction removes the session, its queue and, one by one, exactly the messages the two recursive queries select, or changes nothing when a message is fenced. |
| `SessionStore.DeleteSessionExact` | crates/kraai-persistence/src/sessions.rs:259-285 | After a deletion every other session has the same row, history and queue; a message of the deleted history or created for the session remains exactly when another session still reaches it, and every other message remains as it was. |
| `SessionStore.DeletionAllowed` | crates/kraai-persistence/src/sessions.rs:259-285 | A session may be deleted exactly when this runtime may write it and every session that a message going with it was created for; a single unreferenced message likewise. |
| `History.ReadHistoryChain` | crates/kraai-persistence/src/history.rs:18-38 | The loop returns the bounded parent walk: the messages, the first missing one, or the cycle. |
| `History.HistoryCursor.NextPage` | crates/kraai-persistence/src/history.rs:68-99 | A page is the next part of the walk: each entry is the in-memory version of the message its predecessor points to, or the stored one if there is none; it is full unless it is the last. When the walk succeeds, the page is read if and only if the store has everything on it behind the first message that is not in the overlay; when it fails, the page fails alike or comes before the failure. |
| `History.HistoryCursor.PushStored` | crates/kraai-persistence/src/history.rs:83-122 | Behind what is on the page, each stored message goes onto it in walk order, replaced by its in-memory version if there is one; a repeated id ends in an error. |
| `History.ReadPages` | crates/kraai-persistence/src/history.rs:101-130 | Pages that are returned are together the messages from the tip to a root, each in its in-memory version or else as stored, every page but the last with exactly its size. When the walk succeeds they are returned if and only if each page is readable in the above sense; a cycle ends in a cycle error and any other failure of the walk in that failure or for want of a message only the overlay has. |
| `History.WalkVersions` | crates/kraai-persistence/src/history.rs:62-99 | The walk that pages are measured against succeeds with a list exactly when that list leads from the start to a root, repeats no id and holds each message in its in-memory version or else as stored. |
| `History.StorePageReadable` | crates/kraai-persistence/src/history.rs:18-38 | Where the walk succeeds, a request to the store succeeds if and only if the store has every message it reaches within its limit. |
| `History.OverlayOnlyParent` | crates/kraai-persistence/src/history.rs:81-96 | Stored x and its parent a, whose parent b is only in the overlay: from x the second page cannot be read, from a all pages can. |
| `History.ReadFromBoth` | crates/kraai-persistence/src/history.rs:68-99 | The cursor itself on these inputs: it reports b missing from x, and reads a and b from a. |
| `History.LogarithmicPages` | crates/kraai-persistence/src/history.rs:124-130 | Pages double, so N messages take at most log2(N) + 1 pages. |
| `StreamDeltas.CoalesceApplies` | crates/kraai-persistence/src/stream_deltas.rs:71-87 | Two neighbours are merged exactly when they append to the same text, and that gives the same message or the same refusal as applying both. |
| `StreamDeltas.DeltaExact` | crates/kraai-persistence/src/stream_deltas.rs:31-69 | When a delta is refused, and otherwise all it changes: an item at the end, text at the end of an item of its phase, no items after a reset, the usage. |
| `StreamDeltas.ResetStartsOver` | crates/kraai-persistence/src/stream_deltas.rs:31-69 | After a reset the message says exactly what is written from then on, for every list of items and whatever came before. |
| `StreamDeltas.ReadMessage` | crates/kraai-persistence/src/stream_deltas.rs:89-103 | The loop over the stored rows gives the stored message with the listed deltas applied, and a complete message untouched. |
| `References.AppendStreamDeltas` | crates/kraai-persistence/src/stream_deltas.rs:105-126 | Deltas are stored exactly for a message created for a session this runtime may write and numbers within 63 bits: each under its number unless that is taken; the session is bumped and nothing else changes. Otherwise nothing changes. |
| `StreamDeltas.BatchesReadAsStream` | crates/kraai-persistence/src/stream_deltas.rs:89-126 | Whatever the batching, order and resending, once the first n numbers arrived the message reads as its n deltas applied once each in order, errors included. |
| `StreamDeltas.LateDeltasInvisible` | crates/kraai-persistence/src/message_references.rs:80-98 | Deltas that arrive after a completed save are never visible. |
| `StreamWriter.StreamingMessageState.Record` | crates/kraai-agent/src/manager/mod.rs:175-189 | A delta is recorded exactly when it applies to the message; it is queued behind the others, or merged into the last one if that is unsealed and appends to the same text. |
| `StreamWriter.StreamingMessageState.Seal` | crates/kraai-agent/src/manager/streaming.rs:644-651 | Publishing seals all pending deltas and takes them with their first number. |
| `StreamWriter.StreamingMessageState.Drain` | crates/kraai-agent/src/manager/streaming.rs:658-662 | Acknowledged deltas leave the front of the pending ones and the first number moves on. |
| `StreamWriter.ReaderSeesPrefix` | crates/kraai-agent/src/manager/streaming.rs:636-668 | At every moment of publishing, with batches given up and resent, a reader sees a prefix of the numbered deltas applied once each, and the writer's own message when nothing is pending. |
| `ContextDocument.PinnedDistinct` | crates/kraai-agent/src/context_state.rs:227-250 | The fold of all events never pins a path twice. |
| `ContextDocument.MutationExact` | crates/kraai-agent/src/context_state.rs:227-250 | A new pin goes behind the others, pinning again changes the scope only, unpinning takes out that one file. |
| `ContextDocument.PinnedTracks` | crates/kraai-agent/src/context_state.rs:227-250 | The fold of all events gives each file the pin that its own pins and unpins alone give it: scope of the last, opening event of the first since it was unpinned. |
| `ContextDocument.ContextStore.Append` | crates/kraai-persistence/src/context.rs:112-137 | An event is added exactly when it has mutations and no event of the same execution has its sequence or invocation; snapshots of files it unpins are dropped, all others stay. |
| `ContextDocument.ContextStore.Save` | crates/kraai-persistence/src/context.rs:189-233 | A refresh is stored exactly when no event arrived after those it was computed from; its snapshots, without files it unpins, replace the old ones and its removals become an event of their own. |
| `ContextDocument.DocumentInvariant` | crates/kraai-persistence/src/context.rs:20-34 | In every reachable document each snapshot is of a distinct path pinned with the same opening event, and no two command events of an execution repeat a sequence or an invocation. |
| `ContextState.RefreshPinnedFiles` | crates/kraai-agent/src/context_state.rs:168-209 | The loop over events and pins gives each pinned file as it was read, in pin order, and an unpin for each file that is gone, and nothing else. |
| `ContextState.RefreshIsComputed` | crates/kraai-agent/src/context_state.rs:50-111 | What a refresh stores satisfies what the document invariant assumes of a refresh: pinned files only, each once, none it unpins. |
| `ContextState.FileRefreshed` | crates/kraai-agent/src/context_state.rs:66-83 | A file is shown as read: at the place where the same text of the same pin was shown while that is in the conversation, else at the compaction boundary, and behind the latest message if it is new or changed. |
| `ContextState.SectionRefreshed` | crates/kraai-agent/src/context_state.rs:113-166 | An unchanged section keeps its place or goes to the front, a changed one goes behind the latest message, and a new one too unless it is the first request. |
| `ContextState.SortStable` | crates/kraai-agent/src/context_state.rs:84-86 | Files with the same former position, or none, keep the order they came in. |
| `ContextState.SortedDistinct` | crates/kraai-agent/src/context_state.rs:50-111 | The stable sort by former position neither loses nor repeats a file. |
| `Assembly.Assemble` | crates/kraai-agent/src/compaction.rs:45-90 | The loops build prefix, checkpoint, unanchored texts and the history with each anchored text behind its message. |
| `PromptPrefix.RefreshSettles` | crates/kraai-agent/src/context_state.rs:50-166 | Every refresh leaves distinct files and sections, each anchored to the history, to the compaction boundary or to nothing. |
| `PromptPrefix.RefreshShowsFile` | crates/kraai-agent/src/context_state.rs:66-89 | A refresh shows every file that was read, with its text, where the same text was shown before while that message is in the history, else at the compaction boundary, and at the latest message if it is new or changed. |
| `PromptPrefix.RefreshShowsOnly` | crates/kraai-agent/src/context_state.rs:66-89 | A refresh shows no file but those that were read. |
| `PromptPrefix.RefreshShowsSection` | crates/kraai-agent/src/context_state.rs:113-166 | A refresh shows every section in order, unchanged ones in their place, changed ones at the latest message, and new ones there too once the history has a reply. |
| `PromptPrefix.NextPromptExtends` | crates/kraai-agent/src/context_state.rs:50-166 | If the history grows and the refresh finds what was shown unchanged, the next message list begins with the whole previous one, new files and sections included. |
| `PromptPrefix.PromptsOnlyGrow` | crates/kraai-agent/src/compaction.rs:45-99 | So for any number of further turns. |
| `PromptPrefix.AssemblyConserves` | crates/kraai-agent/src/compaction.rs:45-90 | Counted from the context itself: the list holds the prefix, the checkpoint, and every history message, instruction and snapshot exactly once. |
| `PromptPrefix.AssemblyPlaces` | crates/kraai-agent/src/compaction.rs:55-90 | From the context itself: texts without an anchor in the history come first, instructions before files; then each message in order, followed by its instructions and then its files, and nothing else. |
| `PromptPrefix.AnchoredStandsBehind` | crates/kraai-agent/src/compaction.rs:64-90 | What stands behind the first message of an id is exactly the texts anchored to that id. |
| `RetainedUsers.RetainUsers` | crates/kraai-agent/src/compaction.rs:181-207 | In the order of the request the result begins each of the last user messages, cut between characters only, within four bytes a token; a message is cut or left out only when at most three bytes of the budget stay unused. |
| `RetainedUsers.KeptWithinBudget` | crates/kraai-agent/src/compaction.rs:181-207 | The kept texts begin the newest user messages without a gap, end at character boundaries and fit the byte budget. |
| `RetainedUsers.KeptAreTexts` | crates/kraai-agent/src/compaction.rs:193-202 | Every kept text is UTF-8 again. |
| `RetainedUsers.CutsUseTheBudget` | crates/kraai-agent/src/compaction.rs:193-204 | At most three bytes of the budget stay unused behind any shortened message. |
| `RetainedUsers.StopsWhenFull` | crates/kraai-agent/src/compaction.rs:188-199 | A user message is left out only when at most three bytes of the budget stay unused. |
| `RequestImages.ProviderRequest.LimitImages` | crates/kraai-agent/src/compaction.rs:209-232 | The in-place loops, newest first, leave each part as its position among the newer images demands. |
| `RequestImages.ImageOmittedExactly` | crates/kraai-agent/src/compaction.rs:218-228 | An image is replaced exactly when it would break the count or byte limit beside the newer images kept. |
| `RequestImages.LimitHolds` | crates/kraai-agent/src/compaction.rs:209-232 | Counted over the messages, a limited request has at most 32 images of at most 32 MiB and holds exactly the images that were to stay, in order. |
| `RequestImages.FittingRequestUntouched` | crates/kraai-agent/src/compaction.rs:209-232 | A request within both limits is left alone. |
| `RequestImages.TextKept` | crates/kraai-agent/src/compaction.rs:212-231 | Texts and everything else of a message are left as they were. |
| `RequestImages.LimitTwice` | crates/kraai-agent/src/compaction.rs:209-232 | Limiting a limited request changes nothing. |
| `LineNumbers.AppendTextWithLineNumbers` | crates/kraai-agent/src/context_state.rs:290-295 | Each line, with its line break, goes behind its number and a bar. |
| `LineNumbers.NumbersStrip` | crates/kraai-agent/src/context_state.rs:290-295 | Dropping each line through its first bar gives back exactly the original, for every text. |
| `LineNumbers.LinesCounted` | crates/kraai-agent/src/context_state.rs:290-295 | The numbers in front of the lines read as 1, 2, 3 and so on, one for each line. |
| `KeyedLocks.Registry.Obtain` | crates/kraai-persistence/src/keyed_locks.rs:46-62 | Under the write lock a live lock is returned as it is; otherwise a new one is registered, after a sweep when the countdown has run out, which drops exactly the entries of locks that are not alive. |
| `KeyedLocks.InvRun` | crates/kraai-persistence/src/keyed_locks.rs:31-67 | Every interleaving of look-ups, waits, sweeps, abandoned waits and drops keeps each used lock registered under its key and each locked mutex with one holder. |
| `KeyedLocks.MutualExclusion` | crates/kraai-persistence/src/keyed_locks.rs:31-67 | Two tasks never hold the guard of one key. |
| `KeyedLocks.BlockedOnlyByOwnKey` | crates/kraai-persistence/src/keyed_locks.rs:31-67 | A waiting task can proceed exactly when nobody holds its own key. |
| `KeyedLocks.RegistryBounded` | crates/kraai-persistence/src/keyed_locks.rs:50-60 | Entries and countdown together never exceed twice the larger of 64 and the number of locks the last sweep found alive; the countdown never goes below zero. |
| `Executions.CoalesceOutput` | crates/kraai-persistence/src/executions.rs:181-195 | The loop joins neighbours of a stream and drops empty chunks. |
| `Executions.CoalescedFaithful` | crates/kraai-persistence/src/executions.rs:181-195 | Coalescing keeps every byte, its stream and the order across streams, with no empty chunk and no two neighbours of one stream. |
| `Executions.ExecutionStore.Move` | crates/kraai-persistence/src/executions.rs:162-177 | A transition is allowed from the expected phases only and notes the start of a run. |
| `Executions.ExecutionStore.AppendImage` | crates/kraai-persistence/src/executions.rs:296-333 | An image is attached once per sequence, while running, within eight images and the byte limit, summed with overflow checks; resending it is accepted. |
| `Executions.ExecutionStore.AppendOutput` | crates/kraai-persistence/src/executions.rs:356-381 | Coalesced chunks are stored as rows while running; nothing but empty chunks is accepted in any phase. |
| `Executions.ExecutionStore.Finish` | crates/kraai-persistence/src/executions.rs:382-403 | A completion allowed by the phase replaces the output with its own and sets phase and status together. |
| `Executions.ReadOutput` | crates/kraai-persistence/src/executions.rs:279-295 | The loop over the rows gives both streams of the execution and no other's. |
| `Executions.OperationAllowed` | crates/kraai-persistence/src/executions.rs:162-451 | Each operation succeeds exactly when its session may be written and its phase, sequence, limits or completion status allow it, status by phase. |
| `Executions.RecordChanged` | crates/kraai-persistence/src/executions.rs:136-403 | A successful operation changes its own record as stated and no other. |
| `Executions.ExecutionsIsolated` | crates/kraai-persistence/src/executions.rs:136-160 | The records and output of a session leased to another runtime are out of reach. |
| `Executions.LifecycleHolds` | crates/kraai-persistence/src/executions.rs:404-451 | In every run a status is set exactly when finished, completed and timed-out scripts were started, denied and invalid ones never were, and images stay within both limits. |
| `Executions.FinishedFrozen` | crates/kraai-persistence/src/executions.rs:296-403 | Once finished, a record's output, status, images and everything but its last-touched time never change while its session lives. |
| `Executions.FinishedTouch` | crates/kraai-persistence/src/executions.rs:305-312 | The last-touched time of a finished record changes if and only if a stored image is resent by the owner at another time. |
| `Executions.ResentImageMovesTime` | crates/kraai-persistence/src/executions.rs:62-65 | A run after which a finished execution, resent its image, appears to have run longer. |
| `Executions.RunningOutput` | crates/kraai-persistence/src/executions.rs:356-381 | Until it finishes, each stream reads as the concatenation of everything written to it, despite coalescing and other executions' rows. |
| `Executions.FinalOutput` | crates/kraai-persistence/src/executions.rs:382-403 | After it finishes, each stream reads as the completion gave it. |
| `PromptOutput.Output.HandleEvent` | crates/kraai-acp/src/prompt.rs:308-382 | Each event changes the fields and sends the updates that the step function gives, paragraph breaks and notices included. |
| `PromptOutput.Output.CollectPromptMessages` | crates/kraai-acp/src/prompt.rs:218-234 | The loop from the tip collects the prompt's messages, oldest first. |
| `PromptOutput.NoMessagesMeansForever` | crates/kraai-acp/src/prompt.rs:223-231 | The snapshots excluded from that loop and from a resync are exactly those on which it never ends. |
| `PromptOutput.MessagesFollowParents` | crates/kraai-acp/src/prompt.rs:219-234 | The messages of a prompt are, from the last one back, where following parents from the tip leads, until the prompt's start or a missing message. |
| `PromptOutput.Output.Resync` | crates/kraai-acp/src/prompt.rs:386-424 | The loops over a snapshot send what each item lacks, announce calls and report results. |
| `Delivery.LossyRefinesLossless` | crates/kraai-acp/src/prompt.rs:214-424 | However events are delivered, lost and recovered by coherent snapshots that skip no restart, the client has the server's text of every item, no byte missing or repeated, and the counts agree. |
| `Delivery.ResyncExact` | crates/kraai-acp/src/prompt.rs:398-403 | For any snapshot and any reachable state, the client ends with the snapshot's text of an item if and only if what it had received begins that text; nothing already received is taken back. |
| `Delivery.CatchUpExact` | crates/kraai-acp/src/prompt.rs:386-424 | Restarts allowed: catching up gives the client the server's text of an item if and only if the text as of the events reflected so far begins it. |
| `Delivery.SkippedRestartGarbles` | crates/kraai-acp/src/prompt.rs:339-345 | When text a is delivered and a restart to text b is skipped, the client has a and the end of b from the length of a on, which is b if and only if a begins b. |
| `Delivery.CountsStayExact` | crates/kraai-acp/src/prompt.rs:257-273 | In every sequence of events, resyncs and approvals the remembered byte counts are those of the text sent, at character boundaries. |
| `Delivery.CallsReportedOnce` | crates/kraai-acp/src/prompt.rs:284-306 | Whatever events, snapshots and approvals come in whatever order: a client is told of a call exactly when a call is the first that was heard of it, and of its result exactly when one was ready, each once and the call first; open calls are exactly those heard of without a result. |
| `Transcript.AsidesInOrder` | crates/kraai-acp/src/prompt.rs:308-382 | Thoughts, progress, retries and context notices reach the client in the order of the events, each once. |
| `Transcript.UpdatesWellPlaced` | crates/kraai-acp/src/prompt.rs:257-282 | In every run no chunk is empty, a paragraph starts only at the beginning of an item and there whenever the client shows other text of the message, and a notice is attached only to the message being read, a retry always. |
| `Transcript.NoticesExact` | crates/kraai-acp/src/prompt.rs:275-282 | Context notices are attached to the streaming message, all of them, exactly when the client is reading it, and then its text no longer counts as shown. |
| `Transcript.OutputRemembers` | crates/kraai-acp/src/prompt.rs:214-217 | After any calls the output knows the stream that started last and the highest sequence of the snapshots taken over, below which events are skipped. |
| `Transcript.EventShows` | crates/kraai-acp/src/prompt.rs:257-349 | A message counts as shown after an event exactly when it did before or got text or a call, and no notice was attached to it. |
| `ConfigUpdates.InvRun` | crates/kraai-acp/src/config_updates.rs:19-136 | Every interleaving of requests, drops, events and refresher steps over any number of sessions keeps the protocol's invariant. |
| `ConfigUpdates.PublishedMonotone` | crates/kraai-acp/src/config_updates.rs:61-136 | The model list behind a session's published configuration never goes back and is never ahead of the runtime's. |
| `ConfigUpdates.SkippedIsRevisited` | crates/kraai-acp/src/config_updates.rs:110-115 | A session passed over because it was locked or its generation had moved has a wake-up due, and it stays due until the refresher takes it. |
| `ConfigUpdates.NoMissedChange` | crates/kraai-acp/src/config_updates.rs:25-45 | Whenever the refresher rests, a ready session is up to date, or a wake-up or event is on its way, or its last refresh failed. |
| `ConfigUpdates.BehindStaysBehind` | crates/kraai-acp/src/config_updates.rs:66-77 | With nothing due, no further step of the refresher publishes anything: a session behind the model list stays behind until a request, a model event or a lost event. |
| `FailedRefresh.FailedRefreshIsNotRetried` | crates/kraai-acp/src/config_updates.rs:102-108 | A run from the start in which the model list changes, the refresher is woken and cannot read it, and which ends at rest with a ready session behind and nothing due. |

## Left out

- IdempotentAppend.AppendMessageIdempotent: what a call reads at its start (the message, the session, the history) it reads in one step; each of its writes is a step of its own with anything committed in between.
- SQL text, JSON encoding, connection pooling and file locks: each transaction is one atomic step.
- Error messages: failures are kinds; when several sessions of a message are owned elsewhere, which one is named is not modelled.
- `message_sessions` for compaction records, adding to the queue, request usage and session listing: they add no new kind of property.
- SessionStore.Delete: the execution rows removed with the session are a step of `Executions`; compaction records that share a message's id are not modelled.
- References.SaveIsolated: says nothing about a lease that has been released or a session nobody has claimed, because the source protects neither.
- Leases.UnexpiredLeaseIsKept: renewal is a step of the run; that the owner renews in time is assumed by `KeptAlive`.
- Reading, decoding and rendering files: a pinned file reads as text to show or as gone.
- The anchoring loop and stable sort of `refresh_context_state`, and the metadata update of a session are functions on values: what they compute is modelled, updating in place is not.
- The wording of notifications, the per-file notices of a refresh and `append_notifications`.
- PromptPrefix.NextPromptExtends: stated before images are limited, because a newer image can displace an older one.
- Image dimensions, MIME types and pixel limits: an image is its digest and byte length.
- RetainedUsers.RetainUsers: a user message is the text it displays without images; building that text is not modelled.
- Executions: sources, profiles, capabilities and timeouts of a record, which no operation reads.
- PromptOutput.Output.Resync: a cyclic snapshot is excluded by its precondition, because the source does not return on it (`PromptOutput.NoMessagesMeansForever`).
- PromptOutput.Output.CollectPromptMessages: the same.
- The permission dialogue, cancellation and stop reasons of a prompt.
- ConfigUpdates: requests and refresher are atomic sections of a state machine rather than methods, because what matters is how they interleave; a closed connection ends the refresher and is not modelled.
- Capability and permission resolution, providers, MCP, the terminal and Node front ends and the evaluation harness.
