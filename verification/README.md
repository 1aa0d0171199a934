# Loomabase sync protocol: a verified model

Loomabase replicates tables between offline-first SQLite devices and a server.
Every synchronized cell is a last-writer-wins register ordered by
`(lamport_clock, device_id)`; devices send their dirty cells, the server merges
them under a policy and answers with a bounded page of its change feed or with
the snapshot of a partial-replica scope.

This project models that protocol and proves what it promises over whole runs.

## How it is organised

| files | contents |
|---|---|
| `Names`, `Cells`, `Payload` | identifiers and their order, versions, registers, payloads and their validation loops |
| `Server`, `ServerFacts`, `Replica` | the reference server and partial membership as functions on values, and facts about one merge |
| `Loops`, `ServerClass` | the reference server as a mutable object whose loops are proved equal to those functions |
| `Client`, `ClientFacts`, `LocalWrites`, `ClientClass` | the SQLite client: tables as maps, every transaction as a function, and the mutable object proved equal to it |
| `Conservation`, `System`, `SystemProofs`, `Runs` | one server, any number of devices, pools of requests and exchanges that may be lost, repeated or reordered; the invariant and its preservation by every action |
| `Theorems`, `Ordering`, `Closure`, `PartialAgreement`, `BareAcknowledge` | results about every reachable state and every run |
| `Settling`, `FleetSettling` | the catch-up loop of one device, as part of a run, and of a whole fleet in turn |
| `Repair`, `ScopeGap` | when resetting the cursor repairs a device that used scopes, and runs in which it does not |
| `MergeLaws`, `PolicyOrder`, `Pagination` | algebra of merges, which policies make delivery order irrelevant, and pages against the unpaged feed |
| `Postgres`, `PostgresClass`, `PostgresRefinement` | one PostgreSQL merge: gaps in numbering, streamed pages, leased cursors; and what it shares with the reference merge |
| `PostgresLock`, `PostgresSerial` | interleaved PostgreSQL transactions, statement by statement, and their equivalence with merges run one after the other |
| `PostgresEpoch`, `PostgresWrites` | leases, epochs, backups and restores over runs; where every write is, and convergence, while no backup is restored |
| `PostgresRestore`, `LostByRestore` | which writes survive a restored backup, and a run in which one does not |
| `Contract` | table contracts, descriptors, FNV-1a |
| `Lww`, `Acceptance`, `Answers`, `TenantAnswers`, `Membership`, `DeviceSteps`, `ScopeSteps`, `LockSteps`, `ContractText` | each operation once more in plain terms - characters, bytes, literal limits, the cells of a table - proved equal to what the other modules compute: who wins, what is accepted, stored and answered, who is a member, what a device or a statement needs and does, which text is hashed |

A state of the distributed system is a server, a map of devices, every request
ever sent, every exchange ever answered, and the history of local writes. An
action may serve any request of the pool again, at any time, under any policy,
and deliver any exchange again, at any time; never choosing one models its loss.
A failed transaction changes nothing. Devices have distinct identifiers, none of
them the server's.

The PostgreSQL merge is first studied alone (`Postgres`): its row loop, pages and
leases, and its agreement with the reference server. `PostgresLock` then lets
transactions interleave statement by statement, and shows that the tenant lock
makes merges of one tenant commit one after the other in sequence order;
`PostgresSerial` proves that what they commit is what the single merges of
`Postgres` make of the tables in that order. On that ground `PostgresEpoch`
treats each merge as one step, at any epoch read since the data last diverged,
and adds expiry, rotation and restores.

Four facts of the code shape the statements:

- A partial response keeps the cursor of the full feed but replaces its changes
  by the scope's snapshot (src/crdt.rs:435, 478-482), so a device that mixes a
  scope with full syncs may skip feed cells; `ScopeGap` exhibits the run. Feed
  coverage is stated for devices that never used a scope, conservation of writes
  for all. A catch-up from a reset cursor repairs any device (`Settling`), but a
  full answer to a request from before the reset may undo that: `Repair` states
  exactly when it cannot.
- `acknowledge` alone ignores rejections (src/client.rs:680-712).
  `BareAcknowledge` states exactly when it is harmless, and exhibits a run in
  which it loses a write.
- The reference clock is checked against 64 unsigned bits, a response against
  63 (src/crdt.rs:577-581, 715-721), so a merge may succeed with a response no
  client accepts. `ServerFacts` gives the exact condition and an instance.
- The two servers measure a cell differently: the reference counts the JSON of
  the whole cell (src/crdt.rs:618-620), the adapter that of the value and the
  names (src/server.rs:427-430). A page that meets the byte budget may therefore
  end elsewhere; `PostgresRefinement` gives each server its own measure.

## Model

| member | source | states |
|---|---|---|
| Lww.LwwDecides | src/crdt.rs:345-351 | The incoming version is accepted exactly when its clock is larger, or the clocks are equal and its device identifier is larger at the first character where the two differ or properly extends the other; it is kept out exactly in the converse case, and equal only for the same clock and device. |
| Lww.GreaterLetterWins | src/crdt.rs:44-49 | At equal clocks the greater character at the first difference decides, whatever follows. |
| Lww.ExtensionWins | src/crdt.rs:44-49 | At equal clocks a proper extension of a device identifier wins over it. |
| Lww.MergeStores | src/crdt.rs:511-575 | A reference merge stores a sent cell exactly when both hooks allow it and it beats the stored one in those terms; every other cell stays. |
| Lww.TenantStores | src/server.rs:199-345 | The PostgreSQL merge stores by the same rule. |
| Lww.ApplyStores | src/client.rs:989-1021 | A device stores an answered cell, clean, and shows it exactly when it beats what it stores; otherwise its entry stays, dirty or not. |
| Cells.VersionTransitive | src/crdt.rs:345-351 | Version order is transitive, strictly when one step is strict. |
| Payload.Validate | src/crdt.rs:137-224 | The one-pass validation with its set of seen rows and running counter accepts exactly the valid payloads. |
| Acceptance.IdentifiersExactly | src/crdt.rs:694-713 | Identifiers and reasons are accepted exactly with 1 to 255, or 2,048, UTF-8 bytes and no control character. |
| Acceptance.ValuesExactly | src/crdt.rs:661-682 | A value is accepted exactly in a declared column of its own type, a text up to 1,048,576 bytes. |
| Acceptance.RequestsExactly | src/crdt.rs:137-270 | Every condition of a request in literal terms: protocol 3 or 4, the fingerprint, 63-bit clocks, at most 10,000 distinct rows and 20,000 cells, its own name and authorship, no response fields. |
| Acceptance.ResponsesExactly | src/crdt.rs:272-296 | The same for a response: sent by loomabase-server, with no cell or record newer than its clock. |
| Loops.CheckRequest | src/crdt.rs:226-270 | The request loop accepts exactly payloads of the authenticated device whose cells it authored under its own clock. |
| Loops.CheckResponse | src/crdt.rs:272-296 | The response check accepts exactly server payloads whose cells and rejections stay within the server clock. |
| Payload.MaxObservedIsSource | src/crdt.rs:299-305 | For a valid request or response the highest observed clock is the source clock. |
| Payload.GroupRowsRoundTrip | src/crdt.rs:603-640 | Grouping cells into sorted rows and flattening them again loses and adds nothing. |
| Server.AbsorbAllJoins | src/crdt.rs:511-575 | The merge loop succeeds exactly when no cell is at fault, ends in the join of the old cells with the admitted ones, and advances the sequence by exactly the number applied. |
| Server.AbsorbAllRejections | src/crdt.rs:526-557 | Rejection records exist for exactly the rejected cells of the loop. |
| ServerFacts.MergeGrows | src/crdt.rs:494-659 | A merge replaces cells only by newer ones, numbers every change after all earlier ones, never lowers an issued cursor, and raises the clock to one above everything it observed. |
| ServerFacts.MergeAccepts | src/crdt.rs:513-575 | After a merge every sent cell is held at that version or a newer one, or is reported rejected. |
| ServerFacts.PageCovers | src/crdt.rs:601-640 | A page carries every cell positioned between its start and its cursor. |
| ServerFacts.MergeResponseValid | src/crdt.rs:577-581 | The response of a merge that succeeds passes the client's validation if and only if both the server's clock and the request's are below the last storable one. |
| ServerFacts.AnswerRefusedAtLastClock | src/crdt.rs:577-581 | An instance of the gap: at the last storable clock an empty request is merged and its answer is refused. |
| Answers.MergesExactly | src/crdt.rs:494-581 | A merge succeeds exactly for a valid request at most 1,000,000 clock values ahead, with 64 bits left for the clock, when each hook answers allow or a presentable denial and no allowed cell contradicts the stored version. |
| Answers.AnswerExactly | src/crdt.rs:583-640 | The device is told to reset exactly when its non-zero cursor exceeds the sequence after the merge or the largest cursor issued to it; the answer then starts from zero, else after its cursor, and is the longest part of the feed of at most 1,000 cells and 4 MiB, or one cell. |
| Answers.ReplyExactly | src/crdt.rs:577-659 | The other fields of the answer, the new clock, and the largest issued cursor kept for each device. |
| Answers.RecordsExactly | src/crdt.rs:521-557 | The rejection records are exactly the sent cells that the authorizer denied, or that it allowed and the validator denied, with that hook's kind and reason. |
| Answers.NumbersExactly | src/crdt.rs:511-575 | Stored cells are numbered after everything before, in the order of rows in the payload and columns in a row; other cells keep their numbers. |
| ServerClass.CrdtState.constructor | src/crdt.rs:376-385 | A new server is empty and valid. |
| ServerClass.CrdtState.MergeWithSecurity | src/crdt.rs:399-409 | The in-place merge installs exactly the specified state and answer, or fails and changes nothing. |
| ServerClass.CrdtState.MergePartialReplica | src/crdt.rs:414-492 | The in-place partial merge installs exactly the specified state and snapshot answer, or fails and changes nothing. |
| ServerClass.AbsorbLoop | src/crdt.rs:511-575 | The cell loop over the working copy computes the specified fold and stops at the first fault. |
| ServerClass.TakePage | src/crdt.rs:618-634 | The page loop stops at exactly the specified cell or byte budget. |
| ServerClass.SnapshotFits | src/crdt.rs:452-470 | The snapshot loop gives up exactly when the total size exceeds the budget. |
| Replica.CheckMemberIds | src/replica.rs:175-192 | The pass that remembers only the previous identifier accepts exactly bounded, valid, strictly sorted lists. |
| Replica.DroppedMembers | src/crdt.rs:471-475 | The evicted list holds exactly the known rows that are members no more, still sorted. |
| Replica.PartialSucceeds | src/crdt.rs:425-492 | Given a valid underlying answer, a partial answer is produced and valid if and only if it fits the row limit, the byte budget and the cell limit. |
| Loops.CheckPartialResponse | src/replica.rs:140-172 | The response check accepts exactly sorted disjoint member and eviction lists whose members are the snapshot's rows in order. |
| Acceptance.ScopedRequestsExactly | src/replica.rs:58-138 | A scoped request in literal terms: revision 1 to 2^63 - 1, limit 1 to 10,000, at most 32 predicates, at most 100,000 sorted known members. |
| Acceptance.SnapshotsExactly | src/replica.rs:140-172 | A snapshot in literal terms: two sorted disjoint lists, its rows the members one by one. |
| Membership.MembersExactly | src/crdt.rs:437-451 | A row is answered as a member exactly when some cell of it is stored, its cell deleted is absent or not true, and for each predicate its identifier equals the given one, or begins with the prefix character by character, or the column's stored value is the given one. |
| Membership.SnapshotExactly | src/crdt.rs:452-491 | The snapshot lists its members in order, carries exactly their stored cells, evicts exactly the known rows that are none of them, and is otherwise the answer of the merge. |
| Membership.ScopedAnswersExactly | src/crdt.rs:425-491 | A scoped request is answered exactly when it is valid and merges below the last storable clock, and the rows in scope fit the limit, 20,000 cells and 4 MiB, however their cells are listed. |
| ClientFacts.ApplySound | src/schema.rs:385-424 | Every local operation keeps the client invariant: cells valid and within the device clock, dirty cells self-authored, table equal to log. |
| ClientFacts.CaptureWins | src/schema.rs:594-607 | What a trigger overwrites unconditionally an LWW comparison would accept too: the new version is strictly newer than the stored one. |
| LocalWrites.WritesReadBack | src/client.rs:87-265 | After a successful operation its columns show the asked values, changed ones are logged dirty at the next clock value, and nothing else changed. |
| LocalWrites.RewriteIsSilent | src/schema.rs:401-421 | Writing the value a column already shows changes nothing, the clock included. |
| LocalWrites.DeleteRestoreRoundTrip | src/client.rs:180-216 | Deleting and restoring a row gives back the same table, under a liveness version newer than the deletion's. |
| DeviceSteps.InsertExactly | src/client.rs:90-117 | An insert succeeds exactly for a new valid row identifier, given values that belong to application columns, and a clock that can advance. |
| DeviceSteps.InsertWrites | src/schema.rs:385-399 | It writes every synchronized column, given or the zero of its type, dirty at the next clock value. |
| DeviceSteps.SetExactly | src/client.rs:122-137 | Setting a column succeeds exactly on a stored row that shows deleted as false, with a valid identifier and value, when the value is shown already or the clock can advance. |
| DeviceSteps.OverwriteExactly | src/client.rs:235-265 | Overwriting one succeeds exactly on a stored row, tombstoned ones included. |
| DeviceSteps.DeleteRestoreExactly | src/client.rs:182-216 | Deleting succeeds exactly on a stored row that shows deleted as false, restoring on one that shows it as true. |
| DeviceSteps.UpdatesWrite | src/schema.rs:401-421 | Each of these writes its one column, dirty at the next clock value, or nothing at all when the value is shown already. |
| DeviceSteps.OnlyTargetsChange | src/client.rs:87-265 | No local operation changes another column, a cursor, a scope or a marker. |
| ClientFacts.CleanupSound | src/client.rs:1067-1127 | After cleanup no row is both held by a scope and marked for eviction, and every kept row is intact. |
| ClientClass.SqliteClient.constructor | src/client.rs:492-501 | A new client stores nothing and stands at cursor zero. |
| ClientClass.SqliteClient.Insert | src/client.rs:90-117 | An insert logs every synchronized column at one new clock value, given or default, or changes nothing. |
| ClientClass.SqliteClient.SetColumn | src/client.rs:122-137 | Setting a column writes live rows only, and a value that does not change writes nothing. |
| ClientClass.SqliteClient.OverwriteColumn | src/client.rs:235-265 | The todo setters write tombstoned rows as well. |
| ClientClass.SqliteClient.DeleteRow | src/client.rs:182-196 | Deletion is a liveness write on a live row. |
| ClientClass.SqliteClient.RestoreRow | src/client.rs:201-216 | Restoration is a liveness write on a tombstoned row. |
| ClientClass.SqliteClient.GetLocalDelta | src/client.rs:617-677 | The delta is exactly the dirty cells in row order under the stored clock, cursor, token and epoch, or an error when they exceed the limits. |
| ClientClass.SqliteClient.MarkClean | src/client.rs:740-766 | The acknowledgement loop makes clean exactly the cells still stored at a sent, unrejected version. |
| ClientClass.SqliteClient.CleanupPendingEvictions | src/client.rs:1067-1127 | The loop over markers, in any order, evicts exactly the marked rows without scope and without dirty cells, and drops exactly the markers it should. |
| ClientClass.SqliteClient.AcknowledgeLocalDelta | src/client.rs:714-769 | Acknowledgement followed by cleanup is the specified transaction, or nothing. |
| ClientClass.SqliteClient.ApplyRemotePayload | src/client.rs:956-1062 | The nested apply loops compute the cell-wise join with the stored log, defaults for new rows and the new clock and cursor; any conflict rolls everything back. |
| ClientClass.SqliteClient.CompleteSyncRound | src/client.rs:333-343 | Acknowledgement and apply commit together or not at all, and keep the client invariant. |
| ClientClass.SqliteClient.SyncUntilCaughtUp | src/client.rs:363-378 | For any transport and any local writes made while a page is under way, the loop of at most 100 pages applies page after page, returns the first answer that announces no more, and fails otherwise. |
| ClientClass.SqliteClient.ResetSyncCursor | src/client.rs:450-465 | Resetting clears cursor, token and epoch and keeps everything else, dirty writes included; what it repairs is stated by `ResetRepairs` and `ResetRepairsExactly`. |
| ClientClass.SqliteClient.GetPartialReplicaRequest | src/client.rs:773-819 | A request carries the next revision, the sorted members and the delta, and stores that revision, or changes nothing. |
| ClientClass.SqliteClient.ApplyPartialReplicaResponse | src/client.rs:823-898 | A snapshot is applied only at the scope's current active revision with the recomputed eviction set; membership, markers and cleanup are the specified ones. |
| ClientClass.SqliteClient.RemovePartialReplicaScope | src/client.rs:902-953 | Removal deactivates the scope at the next revision, drops its members and evicts what nothing else holds. |
| DeviceSteps.DeltaExactly | src/client.rs:617-677 | The delta carries exactly the dirty cells, rows in order, under protocol 4 and the device's clock, cursor, token and epoch. |
| DeviceSteps.AcknowledgementExactly | src/client.rs:714-769 | An acknowledgement makes clean exactly the entries sent at their stored version that no record rejects, removes exactly the marked rows that no scope holds and that have nothing left to send, and keeps the markers of those that have. |
| DeviceSteps.ApplyExactly | src/client.rs:956-1062 | A response is applied exactly when it is valid, contradicts no stored version and leaves the clock room; clock, cursor, token, epoch and rows afterwards. |
| DeviceSteps.NewRowsBlank | src/client.rs:973-991 | A new row shows the zero of its type in each column the response does not carry. |
| DeviceSteps.ResetExactly | src/client.rs:450-465 | A reset leaves cursor zero without token and epoch, and everything else, dirty writes included. |
| DeviceSteps.LoopExactly | src/client.rs:363-378 | The catch-up loop ends with the first page that does not announce more, and fails after exactly 100 that do. |
| DeviceSteps.PageExactly | src/client.rs:363-378 | What one page does when the delta, the transport or the completion fails, and when none does. |
| ScopeSteps.RequestExactly | src/client.rs:773-819 | A scoped request needs a valid scope, interest and delta and a revision left; it takes the next revision, makes it active and lists the members in order. |
| ScopeSteps.RemovalExactly | src/client.rs:902-953 | A removal makes the next revision inactive, turns the members into markers, and sweeps exactly the marked rows that no scope holds and that have nothing to send. |
| ScopeSteps.SnapshotApplies | src/client.rs:823-898 | A snapshot applies exactly at the scope's current active revision with the evicted rows the known non-members; membership, markers and the sweep afterwards. |
| ScopeSteps.RoundExactly | src/client.rs:333-343 | A round is the acknowledgement followed by the remote apply, both or neither. |
| Conservation.AcknowledgeConserved | src/client.rs:714-769 | Exact acknowledgement keeps every write accounted for when each sent cell was held or rejected. |
| BareAcknowledge.ConservesExactly | src/client.rs:680-712 | In every run, acknowledging an answered request without its rejections keeps every write accounted for if and only if the server holds each still stored cell that the response lists as rejected. |
| BareAcknowledge.SafeWhenNothingListed | src/client.rs:680-712 | A device that finds none of its still stored cells listed may acknowledge bare. |
| BareAcknowledge.SomeRunLosesAWrite | src/client.rs:680-712 | For every contract whose rows fit a payload there is a run in which a bare acknowledgement loses a write. |
| Conservation.CleanupConserved | src/client.rs:1067-1127 | Physical eviction never drops a write the server does not hold. |
| SystemProofs.RunsKeep | src/client.rs:333-343 | The system invariant holds at every state of every run. |
| Theorems.VersionsIdentifyValues | src/crdt.rs:561-566 | In every run one version of a cell identifies one value across devices, messages and server. |
| Theorems.NoLocalWriteIsLost | src/client.rs:1006-1018 | Every write ever made is, at every later state, still dirty on its device or superseded there while dirty, or held by the server at that version or newer. |
| Theorems.FeedCoverage | src/client.rs:1030-1060 | At every state of every run a device without scopes holds every server cell up to its cursor, at no lower version. |
| Theorems.CaughtUpDevices | src/client.rs:956-1062 | A device without scopes at the end of the feed stores exactly the server's cells save its own pending writes that are not older. |
| Theorems.LastAnswerConverges | src/crdt.rs:633-636 | When a request is served with nothing rejected and no further page, the device that completes the answer, however late, ends clean and equal to the server if no other write reached the server and it has nothing pending that was not sent. |
| Theorems.StrongConvergence | src/crdt.rs:494-658 | In every run, clean devices at the end of the feed store exactly the server's cells and show identical tables. |
| Theorems.QuietRoundConverges | src/client.rs:349-357 | Whatever else a device sent or received: when all it has pending was in a request whose unrejecting answer reaches the end of the feed, completing that answer leaves it clean and equal to the server. |
| Settling.CatchUpSettles | src/client.rs:363-378 | From any reachable state, the catch-up loop of a device that covers its cursor and has no eviction pending, or starts at cursor zero, ends without error, clean and equal to the server that only it writes to, pending writes included, when nothing of its delta is rejected, the feed after its cursor has at most 100 pages, and the clocks leave room. |
| Settling.ScopeFreeFollows | src/client.rs:1030-1060 | In every run a device that never used a scope is such a device. |
| Settling.ResetRepairs | src/client.rs:448-465 | Resetting the cursor starts a full, bounded repair: whatever scopes, members, pending evictions and gaps the device has, the catch-up loop after it ends with exactly the server's cells, under the same conditions. |
| Repair.ResetRepairsExactly | src/client.rs:448-465 | In every run: a device that has left its scopes and resets its cursor covers the feed up to its cursor at every later state, until it uses a scope again, if and only if every full request it ever sent started at a cursor it covers. |
| Repair.RepairedConverges | src/client.rs:956-1062 | At every such later state, if the device is clean and at the end of the feed, it stores exactly the server's cells. |
| Repair.StaleRequestLifts | src/client.rs:1044-1059 | The failing half: serving an uncovered request after the reset and completing its answer lifts the cursor, by the maximum, over cells the device does not hold. |
| ScopeGap.ScopedRoundSkips | src/crdt.rs:474-482 | From any reachable state whose server stores a cell, a new device that completes one round of a scope selecting nothing stands beyond cells it does not hold. |
| ScopeGap.SomeResetDoesNotRepair | src/client.rs:448-465 | For every contract whose rows fit a payload there is a run in which a device leaves its scope and resets, and still ends beyond cells it does not hold. |
| FleetSettling.TurnEnds | src/client.rs:363-378 | The loop of send, serve and complete inside a run ends with the device that the client's own loop computes, in order with the server and with exactly its cells. |
| FleetSettling.FleetConverges | src/client.rs:363-378 | From any reachable state whose devices follow the feed: when every device catches up in turn, twice, nothing rejected and nothing written in between, all devices end clean, with the server's cells and the same table. |
| Ordering.WritesAfterAnswerAreNewer | src/client.rs:1022-1029 | A device that has applied an answer writes only versions strictly newer than every cell the server held then, carried by the page or not. |
| Ordering.AppliedRevisionsMonotone | src/client.rs:846-866 | The revisions applied to one scope never decrease, in any run. |
| Ordering.NoAnswerOutlivesRemoval | src/client.rs:902-953 | In any run no answer to a request made before a removal is applied after it. |
| Ordering.ScopesStayConsistent | src/client.rs:1067-1127 | At every reachable state each scope member is stored and none is marked for eviction. |
| Ordering.TableShowsLog | src/schema.rs:385-424 | At every reachable state each application column shows its logged cell, or its default. |
| Closure.DeltaCloses | src/client.rs:617-677 | An honest device can build its delta if and only if its dirty cells fit the payload limits. |
| Closure.ServeCloses | src/crdt.rs:494-659 | Whatever a policy decides, an honest full request is merged if and only if the clock advance and the clock limit allow it. |
| Closure.ServeScopedCloses | src/crdt.rs:425-492 | An honest scoped request is served if and only if the clock advance is allowed, the answer's clock is storable, and the scope as it stands after the merge fits the row, byte and cell limits. |
| Closure.NeverReset | src/crdt.rs:587-599 | The reference server never tells an honest device to reset its cursor. |
| Closure.DeliverCloses | src/client.rs:333-343 | A full exchange of any run can be completed if and only if the device clock can still advance past it; the same-version error is unreachable. |
| Closure.DeliverScopedCloses | src/client.rs:823-898 | A scoped exchange of any run can be completed if and only if its revision is current and active and the clock can advance. |
| PartialAgreement.MembersMatchQuery | src/crdt.rs:445-451 | However late the answer is completed, whatever happened since, the scope's members are exactly the live rows that matched the interest when the server answered. |
| PartialAgreement.MembersHoldServerCells | src/client.rs:823-898 | In every run, each cell of a member row without dirty cells is at least the answered one and at most the server's present one, and equals the server's where it has not changed since the answer. |
| PartialAgreement.LostRowsEvicted | src/client.rs:871-896 | However late the answer is completed, a known row the scope lost is gone with its log and markers once it is clean and unreferenced, and stays while another scope holds it. |
| PartialAgreement.EvictionWritesNothing | src/client.rs:1067-1127 | No cell, a tombstone included, is written by eviction: every stored entry was there or was answered. |
| MergeLaws.MergeIsFilteredJoin | src/crdt.rs:509-575 | For any policy the stored cell at each key is the newest of the old cell and the allowed incoming one. |
| MergeLaws.MergeCountsApplied | src/crdt.rs:571-575 | The sequence grows by exactly the number of allowed cells that won. |
| MergeLaws.RejectedExactlyDenied | src/crdt.rs:526-557 | A cell is reported rejected if and only if a hook denied it. |
| MergeLaws.RejectionsAreDenials | src/crdt.rs:521-557 | The rejection records are exactly the denied cells, each with the kind and reason of the authorizer, or of the validator when the authorizer allowed it. |
| MergeLaws.VisitOrderIrrelevant | src/crdt.rs:511-575 | The order in which the cells of a request are visited decides neither acceptance nor what is stored. |
| PolicyOrder.OrderFreeExactlyWhenSteady | src/crdt.rs:511-575 | For any policy that decides every cell, on a server with given cells at its present or any later clock: any two successful sequences of the same deliveries, in any order and multiplicity, store the same cells if and only if the policy's verdict on a newer cell is the same over every cell it lets through, and of two values under one version it lets one through against the other. |
| PolicyOrder.SteadyDeliveriesCommute | src/crdt.rs:511-575 | The same for deliveries each under its own policy: steady deliveries commute, rejections included. |
| PolicyOrder.BlindHooksSteady | src/crdt.rs:521-557 | Hooks that do not look at the stored cell are steady. |
| PolicyOrder.RejectionsMakeOrderMatter | src/crdt.rs:541-557 | An unsteady policy: under first-writer-wins, two one-cell requests with clocks within one advance, delivered to a new, empty server in two orders, both succeed and leave different cells. |
| MergeLaws.DeliveryOrderIrrelevant | src/crdt.rs:511-575 | Under any policies, even one that reads the stored cell: two successful sequences of the same payloads in which nothing was rejected store the same cells. |
| MergeLaws.ReplayIdleExactly | src/crdt.rs:561-575 | Replaying a merged payload at any later time, under any policy, leaves cells, sequence and feed positions unchanged if and only if that policy lets through no cell that was denied the first time and is newer than what is stored. |
| MergeLaws.ReplayChangesNothing | src/crdt.rs:561-575 | A payload whose own merge rejected nothing can be replayed at any later time and under any policy without effect. |
| MergeLaws.BlindReplayChangesNothing | src/crdt.rs:561-575 | Under hooks that do not look at the stored cell any merged payload can be replayed without effect. |
| MergeLaws.ClockGrowth | src/crdt.rs:577-581 | After n merges the clock lies between n and n times 1,000,001, and every stored clock below it. |
| MergeLaws.NoEarlyOverflow | src/crdt.rs:723-731 | No clock overflow is possible within the first nine million million merges. |
| Pagination.PagesRefineFeed | src/crdt.rs:601-640 | Following cursors over an unchanged server yields exactly the feed, each cell once and in order, within as many pages as cells. |
| Pagination.EmptyRequestGetsPage | src/crdt.rs:601-640 | A request without changes stores nothing and is answered with exactly the page at its cursor, so asking again and again walks those pages. |
| Pagination.PageAdvances | src/crdt.rs:618-636 | A page that announces more is not empty and strictly advances the cursor. |
| Pagination.FeedComplete | src/crdt.rs:603-616 | The feed lists exactly the cells positioned after the cursor. |
| Pagination.PageWithinBudget | src/crdt.rs:618-634 | A page holds at most 1,000 cells, and stays within the byte budget unless it is one cell. |
| Postgres.AbsorbRowsJoin | src/server.rs:199-345 | With gaps in the numbering the row loop still computes the join, under distinct increasing numbers. |
| PostgresRefinement.TenantRefinesReference | src/server.rs:150-491 | While the new clock is storable the adapter accepts the requests the reference accepts, and leaves the same cells, clock, rejections and feed order; from cursor zero each answers with the first part of the same feed, equal if and only if both measures of bytes cut it at the same place. |
| PostgresRefinement.FittingCutsAgree | src/server.rs:427-436 | When a full page fits the byte budget under both measures, both first pages are that page. |
| PostgresRefinement.MeasuresMatter | src/server.rs:427-436 | Measures that differ by 48 bytes a cell can turn one page into two. |
| Postgres.PageComplete | src/server.rs:400-448 | The streamed page carries every row numbered between its start and its cursor. |
| PostgresClass.TenantStore.MergeStates | src/server.rs:150-491 | The statement-by-statement merge commits exactly the specified tables, lease and answer, or rolls back. |
| PostgresClass.StreamPage | src/server.rs:410-448 | The streaming loop with its running count, bytes, cursor and flag builds exactly the specified page. |
| TenantAnswers.TenantMergesExactly | src/server.rs:150-361 | The adapter merges exactly an acceptable request at most 1,000,000 clock values ahead, with 63 bits left for the clock and no failing cell. |
| TenantAnswers.TenantAnswersExactly | src/server.rs:367-448 | The device is told to reset exactly when no lease covers its non-zero cursor, or, from protocol 4 on, token or epochs differ; the page is the longest part of the feed from there, ending at the highest number when nothing remains. |
| TenantAnswers.TenantRepliesExactly | src/server.rs:449-491 | The other fields of the answer, and the renewed lease: cursor bound, token and epoch, and that no other lease changes. |
| TenantAnswers.TenantRecordsExactly | src/server.rs:199-310 | The rejection records are exactly the denied cells. |
| PostgresLock.CommitsInOrder | src/server.rs:186-197 | Merges of one tenant commit in sequence order in every interleaving, aborts and other tenants included. |
| PostgresLock.IssuedCursorIsFinal | src/server.rs:361-366 | Once a cursor is issued no row of its tenant numbered up to it becomes visible later, and no committed version is replaced by an older one. |
| PostgresLock.CursorSawEverything | src/server.rs:400-448 | In every later state each committed row up to an issued cursor is one that was visible when the cursor was computed. |
| PostgresLock.TenantsCommitOutOfOrder | src/server.rs:311-339 | Between tenants the order does not hold: a concrete interleaving commits a higher number first. |
| LockSteps.BeginLockExactly | src/server.rs:186-197 | A transaction takes a tenant's lock exactly when no other open one holds it. |
| LockSteps.UpsertExactly | src/server.rs:311-339 | Under the lock a cell is written exactly when none is seen or it beats the seen one, and takes the next number. |
| LockSteps.IssueExactly | src/server.rs:361-366 | A cursor is issued with exactly the rows the transaction sees. |
| LockSteps.EndExactly | src/server.rs:311-339 | A commit publishes rows and cursors, an abort neither, and numbers are never given back. |
| PostgresSerial.CommittedIsSerial | src/server.rs:186-197 | In every interleaving, aborted and unfinished transactions included, the committed rows are those of the committed transactions run alone, one after the other, in commit order. |
| PostgresSerial.MergesSerialize | src/server.rs:150-345 | In every interleaving, a committed transaction that judged a request's cells under a policy turned its table, as the earlier commits left it, into exactly what the single merge of that request makes of it, numbers included. |
| PostgresSerial.OtherTablesStand | src/server.rs:311-339 | A transaction that judged no cell of a table leaves its cells and numbers as they were. |
| PostgresEpoch.StoredCursorIsCovered | src/client.rs:1030-1060 | In every run with expiry, loss, rotation and restores, a device whose stored epoch belongs to the present history holds every server cell up to its cursor. |
| PostgresEpoch.CursorCoveredOrRestarted | src/server.rs:383-399 | A request's cursor is accepted only if its device covers every current cell up to it; a refused one restarts the page from zero. |
| PostgresEpoch.AcceptedExactlyWhenLeased | src/server.rs:372-399 | A non-zero cursor is accepted if and only if the device's lease is in force under the presented token and the epoch in effect; the numeric bounds never refuse an honest device. |
| PostgresEpoch.LeaseLasts | src/server.rs:449-473 | A credential whose lease is in force stays accepted through any traffic, stale duplicates included, until expiry, rotation or restore. |
| PostgresEpoch.RevokedRequestsRestart | src/server.rs:668-698 | Expiry, rotation and restore are final: every request under a credential known before, served at any later time, is told to reset and gets the feed from zero. |
| PostgresWrites.NoWriteIsLostWithoutRestore | src/server.rs:199-345 | In every run of the adapter without a restore, every write ever made is, at every later state, still dirty on its device or superseded there while dirty, or held by the server at that version or newer. |
| PostgresWrites.CaughtUpNodesConverge | src/server.rs:400-448 | In every run of the adapter without a restore, each clean device with a credential of the present history and a cursor at the table's highest number stores exactly the server's cells, and any two show the same table. |
| PostgresRestore.RestoreKeepsExactly | src/server.rs:681-698 | A restore leaves a write accounted for if and only if it is dirty on its device, or superseded there while dirty, or held by the backup at that version or newer. |
| PostgresRestore.WriteSurvivesRestore | src/server.rs:681-698 | From any state of any run, such a write stays accounted for at every later state up to the next restore, if no answer under way to its device relies on a version of that cell that the backup lacks. |
| PostgresRestore.LateAnswerLoses | src/client.rs:333-343 | Why that matters: completing an answer that acknowledges the device's cell, when the server does not hold it, loses the write. |
| LostByRestore.SomeRestoreLosesAWrite | src/server.rs:681-698 | For every contract whose rows fit a payload there is a run in which restoring an older backup loses an acknowledged write. |
| PostgresClass.TenantStore.ExpireCursorLeases | src/server.rs:666-679 | Expiry touches the leases of inactive devices only, and whatever such a device sends next at a non-zero cursor is told to reset. |
| PostgresClass.TenantStore.RotateServerEpoch | src/server.rs:681-698 | Rotation installs the new epoch and, whatever any device sends next at a non-zero cursor, it is told to reset. |
| Contract.NewTable | src/schema.rs:122-161 | The loop with its set of seen names accepts exactly valid definitions. |
| Contract.SchemaWellFormed | src/schema.rs:181-207 | Every valid table meets the conditions the protocol results assume. |
| Contract.DescriptorUnique | src/schema.rs:214-220 | Equal descriptors come from the same name and the same ordered typed columns. |
| Contract.StepBijective | src/schema.rs:695-702 | For each byte the FNV-1a step is a bijection of the 64-bit state, with an explicit inverse. |
| Contract.Fnv1a | src/schema.rs:695-702 | The hash loop computes the fold of that step. |
| Contract.OneByteApart | src/schema.rs:695-702 | Texts that differ in exactly one byte never share a hash. |
| Contract.OneLetterDetected | src/schema.rs:214-220 | Tables whose descriptors differ at one letter have different fingerprints. |
| Contract.TableFingerprint | src/schema.rs:214-220 | The descriptor loop and hash compute the table fingerprint. |
| Contract.ContractOrderIrrelevant | src/schema.rs:656-668 | The contract fingerprint is the same for every order of the tables. |
| Contract.ContractTextUnique | src/schema.rs:656-668 | Equal contract descriptors declare the same names with the same table fingerprints. |
| Contract.FingerprintContract | src/schema.rs:656-668 | The collecting and writing loops, around a stable sort, compute the contract fingerprint. |
| ContractText.TablesExactly | src/schema.rs:122-161 | Valid definitions in literal terms: letters, digits and underscores, at most 63, the reserved names, distinct columns. |
| ContractText.TypesExactly | src/schema.rs:199-207 | The schema types each column as declared, and deleted as boolean. |
| ContractText.EmptyDescriptor | src/schema.rs:214-220 | The descriptor without columns is loomabase-contract-v1;name;deleted:boolean. |
| ContractText.DescriptorGrows | src/schema.rs:69-77 | One more column inserts its name, a colon and text, integer, real or boolean before the liveness register. |
| ContractText.TodosDescriptor | src/schema.rs:214-220 | The whole text for the todos table. |
| ContractText.HashExactly | src/schema.rs:695-702 | The hash of nothing is 0xcbf29ce484222325; each byte is combined by exclusive or and multiplied by 0x100000001b3 in 64 bits. |
| ContractText.XorBits | src/schema.rs:695-702 | Exclusive or, bit by bit. |
| ContractText.KnownAnswers | src/schema.rs:695-702 | The hash of the letter a is 0xaf63dc4c8601ec8c. |
| ContractText.ContractTextExactly | src/schema.rs:656-668 | The contract text lists every table with its fingerprint, in order of names. |
| ContractText.EntriesTextExactly | src/schema.rs:656-668 | Each entry is a semicolon, the name, an equals sign and 16 hexadecimal digits. |
| ContractText.HexExactly | src/schema.rs:664-666 | Digit by digit, most significant first, in lower case. |
| ContractText.FingerprintsExactly | src/schema.rs:214-220 | Both fingerprints are the hash of the characters of their texts. |

## Left out

- Error kinds and messages: every failure is one `Err`, so which of several failing checks is reported first is not modelled.
- Encoded sizes: the byte length of a cell is an arbitrary function of key and cell; JSON and SQL text encodings are not modelled.
- Values: non-finite reals are one value, negative zero and SQLite's text rendering of numbers are not modelled.
- One table per client: several tables share one device clock and one sequence in the source; runs model one table. `PostgresLock` keeps several tables per tenant.
- Server.AbsorbAllJoins: the 64-bit wrap of the reference sequence counter is not modelled; its saturating conversion to a cursor is.
- Pagination.PagesRefineFeed: assumes at most 2^63 - 1 feed positions, beyond which cursors saturate; coverage of a device does not need this.
- PolicyOrder.OrderFreeExactlyWhenSteady: assumes hooks that never fail a request and deny with presentable reasons, and a clock with room for two more merges.
- PostgresRefinement.TenantRefinesReference: PostgreSQL text and JSON refuse the character U+0000, which both validations allow; a request that carries it fails in the adapter only.
- PostgresWrites.NoWriteIsLostWithoutRestore: a PostgreSQL database restored from a backup forgets the acknowledged writes made after the backup, so the statement stops at the first restore; `PostgresRestore` states what survives one.
- PostgresSerial.MergesSerialize: the tenant's clock, leases and audit rows are not among the interleaved rows; the clock the merge reads is a parameter.
- PostgresEpoch.CursorCoveredOrRestarted: protocol 4 and devices without scopes; protocol 3 requests skip the token and epoch checks (src/server.rs:389-392).
- `acknowledge` and `apply_remote` as separate calls: runs use `complete_sync`; the effect of the first alone is stated in `BareAcknowledge`.
- PostgreSQL partial membership: it filters on materialised defaults and database ordering (src/server.rs:541-590) and inserts application rows before the policy decides (src/server.rs:200-207); membership is proved for the reference server.
- The audit log, advisory migration locks, row-level security, DDL and migrations.
- Authentication, HTTP, process setup, foreign-function bindings, code generation, demos and benchmarks.
- The JavaScript client: a separate implementation with weaker checks.
- `binary_search` on sorted member lists is modelled as membership.
- Row and column loops of a request run over one flattened sequence in the methods `AbsorbLoop`, `MarkClean` and `ApplyWrites`.
