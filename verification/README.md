# Notifuse: verified models of its stateful cores

Notifuse is a self-hosted emailing platform. This project models the parts of it where many writers meet shared
state, and proves what holds over every run of them.

- **The workspace database** (`Sql`, `Timeline`, `Triggers`, `Workspace`, `WorkspaceDb`). The plpgsql triggers of six
  tables diff rows into an append-only `contact_timeline`, feed a segment recompute queue and push bounces and
  complaints into `contact_lists`. `Workspace.Step` is one SQL write with its whole cascade, as a function on tables;
  the class `WorkspaceDb` is the same write done assignment by assignment, proved equal to it. What each write logs is
  stated by the text and the contents of its rows, from the tables before and after (`TriggerLaws`). Over runs of writes:
  the contact log replays both ways (`ContactAudit`), suppression does not depend on delivery order
  (`Suppression`), the list log tells every stored status (`ListLog`), the non-openers segment means what it says
  (`NonOpeners`), custom-event diffs are patches (`CustomEvents`), and the segment memberships are a cache of their
  definition under concurrent queue processors whose membership writes may fail: what agrees and exactly what does not
  (`SegmentQueue`, `SegmentCache`, `SegmentOverlap`), and that the queue drains (`SegmentDrain`).
- **Two goroutine protocols.** Publish-with-acknowledge of the event bus (`EventBus`, `EventBusOutcomes`), and the
  request counting and started-channel handshake of the server (`Shutdown`, `ServerStart`), each a step relation over
  one program counter per goroutine.
- **Patch semantics** of broadcast updates (`Broadcasts`, `BroadcastPatches`): an in-place update of a class, proved
  equal to a pure patch action, and the laws of that action.
- **Row protocols**: the email queue (`EmailQueue`, `EmailQueueLife`), its workers on stale copies (`EmailWorkers`,
  `EmailWorkerBounds`, `EmailStranding`) and its backoff (`Backoff`), journeys of contacts (`Journeys`,
  `JourneyEndings`), and activation of automations (`Activation`, `ActivationRaces`). Each SQL statement is a WHERE
  clause and a SET clause.
- **String normal forms**: slugs (`Slugs`) and OIDC scopes (`Scopes`).

`Tally` holds sums over sequences of processes, shared by the protocol modules.

## Conventions

Tables are maps from their primary key; `contact_timeline` is a sequence in insertion order. A write carries its
CURRENT_TIMESTAMP; all clocks are integers. A JSON value is `Json`, a nullable column `Option`; where the code
prints SQL NULL and JSON null alike, so does `Sql.Render`. The `kind` of a timeline row is a datatype whose stored
string is `Timeline.KindText`. Strings stand for the byte strings of Go. Concurrency is interleaving of the steps
named in each `Action` type; a theorem over `run` is about every interleaving of any length and any number of
processes. Unicode tables, URL and time-zone checks, and segment predicates are parameters. Segment predicates are
arbitrary functions of what the triggers track: the logged columns of the contact and its timeline without the
membership rows.

## Where the code does less than its comments say

Each of these comes with a theorem that says when it happens and an execution, concrete or general, that shows it.

- A handler that both panics and times out can panic the process with a send on the closed error channel
  (`EventBusOutcomes.CrashesExactlyWhen`), and when possible panics and timeouts together outnumber the handlers the
  callback may never come (`EventBusOutcomes.DeadlocksExactlyWhen`).
- `Wait` may return while a request that passed the shutdown check has not yet been counted
  (`Shutdown.QuietAfterWaitExactlyWhen`, `Shutdown.LimboHappens`).
- A second call of `Start` always ends in closing a closed channel (`ServerStart.CrashesExactlyWhen`).
- A membership write that fails, for a cancelled context or an error of the database, is logged and the contact counts
  as done. A re-enqueue that fails is logged too, after the claim has deleted the rows of the contacts it was to put
  back, and a crash forgets the claimed batch. Either way the stale membership stays until the contact's next event.
  Whatever fails, a stored membership is wrong exactly when either the verdict has changed since the view that was read
  for the last attempt to write it, or that attempt was lost and would have changed it
  (`SegmentCache.DisagreesExactlyWhen`); and with claims that do not overlap the first can only be so of contacts dropped
  by a failed re-enqueue or a crash since they were last queued (`SegmentCache.RestsUnlessDropped`). One processor is
  enough for both failures (`SegmentOverlap.LostWritesDisagree`, `SegmentOverlap.DroppedDisagrees`).
- Two queue processors that hold the same email can leave a stale membership behind even when nothing fails.
  SKIP LOCKED keeps two claims disjoint, but not a claim and an email that an earlier claimer is still working on, whose
  row a new event has put back. While nothing fails the cache is right in every interleaving exactly when there is
  at most one processor (`SegmentOverlap.AgreesExactlyWhen`, `SegmentOverlap.OverlapLeavesStale`,
  `SegmentCache.OneProcessorAgrees`; `SegmentOverlap.TwoEventsAgreeExactlyWhen` is an instance).
- Clearing `deleted_at` of a list entry writes no timeline row and queues nobody (`SegmentDrain.RestoreIsSilent`).
- The list trigger would hide the status change of an update that also stamps `deleted_at`
  (`ListLog.HidingBreaksAgreement`). No statement of the repository does both, so this is a guard for new ones.
- A custom-event diff does not tell JSON null from an absent key (`CustomEvents.DiffApplies`).
- An entry can be in flight for ever with its attempts spent, never fetched (`EmailQueueLife.NeverFetchedExactlyWhen`).
  `EmailQueueLife.StepStrandsExactlyWhen` says which statements do that. Two workers on copies of one entry reach it
  by postponing what the other gave up on (`EmailStranding.PostponedAfterTheLastAttempt`) and by retrying from a stale
  count (`EmailStranding.RetriedFromAStaleCount`); a single worker only after a stuck row
  (`EmailStranding.PostponedAfterACrash`), so that without stuck rows and resets it happens exactly with more than one
  worker (`EmailStranding.StrandsExactlyWhen`).
- Nothing but the copy's own count keeps n workers from sending an entry of m attempts m - 1 + n times, and that is the
  most they can (`EmailWorkerBounds.SendsAreBounded`, `EmailStranding.SendsReachTheBound`). An entry postponed while it
  is being sent is sent by a second worker at the same time (`EmailStranding.PostponedIsTakenTwice`,
  `EmailWorkerBounds.HandsAreBounded`).
- The 64-bit retry delay is the intended one only while that fits (`Backoff.ExactWhileItFits`), and from 65 attempts on
  it is zero (`Backoff.NoDelayFrom65`).
- Concurrent calls whose DDL succeeds can leave a live automation without the trigger of its configuration exactly for
  the sets of requests that `ActivationRaces.CanRace` lists (`ActivationRaces.RacesExactlyWhen`): a pause whose drop is
  overtaken by an activation (`PauseOvertaken`, `SecondActivationOvertakes`), two updates of a live automation
  (`UpdatesOvertake`), an activation whose install is overtaken by an update (`ActivationOvertaken`). The comment that
  only winners of the status write emit trigger DDL does not cover a pause of what is already paused.
- The undo of a failed install is an unconditional status write. The status writes form one chain exactly when no undo
  meets a status its own call did not write (`Activation.StatusWritesChainExactlyWhen`); otherwise it can revert a
  completed pause to a live automation without a trigger, which is what the comment at
  internal/repository/automation_postgres.go:395-400 rules out (`ActivationRaces.PauseReverted`).
- An executor tick overtaken by a reply announces an ending that is never stored
  (`JourneyEndings.OvertakenTickAnnounces`). The announcements of a journey are one and true exactly when no tick failed
  to store an ending it had announced (`JourneyEndings.AnnouncedTrulyExactlyWhen`).
- When the write of a node's result fails, the executor counts a retry on the copy that is already advanced and writes it
  again. A journey whose last node's result was hit is completed that way with nothing announced
  (`JourneyEndings.FailedWriteEndsSilently`); an ending stored by a tick is untold exactly then
  (`JourneyEndings.UntoldExactlyWhen`).
- The conditional update looks at the status alone, so a stale copy moves an active journey back to an earlier node
  (`JourneyEndings.StaleTickMovesBack`); never if no journey is fetched while a tick still works on it
  (`JourneyEndings.TicksContinueFromTheRow`).
- Feed patches do not compose when they switch the global feed back and forth (`BroadcastPatches.FeedsComposeExactlyWhen`).

## Model

| member | source | states |
|---|---|---|
| Timeline.MessageKindsAreNotSegmentKinds | internal/database/init.go:690-742 | no channel name makes a message kind collide with `segment.joined` or `segment.left` |
| Timeline.OnlySegmentRowsSkipQueue | internal/database/init.go:811-813 | the string test of the queue trigger skips exactly the two membership kinds, for every channel and event name |
| Timeline.EmailKindText | internal/domain/broadcast_resend.go:50-51 | a row's stored kind equals `email.sent` or `email.opened` exactly when it is that message kind on channel email |
| Triggers.EmptyDiff | internal/database/init.go:579-613 | the contact diff is empty exactly when no logged column changed |
| Triggers.MessageRowsAreMessages | internal/database/init.go:690-742 | all rows a message update writes itself are message rows |
| Workspace.StepAppends | internal/database/init.go:931-946 | a write, cascade included, appends exactly its rows to the timeline and changes nothing before them |
| Workspace.StepProjects | internal/database/init.go:931-946 | the cascade touches no other table beyond the push into contact_lists, and queues exactly whom the rows queue |
| Workspace.MessageUpdateEntities | internal/database/init.go:690-742 | a message update appends message rows and, through the pushes, list rows, nothing else |
| Workspace.RunAppend | internal/database/init.go:931-946 | runs of writes compose |
| Workspace.TimelineOnlyGrows | internal/database/init.go:931-946 | over every run the timeline is append-only |
| Workspace.AppendCompose | internal/database/init.go:941-942 | inserting rows one by one, each firing the queue trigger, equals inserting them at once |
| TriggerLaws.InboundIsLogged | internal/database/init.go:744-773 | an inbound message appends one row for its sender, with the text `email.replied` exactly for type `reply`, `email.auto_reply` exactly for `auto_reply`, and the generic text otherwise |
| TriggerLaws.InboundCarries | internal/database/init.go:744-773 | the row carries type and source, and of the four details exactly those that are there and not empty |
| TriggerLaws.MembershipsAreLogged | internal/database/init.go:775-798 | over all writes, `segment.joined` is written exactly by an insert of a membership and `segment.left` exactly by a delete, for that contact and segment |
| TriggerLaws.MembershipRowsCarry | internal/database/init.go:775-798 | the row of a join carries segment, version and time of the match, that of a leave the segment and the version there was |
| TriggerLaws.ContactsAreLogged | internal/database/init.go:570-625 | over all writes, `contact.created` is written exactly by an insert of a contact and `contact.updated` exactly by an update that changes a column |
| TriggerLaws.NewEntryIsLogged | internal/database/init.go:634-650 | the first row of a list entry names its status, an unknown status counting as subscribed |
| TriggerLaws.ListUpdateTells | internal/database/init.go:656-686 | an update is logged exactly if it stamps the deletion or changes the status, by one row whose text says which of the nine cases it is |
| TriggerLaws.ListRowsTell | internal/database/init.go:823-853 | whatever the write, pushes of bounces and complaints included, the text of each list row is that of the transition between the stored entries before and after |
| TriggerLaws.PushesTell | internal/database/init.go:823-853 | which list entry a message update changes, to which status and as of when: a first complaint, else a first bounce, of that recipient and list, unless outranked |
| TriggerLaws.NewMessageIsLogged | internal/database/init.go:697-701 | a new message appends one row, `sent` on its channel, with its template, broadcast and time |
| TriggerLaws.EngagementsAreLogged | internal/database/init.go:704-729 | each engagement text is written exactly when its own column has moved to a value, and its row carries the old and the new one |
| TriggerLaws.DeliveryIsLogged | internal/database/init.go:730-738 | `updated` is written exactly when delivery, failure or status info has changed, with those that have |
| TriggerLaws.EventsAreLogged | internal/database/init.go:855-929 | a custom event appends one row under its own name at its insert and at every update |
| TriggerLaws.NewGoalIsLogged | internal/database/init.go:862-880 | a new event's row carries its name, its external id and the goal fields that are set |
| TriggerLaws.GoalChangesAreLogged | internal/database/init.go:881-919 | an update's row carries the times and exactly the goal fields that have changed |
| TriggerLaws.QueuesWhomItLogs | internal/database/init.go:800-821 | a write queues, as of now, exactly those for whom it has logged a row other than of a membership, and leaves everybody else's place in the queue |
| WorkspaceDatabase.EveryColumnIsCompared | internal/database/init.go:581-613 | the trigger compares every logged column |
| WorkspaceDatabase.WorkspaceDb.InsertTimeline | internal/database/init.go:800-821 | the insert and its queue trigger in place equal appending the row to timeline and queue |
| WorkspaceDatabase.WorkspaceDb.InsertContact | internal/database/init.go:570-625 | contact insert in place equals its step |
| WorkspaceDatabase.WorkspaceDb.DiffColumns | internal/database/init.go:579-613 | the sequence of column comparisons computes the contact diff |
| WorkspaceDatabase.WorkspaceDb.UpdateContact | internal/database/init.go:570-625 | contact update in place equals its step, writing no row for an empty diff |
| WorkspaceDatabase.WorkspaceDb.InsertListEntry | internal/database/init.go:627-688 | list insert in place equals its step |
| WorkspaceDatabase.WorkspaceDb.UpdateListEntry | internal/database/init.go:627-688 | list update in place equals its step, the soft-delete branch before the status branch |
| WorkspaceDatabase.WorkspaceDb.InsertMessage | internal/database/init.go:690-742 | message insert in place equals its step |
| WorkspaceDatabase.WorkspaceDb.UpdateMessage | internal/database/init.go:690-742 | message update with both message triggers and the cascade through contact_lists equals its step |
| WorkspaceDatabase.WorkspaceDb.InsertInbound | internal/database/init.go:744-773 | inbound insert in place equals its step |
| WorkspaceDatabase.WorkspaceDb.InsertMember | internal/database/init.go:775-798 | membership insert in place equals its step |
| WorkspaceDatabase.WorkspaceDb.DeleteMember | internal/database/init.go:775-798 | membership delete in place equals its step |
| WorkspaceDatabase.WorkspaceDb.InsertEvent | internal/database/init.go:855-929 | custom-event insert in place equals its step |
| WorkspaceDatabase.WorkspaceDb.DiffProperties | internal/database/init.go:881-919 | the key loop, in any order of keys, computes the property diff |
| WorkspaceDatabase.WorkspaceDb.UpdateEvent | internal/database/init.go:855-929 | custom-event update in place equals its step, a row for an empty diff included |
| ContactAudit.UpdateReplays | internal/database/init.go:579-622 | the row of one update, or its absence, takes the old columns to the new ones and back |
| ContactAudit.SilentUpdate | internal/database/init.go:614-622 | an update that touches no logged column logs nothing, and only such an update |
| ContactAudit.StepReplays | internal/database/init.go:570-625 | any write with its cascade keeps the log exact for every contact |
| ContactAudit.AuditLogReplays | internal/database/init.go:570-625 | over every run, replaying `new` values from the first columns gives the present ones and rewinding `old` values from those gives the first |
| ContactAudit.RenderedDetermines | internal/database/init.go:581-613 | printed columns determine the stored ones up to JSON null against SQL NULL |
| Suppression.PushRaises | internal/database/init.go:823-853 | the two conditional updates of the status trigger raise the status to the worse of complaint and bounce |
| Suppression.StepRaises | internal/database/init.go:823-853 | no write but a direct one on the entry changes its status except by raising it |
| Suppression.RunRaises | internal/database/init.go:823-853 | over every such run the final status is the initial one raised by the worst transition, and its rank never drops |
| Suppression.FinalStatus | internal/database/init.go:823-853 | after any sequence of reports the status is a function of the initial status and the set of events |
| Suppression.DeliveryOrderIrrelevant | internal/database/init.go:823-853 | two sequences with the same events, in any order, grouping and repetition, end in the same status |
| ListLog.TransitionKindMeaning | internal/database/init.go:663-680 | a row is `list.confirmed` or `list.resubscribed` exactly for those transitions |
| ListLog.HidingBreaksAgreement | internal/database/init.go:656-663 | a statement that soft-deletes and changes the status breaks the agreement of log and table |
| ListLog.StepKeepsFaith | internal/database/init.go:627-688 | a write with its cascade keeps the log faithful exactly when it hides no status change |
| ListLog.ListLogIsFaithful | internal/database/init.go:627-688 | over every run hiding nothing, the last logged status of each entry is the stored one, and confirmations and resubscriptions follow a log that allows them |
| ListLog.EmptyIsFaithful | internal/database/init.go:627-688 | the empty workspace is faithful |
| ListLog.AtMostOneRowPerEntry | internal/database/init.go:823-853 | a write appends at most one row per list entry, even one that stamps a complaint and a bounce at once |
| NonOpeners.TreeMeansNonOpener | internal/domain/broadcast_resend.go:44-72 | over an indexed timeline the tree selects who was sent the broadcast by email and opened none of its messages |
| NonOpeners.StepKeepsIndex | internal/database/init.go:690-742 | a write keeps the timeline an index of message_history exactly when it is orderly |
| NonOpeners.NonOpenersOverRuns | internal/domain/broadcast_resend.go:44-72 | so it does over every orderly run from the empty workspace, for every email and broadcast |
| CustomEvents.DiffRecordsDifferences | internal/database/init.go:881-919 | the diff records exactly the keys that differ, with both values |
| CustomEvents.DiffApplies | internal/database/init.go:881-919 | applying the diff to the old properties gives the new ones exactly when no JSON null appears |
| CustomEvents.DiffReverts | internal/database/init.go:881-919 | its inverse gives the old ones exactly when no JSON null disappears |
| CustomEvents.EventLogReplays | internal/database/init.go:855-929 | over every run that introduces no JSON null the logged diffs replay to the stored properties |
| SegmentQueue.WriteQueuesViewChanges | internal/database/init.go:800-821 | a write changes what a segment sees of an email only by queueing that email as of now |
| SegmentQueue.WriteOneFrame | internal/repository/segment_postgres.go:297-319 | a membership write touches one pair, no view and no queue row, and stores the segment's version, keeping the time of the first match |
| SegmentQueue.NewEventsAreLeftToSettle | internal/service/contact_segment_queue_processor.go:196-210 | no claim takes a contact within fifteen seconds of an event that changed what its segments see |
| SegmentCache.EvaluateKeepsInv | internal/service/contact_segment_queue_processor.go:308-378 | an evaluation has read the view as it is until the email is queued again |
| SegmentCache.AttemptKeepsInv | internal/service/contact_segment_queue_processor.go:380-404 | a membership write of one processor, made or lost, leaves every other pass valid and one segment less to attempt with the view read |
| SegmentCache.FailKeepsInv | internal/service/contact_segment_queue_processor.go:129-167 | failures, panics and cancellation keep every other email up to date |
| SegmentCache.RequeueKeepsInv | internal/service/contact_segment_queue_processor.go:253-304 | so do re-enqueues of failed emails, successful or not, and crashes, apart from the emails dropped |
| SegmentCache.DisagreesExactlyWhen | internal/service/contact_segment_queue_processor.go:253-404 | in every interleaving of writes and n processors, whatever fails and whoever holds what, a stored membership disagrees with a fresh evaluation exactly when either the verdict differs from that on the view read for the last attempt to write it, or that attempt was lost and would have changed it |
| SegmentCache.RestsUnlessDropped | internal/service/contact_segment_queue_processor.go:60-177 | with claims that do not overlap, an email neither queued nor in flight was dropped by a failed re-enqueue or a crash since it was last queued, or every segment was last attempted with the view as it is; then it disagrees exactly where the last write was lost and would have changed something |
| SegmentCache.OneProcessorIsExclusive | internal/service/contact_segment_queue_processor.go:196-251 | with one processor no two claims overlap |
| SegmentCache.SegmentCacheAgrees | internal/domain/contact_segment_queue.go:16-29 | while nothing fails and claims do not overlap, an email neither queued nor in flight has exactly the memberships a fresh evaluation gives |
| SegmentCache.OneProcessorAgrees | internal/domain/contact_segment_queue.go:16-29 | with one processor, whose membership writes and re-enqueues succeed and which does not crash, that holds in every interleaving, without a condition on the claims |
| SegmentOverlap.LostWritesDisagree | internal/service/contact_segment_queue_processor.go:380-404 | for one processor or more and whatever contact should join a segment, a run from the empty workspace that loses its membership writes leaves it outside |
| SegmentOverlap.DroppedDisagrees | internal/service/contact_segment_queue_processor.go:253-263 | so does one that loses no membership write but a re-enqueue, or crashes |
| SegmentOverlap.OverlapLeavesStale | internal/service/contact_segment_queue_processor.go:196-210 | for two processors or more and whatever write flips a segment, a run from the empty workspace in which nothing fails ends with the stale membership |
| SegmentOverlap.AgreesExactlyWhen | internal/service/contact_segment_queue_processor.go:196-251 | given any write that flips a segment: while nothing fails, the cache agrees in every interleaving exactly when there is at most one processor |
| SegmentOverlap.InboundIsSeen | internal/database/init.go:744-773 | an inbound message is one more event in its contact's view |
| SegmentOverlap.SecondMessageFlips | internal/database/init.go:744-773 | a contact's second inbound message, whatever it says, flips the segment of contacts with two events or more |
| SegmentOverlap.TwoEventsAgreeExactlyWhen | internal/service/contact_segment_queue_processor.go:196-251 | so for that segment the cache agrees in every interleaving without failures exactly with at most one processor, unconditionally |
| SegmentDrain.StepDecreases | internal/database/init.go:803-810 | each processor step, with the cascade of its membership write, decreases a measure |
| SegmentDrain.SchedulesAreBounded | internal/database/init.go:803-810 | no schedule of processor steps is longer than the measure |
| SegmentDrain.PendingCanStep | internal/service/contact_segment_queue_processor.go:73-177 | while anything is queued or claimed some processor can step |
| SegmentDrain.QueueDrains | internal/database/init.go:775-821 | a schedule that goes on while it can ends with an empty queue and idle processors |
| SegmentDrain.RestoreIsSilent | internal/database/init.go:656-679 | un-deleting a list entry at the same status logs nothing and queues nobody |
| EventBusOutcomes.Bus.Subscribe | internal/domain/event.go:182-193 | appends the handler to its event type and leaves the others |
| EventBusOutcomes.Bus.PublishWithAck | internal/domain/event.go:81-163 | however the handlers subscribed at the call behave and interleave: they and nobody else take part, the publish ends, with at most one callback that tells of each what happened, and with one if none both panics and times out |
| EventBus.MoveOk | internal/domain/event.go:103-139 | one move of a handler sends at most its own message, once, and moves the wait group by its own `Done` only |
| EventBus.AliveKeepsOpen | internal/domain/event.go:142-145 | while a watcher has not called `Done` the channel is open |
| EventBus.ExecKeepsInv | internal/domain/event.go:95-163 | the counters, the channel and the messages keep agreeing with the program counters in every interleaving |
| EventBusOutcomes.RunsAreBounded | internal/domain/event.go:95-163 | no interleaving of n handlers has more than 10n + 5 steps |
| EventBusOutcomes.Acknowledgement | internal/domain/event.go:95-163 | whatever the handlers do: at most one callback, after every handler finished or timed out, with exactly the errors sent, nil exactly when there were none; of a handler that never returns, that it timed out |
| EventBusOutcomes.CrashNeedsOverlap | internal/domain/event.go:114-138 | only the panic of a handler already given up on meets a closed channel |
| EventBusOutcomes.CrashesExactlyWhen | internal/domain/event.go:114-144 | some interleaving sends on the closed channel exactly when some handler both panics and times out |
| EventBusOutcomes.Progress | internal/domain/event.go:95-163 | with no more possible messages than handlers something can happen until the callback |
| EventBusOutcomes.DeadlocksExactlyWhen | internal/domain/event.go:100-145 | some interleaving never calls back exactly when possible panics and timeouts outnumber the handlers |
| EventBusOutcomes.AcknowledgedOnce | internal/domain/event.go:81-163 | if no handler does both, every interleaving that has run out of steps has called back once and truthfully, handlers that never return included |
| Shutdown.CountersCount | internal/app/app.go:2118-2131 | in every interleaving both counters are the number of requests between their own increment and decrement |
| Shutdown.LateRequestsAreRejected | internal/app/app.go:2151-2169 | a request checked after the cancellation is never counted or served |
| Shutdown.QuietAfterWaitExactlyWhen | internal/app/app.go:1774-1792 | after `Wait` a handler can still run exactly when a request sits between the check and `Add` |
| Shutdown.QuietCounters | internal/app/app.go:1774-1831 | otherwise both counters stay zero |
| Shutdown.LimboHappens | internal/app/app.go:2161-2177 | one request is enough for that to happen, with the atomic counter at zero |
| ServerStart.StarterKeepsChannels | internal/app/app.go:1514-1533 | every channel but the newest stays closed, the newest belongs to one call |
| ServerStart.ReleasedSeesServer | internal/app/app.go:1899-1919 | with any number of starts and waiters a released waiter sees the server |
| ServerStart.AtMostOneListens | internal/app/app.go:1514-1533 | at most one call of `Start` gets past closing its channel |
| ServerStart.SingleStartCloses | internal/app/app.go:1514-1533 | with one call every close meets an open channel |
| ServerStart.CrashesExactlyWhen | internal/app/app.go:1514-1533 | every interleaving that has run out of steps has closed a closed channel exactly when `Start` was called more than once |
| Broadcasts.ValidateAcceptsExactlyWhen | internal/domain/broadcast.go:335-437 | validation accepts exactly the broadcasts that satisfy the declarative rules |
| Broadcasts.VariationsComplaint | internal/domain/broadcast.go:389-395 | the complaint names the first variation without a template |
| Broadcasts.ComplaintIsTrue | internal/domain/broadcast.go:335-437 | whatever validation complains about is so, error by error |
| Broadcasts.UpdateRequest.Unmarshal | internal/domain/broadcast.go:523-553 | decoding records key by key what the body carried, a null counting as omitted |
| Broadcasts.UpdateRequest.PatchFeed | internal/domain/broadcast.go:609-646 | the in-place feed update equals the merge that keeps the payload unless a live feed is switched off |
| Broadcasts.UpdateRequest.PatchAudience | internal/domain/broadcast.go:583-591 | the audience is merged key by key |
| Broadcasts.UpdateRequest.PatchInPlace | internal/domain/broadcast.go:576-648 | the in-place update equals the patch action |
| Broadcasts.UpdateRequest.Validate | internal/domain/broadcast.go:556-655 | errors in the order of the code; early refusals leave the object alone, a late one leaves it patched: the name and every key sent are stored, the others stay, identity and status are untouched |
| BroadcastPatches.PatchesCompose | internal/domain/broadcast.go:576-607 | two patches in a row are their right-biased combination, apart from feed and time stamp |
| BroadcastPatches.FeedsComposeExactlyWhen | internal/domain/broadcast.go:609-646 | so for the feed, unless a payload is there and the two flip the switch back and forth |
| BroadcastPatches.NoPatchFlipsBack | internal/domain/broadcast.go:617-632 | off and on again on a live feed is no single patch |
| BroadcastPatches.EveryKeyDecides | internal/domain/broadcast.go:523-607 | for every key of the body a sent value is the stored value and an omitted or null one leaves the field, except the name, which is always stored |
| BroadcastPatches.SentFeedIsStored | internal/domain/broadcast.go:609-646 | of the feed each of the two settings that is sent is stored and one that is not stays |
| BroadcastPatches.UnnamedIsRefused | internal/domain/broadcast.go:556-655 | a request for an editable broadcast without a name, or with a null or empty one, is refused for that |
| BroadcastPatches.AcceptedIsGood | internal/domain/broadcast.go:556-655 | an accepted update leaves a valid broadcast and never touches identity, status and the rest |
| BroadcastPatches.AcceptedTwiceIsOnce | internal/domain/broadcast.go:556-655 | an accepted patch is accepted again and changes nothing more, feed included |
| BroadcastPatches.PayloadOverRuns | internal/domain/broadcast.go:609-646 | over any requests the payload is unchanged until one turns a live feed off, and gone afterwards |
| BroadcastPatches.PayloadKeptExactlyWhen | internal/domain/broadcast.go:609-646 | a payload survives exactly when no request turned a live feed off |
| BroadcastPatches.StaysGood | internal/domain/broadcast.go:556-655 | a stored broadcast stays valid whatever is sent |
| EmailQueue.EmailQueueRepository.EnqueueTx | internal/repository/email_queue_postgres.go:76-136 | inserts the whole batch or nothing |
| EmailQueue.EmailQueueRepository.MarkAsProcessing | internal/repository/email_queue_postgres.go:190-220 | takes the entry and counts the attempt, or reports that it cannot |
| EmailQueue.EmailQueueRepository.MarkAsSent | internal/repository/email_queue_postgres.go:224-238 | removes the entry and nothing else |
| EmailQueue.EmailQueueRepository.MarkAsFailed | internal/repository/email_queue_postgres.go:241-260 | sets status, error and retry date of the entry |
| EmailQueue.EmailQueueRepository.MarkAsPermanentlyFailed | internal/repository/email_queue_postgres.go:320-341 | gives the entry up and stamps when |
| EmailQueue.EmailQueueRepository.SetNextRetry | internal/repository/email_queue_postgres.go:396-419 | postpones the entry without counting an attempt, a paused one excepted |
| EmailQueue.EmailQueueRepository.ResetTerminallyFailedBySource | internal/repository/email_queue_postgres.go:344-369 | requeues exactly the given-up entries of the source and counts them |
| EmailQueue.EmailQueueRepository.DeleteTerminallyFailedOlderThan | internal/repository/email_queue_postgres.go:372-392 | sweeps exactly the expired given-up entries and counts them |
| EmailQueue.EmailQueueRepository.PauseBySource | internal/repository/email_queue_postgres.go:545-589 | pauses exactly the waiting entries of the source |
| EmailQueue.EmailQueueRepository.ResumeBySource | internal/repository/email_queue_postgres.go:557-611 | resumes exactly the paused entries of the source |
| EmailQueue.EmailQueueRepository.DeleteBySource | internal/repository/email_queue_postgres.go:564-633 | an entry survives, unchanged, exactly if it is of another source or being sent; the others are counted |
| EmailQueue.EmailQueueRepository.DeleteForEmail | internal/repository/email_queue_postgres.go:679-699 | an entry survives, unchanged, exactly if it is of another recipient |
| EmailQueueLife.Conservation | internal/domain/email_queue.go:145-249 | in every run each entry is sent, removed or still a row, as often as it was enqueued |
| EmailQueueLife.OwnerIsFixed | internal/domain/email_queue.go:145-249 | while in the queue an entry never changes source or recipient |
| EmailQueueLife.CountsPartition | internal/repository/email_queue_postgres.go:506-538 | every row of a source is in exactly one of the five counts |
| EmailQueueLife.NothingInFlightExactlyWhen | internal/domain/email_queue.go:132-135 | `InFlight()` is zero exactly when every surviving row of the source has been given up on |
| EmailQueueLife.CountsAccount | internal/domain/email_queue.go:111-135 | over a run from the empty queue, what was not sent or removed is what the counts count |
| EmailQueueLife.ComesBackExactlyWhen | internal/domain/email_queue.go:171-196 | over every run an entry given up on comes back exactly if a reset of its source, a take, a postponement or a retry of it occurs before it is deleted, and unless one does no worker is ever handed it |
| EmailQueueLife.PauseThenResume | internal/repository/email_queue_postgres.go:545-562 | pause and resume make waiting entries due and leave given-up ones and those being sent alone |
| EmailQueueLife.PausingKeepsFlight | internal/repository/email_queue_postgres.go:545-562 | neither changes how much is in flight or given up |
| EmailQueueLife.RetryMovesTerminal | internal/domain/email_queue.go:176-186 | a retry moves exactly the terminal failures into flight |
| EmailQueueLife.PausingMovesCounts | internal/repository/email_queue_postgres.go:545-589 | a pause moves what is pending or retrying to paused and nothing else |
| EmailQueueLife.ResumingMovesCounts | internal/repository/email_queue_postgres.go:557-611 | a resumption moves what is paused to pending and nothing else |
| EmailQueueLife.SourceCancelled | internal/repository/email_queue_postgres.go:564-633 | cancelling a source leaves the counts of every other source, and of its own only what is being sent |
| EmailQueueLife.RecipientForgotten | internal/repository/email_queue_postgres.go:679-699 | forgetting a recipient takes exactly that recipient's entries, and leaves the counts of every source without any |
| EmailQueueLife.SweepTakesExpired | internal/repository/email_queue_postgres.go:372-392 | the retention sweep takes exactly what was given up on longer ago, so no count of what is in flight changes |
| EmailQueueLife.FetchableFrom | internal/repository/email_queue_postgres.go:138-165 | from when on an entry can be fetched: its retry date while it has attempts left, two minutes after a worker last touched it, or never |
| EmailQueueLife.NeverFetchedExactlyWhen | internal/repository/email_queue_postgres.go:140-165 | an entry in flight is never fetched again, however long it waits, exactly when it is paused or stranded |
| EmailQueueLife.StepStrandsExactlyWhen | internal/repository/email_queue_postgres.go:241-419 | which statement strands an entry that was not: a postponement or a retry with no attempts left, a resumption of what was spent, a reset or an insert with no attempts to give |
| EmailQueueLife.NeverStrandedExactlyWhen | internal/repository/email_queue_postgres.go:76-611 | over every run no entry is ever stranded exactly while none of those steps occurs |
| EmailQueueLife.BudgetExceededExactlyWhen | internal/repository/email_queue_postgres.go:190-220 | attempts go over the maximum exactly when an entry with none left is taken |
| EmailWorkerBounds.SendsAreBounded | internal/service/queue/worker.go:251-556 | in every interleaving of n workers on stale copies with the rest of the application, an entry is sent at most as often as it was taken, and taken at most max - 1 + n times for each budget granted plus once for each fetch of the stuck row; on the first budget no more often than its row counts |
| EmailWorkerBounds.AllowanceIs | internal/service/queue/worker.go:251-556 | the bound in closed form |
| EmailWorkerBounds.OneWorkerKeepsBudget | internal/service/queue/worker.go:251-556 | one worker never sends an entry more often than its maximum, short of resets and stuck rows |
| EmailWorkerBounds.ClosedAfter | internal/repository/email_queue_postgres.go:190-220 | a take by one worker closes the row to the others, unless it takes a stuck one; only settling, or postponing a row in processing, opens it |
| EmailWorkerBounds.SettlesAsAnswered | internal/service/queue/worker.go:401-553 | what was delivered or withdrawn leaves the queue; what was refused stays with its attempts, retried later unless the refusal or the copy's count is final; nobody else's entry changes |
| EmailWorkerBounds.HandsAreBounded | internal/service/queue/worker.go:312-330 | the workers that hold an entry at once are at most one more than the stuck rows taken, the rows postponed in processing and the ids inserted again while in hand |
| EmailStranding.SendsReachTheBound | internal/service/queue/worker.go:489-495 | for every n and max a run of n workers sends an entry max - 1 + n times on one budget |
| EmailStranding.PostponedIsTakenTwice | internal/service/queue/worker.go:312-330 | a postponed row in processing is taken by a second worker while the first has yet to send |
| EmailStranding.PostponedAfterTheLastAttempt | internal/service/queue/worker.go:312-330 | two workers strand an entry of any budget: one gives it up, the other postpones it |
| EmailStranding.RetriedFromAStaleCount | internal/service/queue/worker.go:489-553 | two workers strand it by using up the last two attempts and counting from their copies |
| EmailStranding.PostponedAfterACrash | internal/service/queue/worker.go:312-330 | one worker strands it by dying on the last attempt and postponing the stuck row |
| EmailStranding.StrandsExactlyWhen | internal/service/queue/worker.go:251-556 | without resets and stuck rows some run strands an entry exactly when there is more than one worker |
| Backoff.DelayIsWrapped | internal/domain/email_queue.go:268-272 | rounding the multiplier and the product to 64 bits is rounding the intended delay once |
| Backoff.ExactWhileItFits | internal/domain/email_queue.go:268-272 | for every base, zero and negative ones included, the delay is base * 2^(attempts-1) exactly while that fits into 64 bits |
| Backoff.DelayDoublesExactlyWhen | internal/domain/email_queue.go:263-273 | the next delay is twice the last exactly while twice the last fits; the first, and that of non-positive attempts, is the base |
| Backoff.GrowsExactlyWhen | internal/domain/email_queue.go:263-273 | for a positive base the delays up to attempt n are monotone exactly when the n-th intended one fits |
| Backoff.TotalExactlyWhen | internal/domain/email_queue.go:263-273 | and the first n delays sum to (2^n - 1) times the base exactly then |
| Backoff.MinuteUpTo28 | internal/domain/email_queue.go:251-273 | with the default minute that is up to 28 attempts |
| Backoff.NoDelayFrom65 | internal/domain/email_queue.go:271-272 | from 65 attempts on the delay is zero |
| Journeys.JourneyTable.UpdateContactAutomationIfActive | internal/repository/automation_postgres.go:437-474 | writes the copy back only while the row is active, all of it but automation, recipient and entry time, and tells whether it did |
| Journeys.JourneyTable.ExitContactJourneysOnReply | internal/repository/automation_postgres.go:480-507 | exits exactly the contact's active journeys entered before, in automations that ask for it, are not deleted and, if one is named, are that one; counts them and leaves the rest |
| Journeys.EndingIsFinal | internal/domain/automation.go:804-808 | in every interleaving a journey that left `active` keeps its whole row |
| Journeys.IdentityIsFixed | internal/repository/automation_postgres.go:448-461 | automation, recipient and entry time of a journey never change |
| Journeys.EndsByOneStep | internal/repository/automation_postgres.go:437-536 | over every run a journey has ended exactly by one step: a tick's write of an ending, a reply it was entered before, or the deletion of its automation |
| Journeys.ReplyExitsExactlyWhen | internal/repository/automation_postgres.go:480-507 | in the protocol a reply changes a journey exactly under those conditions, and to what |
| Journeys.RepliesByOthersTouchNothing | internal/repository/automation_postgres.go:480-507 | any number of replies by other contacts leaves a contact's journeys as they were |
| Journeys.ReplyWins | internal/domain/automation.go:811-818 | a journey exited by a reply stays so for that reason over every later run, whatever executors had in flight |
| Journeys.DeletionExitsExactlyWhen | internal/repository/automation_postgres.go:525-537 | deleting an automation exits exactly its own active journeys |
| Journeys.AtMostTenNodes | internal/service/automation_executor.go:92-225 | over every run no tick executes more than ten nodes |
| Journeys.TickStores | internal/service/automation_executor.go:128-270 | what a tick stores for each outcome of a node, read off the rows before and after, nobody else's row changing |
| Journeys.FrozenUntilDue | internal/repository/automation_postgres.go:985-1012 | over every run a journey no tick holds is frozen while its automation is not live, and until its time has come |
| JourneyEndings.Accounting | internal/service/automation_executor.go:246-353 | over every run the announcements of a journey are its endings found outside a node's result, those of a failed result write included, and the one a node resulted in; each of the former was stored, lost, or is still to be written |
| JourneyEndings.OneStore | internal/repository/automation_postgres.go:437-474 | over every run at most one tick stores an ending of a journey |
| JourneyEndings.AnnouncedTrulyExactlyWhen | internal/service/automation_executor.go:246-353 | over every run from idle executors, once nothing is pending, a journey's end was announced at most once, and with the status and exit reason of the announcing copy stored in the row, exactly when no tick failed to store an ending it had announced; where the row's reason is NULL the event's text is the code's own word for the status |
| JourneyEndings.UntoldExactlyWhen | internal/service/automation_executor.go:161-168 | a tick has ended the journey and no announcement says what the row says exactly when the retry after a failed result write stored the ending |
| JourneyEndings.FailedWriteEndsSilently | internal/service/automation_executor.go:161-168 | any due journey with retries left has such a run, which announces nothing |
| JourneyEndings.OvertakenTickAnnounces | internal/service/automation_executor.go:304-353 | any due journey that exits on replies has a run that announces an ending never stored |
| JourneyEndings.TicksContinueFromTheRow | internal/repository/automation_postgres.go:985-1012 | over every run in which no journey is fetched while a tick works on it, each tick works on the row as it is stored |
| JourneyEndings.StaleTickMovesBack | internal/repository/automation_postgres.go:437-474 | otherwise an active journey is moved back: two ticks fetch it, one advances it, the other stores what it made of the first node |
| Activation.StatusWritesChainExactlyWhen | internal/domain/automation.go:784-789 | in every interleaving all committed status writes, undoing ones included, form one chain exactly when no undo meets a status its call did not write; and only winners touch the trigger, apart from a pause of a paused automation |
| Activation.ReportsSuccessExactlyWhen | internal/service/automation_service.go:206-453 | in every interleaving an activation or an update reports success exactly if it won its status write and no install of its own failed, a pause exactly if it dropped the trigger, whether it found the automation live or paused |
| Activation.SoloStaysArmed | internal/service/automation_service.go:206-453 | a step of a call that nobody interleaves with keeps the trigger of a live automation, its DDL failing or not |
| Activation.SerialCallsStayArmed | internal/service/automation_service.go:206-453 | any number of calls one after the other, their DDL failing or not, keep it throughout, unless an undo fails |
| Activation.AutomationService.UpdateIfStatus | internal/repository/automation_postgres.go:401-431 | writes the row only while its status is the expected one, and tells whether it did |
| Activation.AutomationService.Activate | internal/service/automation_service.go:308-378 | the call in place ends as the same call alone in the protocol, whichever of its steps fail |
| Activation.AutomationService.Pause | internal/service/automation_service.go:387-453 | the same for a pause |
| Activation.AutomationService.Update | internal/service/automation_service.go:206-254 | the same for an update |
| Activation.AloneStaysArmed | internal/service/automation_service.go:206-453 | a call made alone on an armed automation leaves it armed, unless its undo fails |
| ActivationRaces.RacesExactlyWhen | internal/service/automation_service.go:206-453 | for any number of concurrent calls whose DDL succeeds, some interleaving ends with a live automation without the trigger of its configuration exactly when the requests and the stored status are among those listed |
| ActivationRaces.RacesHappen | internal/service/automation_service.go:206-453 | each of the listed sets of requests has such an interleaving |
| ActivationRaces.PauseOvertaken | internal/service/automation_service.go:387-452 | a pause whose drop is overtaken by an activation leaves a live automation without a trigger |
| ActivationRaces.UpdatesOvertake | internal/service/automation_service.go:206-254 | two updates of a live automation can leave the trigger of the overwritten configuration |
| ActivationRaces.ActivationOvertaken | internal/service/automation_service.go:308-378 | an activation overtaken by an update installs the trigger of the overwritten configuration |
| ActivationRaces.SecondActivationOvertakes | internal/service/automation_service.go:308-452 | from a draft a second activation overtakes the pause that follows the first |
| ActivationRaces.PauseReverted | internal/service/automation_service.go:227-243 | the undo of an update whose install failed reverts a completed pause to a live automation without a trigger |
| Slugs.PassKeepsSqueezed | internal/domain/blog.go:768-770 | a collapse pass does not change what the loop ends with |
| Slugs.CollapseHyphens | internal/domain/blog.go:768-770 | the loop ends, each pass shortening the string, and leaves every run of hyphens single |
| Slugs.NormalizeSlug | internal/domain/blog.go:752-776 | the normaliser computes the composition of its passes |
| Slugs.RegexMeans | internal/domain/blog.go:26 | the regular expression, as joined words, means the character conditions |
| Slugs.SlugIsNormal | internal/domain/blog.go:752-776 | the result is empty or a word of the expression, for every input |
| Slugs.SlugsAreFixed | internal/domain/blog.go:752-776 | valid slugs are left as they are |
| Slugs.SlugIsIdempotent | internal/domain/blog.go:752-776 | normalising twice is normalising once |
| Slugs.SlugKeepsAlnums | internal/domain/blog.go:752-776 | letters and digits of the lowered input are kept, in order |
| Slugs.EmptyExactlyWhen | internal/domain/blog.go:752-776 | the result is empty exactly when there were none |
| Slugs.WordsStayApart | internal/domain/blog.go:752-776 | a blank, an underscore or a hyphen between two strings gives the slugs of both with one hyphen between, or the one that is not empty |
| Slugs.OthersVanish | internal/domain/blog.go:752-776 | any other character that is no letter and no digit in lower case makes no difference, tabs and line breaks included |
| Slugs.WordsAreLowered | internal/domain/blog.go:752-776 | letters and digits become themselves in lower case |
| Scopes.ParseRootEmails | config/root_email.go:14-30 | the loop with its set of seen entries deduplicates the fields |
| Scopes.ParseScopes | config/oidc.go:96-110 | the loop puts `openid` in front of the other scopes |
| Scopes.FieldIsMaximal | config/root_email.go:20-22 | every field is a maximal run of non-separators |
| Scopes.MaximalIsField | config/root_email.go:20-22 | every such run is a field |
| Scopes.SeparatorsSplit | config/root_email.go:20-22 | a comma, a semicolon or white space splits: the fields before it, then the fields after it |
| Scopes.OthersDoNotSplit | config/root_email.go:20-22 | a string without those is one field |
| Scopes.DedupeKeepsFirsts | config/root_email.go:18-29 | deduplication keeps every token once, in the order of first occurrence |
| Scopes.ScopesAreCanonical | config/oidc.go:94-110 | `openid` first, no duplicates, otherwise the tokens given |
| Scopes.ScopesKeepOrder | config/oidc.go:94-110 | in the order in which they were first given |
| Scopes.FieldsOfJoin | config/oidc.go:93 | splitting undoes joining |
| Scopes.StoredParsesBack | config/oidc.go:83-94 | what is stored parses to what was given, or to the default when nothing was |
| Scopes.StorageIsIdempotent | config/oidc.go:83-94 | storing a stored value changes nothing |
| Scopes.EnvironmentComesFirst | config/oidc.go:186-194 | the environment comes before the stored value, that of an installed instance before `openid email profile`, which is also what is stored when nothing was given |
| Scopes.BareOpenidExactlyWhen | config/oidc.go:186-194 | a stored value comes into force as bare `openid` exactly when there were tokens and all were `openid` |

## Left out

- DELETE on contacts and lists, and the webhook and automation-enrol triggers: no timeline trigger covers the former, the latter only read what is modelled here.
- Aborted statements: a timeline `kind` longer than its column, serialization failures and lock timeouts roll the whole write back, which is no step.
- Segment rebuilds: the membership writes of building or editing a segment, and segments whose stored SQL is missing, are not processor steps; the active segments are fixed over a run.
- Suppression.StepRaises: direct updates of the entry's status, such as a resubscription, are outside it, as they may lower it.
- NonOpeners.NonOpenersOverRuns: the segment is about messages of channel email, the only channel whose rows the tree counts; time frames other than `anytime` are not modelled.
- ContactAudit.AuditLogReplays: states columns as `changes` prints them, because the log does not tell JSON null from SQL NULL; RenderedDetermines says when that is the stored value.
- `Unsubscribe`: it compares the addresses of two local variables and removes nothing.
- Publishing without a callback, which waits for nobody; the deadline of five seconds is no clock: it may pass at any moment, and does pass for a handler that never returns.
- `sync.WaitGroup` misuse: the panic of an `Add` that races a returning `Wait` on reuse is not modelled, only the counter.
- The rest of `Shutdown`: closing listeners, the timeout, and cleanup after it.
- Aliasing of a request's feed settings with the stored broadcast's: both are values here, and the request is dropped after the call.
- Case-insensitive matching of JSON keys and repeated keys: a body carries each key at most once, by its exact name.
- `ValidateFeedURL` and the time-zone database: parameters.
- Order and limit of `FetchPending`, the worker's rate limits, and when its circuit breaker opens: which fetchable rows are fetched, and whether the worker postpones, is left open. An entry whose integration is gone counts as sent once per take, though no mail goes out.
- EmailWorkerBounds.SendsAreBounded: counts hand-overs to the provider; whether the provider delivers is outside it.
- Errors of the database inside an executor tick other than those of the write of its copy and of the nodes, an error reported for a write that did happen, node logs and statistics; a tick that goes on with no current node, which the code dereferences, is stuck here.
- Activation.SerialCallsStayArmed: leaves out an undo that fails, after which nothing in the code repairs the row; deletion of automations is left out as well.
- Activation.StatusWritesChainExactlyWhen: the status write and the drop of the trigger are steps that fail or happen as a whole; the drop's two statements are not told apart, and an error of the database on the status write, which ends the call with nothing changed, is no step.
- Timeline rows the application inserts itself (`automation.start` and `automation.end`, the projection of web analytics), which fire the queue trigger like those of the triggers.
- Invalid UTF-8 in slugs, and which code points the Unicode tables call lower case or white space.
- The other fields of the OIDC configuration: each is the environment's value or the stored one.
