# MailMan's send protocol, proved

MailMan mails campaigns from two sides. A terminal plans who gets what, pushes encrypted packs to a
cloud table in chunks, and books what was acknowledged in its own database. A cloud dispatcher claims
each pack, hands it to a mail provider, and writes down the outcome, which flows back to the terminal.
Requests are lost half-way, queues repeat messages, workers die or finish late, operators press twice.
The programs here model that protocol, the schedule it sends by, the cursors and merges that carry
outcomes, events and unsubscribes, and the scheduler that launches campaigns and stages, and prove what
they are for: above all that the provider accepts at most one mail per campaign, generation and contact.

## Modules

| file | what it holds |
|---|---|
| `PackStore.dfy` | pack ids; the pack table with its conditional writes, the stale-claim sweep, cancel by campaign |
| `CloudMachine.dfy` | the cloud as a transition system: many workers, duplicate messages, late finalisers, a provider trusted only for 4xx |
| `Desk.dfy` | the terminal's job and recipient rows, the planner, recording, outcomes |
| `Terminal.dfy` | the cloud's intake, the chunked push, and the press's bookkeeping, with their loops |
| `SendProtocol.dfy` | both sides together, with any number of presses; at-most-once and Re-launch control over all runs |
| `PressRuns.dfy`, `PressAmong.dfy` | what the press's loops compute is a run of that protocol, alone and with others acting between its requests |
| `RetryDiscipline.dfy` | exactly when a contact gets a second pack without Retry failed, and a run where it happens |
| `Recovery.dfy` | interrupted sends, finished later, end as one uninterrupted send does |
| `Dispatcher.dfy`, `DispatchAmong.dfy` | the dispatcher's batch loop, redelivery, and its refinement of the cloud machine, alone and with others acting between its steps |
| `SendSchedule.dfy`, `SendPacing.dfy` | the send-time scheduler over daily windows, exactly which settings give every send a time, and how far apart a sender's sends are |
| `TimeText.dfy` | the calendar, and the texts that instants are stored and compared as |
| `BatchBuild.dfy` | seed salting, pairing targets with times, and the batch press built from them |
| `BatchDispatch.dfy` | one batch press end to end, and what its interrupted-dispatch marker guarantees over repeated presses |
| `TextOrder.dfy`, `PackIdText.dfy` | text order, zero padding, ':'-joined fields; the text hashed into a pack id |
| `EventCursor.dfy` | the event log and its text-keyed cursor |
| `OutcomeCursor.dfy`, `OutcomePolls.dfy` | the outcome poll: paged reads, cursor text, settle bound; runs of polls that read one partition after another |
| `Unsubscribes.dfy` | the unsubscribe cache, log, merge, and what they block |
| `RetryStreak.dfy` | the 24-hour rule for unexpected launch errors |
| `Lifecycle.dfy`, `LifecycleRuns.dfy` | campaign and stage states; one scheduler pass; runs with operators and presses |

`dafny verify dfyconfig.toml` checks everything.

Times are whole microseconds where fractions matter (`SendSchedule`, `RetryStreak`), texts where the code
compares texts (the cursors), and plain numbers elsewhere. A daily window is an interval on a calendar of
ordered dates, so a time zone enters only through `Calendar.Valid`; for fixed offsets `FixedZoneFits` says
exactly which settings satisfy it. Random gaps are arbitrary values in their ranges. A conditional table
write is one step, a database transaction is all or nothing, and every read may be stale by the time it is used.

## What turned out false

Where the code does not do what its comments or tests suggest, the code was kept and the failure proved.

* `_plan_sends` says a second pack in a generation goes only to a contact the operator reset. Two Re-launch
  presses that both read the contact as queued, with the first pack failing while the second press still waits
  for its key and the generation left open, send a second pack without any reset
  (`RetryDiscipline.StaleReadSendsAgain`). It happens exactly when a press plans from a row it read as queued whose
  first pack is by then recorded as failed or cancelled (`RetryDiscipline.SecondPackExactly`). At-most-once holds
  either way.
* `list_resolved_packs` reads each status partition "in full" only while fewer than `work_cap` rows precede
  its last page. Beyond that the last page is never read, whatever the cursor (`OutcomeCursor.ReadInFullExactly`,
  `OutcomePolls.LastPageBehindTheCap`).
* Numbering an event and writing it are two steps, so an event can become readable behind the cursor and is
  then never pulled (`EventCursor.TwoWritersLeaveAGap`); pulling is gap-free exactly when that does not happen.
* A promotional and an `all` unsubscribe of one address in one second can leave the log below the cache
  (`Unsubscribes.SameSecondLosesUpgrade`). However calls overlap, log and cache agree in the end exactly when each
  address that asked for `all` has a second whose last log write asked for `all`
  (`Unsubscribes.OverlapsAgreeExactly`). A suppression added by hand does not stop transactional mail to an
  address that already has a promotional unsubscribe (`Unsubscribes.AddingBlocksExactly`).
* The streak start is stored in whole seconds, so a campaign can be failed up to one second before 24 hours are
  over (`RetryStreak.FailsEarly`, `RetryStreak.GivesUpAtADay`).
* `compute_send_ats` returns fewer times than asked when its guard fires, and `dispatch_batch` then drops the
  recipients without a time. With fixed `sender_count` and `daily_cap` every schedule of n sends is complete exactly
  when there is no cap or n + senders * ((n - 1) / cap) is at most 8n + 2000
  (`SendSchedule.ExactlyNForAll`, `BatchBuild.ShortScheduleDropsTargets`); a negative cap sends nothing
  (`SendSchedule.NegativeCapSendsNothing`).
* Archiving a campaign while a launch waits for its key is overwritten by the launch, and the mail goes out
  (`LifecycleRuns.LaunchOverwritesArchive`). Archiving stops a campaign's mail exactly when nothing that passed its
  checks is still under way (`LifecycleRuns.ArchiveStopsMailExactly`).
* A slow worker may overwrite an expired `unknown` (`CloudMachine.LateFinaliserOverwritesUnknown`); the
  guarantees below hold with that write in the model.

## Model

| member | source | states |
|---|---|---|
| PackStore.PackTable.PutPack | src/mailman/cloud/dynamo.py:422-459 | a pack id already stored is refused and its row left as it is; a new one is stored pending |
| PackStore.PackTable.ClaimPack | src/mailman/cloud/dynamo.py:468-483 | succeeds exactly on a pending pack, which becomes claimed; any other table is unchanged |
| PackStore.PackTable.CancelPack | src/mailman/cloud/dynamo.py:761-777 | succeeds exactly on a pending pack, which becomes cancelled without its payload |
| PackStore.PackTable.UpdatePack | src/mailman/cloud/dynamo.py:486-498 | writes whatever the status was, and stamps the resolve time |
| PackStore.PackTable.ExpireStaleClaims | src/mailman/cloud/dynamo.py:820-855 | over all pages, keeps the claims older than the age given and, up to the limit, turns each into unknown if the same claim still stands, and counts them |
| PackStore.ExpireListedOnlyClaims | src/mailman/cloud/dynamo.py:820-855 | the sweep changes nothing but claims it listed, and those only to unknown, at most `limit` of them |
| PackStore.ExpireListedClears | src/mailman/cloud/dynamo.py:820-855 | below the limit every listed claim that still stands is expired |
| PackStore.SweepSparesYoung | src/mailman/cloud/dynamo.py:820-855 | whatever the index shows, no claim younger than older_than_s is expired |
| PackStore.SweepClearsOld | src/mailman/cloud/dynamo.py:820-855 | a sweep below its limit makes unknown every old claim the index lists |
| PackStore.ClaimExpiresWhenOld | src/mailman/cloud/dynamo.py:468-483 | a pack claimed at t is expired by a sweep that lists it, below its limit, exactly from the given age after t on |
| PackStore.PackTable.CancelPendingForCampaign | src/mailman/cloud/dynamo.py:515-542 | filters the pending partition by campaign, cancels page by page and returns the number of packs it moved |
| PackStore.CancelListedExact | src/mailman/cloud/dynamo.py:515-542 | of the listed packs exactly those still pending become cancelled, every other row is untouched, and the count is theirs |
| PackStore.CampaignCancelExact | src/mailman/cloud/dynamo.py:515-542 | no other campaign's pack is touched, and each listed pending pack of the campaign is cancelled |
| CloudMachine.NextKeepsInv | src/mailman/cloud/dispatcher_lambda.py:120-176 | every interleaving of claims, posts, finalisers, crashes, sweeps and cancels keeps one holder per claim and each pack posted at most once |
| CloudMachine.NextFollowsEdges | src/mailman/cloud/dynamo.py:468-498 | rows never vanish; the only moves are pending to claimed or cancelled, and claimed or unknown to a resolved status |
| CloudMachine.FinalStatusStays | src/mailman/cloud/dynamo.py:486-498 | sent, failed, stuck_no_key and cancelled survive every later step, late finalisers included |
| CloudMachine.BookedAsAnswered | src/mailman/cloud/dispatcher_lambda.py:209-247 | over any run a posted pack reads sent only if its post was answered 2xx and failed only if 4xx; after a 5xx or no answer it reads neither |
| CloudMachine.SentWasAnswered2xx | src/mailman/cloud/dispatcher_lambda.py:209-263 | in any reachable state a row that says sent has a post that was answered 2xx |
| CloudMachine.PostedAtMostOnce | src/mailman/cloud/dispatcher_lambda.py:120-176 | in a whole run no pack is posted twice, whatever the queue repeats |
| CloudMachine.CancelledIsNeverPosted | src/mailman/cloud/dynamo.py:761-777 | a pack whose cancel succeeded was not posted and never will be |
| CloudMachine.DeadIsNeverAccepted | src/mailman/cloud/dispatcher_lambda.py:209-247 | a pack failed, stuck or cancelled was not accepted by the provider and never will be |
| CloudMachine.LateFinaliserOverwritesUnknown | src/mailman/cloud/dispatcher_lambda.py:250-263 | a finaliser that comes after the sweep replaces the unknown it left |
| Desk.PlanPartitions | src/mailman/terminal/launch.py:541-568 | every candidate is sent, already recorded or suppressed, exactly one of the three, and sends keep candidate order |
| Desk.PlanExactly | src/mailman/terminal/launch.py:541-568 | sent to are exactly the unblocked candidates whose next pack is the first of the slot or follows a failed or cancelled one while they are queued, each with that pack; suppressed are exactly the blocked, with their reason; the rest count as recorded |
| Desk.PlanIdsFresh | src/mailman/terminal/launch.py:558-567 | the planned ids are distinct and none is recorded |
| Desk.OrdinalsFit | src/mailman/terminal/launch.py:558-562 | n recorded ordinals of a contact need n recorded jobs |
| Desk.PlanSends | src/mailman/terminal/launch.py:541-568 | the planner's loops compute the plan and never raise the stuck error |
| Desk.RecordAllExact | src/mailman/terminal/launch.py:802-823 | a recording commits exactly when no id is recorded or repeated; then precisely the contact ids gain jobs, precisely their recipients become sent, and seeds leave no row |
| Desk.ApplyHeldKeeps | src/mailman/terminal/launch.py:826-841 | applying held outcomes adds no row and touches only the jobs and recipients of the held packs |
| Desk.OutcomeExactly | src/mailman/terminal/sync_client.py:350-387 | a sent pack completes its job and marks an unengaged recipient sent, any other resolved pack fails both, an unknown one and everything else change nothing |
| Desk.RetryAfterOutcome | src/mailman/terminal/sync_client.py:350-387 | after an outcome and Retry failed the contact waits again exactly when the mail was not handed over and the contact is not engaged, or an unknown outcome left them queued or failed |
| Terminal.PacksPush | src/mailman/cloud/packs.py:83-106 | the intake loop over the table computes the intake of the request |
| Terminal.IntakeRows | src/mailman/cloud/packs.py:83-104 | every submitted pack ends up stored, new ones pending, and nothing stored before is rewritten |
| Terminal.IntakeStores | src/mailman/cloud/packs.py:83-104 | a pack new to the table is stored pending with the campaign and the send time it was submitted with |
| Terminal.IntakeCounts | src/mailman/cloud/packs.py:79-106 | each submitted pack is counted once, accepted or held, and an accepted one once, enqueued or deferred |
| Terminal.IntakeEnqueues | src/mailman/cloud/packs.py:83-104 | exactly the newly stored packs that are due count as enqueued |
| Terminal.IntakeHeld | src/mailman/cloud/packs.py:98-104 | a held pack is reported with the status the table has for it |
| Terminal.PushLands | src/mailman/terminal/launch.py:772-799 | however a push ends, exactly a prefix of the packs is stored and no stored row is touched |
| Terminal.PushStores | src/mailman/terminal/launch.py:772-799 | however a push ends, each pack it stored has the campaign and send time it was sent with |
| Terminal.PushReports | src/mailman/terminal/launch.py:772-799 | what the terminal is told lies within what landed, and the totals of an answered push add up over its chunks |
| Terminal.PushEnqueues | src/mailman/terminal/launch.py:772-799 | an answered push reports as enqueued exactly the packs it stored that are due |
| Terminal.PushPacks | src/mailman/terminal/launch.py:772-799 | the chunk loop against the table is the push, lost requests included |
| Terminal.BookedTells | src/mailman/terminal/launch.py:844-882 | a press that recorded has also applied what the cloud told of packs it held already, whether or not the push got through, and succeeds only if it was answered to the end |
| Terminal.Desktop.RecordDispatch | src/mailman/terminal/launch.py:802-823 | all rows or none: a repeated id or a failed commit leaves every row as it was |
| Terminal.Desktop.ApplyPackOutcome | src/mailman/terminal/sync_client.py:348-391 | an outcome sets its job and its recipient unless the recipient is engaged; unknown sets neither |
| Terminal.Desktop.ApplyHeldOutcomes | src/mailman/terminal/launch.py:826-841 | resolved held packs have their outcomes applied in order, pending ones do not |
| Terminal.Desktop.RetryFailedRecipients | src/mailman/terminal/routes_admin.py:879-902 | exactly the failed recipients of the campaign wait again, and their number is returned |
| Terminal.Desktop.PushAndRecord | src/mailman/terminal/launch.py:844-882 | the rows and the table end as push, record and held outcomes say, on every failure path, and the in-flight counter is restored |
| SendProtocol.NextKeepsInv | src/mailman/terminal/launch.py:844-882 | every step of the two-sided protocol keeps jobs backed by packs, ordinals settled and plans consistent |
| SendProtocol.PressPlansExactly | src/mailman/terminal/launch.py:541-568 | a press plans under its stage, its generation or the campaign's latest one exactly the due pack of each candidate that is not blocked |
| SendProtocol.RecordExactly | src/mailman/terminal/launch.py:802-823 | recording books exactly the acknowledged ids, all or none; the press may close its generation exactly if that was its whole plan |
| SendProtocol.OrdinalInvariant | src/mailman/terminal/launch.py:558-567 | if the cloud holds ordinal b, every smaller ordinal is held, recorded failed or cancelled, and dead in the cloud |
| SendProtocol.OneLivePack | src/mailman/terminal/launch.py:541-568 | two packs of one contact and generation are never both alive, even when presses plan from stale reads |
| SendProtocol.AtMostOnce | src/mailman/terminal/launch.py:541-568 | over every interleaving the provider accepts at most one mail per campaign, generation and contact |
| SendProtocol.GenerationsOpenOneAtATime | src/mailman/terminal/launch.py:607-616 | a generation opens only while none is open, one at a time, and nothing else starts one; only a press of it closes it, or a clearing cancel while nothing of the campaign is being pushed; a Re-launch press counts exactly when it names the current seq or none |
| SendProtocol.ExpectedSeqCarriedOnce | src/mailman/terminal/launch.py:591-604 | of all presses carrying one expected_seq at most one is carried out |
| SendProtocol.StalePressRefused | src/mailman/terminal/launch.py:591-604 | once any Re-launch press was carried out after a page was loaded, a press carrying the seq that page showed changes nothing, at any later moment of the run |
| SendProtocol.GenerationsArePressed | src/mailman/terminal/launch.py:607-616 | opened generations never outnumber the Re-launch presses carried out |
| SendProtocol.MailsPerContact | src/mailman/terminal/launch.py:393-409 | over any run a contact of a campaign gets at most 1 + relaunch_gen + (stages ever created) accepted mails, and relaunch_gen is at most relaunch_seq |
| PressRuns.IntakeRun | src/mailman/cloud/packs.py:83-104 | one request's intake is a sequence of protocol steps, and every held status it reports has been seen |
| PressRuns.PushRun | src/mailman/terminal/launch.py:772-799 | the chunked push, seeds included, is a protocol run, and what the terminal knows at its end is what the protocol acknowledged |
| PressRuns.SeedsLeaveNoRow | src/mailman/terminal/launch.py:802-810 | recording a list with seeds books exactly its contact packs |
| PressRuns.PushAndRecordIsARun | src/mailman/terminal/launch.py:844-882 | whatever is lost, part-stored or not committed, the press's effect on rows and table is that of a protocol run |
| PressRuns.BatchPressIsARun | src/mailman/terminal/launch.py:915-993 | a batch press, from reading the queued rows to recording, is a protocol run |
| PressAmong.PushAndRecordAmongOthers | src/mailman/terminal/launch.py:844-882 | with any steps of other presses, outcomes and the cloud between its requests and before it records, a press's push and record is still a protocol run; each request's intake is of the table it met, and the press books by what those answers told it |
| PressAmong.ServedAlone | src/mailman/terminal/launch.py:772-799 | with nobody else acting, those requests and answers are the terminal's push |
| PressRuns.ReachedByRun | src/mailman/terminal/launch.py:844-882 | a state a press reaches ends a longer run, so all that holds over runs holds after it |
| RetryDiscipline.StaleExactly | src/mailman/terminal/launch.py:548-567 | while only first packs are recorded, a press plans a second one exactly when an unblocked contact it read as queued has its first pack recorded failed or cancelled |
| RetryDiscipline.SecondPackExactly | src/mailman/terminal/launch.py:541-568 | a run without Retry failed plans a second pack for some contact exactly when some press plans from such a stale read |
| RetryDiscipline.OnePackWithoutStale | src/mailman/terminal/launch.py:541-568 | without Retry failed and stale reads, every contact pack ever stored has ordinal 0 |
| RetryDiscipline.OnePackWithoutRetry | src/mailman/terminal/launch.py:541-568 | in particular when each contact read as queued is still queued as the press plans |
| RetryDiscipline.StaleReadSendsAgain | src/mailman/terminal/launch.py:541-568 | a complete run without Retry failed that stores a second pack for a contact, in which a press that opens a generation plans in the very next step |
| Recovery.PlanIsDue | src/mailman/terminal/launch.py:541-568 | a press plans exactly the due ids, each once, none recorded |
| Recovery.OnePress | src/mailman/terminal/launch.py:844-882 | whatever breaks in a press, some due ids land, some of those are recorded, and exactly the rest is due again |
| Recovery.HistoryAccounted | src/mailman/terminal/launch.py:844-882 | after any number of interrupted presses, with lost requests landing late and statuses moving in between, recorded and still-due ids together are the original plan |
| Recovery.FinishedSendIsComplete | src/mailman/terminal/launch.py:885-993 | once a press gets through, the cloud and the jobs have gained exactly the ids that were due at the start |
| Recovery.RecoveryEquivalence | src/mailman/terminal/launch.py:772-882 | an interrupted and an uninterrupted send of the same roster end with the same packs and the same jobs |
| Recovery.RecordedOnce | src/mailman/terminal/launch.py:802-823 | a press never rewrites a job an earlier press recorded |
| Recovery.AnsweredPressFinishes | src/mailman/terminal/launch.py:844-882 | with the database up a press succeeds exactly when its push does |
| Dispatcher.Worker.Process | src/mailman/cloud/dispatcher_lambda.py:120-176 | one pack: skip unless pending and claimed, give up without key or plaintext, else post and finalise |
| Dispatcher.Worker.Handle | src/mailman/cloud/dispatcher_lambda.py:77-117 | the nested group loops do what one flat pass over the records does, whatever the group sizes |
| Dispatcher.ProcessExactly | src/mailman/cloud/dispatcher_lambda.py:120-176 | a pending pack that can be sent is posted once and reads sent exactly on 2xx, failed exactly on 4xx, unknown exactly on 5xx or no answer, when and only when the invocation stops; without key it is stuck with its payload, undecryptable or without API key failed without it, and neither is posted |
| Dispatcher.DrainBooks | src/mailman/cloud/dispatcher_lambda.py:77-117 | after a delivery every pack it posted reads as its post was answered, and the delivery stopped exactly if some post came back with a 5xx or not at all |
| Dispatcher.DrainCountsTaken | src/mailman/cloud/dispatcher_lambda.py:77-117 | processed are exactly the packs the delivery took out of pending, the one it stopped at aside |
| Dispatcher.DrainCountsAll | src/mailman/cloud/dispatcher_lambda.py:77-117 | every well-formed record is processed once, in order; the three counts sum to the number of records |
| Dispatcher.DrainStopsAt | src/mailman/cloud/dispatcher_lambda.py:279-283 | a stopped invocation got exactly as far as the record whose send came out unknown |
| Dispatcher.RestUntouched | src/mailman/cloud/dispatcher_lambda.py:279-283 | the packs of the records behind an unknown send keep their rows and are not posted |
| Dispatcher.DeliveriesPostOnce | src/mailman/cloud/dispatcher_lambda.py:77-117 | any number of deliveries, whole batches again or mixed, posts no pack twice |
| Dispatcher.StopsMakeProgress | src/mailman/cloud/dispatcher_lambda.py:279-283 | each stop uses up a pending pack of the batch |
| Dispatcher.StopsAreBounded | src/mailman/cloud/dispatcher_lambda.py:279-283 | of all deliveries of one batch at most as many stop as it had pending packs |
| Dispatcher.ProcessRefinesMachine | src/mailman/cloud/dispatcher_lambda.py:120-176 | processing one pack is a claim, then giving up or posting and finalising, on the cloud machine |
| Dispatcher.DrainIsARun | src/mailman/cloud/dispatcher_lambda.py:77-117 | a whole delivery by one worker is a run of the cloud machine |
| Dispatcher.ProcessAmongOthers | src/mailman/cloud/dispatcher_lambda.py:120-176 | with any steps of other workers, sweeps and cancels between claim, post and finalise, the worker can go through with all three, the whole is a run of the machine, and its own outcome ends in the row |
| DispatchAmong.AmongKeeps | src/mailman/cloud/dispatcher_lambda.py:77-176 | however others act between any two steps of a whole delivery, at every moment each record behind the current one is counted once, every final status the invocation wrote still stands, and it has posted no pack twice |
| DispatchAmong.AmongOthersIsARun | src/mailman/cloud/dispatcher_lambda.py:77-176 | the whole delivery with whatever happens in between is a run of the cloud machine |
| DispatchAmong.NeverBlocked | src/mailman/cloud/dispatcher_lambda.py:77-176 | until it is over the invocation has a next step that nobody can disable, and at most three a record |
| DispatchAmong.AloneIsDrain | src/mailman/cloud/dispatcher_lambda.py:77-117 | with nobody else acting the interleaved invocation does what the batch loop does |
| SendSchedule.FixedZoneFits | src/mailman/terminal/send_schedule.py:57-61 | a fixed-offset zone gives disjoint daily windows exactly when 0 <= start_hour, 1 <= window_hours and they end by midnight |
| SendSchedule.NextWindowIsLeast | src/mailman/terminal/send_schedule.py:63-74 | next_window gives the least in-window instant not before its argument |
| SendSchedule.FindNextWindow | src/mailman/terminal/send_schedule.py:63-74 | the day search finds that window at once and never raises |
| SendSchedule.NextWindowOpenAfter | src/mailman/terminal/send_schedule.py:120-136 | the least opening strictly after the instant |
| SendSchedule.SendTimesFit | src/mailman/terminal/send_schedule.py:87-115 | at most n times, already in order, each in a window and not before the start, no date above a positive cap |
| SendSchedule.FlooredTimesFit | src/mailman/terminal/send_schedule.py:24-25 | flooring to seconds keeps order, window and date, and the floored start bounds it |
| SendSchedule.ExactlyN | src/mailman/terminal/send_schedule.py:87-93 | exactly n times without a cap, or when n + senders * ((n-1) / cap) is within the guard |
| SendSchedule.GaplessExactly | src/mailman/terminal/send_schedule.py:87-115 | with zero gaps and a start at an opening, on every calendar, n times come back exactly when that bound holds |
| SendSchedule.ExactlyNForAll | src/mailman/terminal/send_schedule.py:87-115 | for given sender_count and daily_cap, every calendar, gaps and start give n times exactly when that bound holds |
| SendSchedule.SevenCapsSuffice | src/mailman/terminal/send_schedule.py:87-93 | exactly n times whenever sender_count is at most 7 * daily_cap |
| SendSchedule.TooManySenders | src/mailman/terminal/send_schedule.py:87-93 | with more senders than the guard allows passes, all starting on one date, at most daily_cap times come back |
| SendSchedule.CrowdedForEveryDraw | src/mailman/terminal/send_schedule.py:76-93 | that is so for every draw of gaps when the first window holds the stagger |
| SendSchedule.NegativeCapSendsNothing | src/mailman/terminal/send_schedule.py:97-100 | a negative cap yields the empty list |
| SendSchedule.WindowDensity | src/mailman/terminal/send_schedule.py:103-115 | a window of length L holds at most senders * ceil(L / g) sends, g the shortest gap |
| SendPacing.GapsKept | src/mailman/terminal/send_schedule.py:105-114 | two consecutive sends of one sender in one window lie between jitter_min and jitter_max seconds apart before the last rush_tail minutes, and between half and one and a half rush_jitter from there on |
| SendPacing.WindowsLeftOnlyWhenOver | src/mailman/terminal/send_schedule.py:98-117 | a sender leaves a window only when its gap reaches the close or the date is full, and next sends at the opening of a later date, every date between being full |
| SendPacing.FirstSends | src/mailman/terminal/send_schedule.py:77-86 | a sender's first send is its share of jitter_min into the first window, or at a later opening if that lies past the close or the date is full |
| TimeText.DateOrder | src/mailman/terminal/send_schedule.py:24-25 | days compare as their dates do, field by field |
| TimeText.DateIs | src/mailman/terminal/send_schedule.py:24-25 | a day has the date whose year and month span it, and no other |
| TimeText.TextOrderIsTimeOrder | src/mailman/terminal/send_schedule.py:24-25 | in four-digit years formatted texts are ordered as their instants are, and tell instants apart |
| TimeText.TextsAscendExactly | src/mailman/terminal/send_schedule.py:116-117 | a list of formatted texts is in order exactly when its instants are |
| TimeText.SortTextsIsIdentity | src/mailman/terminal/send_schedule.py:116-117 | the final sort leaves texts that are in order as they are |
| SendSchedule.EmissionPrintsInOrder | src/mailman/terminal/send_schedule.py:91-117 | the emitted times print in order, so sorting the texts changes nothing |
| SendSchedule.EmitTimes | src/mailman/terminal/send_schedule.py:55-115 | the loop over the sender cursors computes the schedule and never fails to find a window |
| SendSchedule.ComputeSendAts | src/mailman/terminal/send_schedule.py:28-117 | returns the sorted texts of the schedule, in emission order, for schedules within four-digit years |
| BatchBuild.SaltSeeds | src/mailman/terminal/launch.py:965-972 | inserting seeds one by one at i * (step + 1), clamped, builds the closed-form interleaving |
| BatchBuild.SaltedInterleaves | src/mailman/terminal/launch.py:965-972 | recipients keep their order, and every recipient and every seed appears exactly once |
| BatchBuild.EvenSpacing | src/mailman/terminal/launch.py:969-972 | with at least as many recipients as seeds, each seed is followed by exactly floor(R/S) recipients |
| BatchBuild.EveryTargetIsPacked | src/mailman/terminal/launch.py:974-980 | with enough send times the contact packs are the planned ids in order, each once |
| BatchBuild.BatchPressesPlan | src/mailman/terminal/launch.py:947-980 | schedule, salting and pairing together push exactly the plan, whenever the settings are enough for the batch |
| BatchBuild.ShortScheduleDropsTargets | src/mailman/terminal/launch.py:974-980 | for given sender_count and daily_cap, every schedule gives each target a pack exactly when the settings are enough for the batch |
| BatchDispatch.BatchDesk.DispatchBatch | src/mailman/terminal/launch.py:915-993 | the press of a batch, write by write: refusals change nothing; otherwise suppressed recipients are closed, and the batch is loaded, closed empty, or left marked by a push that broke |
| BatchDispatch.DispatchExactly | src/mailman/terminal/launch.py:915-993 | an archived campaign is refused first, then a batch with nobody waiting and no marker, then one that cannot be sent, each without a write; else the batch row is left sending, drained or marked as the push ended |
| BatchDispatch.LoadedWindow | src/mailman/terminal/launch.py:960-993 | a loaded batch shows the time of its first and of its last send |
| BatchDispatch.DispatchReports | src/mailman/terminal/launch.py:935-993 | a press reports as suppressed the blocked members still waiting, as recipients the due packs, and of an empty batch everyone else waiting as recorded |
| BatchDispatch.ClosedExactly | src/mailman/terminal/launch.py:943-944 | before the send exactly the blocked members that still wait are marked cancelled |
| BatchDispatch.EmptiedCloses | src/mailman/terminal/launch.py:943-949 | of a batch with nothing to push that is all a press does to the rows, and it pushes nothing |
| BatchDispatch.ClosingIsUndisturbed | src/mailman/terminal/launch.py:631-640 | closing suppressed recipients moves nothing the send still owes |
| BatchDispatch.SameSends | src/mailman/terminal/launch.py:938-945 | the plan after closing the suppressed is the plan before it |
| BatchDispatch.UnrecordedIsMarked | src/mailman/terminal/launch.py:982-988 | however presses break, a pack of the batch in the cloud without a job means dispatch_started_at is set, so Re-launch finishes the batch instead of resending |
| BatchDispatch.LoadedIsComplete | src/mailman/terminal/launch.py:885-993 | the press that loads or closes the batch clears the marker, and by then exactly the ids due at the start were added to the cloud and booked |
| BatchDispatch.DrainedMeansUntouched | src/mailman/terminal/launch.py:652-669 | a batch closes at once as drained only if no dispatch was under way and every queued member is suppressed |
| TextOrder.PaddedOrderExact | src/mailman/cloud/dynamo.py:153-154 | text order of ids padded to w digits is numeric order up to a bound exactly when the bound is below 10^w |
| PackIdText.PackTextInjective | src/mailman/terminal/launch.py:489-495 | the hashed text gives back campaign, creation time, send key, contact and ordinal, though fields contain ':' |
| PackIdText.OrdinalSearchEnds | src/mailman/terminal/launch.py:558-562 | with an injective hash the ordinal search needs at most one probe per recorded job, so the stuck error is unreachable |
| EventCursor.PageIsNumeric | src/mailman/cloud/dynamo.py:175-185 | a page past the text cursor is the next readable ids in numeric order, none skipped |
| EventCursor.NextKeepsInv | src/mailman/cloud/sync.py:57-70 | every publication, pull and cut-short pull keeps: readable ids up to the cursor were pulled once, in order, or were published behind it |
| EventCursor.GapFreeExactly | src/mailman/cloud/dynamo.py:141-172 | pulling never leaves a gap exactly when no event becomes readable behind the cursor |
| EventCursor.MissedForGood | src/mailman/terminal/sync_client.py:217-236 | an event published behind the cursor is never pulled |
| EventCursor.InOrderLogIsEnumerated | src/mailman/cloud/dynamo.py:175-185 | ids readable in order are pulled exactly once with no gap, for any page sizes, until pulled is the sorted log |
| EventCursor.TwoWritersLeaveAGap | src/mailman/cloud/dynamo.py:128-172 | a run in which two writers leave a gap |
| OutcomeCursor.CursorRoundTrip | src/mailman/cloud/dynamo.py:803-805 | a rendered cursor splits back into its time and pack id exactly when the time has no '#' |
| OutcomeCursor.NeededTells | src/mailman/cloud/dynamo.py:803-817 | a poll is after the outcomes later than its cursor in time and then pack id, strictly later for a bare time, and none above the bound; a pack's time is when it resolved, else when it was enqueued |
| OutcomeCursor.PrefilterIsSafe | src/mailman/cloud/dynamo.py:561-570 | the index filter never hides a row past the cursor |
| OutcomeCursor.PrefilterLosesNothing | src/mailman/cloud/dynamo.py:561-574 | filtering after the index filter finds what filtering every row would |
| OutcomeCursor.ReadInFullExactly | src/mailman/cloud/dynamo.py:558-573 | a partition is read to its end exactly when fewer than work_cap rows precede its last page |
| OutcomeCursor.SmallPartitionsReadInFull | src/mailman/cloud/dynamo.py:558-573 | a partition is read to its end exactly when fewer than 2000 rows, or than four times the limit, precede its last page |
| OutcomeCursor.ReadPartition | src/mailman/cloud/dynamo.py:560-573 | the page loop stops at the first page where work_cap rows were scanned, or at the last |
| OutcomeCursor.ListResolvedPacks | src/mailman/cloud/dynamo.py:545-576 | the least rows past the cursor and settled among those read, in key order, as many as the slice keeps, negative limits included |
| OutcomePolls.SpreadReadCovers | src/mailman/cloud/dynamo.py:545-576 | although the five partitions are read at five moments and rows move between them, under the settle rule every current row past the cursor and not above the bound is in the answer, or the answer is full and lies below it |
| OutcomePolls.LateForGood | src/mailman/cloud/dynamo.py:545-576 | a row that comes late into a partition already read is never delivered once the poll's new cursor lies at or past it |
| OutcomePolls.LastPageBehindTheCap | src/mailman/cloud/dynamo.py:558-573 | once work_cap rows precede the last page, none of its rows is ever read |
| OutcomePolls.PollsAccountForRows | src/mailman/cloud/packs.py:109-118 | over any run deliveries strictly ascend in outcome order, and a row at or below the cursor was delivered as it stands, landed behind it, or came late into a poll under way |
| OutcomePolls.PollingLosesNothing | src/mailman/cloud/dynamo.py:798-817 | if resolves not yet readable when a poll takes its bound are stamped after it, every current row at or below the cursor has been delivered as it stands, whatever moves between partitions while they are read |
| OutcomePolls.ShortPollDrains | src/mailman/cloud/packs.py:109-118 | a saved poll below its limit has delivered every settled row there is when it ends |
| OutcomePolls.DeliveredOnceInOrder | src/mailman/terminal/sync_client.py:446-454 | no outcome is delivered twice, and a pack's later outcome comes later |
| OutcomePolls.MissedForGood | src/mailman/cloud/dynamo.py:782-785 | a resolve readable only behind the cursor is never delivered |
| OutcomePolls.DeliveredWasCurrent | src/mailman/cloud/dynamo.py:545-576 | every delivered outcome stood in the table when its partition was read |
| Unsubscribes.UnsubStore.PutUnsub | src/mailman/cloud/dynamo.py:673-718 | the cache takes the wider scope, and a new or an 'all' call logs itself |
| Unsubscribes.CallsAgree | src/mailman/cloud/dynamo.py:673-718 | after any completed calls no log row exceeds the cache and some log row reaches it, for every address |
| Unsubscribes.CacheIsJoin | src/mailman/cloud/dynamo.py:673-718 | the cache holds the widest scope ever asked for |
| Unsubscribes.SuppressionList.MergeUnsubs | src/mailman/terminal/sync_client.py:113-149 | the merge loop, malformed rows included, and the number of rows it changed |
| Unsubscribes.MergeIsJoin | src/mailman/terminal/sync_client.py:113-149 | merging takes the wider scope per address, never a narrower one, and keeps reasons |
| Unsubscribes.MergeIsOrderFree | src/mailman/terminal/sync_client.py:113-149 | order and repetition of merged rows do not matter |
| Unsubscribes.CountsChanges | src/mailman/terminal/sync_client.py:113-150 | the count of applied rows is zero exactly when the table is as it was |
| Unsubscribes.MergeInParts | src/mailman/terminal/sync_client.py:113-149 | merging in batches is merging at once |
| Unsubscribes.MergedBlocksExactly | src/mailman/terminal/sync_client.py:118-150 | merged rows block promotional mail to each hash they name, and all mail exactly if one of the hash's rows does not say 'promotional', missing and unknown scopes included |
| Unsubscribes.LogFoldsToCache | src/mailman/cloud/dynamo.py:673-718 | the whole log merged into an empty table, in any order and with repetition, is the cache |
| Unsubscribes.OverlapsAgreeExactly | src/mailman/cloud/dynamo.py:673-718 | once overlapping calls are done, log and cache agree exactly when each address that asked for all has a second whose last log write asked for all |
| Unsubscribes.SameSecondLosesUpgrade | src/mailman/cloud/dynamo.py:708-717 | two calls of one second that leave the log below the cache |
| Unsubscribes.BlockedNeverShrinks | src/mailman/terminal/launch.py:507-516 | whatever is merged or added later, a blocked address stays blocked, for the same reason |
| Unsubscribes.LaterPlansSuppress | src/mailman/terminal/launch.py:548-557 | no plan made after an address was blocked sends to it |
| Unsubscribes.UnsubscribeIsHonoured | src/mailman/terminal/launch.py:548-557 | a merged unsubscribe stops promotional plans for good, and all plans if its scope is all |
| Unsubscribes.SuppressionList.Suppress | src/mailman/terminal/routes_admin.py:584-600 | an existing row is left as it is; a new one gets scope all |
| Unsubscribes.AddingBlocksExactly | src/mailman/terminal/routes_admin.py:584-600 | a suppression added by hand blocks unless an existing promotional unsubscribe makes the insert a no-op |
| RetryStreak.CampaignRows.Streak | src/mailman/terminal/sync_client.py:704-723 | the scan from the newest row finds the streak of the current updated_at, or starts one now |
| RetryStreak.CampaignRows.NoteRetry | src/mailman/terminal/sync_client.py:686-696 | a row is added unless one with the same details was written within a day |
| RetryStreak.CampaignRows.Refuse | src/mailman/terminal/sync_client.py:726-753 | the campaign is failed only if still scheduled, due and unedited; the failure row is written either way and says which |
| RetryStreak.CampaignRows.OnError | src/mailman/terminal/sync_client.py:841-867 | what a failed attempt does: note, give up, or refuse |
| RetryStreak.TwentyFourHourRule | src/mailman/terminal/sync_client.py:841-865 | on an untouched campaign the rebuilt streak starts in the second of the first unexpected error, and the first attempt that gives up, and no other, fails it with one row |
| RetryStreak.RefusalFailsAtOnce | src/mailman/terminal/sync_client.py:841-867 | an attempt the launch refuses fails the campaign at once, with its reason and one row, whatever streak there is, and nothing later changes that |
| RetryStreak.RetryablesDoNotMatter | src/mailman/terminal/sync_client.py:704-723 | retryable refusals neither start, reset nor end the streak |
| RetryStreak.GivesUpAtADay | src/mailman/terminal/sync_client.py:851-855 | giving up takes 24 hours from the first unexpected error less exactly the fraction of a second it was floored by |
| RetryStreak.FailsEarly | src/mailman/terminal/sync_client.py:851-862 | two attempts less than 24 hours apart that fail a campaign |
| RetryStreak.NotedOnceADay | src/mailman/terminal/sync_client.py:686-696 | rows with the same details are more than a day apart |
| RetryStreak.NotedExactly | src/mailman/terminal/sync_client.py:686-696 | a row is added exactly when no row with the same details was written within the last 86400 seconds |
| RetryStreak.AttemptIsNoted | src/mailman/terminal/sync_client.py:841-865 | every attempt that does not fail the campaign is on record within a day, with its error and, if unexpected, the second of the first one |
| RetryStreak.EditWins | src/mailman/terminal/sync_client.py:726-740 | when an attempt gives up after its day of errors, any operator edit between the reading of the streak and the refusal leaves the campaign as edited; without one the refusal marks it failed |
| Lifecycle.CancelOneKeeps | src/mailman/terminal/sync_client.py:788-808 | cancelling one stage keeps cancelled stages and stage_cancelled rows matching one to one |
| Lifecycle.MarkDispatchedKeepsExactly | src/mailman/terminal/launch.py:401-405 | the unguarded write after a stage launch keeps that match exactly when the stage was not cancelled |
| Lifecycle.Scheduler.CancelArchivedStage | src/mailman/terminal/sync_client.py:788-808 | moves a stage only if it is pending and its campaign still has the status it was selected with, with its row |
| Lifecycle.Scheduler.FailStage | src/mailman/terminal/sync_client.py:756-774 | fails a pending stage, and writes its row in any case |
| Lifecycle.Scheduler.Pass | src/mailman/terminal/sync_client.py:868-943 | one pass gives every stage its fate: cancelled if its campaign is closed, launched or failed if due, failed if its time is unreadable, else untouched |
| Lifecycle.PassTells | src/mailman/terminal/sync_client.py:776-943 | stages of paused and draft campaigns keep their rows, of archived and cancelled ones become cancelled; exactly the readable stages due by now of the other tested campaigns are launched, and end as the launch did |
| Lifecycle.PassRowsTell | src/mailman/terminal/sync_client.py:756-943 | a pass writes a row only for a stage it cancels, with the campaign's status as reason, or fails, saying exactly whether mail may have gone out |
| LifecycleRuns.CancelledIffOneRow | src/mailman/terminal/sync_client.py:788-808 | in every reachable state a stage is cancelled exactly when one stage_cancelled row names it, and none has two |
| LifecycleRuns.CancelledOnlyWhileClosed | src/mailman/terminal/sync_client.py:788-808 | a stage turns cancelled only from pending and at a moment when its campaign is archived or cancelled |
| LifecycleRuns.LeavesPendingOnce | src/mailman/terminal/sync_client.py:756-808 | a stage leaves pending at most once, though the scheduler works from lists it read earlier |
| LifecycleRuns.DeletedStaysDeleted | src/mailman/terminal/routes_admin.py:1172-1191 | a deleted stage's id never comes back |
| LifecycleRuns.DispatchedWasTested | src/mailman/terminal/launch.py:302-307 | a campaign is scheduled or dispatched only with a test send on record |
| LifecycleRuns.OverSendsNothing | src/mailman/terminal/launch.py:393-405 | a stage cancelled, failed, dispatched or deleted never sends again |
| LifecycleRuns.ArchivedAddsNothing | src/mailman/terminal/launch.py:582-588 | while a campaign stays archived no action adds a pack for it, once whatever was under way has ended |
| LifecycleRuns.ArchiveStopsMailExactly | src/mailman/terminal/launch.py:582-588 | no continuation that leaves an archived campaign's status to itself adds a pack for it, exactly when nothing is under way for it; what is under way may push in the model, whether or not it still owes a pack |
| LifecycleRuns.ClosedStagesSendNothing | src/mailman/terminal/launch.py:276-279 | while a campaign stays cancelled or archived its stages send nothing, once a stage launch under way has ended |
| LifecycleRuns.HeldStagesSendNothing | src/mailman/terminal/sync_client.py:868-943 | while a campaign stays paused, in draft, cancelled or archived its stages send nothing, once a stage launch under way has ended |
| LifecycleRuns.LaunchOverwritesArchive | src/mailman/terminal/launch.py:309-450 | a run in which a launch undoes an archive and mails |

## Left out

- SendSchedule.ComputeSendAts: claims nothing for instants outside the years 1000 to 9999, where the code's formatting does not pad or its clock type raises; packs carry the instant a text names, which orders and compares as the text does.
- SendSchedule.NegativeCapSendsNothing: dates never run out in the model; the code would raise once rolling passes the year 9999, which takes a negative cap and millions of rolls.
- SendSchedule.SendTimesFit: assumes non-negative gaps and `Calendar.Valid`; windows that cross midnight or vanish are not scheduled here.
- OutcomePolls.SpreadReadCovers: takes the pages of one partition as read at one moment, and fewer than work_cap rows before its last page; beyond that OutcomePolls.LastPageBehindTheCap applies.
- EventCursor.NextKeepsInv: ids stay below 10^10, and events are told apart by id, not by (table, row, revision).
- LifecycleRuns.ArchivedAddsNothing: batch readiness (pending, drained, cool-down) is not modelled, so the model lets presses start where the code would refuse; what is proved holds for fewer presses as well.
- Lifecycle.Scheduler.Pass: one database connection at work during the pass; interleaved operators are in LifecycleRuns.
- PressRuns.BatchPressIsARun: starts from the rows as read; Re-launch and stage presses use PressRuns.PushAndRecordIsARun from their plan.
- Recovery.FinishedSendIsComplete: nobody adds, removes, edits or retries recipients between presses, and suppression stays as it was. Contact packs only; seeds draw a new id at each press and may be sent again.
- CloudMachine.NextKeepsInv: the provider's 4xx is taken to mean not accepted; nothing is assumed of other answers.
- Dispatcher.Worker.Process: the sync event written after a sent pack, the bounce statistics and the pauses between sends are not modelled.
- Unsubscribes.LogFoldsToCache: a call that dies between its cache write and its log write is not completed and not covered; nor is a log page that ends inside one second.
- PackStore.PackTable.UpdatePack: only on stored packs and with a resolving status, as every caller has it; on a missing row the code would create one that holds nothing else.
- Terminal.Desktop.ApplyHeldOutcomes: an outcome whose database write fails is skipped and logged by the code; here every write of the loop succeeds, while in SendProtocol any outcome may fail to arrive.
- Terminal.Desktop.RetryFailedRecipients: the campaign's own move to tested is in LifecycleRuns.
- BatchDispatch.BatchDesk.DispatchBatch: takes the batch row as existing and the roster as fixed; draining, cool-down, approval bookkeeping, and the notes shown after a press are not part of this model, nor is a cancel that clears the marker.
- BatchDispatch.LoadedIsComplete: assumes settings that are enough for each press's batch, in the sense of SendSchedule.ExactlyNForAll; otherwise BatchBuild.ShortScheduleDropsTargets applies.
- Encryption, key lifetimes, tokens, rendering and compliance footers, and the text of failure reasons.
- Time zones with changing offsets, and the rounding of random gaps below one microsecond.
- Contact locks, bounce-rate pacing, drift reports, backups, settings pages and the HTTP layer.
- Open, click, bounce and complaint events from the provider appear only as steps that mark a recipient engaged.
- Legacy synchronisation and the seed-placement tables.
