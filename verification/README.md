# Verified model of maintenant's delivery and alerting

A Dafny model of the parts of maintenant where several components must stay in agreement over
long runs, with proofs that they do, or of exactly when they do not.

- **Delivery** (`RowLog`, `Spool`, `AckTracker`, `Delivery*`). The agent's spool, its row log and the
  server's acknowledgement tracker as one state machine. Its steps are the critical sections of
  the spool's mutex, the store's transactions, the receive loop and the server session; streams
  come and go with messages in flight, flushes run side by side, the process may crash. The
  classes run the same sections in place and are proved equal to the functions the machine uses.
- **Alert engine** (`AlertEngine`, `AlertHistory`, `Csv`, `Dispatch`). The in-memory map beside the alert
  store, with dedup, escalation, recovery, removal, acknowledgement, restart and pruning; who is
  notified of what.
- **Notifier** (`Notifier*`, `Notification*`). Ten bounded queues and their workers, interleaved freely,
  the engine that feeds them one delivery at a time, and the restarts that empty them.
- **Detectors** (`DetectorEvents`, `DownSweep*`, `Endpoints`, `OsSupport`, `EndOfLife*`, `Certificate*`). Each
  keeps a memory of its own that must agree with the engine after any run, across the queue between
  them and the restarts that empty it.
- **Containers** (`Timeline`, `Resend`, `Containers`, `Inventory`, `Uptime`, `DockerEvents`). The recorded
  timeline, events sent again, the inventory of remote agents, uptime, and the event stream across cuts.

Clocks, store failures, what the network delivers and in which order maps are walked are
parameters, choices of the run, or arbitrary. Integers are unbounded; where the width or the
saturation of the original matters (hashes, durations, second precision) it is written out.

## What does not hold

Nine promises fail on some inputs. For each one the model keeps the code as it is, gives an input
and states the exact condition.

- A refused row freezes a stream's acknowledgements, and the agent's replay need not thaw them
  (`DeliveryFreezeRun.FreezeIsReachable`, `DeliveryFreeze.AcksResumeIff`).
- The map of active alerts and the store part ways when a recovery, an escalation or a removal loses
  a store update, or a restart the list of active alerts
  (`AlertEngine.LostUpdateBreaksMirror`, `AlertEngine.MirrorSurvivesIff`).
- A restart loses the events still queued for the engine, while the detectors have stored what they
  said: an endpoint alerts with no alert, a threshold is on record with no warning, a certificate alert
  is never cleared (`Endpoints.RestartLosesAlert`, `Endpoints.EngineAgreesWithEndpointIff`,
  `CertificateRuns.RestartLosesWarning`, `CertificateRuns.ExpiringFollowsThresholdIff`,
  `CertificateRuns.LostRecoveryStrandsAlert`, `CertificateRuns.RestartAgreesIff`).
- A restart loses the deliveries that wait or are under way, and the rest of a dispatch: a recovery is
  delivered while its alert's accepted delivery never ended, or with no announcement at all
  (`NotificationRestarts.RestartOvertakes`, `Notifications.RecoveryComesLastIff`,
  `NotificationRestarts.RestartSilencesAlert`, `Notifications.RecoveryFollowsAlertIff`).
- A sweep for stopped containers reads the store while its last events are queued: a container that came
  back gets an alert after the pass that saw it running (`DownSweepRuns.QueuedFireOpensLate`,
  `DownSweepRuns.SweepSettlesIff`).
- A certificate alert is stranded when its row was purged or shares its second with another row
  (`CertificateRuns.PurgedHistoryStrandsAlert`, `CertificateRuns.SameSecondStrandsAlert`,
  `CertificateRuns.ScanAgreesIff`).
- A container's timeline breaks when events are sent again or an archived container comes back
  (`Resend.RedeliveryBreaksPath`, `Resend.ResendKeepsPathIff`, `Timeline.RediscoveryBreaksPath`,
  `Timeline.StepUnbrokenIff`).
- The event relay loses a message when a stream is cut between two of the same stamp
  (`DockerEvents.CutBetweenEqualStampsLoses`, `DockerEvents.RelayIsLosslessIff`).
- Uptime forgets what a container did before its window: the query returns only rows inside it,
  although the retention keeps the last older row for uptime to start from
  (`Uptime.WindowForgets`, `Uptime.WindowedUptimeIsRightIff`, `Uptime.EmptyWindowShowsFull`,
  `Uptime.EmptyWindowIsRightIff`). With no rows the comment in the code speaks of the current state;
  the code answers 100 percent, and the model follows the code.

## Model

| member | source | states |
|---|---|---|
| RowLog.SpoolStore.Append | internal/agent/spool_store.go:95-127 | a batch gets consecutive fresh keys in order, or nothing changes when the transaction fails |
| RowLog.SpoolStore.ReadFrom | internal/agent/spool_store.go:131-151 | the oldest rows above a key, at most the limit |
| RowLog.SpoolStore.DeleteUpTo | internal/agent/spool_store.go:154-169 | exactly the rows up to the key go, and their number is returned |
| RowLog.SpoolStore.DeleteOlderThan | internal/agent/spool_store.go:172-187 | exactly the rows observed before the cutoff go |
| RowLog.SpoolStore.DeleteOldestBytes | internal/agent/spool_store.go:191-212 | drops an oldest prefix that ends at the drop point |
| RowLog.SpoolStore.EnforceDiskBudget | internal/agent/spool.go:331-364 | nothing goes within budget; past it at least one row of a non-empty log goes, up to the drop point of the overshoot plus a tenth |
| RowLog.DropPointShortest | internal/agent/spool_store.go:191-212 | the drop point is the shortest oldest prefix that frees the target, or the whole capped scan, and is never empty for a positive target |
| RowLog.DropPointUnique | internal/agent/spool_store.go:191-212 | there is one drop point |
| RowLog.AppendedValid | internal/agent/spool_store.go:95-127 | keys stay increasing, new rows sit above every key ever given, and hold exactly the batch |
| Spools.Spool.Buffer | internal/agent/spool.go:205-210 | one event is queued, the byte count stays the size of the buffer, and the two flush signals are exact |
| Spools.Spool.TakeBatch | internal/agent/spool.go:313-316 | the whole buffer leaves for the store |
| Spools.Spool.PutBack | internal/agent/spool.go:318-325 | a failed batch goes back ahead of what arrived since, bytes counted |
| Spools.Spool.TrimMemory | internal/agent/spool.go:383-392 | keeps the longest suffix within budget and counts exactly what it removed |
| Spools.Spool.Attach | internal/agent/spool.go:158-166 | a new stream lifts the pause and rewinds to the ack under a new generation |
| Spools.Spool.Advance | internal/agent/spool.go:624-632 | the cursor moves only in the generation that read it |
| Spools.Spool.Acked | internal/agent/spool.go:635-656 | the ack moves forward only, and says when rows may be purged |
| Spools.Spool.Rewind | internal/agent/spool.go:659-664 | the cursor returns to the ack and the generation changes |
| Spools.Spool.RateLimited | internal/agent/spool.go:668-679 | rewinds and pauses for the delay asked for, one second at least |
| AckTracking.AckTracker.Accept | internal/commercial/multihost/ack.go:29-43 | the highest acknowledgeable key after taking a row, frozen above a refused one |
| AckTracking.AckTracker.Refuse | internal/commercial/multihost/ack.go:46-53 | the lowest refused row freezes the tracker |
| AckTracking.AckTracker.AfterEvent | internal/commercial/multihost/ack.go:56-61 | an ack is due on every hundredth event or after the interval, and only past the last one |
| AckTracking.AckTracker.Pending | internal/commercial/multihost/ack.go:64-69 | the key to acknowledge, if it is past the last ack |
| AckTracking.AckTracker.Sent | internal/commercial/multihost/ack.go:71-74 | the last ack and its time are recorded |
| DeliverySafety.Step | internal/agent/spool.go:565-679 | each of the 26 steps of agent, stream and server keeps the invariant that every ack in flight covers only rows the server took |
| DeliveryTheorems.OnlyTakenDroppedOrExpiredRowsLeave | internal/agent/spool.go:565-679 | in every run a readable row leaves the store only if the server took it, the budget dropped it, or it passed the retention age |
| DeliveryTheorems.EveryOfferedEventIsAccountedFor | internal/agent/spool.go:205-328 | in every run the events offered are, as a multiset, those buffered, in a flush, stored, acknowledged, dropped, expired or lost in a crash before they were stored |
| DeliveryTheorems.EveryGenerationAdvancesAPrefix | internal/agent/spool.go:565-664 | in each generation the rows that moved the cursor are exactly the stored rows above the ack it began at and up to the cursor, in order |
| DeliveryTheorems.AckNeverRetreats | internal/agent/spool.go:635-656 | the ack cursor never decreases while the process lives |
| DeliveryFreeze.StuckForever | internal/commercial/multihost/ack.go:29-53 | once nothing at or below the refused row can be sent again, no run on the stream moves the ack |
| DeliveryFreeze.AcksResumeIff | internal/commercial/multihost/ack.go:29-53 | on a stream with nothing under way acknowledgements can resume if and only if a readable row at or below the refused one is stored above one of the agent's cursors |
| DeliveryFreezeRun.FreezeIsReachable | internal/commercial/multihost/enrollment.go:411-444 | a run of steps the code takes that ends connected, idle and frozen for good with an untaken row stored |
| DeliveryProgress.DeliveryCanAlwaysFinish | internal/agent/spool.go:565-664 | from every reachable world some run with a new stream, without a crash, a drop or an expiry, leaves the store as it is and has the server take every readable row of it |
| AlertEngine.Engine.ProcessEvent | internal/alert/engine.go:211-323 | the state one event leaves, under any store failure |
| AlertEngine.Engine.EscalateAlert | internal/alert/engine.go:325-387 | the record takes every field of the raising event, in memory even when the store refuses |
| AlertEngine.Engine.ProcessRecovery | internal/alert/engine.go:442-522 | the alert leaves the map and, as far as the store allows, is closed by a recovery record |
| AlertEngine.Engine.Forget | internal/alert/engine.go:781-792 | exactly the entity's alerts leave the map, and their ids are returned |
| AlertEngine.Engine.CloseAll | internal/alert/engine.go:794-810 | exactly the given alerts are closed in the store, failures aside |
| AlertEngine.Engine.ResolveByEntity | internal/alert/engine.go:781-811 | removal of an entity on map and store together |
| AlertEngine.Engine.AcknowledgeAlert | internal/alert/engine.go:396-426 | succeeds exactly for an active alert not yet acknowledged |
| AlertEngine.Engine.ReloadActiveAlerts | internal/alert/engine.go:188-209 | the map a restart builds from the store's list, later rows of a key replacing earlier ones |
| AlertEngine.EveryRunNamesActive | internal/alert/engine.go:188-522 | whatever the store refuses, every entry of the map names an alert the store holds active under that key |
| AlertEngine.EveryFaultlessRunMirrorsStore | internal/alert/engine.go:188-522 | without failures the map is exactly the store's active alerts, at most one per key, across restarts |
| AlertEngine.MirrorSurvivesFaultsIff | internal/alert/engine.go:325-522 | an event costs the map its agreement with the store exactly when a recovery loses a write or an escalation its update |
| AlertEngine.EntityFaults | internal/alert/engine.go:781-811 | a removal keeps the agreement exactly when the store takes every update for the entity's alerts |
| AlertEngine.MirrorSurvivesIff | internal/alert/engine.go:188-522 | any operation under any failures keeps the agreement if and only if no recovery loses a write, no escalation its update, no removal an update, and no restart the list while an alert is active |
| AlertEngine.EveryAffordedRunMirrorsStore | internal/alert/engine.go:188-522 | every run whose failures are of the harmless kind keeps the agreement, however many there are |
| AlertEngine.LostUpdateBreaksMirror | internal/alert/engine.go:442-522 | from an empty engine one alert and one lost update, on its recovery or its container's removal, leave it active in the store alone |
| AlertHistory.ActiveAlertTellsItsHistory | internal/alert/engine.go:211-387 | an alert is active exactly when some unsilenced fire is not followed by a close, and shows the highest severity fired since it opened with the fields of the first event that reached it |
| Csv.TrimSpace | internal/alert/engine.go:703-712 | what is left when outer spaces are cut off |
| Csv.SplitCsv | internal/alert/engine.go:681-701 | the non-blank fields between commas, trimmed, in order |
| Csv.ContainsCsv | internal/alert/engine.go:672-679 | whether one of the items is the value |
| Csv.FieldsJoined | internal/alert/engine.go:681-701 | comma-free fields survive being joined and cut again |
| Csv.FieldsOf | internal/alert/engine.go:681-701 | cutting at commas loses nothing and leaves no comma in a field |
| Csv.TrimmedIs | internal/alert/engine.go:703-712 | a text is spaces, its trimmed part with no space at its ends, spaces |
| Csv.ListNames | internal/alert/engine.go:672-701 | a filter names exactly the values its items hold between their outer spaces |
| Csv.NamedBySomeFilterIff | internal/alert/engine.go:672-712 | some filter names a value if and only if it is not empty, has no comma and no outer space |
| Dispatch.MatchesTrigger | internal/alert/engine.go:653-670 | every non-empty filter names the alert's value, and a resolved alert needs notify-on-resolve |
| Dispatch.DispatchNotifications | internal/alert/engine.go:588-622 | exactly one notification for each enabled, readable channel that a matching trigger names, none elsewhere |
| Dispatch.EveryActiveAlertWasTold | internal/alert/engine.go:211-387 | in every faultless run each active alert has been dispatched at the severity it has |
| Dispatch.RecoveryGoesToThoseTold | internal/alert/engine.go:442-522 | a recovery reaches only channels its alert reached at its final severity, and of those exactly the ones a notify-on-resolve trigger names |
| Notifier.Delivery.Process | internal/alert/notifier.go:189-258 | at most three attempts, none after a success, and the status those attempts earn |
| Notifier.StepInv | internal/alert/notifier.go:154-187 | each step keeps every lane's log a row of whole deliveries of its accepted jobs in order |
| NotifierOrder.NeverOvertakes | internal/alert/notifier.go:154-258 | of two jobs of one stream the later shows no sign before every attempt of the earlier is over, whatever the other workers, the drops and a shutdown do |
| NotifierOrder.EveryDeliveryIsWhole | internal/alert/notifier.go:189-258 | every accepted job shows nothing, one delivery in progress or one finished delivery of at most three attempts |
| NotifierLives.EndedIff | internal/alert/notifier.go:154-258 | an accepted job has ended, or else it waits in a queue or a worker has it in hand |
| NotifierLives.NeverOvertakesIff | internal/alert/notifier.go:92-187 | across restarts, of two accepted jobs of one stream the earlier is wholly over when the later shows a sign, if and only if no restart found it waiting or in hand |
| Notifications.EveryRecipientIsToldIff | internal/alert/engine.go:588-648 | in every run of engine, workers and restarts a dispatch has one delivery to a channel exactly when the channel is a recipient, its turn has come and no restart came before |
| Notifications.RecoveryFollowsAlertIff | internal/alert/engine.go:442-522 | a recovery's delivery follows one that announced its alert to that channel at its final severity, if and only if no restart cut that dispatch short there |
| Notifications.RecoveryComesLastIff | internal/alert/notifier.go:154-258 | of two deliveries of one alert to one channel the earlier accepted one is wholly over when the later shows a sign, if and only if no restart found it waiting or in hand |
| Notifications.RecoveryComesLastWithin | internal/alert/notifier.go:154-187 | within one process it always is |
| NotificationRestarts.RestartOvertakes | internal/alert/notifier.go:92-115 | alert accepted, restart, recovery taken up: the alert's delivery never ends |
| NotificationRestarts.RestartSilencesAlert | internal/alert/engine.go:588-622 | alert fired, restart, recovery: the recovery is all the channel hears |
| DownSweep.SeeContainers | internal/alert/down.go:63-71 | the containers past the threshold and the known ones, by id |
| DownSweep.SeeAlerts | internal/alert/down.go:73-78 | what is firing, by id |
| DownSweep.Check | internal/alert/down.go:53-132 | each verdict once and nothing else, whatever the order the maps are walked in |
| DownSweep.SweepConvergesIff | internal/alert/down.go:53-132 | after one pass the active container_down alerts are exactly the containers stopped past the threshold, if and only if no other source holds an alert of the type for one of them |
| DownSweep.SweepTouchesOnlyItsOwn | internal/alert/down.go:80-132 | alerts of any other kind are left as they were |
| DownSweep.SecondPassIsSilentIff | internal/alert/down.go:53-132 | once they agree a pass emits nothing, if and only if no other source holds an alert of the type |
| DownSweepRuns.PassSettlesIff | internal/alert/down.go:53-132 | whatever is queued, a pass brings the alerts into line once the engine has caught up, if and only if the queue, or with no word there the store, settles well each container the pass says nothing of |
| DownSweepRuns.SweepSettlesIff | internal/alert/down.go:53-132 | in every run in which only the sweep raises container_down, a pass brings the alerts into line if and only if no container the store has right has a last queued word against it |
| DownSweepRuns.SweepConverges | internal/alert/down.go:53-132 | so with nothing queued a pass converges and the next one says nothing |
| DownSweepRuns.QueuedFireOpensLate | internal/alert/down.go:80-105 | an alert still queued at the next pass opens although that pass saw the container running |
| DetectorEvents.RestartKeepsIff | internal/alert/engine.go:144-209 | a restart changes what a key settles at if and only if the last queued word on it would have changed the alert |
| Endpoints.Endpoint.ProcessCheckResult | internal/endpoint/service.go:373-455 | the row and the crossing one result leaves; a replayed result leaves both alone |
| Endpoints.Endpoint.EvaluateCheckResult | internal/alert/endpoint_alerts.go:36-71 | an alert or a recovery exactly when its threshold is reached in the other state |
| Endpoints.Endpoint.HandleContainerStop | internal/endpoint/service.go:458-483 | only the status changes |
| Endpoints.CountersAndState | internal/endpoint/service.go:373-455 | after any run the counters are the current run lengths and the endpoint is alerting exactly when the last failure run to reach its threshold is later than the last such success run |
| Endpoints.AlertsAndRecoveriesAlternate | internal/alert/endpoint_alerts.go:36-71 | alerts and recoveries alternate, and the last one tells the state |
| Endpoints.ReplaysChangeNothing | internal/endpoint/service.go:380-391 | a replayed result inserted anywhere changes neither the row nor what is announced |
| Endpoints.EngineAgreesWithEndpointIff | internal/app/wiring.go:220-341 | after any run of results, deliveries, other events and restarts consecutive_failure settles at what the thresholds say, and certificate_untrusted at what the last telling result said, each if and only if the run has no restart that loses the last word on it with none said after |
| Endpoints.RestartLosesAlert | internal/alert/engine.go:144-168 | the alert of a first failure is queued at a restart: the endpoint alerts and nothing is active |
| OsSupport.StateOnDates | internal/eol/support.go:73-82 | each state is a plain comparison of dates, the saturating day count never matters |
| OsSupport.StateNeverMovesBack | internal/eol/support.go:45-84 | with table and system fixed, a host never moves away from its end of support |
| OsSupport.VersionPrefixIs | internal/eol/match.go:26-32 | the first parts of a version: all of it when it has no more, otherwise up to the dot that follows them |
| OsSupport.FindCycle | internal/eol/table.go:90-97 | the first cycle of that name, if any |
| OsSupport.ValidateProduct | internal/eol/table.go:114-136 | accepts a product exactly when it has cycles, each named once, with ordered dates |
| OsSupport.Validate | internal/eol/table.go:112-139 | accepts a table exactly when every product is good |
| OsSupport.CycleOfOnly | internal/eol/table.go:90-97 | in an accepted table a name finds its one cycle whatever the order |
| EndOfLife.EvaluatedTakes | internal/eol/service.go:356-381 | the events of one evaluation leave the host at exactly the severity found, rising or falling |
| EndOfLifeRuns.EveryRunKeeps | internal/eol/service.go:356-403 | in every run the remembered severity is that of the alert the engine has or will have, removals, restarts and other detectors included |
| EndOfLifeRuns.SeedsMatch | internal/eol/service.go:163-172 | a restart remembers exactly the active alerts |
| EndOfLifeRuns.EvaluationSettlesHost | internal/eol/service.go:356-381 | after any run an evaluation leaves an active alert exactly when the state is ending soon or ended, at that severity, and no other host changes |
| EndOfLifeService.Service.Evaluate | internal/eol/service.go:356-381 | the events and the memory of one evaluation |
| EndOfLifeService.Service.Forget | internal/eol/service.go:383-403 | a tracked host is recovered and forgotten, any other is left alone |
| EndOfLifeService.Service.SeedSeverities | internal/eol/service.go:163-172 | the severities of the listed alerts of this kind, later ones replacing earlier ones |
| EndOfLifeService.Service.EvaluateAgent | internal/eol/service.go:191-206 | a listed host is evaluated, any other forgotten |
| EndOfLifeService.Service.EvaluateAll | internal/eol/service.go:209-236 | a pass drives every listed host to the alert its state calls for and every other host to none, and remembers that |
| EndOfLifeService.PassSettlesFleet | internal/eol/service.go:209-236 | after any run a pass leaves every host, in the fleet or gone, with exactly the alert it should have |
| Certificates.CrossedThreshold | internal/certificate/service.go:919-931 | the least configured threshold at or above the days left, for any list order |
| Certificates.ComputeStatus | internal/certificate/service.go:780-799 | expiring exactly when not expired and some threshold is crossed |
| Certificates.SeverityRises | internal/certificate/model.go:91-110 | fewer days left never lower the severity, a self-renewing issuer never raises it |
| Certificates.ScanSaysProblem | internal/certificate/service.go:845-917 | a successful scan leaves a problem's alert active exactly when it has the problem, or the alert was active and nothing cleared it |
| CertificateRuns.ScanAgreesIff | internal/certificate/service.go:845-917 | a successful scan brings the alerts into line if and only if each undeserved active alert is explained by the row it is compared to |
| CertificateRuns.AlertsAgreeAfterEveryScan | internal/certificate/service.go:630-917 | after any mix of failed, scheduled and pushed scans, purges, deliveries and restarts the four alerts settle at exactly the problems of the last successful scan, although most pushed scans are not stored |
| CertificateRuns.PurgedHistoryStrandsAlert | internal/store/certificates.go:389-407 | an alert whose row a thirty-day retention purged outlives the problem |
| CertificateRuns.SameSecondStrandsAlert | internal/store/certificates.go:262-270 | an alert whose row shares its second with an older one outlives the problem |
| CertificateRuns.RestartAgreesIff | internal/certificate/service.go:845-917 | a restart keeps the alerts in line if and only if it loses the last word on none of them |
| CertificateRuns.LostRecoveryStrandsAlert | internal/certificate/service.go:845-854 | a recovery still queued at a restart is never sent again by the next scan, which compares to a good row |
| CertificateRuns.ScanSpeaks | internal/certificate/service.go:932-961 | what a scan says of the expiring alert is what the threshold then on record says, and it speaks exactly on a threshold notice |
| CertificateRuns.ExpiringFollowsThresholdIff | internal/certificate/service.go:932-961 | in every run, restarts included, the expiring alert settles active exactly while a threshold is on record, if and only if the run has no restart that loses the last word on it with none said after |
| CertificateRuns.RestartLosesWarning | internal/certificate/service.go:932-961 | a first warning is queued at a restart: the threshold is on record and nothing is active |
| CertificateRuns.WarningsDecreaseBetweenRenewals | internal/certificate/service.go:946-961 | between renewals each warning is about a smaller threshold |
| CertificateRuns.Checker.ProcessCheckResult | internal/certificate/service.go:630-720 | the row kept or not, the status, the events and the threshold one scan leaves |
| CertificateRuns.Checker.EvaluateAlerts | internal/certificate/service.go:815-962 | recoveries, then alerts, then the threshold notice |
| CertificateRuns.Checker.ClearAlerts | internal/certificate/service.go:845-854 | a recovery for each clearable alert absent now and present or unknown before |
| CertificateRuns.Checker.RaiseAlerts | internal/certificate/service.go:856-917 | an alert for each problem the certificate has |
| CertificateRuns.Checker.EvaluateExpiry | internal/certificate/service.go:919-961 | warn at a new lower threshold, recover past all of them |
| Timeline.TimelineAt | internal/container/service.go:194-209 | the state of the newest listed row and the newest health among them, the live values where there is none |
| Timeline.StepUnbrokenIff | internal/container/service.go:211-592 | one live event or reconciliation keeps the transitions an unbroken path from created to the current state if and only if it is sound |
| Timeline.TimelineIsUnbroken | internal/container/service.go:211-592 | so does every run of sound ones |
| Timeline.RediscoveryBreaksPath | internal/container/service.go:553-581 | a running container that drops out and comes back starts a second timeline |
| Timeline.ReplayLeavesLiveAlone | internal/container/service.go:211-280 | a replayed state or health event leaves the container as it is and announces nothing |
| Timeline.ReplaysAreInvisible | internal/container/service.go:211-435 | replayed events anywhere in a run change neither the live container nor what is announced |
| Resend.FirstTime | internal/container/service.go:211-280 | events not seen before append their rows and carry an unbroken path on |
| Resend.ResendKeepsPathIff | internal/store/containers.go:204-224 | when the latest events are sent again from the first, the path is unbroken after the k-th if and only if that one's state is the state before the resend and is where the first event started or led; a first stop that a completed container ignores aside |
| Resend.ResendAfterCompletionKeepsPathIff | internal/store/containers.go:204-224 | in that case the path is unbroken after the first event alone, and after the k-th if and only if the second event and the k-th both led to completed |
| Resend.RedeliveryBreaksPath | internal/agent/spool.go:659-664 | a stop, a start and a pause sent again as they were leave the path broken after each of the three |
| Containers.Record.ProcessEvent | internal/container/service.go:154-185 | the record and the announcement one event leaves |
| Containers.Record.HandleStateChange | internal/container/service.go:211-326 | a change of state, or for a replay its transition alone |
| Containers.Record.HandleHealthChange | internal/container/service.go:376-435 | a change of health, or for a replay its transition alone |
| Containers.ReconcileStored | internal/container/service.go:497-551 | every stored container archived or brought to the listed state, nothing else touched |
| Containers.InsertNew | internal/container/service.go:553-587 | every listed container that is not stored is inserted with the transition that starts it |
| Containers.ReconcileFleet | internal/container/service.go:472-592 | what a pass leaves of each container |
| Containers.ListedOnce | internal/container/service.go:472-592 | when each container is listed once, each is reconciled on its own |
| Inventory.AgentFleet.HandleAgentEvent | internal/container/agent_event.go:49-112 | what one report leaves of its container; too many labels refuse it, an empty id is skipped, nothing else changes |
| Inventory.AgentFleet.HandleReports | internal/container/agent_event.go:164-174 | every report in turn, and the ids heard of |
| Inventory.AgentFleet.ArchiveMissing | internal/container/agent_event.go:176-199 | exactly the agent's present, unreported containers are archived |
| Inventory.AgentFleet.HandleAgentInventory | internal/container/agent_event.go:150-201 | over a limit: refused, nothing changes; empty and not complete: nothing changes; otherwise the agent's containers, and no other agent's, are as counted |
| Inventory.KnownReadsAsNewIff | internal/container/agent_event.go:341-372 | a live report leaves a known container in the state it would give a new one, if and only if it is running, paused, an exit that does not follow a clean one, or changes nothing |
| Inventory.ReportUnbrokenIff | internal/container/agent_event.go:49-142 | one live report keeps an agent container's transitions an unbroken path if and only if its health and its state are each sound where they are taken |
| Inventory.AgentTimelineIsUnbroken | internal/container/agent_event.go:49-142 | so does every run of sound reports from the first, gone and back again included |
| Inventory.InventoryIsWhatIsPresent | internal/container/agent_event.go:150-201 | after an inventory a container is present exactly when reported and not reported gone last; after a replayed one exactly when it also was present |
| Inventory.PresentIsReported | internal/container/agent_event.go:150-201 | with no entry marked destroyed the present containers are exactly the reported ids |
| Uptime.UpTime | internal/container/uptime.go:108-134 | the up spans add up |
| Uptime.ComputeUptime | internal/container/uptime.go:97-142 | zero without a window, 100 without transitions, otherwise on time-ordered transitions the up instants in hundredths of a percent, 100 exactly when every instant is up |
| Uptime.UptimeIsPointwise | internal/container/uptime.go:97-142 | on time-ordered transitions the spans are the instants whose latest transition is up, never more than the window |
| Uptime.UptimeIsAdditive | internal/container/uptime.go:97-142 | cutting the window loses and invents nothing |
| Uptime.PercentIs | internal/container/uptime.go:136-141 | the clamp never fires and the result is cut to two decimals |
| Uptime.ClampFiresOutOfOrder | internal/container/uptime.go:136-139 | out of order the spans can exceed the window |
| Uptime.WindowedUptimeIsRightIff | internal/container/uptime.go:61-93 | on the rows the store selects the up time is right if and only if the container was not up as the window began or changed at that instant |
| Uptime.EmptyWindowIsRightIff | internal/container/uptime.go:103-106 | with no row in the window 100 percent is shown, which is right if and only if the container was up as it began |
| Uptime.WindowForgets | internal/store/containers.go:305-328 | a container started before and stopped inside its window, shown at zero percent although three instants were up |
| Uptime.EmptyWindowShowsFull | internal/container/uptime.go:103-106 | a container stopped for its whole window, whose rows are all older: 100 percent is shown for no up instant |
| DockerEvents.HealthIsRelayed | internal/docker/events.go:150-175 | a health message is relayed under one action with the health it names |
| DockerEvents.RelaySubscription | internal/docker/events.go:81-120 | the events of a subscription in order, and the point right after its last message |
| DockerEvents.RelayEvents | internal/docker/events.go:48-78 | the events of all that was received across the cuts |
| DockerEvents.RelayIsLosslessIff | internal/docker/events.go:48-120 | from a set resume point the messages relayed are exactly the log up to the next one, each once, if and only if no cut falls between equal stamps |
| DockerEvents.RelayIsLossless | internal/docker/events.go:48-120 | always, when stamps strictly increase |
| DockerEvents.CutBetweenEqualStampsLoses | internal/docker/events.go:191-201 | a cut between two messages of one stamp loses the second |

## Left out

- SQLite, protobuf, gRPC, HTTP, Docker and Kubernetes clients: stores are maps and sequences, payloads are bytes some of which decode.
- Snapshot messages of the agent (inventory, status): only their refusals enter the delivery model.
- Delivery without a store, Close and Discard racing a flush, order across concurrent flushes: the memory trim is modelled, the rest is outside the step granularity.
- Interleavings inside one engine call: each call of the engine is one step.
- Silence rules, maintenance suppression and escalation policies: whether an event is silenced is an input of the run.
- Message texts with counts and durations, JSON details, SSE payloads: they follow no rule worth a proof.
- Heartbeat, resource, security, update and Swarm detectors: they keep no memory that must agree with the engine.
- Restart-loop detection, log snippets, uptime cache, day aggregation: easy members beside the timeline.
- RowLog.SpoolStore.EnforceDiskBudget: the size is read and the drop counter stored without failing.
- DeliveryTheorems.OnlyTakenDroppedOrExpiredRowsLeave: for agents with a store; a payload that does not decode is skipped by the drain and may be purged untaken.
- AlertHistory.ActiveAlertTellsItsHistory: for runs without store failures, which can lose the opening record.
- Dispatch.DispatchNotifications: a channel whose delivery row cannot be written is reached by no job; that write is not modelled.
- Dispatch.RecoveryGoesToThoseTold: for runs without store failures and with triggers and channels unchanged in between.
- Notifications.RecoveryComesLastIff: for runs without store failures and with triggers and channels unchanged; a full queue or a shutdown may still drop a job.
- Notifier.Delivery.Process: retry delays, the completion callback and the delivery table are not modelled; a wait that loses to a shutdown is an input.
- Endpoints.EngineAgreesWithEndpointIff: thresholds are fixed along the run and the endpoint is not removed in between.
- EndOfLifeRuns.EvaluationSettlesHost: an evaluation is one step; two at once on one host could queue their events in the other order.
- CertificateRuns.AlertsAgreeAfterEveryScan: for stored rows in distinct seconds, a newest row that outlives the retention and no recovery queued at a restart; `CertificateRuns.ScanAgreesIff` gives the exact condition for any history. A monitor edited while it is scanned is not modelled.
- Certificates.SeverityRises: whether an issuer renews on its own is an input; the list of issuer names is not modelled.
- Timeline.TimelineIsUnbroken: the path is in the order rows were created; agents stamp events themselves, so the order of stamps may differ.
- Resend.ResendKeepsPathIff: for events that report a state and each changed it, resent once; health events among them are not modelled.
- Containers.Record.ProcessEvent: the restart-loop announcements are not modelled.
- Containers.Record.HandleStateChange: the exit code, the log snippet and the restart-loop announcements are not modelled.
- Containers.ReconcileStored: image metadata and the announcements of a pass are not modelled.
- Containers.ReconcileFleet: image metadata, grouping labels and the announcements of a pass are not modelled.
- Inventory.AgentFleet.HandleAgentEvent: of the labels only the ignore flag is modelled, and store failures are not.
- Uptime.ComputeUptime: exact rationals instead of floating point; the cut to two decimals is exact.
- DockerEvents.RelaySubscription: label enrichment and the out-of-memory lookup are not modelled.
- DockerEvents.RelayEvents: label enrichment, the out-of-memory lookup, the back-off and an unset first resume point are not modelled.
