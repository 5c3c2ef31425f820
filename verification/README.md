# A verified model of r-wg

r-wg is a WireGuard client. This project models, in Dafny, the parts of it that must not go wrong half way, and
proves what they promise:

- **The Windows network transaction** (`Windows*.dfy`, `UndoLog.dfy`, `ApplyReport.dfy`). Applying a network
  configuration runs a fixed sequence of stages over addresses, metrics, bypass routes, routes, DNS, NRPT and
  filters, and keeps the machine, an in-memory state, a journal on disk and a report in step. The machine is a
  `World` whose calls may each fail; it records the state after every call in a ghost trace, so a crash between any
  two calls is an element of that trace, and a log of the calls that failed, so that a run is shown to end early only
  after a failed call, and an item to be left over only after its own. `CrashSafe` says what startup repair can rely
  on at such a point, and every method that runs a stage keeps it. DNS is a transaction of its own, over two
  interfaces and two families with a shared flag.
- **The kernel link journal and the engine's start and stop on Linux** (`KernelLink.dfy`, `Platform.dfy`,
  `Engine.dfy`). The journal is written ahead of the link. Guards, network states and devices are resources with an
  identity: giving one back twice breaks a precondition, and the engine's invariant says where each of them is.
- **The route planner** (`RoutePlan.dfy`) that the stages rely on.
- **The traffic statistics** (`TrafficWindow.dfy`, `TrafficStore.dfy`): capped, sorted lists that are windows onto
  an unbounded ledger.
- **Debounced saving** (`Persistence.dfy`): one worker, any interleaving.
- **Text and bytes**: the configuration parser (`Config*.dfy`), log redaction (`Redaction.dfy`), byte-limited log
  snapshots (`LogSnapshot.dfy`), argument quoting on Windows (`Quoting.dfy`), and bounded frames (`Frames.dfy`).

Where the program updates in place, so does the model: classes with fields, methods with `modifies`, loops with
invariants, each proved against a specification function or predicate; the laws are lemmas about those.

What turned out not to hold is stated exactly. Rolling back removes rows that were there before the run
(`RollbackExactIffRowsWereNew`). The planned bypass count ignores a routing table that is off
(`BypassCountAgreesIff`). An empty argument is lost by quoting (`RoundTripIffNoneEmpty`), and a quoted service path
that ends in a backslash is not read back (`ServiceBinaryPathReadsBack`); the program builds neither
(`ManageCommandReadsBack`, `InstalledServiceReadsBack`). Starting a run overwrites the journal of an earlier one
(`RecoveryGuard.Begin`). The atomic write is atomic only where the rename replaces the old file
(`AtomicIffRenameReplaces`). A blank line in front of a byte-order mark spoils a
configuration (`BlankLinesDoNotMatter`), and so does a list split with an empty half, exactly where the other half alone
would do (`SplittingSpoilsIff`, `AnEmptyHalfMatters`). A kernel start under another name forgets the link the journal
named, and one that finds its name taken may be interrupted where a repair removes the link that took it
(`StartKernelDevice`, `RepairStaleKernelDevice`). A failed save is not tried again, and the disk can stay older than
the last request (`DiskAtRest`, `FailedSaveLosesTheEdit`). When the quantum guard cannot be
cleaned up after an upgrade that has taken effect, the start fails and the upgrade flags stay on: exactly then
(`FailsUpgradedIff`, `Start`), for an input (`StuckGuardLeavesUpgrade`), and only for requests known beforehand
(`UpgradeCanOutliveStartIff`). The shares of traffic add up exactly when no removal has discarded bytes of the key
(`Conservation`). A firewall mark line that asks for no mark may be repeated, unlike any other single-value key
(`MarkNext`).

## Model

| member | source | states |
|---|---|---|
| AtomicFile.AtomicIffRenameReplaces | src/storage/atomic.rs:36-78 | A failed or interrupted atomic write leaves the old or the new contents exactly where the rename takes the place of the old file (or there is none); the remove-and-rename arm can leave no file |
| AtomicFile.SuccessMeansWritten | src/storage/atomic.rs:36-51 | Success means the new contents are in place; a write whose directory sync fails has put them there all the same |
| UndoLog.MergeAppend | src/platform/windows/dns.rs:187-203 | Undoing last-first: a later record goes under the earlier ones, so the earliest recorded value of a setting wins |
| UndoLog.MergeConcat | src/platform/windows/dns.rs:149-203 | The log of two stretches undoes the second stretch, then the first |
| UndoLog.RecordThenUndo | src/platform/windows/recovery.rs:117-128 | Recording what a write replaced makes the longer log undo that write too, even when the setting was written before |
| UndoLog.UndoAbsorbs | src/platform/windows/recovery.rs:175-211 | The result of an undo does not depend on what an earlier, partial undo left in the logged settings |
| UndoLog.UnrecordedWrite | src/platform/windows/recovery.rs:117-128 | A write that is not recorded yet spoils the undo in the settings it wrote and nowhere else |
| WindowsModel.RollbackAbsorbsPartialUndo | src/platform/windows/recovery.rs:175-211 | A full undo after any partial or partly failed undo ends where a full undo alone ends |
| WindowsModel.RepairAbsorbsPartialRepair | src/platform/windows/recovery.rs:163-211 | A full startup repair after one that stopped half way, or partly failed, ends where a full repair alone ends, whichever rules of any run, of this adapter or another, the first one removed |
| WindowsModel.RepairsAreOne | src/platform/windows/recovery.rs:163-211 | Two partial startup repairs in a row are one |
| WindowsModel.RepairIsRestartable | src/platform/windows/recovery.rs:163-211 | Startup repairs that stopped half way, in any number, each having removed any of the rules of all runs and undone any of the listed items, followed by a full one, leave the machine as one full repair does |
| WindowsModel.RollbackIsIdempotent | src/platform/windows/cleanup_pipeline.rs:13-87 | Rolling back twice is rolling back once |
| WindowsModel.RollbackRestoresBase | src/platform/windows/cleanup_pipeline.rs:38-79 | Rolling back a run gives metrics, DNS settings and filters their values from before the run, removes exactly the rows of the run, and keeps every NRPT rule without the adapter's tag |
| WindowsModel.RollbackExactIffRowsWereNew | src/platform/windows/cleanup_pipeline.rs:38-60 | Addresses and routes are as before the run exactly when none of the rows the run added was there before |
| WindowsModel.RepairLeavesAtMostThePendingItem | src/platform/windows/recovery.rs:163-211 | Undoing what the journal lists, from any crash point it covers, leaves nothing of the run but at most the item in progress, and everything that was there before and is no item of the run |
| WindowsModel.UndoKeepsCovered | src/platform/windows/cleanup_pipeline.rs:38-79 | Undo work in any order, complete or not, keeps the journal covering the machine: nothing unlisted is left over, and nothing but items of the run is gone |
| WindowsModel.UndoneIsAccounted | src/platform/windows/cleanup_pipeline.rs:80-87 | After a full undo nothing of the run is left that a journal would have to list |
| WindowsModel.RollbackTakesAnExistingAddress | src/platform/windows/cleanup_pipeline.rs:38-60 | An input for which rolling back is not exact: a wanted address the adapter had before is taken away |
| WindowsDns.CleanupDnsEntry | src/platform/windows/dns.rs:206-275 | Putting one entry back touches the recorded settings only, and restores them all unless the call fails, which is reported |
| WindowsDns.CleanupDns | src/platform/windows/dns.rs:187-203 | Undoing the entries last-first restores the earliest recorded value of every setting, but for those whose own write failed: a failing entry is reported, and does not stop the others; the result is an error exactly when a write reported one |
| WindowsDns.VerifyDnsFamily | src/platform/windows/dns.rs:465-504 | The read-back accepts exactly the settings that show the servers, the search list and the flag as asked, where they can be read |
| WindowsDns.WriteAndVerify | src/platform/windows/dns.rs:343-418 | A family that does not verify is reverted; one that does shows the settings and is recorded with what it replaced; one whose write stored what was asked, and can be read, verifies |
| WindowsDns.StoredIsEffective | src/platform/windows/dns.rs:343-504 | A write that stores what was asked for is one that the read-back accepts |
| WindowsDns.ApplyDnsFamilyWithGuid | src/platform/windows/dns.rs:309-418 | One family is written as asked and recorded, or, with the revert succeeding, left as it was; it is refused only where a call for its interface failed or stored something else |
| WindowsDns.ApplyIpv6WithGuid | src/platform/windows/dns.rs:278-307 | When the second family fails, the first one is reverted and the interface is as before |
| WindowsDns.ApplyDnsWithGuid | src/platform/windows/dns.rs:278-307 | Both families of one interface take effect with entries that restore them, or nothing changes |
| WindowsDns.ApplyDnsToOne | src/platform/windows/dns.rs:149-172 | The primary interface, or the fallback where it fails, takes the settings; an error leaves everything unchanged |
| WindowsDns.TryFallback | src/platform/windows/dns.rs:173-184 | The fallback takes the settings too, unless a call for it fails, and the interface that has them keeps them either way |
| WindowsDns.ApplyDns | src/platform/windows/dns.rs:149-184 | DNS is a transaction over both interfaces: an error leaves every setting unchanged, success puts the settings on one interface and returns entries that restore every setting; each interface none of whose calls failed shows the settings, so an error means a failed call on each of them |
| WindowsDns.ApplyThenCleanup | src/platform/windows/dns.rs:149-203 | Applying and cleaning up leaves nameservers, search lists and the shared flag of every interface as they were, for every failure pattern in which no undo call fails |
| WindowsDns.RestoresAppend | src/platform/windows/dns.rs:278-307 | Adding an entry that records what its write replaced keeps the entry list a complete undo |
| WindowsDns.RestoresConcat | src/platform/windows/dns.rs:149-184 | The entries of both interfaces together undo both |
| WindowsDns.RevertKeepsFrame | src/platform/windows/dns.rs:278-307 | Reverting one interface stays within its own settings and, when it succeeds, restores them |
| WindowsDns.EffectiveSurvives | src/platform/windows/dns.rs:278-307 | Writing the second family does not disturb what the first one shows, although the flag is shared |
| WindowsDns.EffectiveElsewhere | src/platform/windows/dns.rs:149-184 | Writing one interface leaves what another one shows |
| WindowsCleanup.RecoveryGuard.Begin | src/platform/windows/recovery.rs:77-97 | The journal starts empty, in memory and on disk; a failed write leaves the old or the new file. Once written, what an earlier journal listed is listed no more: repair leaves it as it is |
| WindowsCleanup.RecoveryGuard.RecordAddress | src/platform/windows/recovery.rs:99-105 | Exactly one address is appended in memory; the file is rewritten whole, or is still the old one when the write fails |
| WindowsCleanup.RecoveryGuard.RecordRoute | src/platform/windows/recovery.rs:107-110 | Exactly one route is appended in memory; the file is rewritten whole, or is still the old one when the write fails |
| WindowsCleanup.RecoveryGuard.RecordBypassRoute | src/platform/windows/recovery.rs:112-115 | Exactly one bypass route is appended in memory; the file is rewritten whole, or is still the old one when the write fails |
| WindowsCleanup.RecoveryGuard.RecordMetric | src/platform/windows/recovery.rs:117-123 | Exactly one metric is appended in memory; the file is rewritten whole, or is still the old one when the write fails |
| WindowsCleanup.RecoveryGuard.RecordDns | src/platform/windows/recovery.rs:125-128 | The DNS entries are set in memory and nothing else changes; the file is rewritten whole, or is still the old one when the write fails |
| WindowsCleanup.RecoveryGuard.RecordNrpt | src/platform/windows/recovery.rs:130-133 | The NRPT state is set in memory and nothing else changes; the file is rewritten whole, or is still the old one when the write fails |
| WindowsCleanup.RecoveryGuard.RecordDnsGuard | src/platform/windows/recovery.rs:135-141 | The filters are set in memory and nothing else changes; the file is rewritten whole, or is still the old one when the write fails |
| WindowsCleanup.RecoveryGuard.MarkPhase | src/platform/windows/recovery.rs:143-151 | Only the phase changes; the file is rewritten or still the old one |
| WindowsCleanup.RecoveryGuard.Clear | src/platform/windows/recovery.rs:153-156 | The saved report goes first: the journal is removed only when the report is gone, and on failure it is untouched |
| WindowsCleanup.UndoAll | src/platform/windows/cleanup_pipeline.rs:38-79 | The fixed sequence of undo steps touches items of the state only; every item is undone but for those whose own call failed, so that with no undo call failing the machine is the rollback |
| WindowsCleanup.UndoneInStages | src/platform/windows/cleanup_pipeline.rs:38-79 | What each kind of undo step has undone stays undone by the later ones |
| WindowsCleanup.DeleteFilters | src/platform/windows/firewall.rs:364-380 | The filters are deleted last first; one that cannot be is reported and does not stop the others |
| WindowsCleanup.CleanupDnsGuard | src/platform/windows/firewall.rs:119-137 | Every recorded filter is gone but for those whose own call, or whose session, failed; the result is an error exactly when a call reported one |
| WindowsCleanup.CleanupNrptGuard | src/platform/windows/nrpt.rs:106-128 | A rule with a recorded name, or with the tag, is left only where the call for it failed; the result is an error exactly when a call reported one |
| WindowsCleanup.DeleteRoutes | src/platform/windows/cleanup_pipeline.rs:38-48 | A recorded route is left only where its own call failed |
| WindowsCleanup.DeleteAddresses | src/platform/windows/cleanup_pipeline.rs:50-54 | A recorded address is left only where its own call failed |
| WindowsCleanup.RestoreMetrics | src/platform/windows/cleanup_pipeline.rs:56-60 | Each metric has its first recorded value, but where a call for it failed |
| WindowsCleanup.StopAndUndo | src/platform/windows/cleanup_pipeline.rs:13-79 | The journal is marked as stopping; the undo steps then keep every crash point repairable, and undo every item whose own call does not fail |
| WindowsCleanup.CleanupNetworkConfig | src/platform/windows/cleanup_pipeline.rs:13-87 | With no undo call failing the machine is rolled back and the journal and the saved report removed; with any failures every crash point stays repairable and every item is undone whose own call did not fail; success means that journal and report are gone |
| WindowsCleanup.RepairJournal | src/platform/windows/recovery.rs:175-211 | Repair of a journal reaches the same machine as the rollback of the state it lists, and a repair that stops half way is a partial undo of it; it succeeds exactly when no call for DNS, the rule or the filters reported a failure, and then every item is undone whose own call did not fail |
| WindowsCleanup.AttemptStartupRepair | src/platform/windows/recovery.rs:163-173 | Unless a call fails, startup repair succeeds: it removes the rules of all runs, rolls back what the journal lists and removes the journal. Failures with rows, metrics and stale rules are passed over; it fails exactly when another call did, and the journal is then still there. At each of its crash points the machine is partly repaired and the journal is the old one, or gone with every listed item undone unless a call failed |
| WindowsCleanup.RepairContinues | src/platform/windows/recovery.rs:163-211 | A repair taken up again from where an earlier attempt has left the machine leads where the first one would have led |
| WindowsCleanup.UndoIsRepair | src/platform/windows/recovery.rs:163-211 | Removing rules of any run and then undoing listed items is partial repair work |
| WindowsCleanup.RepairAfterCrash | src/platform/windows/recovery.rs:163-211 | Started at any crash point of a run, after any number of earlier attempts at the repair, and with no call failing, startup repair succeeds and leaves the machine one full repair leaves: at most the item that was in progress and no NRPT rule of a run; addresses, routes, rules and filters that were there before and are no items of the run, listed or in progress, are still there |
| WindowsCleanup.UndoStretchIsSafe | src/platform/windows/cleanup_pipeline.rs:38-79 | Every crash point inside the undo steps is repairable |
| WindowsCleanup.JournalGoneIsSafe | src/platform/windows/cleanup_pipeline.rs:80-87 | Removing the journal of a fully undone run leaves nothing to repair |
| WindowsSteps.AddressStep | src/platform/windows/apply_pipeline.rs:295-330 | Adding an address, before and after it is recorded, keeps the machine covered by the journal up to that address |
| WindowsSteps.MetricStep | src/platform/windows/apply_pipeline.rs:363-420 | The same for an interface metric, even when its family was set before |
| WindowsSteps.BypassStep | src/platform/windows/apply_pipeline.rs:524-570 | The same for a bypass route |
| WindowsSteps.RouteStep | src/platform/windows/apply_pipeline.rs:613-680 | The same for a route |
| WindowsSteps.DnsStep | src/platform/windows/apply_pipeline.rs:702-770 | The same for the DNS settings of both interfaces, with reverts that may have failed |
| WindowsSteps.NrptStep | src/platform/windows/apply_pipeline.rs:819-860 | The same for the NRPT rule |
| WindowsSteps.DnsGuardStep | src/platform/windows/apply_pipeline.rs:877-925 | The same for the DNS guard filters |
| ApplyReport.PlannedIdsCarryTheirKind | src/core/route_plan/apply_report.rs:217-256 | The kind inferred from the identifier of a planned operation is the kind it was planned as |
| ApplyReport.StageIdsAreNotPlanned | src/core/route_plan/apply_report.rs:217-256 | No stage identifier is taken for a planned operation |
| ApplyReport.IdsOfAppend | src/core/route_plan/apply_report.rs:133-202 | The identifiers reported for one kind are those reported before, then those added |
| ApplyReport.RouteApplyReport.PushApplied | src/core/route_plan/apply_report.rs:133-154 | One applied entry is appended, under the kind its identifier implies, else the kind given |
| ApplyReport.RouteApplyReport.PushSkipped | src/core/route_plan/apply_report.rs:156-177 | The same for a skipped entry |
| ApplyReport.RouteApplyReport.PushFailed | src/core/route_plan/apply_report.rs:179-202 | The same for a failed entry, with the failure kind given, else inferred |
| WindowsReport.SkipRemainingRoutePlanOps | src/platform/windows/report.rs:104-135 | Every planned operation not yet reported is reported as skipped, once and in order |
| WindowsReport.SkipRemainingWindowsStages | src/platform/windows/report.rs:137-163 | Every named later stage is reported as skipped, in order |
| WindowsReport.FailStage | src/platform/windows/report.rs:29-64 | A failing stage adds one failed entry and then only skipped ones |
| WindowsReport.FailInPlace | src/platform/windows/report.rs:29-64 | After a failure at any stage the report has one failed entry, only skipped ones after it, and one entry for every planned operation |
| WindowsReport.FailureAccounts | src/platform/windows/report.rs:29-135 | A failure in place accounts for every planned metric, bypass route and route exactly once |
| WindowsReport.BypassFailureAccounts | src/platform/windows/apply_pipeline.rs:546-568 | The bypass-journal failure leaves exactly one planned operation, the current bypass, without an entry |
| WindowsReport.ProgressPush | src/platform/windows/apply_pipeline.rs:363-439 | An entry for the next planned operation moves the account on by one |
| WindowsReport.ProgressSkip | src/platform/windows/apply_pipeline.rs:450-486 | Skipped bypass entries move the account on by their number |
| WindowsReport.RemainingOpsIds | src/platform/windows/report.rs:104-135 | The skipped entries carry exactly the identifiers of the operations that were left |
| WindowsOutcome.EveryTargetIsServed | src/platform/windows/apply_pipeline.rs:497-545 | Where the system was asked about exactly the addresses the tunnel would take, it was asked about each of them, and each route it named is among those found |
| WindowsOutcome.FoundIsThere | src/platform/windows/apply_pipeline.rs:513-545 | A route that is found was named by the system for one of the addresses |
| WindowsOutcome.ApplicableIs | src/platform/windows/apply_pipeline.rs:502-512 | The addresses asked about are those of the full-tunnel families, and no others |
| WindowsApply.SetInterfaceMetric | src/platform/windows/metrics.rs:55-100 | The metric is set and its previous value returned, or nothing changes |
| WindowsApply.ApplyNrptGuard | src/platform/windows/nrpt.rs:56-103 | Unless adding it fails, a rule of this adapter with the given servers is in place under a returned name, and the recorded names and tag name no foreign rule; rules with other tags are never touched |
| WindowsApply.CleanupStaleUnicastAddresses | src/platform/windows/addresses.rs:58-88 | Only addresses of this adapter that are neither wanted nor link-local go; on success none is left, and only a failed call keeps one |
| WindowsApply.ApplyContext.AbortWithCleanup | src/platform/windows/apply_pipeline.rs:117-154 | A run that is rolled back gives back every item whose own undo call does not fail; with none failing its settings are back and its rows, its journal and the saved report gone; its report is marked failed and saved, as well as that works; the crash points of the run are kept and end with the present state |
| WindowsApply.ApplyContext.AbortUnjournaledAddress | src/platform/windows/apply_pipeline.rs:331-353 | The address-journal failure only reports: the journal still lists every address but at most the last |
| WindowsApply.ApplyContext.AbortAt | src/platform/windows/apply_pipeline.rs:117-154 | A failing operation, or its journal entry, is reported in its place, followed by everything that was not reached, and the run is rolled back |
| WindowsApply.ApplyContext.AbortUnjournaled | src/platform/windows/apply_pipeline.rs:379-407 | A failing journal entry between two operations ends the run the same way |
| WindowsApply.ApplyContext.ApplyAddress | src/platform/windows/apply_pipeline.rs:300-355 | One address is applied, reported and journaled, or one of these calls failed and the run ends as that failure says |
| WindowsApply.ApplyContext.RememberAddress | src/platform/windows/apply_pipeline.rs:323-355 | The applied address is remembered, reported and journaled, or the run ends with its journal left for repair |
| WindowsApply.ApplyContext.ApplyAddresses | src/platform/windows/apply_pipeline.rs:295-358 | All configured addresses are applied and recorded, in order |
| WindowsApply.ApplyContext.ApplyInterfaceMetric | src/platform/windows/apply_pipeline.rs:363-439 | One metric is set and its previous value recorded, or the run is rolled back |
| WindowsApply.ApplyContext.RememberMetric | src/platform/windows/apply_pipeline.rs:382-407 | The previous value is remembered and journaled, or the run is rolled back |
| WindowsApply.ApplyContext.ApplyInterfaceMetrics | src/platform/windows/apply_pipeline.rs:360-441 | Every planned metric is set, and each family has the metric of its last operation |
| WindowsApply.ApplyContext.AbortUnresolved | src/platform/windows/apply_pipeline.rs:455-482 | An endpoint that does not resolve ends the run with its own entry failed and the earlier bypasses skipped |
| WindowsApply.ApplyContext.ResolveNextTarget | src/platform/windows/apply_pipeline.rs:450-455 | The next endpoint is looked up, and what was found is kept in the order of the plan |
| WindowsApply.ApplyContext.ResolveBypassTargets | src/platform/windows/apply_pipeline.rs:444-489 | Every planned endpoint is looked up in plan order, each list of addresses is the one found for its own endpoint, a blank host has none, and no route is added yet |
| WindowsApply.ApplyContext.AbortUnjournaledBypass | src/platform/windows/apply_pipeline.rs:546-568 | A bypass route that could not be journaled ends the run with its operation, and no other, left without an entry |
| WindowsApply.ApplyContext.ApplyBypassRoute | src/platform/windows/apply_pipeline.rs:521-570 | One bypass route is added and recorded, or the run is rolled back, leaving the current bypass unreported only when its journal entry fails |
| WindowsApply.ApplyContext.ApplyBypassOp | src/platform/windows/apply_pipeline.rs:497-602 | The system is asked about each endpoint address of a full-tunnel family, in order, and about no other; every route it names is added and recorded, in order; the one entry says applied exactly when it named one, else skipped |
| WindowsApply.ApplyContext.AskForRoute | src/platform/windows/apply_pipeline.rs:512-518 | The system is asked for a route around the tunnel, and its answer kept |
| WindowsApply.ApplyContext.ApplyBypassRoutes | src/platform/windows/apply_pipeline.rs:491-605 | Every planned bypass is reported exactly once, the system was asked about each address of each endpoint that the tunnel would take, and the recorded routes are those it named, in order |
| WindowsApply.ApplyContext.ApplyRouteEntry | src/platform/windows/apply_pipeline.rs:613-697 | One planned route is added on the adapter, reported and recorded, or the run is rolled back |
| WindowsApply.ApplyContext.RememberRoute | src/platform/windows/apply_pipeline.rs:670-697 | The added route is remembered and journaled, or the run is rolled back |
| WindowsApply.ApplyContext.ApplyRouteEntries | src/platform/windows/apply_pipeline.rs:607-700 | All planned routes are recorded in order |
| WindowsApply.ApplyContext.ApplyDnsStage | src/platform/windows/apply_pipeline.rs:702-782 | DNS is in effect on some interface of the adapter, and on each of them for which no call failed, and recorded, exactly when the configuration asks for it, else nothing changes |
| WindowsApply.ApplyContext.ApplyDnsSettings | src/platform/windows/apply_pipeline.rs:702-720 | The settings are in effect with entries that undo them, or a call failed and they are as they were |
| WindowsApply.ApplyContext.RememberDns | src/platform/windows/apply_pipeline.rs:712-757 | The applied DNS settings are remembered and journaled, or the run is rolled back |
| WindowsApply.ApplyContext.AddNrptRule | src/platform/windows/apply_pipeline.rs:819-821 | The rule of this adapter is put on the machine, rules with other tags stay, and whichever way it ends the state and the journal fit what to do next |
| WindowsApply.ApplyContext.ApplyNrptStage | src/platform/windows/apply_pipeline.rs:819-876 | A rule with the configured servers is in place and recorded exactly when there are DNS servers, and rules without the adapter's tag stay |
| WindowsApply.ApplyContext.RememberNrpt | src/platform/windows/apply_pipeline.rs:821-853 | The rule is remembered and journaled, or the run is rolled back |
| WindowsApply.ApplyContext.ApplyDnsGuardStage | src/platform/windows/apply_pipeline.rs:877-941 | The filters are asked for once, for the adapter, the full-tunnel families and the configured servers, and those installed are exactly those recorded |
| WindowsApply.ApplyContext.InstallGuard | src/platform/windows/apply_pipeline.rs:877-882 | The filters that came of the request are on the machine, or the call failed and nothing changed |
| WindowsApply.ApplyContext.RememberDnsGuard | src/platform/windows/apply_pipeline.rs:892-915 | The filters are remembered and journaled, or the run is rolled back |
| WindowsApply.ApplyContext.ApplyGuardStages | src/platform/windows/apply_pipeline.rs:784-941 | Rule and guard are set up exactly for full tunnels with DNS, routing on, and the kill switch on, and then the recorded rule is on the machine with the configured servers and the filters have been asked for; otherwise the machine is untouched; the report says which |
| WindowsApply.ApplyContext.AbortAtStage | src/platform/windows/apply_pipeline.rs:760-941 | A failing DNS, NRPT or guard stage is reported with the later ones as skipped, and the run rolled back |
| WindowsApply.ApplyContext.AbortUnjournaledStage | src/platform/windows/apply_pipeline.rs:722-925 | The same when the stage could not be journaled |
| WindowsApply.ApplyContext.MarkRecoveryRunning | src/platform/windows/apply_pipeline.rs:943-974 | The finished run keeps its journal, marked as running |
| WindowsApply.ApplyContext.Finish | src/platform/windows/report.rs:187-194 | The run is reported as running, entry by entry: every address, metric, route and stage applied, each bypass applied or skipped; the report is saved as well as that works |
| WindowsApply.ApplyContext.RunStages | src/platform/windows/apply_pipeline.rs:158-182 | The stages end with everything in force (addresses, metrics, routes, the bypass routes of every endpoint address of a full-tunnel family that the system knows one for, DNS, the NRPT rule, the guard), or, only after a failed call, rolled back, or with the one exit that leaves the journal for repair; no crash point on the way is dropped |
| WindowsApply.ApplyContext.EndpointsStayReachable | src/platform/windows/apply_pipeline.rs:491-605 | While the configuration is in force: for every address found for an endpoint that the tunnel would take, the system was asked for a route; every route it named is recorded and on the machine; and the operation is reported as applied exactly when it named one |
| WindowsApply.ApplyContext.RunOps | src/platform/windows/apply_pipeline.rs:172-177 | Addresses, metrics, bypass routes and routes are applied and reported in order, or a call failed and the run has ended |
| WindowsApply.OpenJournal | src/platform/windows/apply_pipeline.rs:200-264 | The adapter of that name is found and its journal started, or a call failed and the run ends with everything reported as not reached |
| WindowsApply.Prepare | src/platform/windows/apply_pipeline.rs:168-172 | The stages start on a machine whose stale addresses are gone, with an empty journal of this adapter; or the run has ended before anything was applied |
| WindowsApply.ApplyNetworkConfig | src/platform/windows/apply_pipeline.rs:158-293 | For every failure pattern: all in force with a report that says so entry by entry, or rolled back with a report that names the failing call, all that went well before it and all that was not reached, or an exit before anything was applied. With no call failing the run finishes. The saved report is this run's, or, where it could not be saved, the one before or none; the crash points begin with the state at entry and end with the present one, and each on the way is repairable up to the item in progress |
| WindowsApply.ApplyThenStop | src/platform/windows/cleanup_pipeline.rs:13-87 | With no call failing, a run finishes. A finished run can be stopped: every item is undone whose own call does not fail, and with none failing settings and filters are those from before, the rows of the run are gone, rules without the adapter's tag are untouched and no journal is left; and every crash point of both, from the state at entry to the present one, is repairable |
| RoutePlan.CollectAllowedRoutes | src/core/route_plan/normalize.rs:25-39 | The allowed routes of all peers, without duplicates, in order of first occurrence |
| RoutePlan.FirstOccurrencesKeepsElements | src/core/route_plan/normalize.rs:25-39 | Removing duplicates keeps every route and leaves no two equal |
| RoutePlan.AllowedRoutesInOrder | src/core/route_plan/normalize.rs:25-39 | The allowed routes of a plan are those of the peers, each once, and of two routes the one that the peers name first comes first |
| RoutePlan.DetectFullTunnel | src/core/route_plan/normalize.rs:41-55 | Each family is full tunnel exactly when its default route is among the routes |
| RoutePlan.FullTunnelIs | src/core/route_plan/normalize.rs:41-55 | A family of a plan is full tunnel exactly when some peer may send to every address of it |
| RoutePlan.WantsFullTunnelIffDetected | src/core/route_plan/normalize.rs:97-103 | The test that sets the firewall mark agrees with the detection the plan uses |
| RoutePlan.BuildRouteOps | src/core/route_plan/planner.rs:65-116 | One operation for each allowed route, then DNS host routes, computed by a loop, equal to their definition |
| RoutePlan.DnsHostRoutes | src/core/route_plan/planner.rs:92-116 | A DNS server has a host route exactly when its family is full tunnel |
| RoutePlan.DnsHostOpsAre | src/core/route_plan/planner.rs:92-116 | The host routes are those of the DNS servers of the families taken over, in the order of the servers |
| RoutePlan.BuildBypassOps | src/core/route_plan/planner.rs:178-214 | One bypass for each peer endpoint that a full tunnel would swallow, in order |
| RoutePlan.BypassOpsAre | src/core/route_plan/planner.rs:178-214 | The bypasses are the endpoints whose family is, or may be, taken over, in the order of the peers |
| RoutePlan.WindowsPlannedBypassCount | src/core/route_plan/planner.rs:216-240 | The count is the number of bypasses the peers need |
| RoutePlan.Build | src/core/route_plan/planner.rs:12-42 | The plan is the composition of its parts |
| RoutePlan.PlanOnWindows | src/core/route_plan/planner.rs:12-42 | The whole plan on Windows from the fields of the configuration: allowed routes, DNS host routes, metrics and bypasses by family, and nothing when routing is off |
| RoutePlan.PlanOnLinux | src/core/route_plan/planner.rs:12-151 | The whole plan on Linux from the fields of the configuration: each allowed route in the table of its family, and a rule by mark for each family taken over |
| RoutePlan.PlanElsewhere | src/core/route_plan/planner.rs:12-116 | On other systems the plan holds the allowed routes only, in the table asked for |
| RoutePlan.LinuxPlanCompleteIff | src/core/route_plan/planner.rs:65-151 | With routing on, each full-tunnel family has one rule and its routes use that rule's table exactly when a full tunnel comes with a firewall mark |
| RoutePlan.NormalizedLinuxPlanIsComplete | src/core/route_plan/normalize.rs:10-95 | Normalising for runtime makes the Linux plan complete |
| RoutePlan.WindowsMetricOpsMirrorFullTunnel | src/platform/windows/apply_pipeline.rs:42-78 | A family has a metric operation exactly when it is full tunnel and routing is on, and no family has two, so the flags read back from the plan are right |
| RoutePlan.BypassCountAgreesIff | src/core/route_plan/planner.rs:178-240 | The count of a plan's peers equals its bypass operations exactly when routing is on or no peer needs a bypass: the count does not look at the routing table setting |
| RoutePlan.BypassOpsEmptyIff | src/core/route_plan/planner.rs:178-214 | There is no bypass exactly when no peer needs one |
| Redaction.RedactKeyValue | src/log.rs:638-697 | The cursor loop writes the line with every value of the key replaced, as the recursive definition says |
| Redaction.PassCleans | src/log.rs:638-697 | After a pass, every left-bounded key followed by a separator is followed by exactly the mark and then a delimiter or the end |
| Redaction.PassKeepsClean | src/log.rs:620-697 | A pass for one key leaves the values of every other key redacted |
| Redaction.PassFixesClean | src/log.rs:638-697 | A pass over a line whose values are redacted changes nothing |
| Redaction.PassUnchangedIffClean | src/log.rs:638-705 | A pass changes the line exactly when some value of its key is not redacted |
| Redaction.MarkingKeepsClean | src/log.rs:638-705 | Writing the mark over one value uncovers no value of any key |
| Redaction.AllPassesClean | src/log.rs:620-636 | Later passes never undo earlier ones: at the end every key is clean |
| Redaction.RedactSensitiveLogLine | src/log.rs:620-636 | All seven passes leave no sensitive value, and leave the line alone exactly when there was none |
| Redaction.RedactionIsIdempotent | src/log.rs:620-705 | A second full run changes nothing |
| LogSnapshot.TruncateToByteLimit | src/log.rs:730-752 | The longest prefix of whole characters that leaves room for the marker, and the marker; a marker prefix for tiny limits; never over the limit |
| LogSnapshot.LimitSnapshotBytes | src/log.rs:707-728 | The longest suffix of lines whose UTF-8 size fits, or the last line cut short when it alone does not; never over the limit |
| LogSnapshot.LongerSuffixIsBigger | src/log.rs:707-728 | The size of a suffix grows with its length, so the first misfit from the end decides |
| LogSnapshot.SnapshotForIpc | src/log.rs:507-519 | The last lines, each redacted, limited in number and in bytes |
| Quoting.QuoteWindowsArg | src/backend/wg/windows_service_manager.rs:532-558 | The counting loop writes the escaped form of the definition |
| Quoting.SplitEscaped | src/backend/wg/windows_service_manager.rs:541-558 | Reading an escaped value by the backslash and quote rules gives the value back, up to the closing quote |
| Quoting.SplitQuoted | src/backend/wg/windows_service_manager.rs:532-558 | A quoted non-empty argument is read back as one argument, whatever follows it |
| Quoting.QuotingRoundTrip | src/backend/wg/windows_service_manager.rs:95-99 | Splitting the joined quoted arguments gives the list back, for every list of non-empty arguments |
| Quoting.RoundTripIffNoneEmpty | src/backend/wg/windows_service_manager.rs:532-535 | The list is read back exactly when no argument is empty: an empty one is written as nothing |
| Quoting.SplitJoined | src/backend/wg/windows_service_manager.rs:95-99 | In general what is read back is the list without its empty arguments |
| Quoting.JoinQuoted | src/backend/wg/windows_service_manager.rs:95-99 | The joined command line reads back as the non-empty arguments |
| Quoting.ManageCommandReadsBack | src/backend/wg/windows_service_manager.rs:411-420 | The arguments the program builds for its elevated helper are read back exactly when its own path is not empty, or not among them |
| Quoting.InstalledServiceReadsBack | src/backend/wg/windows_service_manager.rs:423-452 | The command line of the installed service is read back, wherever it is installed |
| Quoting.ServiceBinaryPathReadsBack | src/backend/wg/windows_service_manager.rs:446-452 | The service command line names the binary and its one argument exactly when the path needs no quotes or does not end in a backslash |
| Frames.ReadBoundedLine | src/backend/wg/ipc.rs:418-453 | For every way the reader shows its bytes: the result is decided by first newline, total length and limit; the line is exactly the frame, exactly the frame is consumed, no byte is lost, and no more than the limit is buffered |
| Frames.PiecesDoNotMatter | src/backend/wg/ipc.rs:418-453 | The result and the frame do not depend on how the stream is cut into pieces |
| Frames.WriteJsonLine | src/backend/wg/ipc.rs:348-354 | The payload and one newline are written, or a prefix of them |
| Frames.StreamRoundTrip | src/backend/wg/ipc.rs:348-453 | A stream of newline-free payloads that fit is read back frame by frame |
| Frames.FrameRoundTripIff | src/backend/wg/ipc.rs:348-453 | A frame comes back exactly when it is newline-free and fits the limit with its newline |
| ConfigParser.ReadList | src/core/config/parser.rs:406-450 | The item loop gives every item, parsed, or the error of the first bad one, or an error for a list that names nothing |
| ConfigParser.ReadDnsEntries | src/core/config/parser.rs:453-474 | Addresses go to the servers, everything else to the search domains, each in order |
| ConfigParser.ReadInterfaceKv | src/core/config/parser.rs:265-335 | One interface setting, with its list loops, equals the pure definition, which ConfigFields states key by key |
| ConfigParser.ReadPeerKv | src/core/config/parser.rs:338-396 | One peer setting, with its list loop, equals the pure definition, which ConfigFields states key by key |
| ConfigParser.ReadLine | src/core/config/parser.rs:148-210 | One line of the parse, with its loops, is one step of the machine |
| ConfigParser.ParseConfig | src/core/config/parser.rs:138-224 | The line loop with its running state equals the machine; an error about a missing key names a header of its kind of section, any other error the first line that cannot be accepted |
| ConfigParser.RunConcat | src/core/config/parser.rs:148-210 | Running two texts one after the other is running the second from where the first ends |
| ConfigLines.CommentsAreIgnored | src/core/config/parser.rs:227-236 | What follows a comment mark is not part of the line |
| ConfigLines.CommentsDoNotMatter | src/core/config/parser.rs:139-236 | In a whole text, a comment behind any line, ended or not, changes nothing |
| ConfigLines.BlankLinesDoNotMatter | src/core/config/parser.rs:139-154 | A blank or comment line between any two lines changes nothing, except in front of a byte-order mark, where it makes the text unreadable |
| ConfigCase.LineVariant | src/core/config/parser.rs:239-262 | Two lines that differ only in letter case before the equals sign say the same |
| ConfigCase.LinesVariant | src/core/config/parser.rs:139-154 | Two texts that differ only in letter case in front of the equals signs have as many lines, and each pair of lines differs in that way only |
| ConfigCase.CaseDoesNotMatter | src/core/config/parser.rs:138-262 | In a whole text, the case of everything in front of the equals signs, keys and section names, changes neither the configuration nor the error, but for the spelling of an unknown section in its message |
| ConfigLists.ItemsConcat | src/core/config/parser.rs:406-474 | The items of two lists joined by a comma are the items of the one, then of the other |
| ConfigLists.TrimInList | src/core/config/parser.rs:406-474 | Space around a list does not change its items |
| ConfigLists.InterfaceListSplit | src/core/config/parser.rs:299-307 | For address and DNS lists one line equals two exactly as the items split, and an empty half is an error |
| ConfigLists.PeerListSplit | src/core/config/parser.rs:363-366 | The same for allowed IPs |
| ConfigLists.LineOfKeyValue | src/core/config/parser.rs:249-262 | A line without comment marks gives its trimmed, lower-cased key and its trimmed value, or the empty-value error |
| ConfigLists.LineWithoutEquals | src/core/config/parser.rs:249-252 | A line without an equals sign that is no header is refused as such |
| ConfigLists.LineWithoutKey | src/core/config/parser.rs:253-257 | A line with nothing in front of its equals sign is refused as such |
| ConfigLists.LineOfHeader | src/core/config/parser.rs:239-246 | A bracketed line opens the section of its trimmed name, in any case |
| ConfigLists.SplittingAList | src/core/config/parser.rs:265-474 | In a whole text, in its middle or at its end, a comma list written over two lines of its key means the same when each half names something; a half that names nothing makes the two-line text an error |
| ConfigLists.SameItemsSameText | src/core/config/parser.rs:406-474 | In a whole text, the line of a list may be replaced by any other with the same items |
| ConfigLists.SplittingSpoilsIff | src/core/config/parser.rs:265-474 | Splitting a list spoils a text that parses exactly when one half names nothing and the text with the other half alone parses |
| ConfigLists.AnEmptyHalfMatters | src/core/config/parser.rs:406-474 | A text that parses with a comma at the end of its list, and not with the list over two lines |
| ConfigSections.MachineInStep | src/core/config/parser.rs:148-210 | After every prefix of a text the machine's state is what the sections read so far say, and it has stopped exactly when they cannot be accepted |
| ConfigSections.ClosePeerIsRight | src/core/config/parser.rs:165-178 | Closing the open peer leaves one finished peer for each peer section, or fails when a key is missing |
| ConfigSections.ParseIsMeaning | src/core/config/parser.rs:138-224 | A text parses to a configuration exactly when that is what its sections say, one by one |
| ConfigSections.OnePeerPerHeader | src/core/config/parser.rs:172-178 | One peer for each peer header, in order, read from the lines below its own header |
| ConfigSections.PeerSectionHasAPeer | src/core/config/parser.rs:200-207 | The error for a peer setting without a peer section cannot be reported |
| ConfigFields.ConfigIsItsFields | src/core/config/parser.rs:138-396 | A text parses to a configuration exactly when it has one interface section, and each field of the interface and of each peer is what the lines of its own key in its own section say: the parsed value of the one line, or nothing when there is none; the parsed items of all lines, in order; nothing else is in the text |
| ConfigFields.InterfaceIsItsFields | src/core/config/parser.rs:265-335 | An interface section is accepted exactly when each of its keys is, and says what each of its keys says |
| ConfigFields.PeerIsItsFields | src/core/config/parser.rs:338-396 | The same for a peer section |
| ConfigFields.InterfaceStep | src/core/config/parser.rs:265-335 | A further setting is accepted exactly when the section with it is, and does what the section then says |
| ConfigFields.PeerStep | src/core/config/parser.rs:338-396 | The same for a peer setting |
| ConfigFields.MarkNext | src/core/config/parser.rs:290-298 | A firewall mark line that asks for no mark may be repeated; one that sets a mark must be the last |
| ConfigFields.RefusedForAReason | src/core/config/parser.rs:148-210 | The error of a refused text is about its first line that cannot be accepted, and names the reason: an unknown section or key, a second interface section, a setting before any section, a key given twice, a value that does not parse, a list that names nothing, or a peer section above without its key |
| ConfigFields.InterfaceRefused | src/core/config/parser.rs:265-335 | Why an interface setting is refused |
| ConfigFields.PeerRefused | src/core/config/parser.rs:338-396 | Why a peer setting is refused |
| TrafficWindow.UpdateBuckets | src/ui/state/traffic.rs:110-150 | Find and update in place, or push, sort and drop the oldest; whether a bucket was opened |
| TrafficWindow.SortByKeySorts | src/ui/state/traffic.rs:152-166 | The sort by key orders the buckets and keeps each of them |
| TrafficWindow.LedgerHoldsTotals | src/ui/state/traffic.rs:110-150 | The ledger holds exactly the recorded keys, each with its total cut off at the largest number |
| TrafficWindow.UpdateKeepsWindow | src/ui/state/traffic.rs:110-166 | Recording keeps a list the window of the largest keys of its ledger, with their totals, sorted and without duplicates |
| TrafficWindow.WindowIsUnique | src/ui/state/traffic.rs:152-166 | There is only one such list |
| TrafficWindow.TooOldChangesNothing | src/ui/state/traffic.rs:110-166 | A key older than a full list leaves it unchanged |
| TrafficWindow.EvictedStaysOut | src/ui/state/traffic.rs:110-166 | A key that has fallen out never comes back |
| TrafficStore.EvictedForGood | src/ui/state/traffic.rs:47-166 | A recorded key that has fallen out of the list of everything, or of a configuration, stays out under any later recordings and removals, until that configuration itself is removed |
| TrafficWindow.PartKeepsKey | src/ui/state/traffic.rs:152-166 | A key still in the window of the whole is in the window of every part that recorded it, although each is pruned on its own |
| TrafficStore.TrafficStore.constructor | src/ui/state/traffic.rs:35-45 | A new store has recorded nothing |
| TrafficStore.TrafficStore.Record | src/ui/state/traffic.rs:47-82 | Every list stays the window of the recorded history; nothing is recorded for no bytes; whether any list opened a bucket |
| TrafficStore.TrafficStore.RemoveConfig | src/ui/state/traffic.rs:84-92 | A removed configuration is forgotten, the global lists keep its bytes |
| TrafficStore.TrafficStore.MarkPersisted | src/ui/state/traffic.rs:94-97 | The store is clean as of the given time, and no list changes |
| TrafficStore.RecordKeepsLists | src/ui/state/traffic.rs:59-77 | The lists of one clock follow the history through a recording |
| TrafficStore.RemoveKeepsLists | src/ui/state/traffic.rs:84-92 | And through a removal |
| TrafficStore.ListsAreTheirHistory | src/ui/state/traffic.rs:47-92 | The lists are determined by the history: 60 days and 48 hours of the largest keys |
| TrafficStore.BytesAdd | src/ui/state/traffic.rs:47-92 | All bytes of a key are those of no configuration, those of the configurations and those that removals have discarded |
| TrafficStore.Conservation | src/ui/state/traffic.rs:47-166 | For every key the global list shows and whose total fits, the unattributed bytes, the lists of the configurations and the discarded bytes add up to it; so the first two do exactly when no removal has discarded bytes of that key |
| TrafficStore.RemovalMayDiscardNothing | src/ui/state/traffic.rs:84-92 | A removal that discards nothing |
| Persistence.Application.Enqueue | src/ui/state/persistence_queue.rs:16-20 | The revision counts up, stopping at the largest number, and is queued |
| Persistence.Application.TakeQueuedRevision | src/ui/state/persistence_queue.rs:22-24 | The queued revision is handed out and nothing stays queued |
| Persistence.Application.PersistStateAsync | src/ui/actions/persistence.rs:120-137 | A request is one step of the protocol: queued, with a worker started unless one is active; without storage nothing happens |
| Persistence.Application.WorkerWakes | src/ui/actions/persistence.rs:138-157 | The worker's wake is one step: it captures what is queued, or goes inactive |
| Persistence.Application.WorkerSaved | src/ui/actions/persistence.rs:164-185 | The end of a save is one step: another round when something is queued, else inactive |
| Persistence.StepKeepsInvariant | src/ui/actions/persistence.rs:120-187 | Every step of every interleaving keeps the invariant |
| Persistence.RunsKeepInvariant | src/ui/actions/persistence.rs:120-187 | So every run does |
| Persistence.SingleWriter | src/ui/actions/persistence.rs:132-137 | At no time are two workers, hence two saves, under way |
| Persistence.SavesLandInOrder | src/ui/actions/persistence.rs:120-187 | Snapshots reach the disk in the order of their capture |
| Persistence.QueuedMeansWorking | src/ui/actions/persistence.rs:120-187 | A queued revision always has a worker coming for it |
| Persistence.NoUpdateIsLost | src/ui/actions/persistence.rs:120-187 | At rest after a good save, the disk holds a snapshot taken at or after the last request |
| Persistence.DiskAtRest | src/ui/actions/persistence.rs:159-185 | At rest after any save: when the last save landed, whatever it reported, the disk holds the last capture; the disk is older than the last request exactly when the last save did not land and no earlier one had captured what was asked for |
| Persistence.RestIsFinal | src/ui/actions/persistence.rs:159-187 | A failed save is not tried again: at rest no event changes the disk, and only the next request starts a worker |
| Persistence.FailedSaveLosesTheEdit | src/ui/actions/persistence.rs:159-187 | A run of one edit, one request and a failing save, after which the edit is not on the disk and no worker is left |
| Persistence.WorkerComesToRest | src/ui/actions/persistence.rs:137-185 | Without new requests every worker step brings it closer to rest, and until then it can always move |
| KernelLink.DeleteKernelDevice | src/backend/wg/linux_kernel.rs:96-115 | The named link is gone on success; a link of another kind is never touched, nor any other link; only that, or a failed call, is an error |
| KernelLink.CleanupJournaledLinkBeforeCreate | src/backend/wg/linux_kernel.rs:361-370 | A link of the same name that the journal names is removed first; another name in the journal is left alone |
| KernelLink.RepairStaleKernelDevice | src/backend/wg/linux_kernel.rs:117-123 | After a successful repair only links no journal named are left, and no journal; at most the named link goes, and every link that goes is of our making exactly when the journal names no WireGuard link of somebody else's; the repair succeeds exactly when no call failed and the named link is not of another kind |
| KernelLink.ForeignLinkCanBeNamed | src/backend/wg/linux_kernel.rs:66-79 | An input with such a journal: the name is taken by somebody else's link, and the entry of an interrupted start names it |
| KernelLink.RemovesAtMost | src/backend/wg/linux_kernel.rs:96-123 | The links that go are the one named, if it was there and is not there now |
| KernelLink.CreateWireguardLink | src/backend/wg/linux_kernel.rs:174-191 | The link is new: a taken name is a conflict and changes nothing; only that, or a failed call, is an error |
| KernelLink.ConfigureCreatedLink | src/backend/wg/linux_kernel.rs:80-90 | The link is configured with the given settings; a link that cannot be is deleted or still journaled |
| KernelLink.StartKernelDevice | src/backend/wg/linux_kernel.rs:66-90 | The start succeeds exactly when no call failed and the name was free, or taken by a WireGuard link that the journal names; the link is then configured with the given settings. At every call of a start, a link of ours is named by the journal, apart from links unnamed before, the link whose entry this start writes over, and a link whose creation was reported as failed; the overwritten one is really lost. Links of other names are left alone. A start that finds its name taken by somebody else's WireGuard link passes a point at which a repair would take that link |
| KernelLink.MarkKernelDeviceRunning | src/backend/wg/linux_kernel.rs:92-94 | The journal names the link as running, or is as it was |
| KernelLink.WriteAheadWhenNameIsFree | src/backend/wg/linux_kernel.rs:66-90 | With the journal absent or naming the same tunnel, and no lost answer, every link of ours is named at every point |
| Engine.FailsUpgradedIff | src/backend/wg/engine/start_pipeline.rs:325-434 | A kernel start fails with an upgrade in effect exactly when the guard could not be cleaned up after it, and then with a network error |
| Engine.StuckGuardLeavesUpgrade | src/backend/wg/engine/start_pipeline.rs:417-433 | Answers for which it does |
| Engine.UpgradeCanOutliveStartIff | src/backend/wg/engine/start_pipeline.rs:307-439 | A request can end that way exactly when it asks for quantum without DAITA and does not insist on userspace |
| Engine.EngineState.MakeKernelLink | src/backend/wg/engine/start_pipeline.rs:315-323 | The cached device is stopped before the link is created; the link is journaled ahead and configured; it is made exactly when no call failed and the name could be had |
| Engine.EngineState.constructor | src/backend/wg/engine/state.rs:14-36 | A new engine owns nothing |
| Engine.EngineState.CleanupActiveNetworkState | src/backend/wg/engine/stop_pipeline.rs:25-32 | The network state is handed to its cleanup exactly once and forgotten |
| Engine.EngineState.ShutdownActiveBackend | src/backend/wg/engine/stop_pipeline.rs:111-137 | Whatever was active is let go of, and no network state is dropped uncleaned, because there is none |
| Engine.EngineState.Release | src/backend/wg/engine/stop_pipeline.rs:111-128 | A device is stopped; a link is deleted with its journal, or stays named by it |
| Engine.EngineState.UpgradeKernelEphemeral | src/backend/wg/engine/start_pipeline.rs:442-503 | The flags and the configuration of the link follow the upgrade that took effect, and a failed negotiation leaves its failure; it succeeds exactly when no call failed, there is a peer, and DAITA is not asked for |
| Engine.EngineState.FinishKernelStart | src/backend/wg/engine/start_pipeline.rs:374-434 | From the mark to the end: error and upgrade are the ones the answers along the way decide; on failure guard, network state and link have been given back, and the error is never one that allows a fallback |
| Engine.EngineState.FinishUpgrade | src/backend/wg/engine/start_pipeline.rs:388-433 | The upgrade of a marked link, and the release of its guard on every path; on failure everything has been given back |
| Engine.EngineState.GiveBack | src/backend/wg/engine/start_pipeline.rs:357-368 | Guard, network state and link are each given back once |
| Engine.EngineState.ConfigureKernelTunnel | src/backend/wg/engine/start_pipeline.rs:325-434 | The guard is handed to its cleanup exactly once on every path, whether the start succeeds or fails, and the answers along the way decide error and upgrade |
| Engine.EngineState.StartLinuxKernel | src/backend/wg/engine/start_pipeline.rs:307-439 | On every exit the guard is back; on failure nothing is left running and the link is gone or journaled; an unavailable kernel is reported only when guard and network were never touched; an upgrade is in effect after a failure exactly when the guard was stuck after it; the start succeeds exactly when no call failed, the name could be had and the upgrade asked for is possible, and the link is then configured as the settings, or the upgrade, say |
| Engine.EngineState.UpgradeUserspaceEphemeral | src/backend/wg/engine/start_pipeline.rs:227-288 | The flags and the configuration of the device follow the upgrade that took effect; it succeeds exactly when no call failed and there is a peer |
| Engine.EngineState.RecoverUserspaceSlot | src/backend/wg/engine/start_pipeline.rs:290-304 | A new device is stopped; an old one is cached again, or stopped where its peers cannot be cleared |
| Engine.EngineState.TakeUserspaceSlot | src/backend/wg/engine/start_pipeline.rs:124-146 | A cached device is used exactly under its own name; any other is stopped first |
| Engine.EngineState.ConfigureUserspaceTunnel | src/backend/wg/engine/start_pipeline.rs:158-195 | On failure the network state is handed to its cleanup and the device recovered; the answers decide the error |
| Engine.EngineState.StartUserspace | src/backend/wg/engine/start_pipeline.rs:113-196 | The start succeeds exactly when no call failed and there is a peer for the upgrade asked for; the device is then configured as the settings, or the upgrade, say; its error is the one the answers decide, and it leaves at most the device that was cached before |
| Engine.EngineState.PrepareStart | src/backend/wg/engine/start_pipeline.rs:58-85 | Nothing is started for a request that cannot be, for a configuration that does not parse, or for one that DAITA validation refuses; the failure of that validation is kept |
| Engine.EngineState.ForgetLastRun | src/backend/wg/engine/start_pipeline.rs:45-56 | A backend left over by a failed stop is let go of first, which frees no name and takes none |
| Engine.EngineState.Start | src/backend/wg/engine/start_pipeline.rs:44-111 | With no call failing a start succeeds exactly when there is a backend for the request, a peer for the upgrade it asks for, and a name for the link; what runs is configured with the settings of the configuration, or with what was negotiated. A failed start leaves no guard, network configuration or running device behind; the network is configured at most once, so a fallback never follows a first application; the fallback is taken exactly for an unavailable kernel and a user without a preference; on success exactly one backend runs, the one the decision or the fallback says, never DAITA on the kernel nor against the user's choice; after a failure the upgrade flags are off except when the guard could not be cleaned up after an upgrade, which takes a quantum request without DAITA for the kernel |
| Engine.EngineState.StartBackend | src/backend/wg/engine/start_pipeline.rs:86-110 | The same from the choice of the backend on |
| Engine.EngineState.StopActiveBackend | src/backend/wg/engine/stop_pipeline.rs:80-108 | A device whose keys were not negotiated is cached, any other stopped; a kernel link is gone and its journal removed, or it stays with the engine and in the journal |
| Engine.EngineState.Stop | src/backend/wg/engine/stop_pipeline.rs:37-78 | A stop is good exactly when no call failed, the cleanup of the network configuration included, and the link has not been replaced by one of another kind; after it nothing is running and the kernel link and its journal are gone; the network state has been handed to its cleanup in any case |

## Left out

- Win32, netlink, PowerShell and filter-engine calls, and their data layouts: each is a step on the machine that may
  fail. Adding what exists and deleting what does not count as success.
- Evidence texts, log output, timing and the scheduler.
- Text forms of addresses, keys, GUIDs and journals: values are identified with their canonical text, and DNS
  settings with the trimmed text that is read back (no text is no setting).
- The parsers of single values (keys, numbers, addresses, endpoints): parameters of the configuration parser.
- Why a name resolves, a route is known or a negotiation succeeds: the answers are recorded, whatever they are.
- The removal of stale addresses is neither journaled nor undone, so the base of a run is the machine
  after that stage; `ApplyNetworkConfig` says which addresses can be missing.
- WindowsModel.RollbackRestoresBase: assumes that undo calls succeed; where one fails, the failure is logged and the
  journal cleared all the same. Every call of the `World` made to undo something counts its own failures, and
  `CleanupNetworkConfig` speaks of runs without any.
- The machines replace files by a rename that overwrites; the arm for platforms where it does not is covered by
  `AtomicFile` alone.
- The removal of filters by Windows when their session ends, and rules of other programs with our tag.
- KernelLink.StartKernelDevice: links that other programs create or delete between two calls are not modelled.
- Engine.EngineState.StopActiveBackend: a userspace device whose peers cannot be cleared is dropped; dropping
  counts as giving it back.
- The network configuration is one step for the engine, whatever the platform; its stages on Linux are not modelled.
- Key negotiation, traffic shaping, TLS, the relay list and update checks.
- Loading saved statistics, and resetting the persistence state of the traffic store.
- The two pairs of functions for day and hour lists differ only in the key type and the cap: they are modelled once.
- The configuration library, single-instance locking, views, tray, themes and preferences.
