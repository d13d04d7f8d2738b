# A verified model of X-port

X-port is a control panel for an Xray server and the host firewall. This project
models the parts of it that hold state across failures and proves what they
keep. Verify it with `dafny verify dfyconfig.toml`.

## What is modelled

**The host firewall** (`FirewallRules`, `FirewallText`, `FirewallHost`,
`FirewallChange`). A `Native` is one line of the host firewall: an open port, an
open range, a simple rich rule, or a UFW rule. A `Host` is the set of lines in
the runtime layer and the set in the permanent layer. The conflict sweep, the
recognisers and printers of native text, the rule ids with the settings keys
built on them, and the helper's guards and edits are proved against independent
definitions.

**The armed-undo protocol** (`Recovery*`). `RecoveryProtocol` is a state machine
over the host, the settings, the recovery timers, the clock, the position of the
one handler that holds the firewall mutex, and the helpers that outlived theirs.
A helper edits the host in a unit of its own: when its handler crashes, exceeds
its budget or stops waiting, the helper goes on, step by step, to its end. Between
any two steps of a handler the clock may advance, a timer may run one command of
its script, a left-over helper may take a step, another manager may edit the host,
or the panel may crash; every step may fail before or after it took effect. A run
is any sequence of events, and an event that is not enabled changes nothing.

- `RecoveryInvariant` proves what every step keeps and `RecoverySafety` what holds
  over every run; `RecoveryOrigins` traces every operation, timer and helper back
  to an accepted request and to the moment its helper found the host ready.
- `RecoveryRestore` proves that the timer's script puts back what the change
  disturbed, and `RecoveryAccess` that protected ports stay open.
- `RecoveryOwned`, `RecoveryOwnedSteps` and `RecoveryOwnedEdits` prove that no rule
  owned by the panel is lost, `RecoveryHeld` what holds one that is not in force,
  `RecoveryBroken` what becomes of one whose recovery script fails,
  `RecoveryOrphans` which steps leave a timer without a record, and `RecoveryGone`
  that what a confirmation closed stays closed.
- `RecoveryRuns` follows requests through runs in which nothing fails, and
  `RecoveryScenarios` and `RecoveryInterleaved` show runs in which the protocol
  does less than it promises.
- `RecoveryServer` holds the handlers in their own form, a class whose methods
  change its fields one step at a time; each is shown to follow a run of the
  protocol, so every theorem about runs holds for it, and to carry its request
  through when nothing goes wrong (`RecoveryProgress`). `RecoveryGuards` holds the
  loops with which they inspect a report of the host.

The protocol rests on these assumptions about the world:

- adding a rule that is there, or removing one that is not, changes nothing;
- a timer has run to its end once its announced deadline has passed, and starts
  before that deadline by the time its scheduling call took, between a millisecond
  and 12 seconds;
- a call that cancels a timer and fails has not stopped it; one that succeeds stops
  a timer that is waiting, and does nothing to a script that has begun;
- timer units and confirmation tokens are never used twice.

**Accounts** (`Accounts`, `AccountRuns`, `AccountStore`, `AccountService`,
`AccountRequests`, `Allocators`). The traffic tick with its expiry, quota and
monthly policy; the accounts table with atomic replacement; the service that
applies a change to Xray, stores it, and compensates when storing fails; and any
sequence of requests to it.

**Xray** (`XrayConfig`, `XrayConfigLaws`, `GlobalSections`, `XrayManager`,
`RestartGate`). The rendered configuration as a JSON value, the editable global
sections, the swap-restart-restore of a configuration, and the restart gate.

**Files and logins** (`FileSwap`, `LoginLimiter`). The file swaps of the panel
update, the core rollback and the GeoData update over a file system in which each
operation may fail, and the login limiter.

## What turned out not to hold

Each of these is stated as a lemma, next to the theorem that says exactly when
the promise is kept.

- Removing an owned rule that is paused arms a timer and is then refused by the
  helper; two minutes later the timer opens the port that was closed
  (`RecoveryScenarios.RemovingPausedRuleReopens`). The recovery restores the
  original rules if and only if they were ready when the timer was armed
  (`RecoveryRestore.UndoRestoresIffReady` for the script, `FiredTimerRestores` over
  runs). Every other armed request checks that first
  (`RecoveryRestore.GuardsReady`).
- A confirmation that stops its timer and then dies, or fails its second
  inspection, cannot be repeated (`RecoveryScenarios.RepeatedConfirmationStrands`):
  a paused rule can be neither resumed nor re-added by a timer; a block stays in
  force, owned by nobody, with every further request on it refused. A confirmation
  that nothing disturbs goes through if and only if the timer of its record is
  still live (`RecoveryRuns.ConfirmedIffLive`), and strands its rule if and only if
  it is not (`RecoveryScenarios.StrandedIffNotLive`).
- Stopping the timer does not stop a script that has begun. A block confirmed at
  that moment is reported as confirmed and then removed
  (`RecoveryScenarios.BegunScriptUndoesConfirmedBlock`). A confirmation is safe
  from its own timer if and only if it stopped it before its script began
  (`RecoverySafety.ClearingIsFinal`).
- A helper that outlives its handler may edit the host after the timer has run, so
  that a rule it closes is lost (`RecoveryScenarios.LateHelperLosesRule`); or, having
  found the port closed and been slow, take away by its compensation a rule that a
  second request has added since (`RecoveryScenarios.SlowHelperCloses`). An edit is
  covered by a timer that is yet to run whenever the timer's moment has not come
  (`RecoverySafety.EditIsCovered`), and an open protected port stays open in every
  continuation if and only if no helper that could still close it is at work
  (`RecoveryAccess.StaysOpenIffOpen`).
- An attempt that fails after arming leaves a timer without a record
  (`RecoveryScenarios.FailedAttemptLeavesOrphan`). If the request is repeated and
  confirmed, that timer still undoes it
  (`RecoveryScenarios.OrphanTimerUndoesConfirmedBlock`), so the theorem that owned
  rules are never lost is about runs without such timers.
  `RecoveryOrphans.OrphanedExactly` says which steps leave one.
- A second edit is accepted while the first one's timer is armed. When it moves the
  rule on and is confirmed, and the rule in the middle is opened and owned again,
  the first timer removes that rule
  (`RecoveryScenarios.OverlappingEditsLoseOwnedRule`). The scripts of two
  overlapping edits may run in any interleaving (`RecoveryInterleaved.InterleavingRuns`);
  every other rule is then as before, and the middle rule stays open in a layer if
  and only if there the second script adds it after the first has removed it
  (`RecoveryInterleaved.InterleavedEdits`): the original rules are back when the
  second edit is undone first (`RecoveryScenarios.OverlappingEdits`).
- A confirmation of a pause or a removal that dies after stopping its timer leaves
  the rule owned, closed, and held by nothing but its expired record; the run is
  otherwise free of the disturbances above (`RecoveryHeld.DyingConfirmationForsakes`).
- The recovery scripts stop at their first error and nothing tries again. When a
  command of the undo of an unconfirmed removal or pause fails, the rule stays
  owned and closed, held by nothing but a record that then expires
  (`RecoveryBroken.BrokenUndoForsakes`); when that happens before the record is
  stored, not even by that (`RecoveryBroken.BrokenBeforeSaved`).
- The ownership of a block is stored before its timer is stopped. When the panel
  crashes in between and the timer removes the block, the ownership stays, with
  nothing but the expired record beside it
  (`RecoveryScenarios.StagedBlockOutlivesUndoing`). This and the two before are the
  only ways: in a run without the other disturbances an owned rule that is not in
  both layers, not paused and not re-added by a live timer has the record of a
  block, or one whose timer a confirmation has stopped, or one whose script had a
  command fail (`RecoveryHeld.AbsentIsRecorded`); and when no confirmation dies
  half-way the second is being confirmed at that moment
  (`RecoveryHeld.OwnedIsHeldFirmly`).
- A confirmed removal, pause or edit does not always stay so: a timer without a
  record or a left-over helper of the same rule may open it again. Once its second
  inspection has passed, its rule stays out of both layers in every continuation,
  until another manager adds it or a request is about it, if and only if no timer
  is yet to add it and no left-over helper could
  (`RecoveryGone.ConfirmedGoneExactly`).
- An account that was switched off by hand and is over its quota is relabelled and
  comes back at the next month (`Accounts.RelabelledReturns`). The mark survives a
  tick if and only if the account is neither expired nor, unless a new month has
  begun, over its quota (`Accounts.ManualMarkSurvives`).
- A stored global configuration that is the JSON value `null` leaves the renderer
  without a map to write to (`XrayConfig.BuildConfigWithBase` answers `Panics`
  exactly then). A candidate that makes it panic is kept, since the panic skips the
  step that would put the former one back (`XrayManager.Manager.ApplyWithBase`).

A *calm world*, below, is one in which nothing happens between the steps of a
handler and every step succeeds. A *left-over* helper is one whose handler is gone.

## Model

| member | source | states |
|---|---|---|
| `FirewallRules.MarkRuleConflicts` | internal/firewall/firewall.go:324-358 | a rule ends up marked exactly when it was marked or another rule of its backend, zone and protocol that shares an address family intersects its interval; whatever the order of groups and of ties |
| `FirewallRules.GroupByTable` | internal/firewall/firewall.go:325-339 | each rule is in the group of each family it covers, once, and in no other |
| `FirewallRules.SortIndices` | internal/firewall/firewall.go:341-345 | the group in order of first port and range end, with nothing lost; ties free |
| `FirewallRules.SweepGroup` | internal/firewall/firewall.go:346-356 | in a sorted group exactly the rules that intersect another one get marked |
| `FirewallRules.OnlyHighestIsNew` | internal/firewall/firewall.go:346-356 | why comparing with the furthest-reaching rule only is enough |
| `FirewallRules.SweepStep` | internal/firewall/firewall.go:351-355 | one turn of the sweep marks exactly the rules that become marked by one more interval |
| `FirewallRules.MarkedIsOverlap` | internal/firewall/firewall.go:326-358 | sweeping every group marks what the pairwise definition marks |
| `FirewallText.ParsePortExact` | internal/firewall/firewall.go:70-73 | accepts exactly the printed form of a valid port and protocol, and recovers both |
| `FirewallText.ParsePortSpecExact` | internal/firewall/firewall.go:75-82 | accepts exactly the printed valid ports and ascending valid ranges |
| `FirewallText.ParseSimpleRichRuleExact` | internal/firewall/firewall.go:310-321 | accepts exactly, up to surrounding Unicode white space, the printed simple rich rules on valid ports, and recovers the rule |
| `FirewallText.DropRoundTrip` | internal/firewall/firewall.go:410-413 | reading the printed drop policy gives back its port, its protocol, the deny action and both families |
| `FirewallText.RuleIdInjective` | internal/firewall/firewall.go:364-368 | different valid rules have different ids; in particular an allowance and a rich rule never share one |
| `FirewallText.SettingKeyInjective` | internal/server/firewall.go:409-411 | no settings key of one rule and purpose is the key of another rule or purpose |
| `FirewallHost.Inspect` | internal/firewall/firewall.go:206-305 | the report lists each visible rule once, with its layers and with the conflict mark of the pairwise definition |
| `FirewallHost.DualConflictsWithEveryCover` | internal/firewall/firewall.go:324-358 | a dual-family single-port rule conflicts with every other rule of its zone and protocol that covers its port |
| `FirewallHost.UnmarkedAllowIsAlone` | internal/firewall/firewall.go:360-363 | the first match, if it is an unmarked plain allowance in both layers, is the only rule of the zone covering the port |
| `FirewallHost.AllowGuardExact` | internal/firewall/firewall.go:374-384 | the helper's checks on the first match pass if and only if a removal finds its rule alone and in both layers, or an addition finds none |
| `FirewallChange.DropGuardExact` | internal/firewall/firewall.go:424-441 | the checks for a drop policy pass if and only if a removal finds it alone in its zone and in both layers, or an addition finds the port ungoverned in every zone |
| `FirewallChange.Firewalld.Change` | internal/firewall/firewall.go:369-407 | refused exactly when the host does not admit the change; a success sets both layers; a failure touches no other rule, and leaves the host as it was when the failing command had no effect and the compensation works |
| `FirewallChange.Firewalld.ChangeSimpleDrop` | internal/firewall/firewall.go:416-452 | the same for the panel's own drop policy |
| `RecoveryInvariant.StepKeeps` | internal/server/firewall.go:310-366 | every event keeps the invariant: a held timer carries the inverse of its operation and cannot start within the handler's budget, records name their timers one to one, a confirmation acts on the stored record with its metadata staged, a left-over helper has a timer that no record names and nobody stopped |
| `RecoveryInvariant.RunKeeps` | internal/server/firewall_pending.go:67-185 | the invariant holds in every state of every run |
| `RecoverySafety.EditIsCovered` | internal/ops/firewall.go:20-66 | whoever edits a layer for an armed change, its handler or a left-over helper, the timer carries the inverse and was not stopped; it is yet to run whenever the handler is at work or its moment has not come, and its script has ended from the deadline on |
| `RecoverySafety.TouchedStaysCovered` | internal/server/firewall.go:533-559 | in every later state of every run that timer is still armed, or has begun, or was stopped by a confirmation in between; the last never after an edit by a left-over helper |
| `RecoverySafety.OnlyConfirmStops` | internal/ops/firewall_rollback.go:60-70 | one step stops a timer only on behalf of a confirmation that holds the stored record and has staged its metadata |
| `RecoverySafety.ConfirmationWasRequested` | internal/server/firewall_pending.go:72-126 | every confirmation in progress goes back to a request with the stored token, in time, that saw the announced rules |
| `RecoverySafety.StopNeedsConfirmation` | internal/server/firewall_pending.go:127-148 | a timer stops only after such a request, with the metadata already stored at that moment |
| `RecoverySafety.TokenStaysSpent` | internal/server/firewall_pending.go:153-184 | after a successful confirmation no record ever carries its token again |
| `RecoverySafety.ReplayRefused` | internal/server/firewall_pending.go:72-78 | presenting the token again, for any rule and in any later state, changes nothing |
| `RecoverySafety.ClearingIsFinal` | internal/server/firewall_pending.go:145-183 | once the final settings are being written, the timer has been stopped or its script has begun, and it is stopped in every later state exactly when it is stopped then |
| `RecoverySafety.EditMovesAnnotations` | internal/server/firewall_pending.go:154-171 | confirming an edit moves the note and the purpose to the new rule, drops the record and changes no other setting |
| `RecoverySafety.RestartsAreClear` | internal/server/extra.go:123-138 | however updates and firewall requests interleave, every panel restart was scheduled at a moment with no record inside its deadline plus grace |
| `RecoveryRestore.GuardsReady` | internal/server/firewall.go:504-532 | every armed request but a plain removal finds its rules where its inverse expects them |
| `RecoveryRestore.UndoRestoresIffReady` | internal/ops/firewall_rollback.go:43-116 | after any partial execution on its own rules, the script gives back the original host if and only if the original was ready |
| `RecoveryRestore.FiredTimerRestores` | internal/ops/firewall_rollback.go:71-128 | over runs, with the change, its failures, crashes, left-over helper and script interleaved step by step and other rules changing freely: once the timer has run, the rules of the operation are in each layer where they were at arming, if and only if they were ready then |
| `RecoveryRestore.AcceptedChangeIsUndone` | internal/server/firewall.go:555-559 | from acceptance to the end of the timer, every armed request but a plain removal has its own rules put back in both layers, whatever happens to other rules |
| `RecoveryRestore.AcceptedChangeIsUndoneWholly` | internal/server/firewall.go:555-559 | the whole host is then as it was exactly when the other rules are |
| `RecoveryAccess.StaysOpenIffOpen` | internal/server/firewall.go:109-127 | whatever is requested, fails, fires, crashes or is left over, and however other managers edit other rules: an allowance of a protected port stays in force in every continuation if and only if it is in force and no helper that could still close it is at work |
| `RecoveryAccess.SshStaysOpen` | internal/server/firewall.go:337-338 | in every run in which other managers leave it in both layers, an open port 22 that no helper could still close stays open |
| `RecoveryOrigins.TimerWasAccepted` | internal/server/firewall.go:456-475 | every timer of every run was armed for an accepted request that had been told its ports are unprotected, and that they are silent where it could cut a service off, except for a pause of Xray's own port |
| `RecoveryOrigins.WorkWasAdmitted` | internal/firewall/firewall.go:374-392 | every helper past its check, of a handler or left over, goes back to a moment at which the host was as its change requires |
| `RecoveryOrigins.RemovalEditsOnlyWhatWasReady` | internal/firewall/firewall.go:378-384 | in every run a plain removal edits a layer only if its helper had found the rule in both layers |
| `RecoveryAccess.RunSpares` | internal/server/firewall.go:445-450 | no operation in progress or left-over helper, other than of an addition, and no timer ever concerns a protected port |
| `RecoveryOwnedEdits.OwnedNeverLost` | internal/server/firewall.go:476-503 | in every state of every run without timers left without a record, scripts that break off while their handler has yet to store the record, edits of a rule about to change, confirmations of a block being undone, and outsiders at work on a rule that is owned, armed or requested: each owned rule is in both layers, or has pause metadata, or a record whose timer is live, was stopped or broke off, or an armed timer that re-adds it, or is a block whose record is there |
| `RecoveryOwnedEdits.StepOwn` | internal/server/firewall_pending.go:129-180 | every step of such a run keeps the supporting invariant |
| `RecoveryOwned.LiveIsRecorded` | internal/server/firewall_pending.go:33-55 | a live timer that speaks of a rule belongs to the record of that rule or of an edit that leads to it |
| `RecoveryHeld.AbsentIsRecorded` | internal/server/firewall_pending.go:127-148 | in such a run an owned rule that is not in both layers, not paused and not re-added by a live timer has the record of a block, or one whose timer a confirmation has stopped, or one whose script had a command fail |
| `RecoveryHeld.OwnedIsHeldFirmly` | internal/server/firewall_pending.go:142-183 | if moreover no confirmation ends between stopping its timer and dropping its record, each owned rule is in both layers, paused, re-added by a live timer, the block of a record, being confirmed at that moment, or has a record whose script had a command fail |
| `RecoveryHeld.DyingConfirmationForsakes` | internal/server/firewall_pending.go:142-148 | a confirmation of a pause or a removal that dies after stopping its timer, and is even repeated, ends in such a run with the rule owned, closed and beside an expired record only |
| `RecoveryBroken.BrokenUndoForsakes` | internal/ops/firewall_rollback.go:43-85 | from any quiet state: an accepted removal or pause is applied and recorded, and the first command of its undo fails; the run is such a run, and ends with the rule owned, closed and beside an expired record only |
| `RecoveryBroken.BrokenBeforeSaved` | internal/server/firewall.go:547-560 | when the script breaks off before the record is stored, nothing holds the rule at that moment |
| `RecoveryGone.StaysGoneIffGone` | internal/ops/firewall.go:20-66 | from any state of any run: a rule stays out of both layers in every continuation in which no other manager adds it and no request is about it, if and only if it is in neither, no timer is yet to run a command that adds it, no left-over helper could (an addition short of its compensation, a removal past its check), and neither could the handler |
| `RecoveryGone.ConfirmedGoneExactly` | internal/server/firewall_pending.go:145-153 | of a removal, pause or edit whose second inspection passed, with the timer stopped or not: that holds for its rule if and only if the rule is in neither layer, no timer is yet to add it and no left-over helper could; in a zone that is active it is in neither layer, and with the timer stopped only a timer without a record can be yet to add it |
| `RecoveryGone.ConfirmedStaysGone` | internal/server/firewall_pending.go:147-184 | over runs: if such a confirmation stopped its timer, the zone is active, no timer without a record is yet to add the rule and no left-over helper could, the rule is in no layer of any later state until another manager adds it or a request is about it |
| `RecoveryOrphans.OrphanedExactly` | internal/server/firewall.go:547-568 | in every run a step leaves a live timer without a record exactly when a lost reply, a failure or the end of a handler lets go of it, or a confirmation drops the record of a script that has begun |
| `RecoveryScenarios.RemovingPausedRuleReopens` | internal/server/firewall.go:333-348 | removing an owned rule that is absent: refused, nothing changed, and the port open two minutes later |
| `RecoveryScenarios.FailedAttemptLeavesOrphan` | internal/server/firewall.go:547-559 | a helper that fails at once leaves an armed timer without a record, and the same request is accepted again |
| `RecoveryScenarios.OrphanTimerUndoesConfirmedBlock` | internal/server/firewall.go:555-559 | a left-over timer takes away a block that was confirmed later, and nothing holds it |
| `RecoveryScenarios.RepeatedConfirmationStrands` | internal/server/firewall_pending.go:142-148 | crash, or fail the second inspection, after stopping the timer, and confirm again: a paused rule is closed, unheld and cannot be resumed; a block is in force and disowned, and every request on it is refused |
| `RecoveryScenarios.StrandedIffNotLive` | internal/server/firewall_pending.go:133-148 | a confirmation of a pause or a block that nothing disturbs strands its rule if and only if the timer of its record is no longer live |
| `RecoveryRuns.ConfirmedIffLive` | internal/server/firewall_pending.go:127-185 | with nothing in its way a confirmation drops the record and keeps the staged metadata if and only if the timer is live; otherwise the record stays and the metadata is withdrawn |
| `RecoveryScenarios.BegunScriptUndoesConfirmedBlock` | internal/ops/firewall_rollback.go:60-70 | a block confirmed while its undoing runs is owned, without a record, and gone |
| `RecoveryScenarios.StagedBlockOutlivesUndoing` | internal/server/firewall_pending.go:133-141 | a crash after staging leaves a block owned that the timer then removes |
| `RecoveryScenarios.SlowHelperCloses` | internal/ops/firewall.go:20-66 | a left-over helper of an addition compensates after the addition was repeated, and the owned rule leaves the runtime layer |
| `RecoveryScenarios.LateHelperLosesRule` | internal/ops/firewall.go:20-66 | a left-over helper of a pause closes the rule after its timer has run, and nothing holds it |
| `RecoveryScenarios.OverlappingEdits` | internal/server/firewall_pending.go:45-55 | of two chained edits, the second undone first gives back the original rules, and the first undone first leaves the middle rule open |
| `RecoveryInterleaved.InterleavedEdits` | internal/ops/firewall_rollback.go:71-128 | undone in any interleaving of their scripts, in each layer the middle rule stays exactly when the second script adds it after the first removed it, and every other rule is as before |
| `RecoveryInterleaved.InterleavingRuns` | internal/ops/firewall_rollback.go:71-128 | two scripts that have begun can run in every interleaving of their commands |
| `RecoveryScenarios.OverlappingEditsLoseOwnedRule` | internal/server/firewall.go:580-675 | from any quiet state: edit a to b, edit b to c, confirm the second, open b again, each accepted; then the first timer removes b, which is owned and held by nothing |
| `RecoveryGuards.CheckAnnounced` | internal/server/firewall_pending.go:87-126 | the scan of a report accepts exactly the announced state |
| `RecoveryGuards.FindGoverning` | internal/server/firewall.go:429-444 | the count-and-target loop decides how many rules govern the port, in which zones, and whether the requested one is alone |
| `RecoveryGuards.CheckEditable` | internal/server/firewall.go:594-636 | the two loops accept exactly an editable source with nothing in the way of source or destination |
| `RecoveryGuards.CheckLanded` | internal/server/firewall.go:653-666 | the loop after an edit accepts exactly: source gone, destination in both layers without conflict |
| `RecoveryGuards.CheckAdmitted` | internal/firewall/firewall.go:372-384 | the helper's inspection admits exactly the changes the protocol admits |
| `RecoveryProgress.AcceptedGoes` | internal/server/firewall.go:533-559 | an accepted request, other than the plain ones, is admitted by its helper at each of its changes, and an edit lands |
| `RecoveryProgress.CompensationRestores` | internal/firewall/firewall.go:388-392 | when only the permanent edit fails, without effect, the compensation leaves the host as it was |
| `RecoveryProgress.AdditionCanBeTakenBack` | internal/server/firewall.go:493-500 | an addition whose metadata cannot be stored is taken back through the helper's own guards, to the host before it |
| `RecoveryServer.Panel.ScheduleUndo` | internal/ops/firewall_rollback.go:27-128 | takes the arming step; succeeds exactly within the budget when scheduling works, and then the timer carries the inverse of the operation |
| `RecoveryServer.Panel.RunHelper` | internal/firewall/firewall.go:385-392 | runs check, runtime edit, permanent edit and compensation as steps of the protocol, and is left over when its handler ends; undisturbed, an admitted change ends in both layers after three phases |
| `RecoveryServer.Panel.GoOnAlone` | internal/ops/firewall.go:20-66 | a left-over helper takes its steps as events of the run |
| `RecoveryServer.Panel.RunUnarmed` | internal/server/firewall.go:346-360 | follows a run; a success has stored its metadata and any other end has not; in a calm world both layers are set, and when only the metadata cannot be stored host and settings are as before |
| `RecoveryServer.Panel.UndoAddition` | internal/server/firewall.go:350-357 | an undisturbed helper that admits the removal takes the rule out of both layers |
| `RecoveryServer.Panel.SavePending` | internal/server/firewall_pending.go:36-55 | stores the record with the next token under the source id exactly when storing works |
| `RecoveryServer.Panel.RuleChange` | internal/server/firewall.go:310-366 | follows a run; refused exactly when the request is not acceptable, changing nothing; an accepted addition is owned, a pending removal is recorded; in a calm world both layers are set whenever the helper admits the change, and an addition that cannot be owned leaves host and settings as before |
| `RecoveryServer.Panel.Control` | internal/server/firewall.go:398-568 | follows a run; refused exactly when not acceptable; a resume clears its metadata, an armed request is recorded under the token it answers; in a calm world every accepted request goes through and sets both layers, and a resume that cannot be stored leaves host and settings as before |
| `RecoveryServer.Panel.ExternalEdit` | internal/server/firewall.go:580-675 | follows a run; refused exactly when not acceptable; in a calm world every accepted edit ends recorded, with source and destination exchanged in both layers |
| `RecoveryServer.Panel.ConfirmChange` | internal/server/firewall_pending.go:67-185 | follows a run; refused exactly when not acceptable; on success the record is gone, the timer stopped or its script begun, and the settings are those the kind of change needs; in a calm world it succeeds exactly when the timer is live, and the whole state after it is given for both cases |
| `RecoveryServer.Panel.CancelTimer` | internal/ops/firewall_rollback.go:60-70 | succeeds exactly when the call works and the timer is live, and stops it exactly when its script has not begun; otherwise the metadata is still to be withdrawn |
| `RecoveryServer.Panel.WriteSettings` | internal/server/firewall_pending.go:152-183 | a success has stored every final setting in order |
| `RecoveryServer.Panel.UpdatePanel` | internal/server/extra.go:161-191 | follows a run; refused exactly when a record blocks it; an update that fails leaves no staged binary if the restore works, and the deferred one if not; in a calm world an unblocked update is scheduled |
| `Accounts.TickInPlace` | internal/service/runtime.go:29-58 | the loop leaves every account as the policy says; the configuration flag holds exactly when some account was switched, and one of the flags exactly when something changed |
| `Accounts.TickEnforces` | internal/service/runtime.go:47-56 | no account is left running that is expired or has used up its quota |
| `Accounts.TickSwitchesOn` | internal/service/runtime.go:38-46 | a tick switches on exactly the quota-suspended, unexpired accounts whose new month begins |
| `Accounts.TickSwitchesOff` | internal/service/runtime.go:47-56 | it switches off exactly the running accounts that are expired, or over quota with no new month |
| `Accounts.TickSettles` | internal/service/runtime.go:33-58 | repeating the tick at the same moment changes nothing |
| `Accounts.ManualMarkSurvives` | internal/service/runtime.go:42-56 | an account switched off by hand stays off in the tick, and keeps the mark exactly when neither expired nor, without a new month, over quota |
| `Accounts.RelabelledReturns` | internal/service/runtime.go:53-55 | a relabelled account is switched on at the next month |
| `AccountRuns.LifetimeConserved` | internal/store/maintenance.go:53-63 | over any run of ticks, resets, switches and edits, lifetime bytes are the start value plus every accepted delta, also when ticks fail after recording |
| `AccountRuns.OneResetPerMonth` | internal/service/runtime.go:36-41 | with time not going back and every edit keeping the policy on, the monthly policy zeroes the counters exactly once per newly seen month |
| `AccountRuns.OneResetPerSettledMonth` | internal/service/runtime.go:36-41 | however edits switch the policy off and on, it zeroes the counters exactly once for each month that a tick is the first to settle |
| `AccountRuns.ResetIsFirstTick` | internal/service/accounts.go:182-186 | a tick resets exactly when it runs under the policy and neither a tick nor an edit that starts a cycle has settled its month |
| `AccountRuns.ManualStaysOff` | internal/service/runtime.go:42-45 | below its limits, an account switched off by hand stays off over any run in which no stored switch or edit turns it on |
| `AccountRuns.EnabledIsClean` | internal/service/toggle.go:33-46 | an enabled account never carries a reason for being disabled |
| `AccountStore.Store.ReplaceAccounts` | internal/store/store.go:144-157 | all rows or none, and all exactly when no statement fails and every row fits; the new table is what inserting one by one gives |
| `AccountStore.Store.AddTrafficBatch` | internal/store/maintenance.go:30-68 | all updates or none; refused exactly for a negative number or a failing transaction |
| `AccountStore.InsertedAllKeepsTable` | internal/store/maintenance.go:173-199 | the table keeps unique ids, ports and tags, valid ports and listing order |
| `AccountStore.StoredExposes` | internal/store/maintenance.go:183-197 | what is stored exposes exactly what was given, whatever ids were handed out |
| `AccountStore.StoredAsListed` | internal/store/store.go:122-157 | rows already in listing order come back as they were given |
| `AccountStore.CreditIsTotal` | internal/store/maintenance.go:53-63 | each account is credited the whole of what was reported for its tag and nothing else changes |
| `AccountStore.CreditedOnce` | internal/service/runtime.go:23-26 | in any order, and however often a tag is reported, an account sees one credit |
| `AccountService.Service.ApplyAndPersist` | internal/service/accounts.go:188-203 | on success the new rows are stored and live; on failure the rows are unchanged and, unless a compensation fails, live inbounds and rows still agree |
| `AccountService.Service.PersistRuntimeState` | internal/service/runtime.go:78-88 | the same, applying to Xray only when some account was switched |
| `AccountService.Service.Create` | internal/service/accounts.go:47-80 | the new account has the least unused id, an unused port, a tag generated for it, zero counters; the live inbounds follow the rows; fails only for a stated reason; the caller is shown that account unless reading it back fails |
| `AccountService.Service.Update` | internal/service/accounts.go:82-126 | replaces one row by its edited form, keeping id, counters and a reason that still applies; the caller is shown the stored row of that id unless reading it back fails |
| `AccountService.Service.Delete` | internal/service/accounts.go:128-141 | removes exactly the row with the id |
| `AccountService.Service.Clone` | internal/service/accounts.go:143-180 | adds a copy without traffic, reason or month, on its own port and tag; a quota-suspended source gives an enabled clone; shown unless reading it back fails |
| `AccountService.Service.SetEnabled` | internal/service/toggle.go:14-52 | switches one account; refuses to switch on what a tick would switch off |
| `AccountService.Service.ResetTraffic` | internal/service/runtime.go:65-76 | zeroes one account's period counters and ends a quota suspension unless expired |
| `AccountService.Service.ApplyTraffic` | internal/service/runtime.go:20-61 | on success every row is the tick of the credited row; on failure the rows are the credited or the old ones |
| `AccountService.Service.RestoreSnapshot` | internal/service/runtime.go:90-97 | on success the snapshot is stored and live; on failure, unless a compensation fails, rows and live inbounds are the old ones |
| `AccountRequests.Serve` | internal/service/accounts.go:47-203 | any one request: live inbounds follow the rows afterwards unless it fails and a compensation does too; a failing request leaves the rows, or for a tick the credited rows; unless it restores a backup, every account that is there before and after makes exactly the act the request is to it, or none |
| `AccountRequests.ServeAll` | internal/service/accounts.go:188-203 | over any sequence of requests, whichever fail: as long as no compensation fails, the live inbounds are in the end those of the enabled stored accounts, and from each request to the next every account follows its run |
| `AccountRequests.AccountPlays` | internal/service/runtime.go:20-97 | an account that is there throughout, with no restore in between, ends as its run of those acts does |
| `AccountRequests.ServiceConservesLifetime` | internal/service/runtime.go:23-36 | through any requests its lifetime bytes grow by exactly what the store accepted for its tag |
| `AccountRequests.ServiceResetsOncePerMonth` | internal/service/runtime.go:37-49 | through any requests at non-decreasing months the policy zeroes its counters once for every month that a tick was the first to settle |
| `AccountRequests.ServiceKeepsOff` | internal/service/toggle.go:33-46 | switched off by hand, it stays off through any requests that do not switch it on, while every successful tick finds it below its limits |
| `AccountService.Service.ChoosePort` | internal/service/accounts.go:259-266 | the chosen port is bindable and unused; with none requested it is in range, and none is found exactly when none is free |
| `AccountService.TickEnforcesAll` | internal/service/runtime.go:33-58 | after a successful tick no stored enabled account is expired or over quota |
| `AccountService.TickAllSettles` | internal/service/runtime.go:59-60 | repeating a tick with nothing to report changes no row |
| `AccountService.TickIsStep` | internal/service/runtime.go:20-61 | one tick of the service is one act in the run of each account, persisted or not |
| `AccountService.GeneratedTagsApart` | internal/accountcfg/account.go:108 | generated tags on different ports differ |
| `Allocators.NextAvailableId` | internal/service/accounts.go:245-257 | ends with the least unused positive id, at most one more than the number of accounts |
| `Allocators.NextFreePortFrom` | internal/service/ports.go:40-62 | zero exactly when no port of the range is free; otherwise the first free port in cyclic order from the start |
| `Allocators.CandidateOf` | internal/service/ports.go:52-53 | the cyclic scan tries every port of the range at one offset and no other |
| `Allocators.BuildSlug` | internal/accountcfg/account.go:1010-1025 | the loop that stops early computes the shortened lower-case slug |
| `Allocators.SlugBounds` | internal/accountcfg/account.go:1017-1022 | a slug has one to twelve letters or digits |
| `Allocators.PanelTagInjective` | internal/accountcfg/account.go:156-158 | a generated tag determines its port and slug |
| `XrayConfig.CheckAccounts` | internal/xray/config.go:31-42 | the loop accepts exactly well-formed enabled accounts with distinct ports and tags, and renders each |
| `XrayConfig.BuildConfigWithBase` | internal/xray/config.go:27-68 | renders exactly when the accounts, the API port and the base allow it, and then gives the rendering |
| `XrayConfigLaws.RenderForgets` | internal/xray/config.go:46-67 | rendering over an earlier output gives what the original base gives |
| `XrayConfigLaws.RenderStable` | internal/xray/config.go:46-67 | rendering over its own output changes nothing |
| `XrayConfigLaws.ManagedIrrelevant` | internal/xray/config.go:52-54 | dropping the managed sections from the base never changes the rendering |
| `XrayConfigLaws.ApiRuleFirstAndOnly` | internal/xray/config.go:63-66 | the API rule is first and unique, and the others are those of the base |
| `XrayConfigLaws.OthersInOrder` | internal/xray/config.go:65 | the kept rules are all the other rules, in their order |
| `XrayConfigLaws.OtherSectionsKept` | internal/xray/config.go:46-54 | every other section is handed on unchanged |
| `XrayConfigLaws.ConfigExposes` | internal/xray/config.go:28-44 | the rendered inbounds are exactly those of the enabled accounts, the API inbound last |
| `XrayConfigLaws.OrderIrrelevant` | internal/xray/config.go:28-42 | whether accounts can be rendered, and what they expose, does not depend on their order |
| `GlobalSections.EditableGlobalConfig` | internal/xray/global_config.go:29-41 | shows exactly the editable sections of the base |
| `GlobalSections.MergeEditableGlobalConfig` | internal/xray/global_config.go:46-81 | refused exactly for unreadable input or a key that is not editable; otherwise the base without editable and managed sections, plus the edit |
| `GlobalSections.GetPut` | internal/xray/global_config.go:63-71 | storing what was shown drops the managed sections and changes nothing else |
| `GlobalSections.PutGet` | internal/xray/global_config.go:63-71 | what was stored is what is shown |
| `GlobalSections.PutPut` | internal/xray/global_config.go:63-71 | the last edit wins |
| `GlobalSections.SavingUnchangedRendersSame` | internal/xray/global_config.go:43-45 | saving without a change never changes what Xray is given |
| `XrayManager.Manager.Apply` | internal/xray/manager.go:47-121 | applied: file and service hold the rendering; rejected: nothing changed; rolled back: file as before and running; stuck only when a restart failed and there was nothing to restore or restoring failed; panics exactly on a stored null with renderable accounts, changing nothing |
| `XrayManager.Manager.ApplyWithAPIPort` | internal/xray/manager.go:35-45 | the port is kept exactly when it was applied or the renderer panicked |
| `XrayManager.Manager.ApplyWithBase` | internal/xray/global_config.go:103-113 | the base is kept exactly when it was applied, or is the null the renderer panicked on |
| `XrayManager.Manager.AppliedIsLive` | internal/xray/manager.go:101-104 | an applied configuration exposes exactly the enabled accounts |
| `RestartGate.Gate.RestartAndVerify` | internal/xray/restart.go:21-52 | starts are at least three seconds apart; success exactly after consecutive active answers spanning 1.2 seconds, failure after six seconds without them; at most 24 answers |
| `RestartGate.AtMostFourInTenSeconds` | internal/xray/restart.go:11-19 | no ten seconds contain more than four starts |
| `FileSwap.Stage` | internal/selfupdate/updater.go:84-98 | staged exactly when no step fails: candidate in place and the old binary kept; not staged and undone: nothing but the old backup changed |
| `FileSwap.Restore` | internal/selfupdate/updater.go:100-107 | puts the kept binary back exactly when its rename works |
| `FileSwap.UpdatePanel` | internal/server/extra.go:161-190 | a restart is scheduled exactly when nothing blocks and nothing fails, with the candidate in place; otherwise a working restore leaves the original binary |
| `FileSwap.RollbackCore` | internal/xray/rollback.go:27-68 | succeeds exactly when no step fails, and then swaps current and previous; a failure before the last rename leaves everything as it was when the compensations work; when only the last rename fails the swap stands and the replaced core is kept aside; all up to a core left aside earlier, which is given up |
| `FileSwap.RollbackTwice` | internal/xray/rollback.go:22-26 | two successful rollbacks are the identity, but for a core left aside earlier |
| `FileSwap.UpdateGeodata` | internal/xray/geodata.go:68-129 | both data files and the marker are new when nothing fails; otherwise, when compensations succeed, all three are as before |
| `LoginLimiter.Limiter.Allowed` | internal/auth/limiter.go:46-60 | answers as the counter nobody cleans would, for every key that lost no live bucket |
| `LoginLimiter.Limiter.Fail` | internal/auth/limiter.go:62-74 | counts as that counter does; at most one bucket is evicted, and none below capacity |
| `LoginLimiter.AnswerAll` | internal/auth/limiter.go:46-96 | over any sequence of questions, failures and successes on a clock that does not go back: every answer is that of the counter nobody cleans, for each key that had not lost a live bucket by then; each failure costs at most one key its bucket, nothing else does, and none is lost while the keys in use fit |
| `LoginLimiter.Limiter.MakeRoom` | internal/auth/limiter.go:98-123 | evicts at most one bucket, only when full, and one that began no later than any other; then there is room, provided no failure was counted for the empty key, which no caller passes |
| `LoginLimiter.Limiter.Success` | internal/auth/limiter.go:76-80 | forgets the key in both counters |
| `LoginLimiter.ScanFindsOldest` | internal/auth/limiter.go:112-119 | without an empty key the scan finds a minimal start time in any order |
| `LoginLimiter.EmptyHandedExactly` | internal/auth/limiter.go:112-122 | in any order of the map the scan ends empty-handed exactly when it meets the empty key last and that bucket began before every other |
| `LoginLimiter.RefusedExactly` | internal/auth/limiter.go:46-74 | failures inside one window count from the first: the key is refused exactly when there are as many as allowed and the window is not over |
| `LoginLimiter.Login` | internal/server/server.go:149-173 | an attempt is turned away exactly when one of the two counters refuses it; a failure counts in both, a success clears both |

## Left out

- UFW in the protocol: its rules are part of the conflict sweep, but the handlers are modelled for firewalld, the only backend with two layers and with policies.
- FirewallHost.Inspect: starts from the host as a set of parsed lines; failing commands, other packet filters that block the view and the merging of the two listings are not modelled.
- FirewallChange.Firewalld.Change: firewalld only; the branch for UFW, one command without a second layer, is not modelled.
- RecoveryServer.Panel.RuleChange: firewalld only, like the protocol.
- A handler that ends while its helper is still being started leaves that helper over in its first phase, although it may never have run; it then does nothing, or what it would have done.
- One inspection of the host is one atomic read, although it runs several commands.
- Records and paused metadata whose stored JSON does not parse, and the checks of a paused snapshot's own fields: settings hold typed values, with the rule itself for its id (ids are proved injective in `FirewallText`).
- Saving a note or a purpose from the editor, the audit log and the read-only view.
- Settings that cannot be read: such a request is refused like one whose inspection fails.
- RecoveryOwnedEdits.OwnedNeverLost: assumes no timer without a record, no script that breaks off while its handler has yet to store the record, no edit of a rule that a live timer is about to change, no confirmation of a block whose undoing has begun, and no other manager or left-over helper at work on a rule that is owned, armed or requested; `RecoveryScenarios` and `RecoveryBroken` show what happens without each of them.
- RecoveryRestore.AcceptedChangeIsUndone: does not cover a plain removal, for which restoration holds exactly when the rule was in both layers.
- Group keys of the sweep are tuples instead of strings joined by NUL characters, and unknown family texts, which count as dual-family, do not occur.
- The protocol JSON of an account (settings, stream, sniffing, credentials) is given, or none when its editor rejects the input; field-by-field editing is wide and shallow.
- AccountService.Service.Create: does not model the default server names for Reality.
- AccountService.Service.RestoreSnapshot: whether the administrators and the settings of a snapshot can be stored is a parameter.
- The tick reads the clock once for the recorded traffic and for the policy.
- Overflow of 64-bit byte counters; names are counted in characters, not bytes.
- JSON as text: key order, number spelling and indentation. Two configuration files are the same when their values are.
- RestartGate.Gate.RestartAndVerify: spaces the moments at which restarts are asked for; when the service manager starts the process is not modelled.
- XrayManager.Manager.Apply: a query whether the service is active is answered truthfully, and the restart's own probes are those of `RestartGate`.
- FileSwap.UpdatePanel: starts when the candidate is on disk; downloads, digests and version checks come before. The temporary copies beside a target, and restarts inside a compensation, are not modelled.
- LoginLimiter.Login: the keys are given, not derived from the request, and so is whether the password is right.
- HTTP routing, sessions, the web interface, exports, discovery of listeners and containers, shell scripts and statistics.
