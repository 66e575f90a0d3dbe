# A Dafny model of the plume-pml gateway managers

The project models the parts of plume-pml in which state, retries and interleavings
interact, and proves what they keep over every run:

- the cloud connection manager `cm2`: its connection state machine (`Connection`), the
  dual-stack failure accounting (`DualStack`), the asynchronous connectivity checks
  (`AsyncCheck`) and the walk over resolved controller addresses (`AddressWalk`);
- the band steering manager `bm`: the callback queue between driver and event loop
  (`CallbackQueue`), the kick queue (`KickQueue`), the BSS transition retries
  (`BtmRetry`), the pre-association backoff (`ClientBackoff`), the RSSI crossing
  detector (`Crossing`), the debug event ring (`DebugRing`), and the parser of 802.11
  elements and radio measurement reports (`Elements`, `MeasurementReport`);
- the configuration tool `diffconf2.py`: its reader and printer (`ConfigText`) and its
  diff and apply runs (`DiffConf`).

Objects that the C code updates in place are classes; the answers of drivers, tables,
resolvers and clocks are parameters or arbitrary values, so that each theorem holds for
all of them. Whole-run theorems are `Run` methods: any number of steps, chosen
arbitrarily, with a class invariant and ghost histories.

Main results:

- One call of `cm2_update_state` ends after at most 113 rounds, for every state and all
  answers, enters itself at most once, and ends at rest or with a restart of the
  connection. Over every run at most five QUIESCE_OVS timeouts lead to FAST_RECONNECT
  before the disconnect counter is reset.
- The failure counts are exact over every run: a family is blocked only after three
  failed checks in a row, or earlier if it was released before because both families
  failed.
- After every processing call IPv4 and IPv6 are not both blocked and some addressed
  family is usable. A blocked family of a dual-stack link recovers within 97 calls when
  the check options were always fresh. A repeated check, which reuses its options, can
  bring it into a state without recovery; the exact condition on the state is given.
- No wakeup of the callback queue is lost; events are handled in the order accepted.
- Over every run of the kick queue, cleanups included, safety and conservation hold; a
  non-empty queue has a driver until a cleanup strands it, and each cleanup keeps the
  driver exactly when it does not strand the queue.
- BACKOFF always has a pending task and is left only by a connect or an expiry; its
  periods grow as documented. The expiry can be that of an older task if and only if one
  is left over when the backoff starts.
- The lazy crossing detector is the simple one with some reports blanked, for all
  samples; the two agree exactly under a stated condition on the samples.
- Applying a printed configuration diff gives back the target configuration exactly
  when no entry is empty and no new entry is the removal mark.

Where code and comment disagree the model follows the code. The comment at
`src/cm2/src/cm2_event.c:57-63` speaks of 3 disconnects, 1 minute and 10 minutes; the
code allows 10 disconnects, takes the quiesce time from the computed backoff, and calls
a connection stable after 300 seconds. In `cm2_trigger_restart_managers` the result of
the gateway offline test overwrites the skip that two-way BLE communication asked for,
so that the latter has no effect on the restart: the exact condition, in the contract of
`TriggerRestartManagers`, does not mention it.

The radio measurement parser reads a window whose eight-bit length is computed from the
payload length. The model gives it a memory that continues behind the payload, with
arbitrary bytes, because for an empty payload (a frame of header, category and action
only) the window is not empty.

## Model

| member | source | states |
|---|---|---|
| `Connection.ConnectionManager.UpdateState` | src/cm2/src/cm2_event.c:597-1067 | every call ends: at most 113 rounds and at most one nested call for any state, reason and answers. A call that does not restart the connection ends at rest: no timeout is due, and the handler of its state has nothing left to do (no INIT, no LINK_SEL with a used link, no ready WAN_IP, no CONNECTED without a connection, and so on), except that WAN_IP, NTP_CHECK, TRY_RESOLVE and RE_CONNECT may be entered and not yet served when the last round came back to where it began |
| `Connection.ConnectionManager.Run` | src/cm2/src/cm2_event.c:597-1067 | in every run of updates, fatal failures of the stability checks and environment changes at most five reconnects happen per reset of the disconnect counter, each paid for by two disconnects |
| `Connection.ConnectionManager.Pass` | src/cm2/src/cm2_event.c:597-1067 | a round that loops again in a state entered at the current time strictly lowers the rank, one that does not loop and does not restart the connection is at rest, and nested calls stay within the tag budget |
| `Connection.ConnectionManager.Round` | src/cm2/src/cm2_event.c:597-1048 | where the reasons lead when no address is new, and that a round which stays or comes back is at rest |
| `Connection.ConnectionManager.Dispatch` | src/cm2/src/cm2_event.c:691-1048 | for each of the twelve states where it leads, under which condition; the effects of LINK_SEL, OVS_INIT, CONNECTED and QUIESCE_OVS; no timeout fires in a fresh state and resolving consumes an `updated` or retry flag |
| `Connection.ConnectionManager.HandleInit` | src/cm2/src/cm2_event.c:693-707 | INIT leads to LINK_SEL on an extender and to OVS_INIT otherwise, and descends |
| `Connection.ConnectionManager.HandleLinkSel` | src/cm2/src/cm2_event.c:709-733 | a used link leads to WAN_IP; a timeout asks for a restart; entry drops the connection and remembers it for a fast reconnect |
| `Connection.ConnectionManager.HandleWanIp` | src/cm2/src/cm2_event.c:735-757 | with an address and a passed stability check the machine goes to NTP_CHECK; otherwise it waits and a timeout asks for a restart; resolve retries are untouched |
| `Connection.ConnectionManager.HandleNtpCheck` | src/cm2/src/cm2_event.c:759-779 | a passed check leads to FAST_RECONNECT when the link was switched while connected and to OVS_INIT otherwise; a timeout asks for a restart |
| `Connection.ConnectionManager.HandleOvsInit` | src/cm2/src/cm2_event.c:781-806 | where OVS_INIT leads, and that resolving the redirector resets the disconnects together with the reconnect budget |
| `Connection.ConnectionManager.ResolveAres` | src/cm2/src/cm2_resolve_ares.c:134-199 | a retry is skipped when the other family is resolved and refused while a query runs; a started query asks each addressed family, takes its answer and retry, and consumes the `updated` flag |
| `Connection.ConnectionManager.HandleTryResolve` | src/cm2/src/cm2_event.c:808-860 | the connection restarts at once if and only if a resolution is due and cannot start, and later if and only if it timed out or was retried too often without an address; pending addresses never rise in level |
| `Connection.ConnectionManager.HandleReConnect` | src/cm2/src/cm2_event.c:862-883 | RE_CONNECT waits for the disconnect and then connects |
| `Connection.ConnectionManager.HandleTryConnect` | src/cm2/src/cm2_event.c:885-942 | a replaced address goes back to resolving; otherwise it connects, tries the next address on a timeout, or restarts when none is left |
| `Connection.ConnectionManager.HandleFastReconnect` | src/cm2/src/cm2_event.c:944-958 | entry drops the connection; a connection leads to CONNECTED, a timeout to QUIESCE_OVS |
| `Connection.ConnectionManager.HandleConnected` | src/cm2/src/cm2_event.c:959-998 | a lost connection leads to QUIESCE_OVS; a stable one clears the disconnects and turns a pending tag into a used one |
| `Connection.ConnectionManager.HandleQuiesceOvs` | src/cm2/src/cm2_event.c:1000-1048 | entry and timeout each cost one disconnect, entry once; above ten the connection restarts, otherwise one reconnect is spent |
| `Connection.ConnectionManager.ApplyReason` | src/cm2/src/cm2_event.c:618-665 | only a request for a new tag makes one pending, exactly when the tag is not the blocked one and both writes succeed, and then leads to WAN_IP; blocking ends a pending one |
| `Connection.ConnectionManager.ApplyAddresses` | src/cm2/src/cm2_event.c:668-689 | a new valid address re-enters the machine and leaves no unserved address behind in TRY_CONNECT |
| `Connection.ConnectionManager.EnableGwOffline` | src/cm2/src/cm2_event.c:403-444 | when gateway offline mode takes over, and the value its retry counter gets, always between zero and three |
| `Connection.ConnectionManager.VtagStabilityCheck` | src/cm2/src/cm2_stability.c:62-77 | a pending tag fails the check, and the nested update it may cause consumes the pending tag |
| `Connection.ConnectionManager.TriggerRestartManagers` | src/cm2/src/cm2_event.c:446-506 | the managers restart if and only if not spared by a pending tag, a router or gateway offline mode on a link that is not Wi-Fi, or spared 360 times already; two-way BLE communication is no part of the condition; a spared restart re-arms the timeout |
| `Connection.ConnectionManager.RestartOvsConnection` | src/cm2/src/cm2_event.c:508-522 | below the fatal threshold the machine goes back to LINK_SEL or OVS_INIT; at it the managers restart unless spared |
| `Connection.ConnectionManager.HandleFatalState` | src/cm2/src/cm2_stability.c:197-222 | the exact condition on which failing stability checks restart the managers |
| `DualStack.StabilityChecker.UpdateConnectivityFailures` | src/cm2/src/cm2_stability.c:236-316 | the in-place update computes exactly the function `Process` of the old state |
| `DualStack.CallCounts` | src/cm2/src/cm2_stability.c:236-316 | one dual-stack call from any state, for either family and check: success clears the count, failure adds one, a blocked family ages, 100 clears; and the exact condition on which a family is blocked afterwards |
| `DualStack.CountsExactly` | src/cm2/src/cm2_stability.c:236-316 | over every run from zero counts, with any addresses and options, a count is the failed checks plus the ageings since it was zero, and these failures are the latest checks |
| `DualStack.BlockedByThree` | src/cm2/src/cm2_stability.c:280-296 | a run from zero blocks a family only when failures and ageings of one check make three; all three are failures in a row if and only if none is an ageing |
| `DualStack.BlockedByFailures` | src/cm2/src/cm2_stability.c:280-305 | unless the family was released before because both failed, it is blocked only after three failed checks of one kind in a row |
| `DualStack.AgeBlocksTooEarly` | src/cm2/src/cm2_stability.c:299-305 | after such a release the aged counts block a family at its second failure in a row |
| `DualStack.ProcessEstablishesSafety` | src/cm2/src/cm2_stability.c:236-316 | after every call, from any state, the families are not both blocked and a blocked one implies that both have addresses |
| `DualStack.SomeFamilyUsable` | src/cm2/src/cm2_stability.c:224-316 | after every call on an addressed link some IP check is requested, and exactly the families that the target address test admits are |
| `DualStack.LostAlternative` | src/cm2/src/cm2_resolve_ares.c:207-226 | between calls no family is admitted exactly when the only addressed one is blocked, and one call cures it |
| `DualStack.RunKeepsRange` | src/cm2/src/cm2_stability.c:236-316 | so does every run of calls |
| `DualStack.BlockedAges` | src/cm2/src/cm2_stability.c:247-316 | a blocked family ages by one per call and is released if and only if it reaches the threshold or the other family fails as well |
| `DualStack.BlockedFamilyRecovers` | src/cm2/src/cm2_stability.c:236-316 | a blocked family of a link that stays dual-stack is unblocked within 97 calls, whatever the probes say |
| `DualStack.LeavesRangeExactly` | src/cm2/src/cm2_stability.c:564-599 | with reused options a counter leaves the range if and only if it steps over the threshold and the other counter does not hit it |
| `DualStack.BlockedStep` | src/cm2/src/cm2_stability.c:236-316 | from any counters, a call with fresh options only ages a blocked family, or releases it because both families fail |
| `DualStack.RecoversExactly` | src/cm2/src/cm2_stability.c:236-316 | for either family and any counters: on a link that stays dual-stack, 99 or more calls with fresh options release it if and only if a counter is above 0 and below 100 or both families fail in some call |
| `DualStack.RepeatedCheckOverruns` | src/cm2/src/cm2_stability.c:564-599 | a repeated check requested on a healthy link, with IPv4 internet failing from then on, blocks IPv4 at its third run, never releases it, and after 52 runs leaves it beyond recovery by age |
| `AsyncCheck.Scheduler.Recalc` | src/cm2/src/cm2_stability.c:519-562 | a check starts exactly when none runs, one is wanted and the fork succeeds, with the wanted parameters |
| `AsyncCheck.Scheduler.RequestCheck` | src/cm2/src/cm2_stability.c:601-614 | the newest request runs at once or is the one that waits |
| `AsyncCheck.Scheduler.ChildExited` | src/cm2/src/cm2_stability.c:564-599 | the result is processed with the parameters its child was started with, also when processing requests further checks; a waiting request goes next, a failed repeated check is asked for again; the newest nested request keeps its repeat flag unless a repeated check just succeeded |
| `AsyncCheck.Scheduler.Run` | src/cm2/src/cm2_stability.c:519-614 | in every run one child is outstanding exactly when a check is marked as running, nothing waits while idle, and every fork was processed once, in order, or is outstanding |
| `AddressWalk.AresAddress.WriteTarget` | src/cm2/src/cm2_resolve_ares.c:228-287 | the address written is the first one not yet visited, IPv6 before IPv4 |
| `AddressWalk.AresAddress.WriteNext` | src/cm2/src/cm2_resolve_ares.c:295-306 | one step drops exactly the address in use and keeps the indices in range |
| `AddressWalk.AresAddress.Walk` | src/cm2/src/cm2_resolve_ares.c:289-306 | the walk visits every remaining address once, in order, and then fails |
| `AddressWalk.AresAddress.WalkFresh` | src/cm2/src/cm2_resolve_ares.c:207-306 | after a resolution it visits all IPv6 addresses and then all IPv4 addresses; a blocked or unaddressed family and a missing list contribute none |
| `AddressWalk.SyncAddress.GetNext` | src/cm2/src/cm2_resolve_sync.c:152-175 | the next list entry of an IP family, or none exactly when none is left |
| `AddressWalk.SyncAddress.Walk` | src/cm2/src/cm2_resolve_sync.c:220-236 | the walk visits exactly the IP entries of the resolver list, in order |
| `CallbackQueue.EventQueue.Enqueue` | src/bm/src/bm_events.c:154-186 | an event is refused exactly when 256 are queued; otherwise it is the last accepted one |
| `CallbackQueue.EventQueue.Run` | src/bm/src/bm_events.c:122-186 | under every interleaving handled, taken and queued events together are the accepted ones in order, the counter is the length, and a non-empty queue has a drain, a wakeup or a producer about to send one |
| `CallbackQueue.EventQueue.Settle` | src/bm/src/bm_events.c:122-186 | once producers stop every schedule ends with all accepted events handled in order |
| `KickQueue.KickEngine.Kick` | src/bm/src/bm_kick.c:1029-1153 | when a kick is queued; it updates type, RSSI, group and interface of the only entry of its client in place, or appends one; safety and the driver are kept |
| `KickQueue.QueuedExactly` | src/bm/src/bm_kick.c:1070-1107 | a kick goes to the queue if and only if its method disconnects and the client supports no request that goes first |
| `KickQueue.KickEngine.ServeQueue` | src/bm/src/bm_kick.c:381-438 | the head is removed and the run repeated exactly when the client moved on or the measurement was refused; otherwise it is left measuring or with its kick task |
| `KickQueue.KickEngine.TaskQueueRun` | src/bm/src/bm_kick.c:381-438 | every queue run ends with a driver for a non-empty queue |
| `KickQueue.KickEngine.Disconnect` | src/bm/src/bm_kick.c:283-370 | a disconnect is issued if and only if one is justified: client still connected on the recorded group and interface, a method that disconnects, and a non-zero RSSI at or below the low or above the high watermark unless forced |
| `KickQueue.KickEngine.TaskKick` | src/bm/src/bm_kick.c:269-379 | a task for another entry than the head does nothing; otherwise the head leaves, is disconnected if and only if that is justified, and the rest has a driver |
| `KickQueue.KickEngine.Measured` | src/bm/src/bm_kick.c:1155-1173 | a measurement result for the measured head schedules its kick task; any other is ignored |
| `KickQueue.KickEngine.RemoveMatching` | src/bm/src/bm_kick.c:878-926 | the cleanup loops remove exactly the matching entries and disturb no task of the others |
| `KickQueue.KickEngine.CleanupByGroup` | src/bm/src/bm_kick.c:878-906 | exactly the entries of the group leave; a driven queue stays driven if and only if the cleanup does not strand it |
| `KickQueue.KickEngine.CleanupByClient` | src/bm/src/bm_kick.c:908-926 | exactly the entry of the client leaves, unless it is being measured; the driver as above |
| `KickQueue.KickEngine.Strand` | src/bm/src/bm_kick.c:878-906 | a stranded queue is reached from an idle one by two kicks, a measurement and the deletion of a group |
| `KickQueue.KickEngine.Run` | src/bm/src/bm_kick.c:247-445 | in every run, cleanups included, clients are queued once, only the head is measured, each entry leaves once and every disconnect is justified; a non-empty queue has a driver unless some cleanup stranded it |
| `KickQueue.KickEngine.StrandedRun` | src/bm/src/bm_kick.c:1029-1153 | a queue without a driver stays so under kicks, left-over tasks, measurements and client changes, and nobody is disconnected |
| `BtmRetry.BtmClient.Kick` | src/bm/src/bm_kick.c:719-757 | while requests of a type are retried further kicks of the type send nothing; from idle one request goes out and one retry task is pending; a kick of another type takes the episode over |
| `BtmRetry.BtmClient.RetryTask` | src/bm/src/bm_kick.c:634-680 | one more request per retry until the limit, then quiet; a failed send leaves the client wedged |
| `BtmRetry.BtmClient.Episode` | src/bm/src/bm_kick.c:634-757 | an episode sends max(2, max_tries) requests and ends with no tries and no task if and only if all of them can be sent |
| `BtmRetry.BtmClient.WedgedRun` | src/bm/src/bm_kick.c:719-757 | after a failed retry every further kick of the type is swallowed |
| `ClientBackoff.Client.EnableBackoff` | src/bm/src/bm_client.c:1924-1955 | a start uses the period of the connect counter and schedules a new task; a client already in BACKOFF gets neither |
| `ClientBackoff.Client.StateChange` | src/bm/src/bm_client.c:2053-2141 | BACKOFF yields only to a forced change or to CONNECTED, and only entering CONNECTED on an allowed interface ends the backoff at once; no other change touches flag, tasks or counters |
| `ClientBackoff.Client.TaskBackoff` | src/bm/src/bm_client.c:1997-2028 | expiry ends the backoff and disconnects a client that is not connected |
| `ClientBackoff.Client.RejectedCounter` | src/bm/src/bm_client.c:2187-2272 | at the limit a steered client stops being steered and any other starts a backoff; below it only the count changes |
| `ClientBackoff.Client.Rejected` | src/bm/src/bm_client.c:2453-2471 | client steering and the counter policy count the reject; the timer policy counts it and starts the block timer; no policy ignores it |
| `ClientBackoff.Client.BlockedProbe` | src/bm/src/bm_events.c:258-299 | a blocked probe does nothing in CONNECTED and BACKOFF; otherwise a disallowed interface enters STEERING, and the reject detection decides whether a reject is handled |
| `ClientBackoff.Client.AuthFail` | src/bm/src/bm_events.c:509-558 | which of the two rejects of the handler happen, and their effect; a blocked authentication under band steering counts twice; no client stays connected and BACKOFF is never left |
| `ClientBackoff.Client.PreassocRecalc` | src/bm/src/bm_client.c:2491-2513 | the counter rises at most once per backoff and an allowed connect clears it |
| `ClientBackoff.Client.Connected` | src/bm/src/bm_client.c:2393-2437 | a connect of a client that was not connected ends the backoff on an allowed interface; on another one flag and task stay |
| `ClientBackoff.Client.CheckConnected` | src/bm/src/bm_client.c:641-693 | only a connect that the driver confirms counts, and on an allowed interface it resets the growth |
| `ClientBackoff.Client.Step` | src/bm/src/bm_events.c:217-558 | whatever the event, BACKOFF is left only by a confirmed connect or by the expiry of a backoff task |
| `ClientBackoff.Client.Run` | src/bm/src/bm_client.c:1924-2141 | in every run BACKOFF has its flag up and its task pending, and the connect counter rises at most once between two starts without an allowed connect |
| `ClientBackoff.Client.OneBackoff` | src/bm/src/bm_client.c:1924-2141 | under any events a backoff ends by a confirmed connect, its own task, or a task left over at its start, and every task left over does end it; so a foreign task can cut it short if and only if one is left over |
| `ClientBackoff.Client.EarlyEnd` | src/bm/src/bm_client.c:1997-2012 | tasks are left over after a connect on a disallowed interface, and then end the next backoff |
| `ClientBackoff.PeriodExact` | src/bm/src/bm_client.c:1942-1950 | the configured period at counter zero, exactly one more factor of the base per step up to ten, and the period at ten from there on |
| `ClientBackoff.PeriodsGrow` | src/bm/src/bm_client.c:1942-1950 | without an allowed connect used periods never shrink and stay below the period times the tenth power of the base; a start whose counter rose, to at most ten, uses exactly the base times the previous period, any other exactly the previous one |
| `ClientBackoff.AllowedConnectResets` | src/bm/src/bm_client.c:2491-2513 | after an allowed connect the next period is the configured one unless the counter rose since |
| `Crossing.Detector.Recalc` | src/bm/src/bm_client.c:3287-3355 | one sample gives the simple detector's report, blanked when the memory is zero, and is remembered exactly when it crosses |
| `Crossing.Detector.Run` | src/bm/src/bm_client.c:3287-3355 | for all samples the lazy stream is the simple one, blanked after zeros; from a known start without zeros it is the simple one, and crossings of each watermark alternate |
| `Crossing.NaiveMeans` | src/bm/src/bm_client.c:3287-3341 | what a report means in samples: LOWER from at or above to below a watermark, HIGHER from below to at or above, and none when no side changes |
| `Crossing.RefinesExactly` | src/bm/src/bm_client.c:3293-3355 | the two streams agree if and only if no crossing follows one that ended on a zero sample, and none follows an unknown start |
| `Crossing.LazyRefinesNaive` | src/bm/src/bm_client.c:3293-3355 | from a known start without zero samples they agree |
| `Crossing.CrossingMissedAfterConnect` | src/bm/src/bm_client.c:3343-3352 | after a connect a real crossing can go unreported |
| `Crossing.CrossingsAlternate` | src/bm/src/bm_client.c:3287-3355 | reported directions of one watermark strictly alternate, starting away from the first side |
| `DebugRing.Ring.Dump` | src/bm/src/bm_client.c:3063-3080 | the wrap-around loop yields exactly the last min(n, 128) events, oldest first |
| `DebugRing.Ring.Run` | src/bm/src/bm_client.c:2989-3080 | so after any number of adds |
| `Elements.Walk` | src/bm/src/bm_ieee80211.h:49-56 | the walk ends for every buffer and bound and visits the elements `Visited` names |
| `Elements.VisitedInside` | src/bm/src/bm_ieee80211.h:49-56 | the visited elements lie one after the other inside the bound, and what is left holds no whole element |
| `Elements.VisitedMaximal` | src/bm/src/bm_ieee80211.h:49-56 | every list of elements encoded at the start is a prefix of the visited ones |
| `Elements.RoundTrip` | src/bm/src/bm_ieee80211.h:43-56 | walking the encoding of any list of elements returns the list |
| `MeasurementReport.RadioMeasurementReport` | src/bm/src/bm_ieee80211.c:30-64 | for every payload length the neighbors recorded are those of the beacon reports inside the window, in order, up to the first short measurement report |
| `MeasurementReport.WindowExact` | src/bm/src/bm_ieee80211.c:41-42 | the eight-bit length covers the payload behind the token if and only if the payload has 1 to 256 bytes |
| `MeasurementReport.InsideExactly` | src/bm/src/bm_ieee80211.c:41-44 | the window lies inside the payload, and the payload alone decides what is walked, if and only if there is a payload; an empty one has a window of 255 bytes |
| `MeasurementReport.GuardExact` | src/bm/src/bm_ieee80211.c:51-57 | the length guard holds if and only if header and 26-byte fixed report end inside the element, that is, if the element is the encoding of some beacon report |
| `MeasurementReport.PackRecorded` | src/bm/src/bm_ieee80211.h:192-206 | the recorded fields are the ones the layout of section 9.4.2.22.7 of IEEE Std 802.11-2016 puts there |
| `MeasurementReport.FrameRoundTrip` | src/bm/src/bm_ieee80211.c:30-64 | a frame of up to 256 payload bytes carrying any list of beacon reports yields exactly their neighbors, whatever lies behind it |
| `MeasurementReport.RecordsCompose` | src/bm/src/bm_ieee80211.c:44-62 | an element that is not short affects no other element |
| `MeasurementReport.OthersRecordNothing` | src/bm/src/bm_ieee80211.c:44-62 | an element of another id and a measurement report of another type record nothing and hide nothing |
| `MeasurementReport.RecordsAllExactly` | src/bm/src/bm_ieee80211.c:44-62 | every beacon report of a frame is recorded if and only if none follows a short measurement report |
| `MeasurementReport.ShortReportHidesRest` | src/bm/src/bm_ieee80211.c:44-49 | a report one or two bytes below the first guard holds a whole header and still hides everything behind it |
| `ConfigText.ReadConfig` | kconfig/diffconf2.py:49-61 | the loop computes `Parse` of the text, which the following rows pin for options, comments, removals and all other lines |
| `ConfigText.IgnoredExactly` | kconfig/diffconf2.py:54-60 | a line leaves every dictionary unchanged if and only if it is no option, no removal and does not end in " is not set" |
| `ConfigText.IgnoredAnywhere` | kconfig/diffconf2.py:49-61 | such a line can be inserted or deleted anywhere in a file without changing the result |
| `ConfigText.NotSetNames` | kconfig/diffconf2.py:57-58 | a "not set" line names what follows its first nine characters, whatever these are |
| `ConfigText.FailsExactly` | kconfig/diffconf2.py:54-56 | reading fails if and only if some line starts like an option and has no "=" |
| `ConfigText.UnterminatedLine` | kconfig/diffconf2.py:52-53 | a last line without a newline loses its last character |
| `ConfigText.ReadsOption` | kconfig/diffconf2.py:49-71 | a printed option is read back as exactly that option |
| `ConfigText.ReadsNotSet` | kconfig/diffconf2.py:49-69 | a printed "n" is read back as "n" |
| `ConfigText.ReadsRemoved` | kconfig/diffconf2.py:49-73 | a printed removal is read back as the removal mark |
| `ConfigText.ReadsBack` | kconfig/diffconf2.py:49-73 | any printed list of options is read back option by option |
| `ConfigText.NotSetValueSplits` | kconfig/diffconf2.py:54-58 | a value that ends in " is not set" is read as two options, for every name and value |
| `DiffConf.Sort` | kconfig/diffconf2.py:144-165 | the names in strictly increasing order, all of them and no others |
| `DiffConf.DiffConfigs` | kconfig/diffconf2.py:139-166 | the diff lists removed, changed and new names, each part complete and sorted, with the new values |
| `DiffConf.ApplyDiff` | kconfig/diffconf2.py:126-137 | the apply run prints the merged dictionary sorted |
| `DiffConf.DiffThenApply` | kconfig/diffconf2.py:49-166 | applying the printed diff of a and b to a gives the surviving part of b, and b itself if and only if every entry survives |
| `DiffConf.TripLosesEntries` | kconfig/diffconf2.py:66-73 | an empty value and a new "-" are lost; a "-" that the first configuration had already is not |

## Left out

- OVSDB tables, JSON, row callbacks and all `target_*`, BSAL, libev, evsched and c-ares internals; only their answers and their pending tasks appear.
- Logging, statistics reports, BLE onboarding bits, and the order of writes to tables within a handler.
- The clock: one call of the connection manager sees one time, and a computed quiesce time is positive.
- The width of C integers, for example the connect counter, the disconnect counter and the product of backoff period and power; they are unbounded here.
- Configuration reload of clients and groups, client removal, and `bm_client_ifcfg_remove`.
- A missing statistics record of an interface, on which the reject functions return early.
- The computation of the quiesce backoff itself, captive portal, speed test, DHCP and process management.
- Repeated checks whose fork fails keep their request, but nothing restarts them; the whole-run theorem of the scheduler assumes that forks succeed.
- Client steering (`cs_*`) state, kept as arbitrary changes of two flags in the backoff model.
- Supported channels and operating classes of association requests, and the BSS transition query and response frames.
- The memory layout behind pointers: an entry of the kick queue is known by its pointer, and freed pointers may be used again.
- The plain and `-m` styles of the configuration tool, command line parsing and I/O errors; carriage returns that Python's text mode translates.
- DiffConf.DiffThenApply: states its result for names without "=", newline or a final " is not set" and for values without newline or that ending, because `ConfigText.NotSetValueSplits` shows that such a value is read as two options.
- Connection.ConnectionManager.Environment: the links, tags and addresses it changes are arbitrary, which allows more than the callbacks do.
