# AegisClaw: the hub and its ledgers, verified

A Dafny model of the state-keeping cores of AegisClaw, with proofs about every run of
them. `dafny verify dfyconfig.toml` checks all of it.

| files | component |
|---|---|
| `HubIds`, `Registry` | AegisHub: component ids, and the two registration tables shared by all connections |
| `Hub`, `HubSteps`, `HubRpc`, `HubRoles`, `HubWaits`, `HubAnswers`, `HubCalls`, `HubRoutes` | AegisHub: source binding, routing and RPC correlation |
| `GuestBridge` | the daemon's bridge between a guest VM and the hub |
| `PanicLedger`, `PanicDeduper` | the Store's panic deduper |
| `Usage`, `UsageLog`, `UsageSummary` | the Store's LLM usage log |
| `UsageDrops` | the network boundary's count of refused usage pushes |
| `Utf8` | the two ways the Store caps a string |
| `Goals`, `GoalClaims` | the project manager's plan-at-most-once table |
| `Calendar`, `Expiry` | the Store's expiry sweeps |

## How it is modelled

**The hub** is a step system. Connection goroutines interleave freely; one step is one
critical section or one blocking operation of one goroutine. Registration writes
`registered` and then `conns` under one lock (`Register`, `Publish`); cleanup clears them
in two steps with nothing held in between (`Unregister`, `Unlink`). A waiter lookup and
the delivery to it are two steps (`BeginDelivery`, `Offer`), as are arming a waiter and
sending the request, so a table may change between them. A waiter is a one-slot channel:
a delivery fills it if it is empty, the caller's receive (`Receive`) empties it, and a
delivery that found it before it was cleared from the table may still come afterwards. Signature, access-list and
permission verdicts are the input `admitted`; timeouts may strike at any moment.
`Registry` proves the tables on their own; `RunProjectsToTables` carries those results to
every run of the whole hub. A message's `from` field records the connection it was read
from; no step looks at it, so statements about it are statements about the router.

**Objects that the source updates in place are classes** (`Deduper`, `PanicSeen`, `Log`,
`Counters`, `Planner`, `Table`, `GuestReader`), each tied by its contracts to a function
of the history or of the old state. The theorems are about that function.

**Concurrency elsewhere.** The boundary's counters, the panic deduper and the usage log
hold one lock per operation, so a run is a sequence of operations. Clock values are read
before the boundary's lock is taken and are therefore arbitrary inputs in any order.

## What the proofs found

* A waiter with an empty destination skips the source check (cmd/aegishub/main.go:264),
  and the empty id can be registered. `CalleeBindingIsExact`: answers come only from
  holders of the id called exactly when that id is not empty.
* Expiries are compared as text with a UTC "Z" timestamp (cmd/store/main.go:526-598),
  while the CLI writes them with its local offset (cmd/aegis/main.go:4110-4134).
  `SweepIsRightExactlyInUtc`: text order is time order exactly for a zero offset (and,
  ahead of UTC, for the one second that no other can precede).
* Records without an agent id are filed under "unknown" (cmd/store/llm_usage.go:68-152)
  but a request for that agent does not select them. `RowIsFilteredGrand`: the row and
  the filtered summary agree exactly when the agent is not "unknown" or no record is
  nameless. `UnknownRowDiffers` shows them apart on the record of an empty object.
* A comment speaks of 10001 stored rows (cmd/store/llm_usage.go:20-24). Trimming happens
  under the lock that appends, so readers see at most 10000, and `SUM_LIMIT` is 2 * 10^16.

## Model

| member | source | states |
|---|---|---|
| HubIds.DecimalInjective | cmd/aegishub/main.go:871-874 | no two counter values print alike |
| HubIds.DecimalReadsBack | cmd/aegishub/main.go:871-874 | a counter prints in decimal digits without a leading zero, and the text reads back as the counter |
| HubIds.EphemeralIds | internal/hubids/hubids.go:11-39 | the ids of the one-shot loop are three named families, each with any non-empty suffix |
| HubIds.ReservedIds | cmd/aegishub/main.go:80-120 | the ids refused on every transport, by name: "hub", the fetch ids, and ids that begin like one of five host families without belonging to it |
| HubIds.HostOnlyIds | internal/runtime/reserved_id.go:110-120 | the ids no guest may hold, by name |
| HubIds.TempIdsAreFresh | cmd/aegishub/main.go:867-875 | counter ids are pairwise distinct, are ephemeral clients, and are neither "daemon" nor reserved |
| HubIds.GuestIdsExcludeHostClients | internal/runtime/reserved_id.go:110-120 | an id a guest may hold is never served without signature checks, never "daemon" or "hub", never one of the hub's own waiter keys |
| Registry.RegisteredMatchesConns | cmd/aegishub/main.go:862-890 | in every interleaving, `registered[id]` is a connection that was given `id`, and `conns[id]` is the same connection if and only if its own registration no longer holds the lock |
| Registry.QuietTablesAreEmpty | cmd/aegishub/main.go:901-913 | once every connection has finished cleanup both tables are empty |
| Registry.PendingCloseSurvives | cmd/aegishub/main.go:891-896 | the close owed to a replaced connection survives every other step |
| Registry.OneOpenConnectionPerId | cmd/aegishub/main.go:881-896 | of two connections under one id, unless a replacement under that id is half done, one is closed |
| Registry.RegistrationTakesTheSlot | cmd/aegishub/main.go:862-896 | a registration that runs through holds both slots of the id it asked for unless that is a held daemon slot, closes exactly the previous holder, another connection, and changes nothing for anybody else |
| Registry.CleanupReleasesItsOwn | cmd/aegishub/main.go:901-913 | a serving connection that hangs up can finish its cleanup; it then is closed and holds nothing, and nobody else has lost anything |
| Registry.OwnerKeepsSlots | cmd/aegishub/main.go:901-913 | over any run, an owner keeps both slots until its own cleanup or a new registration of its id: late cleanups of replaced connections remove nothing |
| Registry.DaemonSlotIsNeverTakenOver | cmd/aegishub/main.go:862-913 | in every interleaving, a connection that was given "daemon" is its registered holder until its own cleanup |
| Registry.OtherDaemonsHoldCounterIds | cmd/aegishub/main.go:867-875 | meanwhile every other live daemon connection holds a counter id that the counter gave to no other |
| Hub.RunProjectsToTables | cmd/aegishub/main.go:937-1104 | the tables after a hub run are those after its table moves alone: routing never changes ownership |
| HubRpc.RepliesComeFromTheCallee | cmd/aegishub/main.go:239-281 | in every run, a reply about to be taken is addressed to the caller, was read from a holder of the (non-empty) id called, and is a push only if that command was requested |
| HubRpc.ForwardedFramesAreHonest | cmd/aegishub/main.go:955-1104 | every frame the hub ever forwarded was read from the connection whose id is its source, and went to a holder of its destination |
| HubRpc.OnlyStoreAnswersFetches | cmd/aegishub/permissions.go:64-88 | the hub's permission fetches wait under ids no peer can hold, and only "store" can answer them |
| HubRoles.OnlyQuestionsWait | cmd/aegishub/main.go:1055-1144 | in every run, a goroutine in a call sent a request: no push waits, and neither a reply nor a Store frame is taken for a new call |
| HubRoles.EphemeralClientsNeverAnswer | cmd/aegishub/main.go:1148-1178 | in every run, no frame of an ephemeral client (accepted unsigned) is in a waiter or is a caller's reply |
| HubWaits.CallersStayFindable | cmd/aegishub/main.go:239-255 | from arming to disarming, over any run in which nobody registers under its id, a caller whose earlier connections have left their read loops is found under that id with its own waiter |
| HubWaits.AnswerStandsUntilTaken | cmd/aegishub/main.go:275-280 | over any run, an accepted answer stays in its waiter until the caller receives it; no later frame displaces it |
| HubWaits.ReceivedAtMostOnce | cmd/aegishub/main.go:1229-1237 | each waiter, a caller's or a fetch's, is received from at most once in a run |
| HubAnswers.AnswerIsCorrelated | cmd/aegishub/main.go:257-266 | the next admitted answer of the only connection serving under the callee's id finds the waiter of the caller it is for |
| HubAnswers.CalleeAnswerReachesCaller | cmd/aegishub/main.go:1180-1238 | in every run, whatever other connections do before and after the delivery short of registering under the callee's id, the callee's answer itself waits for the caller or is the caller's reply, unless the caller timed out |
| HubCalls.EmptyDestinationIsUnchecked | cmd/aegishub/main.go:264-266 | a run in which a call to the empty id is answered by a bystander |
| HubCalls.CalleeBindingIsExact | cmd/aegishub/main.go:257-281 | answers to calls on an id come only from its holders, in every run, if and only if the id is not empty |
| HubCalls.ReregistrationHidesTheCaller | cmd/aegishub/main.go:239-255 | a run in which a caller's id is registered again during its call and the table leads to the new connection's waiter |
| HubCalls.RequestGoesOut | cmd/aegishub/main.go:1180-1216 | between open, idle ends with a callee that is no ephemeral client: a run that delivers the request under the caller's id and leaves exactly one waiter behind |
| HubCalls.AnswerComesBack | cmd/aegishub/main.go:1229-1238 | between open ends: a run that correlates the callee's answer, hands it to the caller, empties and forgets the waiter |
| HubCalls.CallsComplete | cmd/aegishub/main.go:1180-1238 | from any state with caller and callee open and idle, some run completes the call, each frame under its sender's id, and restores tables and tasks |
| HubRoutes.CommandClasses | cmd/aegishub/main.go:1116-1144 | pushes, replies and unsolicited commands, by name |
| HubRoutes.FramesMeetTheirFate | cmd/aegishub/main.go:1055-1099 | every admitted frame for a component nobody waits under is forwarded to the holder of its destination, turned into a call to it, or dropped, by sender and command; and nothing else changes |
| HubRoutes.UnwantedFramesMeetTheirFate | cmd/aegishub/main.go:1060-1099 | a frame that the waiter under its destination does not want is routed all the same |
| HubRoutes.UnwantedRepliesGoOn | cmd/aegishub/main.go:1240-1270 | a reply that no waiter wants goes to the holder of its destination |
| HubRoutes.HubKeepsItsFrames | cmd/aegishub/main.go:1001-1054 | of the frames for the hub only "tool.list" leaves it, to the Store, and the sender's next frame is then taken for the answer |
| HubRoutes.OtherFramesVanish | cmd/aegishub/main.go:950-999 | a refused frame, a lease command and a swallowed frame change nothing else |
| HubRoutes.DeliveryIsExact | cmd/aegishub/main.go:257-281 | in every run, an offered frame is taken if and only if the waiter is empty, waits for its sender or for nobody in particular, and it is no push or the very command asked for; a taken frame goes nowhere else |
| HubRoutes.UnansweredCallsEndQuietly | cmd/aegishub/main.go:1208-1237 | a call whose request cannot be written or that times out clears its key and sends nothing |
| HubRoutes.ConnectionsComeAndGo | cmd/aegishub/main.go:855-943 | any registrable id can be registered when the lock is free, and an idle connection can hang up; routing state is untouched |
| HubRoutes.FetchAsksTheStore | cmd/aegishub/permissions.go:64-79 | a permission fetch leaves one waiter for the Store's snapshot under its own id |
| HubRoutes.FetchIsAnswered | cmd/aegishub/permissions.go:81-84 | the Store's snapshot for that id goes to that waiter |
| HubRoutes.FetchEnds | cmd/aegishub/permissions.go:74-84 | the fetch takes it once and clears its key |
| GuestBridge.GuestReader.constructor | cmd/aegis/guest_hub_bridge.go:271-275 | a new reader stands at the first byte and sees what comes before the deadline |
| GuestBridge.GuestReader.ReadByte | cmd/aegis/guest_hub_bridge.go:295-298 | however the network fills the buffer, bytes come in order, each once, until the stream ends or the deadline strikes |
| GuestBridge.GuestReader.ClearDeadline | cmd/aegis/guest_hub_bridge.go:224-227 | everything may arrive from now on, and nothing read so far is lost |
| GuestBridge.GuestReader.Drain | cmd/aegis/guest_hub_bridge.go:247-251 | copying from the reader yields exactly the bytes not yet read, buffered ones included |
| GuestBridge.FirstLine | cmd/aegis/guest_hub_bridge.go:289-304 | a line is a prefix within the cap that ends at the first newline; too long exactly when the cap is reached without one; cut short exactly when the bytes end first |
| GuestBridge.ReadLimitedLine | cmd/aegis/guest_hub_bridge.go:289-304 | the loop returns that verdict and consumes exactly the line |
| GuestBridge.RegisterAllowed | cmd/aegis/guest_hub_bridge.go:179-200 | allowed if and only if the guest names its own, non-empty, non-host id |
| GuestBridge.AdmitsExactly | cmd/aegis/guest_hub_bridge.go:204-222 | admitted if and only if what came in time opens with a complete line of at most 64 KiB that decodes to a registration with the hub in the VM's own, non-empty, non-host name |
| GuestBridge.BridgeGuestConn | cmd/aegis/guest_hub_bridge.go:204-261 | refused if and only if there is no dialer, the deadline cannot be set, or what came in time is not admitted; each later failure named by its own outcome; the hub gets nothing unless admitted, cleared and dialled, and otherwise the guest's bytes, none lost, repeated or reordered, up to where the hub end fails |
| GuestBridge.HandshakeRegisters | cmd/aegishub/main.go:768-850 | the hub registers `id` if and only if the bytes open with a complete line that decodes to a registration, with a key, under the registrable `id`; the git client is told apart, and without a complete line the connection is closed |
| GuestBridge.HandshakeNamesTheVm | cmd/aegishub/main.go:768-800 | hub and bridge read the same first line, so the hub registers nobody but the VM |
| GuestBridge.PeerSpeaksUnderItsId | cmd/aegishub/main.go:862-888 | in every run, a connection that asked for any id but "daemon" has that id and no forwarded frame of it carries another |
| GuestBridge.BridgedGuestKeepsItsName | cmd/aegis/guest_hub_bridge.go:204-261 | end to end: for all guest bytes and all hub runs, every frame forwarded from the bridged connection names the VM |
| PanicLedger.RecencyIsRecency | cmd/store/panic_audit.go:182-192 | the reference list has every hash of the history once, by last sighting, latest first |
| PanicLedger.RowsAreTheMostRecent | cmd/store/panic_audit.go:203-227 | after any sightings the rows are the `max` most recently seen distinct hashes, most recent first |
| PanicLedger.NothingIsLostSilently | cmd/store/panic_audit.go:203-227 | total = sightings = tracked counts + counts lost to eviction; insertions = tracked + evicted |
| PanicLedger.CountsSinceInsertion | cmd/store/panic_audit.go:203-227 | a row's count is the number of sightings since its last insertion; its times are those of that insertion and of the last sighting |
| PanicLedger.LastFullIsRemembered | cmd/store/panic_audit.go:212-216 | a row remembers the last sighting of its hash answered with a full stack, tracked ever since |
| PanicLedger.FullExactlyWhen | cmd/store/panic_audit.go:207-227 | a sighting gets a full stack if and only if its hash is untracked or its last full one is at least `interval` old |
| PanicLedger.FullStacksAreSpaced | cmd/store/panic_audit.go:207-227 | two full stacks of one hash without eviction between them are at least `interval` apart |
| PanicLedger.OmittedStacksAreRecent | cmd/store/panic_audit.go:207-227 | an omitted stack was logged in full less than `interval` before |
| PanicDeduper.PanicSeen.constructor | cmd/store/panic_audit.go:218 | a new entry is seen once, now |
| PanicDeduper.StableSortIsStable | cmd/store/panic_audit.go:257 | the sort lists by falling count and keeps the order of equal counts |
| PanicDeduper.StableSortIsUnique | cmd/store/panic_audit.go:257 | no other order does, so any stable sort returns this one |
| PanicDeduper.Deduper.constructor | cmd/store/panic_audit.go:194-199 | an empty deduper; a cap below 1 becomes 1 |
| PanicDeduper.Deduper.Observe | cmd/store/panic_audit.go:203-227 | index, list, entries and counters are again what the longer history calls for, and the answer is the one the history calls for |
| PanicDeduper.Deduper.Note | cmd/store/panic_audit.go:207-227 | one sighting takes the listed rows to the ledger's next rows and counts the eviction if there is one |
| PanicDeduper.Deduper.Repeat | cmd/store/panic_audit.go:207-216 | a tracked entry is updated in place and moved to the front |
| PanicDeduper.Deduper.Touch | cmd/store/panic_audit.go:208-214 | count, last sighting and, when due, the full-stack time change; nothing else does |
| PanicDeduper.Deduper.MoveToFront | cmd/store/panic_audit.go:211 | the list with that element first and the others in order |
| PanicDeduper.Deduper.Insert | cmd/store/panic_audit.go:218-226 | a new entry in front, the oldest gone if the list was full, index and list in agreement |
| PanicDeduper.Deduper.PushFront | cmd/store/panic_audit.go:218-219 | a fresh entry heads the list and is indexed |
| PanicDeduper.Deduper.Evict | cmd/store/panic_audit.go:220-225 | the first `max` entries remain, each dropped one counted, index and list in agreement |
| PanicDeduper.Deduper.EvictLast | cmd/store/panic_audit.go:221-224 | the last entry leaves list and index and is counted |
| PanicDeduper.Deduper.Snapshot | cmd/store/panic_audit.go:249-271 | the counters of the history and the first `topN` rows of the stable sort; truncated if and only if something was left out |
| PanicDeduper.SnapshotKeepsTheTop | cmd/store/panic_audit.go:257-261 | no row left out has a higher count than one that is in |
| Utf8.ValidPrefixes | cmd/store/panic_audit.go:298-309 | the valid prefixes of valid UTF-8 are exactly those that end before a rune start |
| Utf8.BoundaryNearby | cmd/store/panic_audit.go:298-309 | a character boundary is at most three bytes back |
| Utf8.TruncateUtf8 | cmd/store/panic_audit.go:300-309 | on any bytes, cut at the last rune start at or before the cap |
| Utf8.CappedUsageString | cmd/store/llm_usage.go:325-338 | on any bytes: a string within the cap is returned as it is, a longer one as its longest valid prefix within the cap |
| Utf8.CutBackIsLongest | cmd/store/panic_audit.go:300-309 | on valid UTF-8, cutting back is the longest valid prefix that fits, and conversely |
| Utf8.CapsAgree | cmd/store/llm_usage.go:325-338 | on valid UTF-8 both caps agree at every length: the longest valid prefix, at most three bytes short |
| Utf8.EncodedIsValid | cmd/store/llm_usage.go:334-336 | the encoding of any Unicode scalar values, per section 3 of RFC 3629, is valid |
| Utf8.ValidIsEncoded | cmd/store/llm_usage.go:334-336 | whatever is valid is such an encoding |
| UsageDrops.StepBalances | cmd/network-boundary/llm_usage.go:201-228 | one event retires or drops at most one push, and no drop is lost between counter and log |
| UsageDrops.StepIsExact | cmd/network-boundary/llm_usage.go:156-267 | what each event does, with commands and the minute by name: outstanding, pending, the remembered time and the one line written |
| UsageDrops.DropsAreConserved | cmd/network-boundary/llm_usage.go:156-267 | over any events, emits = retired + dropped + outstanding, and dropped = logged + pending |
| UsageDrops.ShutdownReportsEveryDrop | cmd/network-boundary/llm_usage.go:246-267 | after a shutdown flush the log lines count every drop exactly once |
| UsageDrops.LinesAreSpaced | cmd/network-boundary/llm_usage.go:201-267 | with clock values in any order, every line but a shutdown flush comes a full window after the line before it |
| UsageDrops.PendingWaitsBehindALine | cmd/network-boundary/llm_usage.go:201-267 | in every run, something pending implies a line before it, and its window is the one remembered |
| UsageDrops.NothingWaitsPastTheWindow | cmd/network-boundary/llm_usage.go:201-267 | any event before the first line, or a full window after the last, leaves nothing pending |
| UsageDrops.LinesTakeTime | cmd/network-boundary/llm_usage.go:201-267 | without shutdowns, n lines span at least n - 1 windows |
| UsageDrops.Counters.constructor | cmd/network-boundary/llm_usage.go:172-178 | nothing outstanding, nothing pending, no line yet |
| UsageDrops.Counters.MarkUsagePushOutstanding | cmd/network-boundary/llm_usage.go:156-164 | the package variables take the machine's `Emit` step |
| UsageDrops.Counters.ServeBoundaryFrame | cmd/network-boundary/llm_usage.go:299-313 | the package variables take the machine's `Frame` step, and the frame is answered if and only if it is no reply, error or receipt |
| UsageDrops.Counters.NoteUsagePushHubError | cmd/network-boundary/llm_usage.go:201-228 | acknowledgement, error and any other frame, each as the machine has it |
| UsageDrops.Counters.FlushUsageDropsLocked | cmd/network-boundary/llm_usage.go:257-267 | a line exactly when something is pending and the window is over or the flush is forced |
| UsageDrops.Counters.LogDrops | cmd/network-boundary/llm_usage.go:264-266 | the line counts all that was pending |
| Usage.NonNegNumber | cmd/store/llm_usage.go:394-429 | a count is kept if and only if its value lies between 0 and the cap, cut to a whole number |
| Usage.CountsAreRead | cmd/store/llm_usage.go:398-429 | which kinds of value count, and for how much |
| Usage.SeqNumbersAreRead | cmd/store/llm_usage.go:357-392 | which kinds of value are sequence numbers, and which |
| Usage.RecentLimit | cmd/store/llm_usage.go:289-298 | the page size asked for if it is one, 500 if it is more, 50 if there is none |
| Usage.KeepText | cmd/store/llm_usage.go:300-338 | a text field is kept as it is within the cap and as its longest valid capped prefix beyond it; nothing is kept of an empty one or of another type |
| Usage.NormalizeStamp | cmd/store/llm_usage.go:343-355 | a time within the allowed skew is kept, any other replaced by the receive time in whole seconds; no stored time is further ahead |
| Usage.SanitizeRecord | cmd/store/llm_usage.go:300-323 | every stored record is clean, and each of its fields is what its rule keeps of the payload |
| Usage.FieldsAreStored | cmd/store/llm_usage.go:300-323 | each stored field is the payload's own under its own name, texts up to 256 bytes unchanged |
| UsageLog.KeptStep | cmd/store/llm_usage.go:188-199 | the closed form for the log's length starts at 0, grows by one, and drops from 10000 to 5000 |
| UsageLog.RetainedAreTheNewest | cmd/store/llm_usage.go:188-199 | what is retained are the records with the highest numbers |
| UsageLog.NewerSelects | cmd/store/llm_usage.go:247-267 | the selection has exactly the agent's records past the cursor |
| UsageLog.NewerSplits | cmd/store/llm_usage.go:260-271 | asking for what follows the n-th newer record gives the rest of them |
| UsageLog.WalkIsComplete | cmd/store/llm_usage.go:223-287 | walking a resting log ends and yields every retained record of the agent once, in order, at any page size |
| UsageLog.PagesRise | cmd/store/llm_usage.go:223-287 | however appends and trims fall between pages, the records returned are the agent's and their numbers strictly rise |
| UsageLog.SkippedWereTrimmed | cmd/store/llm_usage.go:188-287 | a record a walk went past without returning had been trimmed when the page that went past it was taken |
| UsageLog.NewerOfAgent | cmd/store/llm_usage.go:247-267 | selecting in two passes is selecting once |
| UsageLog.ByAgentSelects | cmd/store/llm_usage.go:247-255 | the agent filter has exactly the records of a named agent, and all without one |
| UsageLog.RecentPageAnswers | cmd/store/llm_usage.go:223-287 | the page is in order, no longer than asked for, and of retained records of the named agent past the cursor; if one is left out the page is full, and has only older ones with a cursor and only newer ones without |
| UsageLog.Log.constructor | cmd/store/llm_usage.go:45-50 | an empty log |
| UsageLog.Log.Append | cmd/store/llm_usage.go:188-199 | the log is again the newest `Kept(n)` records of the longer history, numbered consecutively up to the last sequence number |
| UsageLog.Log.HandleRecord | cmd/store/llm_usage.go:170-182 | accepted if and only if it comes from the network boundary as an object; what is stored is the sanitised payload |
| UsageLog.Log.SelectAgent | cmd/store/llm_usage.go:247-255 | the agent filter |
| UsageLog.Log.SelectNewer | cmd/store/llm_usage.go:261-267 | the cursor filter |
| UsageLog.Log.HandleRecent | cmd/store/llm_usage.go:223-287 | the answer is that page, read from the payload's own entries, and the last number given out |
| UsageSummary.ComputeSummary | cmd/store/llm_usage.go:68-152 | one pass computes every aggregate of the specification |
| UsageSummary.EmptySummary | cmd/store/llm_usage.go:69-76 | nothing recorded, nothing reported |
| UsageSummary.OneMoreCall | cmd/store/llm_usage.go:79-87 | one more record adds one call and its own prompt and completion tokens |
| UsageSummary.OneMoreInWindows | cmd/store/llm_usage.go:114-128 | it counts in the last hour, today and this month by its age, date, and year and month, written out; without a time, as of now |
| UsageSummary.OneMoreRow | cmd/store/llm_usage.go:88-112 | it adds its tokens under one model and to one agent's row, named by its own fields or "unknown", and changes no other |
| UsageSummary.HandleSummary | cmd/store/llm_usage.go:201-215 | the summary of the retained records of the named agent |
| UsageSummary.RowIsFilteredGrand | cmd/store/llm_usage.go:68-152 | an agent's row equals its filtered grand block if and only if it is not "unknown" or no record is nameless |
| UsageSummary.UnknownRowDiffers | cmd/store/llm_usage.go:95-112 | on a log of the record kept of an empty object, the "unknown" row and the filtered grand block differ |
| UsageSummary.SummaryAddsUp | cmd/store/llm_usage.go:68-152 | agent rows add up to the grand block in every field; every model breakdown adds up to its total |
| UsageSummary.WindowsNest | cmd/store/llm_usage.go:114-128 | today <= month to date <= grand, last hour <= grand, in every figure |
| UsageSummary.AccumulatorsNeverOverflow | cmd/store/llm_usage.go:18-25 | for every reachable log and filter, after every record, each accumulator is within 2 * 10^16 < 2^63 |
| Goals.NormalizeIsIdempotent | cmd/project-manager/main.go:184-186 | normalising twice is normalising once |
| Goals.NormalFormIsWords | cmd/project-manager/main.go:184-186 | the normal form is the case-folded words joined by single blanks, and splits back into them |
| Goals.KeysIdentifyGoals | cmd/project-manager/main.go:188-194 | two goals share a key if and only if they are the same words in the same channel |
| Goals.KeyExactly | cmd/project-manager/main.go:184-194 | a goal has a key if and only if there is a channel and something but blanks in it; the key is the channel, a NUL and the case-folded words |
| Goals.WordsKeepTheLetters | cmd/project-manager/main.go:184-186 | the words have all the letters of the text, in order |
| GoalClaims.OneRunPerGoal | cmd/project-manager/main.go:490-554 | in every interleaving, runs on one key never overlap, at most one ends in a posted plan, and none is active beside it |
| GoalClaims.ClaimableExactly | cmd/project-manager/main.go:196-204 | a claim starts a run if and only if no run on the key is active and none has posted a plan |
| GoalClaims.PostedIsFinal | cmd/project-manager/main.go:215-229 | a posted key stays posted in every later state |
| GoalClaims.RunsFinish | cmd/project-manager/main.go:535-554 | a planning run can end in each way, its key then posted or free, and nothing else touched |
| GoalClaims.Planner.constructor | cmd/project-manager/main.go:231-233 | nothing is claimed |
| GoalClaims.Planner.ClaimHumanGoal | cmd/project-manager/main.go:196-204 | load-or-store of the goal's key; no key, no claim |
| GoalClaims.Planner.MarkHumanGoalPosted | cmd/project-manager/main.go:215-221 | the goal's key is settled as posted |
| GoalClaims.Planner.ReleaseHumanGoal | cmd/project-manager/main.go:223-229 | the goal's key is free again |
| GoalClaims.Planner.ProcessPlanningMessage | cmd/project-manager/main.go:490-554 | runs if and only if the key was free; afterwards the key is posted if a plan that is not the fallback was posted, and the table is as before if not |
| Calendar.FieldOrderIsTimeOrder | cmd/store/main.go:526-548 | comparing date and clock fields is comparing instants |
| Calendar.MonthLengths | cmd/store/main.go:526-548 | the lengths of the months, with the Gregorian leap rule |
| Calendar.DaysOfYears | cmd/store/main.go:526-548 | years have 365 days and their leap days, in closed form |
| Calendar.FormatReadsBack | cmd/store/main.go:526-548 | every field of an RFC 3339 text reads back from its place |
| Calendar.ZoneReadsBack | cmd/aegis/main.go:4110-4134 | the zone is "Z" at no offset, else the sign, hours and minutes of the offset |
| Calendar.LessIsBefore | cmd/store/main.go:535-537 | the order of texts: a proper prefix, or smaller where they first differ |
| Calendar.TextOrder | cmd/store/main.go:526-548 | two RFC 3339 texts compare by fields, then by zone text |
| Expiry.Table.Reconcile | cmd/store/main.go:526-598 | whatever the iteration order, exactly the due entries go and are reported once each; all others are unchanged |
| Expiry.ReportedByText | cmd/store/main.go:526-598 | for any texts, exactly the entries whose text sorts before now are reported; the others stay as they are |
| Expiry.ReportedByFields | cmd/store/main.go:526-598 | for any offset, an entry is reported if and only if its fields are earlier, or equal with an offset |
| Expiry.SweepIsIdempotent | cmd/store/main.go:526-598 | a second sweep at the same time finds nothing |
| Expiry.ReportedAtMostOnce | cmd/store/main.go:526-598 | over any run in which an id is not granted again, sweeps report it at most once |
| Expiry.UtcSweepIsExact | cmd/store/main.go:526-598 | for UTC expiries a sweep reports exactly the entries strictly before now |
| Expiry.SweepIsRightExactlyInUtc | cmd/store/main.go:526-598 | what a sweep reports of an entry is right at every moment if and only if its offset is zero (or nothing can precede the expiry and it is ahead of UTC) |

## Left out

- JSON, Ed25519 and SHA-256: a line decodes through a parameter, signatures are verdicts, stack signatures are opaque hashes (`normalizeStack` is not modelled).
- Access-list matching, permission snapshots and their invalidation: they are the `admitted` input of a `Read` step.
- Frames the hub writes itself (errors, acknowledgements, registration replies, pushed snapshots, its own fetch requests) are not recorded in `sent`; `sent` holds the peers' frames it forwards.
- Public keys, versions and encoders inside a `registered` entry; an entry is its connection.
- CID leases and the `git-remote-hub` client: lease commands are consumed without effect, and that client never registers. A `git-connect` opening counts as a line that does not decode; both are refused.
- HubWaits.CallersStayFindable: requires that nobody registers under the caller's id during the call; `ReregistrationHidesTheCaller` is a run where that happens. What a delivered reply looks like is proved without any such assumption.
- HubCalls.CallsComplete: states that a completing run exists; that the answer is the caller's in every run is `CalleeAnswerReachesCaller`, which does not promise that every step is eventually taken.
- HubAnswers.CalleeAnswerReachesCaller: requires that no second connection serves or registers under the callee's id while the answer is on its way, as a replaced callee may still answer. Earlier connections that have left their read loops do not matter.
- The goroutine of a permission fetch: it may receive at any moment its waiter is full, once, and clear its key at any moment.
- A write to a connection that blocks: the hub writes to an ephemeral client only between its reads. Safety results do not depend on it, and the completing runs exclude it.
- Time limits of calls: a `Timeout` step may come at any moment.
- GuestBridge.BridgeGuestConn: models the guest-to-hub direction; the copy back to the guest and the closing of both ends carry no claim.
- PanicLedger.FullStacksAreSpaced: requires a non-negative interval; with a negative one and a clock that runs backwards, the gaps between neighbouring full stacks may add up to less than it.
- PanicDeduper.Deduper.MoveToFront: container/list is a sequence of entries; its links are not modelled. `sort.SliceStable` is the function `StableSort`, justified by `StableSortIsUnique`.
- 64-bit wrap-around of the panic counters, the drop counters and the log's sequence number: these are unbounded here.
- Usage.NonNegNumber: a float is a real number or not finite; conversion rounding below the cap is not modelled.
- UsageLog.Log.HandleRecent: an `after_seq` beyond 64 bits is taken as written, where the source's conversion depends on the platform.
- Goals.NormalizeIsIdempotent: letter case and blanks are a parameter with stated facts (`Sane`): lower-casing is stable and character by character, keeps blanks blank, and fixes the blank.
- Goals.KeysIdentifyGoals: requires channel ids without NUL, the separator of the key.
- GoalClaims.Planner.ProcessPlanningMessage: prompts, plan sanitising and role requests are inputs (`drafted`, `fallback`, `sent`).
- Expiry.Table.Reconcile: the three copies of the sweep are one class; file saves and audit lines after a sweep are left out.
- Reserved ids on a vsock transport: the hub refuses such peers before it looks at the id.
- Sockets, Firecracker, Envoy and process handling, because they are plumbing around these cores; the CLI and the web portal, because they only present; LLM prompting and channel commands, because their logic lies in packages outside these cores.
- Court vote counting, retry backoff and the order of roles: each is a short function with nothing to prove across calls.
