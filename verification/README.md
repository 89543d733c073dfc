# MiGate, verified model

MiGate is a panel that stores inbounds, clients, outbounds and routing rules, compiles them into the configurations of two
proxy cores (Xray and sing-box), applies those configurations, and keeps a ledger of the traffic the cores count. This project
models the parts of it that hold protocols, ledgers, codecs and translations, and proves what they are for.

- `BitTricks`, `Varint`, `StatsWire`, `StatsQuery`, `CounterNames`: the hand-written client for Xray's stats service. Varints and messages follow the Protocol
  Buffers encoding (sections "Base 128 Varints" and "Message Structure"), frames the Length-Prefixed-Message of gRPC over HTTP/2
  (section "Requests"). The writer's form is read back whole, at every level and end to end.
- `Routing`, `Naming`, `RoutingMeaning`: stored rules become rules that a core evaluates first match wins. The compiled list sends every
  connection where the stored list says, for any way of comparing destinations and protocols.
- `ApplyTable`, `ApplyProtocol`, `ApplyOutcomes`: jobs that apply a configuration. The table is a class whose two maps share mutable records; drivers,
  workers, timers, the semaphore and the lock file are a state machine; the safety results, and what the records tell about the
  outcomes of the work, hold in every interleaving.
- `TrafficLedger`, `TrafficTouches`, `TrafficRows`, `TrafficRuns`, `TrafficOutages`, `TrafficBatches`, `TrafficSync`, `LedgerMeaning`: the ledger of
  raw counters that reset, vanish and are re-baselined. A run of batches, markers and resets becomes the history of one row
  (`TrafficTouches`), one row is followed through any history (`TrafficRows`), and the results are about whole runs (`TrafficRuns`).
- `LoginLimiter`, `LoginMeaning`, `PersistentLimiter`, `PersistentRestarts`, `SubscriptionLimiter`: rate limits as state machines over a clock, with
  a table that mirrors one of them in whole seconds and outlives the process.
- `OutboundOrder`, `OutboundReorder`, `Refresh`, `SubscriptionPlan`, `RefreshTwice`, `RefreshKeeps`, `OutboundStore`: the order of outbounds and the
  refresh of subscriptions. SQL tables are maps from row id to row, a transaction works on a copy that it installs at the end, and
  an ORDER BY query is the unique listing in strictly increasing key order.
- `TrafficStream`, `TrafficSummary`, `SummaryMeaning`, `Grouping`, `OutboundTotals`, `TrafficAnalytics`, `TrafficRanks`: what the pages show. The
  stream's patches are merged by the page's own code, and every view accounts for the same bytes.
- `ConfigInstall`: two installers of one protocol that checks, backs up, swaps, restarts and restores.

`Outcome`, `Text` and `Sets` hold what they share. Loops and objects of the program are methods and classes, each proved against a
function; the results are about those functions, in the terms of what goes in and comes out.

Small lemmas fix the words, tables and fields that the results build on, spelled out once more as literals; they have no row below:
`Text.Letters`, `OtherLetters`, `Digits` and `Spaces`; `Naming.InboundNames`, `OutboundNames`, `ClientNames` and `ApiRuleIs`;
`CounterNames.Words`; `StatsWire.SkippedBytes`; `LedgerMeaning.StatTaken` and `PairKeysAre`; `ApplyOutcomes.WorkerSteps`;
`OutboundReorder.EditableIs` and `LiveIs`; `LoginMeaning.Defaults`; `PersistentRestarts.StoredRow`, `LoadedKey` and `SavedKey`.

Findings, where the code does less than one might expect, each with the exact condition or a concrete input:

- A key that ends in `>` loses its counters (`StatsQuery.NameRoundTripIff`).
- sing-box rules name no client, so a rule bound to one widens to the whole inbound, and rules aimed at dns are skipped; both are
  all that can make it choose another rule (`RoutingMeaning.SingboxRoutingIff`, `RoutingMeaning.BobIsWidened`). A rule may name a
  disabled outbound that the configuration lacks (`RoutingMeaning.TargetPresentIff`, `RoutingMeaning.DisabledTargetDangles`).
- The ledger is right all along a run exactly if each sighting with bytes comes on a blank history when and only when nothing was seen
  before (`TrafficRuns.LedgerRightIff`). What goes wrong otherwise: a scope first seen with both counters zero loses its next bytes
  (`TrafficRuns.ZeroStart`), so does a row at zero after a marker that only speaks of a missing baseline
  (`TrafficRuns.MarkersIrrelevantIff`), and any other marker on an uncounted row brings old bytes in
  (`TrafficRuns.LedgerFromFirstSight`, `TrafficRuns.ResetThenRun`). `TrafficOutages` has a run for each.
- The working map of a batch forgets a counter reset under the status "unavailable" with a blank message
  (`TrafficBatches.BatchEqualsSinglesIff`). Every caller in the repository sends "ok" without a message, so such a batch reaches only
  the exported method.
- Ordering is idempotent for every choice of sorts and priorities exactly if no place holds both rows with a subscription and rows
  without one (`OutboundOrder.IdempotentIff`). The schema allows the mix (internal/db/schema.go:84), because deleting a subscription row leaves its
  outbounds without one; none of the modelled transactions makes it.
- An inbound without a counter of its own loses its clients' bytes when their statuses join to something unusable, which takes a
  blank status or two samples of one client at one instant (`TrafficRanks.CreditedOnce`, `TrafficRanks.BlankStatusLoses`); neither
  happens in rows that the ledger writes (`TrafficRanks.NothingLost`).
- Coverage maps with an empty status can compare equal though they differ (`TrafficStream.CoverageEqualIffSame`); coverage is built
  without empty statuses (`TrafficSummary.BuildCoverage`).

## Model

| member | source | states |
|---|---|---|
| `BitTricks.SetTopBit` | internal/xray/stats.go:597-603 | Or-ing the continuation bit into a byte adds 0x80 to its low seven bits |
| `BitTricks.OrDisjoint` | internal/xray/stats.go:605-617 | Or-ing a shifted group into bits that are still clear adds it, so the model may add |
| `Varint.ConsumeMeaning` | internal/xray/stats.go:605-617 | Any prefix of up to ten bytes that ends at its first byte below 0x80 is one varint, and its value is the sum of the seven-bit groups cut to 64 bits |
| `Varint.ConsumeVarint` | internal/xray/stats.go:605-617 | Reading fails exactly when no varint stands in front, with (0, -1); otherwise the length and the value are the ones of the varint |
| `Varint.AppendVarint` | internal/xray/stats.go:597-603 | The loop over seven-bit groups appends the encoding of the value and nothing else |
| `Varint.RoundTrip` | internal/xray/stats.go:597-617 | Every 64-bit value is read back whole, whatever follows it, from at most ten bytes |
| `Varint.ConsumePrefix` | internal/xray/stats.go:605-617 | Bytes after an accepted varint never change what it decodes to |
| `Varint.NoneIfUnended` | internal/xray/stats.go:605-617 | An input whose first ten bytes all announce another one, or that ends before its last byte, holds no varint |
| `Varint.EncodeIsShortest` | internal/xray/stats.go:597-617 | No byte string that the reader accepts for a value is shorter than the written one |
| `StatsWire.SkipProtoField` | internal/xray/stats.go:619-646 | Skipping drops exactly the payload of the wire type, and fails on cut or unknown ones |
| `StatsWire.SkipPrefix` | internal/xray/stats.go:619-646 | Skipping looks at the payload only |
| `StatsWire.TakeStatField` | internal/xray/stats.go:555-595 | One turn of the stat loop: name, value and unknown fields, and every malformed case |
| `StatsWire.DecodeStat` | internal/xray/stats.go:555-595 | The loop reads the whole message field by field |
| `StatsWire.DecodeQueryStatsResponse` | internal/xray/stats.go:517-553 | The loop reads all stats of a response in order |
| `StatsWire.StatsOfConcat` | internal/xray/stats.go:517-553 | Decoding a concatenation is decoding the parts: an accepted prefix contributes its stats and nothing else |
| `StatsWire.UnknownFieldIgnored` | internal/xray/stats.go:517-553 | A well-formed field the client does not know changes nothing, wherever it stands |
| `StatsWire.UnknownStatFieldIgnored` | internal/xray/stats.go:555-595 | Inside a stat, too, a well-formed field that is neither the name nor the value changes nothing |
| `StatsWire.EncodeStatMessage` | internal/xray/stats.go:497-515 | The nested message that the writer grows in two slices |
| `StatsWire.StatRoundTrip` | internal/xray/stats.go:497-595 | One written stat is read back with its name and its value, for every signed 64-bit value |
| `StatsWire.BigEndianRoundTrip` | internal/xray/stats.go:444-469 | The frame prefix keeps the length modulo 2^32 |
| `StatsWire.DecodeGRPCFrames` | internal/xray/stats.go:451-469 | The loop cuts a body into its messages, or reports a cut frame or a compressed one |
| `StatsWire.FramesRoundTrip` | internal/xray/stats.go:444-469 | Any sequence of framed messages below 2^32 bytes comes back whole and in order |
| `StatsWire.FrameRoundTripIff` | internal/xray/stats.go:444-469 | A frame is read back as its message if and only if the length fits the 32-bit prefix |
| `StatsQuery.NameRoundTripIff` | internal/xray/stats.go:227-276 | A counter name parses back to scope, key and direction if and only if the key is safe: not blank, without ">>>", not ending in ">"; any other key is ignored |
| `StatsQuery.SplitKeyEndingInGt` | internal/xray/stats.go:227-265 | Why the last condition is needed: a key ending in ">" shifts the separator |
| `StatsQuery.ParseTrafficStats` | internal/xray/stats.go:227-265 | The loop regroups entries by scope, the last value of a direction winning |
| `StatsQuery.EncodeQueryStatsResponse` | internal/xray/stats.go:484-495 | A response holds an entry for every non-zero direction of every stat |
| `StatsQuery.EntriesRoundTrip` | internal/xray/stats.go:484-553 | Any list of named entries is read back in order |
| `StatsQuery.RegroupAll` | internal/xray/stats.go:227-265 | Regrouping the entries of stats with distinct safe scopes gives exactly the stats with a non-zero direction |
| `StatsQuery.QueryTrafficStats` | internal/xray/stats.go:340-417 | Unframing, decoding and regrouping in one call |
| `StatsQuery.QueryRoundTrip` | internal/xray/stats.go:227-617 | End to end: encode, frame, unframe, decode and regroup returns exactly the stats with a non-zero direction |
| `StatsQuery.FramesMakeOneAnswer` | internal/xray/stats.go:340-417 | An answer in several frames is the answer in one, and a message that does not decode fails the query |
| `CounterNames.SentIsTaken` | internal/xray/stats.go:227-276 | A counter named scope, key, "traffic" and direction by Xray is taken for a client if the scope is "user", for itself if it is "inbound", "outbound" or "core", and for nothing otherwise |
| `CounterNames.OtherMetricIgnored` | internal/xray/stats.go:227-265 | A name with another word than "traffic" in the third place is ignored |
| `CounterNames.EntryTaken` | internal/xray/stats.go:227-265 | "uplink" and "downlink" set their counter of the scope, any other direction only makes the scope known |
| `CounterNames.BlankAsciiIff` | internal/xray/stats.go:243-246 | An ASCII key is blank exactly if it is all white space |
| `CounterNames.PlainKeyIsSafe` | internal/xray/stats.go:227-246 | Keys of printable ASCII without ">" are safe |
| `CounterNames.TwoByteSpaces` | internal/xray/stats.go:243-246 | Which two-byte characters count as white space |
| `CounterNames.WideSpaceIff` | internal/xray/stats.go:243-246 | Which three-byte characters count as white space |
| `Text.ItoaRoundTrip` | internal/db/core.go:214-224 | Decimal texts of ids are read back, so ids inside tags are not confused |
| `Text.BlankHasNoValues` | internal/xray/config.go:285-297 | A blank rule field restricts nothing |
| `Text.OneValue` | internal/xray/config.go:285-297 | A rule field without a comma, tab or line break holds its trimmed self, or nothing if it is blank |
| `Text.ValuesConcat` | internal/xray/config.go:285-297 | The values on both sides of a delimiter follow each other, so no piece of a field is dropped |
| `Text.TrimIs` | internal/xray/config.go:285-297 | Trimming leaves the part between the outermost characters that are not white space |
| `Routing.CollectXrayMaps` | internal/xray/config.go:157-182 | The loop over inbounds fills the tag, alias and client maps |
| `Routing.CompileXrayRule` | internal/xray/config.go:184-235 | One stored rule: dropped, refused or rewritten |
| `Routing.BuildXrayRules` | internal/xray/config.go:125-243 | The stats API rule, the system rules and the compiled stored rules, in that order |
| `Routing.CollectSingboxMaps` | internal/singbox/config.go:384-397 | The loop over inbounds fills the tag and alias maps |
| `Routing.CompileSingboxRule` | internal/singbox/config.go:399-440 | One stored rule for sing-box: dns targets are skipped and clients are not named |
| `Routing.BuildSingboxRules` | internal/singbox/config.go:364-448 | The system rules and the compiled stored rules |
| `RoutingMeaning.GeneratedTagInjective` | internal/db/core.go:348-350 | Different inbounds have different Xray tags |
| `Naming.SupportedProtocols` | internal/db/core.go:91-143 | Which outbound protocols each core can send out with, old spellings included, and that everything else is refused |
| `Naming.OutboundMeant` | internal/db/core.go:145-154 | A rule's outbound is the first one with its id |
| `Naming.BoundRuleApplies` | internal/db/core.go:311-346 | A rule bound to a client or an inbound concerns a core exactly if the first inbound it means is enabled there |
| `Naming.UnboundRuleApplies` | internal/db/core.go:311-346 | A rule for everybody concerns every core that serves an inbound, and every core while there is none |
| `RoutingMeaning.CoreTagInjective` | internal/web/stats.go:263-274 | Different inbounds have different tags in either core |
| `RoutingMeaning.TagsByIDMeaning` | internal/xray/config.go:157-182 | The tag map holds exactly the enabled inbounds of the core |
| `RoutingMeaning.AliasMeaning` | internal/xray/config.go:157-182 | The alias map answers to tags and remarks, and points at the tag of an inbound that answers to the name |
| `RoutingMeaning.XrayClientsMeaning` | internal/xray/config.go:157-182 | The client map holds exactly the enabled clients of enabled Xray inbounds |
| `RoutingMeaning.CompiledRuleMeaning` | internal/xray/config.go:184-235 | A compiled rule matches a connection exactly if the stored rule is enabled, applies to the core and reaches it, and it then names the tag of the chosen outbound |
| `RoutingMeaning.RulePreserved` | internal/db/core.go:311-346 | One rule: the compiled form matches exactly the connections that the stored rule means |
| `RoutingMeaning.RulesPreserved` | internal/xray/config.go:184-235 | First match over the compiled rules names the outbound of the first matching stored rule, and none matches exactly if no stored rule does |
| `RoutingMeaning.ApiRuleIsPrivate` | internal/xray/config.go:320-331 | The API rule never takes a connection of a stored inbound |
| `RoutingMeaning.XrayRoutingPreserved` | internal/xray/config.go:125-243 | The whole generated Xray rule list picks the outbound of the first matching stored rule for every connection no system rule takes |
| `RoutingMeaning.SingboxRoutingIff` | internal/singbox/config.go:364-448 | Whenever building succeeds, the built list picks the first rule in the reading of sing-box, and that is the rule the panel chose if and only if no rule up to the panel's choice takes the connection of another client or is skipped for aiming at dns |
| `RoutingMeaning.SingboxClientRuleWidens` | internal/singbox/config.go:399-440 | The compiled form of a rule with a client takes the connection whoever the client is, and means what was stored exactly for connections of that client |
| `RoutingMeaning.BobIsWidened` | internal/singbox/config.go:399-440 | A concrete table on which a rule against one client takes the connections of another |
| `RoutingMeaning.CompileFailsIff` | internal/xray/config.go:184-199 | Compilation fails if and only if some enabled rule that applies has a missing or unsupported outbound, and reports the first one |
| `RoutingMeaning.OutboundTagInjective` | internal/db/core.go:214-224 | Generated outbound tags of one core identify their profile |
| `RoutingMeaning.TargetPresentIff` | internal/xray/config.go:125-150 | The target of a compiled rule is in the configuration if and only if its outbound is enabled |
| `RoutingMeaning.DisabledTargetDangles` | internal/singbox/config.go:364-448 | A concrete table whose compiled rule names an outbound that the configuration lacks |
| `ApplyTable.JobManager.Get` | internal/web/core_apply_jobs.go:51-59 | A copy of the job, or nothing |
| `ApplyTable.JobManager.Latest` | internal/web/core_apply_jobs.go:41-49 | A copy of the latest job of a core, or nothing |
| `ApplyTable.JobManager.IsRunning` | internal/web/core_apply_jobs.go:61-69 | True exactly while the latest job of the core is active |
| `ApplyTable.JobManager.Clone` | internal/web/core_apply_jobs.go:290-296 | A fresh object with the same fields |
| `ApplyTable.JobManager.Insert` | internal/web/core_apply_jobs.go:71-93 | Both maps reach the one new record |
| `ApplyTable.JobManager.TryStart` | internal/web/core_apply_jobs.go:71-93 | Starts exactly if no job of the core is active, and hands out a fresh copy either way |
| `ApplyTable.JobManager.MarkRunning` | internal/web/core_apply_jobs.go:95-103 | Updates one record in place, seen through both maps; unknown ids are ignored |
| `ApplyTable.JobManager.MarkRetrying` | internal/web/core_apply_jobs.go:105-115 | Updates one record in place, seen through both maps |
| `ApplyTable.JobManager.MarkSucceeded` | internal/web/core_apply_jobs.go:117-126 | Updates one record in place, seen through both maps |
| `ApplyTable.JobManager.MarkFailed` | internal/web/core_apply_jobs.go:128-137 | Updates one record in place, seen through both maps |
| `ApplyProtocol.InvStep` | internal/web/core_apply_jobs.go:152-288 | Every step of every driver, worker and timer keeps the invariant |
| `ApplyProtocol.RunInv` | internal/web/core_apply_jobs.go:152-288 | The invariant holds in every state of every run |
| `ApplyProtocol.RunSafety` | internal/web/core_apply_jobs.go:71-93 | In every interleaving there is at most one unfinished job per core and it is the latest one; a job has at most one live attempt; one worker is inside the lock; no job makes more attempts than allowed |
| `ApplyProtocol.PcFlow` | internal/web/core_apply_jobs.go:207-238 | The driver follows the retry loop: launch, await, clean up, delay, finish |
| `ApplyProtocol.LaunchedFlow` | internal/web/core_apply_jobs.go:207-238 | The number of attempts agrees with the place in the retry loop |
| `ApplyProtocol.DriverTouchesOwnRecord` | internal/web/core_apply_jobs.go:177-205 | A driver changes its own job record only |
| `ApplyProtocol.WorkerTouchesNoJob` | internal/web/core_apply_jobs.go:267-288 | No step of a worker changes a job record |
| `ApplyProtocol.TerminalForever` | internal/web/core_apply_jobs.go:117-137 | A job that has succeeded or failed never changes again |
| `ApplyProtocol.AbandonedIsMute` | internal/web/core_apply_jobs.go:267-288 | Nobody reads the result of an attempt that was given up |
| `ApplyProtocol.LateResultIgnored` | internal/web/core_apply_jobs.go:267-288 | Once a driver has stopped waiting for an attempt, no later step of the run reads its result |
| `ApplyProtocol.LateResultMakesNoDifference` | internal/web/core_apply_jobs.go:207-288 | Replace what an abandoned attempt returns by anything else: the other steps still make a run, with the same jobs, drivers, locks and other workers in every state |
| `ApplyProtocol.CleanupTimeoutIsFinal` | internal/web/core_apply_jobs.go:240-255 | A cleanup timeout is never retried, a plain timeout is |
| `ApplyOutcomes.RecordsTell` | internal/web/core_apply_jobs.go:177-238 | In every state of every run each job record tells what its driver went through: queued, running, retrying with the last error, or over with the last outcome |
| `ApplyOutcomes.JobsEndAsTheirWork` | internal/web/core_apply_jobs.go:177-205 | However a run goes, a job that is over has succeeded if and only if the last outcome its driver took was ok, and its record carries that outcome's message, error and detail |
| `ApplyOutcomes.RetryingTells` | internal/web/core_apply_jobs.go:207-238 | Between two attempts the record is retrying, counts the attempts launched so far and carries the error of the last one |
| `ApplyOutcomes.RetriesIff` | internal/web/core_apply_jobs.go:207-238 | Another attempt follows an outcome if and only if it is a failure worth one and fewer than the allowed retries were made |
| `ApplyOutcomes.NoMoreAttempts` | internal/web/core_apply_jobs.go:207-238 | Once a driver has taken an outcome that ends its job, it launches no further attempt for the rest of the run |
| `ApplyOutcomes.RetryableIff` | internal/web/core_apply_jobs.go:307-322 | Which failures are worth another attempt: by their code if it is known, and otherwise by what the error text says |
| `ApplyOutcomes.StartsIff` | internal/web/core_apply_jobs.go:71-93 | A job starts on a core exactly if it has no unfinished one, and nothing else changes either way |
| `ApplyOutcomes.LockMoves` | internal/web/core_apply_jobs.go:152-175 | The lock file only goes from free to a holder and from that holder back to free, so no worker takes it from another process |
| `ApplyOutcomes.MessagesShown` | internal/web/core_apply_jobs.go:95-115 | Which message, error and time a running or retrying job shows |
| `TrafficLedger.TrafficStore.PrefetchStates` | internal/db/traffic.go:375-426 | Reading in chunks finds exactly the rows of the batch |
| `TrafficLedger.TrafficStore.NormalizeStats` | internal/db/traffic.go:290-307 | The loop drops nameless stats and normalises the rest |
| `LedgerMeaning.StatsTaken` | internal/db/traffic.go:290-307 | A stat is taken, in its place, exactly if engine, scope and key are all given |
| `LedgerMeaning.ObservationGains` | internal/db/traffic.go:126-185 | A row gains nothing from its first observation and otherwise what each counter rose by |
| `LedgerMeaning.ObservationRates` | internal/db/traffic.go:126-185 | Its rate times the seconds since it was last seen is its gain, and zero while it recovers from a status that counts nothing |
| `LedgerMeaning.ObservationNotes` | internal/db/traffic.go:126-185 | The message is that of the observation, or the note of a counter reset if a counter fell and nothing was gained |
| `TrafficLedger.TrafficStore.ApplyTrafficRawStats` | internal/db/traffic.go:69-198 | A batch against the prefetched map, written row by row, then the repair |
| `TrafficLedger.TrafficStore.RepairSingleClients` | internal/db/traffic.go:200-288 | The repair of sole clients that exceed their inbound |
| `TrafficLedger.TrafficStore.MarkTrafficUnavailable` | internal/db/traffic.go:523-538 | No row comes or goes and no counter of any row moves; rows of other engines are as they were, and rows of the engine get the trimmed status, or "unavailable" for a blank one, with deltas, rates and window at zero |
| `TrafficLedger.TrafficStore.MarkTrafficScopeStatus` | internal/db/traffic.go:540-606 | Marked scopes get the status, missing rows are created at zero |
| `LedgerMeaning.MarkerWrites` | internal/db/traffic.go:540-606 | A marked scope has the status and message, no gain and no speed, and its counters as they were or zero; every other row is as it was |
| `TrafficLedger.TrafficStore.CollectBaselines` | internal/db/traffic.go:635-709 | The last baseline of each engine for the client |
| `LedgerMeaning.BaselineTaken` | internal/db/traffic.go:635-709 | A reset takes the last baseline that names the client on the engine |
| `LedgerMeaning.ResetConcerns` | internal/db/traffic.go:635-709 | A reset concerns the engines on which the client has a row, the one expected to count it, and those with a baseline for it |
| `TrafficLedger.TrafficStore.ResetClientTrafficBaseline` | internal/db/traffic.go:635-709 | A reset zeroes the client on every engine and takes the raw counters as new baseline |
| `TrafficTouches.RunTouches` | internal/db/traffic.go:69-198 | What a run of batches, markers and resets does to one row of the table is the history of sightings and marks that concern it, in order |
| `TrafficRows.GainsWithoutDrop` | internal/db/traffic.go:126-185 | If a counter never drops, its gains are last minus first |
| `TrafficRows.TracksIffFair` | internal/db/traffic.go:126-185 | A row holds the sums of max(0, raw_k - raw_(k-1)) at every point of its history if and only if every sighting with bytes finds it uncounted exactly when nothing has been seen on it |
| `TrafficRows.LossesAddUp` | internal/db/traffic.go:126-185 | Once a row has been seen its totals can only fall short of those sums, and they do if and only if some sighting with bytes is not counted |
| `TrafficRows.UncountedIffBlank` | internal/db/traffic.go:478-499 | When times increase, the history alone tells whether a row is uncounted: its last counters are zero, followed by a marker that only speaks of a missing baseline or by nothing but its first sighting |
| `TrafficRuns.LedgerContinues` | internal/db/traffic.go:126-185 | From any counted row, over any run of observations, markers and resets of others: each total grows by the sum of max(0, raw_k - raw_(k-1)) if and only if every sighting with bytes finds the row counted; otherwise it grows by less |
| `TrafficRuns.NonzeroLedgerContinues` | internal/db/traffic.go:126-185 | The case of counters that are never both zero: from a row with nonzero counters nothing is lost, whatever times, statuses and markers are |
| `TrafficRuns.LedgerFromBlank` | internal/db/traffic.go:126-185 | The same from an absent or uncounted row, markers before the first sighting included; a start that is not clean takes the whole counters of that sighting as gain |
| `TrafficRuns.LedgerFromFirstSight` | internal/db/traffic.go:126-185 | From an absent or uncounted row that markers may name before it is seen, zeros included: totals are the sums since the first sighting, all along the run, if and only if that sighting holds no bytes or the last marker before it only says that the baseline is missing, and no later bytes come on a row that forgot it was counted |
| `TrafficRuns.NonzeroFromFirstSight` | internal/db/traffic.go:126-185 | The case of counters that are never both zero, at any times: from an absent or uncounted row the totals at the end are the sums since the first sighting if and only if the last marker before it only says that the baseline is missing |
| `TrafficRuns.WaitingIsClean` | internal/scheduler/traffic.go:130-135 | Any number of "waiting" markers before the first sighting, as a sync writes them for scopes it expects, keep the start clean |
| `TrafficRuns.LedgerRightIff` | internal/db/traffic.go:69-198 | For every row and run whose times increase, zeros included: the row holds the sums all along the run if and only if each sighting with bytes comes on a blank history exactly when nothing was seen before |
| `TrafficRuns.ZeroStart` | internal/db/traffic.go:478-484 | A new scope that is sighted at increasing times loses its first bytes if and only if its first counters are both zero and its second ones are not |
| `TrafficRuns.MarkersIrrelevantIff` | internal/db/traffic.go:523-606 | On a counted row and at increasing times, deleting every marker from a run leaves totals and last counters the same if and only if no sighting with bytes follows a marker that only speaks of a missing baseline on a row at zero |
| `TrafficRuns.ResetStands` | internal/db/traffic.go:635-709 | A reset leaves the client at zero totals, counting from the baseline if it had a nonzero one and from the next sighting otherwise |
| `TrafficRuns.ResetThenRun` | internal/db/traffic.go:635-709 | Over any later run, whatever happens to others in between: the totals count from the baseline or from the first sighting and nothing older comes back if and only if no bytes come on a row that forgot it was counted and, without a baseline, the start is clean |
| `TrafficRuns.ResetThenAnything` | internal/db/traffic.go:635-709 | For the end of the run and any times: right if and only if every sighting with bytes is counted, after a clean start where there was no baseline |
| `TrafficRuns.BaselineThenRun` | internal/db/traffic.go:635-709 | After a reset with a baseline the final totals are right if and only if no marker on a row at zero makes it forget |
| `TrafficRuns.FirstGainAfterMarkers` | internal/db/traffic.go:478-499 | Over any run that marks an uncounted row any number of times and then sights it once: the sighting counts nothing if the last marker only says that the baseline is missing, and otherwise its whole counters |
| `TrafficOutages.OutageAfterResetLeaks` | internal/db/traffic.go:523-538 | From any table: reset without baseline, outage marker, observation, and the old bytes are back |
| `TrafficOutages.ZeroStartLoses` | internal/db/traffic.go:478-484 | A scope observed at zero and then at any value has gained nothing |
| `TrafficOutages.MarkerOnZeroRowLoses` | internal/db/traffic.go:478-499 | A silent outage marker on a counted row at zero makes the next bytes count for nothing |
| `TrafficBatches.BatchEqualsSingles` | internal/db/traffic.go:69-198 | Every prefix of a batch through the working map leaves the table as its stats one at a time, if no stat with status "unavailable" and a blank message is followed by one of the same key |
| `TrafficBatches.ForgottenDiffers` | internal/db/traffic.go:126-185 | For any other batch there are counters and a table for which the two differ |
| `TrafficBatches.BatchEqualsSinglesIff` | internal/db/traffic.go:69-198 | For given keys, statuses and messages, batch and single steps agree for every table and all counters if and only if no stat with status "unavailable" and a blank message is followed by one of the same key |
| `TrafficBatches.RepairHeals` | internal/db/traffic.go:200-288 | After the repair the client of the pair is within its inbound |
| `TrafficBatches.SoleClientWithinInbound` | internal/db/traffic.go:69-288 | After a batch, a sole client observed with its inbound never exceeds it in either direction |
| `TrafficBatches.SoleClientRepairedIff` | internal/db/traffic.go:200-288 | After an ok batch a sole client seen with its inbound keeps exactly the row its observations left unless it has more traffic than the inbound in some direction; then it takes the inbound's totals and reads "partial" |
| `TrafficSync.XrayMissingTrafficStatusMarkers` | internal/scheduler/traffic.go:257-304 | The loops build one marker per expected scope that was not seen |
| `TrafficSync.MarkersCover` | internal/scheduler/traffic.go:257-304 | A scope is marked if and only if it is expected and was not seen |
| `TrafficSync.SeenIs` | internal/scheduler/traffic.go:257-275 | A scope counts as seen exactly if some counter of Xray names it |
| `TrafficSync.MarkersMissObserved` | internal/scheduler/traffic.go:110-185 | A sync never marks an Xray scope that the same query observed |
| `LoginLimiter.Limiter.Allow` | internal/web/rate_limit.go:53-67 | Entries and answer: the first blocked key refuses, and expired keys before it are forgotten |
| `LoginLimiter.Limiter.RecordFailure` | internal/web/rate_limit.go:69-86 | Every key counts one failure, blocked from the limit on; true exactly if some key has just reached it |
| `LoginLimiter.Limiter.Reset` | internal/web/rate_limit.go:88-94 | The keys are forgotten |
| `LoginLimiter.Limiter.Seed` | internal/web/rate_limit.go:106-121 | A stored entry only raises the count and the block, and an expired one is ignored |
| `LoginMeaning.AllowedIff` | internal/web/rate_limit.go:53-67 | A question about several keys is refused exactly if one of them has reached the limit and its cooldown is not over, wherever it stands |
| `LoginMeaning.AfterFailures` | internal/web/rate_limit.go:53-86 | After any failures of a key and nothing else it is let through exactly if they are fewer than the limit or the cooldown since the last is over |
| `LoginMeaning.FailureCounts` | internal/web/rate_limit.go:69-86 | Each key of a failure counts one more and is barred from then on if that reaches the limit; no other key changes |
| `LoginMeaning.StoredOnlyRaises` | internal/web/rate_limit.go:106-121 | What is stored only raises count and block time, to one of the two known values, and only while it still matters |
| `LoginLimiter.ServeAllAccounts` | internal/web/rate_limit.go:53-86 | An entry always accounts for the latest run of counted failures |
| `LoginLimiter.WindowCount` | internal/web/rate_limit.go:53-86 | Times whose limit-th successors lie a cooldown apart put at most the limit into a window |
| `LoginLimiter.FailuresInWindow` | internal/web/rate_limit.go:53-86 | However failed logins arrive, no half-open window as long as the cooldown holds more than the limit of counted failures of a key |
| `PersistentLimiter.PersistentLoginLimiter.Allow` | internal/web/rate_limit_persistent.go:56-60 | Prune, load, ask |
| `PersistentLimiter.PersistentLoginLimiter.RecordFailure` | internal/web/rate_limit_persistent.go:62-67 | Load, count, persist |
| `PersistentLimiter.PersistentLoginLimiter.Reset` | internal/web/rate_limit_persistent.go:69-72 | Forget, persist |
| `PersistentLimiter.PersistentLoginLimiter.LoadKeys` | internal/web/rate_limit_persistent.go:76-95 | The first use of a key seeds memory from its row; a failed read is tried again |
| `PersistentLimiter.PersistentLoginLimiter.PersistKeys` | internal/web/rate_limit_persistent.go:107-128 | Forgotten keys are deleted, loaded ones saved, unread ones left alone |
| `PersistentLimiter.PersistentLoginLimiter.Prune` | internal/web/rate_limit_persistent.go:132-152 | At most once per interval, and only a prune that worked empties the loaded set |
| `PersistentRestarts.PruneIsDue` | internal/web/rate_limit_persistent.go:132-152 | At most once in ten minutes; then rows last written before two cooldowns ago go, all others stay, and keys are read again, if the table answers |
| `PersistentLimiter.RateLimitTable.Prune` | internal/db/login_rate_limits.go:53-76 | Exactly the rows not updated since the cutoff, in whole seconds, go; the others are as they were |
| `PersistentLimiter.LoadAddsNothing` | internal/web/rate_limit_persistent.go:76-95 | Loading rows that mirror memory changes no entry |
| `PersistentLimiter.PersistRestoresMirror` | internal/web/rate_limit_persistent.go:107-128 | After a change to memory, persisting its keys makes the table mirror it again |
| `PersistentLimiter.AskRefines` | internal/web/rate_limit_persistent.go:56-60 | A question is answered as by memory alone |
| `PersistentLimiter.FailRefines` | internal/web/rate_limit_persistent.go:62-67 | A failure is counted as by memory alone |
| `PersistentLimiter.PersistentRefinesPlain` | internal/web/rate_limit_persistent.go:56-152 | From any state whose table mirrors its memory, on every sequence of calls served by the table, the persistent limiter answers as the plain one, prunes and reloads included |
| `PersistentLimiter.FreshRefinesPlain` | internal/web/rate_limit_persistent.go:56-152 | The same from the first start on an empty table |
| `PersistentRestarts.PruneKeepsBlocks` | internal/web/rate_limit_persistent.go:132-152 | In every history, however often the process restarts, from any table and memory whose blocks are not in the future and whose rows are not older than their blocks, no prune deletes a row whose block has not run out |
| `PersistentRestarts.BlockSurvives` | internal/web/rate_limit_persistent.go:56-152 | From any state, a key whose failure reached the limit at time t is refused until one second before t plus the cooldown, through any number of restarts and prunes and any other calls, unless a successful login clears it |
| `PersistentRestarts.RefusedMeansRecent` | internal/db/login_rate_limits.go:20-76 | Nothing extends a block: in any history with restarts and prunes, a question is refused only if a failure of one of its keys was counted less than a cooldown before |
| `PersistentRestarts.CountSurvives` | internal/web/rate_limit.go:106-121 | A count below the limit is what memory holds whenever the key is asked about, through any restarts, prunes and calls of others, as long as no prune comes two cooldowns after its row was written |
| `PersistentRestarts.RestartKeepsCountIff` | internal/web/rate_limit_persistent.go:76-152 | On any table, a count below the limit is found after a restart if and only if the first prune does not find its row older than two cooldowns |
| `SubscriptionLimiter.RateLimiter.Allow` | internal/web/subscription_rate_limit.go:31-47 | New windows sweep ended ones; a full window refuses |
| `SubscriptionLimiter.RateLimiter.Cleanup` | internal/web/subscription_rate_limit.go:50-56 | The loop over the map keeps exactly the windows that have not ended |
| `SubscriptionLimiter.SharedRefinesOwn` | internal/web/subscription_rate_limit.go:31-56 | Every answer of the shared, sweeping limiter is the one the client's own limiter without sweeping would give |
| `SubscriptionLimiter.SlidingBound` | internal/web/subscription_rate_limit.go:31-47 | At most twice the limit pass in any closed interval as long as the window, and one fewer in a half-open one |
| `SubscriptionLimiter.Burst` | internal/web/subscription_rate_limit.go:31-47 | Within one window the first requests up to the limit pass and the rest are refused |
| `OutboundOrder.ListingRank` | internal/db/outbound_subscriptions.go:418-454 | The place of a row in the ORDER BY listing is the number of rows before it by key |
| `OutboundOrder.SortsArePermutation` | internal/db/outbound_subscriptions.go:418-461 | Rebalancing gives the sort values 0 to n-1, each once, in the order of the four-part key |
| `OutboundOrder.SeededComeFirst` | internal/db/outbound_subscriptions.go:418-454 | The seeded outbounds get 0, 1 and 2 |
| `OutboundOrder.GroupsFollow` | internal/db/outbound_subscriptions.go:418-454 | Seeded rows, prepended subscriptions, own rows and other subscriptions follow each other, subscriptions by priority, and equals keep their order |
| `OutboundOrder.ListingFollows` | internal/db/outbound_subscriptions.go:418-454 | The order in the terms of the rows: the seeded tags, rows of prepended subscriptions, the panel's own, rows of other subscriptions; priorities among subscriptions, and unchanged order within one |
| `OutboundOrder.RebalanceIsIdempotent` | internal/db/outbound_subscriptions.go:418-461 | A second pass changes nothing if own rows, and the subscription rows that stand last, are all joined to a subscription or none is |
| `OutboundOrder.MixedMoves` | internal/db/outbound_subscriptions.go:418-461 | Any table with a joined and a bare row in one of these places has sorts and priorities under which a second pass reorders it |
| `OutboundOrder.IdempotentIff` | internal/db/outbound_subscriptions.go:418-461 | For given sources and links, rebalancing is idempotent for every choice of sorts and priorities if and only if no such place mixes joined and bare rows |
| `OutboundOrder.RebalanceKeepsSound` | internal/db/outbound_subscriptions.go:418-461 | Rebalancing keeps that condition, unique tags, distinct priorities and live rules |
| `OutboundReorder.RightLengthNoStrangers` | internal/db/outbounds.go:302-315 | Pigeonhole: right length, no repeats and no strangers name every row |
| `OutboundReorder.RightLengthNoneMissing` | internal/db/outbound_subscriptions.go:198-209 | Pigeonhole: right length and none missing leave no room for repeats or strangers |
| `OutboundReorder.ReorderObeys` | internal/db/outbounds.go:280-334 | An accepted payload leaves the editable rows in its order and the others in theirs, and changes nothing but sort values |
| `OutboundReorder.SubscriptionReorderObeys` | internal/db/outbound_subscriptions.go:178-219 | Rows of subscriptions follow the payload within prepended and within other ones, and stay in order inside a subscription |
| `OutboundStore.RebalanceSorts` | internal/db/outbound_subscriptions.go:418-461 | The loop over the listing writes every row's rank |
| `OutboundStore.Store.ReorderOutbounds` | internal/db/outbounds.go:280-334 | A payload is accepted if and only if it is a permutation of the editable ids; otherwise nothing changes |
| `OutboundStore.Store.ReorderOutboundSubscriptions` | internal/db/outbound_subscriptions.go:178-219 | A payload is accepted if and only if it is a permutation of the live subscriptions; otherwise nothing changes |
| `OutboundStore.Store.MaterializeSubscriptionOutbounds` | internal/db/outbound_subscriptions.go:259-349 | The transaction: match or insert row by row, delete what no node claimed, rebalance; an error changes nothing |
| `OutboundStore.Store.DeleteOutboundSubscription` | internal/db/outbound_subscriptions.go:141-176 | The transaction: delete rows and rules, mark the subscription, rebalance; an error changes nothing |
| `Refresh.PlaceKeepsSound` | internal/db/outbound_subscriptions.go:277-324 | Placing a node keeps tags unique and rows clean |
| `Refresh.PlaceAllKeeps` | internal/db/outbound_subscriptions.go:277-324 | Placed nodes touch only rows of the subscription, and every row they touch is written by one of them |
| `Refresh.RefreshIsCorrect` | internal/db/outbound_subscriptions.go:259-384 | A refresh leaves rows of others alone except their sort and keeps their order, leaves exactly the rows its nodes went to, with the nodes' identities and the old tags, and drops exactly the rules whose outbound is gone |
| `Refresh.DeletionIsCorrect` | internal/db/outbound_subscriptions.go:141-176 | Deleting a subscription removes its rows and the rules on them and moves nothing else |
| `RefreshKeeps.GoesTo` | internal/db/outbound_subscriptions.go:277-324 | A node goes to the row it names if that is the subscription's, otherwise to the first row of its identity, otherwise to a new one |
| `RefreshKeeps.PlaceIs` | internal/db/outbound_subscriptions.go:277-324 | What one node writes, field by field, and when it is refused; no other row changes |
| `RefreshKeeps.OthersStay` | internal/db/outbound_subscriptions.go:259-384 | Rows that are not the subscription's stay as they are except for their number |
| `RefreshKeeps.DeletionTakes` | internal/db/outbound_subscriptions.go:141-176 | A deletion takes exactly the rows of the subscription and the rules on them |
| `RefreshKeeps.WhatIsRefused` | internal/db/outbound_subscriptions.go:259-276 | Which subscriptions are not refreshed or not deleted |
| `SubscriptionPlan.UniqueTag` | internal/subscription/subscription.go:563-573 | Stops on every finite set of used tags with the first free candidate |
| `SubscriptionPlan.TriedBound` | internal/subscription/subscription.go:563-573 | Why it stops: only as many candidates can be taken as there are tags |
| `SubscriptionPlan.FreshTagTrimmed` | internal/subscription/subscription.go:563-573 | A fresh tag is trimmed and not blank |
| `SubscriptionPlan.Materialize` | internal/subscription/subscription.go:227-276 | The loops index the existing rows and plan a node per link |
| `SubscriptionPlan.PlanTakes` | internal/subscription/subscription.go:227-276 | Link i takes the last row of its identity; if there is none, the i-th row of the subscription in listing order with its id and tag; and only if there are not so many, a new one |
| `SubscriptionPlan.FreshTagIs` | internal/subscription/subscription.go:563-573 | A fresh tag is the base, or the base with the first number from 2 on that makes it unused; a blank base reads "sub-node" |
| `RefreshKeeps.AllChangedKeepsRows` | internal/subscription/subscription.go:254-266 | When a provider changes all servers, none being fewer, every row of the subscription survives a successful refresh with its tag and all its rules |
| `RefreshKeeps.IdentityKeepsRow` | internal/subscription/subscription.go:254-266 | The row that a link's identity names survives a successful refresh with its tag and its rules |
| `SubscriptionPlan.FreshTagsApart` | internal/subscription/subscription.go:250-274 | A tag found for a link is unused and differs from the tags of all links before it |
| `RefreshTwice.FirstRefresh` | internal/subscription/subscription.go:227-276 | Starting empty, links with distinct identities get one row each, in link order, with their identity and endpoint |
| `RefreshTwice.SecondRefresh` | internal/db/outbound_subscriptions.go:259-349 | Once every link has its row, a refresh with the same links leaves all tables as they are |
| `RefreshTwice.RefreshTwiceIsOnce` | internal/web/outbound_subscriptions.go:328-375 | Refreshing a new subscription twice is refreshing it once: no id, tag, sort or rule changes |
| `TrafficStream.EqualMeansSame` | internal/web/traffic_v2.go:960-1006 | Comparing field by field leaves no field out |
| `TrafficStream.CoverageEqual` | internal/web/traffic_v2.go:1008-1026 | The loop over one map decides the comparison |
| `TrafficStream.CoverageEqualIffSame` | internal/web/traffic_v2.go:1008-1026 | A coverage is told from every other one if and only if none of its statuses is empty |
| `TrafficStream.NamedEqualIffSame` | internal/web/traffic_v2.go:1008-1026 | With named statuses one inclusion and equal sizes mean equal maps |
| `TrafficStream.EmptyStatusHidesSwap` | internal/web/traffic_v2.go:1008-1026 | For every coverage with an empty status: swapping that engine for any unlisted one compares equal |
| `TrafficStream.ChangedInbounds` | internal/web/traffic_v2.go:902-915 | The rows that are new or differ |
| `TrafficStream.ChangedClients` | internal/web/traffic_v2.go:917-930 | The rows that are new or differ |
| `TrafficStream.RemovedIds` | internal/web/traffic_v2.go:932-958 | The ids that are gone |
| `TrafficStream.BuildPatch` | internal/web/traffic_v2.go:866-900 | A patch of exactly the parts that changed, or none |
| `TrafficStream.MergeById` | web/src/routes/OverviewPage.tsx:251-267 | The page's merge: drop, replace in place, append |
| `TrafficStream.MergeDifference` | web/src/routes/OverviewPage.tsx:251-267 | Merging the difference of two row lists into a page that shows the first makes it show the second |
| `TrafficStream.Stream` | internal/web/traffic_v2.go:196-240 | The tick loop with its countdown to the next full snapshot |
| `TrafficStream.PageFollowsServer` | internal/web/traffic_v2.go:196-240 | After any ticks, failed and silent ones included, the page shows totals, coverage and rows of the last view loaded |
| `TrafficStream.SnapshotsKeepComing` | internal/web/traffic_v2.go:202-229 | Thirteen loaded views in a row contain a full snapshot |
| `TrafficSummary.CombineIsJoin` | internal/web/stats.go:379-398 | Statuses combine to the least one that covers both: commutative, associative, idempotent |
| `TrafficSummary.SummarizeOne` | internal/web/stats.go:105-203 | One inbound and its clients, from its own counter or from theirs |
| `TrafficSummary.SoleClientWithinInbound` | internal/web/stats.go:158-171 | A sole enabled client never exceeds a usable native inbound |
| `SummaryMeaning.StateShown` | internal/web/stats.go:105-203 | The totals of a state are always shown, its gains and speed only if it was seen within three minutes or says it is not live |
| `SummaryMeaning.InboundShown` | internal/web/stats.go:105-203 | An inbound with working counters of its own shows them; without, it shows the sum of its enabled clients whose counters work, if there are any |
| `SummaryMeaning.InboundStatus` | internal/web/stats.go:179-203 | An inbound shown by its clients has the status that joins those of all its enabled clients |
| `SummaryMeaning.InboundWindow` | internal/web/stats.go:179-203 | The window of an inbound shown by its clients is the longest of theirs |
| `SummaryMeaning.ClientShown` | internal/web/stats.go:126-178 | A client shows its own state, except for the only enabled client of a working inbound that it exceeds, which shows the inbound's |
| `TrafficSummary.SummaryIgnoresOrder` | internal/web/stats.go:126-203 | An inbound's summary does not depend on the order of its clients |
| `TrafficSummary.OkMeansAllConfiguredWork` | internal/web/stats.go:433-462 | Coverage reads ok if and only if something works and everything else is not configured |
| `SummaryMeaning.CountsAre` | internal/web/stats.go:400-432 | Each heading counts the statuses that read like it |
| `SummaryMeaning.OverallIs` | internal/web/stats.go:433-462 | What the panel says overall, for every list of statuses, told by which of them occur |
| `TrafficSummary.BuildCoverage` | internal/web/stats.go:464-494 | Every inbound is counted once, both cores are listed, and no engine status is empty |
| `OutboundTotals.TagReadsBack` | internal/db/core.go:290-309 | A generated tag is read back to its id by its own core for every positive 64-bit id, and never by the other core |
| `OutboundTotals.OutboundStatsByProfileID` | internal/web/stats.go:286-312 | The loop adds counters up by profile |
| `OutboundTotals.ProfileTotalsConserved` | internal/web/stats.go:286-312 | A profile is credited with exactly the counters of its tags, and no readable counter is lost |
| `OutboundTotals.CreditedTo` | internal/web/stats.go:286-312 | Counters under a generated tag count for the profile of the tag, and only counters of outbounds count |
| `OutboundTotals.ProfileRates` | internal/web/stats.go:286-312 | The rates of a profile are the sums over its counters that are not too old |
| `OutboundTotals.ProfileBytes` | internal/web/stats.go:286-312 | The totals of a profile are the sums over its counters, in each direction |
| `Grouping.GroupedConserves` | internal/web/traffic_v2.go:585-656 | Adding up by key keeps the bytes of every item that has a key |
| `Grouping.ListSumIsMapSum` | internal/web/traffic_v2.go:627-656 | The sum over any listing of the keys is the sum of the map |
| `TrafficAnalytics.BucketSeries` | internal/web/traffic_v2.go:585-656 | Points strictly increase in time, each holds the bytes of exactly the samples of its bucket whose trimmed lower-case status is blank, "ok" or "partial", and they add up to all such samples |
| `TrafficAnalytics.Summarize` | internal/web/traffic_v2.go:658-704 | Totals are those of the series and the peak is its largest point |
| `TrafficAnalytics.Heatmap` | internal/web/traffic_v2.go:829-860 | Cells are in order, each holds the points of its hour, and they add up to the series |
| `TrafficRanks.FilterSamples` | internal/web/traffic_api.go:88-154 | Exactly the samples of expected sources pass |
| `TrafficRanks.ClientSamplesOneMore` | internal/web/traffic_api.go:88-154 | The clients' samples are, in their order, those of expected clients that state the scope "client" or none |
| `TrafficRanks.ClientNameIs` | internal/web/traffic_v2.go:741-757 | A ranked client's label is that of the last client with its key on the engine |
| `TrafficRanks.InboundNameIs` | internal/web/traffic_v2.go:785-789 | A ranked inbound's label is that of the last inbound with its key |
| `TrafficRanks.SourcesExpected` | internal/web/traffic_api.go:88-154 | Every inbound is expected under its key, and every client that has a key under the engine of its inbound; nothing else is |
| `TrafficRanks.Rank` | internal/web/traffic_v2.go:706-827 | Every listed key occurs in the samples, once, with its label and exactly its bytes, in order of bytes and then labels; a key is left out only at the limit and would stand behind everything listed; if no key is left out the ranks add up to the usable samples |
| `TrafficRanks.Fallback` | internal/web/traffic_v2.go:420-546 | The loops collect native spots, homes of clients, sums and statuses, and complete the inbounds' samples |
| `TrafficRanks.NeverBoth` | internal/web/traffic_v2.go:420-546 | A made-up spot never has a usable sample of the inbound's own |
| `TrafficRanks.KeysAtIs` | internal/web/traffic_v2.go:444-463 | The clients that have a say at a spot are those of its inbound that are enabled and have a key |
| `TrafficRanks.CreditedOnce` | internal/web/traffic_v2.go:420-546 | At every instant an inbound is credited with its own usable samples if it has any, and otherwise with all of its clients' usable bytes if and only if some enabled client's status is usable or two of them say different things, a blank or missing one saying "waiting"; never with both |
| `TrafficRanks.NothingLost` | internal/web/traffic_v2.go:420-546 | If every client sample has a status and no source has two samples of one instant, as the table keeps them (internal/db/schema.go:335), no client's usable bytes are lost |
| `TrafficRanks.BlankStatusLoses` | internal/web/traffic_v2.go:507-518 | The input that does lose them: one client with a blank status, which counts as usable but joins to "waiting" |
| `TrafficRanks.BuildAnalytics` | internal/web/traffic_v2.go:392-418 | Series, summary and heatmap add up to the bytes of the samples of the chosen scope that read blank, "ok" or "partial"; both rankings are the top of their samples, and one that leaves no key out, as any that is shorter than the limit, adds up to the bytes of its scope |
| `ConfigInstall.Host.ApplySingboxConfig` | internal/singbox/manager.go:142-208 | The sing-box installer runs the protocol step by step, with every call allowed to fail |
| `ConfigInstall.Host.ApplyXrayConfig` | internal/web/xray_controller.go:199-293 | The Xray installer runs the same protocol |
| `ConfigInstall.Host.CopyCurrent` | internal/singbox/manager.go:170-188 | The backup holds the live content, or the copy failed |
| `ConfigInstall.Host.SwapAndRestart` | internal/singbox/manager.go:189-208 | Swap, restart, and restore on failure |
| `ConfigInstall.InstallIsSafe` | internal/singbox/manager.go:142-208 | At every step the live configuration is the previous one or a checked new one; failing before the swap changes nothing; success means the new one is live and running; a restart failure that could be undone means the previous one is live again |
| `ConfigInstall.HistoryIsWhole` | internal/singbox/manager.go:142-208 | The history that the safety claim ranges over begins and ends with the real machine and leaves no step out |
| `ConfigInstall.TemporaryIsGone` | internal/singbox/manager.go:142-208 | If its removal works, the temporary file is gone in the end, however the installation ended |
| `ConfigInstall.TemporaryStays` | internal/singbox/manager.go:142-208 | If its removal fails, a temporary file that was never swapped in is still there |
| `ConfigInstall.SuccessLeavesOne` | internal/singbox/manager.go:142-208 | After a success the new content is live and running, and the backup is gone exactly if its removal worked |
| `ConfigInstall.OthersStay` | internal/singbox/manager.go:142-208 | No other file changes |
| `ConfigInstall.AppliedIff` | internal/web/xray_controller.go:199-293 | An installation succeeds if and only if every call up to the restart does |

## Left out

- Codec: length prefixes of 2^63 and more, where the source converts to a signed integer; lengths are naturals below that bound.
- Codec: the request encoder, the HTTP/2 transport and the command-line client with its JSON output.
- `>>>` names: scope and direction words are matched as the source does; white space is that of Unicode, case folding only that of ASCII letters.
- Routing: inbound and outbound settings, management hosts, the default outbound, `rule_set` and capability tables; the system rules are an input.
- RoutingMeaning.SingboxRoutingIff: a rule bound by name is assumed to name one inbound; when building fails there is no list to speak of, which `CompileFailsIff` settles.
- RoutingMeaning.XrayRoutingPreserved: clients are told apart by their route user, so distinct non-empty route users are assumed; a rule bound by name is assumed to name one inbound.
- Jobs: job ids, clocks and the results of the work are inputs; cache invalidation and automatic re-application after a success are not modelled.
- Ledger: samples, rates kept in floating point, the cleanup of old samples and the 64-bit overflow of totals; a failed transaction changes nothing and is not a step.
- Ledger: the clamping of limits and the update of clients by the older batch interface.
- TrafficRuns.LedgerContinues: for scopes that are not reset and that no repair changes: a sole client may be one as long as it stays within its inbound (`TrafficTouches.QuietRun`); what the repair does to one that does not is `TrafficBatches.SoleClientRepairedIff`.
- TrafficRuns.MarkersIrrelevantIff: for scopes that no repair changes in either run; without markers other rows can differ, so neither run follows from the other there.
- TrafficRuns.LedgerFromFirstSight: for times that increase from sighting to sighting, which a reset issued while a sync runs can break, because it is dated after that sync's observations; `TrafficRows.TracksIffFair`, `TrafficRuns.LedgerFromBlank` and `TrafficRuns.ResetThenAnything` hold for any times.
- TrafficRuns.NonzeroLedgerContinues: a special case; `LedgerContinues` has the exact condition for all counters.
- TrafficRuns.NonzeroFromFirstSight: a special case; `LedgerFromFirstSight` and `LedgerFromBlank` cover counters that are both zero.
- TrafficLedger.TrafficStore.ApplyTrafficRawStats: the sample rows written beside the states are not modelled.
- TrafficLedger.TrafficStore.RepairSingleClients: the sample row of a repaired client is not modelled.
- TrafficLedger.TrafficStore.MarkTrafficScopeStatus: the sample rows written beside the states are not modelled.
- LoginLimiter.FailuresInWindow: for failed logins that follow each other on a clock that never goes back, each naming a key at most once; a successful login in between forgets its keys and starts the count afresh.
- PersistentRestarts.BlockSurvives: the second before the end is the table's, which holds whole seconds; without a restart the block ends on time.
- PersistentLimiter.PersistentRefinesPlain: calls run one after another on a clock that never goes back, and the table serves every key of a call; only pruning may fail.
- PersistentLimiter: concurrent calls, timeouts and the throttled error log.
- SubscriptionLimiter: the derivation of a client's key from a request.
- OutboundOrder.RebalanceIsIdempotent: a table that mixes joined and bare rows can happen to be stable for some sorts and priorities; `IdempotentIff` speaks of all of them.
- Outbounds: the validation of profiles and the parsing of share links are inputs (a node says whether it is valid); creating, editing and enabling single outbounds, and creating and editing subscriptions.
- Refresh: the hash of an endpoint, the slug of a remark, fetch times and the stored identity list; ids come from a counter that never goes back.
- RefreshTwice.FirstRefresh: for links with distinct identities that do not name a seeded protocol, which no parsed link does; a positional match and an identity match can name the same row, so one row per link is not claimed for every refresh.
- SubscriptionPlan.Materialize: the existing rows come in listing order, as its caller passes them, so sorting the subscription's own rows leaves them as they are.
- Stream: JSON text, the cache behind the views, and the page's refetch after an error; floating-point rates are reals, so a value that does not equal itself is not modelled.
- TrafficSummary.SummarizeOne: the summary of given states; messages, raw Xray counters and the choice of the newest state per scope are not modelled.
- OutboundTotals.OutboundStatsByProfileID: the list of engines of a profile is not modelled.
- TrafficAnalytics.BucketSeries: the rates of a point and the metrics "rate" and "cumulative" are not modelled.
- TrafficAnalytics.Summarize: peak time, rates and the tie-break by rate are not modelled.
- TrafficRanks.Rank: for the metric "usage"; of two keys with equal bytes and equal labels either may come first, as the program walks its map in any order.
- TrafficRanks.Fallback: the final sort of the completed samples and their summed totals and rates are not modelled.
- Summaries: messages, notes, raw Xray counters and the choice of the newest state per scope; the list of engines of an outbound.
- Analytics: the metrics "rate" and "cumulative", rates, samples whose time does not parse, the final sorting of the completed samples, and the calendar text of days.
- TrafficRanks.BuildAnalytics: for the metric "usage" only; samples state their scope, as stored rows do; the filter lets samples without one through, and the rankings would skip them.
- Config install: building and marshalling the configuration, file modes and the texts of errors and executed commands; a crash between two steps is covered by the claim about every step.
