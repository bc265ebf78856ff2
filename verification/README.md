# A verified model of the probe gateway

Probes fetch a configuration, measure, and push results; administrators change the configuration
while this goes on; Prometheus scrapes the outcome. This project models that gateway in Dafny and
proves what its design promises.

`dafny verify dfyconfig.toml` checks the whole project. One module per file:

| module | what it models |
|---|---|
| `Wire`, `Text`, `Order` | the values on the wire, decimal and UTF-8 text, byte order and sorting |
| `Json`, `Identity` | the hashed JSON text and the configuration ID derived from it |
| `Validation` | the rules a push must satisfy and the fault a faulty push is answered with |
| `TargetStore` | the target tables, the two queries over them, the forms that edit them |
| `Settings` | measurement parameters, their form, and the push cadence they imply |
| `Buckets`, `AuthThrottle`, `RegisterLimiter` | the three rate limiters |
| `Catalog`, `Import`, `Migration` | campuses, buildings and probes; batch import; start-up |
| `Portal`, `Simultaneous` | self-registration, one at a time and overlapping |
| `Latest`, `Scrape`, `ProbeList` | the measurements in memory, what a scrape emits, what the administrator sees |
| `ClientIP` | attribution of a request to an address |
| `Gateway`, `Handlers` | all of it as one state machine, and the request handlers refining it |

Conventions. A class holds the fields the program updates; its methods are proved equal to functions
on values, and the theorems are about those functions. The hash behind the configuration ID is a
parameter (it stands for SHA-1 over the fixed namespace followed by the text), and its only assumed
property is that the two texts being compared do not collide. Rows a database
returns, the order in which a map is visited, random draws and the clock are parameters constrained by
what the program may rely on. Times are integers in nanoseconds; bucket credit is exact and counted in
the same unit. Measured numbers are reals with explicit NaN and infinities.

## What the proofs found

- Probe cap: the registration handler counts probes in one step and inserts in a later one, and its own comment
  (internal/portal/register.go:91-99) admits that simultaneous registrations can exceed the cap. With at most K of
  them in between, the table stays within the cap plus K - 1 (`Simultaneous.OvershootBound`); the cap is one
  exactly when K is at most 1 (`Simultaneous.CapSafeIff`; `TwoOvershoot` is the run that exceeds it).
- Register limiter, latent: the eviction scan uses the empty string for "no candidate yet". If no bucket is full
  and the address "" is the least recently used, it evicts a wrong entry, or none so that the map exceeds
  its bound (`RegisterLimiter.VictimProperIff`, `NothingEvictedIff`, `BoundedIff`; `EmptyAddressOverflows` is a full
  table at which it happens). A caller that never passes "" is safe in every run (`OrderlyFromStart`), and
  attribution yields "" only for a peer address without a host part (`ClientIP.EmptyOnlyFromPeer`), which a TCP
  listener does not produce.
- Campus deletion counts probes by campus and by building. While every probe lies in its own campus the second
  count is redundant (`Catalog.CampusCountEnoughWhenPlaced`); after a legacy database has been opened it is needed
  (`CampusCountEnoughIff`, `LegacyNeedsBothCounts`).
- Settings form: it compares the cycle with RATE_LIMIT in whole milliseconds. With a fractional-millisecond
  RATE_LIMIT longer than a second it lets in a cycle that the limiter cannot sustain; otherwise it does not
  (`Settings.GuardSufficientIff`).
- `ICMPRoundMS` can overflow 64 bits, so that a configuration whose round outlives its cycle is accepted
  (`Settings.OverflowAccepted`); it is accepted wrongly only in that case (`Settings.RoundFitsIff`).
- `ConfigID` sorts by target ID with an unstable sort: the hashed form is determined exactly when no
  two entries share an ID and differ (`Identity.CanonicalDeterminedIff`). The tables never produce such a list.
- The building form accepts the empty code, and no other invalid one (`Catalog.CreatedCodeValidIff`).
- On a legacy database the backfilled catalog meets the placement invariant exactly when no building code
  was used in two campuses (`Catalog.BackfillConsistentIff`).
- The dispatch query trims spaces only (`TRIM` in SQLite), so an address of tabs counts as set. The model
  follows the query; the administrator's form trims all white space before storing.

## Model

| member | source | states |
|---|---|---|
| `Gateway.ObedientProbeInEveryRun` | internal/api/push.go:112-289 | In every state of every run of edits, fetches, pushes and restarts, a probe that echoes its last fetch is told "too many requests" iff its address is blocked or its own allowance is spent, else accepted iff the configuration is, as a set, the fetched one, else told "stale"; never "unknown target" or "probe type" |
| `Gateway.ObedientBehindCleanAddress` | internal/api/push.go:224-247 | The same without the first case, for an address that has sent fewer than twenty bad tokens |
| `Gateway.BlockedOnlyByGuesses` | internal/api/push.go:224-282 | In every run an address is tracked only after a bad token from it and blocked only after twenty: valid traffic is never charged |
| `Gateway.EveryThrottleBounded` | internal/api/limiter.go:77-110 | In every run the throttle tracks at most 10000 addresses |
| `Gateway.StaleNeverUnknown` | internal/protocol/validate.go:28-101 | The same for any state and any genuine fetch: the verdict is None or ConfigStale, decided by set equality |
| `Gateway.SameIDIffUnchanged` | internal/api/push.go:187-197 | The current ID equals the fetched one iff parameters and target set are unchanged, given that the two texts do not collide |
| `Gateway.ServedIff` | internal/api/targets.go:84-115 | A fetch serves a target with an address and a type iff the target is enabled, has the type, and that address, which is not blank |
| `Gateway.LastSaveIsServed` | internal/store/measurement.go:25-56 | In every run a fetch after an accepted save serves the saved parameters, until the next accepted save or reset |
| `Gateway.ResetServesDefaults` | internal/store/measurement.go:59-61 | After a reset, likewise, the defaults |
| `Gateway.StoredIsServed` | internal/store/measurement.go:25-42 | Before the first of either, the valid set stored at the start, else the defaults |
| `Gateway.FetchCuresStale` | internal/api/targets.go:84-115 | After a fetch, whatever pushes, fetches, catalog edits and restarts follow, an obedient push passes validation until the targets or parameters are edited; no assumption on the hash |
| `Gateway.RestartNeverStale` | internal/store/migrate.go:182-209 | A restart leaves the configuration of an obedient probe unchanged: seeding acts on an empty table only |
| `Gateway.PromiseApplies` | internal/api/targets.go:69-115 | For every deployment there is a run after which a probe holds a fetch, an obedient push exists and the texts are told apart |
| `Gateway.FetchThenAccepted` | internal/api/push.go:112-206 | The promise is not vacuous: a probe that is served a fetch, with a fresh bucket, can report any pair it was given, and that push from the same address is accepted |
| `Gateway.WithdrawnThenStale` | internal/api/push.go:143-197 | Once anything fetched is no longer allowed, every obedient push is stale, whether or not it reports that target |
| `Gateway.UntickedThenStale` | internal/admin/targets.go:106-132 | Once a target is saved without a type, every obedient push of a held fetch that has the type is stale |
| `Gateway.EveryState` | internal/api/push.go:187-200 | Every state of every run, from any catalog: target tables consistent, every entry in memory well formed and owned by an existing enabled probe, every bucket likewise, every held configuration genuine |
| `Gateway.NextKeepsInv` | internal/admin/probes.go:334-422 | Each single step, from any state satisfying that invariant, keeps it |
| `Gateway.FirstStart` | internal/store/migrate.go:182-209 | The first start on an empty database is a start in the sense of these theorems, with a consistent, clean catalog and valid target IDs |
| `Gateway.DefaultSeeds` | internal/store/migrate.go:162-169 | The five seeded targets are admissible seeds: known types and valid IDs only |
| `Gateway.EveryCatalogConsistent` | internal/store/catalog.go:97-267 | In every run that starts from a consistent catalog, every state's catalog is consistent |
| `Gateway.EveryCatalogCovered` | internal/store/catalog.go:97-267 | In every run that starts with every named code existing, an upgraded database among them, none ever dangles |
| `Gateway.EveryLabelClean` | internal/admin/probes.go:19-30 | In every run from a clean catalog, campus, group and building labels of every scraped series are valid codes and the network label is one of the two types |
| `Gateway.EveryTargetLabelValid` | internal/metrics/names.go:22-24 | In every run from valid target IDs, every measurement series has six labels and the sixth, the one that comes out of a push, is a valid target ID |
| `Gateway.OwnerIff` | internal/store/probes.go:76-86 | With unique token hashes a token resolves to exactly the probe that holds its hash |
| `Gateway.RotationSwapsTokens` | internal/admin/probes.go:364-400 | After a rotation the probe answers to the new token and nobody to the old one |
| `Gateway.RotationSparesOthers` | internal/store/probes.go:182-192 | Every other token resolves as before |
| `Gateway.ToggleSwitches` | internal/admin/probes.go:334-362 | A toggle switches its probe and no other, and a second one restores the catalog |
| `Gateway.CycleNeverThrottled` | internal/admin/settings.go:140-154 | In every run, once the pushes of a probe that authenticate come an accepted cycle apart under a whole-millisecond limit, every one after the first finds its allowance, whatever toggles, restarts and other probes' pushes come between |
| `Gateway.ThrottledIff` | internal/api/push.go:127-247 | "Too many requests" is answered to an enabled probe exactly when its address is blocked or its allowance is spent |
| `Gateway.BarredIff` | internal/api/push.go:112-141 | Unauthorized: no token, or an unknown one from an address that is not blocked. Disabled: the token of a probe that is switched off, from an address that is not blocked. Too many requests: a blocked address or a spent allowance. Each iff, over the token, the two budgets and the flag |
| `Gateway.MalformedIff` | internal/api/push.go:127-157 | A body that does not decode is answered with its own error iff the request passes both throttles |
| `Gateway.GateIsOneRequest` | internal/api/push.go:211-289 | Answer and failure budgets of a request are those of peek, lookup and charge, one after the other, in the machine that interleaves them |
| `Gateway.BucketSteps` | internal/api/limiter.go:52-70 | A probe's bucket moves by its own pushes, goes when the probe is disabled, deleted or the process restarts, and stays otherwise |
| `Gateway.PushBound` | internal/api/limiter.go:52-70 | In every run, in any window of length T in which the gateway does not forget the probe, its pushes find an allowance at most burst + T / interval times |
| `Gateway.LatestIsLastAccepted` | internal/latest/store.go:37-70 | In every run a probe's entry is e iff some earlier push of that probe was accepted with those results at that server time, and since then no push of it was accepted, it was not disabled or deleted, and nothing restarted |
| `Gateway.EnabledSince` | internal/admin/probes.go:349-418 | From that accepted push on, the probe existed and was enabled in every state |
| `Gateway.RefusedChangesNothing` | internal/api/push.go:112-197 | A refused push leaves tables, settings, every measurement and every other probe's bucket as they were |
| `Gateway.EveryScrapeCoherent` | internal/metrics/collector.go:115-257 | In every state of every run, for any time and threshold, the scrape is coherent and has no duplicate series |
| `Handlers.Server.HandlePush` | internal/api/push.go:112-207 | The handler over stores, limiters and memory answers and changes state exactly as the state machine's push step, authentication included |
| `Handlers.Server.Authenticate` | internal/api/push.go:211-289 | Peek, lookup and charge give exactly the step's refusal and the step's failure budgets, and an evicted entry is an oldest one |
| `Handlers.OutcomeIsGate` | internal/api/push.go:211-289 | The throttle's outcome of a lone request is the refusal the state machine gives |
| `Handlers.Server.HandleTargets` | internal/api/targets.go:69-115 | A probe that authenticates and is enabled is served the current parameters, list and the ID of both; anyone else nothing; only the failure budgets change |
| `Handlers.Server.CurrentID` | internal/api/push.go:167-194 | The ID computed from joined rows through fold and in-place sorts is the one of the dispatch set |
| `Handlers.DispatchEntries` | internal/api/targets.go:48-58 | The copied entries hold the same IDs, addresses and types in the same order |
| `Handlers.Server.HandleProbeToggle` | internal/admin/probes.go:334-362 | Switching off also drops the bucket and the measurement; switching on drops neither; an unknown ID changes nothing |
| `Handlers.Server.HandleProbeDelete` | internal/admin/probes.go:402-422 | Row, bucket and measurement go together, or nothing does |
| `Handlers.Server.HandleProbeRotate` | internal/admin/probes.go:364-400 | Only the token hash changes, and only to one no other probe holds |
| `Handlers.Server.HandleSettingsSave` | internal/admin/settings.go:67-87 | The stored parameters change exactly when the form is accepted |
| `Handlers.Server.HandleSettingsReset` | internal/store/measurement.go:59-61 | The stored parameters are dropped and nothing else changes |
| `Identity.ConfigID` | internal/protocol/dispatch.go:219-246 | Equals the ID of the target list the caller's slices hold, and modifies none of them |
| `Identity.IdentityOfTheSet` | internal/protocol/dispatch.go:188-246 | For distinct target IDs, two IDs agree iff parameters and target sets agree, orders of targets and types aside |
| `Identity.SameSetSameCanonical` | internal/protocol/dispatch.go:220-229 | Permuting targets or types keeps the hashed list |
| `Identity.SamePayloadSameSet` | internal/protocol/dispatch.go:188-246 | Equal hashed texts come from equal parameters and equal target sets |
| `Identity.CanonicalDeterminedIff` | internal/protocol/dispatch.go:222-229 | The unstable sort has one possible outcome iff no two entries share an ID and differ |
| `Identity.IdentifyIsUuidV5` | internal/protocol/dispatch.go:236-258 | The ID is 36 ASCII characters, dashes, version digit 5, variant digit 8 to b (section 4.3 of RFC 4122) |
| `Identity.UuidAt` | internal/protocol/dispatch.go:248-258 | Every byte is printed as its two hex digits at its position in the grouping |
| `Identity.FormatUUID` | internal/protocol/dispatch.go:248-258 | The loop prints that text |
| `Json.PayloadInjective` | internal/protocol/dispatch.go:188-231 | The one-object JSON text determines parameters and list, whatever characters the strings contain |
| `Validation.AcceptedIffAcceptable` | internal/protocol/validate.go:28-101 | A push is accepted iff every rule of the protocol holds of it |
| `Validation.VerdictCodes` | internal/protocol/validate.go:28-101 | Which refusal: stale iff the version is right and a named, short enough configuration is not the current one; unknown target iff the header is sound and the least target breaking a rule is not in the allowlist; bad probe type iff it is and its least offending type is unknown or not allowed; the version iff it differs; the payload in every other refusal |
| `Validation.Validate` | internal/protocol/validate.go:28-101 | The loops over sorted keys return header faults first, then the fault of the least faulty target and of its least faulty type, whatever the map order; the "total is zero" branch never fires. Which code that is, `VerdictCodes` says |
| `Validation.ValidateTypes` | internal/protocol/validate.go:75-95 | The inner loop returns the fault of the least faulty type |
| `Validation.FirstIsLeast` | internal/protocol/validate.go:58-95 | The first faulty key in ascending order is the least faulty one |
| `Validation.ValidateICMP` | internal/protocol/validate.go:129-194 | Accepts iff counts, loss ratio, success, round-trip order and jitter are consistent |
| `Validation.ValidateDNS` | internal/protocol/validate.go:204-223 | Accepts iff a finite non-negative duration is present exactly on success |
| `Validation.ValidateHTTP` | internal/protocol/validate.go:226-256 | Accepts iff status and duration come together and success means 200 to 399 |
| `Validation.ValidateMeasurement` | internal/protocol/validate.go:106-126 | Accepts iff the measurement carries a well-formed payload of its declared type |
| `TargetStore.FoldOfJoin` | internal/store/targets.go:243-278 | Folding the ordered join gives exactly the dispatchable targets, ascending, each with its types ascending |
| `TargetStore.FlattenFold` | internal/store/targets.go:255-278 | Flattening the fold gives the rows back iff neighbouring rows of a target agree on the address |
| `TargetStore.FoldFlatten` | internal/store/targets.go:255-278 | Folding the flattened list gives the list back |
| `TargetStore.Dispatch` | internal/store/targets.go:243-278 | Every entry is an enabled, addressed target with types; IDs strictly ascend |
| `TargetStore.DispatchComplete` | internal/store/targets.go:243-251 | Every such target is served |
| `TargetStore.DispatchedIsAllowed` | internal/store/targets.go:190-278 | Two different queries over the same tables agree: whatever is dispatched is allowed |
| `TargetStore.Store.DispatchTargets` | internal/store/targets.go:243-278 | The row loop yields that list |
| `TargetStore.Store.Allowlist` | internal/store/targets.go:190-217 | The row loop yields exactly the types of each enabled target |
| `TargetStore.FoldRows` | internal/store/targets.go:255-278 | The loop over rows is the fold |
| `TargetStore.Store.CreateTarget` | internal/store/targets.go:90-123 | Inserts row and types, or reports a duplicate and changes nothing |
| `TargetStore.Store.UpdateTarget` | internal/store/targets.go:126-154 | Replaces row and types, or reports not found and changes nothing; what is there afterwards, `UpdateLeaves` says |
| `TargetStore.Store.DeleteTarget` | internal/store/targets.go:157-170 | Removes row and types, or reports not found and changes nothing |
| `TargetStore.Store.InsertProbeTypes` | internal/store/targets.go:172-185 | Adds each distinct type once |
| `TargetStore.ReadTargetForm` | internal/admin/targets.go:46-79 | The loop refuses the first unknown type, and otherwise keeps each ticked type once, sorted |
| `TargetStore.HandleTargetCreate` | internal/admin/targets.go:81-104 | Creates, or updates in place when the ID exists; a refused form changes nothing |
| `TargetStore.HandleTargetUpdate` | internal/admin/targets.go:106-132 | Updates the named target only; a refused form changes nothing |
| `TargetStore.EditsKeepTables` | internal/admin/targets.go:53-66 | Every edit keeps the foreign key and stores only icmp, dns and http |
| `TargetStore.UpdateLeaves` | internal/store/targets.go:126-154 | After an accepted save the row holds the form's own trimmed fields, the types are exactly those ticked, and no other target's row or types moved; otherwise nothing did |
| `TargetStore.CreateLeaves` | internal/admin/targets.go:81-104 | The same for the create form and the ID typed in, which must be valid |
| `TargetStore.DeleteLeaves` | internal/store/targets.go:157-170 | The target and its types are gone, and no other target's row or types moved |
| `TargetStore.AllowedIff` | internal/store/targets.go:190-217 | A pair is in the allowlist iff the target is enabled and has the type |
| `TargetStore.DispatchedIff` | internal/store/targets.go:243-278 | It is dispatched, with an address, iff moreover that is the target's address and not blank |
| `TargetStore.UntickedIsGone` | internal/store/targets.go:126-154 | A type not ticked is neither allowed nor dispatched afterwards |
| `Settings.NoOpSave` | internal/admin/settings.go:28-154 | Rendering a configuration into the form and saving it gives it back, and is accepted iff it still meets the rules |
| `Settings.ConfigFromForm` | internal/admin/settings.go:102-155 | Returns the first unparsable number, else the first broken rule, else the configuration |
| `Settings.AcceptedFields` | internal/admin/settings.go:102-155 | Which number is which: the accepted configuration holds what was typed into each field, and the two boxes |
| `Settings.Validate` | internal/protocol/dispatch.go:124-166 | Accepts iff all limits hold |
| `Settings.RoundFitsIff` | internal/protocol/dispatch.go:106-142 | An accepted configuration's round fits its cycle iff the round does not overflow |
| `Settings.OverflowAccepted` | internal/protocol/dispatch.go:106-142 | A concrete accepted configuration whose round is longer than its cycle |
| `Settings.InForce` | internal/store/measurement.go:25-42 | What is dispatched is the stored set when there is one and it is valid, else the defaults; it is always valid |
| `Settings.AcceptedCycleSustained` | internal/admin/settings.go:140-154 | With a whole-millisecond limit, pushes an accepted cycle apart are admitted from the second on, whatever the bucket held, and from the first if it is fresh |
| `Settings.SpacedAdmitted` | internal/api/limiter.go:52-62 | Calls an interval apart are admitted after the first, drained or not |
| `Settings.SteadyCycleIff` | internal/api/limiter.go:52-62 | A steady cycle is admitted for ever iff it is no shorter than the interval |
| `Settings.GuardSufficientIff` | internal/admin/settings.go:140-154 | The form rules out every unsustainable cycle iff the limit is whole milliseconds or at most one second |
| `Text.AtoiItoa` | internal/admin/settings.go:28-39 | Parsing a printed 64-bit number gives it back |
| `Text.OuterSpaceGoes` | internal/admin/buildings.go:82-113 | Trimming removes outer white space and nothing else |
| `Order.LessIff` | internal/protocol/dispatch.go:222-229 | One string is less than another iff at the first place where they differ it ends or has the smaller character |
| `Buckets.SpentWithinCredit` | internal/api/limiter.go:52-62 | Whatever is spent was there or flowed in |
| `Buckets.RefusedIff` | internal/api/limiter.go:52-62 | The dual, exact: a call is refused iff the admissions since the start or since some earlier call used up what can have been there and what flowed in |
| `Buckets.RefusalCostsNothing` | internal/api/limiter.go:52-62 | Deleting a refused call from any trace leaves every other answer, of every probe, as it was |
| `Buckets.ProbeWindowBound` | internal/api/limiter.go:52-70 | In any trace of everybody's calls, a window of length T without a removal admits one probe at most burst + T / interval times |
| `Buckets.Isolation` | internal/api/limiter.go:52-70 | Deleting all other probes' calls leaves one probe's answers as they were |
| `Buckets.FreshUnnoticedIffFull` | internal/portal/limiter.go:75-100 | Replacing a bucket by a fresh one is unobservable iff the bucket is full |
| `Buckets.Limiter.Allow` | internal/api/limiter.go:52-62 | Creates a full bucket on first use, and spends from that probe's bucket only; what a refusal leaves, `RefusalCostsNothing` says |
| `Buckets.Limiter.Remove` | internal/api/limiter.go:66-70 | Forgets that probe's bucket only |
| `RegisterLimiter.BoundedRefinesUnbounded` | internal/portal/limiter.go:51-100 | In every run in which each eviction drops a full bucket, every answer is that of one eternal bucket per address |
| `RegisterLimiter.LightTrafficRefines` | internal/portal/limiter.go:51-100 | The same as a condition on traffic: from start-up, while at each call fewer than 10000 addresses have called within the last full refill |
| `RegisterLimiter.RefusedOnlyStamps` | internal/portal/limiter.go:51-66 | A refused call leaves every bucket as it was and evicts nobody |
| `RegisterLimiter.RefusalUnnoticed` | internal/portal/limiter.go:51-66 | Without it every other call is answered as before, on the eternal buckets that the bounded map agrees with |
| `RegisterLimiter.RoomIsFull` | internal/portal/limiter.go:83-100 | With fewer recent callers than places, eviction drops a full bucket |
| `RegisterLimiter.OrderlyFromStart` | internal/portal/limiter.go:51-100 | In every run from start-up in which no call names "", every map stays within 10000 entries and every victim is the promised one |
| `RegisterLimiter.VictimProperIff` | internal/portal/limiter.go:75-100 | The victim is a full bucket, else the least recently used one, iff it is not the case that no bucket is full and the address "" is the strictly least recently used |
| `RegisterLimiter.NothingEvictedIff` | internal/portal/limiter.go:83-100 | The scan evicts nothing iff, in that case, "" is moreover visited last |
| `RegisterLimiter.BoundedIff` | internal/portal/limiter.go:51-66 | One call keeps the map within 10000 entries iff it does not need room in that situation |
| `RegisterLimiter.EmptyAddressOverflows` | internal/portal/limiter.go:83-100 | A map of 10000 drained entries, "" used a moment before all others, that the next new address takes to 10001 |
| `RegisterLimiter.Limiter.EvictIdle` | internal/portal/limiter.go:83-100 | The loop drops exactly the victim of the scan |
| `RegisterLimiter.Limiter.Allow` | internal/portal/limiter.go:51-66 | Makes room for a new address, then answers from and spends its bucket |
| `AuthThrottle.GuessBound` | internal/api/push.go:243-279 | However peeks, lookups and charges of concurrent requests interleave, an address not evicted gets at most 20 + T / 3s bad tokens answered 401 in a window of length T |
| `AuthThrottle.GuessBoundUnderLRU` | internal/api/limiter.go:77-129 | The same with no assumption on eviction, for a strictly increasing clock, when fewer than 10000 other addresses are not older at the start of the window or used during it |
| `AuthThrottle.GuessBoundFromStart` | internal/api/limiter.go:77-129 | The same for any window of any interleaving from start-up |
| `AuthThrottle.ThrottledOnlyByOthers` | internal/api/push.go:243-271 | A request past the peek is throttled after its lookup only if another request charged the same address in between |
| `AuthThrottle.RefusedChargeIsPeek` | internal/api/limiter.go:77-129 | A refused charge is no more than a peek: it spends nothing and evicts nobody |
| `AuthThrottle.Authenticate` | internal/api/push.go:211-289 | One request at a time: what is answered, charged and evicted in each case; the late throttle is not among the outcomes |
| `AuthThrottle.LRUSurvival` | internal/api/limiter.go:77-110 | With a strictly increasing clock an entry survives, unchanged, while fewer than 10000 other addresses have been used since its own last use |
| `AuthThrottle.LRUSurvivalFromStart` | internal/api/limiter.go:77-129 | The same after any run from start-up |
| `AuthThrottle.EvictedIff` | internal/api/limiter.go:81-105 | A charge evicts an entry iff room is needed and every other entry is newer |
| `AuthThrottle.AlwaysBounded` | internal/api/limiter.go:77-129 | Any sequence of charges and peeks keeps at most 10000 entries, whatever the clock does |
| `AuthThrottle.RunsBounded` | internal/api/limiter.go:77-129 | So does any interleaving of requests |
| `AuthThrottle.FailureLimiter.AllowAuthFailure` | internal/api/limiter.go:77-110 | Charges one address, evicting an oldest entry when a new address needs room |
| `AuthThrottle.FailureLimiter.AuthFailureBlocked` | internal/api/limiter.go:117-129 | A peek spends nothing and creates nothing; it only refreshes the stamp of a tracked address |
| `Catalog.EveryRunFromEmpty` | internal/store/catalog.go:97-267 | Every run of handlers and restarts from an empty database keeps: each building's campus exists, each probe's building exists and lies in the probe's own campus, tokens are distinct |
| `Catalog.NextKeepsInv` | internal/admin/probes.go:178-310 | Every single handler keeps that, with no foreign key on the probes table |
| `Catalog.EveryRunFromLegacy` | internal/store/migrate.go:120-154 | Every run after opening a database that predates the catalog keeps every code a probe or building names |
| `Catalog.NextKeepsCovered` | internal/store/catalog.go:135-267 | Every single handler keeps that, wherever the probes were filed |
| `Catalog.CampusCountEnoughIff` | internal/store/catalog.go:135-169 | Counting only the probes that name the campus leaves no dangling code iff some probe does name it or no probe of another campus is in one of its buildings |
| `Catalog.CampusCountEnoughWhenPlaced` | internal/store/catalog.go:135-169 | While every probe lies in its own campus, both counts agree |
| `Catalog.LegacyNeedsBothCounts` | internal/store/catalog.go:135-169 | A legacy database, opened, with one probe deleted: the campus count alone would destroy a building a probe names |
| `Catalog.RunsKeepClean` | internal/admin/probes.go:19-30 | Every run from a clean database keeps each probe's campus, building and group a valid code and its network type one of the two |
| `Catalog.CampusEditsLeave` | internal/store/catalog.go:97-133 | Creating adds one campus under a valid, free code and renaming changes one name; nothing else moves |
| `Catalog.CampusDeleteLeaves` | internal/store/catalog.go:135-169 | Deleting an unused campus takes it and its buildings; no other campus or building and no probe goes |
| `Catalog.BuildingCreateLeaves` | internal/admin/buildings.go:178-208 | A building is added as typed, under a free code in an existing campus, or nothing changes |
| `Catalog.BuildingUpdateLeaves` | internal/admin/buildings.go:210-252 | An edit changes group and name of one building; its campus and every other building stay |
| `Catalog.BuildingDeleteLeaves` | internal/store/catalog.go:254-267 | An unused building goes, and nothing else |
| `Catalog.EmptyCodeReachesNoProbe` | internal/admin/probes.go:178-203 | The empty building code the create form lets in never reaches a probe |
| `Catalog.Store.DeleteCampus` | internal/store/catalog.go:135-169 | Deletes campus and buildings together, or says in use or not found and changes nothing |
| `Catalog.Store.DeleteBuilding` | internal/store/catalog.go:254-267 | Deletes only a building no probe names |
| `Catalog.Store.HandleProbeCreate` | internal/admin/probes.go:233-310 | Creates a probe at an existing, agreeing location under the first free ID of at most five draws, else changes nothing |
| `Catalog.ProbeCreateLeaves` | internal/admin/probes.go:233-310 | The one new row, under a free ID made of both codes and one of the first five draws, holds the form's fields and the catalog's names |
| `Catalog.ProbeIsCreated` | internal/admin/probes.go:269-310 | It is created whenever the form is accepted, the token is new and one of five draws gives a free ID |
| `Catalog.SpaceNeverMatters` | internal/admin/probes.go:164-171 | White space around what is typed into the form never matters |
| `Catalog.Inserted` | internal/admin/probes.go:269-294 | The chosen ID is free and comes from a draw; none is chosen only if none is free |
| `Catalog.Store.UpdateProbeToken` | internal/store/probes.go:182-192 | Succeeds iff the probe exists and the hash is not another's |
| `Catalog.Store.SetProbeEnabled` | internal/store/probes.go:170-178 | Changes one flag of one row, or reports not found |
| `Catalog.ToggleTwice` | internal/admin/probes.go:334-362 | A second toggle undoes the first |
| `Catalog.Store.DeleteProbe` | internal/store/probes.go:195-201 | Removes one row, or reports not found |
| `Catalog.CreatedCodeValidIff` | internal/admin/buildings.go:281-327 | The only invalid code the create form lets in is the empty one |
| `Catalog.EmptyCodeAccepted` | internal/admin/buildings.go:281-327 | And it does let it in |
| `Catalog.BackfillCovers` | internal/store/migrate.go:120-154 | On a legacy database every code a probe names exists afterwards, and every building has its campus |
| `Catalog.BackfillRows` | internal/store/migrate.go:120-154 | Each backfilled row is made of the names and codes of one probe that names it |
| `Catalog.BackfillConsistentIff` | internal/store/migrate.go:134-150 | The backfilled catalog places every probe in its own campus iff no building code was used in two campuses, whichever rows the grouping returns |
| `Catalog.BackfillIdle` | internal/store/migrate.go:120-128 | On a consistent catalog the backfill changes nothing |
| `Catalog.Store.ImportLines` | internal/admin/buildings.go:136-166 | The loop adds, skips and fails exactly as the lines and the table say, and the three add up to the lines |
| `Catalog.Store.HandleBuildingImport` | internal/admin/buildings.go:115-176 | The whole handler: the table, and the report of what was added, skipped and failed; a refusal changes nothing |
| `Catalog.ImportTwice` | internal/admin/buildings.go:115-176 | Submitting the same form again changes nothing, adds none, skips all that were added or skipped, fails the same lines with the same problems |
| `Import.Conservation` | internal/admin/buildings.go:136-166 | Added + skipped + failed is the number of lines; the table grows by exactly the added; rows that are there stay |
| `Import.ImportAgain` | internal/admin/buildings.go:136-166 | The second report is: none added, every line added or skipped before now skipped, the same failures; the table stays |
| `Import.FirstGoodRow` | internal/admin/buildings.go:136-166 | A new code's row is that of its first good line |
| `Import.NoGoodNoRow` | internal/admin/buildings.go:136-166 | Without a good line it has no row |
| `Import.ParseBuildingImport` | internal/admin/buildings.go:82-113 | One parsed line per content line, in order, with its own number in the text |
| `Import.TwoFields` | internal/admin/buildings.go:82-113 | A written line code,name parses back to them, in the batch's group |
| `Import.FourFields` | internal/admin/buildings.go:82-113 | A written line code,name,group,groupName parses back to all four |
| `Import.ContentNumbers` | internal/admin/buildings.go:82-90 | Those numbers are exactly the non-blank, non-comment lines, ascending |
| `Portal.HandleRegister` | internal/portal/register.go:33-179 | Answer, tables and allowance exactly as the registration step |
| `Portal.AnswerTellsEffect` | internal/portal/register.go:53-162 | One enabled probe more exactly when the visitor is told so and the cap allows it; a typo costs no allowance |
| `Portal.AnswersIff` | internal/portal/register.go:33-112 | Not configured, bad form, too often, full: each is answered iff the checks before it pass and its own fails |
| `Portal.RegisterIsStep` | internal/portal/register.go:33-179 | On the catalog the handler is the registration step of the catalog runs |
| `Portal.CapHolds` | internal/portal/register.go:91-112 | Registrations that run one at a time never take the table past the cap |
| `Simultaneous.CapSafeIff` | internal/portal/register.go:91-162 | With count and insert as separate steps, every run stays within a positive cap iff at most one registration is ever between them |
| `Simultaneous.TwoOvershoot` | internal/portal/register.go:91-162 | For every positive cap, two overlapping registrations that end one over it |
| `Simultaneous.OvershootBound` | internal/portal/register.go:91-162 | With at most K between the two, and any edits beside them, the table is never more than K - 1 over the cap |
| `Simultaneous.EditsAreEnabled` | internal/admin/probes.go:334-422 | Every administrator's step that creates no probe is one of the edits these runs allow |
| `Simultaneous.OneAtATime` | internal/portal/register.go:33-179 | The one-step handler is the check followed at once by the insert |
| `Portal.AddressBound` | internal/portal/register.go:81-89 | In any window one address creates at most burst + T / interval probes, while only full buckets are evicted |
| `Portal.AddressBoundInLightTraffic` | internal/portal/register.go:81-89 | The same in any window of a run from start-up while at each submission fewer than 10000 addresses have submitted within the last full refill |
| `Migration.CrashesInvisible` | internal/store/migrate.go:50-209 | Any number of runs cut off at transaction boundaries, then a complete one, each with its own row choices, leave what one run leaves under the choices of the first run to get past its backfill |
| `Migration.CutInvisible` | internal/store/migrate.go:50-209 | One cut run, then a complete one, likewise |
| `Migration.MigrateAgain` | internal/store/migrate.go:50-209 | A further run changes nothing, whatever rows it would choose, after success and after an error |
| `Migration.StartUpSucceeds` | internal/store/migrate.go:50-108 | From a fresh, half migrated or complete database, however often cut off, the next start succeeds with every table in place and targets seeded |
| `Migration.SecondScriptNotRepeatable` | internal/store/migrations/002_catalog.sql:1-22 | The second script fails where it has already been applied |
| `Migration.TornScriptIsFatal` | internal/store/migrate.go:82-102 | Were a script committed without its ledger row, no later start would succeed, so the two must commit together |
| `Migration.StartsIff` | internal/store/migrate.go:50-108 | Exactly which disks a start succeeds on, whatever ledger and tables say |
| `Migration.OpenCoversLegacy` | internal/store/migrate.go:50-154 | Opening a database that predates the catalog keeps its probes and makes every code they name exist |
| `Migration.Database.Migrate` | internal/store/migrate.go:50-108 | The loop over pending migrations, the backfill and the seeding give that outcome |
| `Migration.Database.SeedTargets` | internal/store/migrate.go:182-209 | Seeds all five defaults, or nothing when any target exists |
| `Migration.SeedingLeaves` | internal/store/migrate.go:162-209 | Each of the five defaults is there as listed after seeding an empty table; any other table is left alone |
| `Latest.Store.Put` | internal/latest/store.go:37-41 | Sets one probe's entry |
| `Latest.Store.Delete` | internal/latest/store.go:66-70 | Removes one probe's entry |
| `Scrape.SoundIsCoherent` | internal/metrics/collector.go:177-257 | Well-formed measurements in memory give a coherent scrape: ordered round-trip times, loss in [0, 1], times exactly on success, no success beside total loss, DNS duration exactly on success, HTTP success exactly on 200 to 399 |
| `Scrape.MeasurementSeries` | internal/metrics/collector.go:115-207 | A measurement series is emitted iff its labels name an enabled probe heard of in time and a target and type of its last results that yields it |
| `Scrape.ICMPHas` | internal/metrics/collector.go:209-230 | An ICMP series with a value is emitted iff the measurement has that field, times in seconds |
| `Scrape.DNSHas` | internal/metrics/collector.go:232-241 | A DNS series with a value is emitted iff the measurement has that field |
| `Scrape.HTTPHas` | internal/metrics/collector.go:243-257 | An HTTP series with a value is emitted iff the measurement has that field; the status is the code itself |
| `Scrape.LabelsNameTheProbe` | internal/metrics/collector.go:163-175 | In every series about a probe each label is the probe's own field of that name |
| `Scrape.Seconds` | internal/metrics/names.go:45-47 | The emitted value times a thousand is the measured one; NaN and infinities pass through |
| `Scrape.NoSeriesTwice` | internal/metrics/collector.go:115-257 | No metric name and label values occur twice, whatever is in memory |
| `Scrape.Collect` | internal/metrics/collector.go:115-161 | The loop emits exactly the specified series and counts the two totals on the way |
| `Scrape.CollectProbe` | internal/metrics/collector.go:130-157 | One probe: silent if disabled, offline if never heard of, measurements only while online |
| `Scrape.CollectMeasurements` | internal/metrics/collector.go:177-207 | Walks targets and types in sorted order |
| `ProbeList.TotalsAreCounts` | internal/admin/probes.go:108-135 | The registered and online gauges are the page's "all" and "online" counts, and all = disabled + online + offline |
| `ProbeList.RowsAgree` | internal/admin/probes.go:60-69 | A row is shown online, offline or disabled exactly as the scrape has it |
| `ProbeList.OnlineIff` | internal/admin/probes.go:60-69 | Online means enabled and heard of within the threshold |
| `ProbeList.LastContactAgrees` | internal/admin/probes.go:60-69 | A last contact is shown iff the scrape carries it, to the second |
| `ProbeList.CountProbeFilters` | internal/admin/probes.go:123-135 | One pass gives the number of probes matching each filter |
| `ClientIP.From` | internal/clientip/clientip.go:37-71 | From an untrusted peer the peer; else the last untrusted address of the header, else its first parseable entry, else the peer; what counts as an address, the five rows below say |
| `ClientIP.PeerIsItsHost` | internal/clientip/clientip.go:37-85 | A peer that splits into host and port, its host in no trusted network, is attributed to exactly that host |
| `ClientIP.TrustedHostAsksHeader` | internal/clientip/clientip.go:37-71 | If that host is trusted, the last untrusted entry of the header decides |
| `ClientIP.UnsplitPeerIsBare` | internal/clientip/clientip.go:76-85 | A peer that does not split is attributed as it is with its outer brackets gone |
| `ClientIP.PeerPortNeverMatters` | internal/clientip/clientip.go:73-85 | Peers with the same host are attributed alike |
| `ClientIP.EntryPortNeverMatters` | internal/clientip/clientip.go:73-85 | So are requests whose header entries name the same hosts |
| `ClientIP.AttributedUnique` | internal/clientip/clientip.go:37-71 | These rules leave one answer |
| `ClientIP.AttributedEmptyIff` | internal/clientip/clientip.go:37-85 | A request is attributed to "" iff its peer has no host part and the header does not settle it |
| `ClientIP.EmptyOnlyFromPeer` | internal/clientip/clientip.go:37-100 | As "" does not parse: iff its peer has no host part, whatever the header |
| `ClientIP.SpoofedPrefixIrrelevant` | internal/clientip/clientip.go:37-71 | From a trusted peer, once an untrusted address stands after some comma, nothing before that comma matters |
| `ClientIP.LeftOfClientIgnored` | internal/clientip/clientip.go:45-59 | Prepending any text and a comma to such a header changes nothing |
| `ClientIP.WalkBack` | internal/clientip/clientip.go:45-59 | The right-to-left loop finds the last untrusted entry, or there is none |

## Left out

- HTTP routing, headers other than the bearer token and the forwarded address, cookies, sessions, the
  one-shot token store, templates, logging and internal counters: plumbing, or only easy members.
- Errors of the database (answered 503 or 500) and the JSON lexer of the push body: the outcome of decoding is a parameter.
- A push reads the allowlist, the parameters and the dispatch list in three queries; the model takes them as one snapshot.
- Handlers on the tables are atomic steps, and some properties are false without that: the invariants on latest entries
  and on the catalog, and the probe cap. Interleaved inside a request are the authentication throttle and, in
  `Simultaneous`, count and insert of a registration. In `Gateway` a request takes place at one instant.
- Portal.CapHolds: about registrations one at a time; Simultaneous.CapSafeIff says that this is needed.
- SHA-1, SHA-256 and random bytes: hash functions and draws are parameters.
- Floating-point rounding: bucket credit is exact and measured values are reals.
- Saturation of `time.Duration` differences and wrap-around of clocks.
- Row timestamps and `rotated_at`.
- Group codes and names that probes have copied are not rewritten when a building is edited, as in the program; no property is claimed of them.
- `sort.Strings` and `sort.Slice` are specified by their result (an insertion sort), not by their algorithm.
- Unstable sorting of entries with equal IDs is covered by `Identity.CanonicalDeterminedIff`; `Identity.SortTargets` itself fixes one outcome.
- Gateway.SameIDIffUnchanged: assumes that the two texts compared do not collide under the 128 bits kept of the hash.
- RegisterLimiter.BoundedRefinesUnbounded: assumes that evictions find a full bucket, which RegisterLimiter.LightTrafficRefines gets from traffic alone; evicting one that is not full is observable, by Buckets.FreshUnnoticedIffFull.
- AuthThrottle.GuessBound: assumes that the address is not evicted during the window; AuthThrottle.GuessBoundUnderLRU replaces this by a count of other addresses.
- Portal.AddressBound: assumes that room is only made by dropping full buckets, which Portal.AddressBoundInLightTraffic gets from traffic alone.
