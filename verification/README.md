# Trigger service model

A Dafny model of the streaming rule engine, with proofs. Events are filtered and redacted, folded into per-user
windows held in a sharded LRU store, evaluated by rules compiled from a spec tree, gated by cooldowns, dispatched
through a bounded queue, and fanned out through a publish/subscribe hub.

| file | models |
|---|---|
| `Json.dfy`, `Options.dfy`, `Event.dfy` | dynamic values, options, the event fields the other parts read |
| `Window.dfy`, `WindowSummary.dfy` | a user's window, updated event by event, against a batch summary of the history |
| `Snapshots.dfy`, `Views.dfy`, `DeepCopy.dfy` | snapshots as values, what they tell of the events, and the deep copy on the heap |
| `Lru.dfy`, `Store.dfy`, `SoftCap.dfy` | the flat LRU reference, the sharded store, the cap under concurrency |
| `Predicates.dfy`, `Expr.dfy`, `Loader.dfy`, `LoaderMeaning.dfy`, `Verdicts.dfy` | predicates, expression trees, compilation and its inverse, what a verdict says of the events |
| `Engine.dfy`, `Cooldown.dfy` | rule evaluation, the cooldown gate, whole runs |
| `Wizard.dfy` | the onboarding wizard's edits of rule specs |
| `Filter.dfy`, `NonInterference.dfy` | filtering and redaction, and the two-run theorem across filter, windows and rules |
| `Service.dfy`, `Ticker.dfy`, `Arrivals.dfy` | the composition: event path and idle tick, what a tick fires, what an event fires and why anything does |
| `Dispatch.dfy`, `Producers.dfy`, `Archive.dfy` | match queue and workers, one evaluation from start to queue, archive batches |
| `Template.dfy`, `Placeholders.dfy`, `Render.dfy`, `Money.dfy` | placeholder grammar, what is put in, rendering of trees, digit grouping and its inverse |
| `Hub.dfy`, `HubSteps.dfy` | the hub as interleaved threads, and what a step does at each program counter |
| `HubSafety.dfy`, `HubHeartbeat.dfy` | its safety, its heartbeats |
| `HubMoves.dfy`, `HubCalls.dfy` | the kinds of steps, the calls as a list of actions shows them |
| `HubDelivery.dfy`, `HubHistory.dfy`, `HubComplete.dfy` | delivery with one publisher at a time; with many, where each message comes from and that none is missed |
| `HubRest.dfy`, `HubQuiet.dfy` | that the hub can always come to rest, and what has then become of every call |
| `HubObject.dfy` | the hub as an object run alone |

Conventions. Times are integers in nanoseconds and 0 is Go's zero time; clock readings are inputs. Numbers are exact
(`real`, `int`). The shard hash, the regular-expression matcher and value printing are function parameters, so every
theorem holds for all of them. Go errors are modelled as `None` or `false`; their texts are not. Map iteration order is
arbitrary: loops over maps pick any remaining key, and compilation is specified as a relation.

Where the code falls short of what its documentation says, the model follows the code and the theorem says exactly when
the promise holds: heartbeats can hit a closed channel once their subscriber is off the list
(`HubHeartbeat.HeartbeatExposedIffRemoved`); the cooldown spacing holds exactly of the schedules in which no purge, at a
time after both, stands between two evaluations (`Cooldown.SpacingIff`; `Purge` is called nowhere in the service); masking
a trait in only one of its two containers does not hide it (`NonInterference.TraitHiddenIffMaskedTwice`); the smallest 64-bit integer does not
survive money formatting (`Money.FormatRoundTripIff`); the wizard's threshold is ignored when another operator takes
precedence (`Wizard.ThresholdTakesEffectIff`); and its error-event edit compiles only if the condition has no other key
(`Wizard.ErrorEventsCompileIff`).

## Model

| member | source | states |
|---|---|---|
| `HubSafety.StepKeeps` | internal/sse/hub.go:140-354 | every lock, flag, channel or heartbeat step of any thread keeps the invariant that ties program counters, lock ownership, subscriber lists and subscriber life cycles together |
| `HubSafety.ListedIsOpen` | internal/sse/hub.go:176-211 | in every interleaving of Subscribe, Publish, unsubscribe, slow drop, Close and heartbeats a registered subscriber has its flag down and its channel open, no publish sends on a closed channel and no channel is closed twice |
| `HubSafety.DroppedOnce` | internal/sse/hub.go:280-312 | each subscriber is counted as dropped at most once, never while registered, and the counter is the number of subscribers so counted |
| `HubSafety.TargetIsOpen` | internal/sse/hub.go:187-204 | the subscriber a publisher is about to send to is still on its stream's list with its channel open, although its flag was read in an earlier step |
| `HubHeartbeat.HeartbeatExposedIffRemoved` | internal/sse/hub.go:339-354 | a heartbeat that has passed the flag check can meet a closed channel under some schedule of the other threads exactly when its subscriber has already been removed from the lists |
| `HubHeartbeat.ListedStaysOpen` | internal/sse/hub.go:342-354 | while the heartbeat holds the read lock, whatever the other threads do, a listed subscriber's channel stays open |
| `HubHeartbeat.RunAttended` | internal/sse/hub.go:263-312 | in every run a removed subscriber whose channel is still open has a thread that will close it without needing the lock |
| `HubHeartbeat.RunToClose` | internal/sse/hub.go:303-312 | that thread closes the channel in finitely many steps of its own |
| `HubHeartbeat.HeartbeatHitsClosed` | internal/sse/hub.go:272-312 | a concrete run in which a heartbeat is sent on a closed channel, contrary to the comment on heartbeatSend |
| `HubDelivery.StepDelivers` | internal/sse/hub.go:140-312 | with one publisher at a time per stream every step keeps each listed subscriber caught up, or behind by the message being fanned out, or on a drop list |
| `HubDelivery.GapFreeDelivery` | internal/sse/hub.go:176-211 | with one publisher at a time the application messages received, and those received or buffered, are prefixes of the publish calls made on the stream since registration (with the one call that may have been waiting for the lock then), read off the calls alone, heartbeats aside; at most 64 are buffered; while listed with nobody publishing, everything called for has been sent |
| `HubMoves.StepMoves` | internal/sse/hub.go:140-354 | every step is of one of seven kinds by its thread's program counter: registering, starting, serving, skipping or ending a fan-out, beginning a publish call, or serving nobody with lists that only shrink |
| `HubHistory.EachMessageHasOneSource` | internal/sse/hub.go:176-211 | with any number of publishers on a stream: each application message a subscriber received or buffered is the body of a publish call on its stream that was not yet logged when it registered, no call reaches it twice, and the calls of one thread reach it in that thread's order |
| `HubHistory.RunLogsCalls` | internal/sse/hub.go:176-187 | in every run what each thread has put on a stream's log is exactly what it called Publish with on an open hub, in order, save a last call still waiting for the lock |
| `HubCalls.PublishCallStarts` | internal/sse/hub.go:176-181 | after any run a publish call of an idle thread on a named stream, no Close having been called, leaves that thread publishing that body there and changes nothing else; on a closed hub or an empty stream it changes nothing |
| `HubCalls.ClosedByCall` | internal/sse/hub.go:229-232 | the hub counts as closed exactly once somebody has called Close |
| `HubComplete.NobodyMisses` | internal/sse/hub.go:176-211 | with any number of publishers: when nobody is publishing on its stream, a listed subscriber has been sent or has buffered exactly the publish calls not yet logged when it registered, each once |
| `HubRest.ComesToRest` | internal/sse/hub.go:140-354 | no deadlock: from every reachable state some order of the steps of the threads inside calls ends all those calls |
| `HubQuiet.AtRest` | internal/sse/hub.go:140-312 | once no thread is inside a call: each thread's log entries are its publish calls; there is one subscriber per accepted subscribe call, registered on its stream; a channel is open just as long as it is listed; whoever was unsubscribed, or registered before Close was called, is closed; and only the unsubscribed, those counted as dropped, or anybody after Close, are closed |
| `HubQuiet.EverythingArrives` | internal/sse/hub.go:140-211 | with one publisher at a time, once the hub is at rest a listed subscriber that takes what is buffered has received exactly the messages called for since it registered, in order |
| `HubObject.Hub.Subscribe` | internal/sse/hub.go:140-163 | run alone: a fresh open subscriber at the end of its stream's list, or a closed channel and no registration on a closed hub or an empty stream |
| `HubObject.Hub.FanOut` | internal/sse/hub.go:187-204 | the fan-out loop gives the message to exactly the subscribers with room and returns exactly the full ones |
| `HubObject.Hub.Publish` | internal/sse/hub.go:176-211 | run alone: those with room get the message, the full ones are removed, closed and counted and get nothing, list order and other streams are untouched |
| `HubObject.Hub.Detach` | internal/sse/hub.go:263-271 | the removal loop takes exactly this subscriber out of the list and says whether it was there |
| `HubObject.Hub.DropSlowSubscriber` | internal/sse/hub.go:280-299 | counts and closes only if it was the one to remove the subscriber; otherwise changes nothing |
| `HubObject.Hub.RemoveSubscriber` | internal/sse/hub.go:263-274 | afterwards the subscriber is closed and on no list, and all else is as it was |
| `HubObject.Hub.CloseSubscriber` | internal/sse/hub.go:303-312 | idempotent: the second close changes nothing, the first closes both channels |
| `HubObject.Hub.Close` | internal/sse/hub.go:229-259 | the first call empties the registry and closes everybody, later calls change nothing |
| `Window.UserWindow.Apply` | internal/window/window.go:119-219 | the field-by-field update equals one step of the fold over arrivals |
| `Window.UserWindow.TrackProperties` | internal/window/window.go:154-166 | the loop over tracked keys keeps last values and numeric maxima |
| `Window.UserWindow.MergeTraits` | internal/window/window.go:189-204 | identify traits overwrite, context traits only fill gaps |
| `Window.UserWindow.constructor` | internal/window/window.go:91-106 | a fresh window |
| `WindowSummary.CountsAreFrequencies` | internal/window/window.go:135-172 | event, type, name, path and suburb counts are the frequencies in the whole history, with no other keys |
| `WindowSummary.LatestScalars` | internal/window/window.go:142-151 | latest path and session are the last ones, the user id is the first one |
| `WindowSummary.LatestPayloads` | internal/window/window.go:181-210 | listing and filter properties are the last non-empty ones, the error is the last one |
| `WindowSummary.TrackedValues` | internal/window/window.go:153-166 | per tracked key the last value and the largest number in the history; untracked keys are never held |
| `WindowSummary.TraitValues` | internal/window/window.go:189-204 | a trait is the last identify value if any identify carried the key, else the first context value |
| `WindowSummary.SeenTimes` | internal/window/window.go:127-133 | first and last seen are the times of an earliest and a latest arrival, the time being receipt, failing that the event's own, failing that the clock |
| `WindowSummary.DominantIsRecentArgmax` | internal/window/window.go:168-176 | the dominant suburb always has maximal frequency and is the most recently seen among those tied |
| `WindowSummary.CountsIgnoreOrder` | internal/window/window.go:135-172 | the counts are the same for any permutation of the arrivals |
| `WindowSummary.ExtremesIgnoreOrder` | internal/window/window.go:161-217 | so are the maxima, first and last seen and the error flag |
| `Views.ViewCounts` | internal/window/window.go:223-245 | a snapshot's counts are the frequencies of the history, its user the first and its latest path and session the last non-empty ones |
| `Views.ViewValues` | internal/window/window.go:223-245 | its tracked values, maxima and traits, listing and filter properties and dominant suburb are those of the history, key by key |
| `Views.ViewError` | internal/window/window.go:206-210 | it shows an error exactly if some event's name ends in Error, and then the last such event, with just the error keys among its properties |
| `Views.ViewIdle` | internal/window/snapshot.go:65-77 | its idle figure is the whole seconds since the latest arrival, and 0 when that lies in the future |
| `Store.UpdateAll` | internal/window/store.go:64-132 | after any sequence of updates with a strictly increasing clock the resident ids are exactly the `maxWindows` most recently updated ones, sharded by hash with an exact counter, and each window is the fold of the arrivals since its creation; eviction terminates |
| `Store.Store.Update` | internal/window/store.go:77-132 | one update of the sharded store is one step of the flat map, evicting an oldest window only when the store is full; an evicted id is announced if the channel has room, and nothing else is announced |
| `Store.Store.EvictGlobalOldest` | internal/window/store.go:297-341 | removes one window with the oldest stamp over all shards and announces it if the channel has room, or changes nothing when there is none |
| `Store.Store.ScanOldest` | internal/window/store.go:297-320 | the scan over all shards finds a window with the oldest stamp |
| `Store.Store.Prune` | internal/window/store.go:193-215 | keeps exactly the windows last seen at or after the cutoff, counts the others, and announces each of them once, in order, as far as the channel has room |
| `Store.Store.ScanIdle` | internal/window/store.go:163-188 | one snapshot of every window idle long enough, and of no other |
| `Store.Store.Snapshot` | internal/window/store.go:140-154 | the view of the resident window, or none |
| `Store.Store.Reset` | internal/window/store.go:220-232 | empties the store and reports how many windows it held |
| `Lru.RunHoldsMostRecent` | internal/window/store.go:77-113 | the flat list holds exactly the most recently updated ids |
| `Lru.RecentByLastUpdate` | internal/window/store.go:77-113 | recency is the position of the last update in the log |
| `Lru.RunFoldsSinceCreation` | internal/window/store.go:77-132 | a resident window is the fold of the arrivals for its id since it was last created |
| `Lru.MapStepRefinesFlat` | internal/window/store.go:297-340 | evicting by oldest stamp is evicting from the end of the recency list |
| `SoftCap.ResidentBounded` | internal/window/store.go:83-113 | with n concurrent callers, evictors and pruners the counter is exact and at most `maxWindows - 1 + n` windows are resident |
| `SoftCap.StepKeeps` | internal/window/store.go:77-113 | the inductive form: residents plus callers past the cap check stay within the bound at every lock section |
| `SoftCap.BoundIsReached` | internal/window/store.go:94-112 | for every cap and every n some interleaving reaches the bound |
| `DeepCopy.DeepCopyValue` | internal/window/snapshot.go:123-151 | the recursive copy terminates, reads the same as the original and reaches only fresh maps and lists; primitives and references of other kinds are returned as they are |
| `DeepCopy.CopyMap` | internal/window/snapshot.go:106-115 | the map copier: same keys, each value copied deeply |
| `DeepCopy.Holder.Snapshot` | internal/window/window.go:223-245 | the snapshot's dynamic maps read the same as the window's and share no map or list with them |
| `DeepCopy.LaterWritesSpareSnapshot` | internal/window/snapshot.go:106-151 | no later write to the window changes an earlier snapshot |
| `DeepCopy.SnapshotWritesSpareWindow` | internal/window/snapshot.go:106-151 | no write to a snapshot changes the window |
| `Predicates.EqualityLaws` | internal/rules/predicates.go:46-100 | equality is reflexive and symmetric across all kinds of value, is sameness on scalars of one kind and printing alike on values of different kinds other than null, and its negation is the other operator |
| `Predicates.NamesAgree` | internal/rules/predicates.go:46-91 | both names of an operator mean the same on all values |
| `Predicates.OrderingLaws` | internal/rules/predicates.go:56-79 | of two numbers exactly one of less, equal and greater holds, and an ordering is the negation of its converse exactly on numbers, since it fails on anything else |
| `Predicates.MembershipLaws` | internal/rules/predicates.go:80-91 | membership is equality with some item, and an unlisted operator holds of nothing |
| `Predicates.MatchLaw` | internal/rules/predicates.go:75-90 | a match holds exactly of two strings of which the right one compiles and matches the left one |
| `Predicates.ExplicitFirst` | internal/rules/predicates.go:180-183 | the explicit form takes any text for its operator, goes before any operator key, and compares with null when it gives no value |
| `Predicates.FirstOperator` | internal/rules/predicates.go:184-189 | the inline operator is the first operator key present, in the fixed order |
| `Predicates.ExplicitMeansInline` | internal/rules/predicates.go:180-190 | the explicit and inline argument forms name the same comparison, whatever other arguments there are |
| `Predicates.OnlyIdleUsesTime` | internal/rules/predicates.go:22-37 | the one registered predicate that builds a clock-dependent test is the one flagged as using time |
| `Predicates.IdleTestStays` | internal/rules/predicates.go:245-254 | an at-least test on idle time of a silent window, once true, stays true |
| `Expr.TimelessIsConstant` | internal/rules/expr.go:40-121 | an expression that does not use time has the same verdict on a fixed window at all times |
| `Expr.RipeStays` | internal/rules/expr.go:31-62 | verdicts of all/any trees whose idle leaves are at-least tests are monotone in time on a fixed window |
| `Loader.BuildExpr` | internal/rules/loader.go:141-177 | compilation, with map iteration in any order, succeeds exactly on well-formed specs and gives one of the trees the spec denotes |
| `Loader.BuildConjunction` | internal/rules/loader.go:163-176 | several keys: fails on a logical key or a bad predicate, else the predicates of the map, each once |
| `Loader.BuildList` | internal/rules/loader.go:179-209 | an all/any list compiles item by item, and fails exactly when some item does |
| `Loader.BuildNot` | internal/rules/loader.go:211-221 | a negation compiles exactly when its value is a map that compiles |
| `Loader.ToSpecSlice` | internal/rules/loader.go:276-294 | both list shapes are accepted, and only lists of maps |
| `Loader.Shorthand` | internal/rules/loader.go:252-273 | shorthand arguments: nothing stands for no arguments, anything but a map for that value, and a map with other keys than strings is an error |
| `LoaderMeaning.CompiledMeans` | internal/rules/loader.go:141-221 | a compiled tree evaluates to the direct reading of its spec on every window at every time, and uses time exactly when the spec mentions it |
| `LoaderMeaning.CompilesToSomething` | internal/rules/loader.go:141-221 | every well-formed spec has a tree |
| `LoaderMeaning.OrderIndependent` | internal/rules/loader.go:163-176 | two trees of one spec, from different iteration orders, agree on every window and on using time |
| `LoaderMeaning.SeveralKeysAreConjunction` | internal/rules/loader.go:163-176 | a spec with several keys compiles exactly when none is logical and the all-list of its one-key parts compiles, and then both mean the same |
| `LoaderMeaning.MarshalWrites` | internal/rules/loader.go:318-356 | marshalling an expression the loader built succeeds and writes it down |
| `LoaderMeaning.WrittenRebuilds` | internal/rules/loader.go:252-362 | compiling a written spec, with its lists in either shape, gives back exactly that tree and nothing else |
| `LoaderMeaning.RoundTrip` | internal/rules/loader.go:318-362 | for every tree the loader builds, MarshalSpec succeeds and UnmarshalSpec rebuilds exactly that tree |
| `Verdicts.VerdictIsOnHistory` | internal/rules/predicates.go:205-408 | evaluating a condition on the snapshot of a window is the condition read on the raw events the window has seen |
| `Verdicts.SpecIsOnHistory` | internal/rules/loader.go:228-248 | a named predicate of a spec holds of a window exactly when the test it compiles to holds of the raw events |
| `Verdicts.ComparisonSpecs` | internal/rules/predicates.go:180-408 | every comparing predicate, with every operator and in both argument forms, holds of a window exactly when the quantity of the event history that its name says compares so |
| `Verdicts.PresenceSpecs` | internal/rules/predicates.go:256-390 | every presence predicate, given its text alone, under `value`, or failing that under `path` where it takes it there, whatever other arguments there are, holds exactly when the event history has what it asks for; a pattern that does not compile holds of nothing |
| `Verdicts.PathCountSpecs` | internal/rules/predicates.go:331-355 | the distinct-path predicate, in both forms, counts the paths of the history |
| `Verdicts.ErrorSpec` | internal/rules/predicates.go:357-361 | the error predicate, whatever its arguments, holds exactly when some event's name ends in Error |
| `Verdicts.CountTests` | internal/rules/predicates.go:207-295 | counting, presence and path predicates see the frequencies of the history |
| `Verdicts.PropertyTests` | internal/rules/predicates.go:297-329 | property predicates see the last value a tracked key had |
| `Verdicts.TraitTests` | internal/rules/predicates.go:377-408 | trait predicates see identify values before context values |
| `Verdicts.IdleTests` | internal/rules/predicates.go:245-254 | idle time is the clamped distance to the latest arrival |
| `Verdicts.ErrorTests` | internal/rules/predicates.go:357-361 | the error predicate holds exactly when some event's name ends in Error |
| `Engine.MemoryCooldownGate.Allow` | internal/rules/engine.go:204-223 | allowed exactly when no deadline for the key lies after now |
| `Engine.MemoryCooldownGate.Mark` | internal/rules/engine.go:226-233 | a positive cooldown sets the key's deadline, any other leaves the gate alone |
| `Engine.MemoryCooldownGate.Purge` | internal/rules/engine.go:237-248 | removes exactly the passed deadlines and counts them |
| `Engine.MemoryCooldownGate.Reset` | internal/rules/engine.go:253-259 | clears the gate and counts the entries |
| `Engine.Engine.Evaluate` | internal/rules/engine.go:127-168 | the rule loop returns the matches and leaves the gate of the recursive specification; every match is of a rule of the list that is enabled, meant for the persona, holds now, uses the time if only such are asked for, and was off cooldown |
| `Engine.Engine.EvaluateOnEvent` | internal/rules/engine.go:114-116 | the evaluation of all rules |
| `Engine.Engine.EvaluateOnTick` | internal/rules/engine.go:121-123 | the time-only evaluation |
| `Engine.Engine.Reload` | internal/rules/engine.go:75-85 | a failed load keeps the active rules |
| `Engine.TickIsEventOnTimeDependent` | internal/rules/engine.go:121-150 | a tick fires and marks exactly what an event evaluation of the sublist of time-dependent rules would |
| `Engine.TurningTrueIsSeenByTick` | internal/rules/engine.go:142-150 | a condition that turns true on an unchanged window uses time, so the tick evaluates it |
| `Engine.DueKeyFires` | internal/rules/engine.go:132-166 | an enabled rule for the persona that holds now and whose key is off cooldown fires, or an earlier rule of the same name does |
| `Engine.OnlyEligibleFire` | internal/rules/engine.go:132-153 | no rule fires but those of the list that are enabled, meant for the persona, hold now, use the time if only such are asked for, and were off cooldown |
| `Engine.LastRuleFiresIff` | internal/rules/engine.go:132-166 | exactly when a rule fires after others: it is eligible, its key was off cooldown before the evaluation, and none of its name with a cooldown has fired before it |
| `Engine.GateAfterSweep` | internal/rules/engine.go:151-156 | an evaluation closes the gate to exactly the names of which a rule with a cooldown fired |
| `Cooldown.Drive` | internal/rules/engine.go:64-180 | the engine object performs each operation of a run as the specification says, logging exactly the emitted matches |
| `Cooldown.SpacingIff` | internal/rules/engine.go:127-259 | all runs with a given schedule of operation kinds and times keep the cooldown spacing exactly when no purge of the schedule, at a time after both, stands between two evaluations with no reset between them |
| `Cooldown.CooldownSpacing` | internal/rules/engine.go:127-233 | between resets, across reloads, same-named rules and clocks that run backwards, a key that fires with cooldown c fires again no earlier than c later, unless a purge so overtakes two evaluations |
| `Cooldown.OvertakenPurgeBreaks` | internal/rules/engine.go:237-248 | for every schedule with such a purge, one rule and one user at the two evaluations give a run that breaks the spacing |
| `Cooldown.PurgeInvisibleIff` | internal/rules/engine.go:237-248 | a purge changes no later answer exactly when no deadline lies between that later time and the purge |
| `Cooldown.FiresPerSpan` | internal/rules/engine.go:204-233 | with a cooldown of at least c, and no purge overtaking two evaluations, a key fires at most L/c + 1 times in any span L |
| `Wizard.SetIdleSecondsInAll` | internal/api/handlers_onboarding.go:320-356 | succeeds exactly when an idle predicate is reachable through all-lists, rewrites the first one, and leaves the spec as it was on failure |
| `Wizard.SetRuleIdleSeconds` | internal/api/handlers_onboarding.go:288-316 | rewrites the condition of the first rule of that name if it has a reachable idle predicate; otherwise the document is unchanged |
| `Wizard.SetWhenReads` | internal/api/handlers_onboarding.go:288-316 | an edit of a condition changes no other rule, no rule's place, and no other key of the rule or of the document |
| `Wizard.ThresholdTakesEffectIff` | internal/api/handlers_onboarding.go:322-330 | the new threshold is the one tested unless an op string or a preceding operator key overrides it, in which case the test is what it was |
| `Wizard.RewriteCommutes` | internal/api/handlers_onboarding.go:320-356 | compiling the rewritten spec gives the original's tree with exactly one idle leaf's threshold replaced |
| `Wizard.RewrittenRuleCommutes` | internal/api/handlers_onboarding.go:288-316 | so the rewritten document compiles to the same rules but for one leaf of the named rule, and every other key of that rule and of the document keeps its value |
| `Wizard.ThresholdMonotone` | internal/api/handlers_onboarding.go:320-356 | a larger threshold never makes the spec true where a smaller one leaves it false |
| `Wizard.SetOnboardingErroredEvents` | internal/api/handlers_onboarding.go:360-391 | replaces the any-list of the first rule of that name that has a condition; otherwise the document is unchanged |
| `Wizard.ErrorEventsCompileIff` | internal/api/handlers_onboarding.go:380-388 | the rebuilt condition compiles exactly when it has no key beside any, and then asks whether one of the chosen events was seen |
| `Filter.Filter.Process` | internal/filter/filter.go:64-105 | drops exactly events with a disallowed write key or a listed denied consent; otherwise every carried key that a configured path names reads `[REDACTED]` and nothing else changes; each event is counted once as dropped or passed, and as redacted exactly when it carried such a key |
| `Filter.Filter.IsConsentDenied` | internal/filter/filter.go:109-126 | some denied consent is on the drop list |
| `Filter.Filter.RedactEvent` | internal/filter/filter.go:130-164 | applying the paths one by one is overwriting all masked keys at once |
| `Filter.Filter.RedactRawField` | internal/filter/filter.go:170-195 | a raw object gets the placeholder at a key it has; anything else is left alone |
| `Filter.SplitN` | internal/filter/filter.go:133-137 | splitting at the first dots loses nothing |
| `Filter.TargetIsPath` | internal/filter/filter.go:139-160 | exactly which paths name a property, a trait or a context trait, and that every other path names nothing |
| `Filter.RedactIsPaths` | internal/filter/filter.go:130-195 | overwriting the masked keys is overwriting exactly the keys named by the paths, in each of the three containers |
| `NonInterference.WindowsAgree` | internal/window/window.go:153-204 | for any history, windows built from redacted and from raw events have the same key sets and differ only at masked keys, where the redacted one holds the placeholder, lacks the maximum, or holds the placeholder suburb |
| `NonInterference.TraitHiddenIffMaskedTwice` | internal/window/window.go:189-204 | a trait key is hidden in every history exactly when it is masked in both traits and context.traits |
| `NonInterference.SameVerdict` | internal/rules/predicates.go:297-408 | an expression that reads no masked value has the same verdict on both windows |
| `NonInterference.RedactionChangesNoFiring` | cmd/realtime-trigger/runtime_pipeline.go:21-82 | end to end, over runs of arrivals, idle ticks, rule reloads, demo resets and prunes, with initial and reloaded rules that read no masked value, redaction changes neither which rules fire, for whom, when and in which order, nor the gate, nor which windows are resident |
| `Arrivals.EventFires` | cmd/realtime-trigger/runtime_pipeline.go:33-61 | after any run an event of a user is in that user's window, which is resident, and a key fires exactly if it is this user's and off cooldown and some loaded, enabled rule of its name for a probed persona holds now of that window; nothing else fires, and the gate closes to the names that fired with a cooldown |
| `Arrivals.EveryFiringHasCause` | cmd/realtime-trigger/runtime_pipeline.go:33-82 | nothing fires without a cause: every firing of a run is of a rule loaded, enabled and holding then of the user's window, by an event of that user, or by a tick that looked at the window idle for a second, the rule using the time |
| `Arrivals.ControlStep` | internal/window/store.go:193-232 | reloads, demo resets and prunes fire nothing and do exactly what they are for: new rules, no windows and no deadlines, only the windows seen since the cutoff |
| `Arrivals.ResidentIsFold` | internal/event/event.go:100-107 | over any run a resident window is a new one with the latest events of its user folded in, the user being the anonymous id or failing that the user id |
| `Ticker.PersonasFireOnlyEligible` | cmd/realtime-trigger/runtime_pipeline.go:233-241 | evaluating the personas in turn fires only enabled rules meant for one of them that hold now and were off cooldown |
| `Ticker.PersonasFireDueKey` | cmd/realtime-trigger/runtime_pipeline.go:233-255 | evaluating both personas fires the key of a due rule that is off cooldown |
| `Ticker.RipeTime` | internal/rules/expr.go:31-62 | a condition that can only ripen, false at one time and true at a later one on a fixed window, has exactly one time at which it turns true |
| `Ticker.TickFires` | cmd/realtime-trigger/runtime_pipeline.go:69-82 | one scan fires the key of a silent window, off cooldown when the scan starts, exactly if it comes to that window, idle for a second, when the condition holds; looks at other windows leave the key alone |
| `Ticker.FirstRipeTickFires` | cmd/realtime-trigger/runtime_pipeline.go:69-82 | over a whole run of the service, whatever else it does, the key of a silent window fires exactly once some tick has looked at it, idle for a second, at or after the one time its condition turns true |
| `Ticker.ScanLooksOnce` | internal/window/store.go:163-188 | the store's scan comes to each window idle for a second once, and to no other |
| `Dispatch.MatchesAreConserved` | cmd/realtime-trigger/runtime_pipeline.go:233-255 | in every interleaving of the event pipeline, the idle ticker and the workers each emitted match is in exactly one place: with its producer, queued, with one worker, or counted as dropped |
| `Dispatch.QueueIsFifo` | cmd/realtime-trigger/runtime_pipeline.go:171-255 | over every interleaving what workers took, then what is still queued, is what the queue accepted, in the order of the sends |
| `Dispatch.DispatchedMatchesAreSpaced` | cmd/realtime-trigger/runtime_pipeline.go:228-255 | matches handed to workers inherit the cooldown spacing |
| `Producers.EvaluationReachesQueue` | cmd/realtime-trigger/runtime_pipeline.go:233-255 | an evaluation left alone runs to its end: its matches are those of evaluating the personas in turn, each for a persona its rule is meant for, as many as there is room for are queued in order, and the others are lost and counted |
| `Producers.QueueDrains` | cmd/realtime-trigger/runtime_pipeline.go:171-201 | a worker that keeps taking is handed everything in the queue, in order |
| `Producers.AdminTakesEffect` | internal/rules/engine.go:64-85 | replacing, reloading and resetting act on the engine the producers use, and move no match |
| `Archive.RunArchive` | cmd/realtime-trigger/runtime_pipeline.go:108-156 | the whole loop attempts the received events that carry an anonymous id or a user id, each exactly once, in arrival order, and no other |
| `Archive.Archiver.Receive` | cmd/realtime-trigger/runtime_pipeline.go:143-151 | an event is appended, and the batch is flushed when it reaches 50 |
| `Archive.Archiver.AttemptedThenPending` | cmd/realtime-trigger/runtime_pipeline.go:115-134 | between steps the attempted and the pending events with an id are those received, and fewer than 50 are pending |
| `Template.MatchIsSound` | internal/dispatch/template.go:11-14 | the matcher only finds placeholders of the grammar |
| `Template.MatchIsComplete` | internal/dispatch/template.go:11-14 | the grammar is unambiguous and the matcher finds the placeholder that is there |
| `Template.TokensAreLeftmost` | internal/dispatch/template.go:100-118 | the scan splits a text without loss, taking each placeholder where it is first met |
| `Template.LeftmostIsUnique` | internal/dispatch/template.go:100-118 | no other leftmost split exists |
| `Template.RenderString` | internal/dispatch/template.go:100-118 | one left-to-right pass replaces each placeholder once and adds exactly the unresolved paths |
| `Placeholders.ResolvesIff` | internal/dispatch/template.go:120-155 | for each of the four sections and every list of dot-free segments the path resolves to v exactly if following the segments through that section's nested maps ends at v, and v is not null |
| `Placeholders.ResolvedHasForm` | internal/dispatch/template.go:123-136 | no other path resolves |
| `Placeholders.SectionDecides` | internal/dispatch/template.go:26-39 | contexts that agree on one section agree on every path through it |
| `Placeholders.PlaceholderBecomes` | internal/dispatch/template.go:157-175 | a placeholder becomes its value as printed without a known hint, the dollar amount for money, and the percentage of a hundred times the number for pct; nothing is reported missing |
| `Placeholders.MissingBecomes` | internal/dispatch/template.go:109-116 | a placeholder whose path leads nowhere or to null becomes n/a and its path is reported |
| `Render.RenderValue` | internal/dispatch/template.go:75-96 | the recursive walk renders every string it reaches and passes everything else through |
| `Render.Render` | internal/dispatch/template.go:55-62 | every string that maps and lists lead to is rendered in its place, and the missing paths are exactly the unresolved ones in such strings, each once |
| `Render.RenderedAt` | internal/dispatch/template.go:64-96 | rendering place by place: whatever some steps lead to is rendered, and nothing new is reached |
| `Render.PathsAreReached` | internal/dispatch/template.go:55-62 | the paths met are those of placeholders in strings that are reached |
| `Render.RenderKeepsShape` | internal/dispatch/template.go:64-96 | same maps with the same keys, same list lengths, non-strings unchanged |
| `Render.RenderPlainIsIdentity` | internal/dispatch/template.go:64-118 | a placeholder-free tree has no path to miss, and rendering returns it unchanged exactly when it has no typed list of maps, which rendering turns into a plain list |
| `Money.GroupDigits` | internal/dispatch/template.go:205-213 | the digit loop puts a comma every three characters from the right |
| `Money.GroupsOfThree` | internal/dispatch/template.go:205-213 | commas stand exactly at every fourth place from the right, never first |
| `Money.RoundIsNearest` | internal/dispatch/template.go:198-198 | rounding is to the nearest integer, half away from zero |
| `Money.FormatMoney` | internal/dispatch/template.go:197-219 | the printed amount of the rounded number |
| `Money.AmountText` | internal/dispatch/template.go:197-219 | a dollar sign and the digits with a comma before every third from the right, the minus sign before the dollar sign; the smallest integer has a second minus sign after it |
| `Money.FormatRoundTripIff` | frontend/components/dashboard/ROITile.tsx:25-30 | stripping `$` and `,` and reading the number recovers the integer, for every 64-bit integer but the smallest |

## Left out

- HubObject.Hub.Publish: states one call run alone; interleavings of the same steps are the subject of `Hub.dfy`, and the two are not connected by a refinement theorem.
- HubDelivery.GapFreeDelivery: assumes one publisher at a time per stream; concurrent publishers may interleave their fan-outs, and then `HubHistory.EachMessageHasOneSource` and `HubComplete.NobodyMisses` hold, with no common order.
- HubObject.Hub.Close: waiting for the heartbeat goroutines and the context error are left out.
- Store.Store.Reset: one step; in the code the counter is set after the shards are cleared one by one.
- SoftCap.ResidentBounded: an eviction scan is one step, as is pruning one shard; which windows a prune removes is left open, as is the content of windows.
- WindowSummary.SeenTimes: assumes no arrival time is the zero time, which the clock fallback ensures.
- Cooldown.CooldownSpacing: one evaluation is one step; checking and marking the gate are two critical sections in the code.
- Wizard.SetIdleSecondsInAll: specs are values, so writing through a map shared by two places of one document is not modelled.
- Filter.Filter.Process: events are values; that the copy shares no map with the original event is not modelled.
- DeepCopy.DeepCopyValue: typed slices are lists like any other; references to other kinds of data are shared, and nothing is said about their contents.
- Money.FormatMoney: what a number outside 64 bits converts to is a parameter.
- Template.RenderString: the `%v` and percent renderings are parameters; warnings are not logged.
- Arrivals.EventFires: the hub and archive hand-offs of the event path are left out.
- Producers.EvaluationReachesQueue: for one producer with nobody between its steps.
- Ticker.FirstRipeTickFires: one scan is one step, although events and prunes can come between its looks; the rule is the only one of its name.
- NonInterference.RedactionChangesNoFiring: an event with its evaluation, and a scan with all its looks, is one step.
- Predicates.EqualityLaws: how values print is a parameter; the sorting of predicate names for the debug endpoint is left out.
- HubQuiet.AtRest: a subscriber that registers after Close was called may stay open or be closed, and nothing is claimed of which.
- HubRest.ComesToRest: some schedule ends all calls; nothing is claimed about how fair the scheduler is.
- JSON and YAML text, float rounding, regular-expression syntax, time zones and saturation of durations.
- Database writes, message consumer, Slack, LLM and activation clients, HTTP handlers, metrics, configuration, the frontend apart from the number reader.
