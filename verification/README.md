# A proof model of the namespace resizer

The namespace resizer watches Kubernetes ResourceQuotas and proposes new limits as pull requests. It
grows a quota as soon as usage comes close to a limit, and shrinks it only after the usage of a whole
window of days was observed without a pause. This project models that control loop and proves what it
promises. `dafny verify dfyconfig.toml` checks everything.

The loop has three layers, and the proofs compose along them.

**Observation** (`WindowModel`, `ObservationWindow`, `ObserverModel`, `Observation`, `CoverageRuns`,
`OwnSamples`, `PeakRuns`, `PeakLimits`, `FailedWrites`, `CoverageGate`, `CoverageExact`, `WindowBounds`). A
window keeps one bucket per day with the first and last sample, the largest gap and the peaks. It is written
behind: a cached copy lives in the process, and the Lease is written when a day or a peak changes or an hour has
passed. `ObservationWindow` and `Observation` are the classes, with the aliasing of slices, buckets and maps
that the program has: after a failed write the cached window shares buckets that were already changed. Their
methods are proved against functions on values, and the theorems about runs are about those functions. An event
of a run is a call of Observe, of whatever quota object the name stands for then, with a failed read, a failed
write or a write whose acknowledgement is lost, or a restart. For each window, cached or persisted, a run keeps
the samples that it rests on: those of its own object since it was started. The theorems speak of these and of
all samples of the object, the first of which may be lost, when nothing was stored before; and on peaks of all
samples since the UID changed.

**Decision** (`Quantities`, `Policies`, `PolicyMerge`, `PolicySettings`, `QuotaKeys`, `SortedLines`,
`DecisionRule`, `Deciding`, `DecisionProperties`, `DecisionNumbers`, `DecisionReasons`, `EndToEnd`, `Dynamics`,
`ClosedLoop`, `FloatRounding`, `FloatCounts`, `Deficits`, `DeficitNames`). A target is the largest of four
requirements; a tolerance band, a step cap, rounding and four gates turn it into a decision. Where Go walks a
map, the methods here draw keys in any order. `QuotaKeys`, `PolicySettings`, `DecisionNumbers` and
`DeficitNames` tell the lookups and the rule a second time, by the keys of Kubernetes, the texts of annotations
and plain numbers. `Dynamics` and `ClosedLoop` iterate decide, merge, decide again. `EndToEnd` joins this layer
with the one before: what a shrink guarantees about every sample that was really taken.

**Pull requests** (`Protocol`, `ProtocolSafety`, `ProtocolSpacing`, `ProtocolHistory`, `ProtocolMemory`,
`ProtocolRepeats`, `ProtocolPasses`, `ProtocolProgress`, `ProtocolLease`, `Reconciling`, `Branches`,
`LeaseCodec`, `LeaseClients`, `LeaseLocking`). `Protocol` is a state machine over the pull requests of one
quota, all versions of its Lease, the clock and what the single reconciler is about to do. Between any two calls
people merge and close, the observer writes, time passes, or the process dies; each call takes effect, fails, or
takes effect and reports an error. `Reconciling` is the imperative reconciler; each of its calls extends a ghost
record of events, and its invariant says that its state is the state of the machine after those events. A second
record lists its calls by kind, with what they were given and answered, and the contracts say which calls a pass
makes. `LeaseClients` interleaves any number of MutateState and AcquireLock calls, request by request, and
`ProtocolLease` shows that the Lease they leave behind goes through the versions of the protocol. A search for
open pull requests may miss one; a run remembers in a flag whether that has happened.

**The whole controller** (`Controller`). One machine in which every pass observes the object that it finds,
which may write the shared Lease, and decides on the window that this returned, with one clock and crashes that
hit both sides. That every decision rests on what was observed is an invariant there, and it carries the
promises of the first two layers down to every shrink pull request of every run.

Times are whole seconds, dates are day numbers, minutes of the day stand for "HH:MM". The stamps of the Lease
carry no fraction of a second (section 5.6 of RFC 3339); `Clock.StampTruncation` shows that the time gates
decide alike on whole seconds. Amounts are integers in milli-units, fractions are reals, and `FloatRounding` and
`FloatCounts` say when the program's floating point gives the same rounding.

Results that differ from what the program's comments say:

- Quantize promises never to fall below the target. An amount of bytes, or a count below 3.6 * 10^13 objects,
  falls exactly when it lies above a whole unit by at most half the distance of the floating-point numbers around
  it, and then to that unit. This begins above 2^53 milli-units; the first such byte amount is near 8.2 TiB
  (`FloatRounding.SmallExactIff`, `FloatRounding.LostOccurs`). Larger counts can also rise; the exact conditions
  for all of int64 are integer inequalities (`FloatCounts.ExactIff`).
- Sampling is to be measured so that an outage counts as a gap. A first sample whose write fails is forgotten, and
  with it a pause that began there: a window can be complete although a pause of more than an hour ended on its
  oldest day (`CoverageGate.PauseIsHidden`). The exact condition is part of `CoverageRuns.CrashSafeCoverage`;
  without crashes and failures a complete window and an observed one are the same (`CoverageExact.CompleteIff`).
- A failed Lease write can leave a risen peak in the cache that the next call does not see as a change, so
  that a crash within the hour forgets it. With a cold cache the risen peak is forgotten without any further
  crash: the next call writes, and still lacks it. The exact conditions, for warm and cold caches, a next call
  on any day, and a crash in between, are `FailedWrites.FailedWriteIsRepairedIff` and
  `FailedWrites.CrashedWriteIsRepairedIff`; the inputs are `PeakLimits.FailedWriteLosesPeak` and
  `FailedWrites.ColdFailedWriteLosesPeak`.
- A window can be complete while its peak skips a day whose stored amount does not fit 64-bit milli-units
  (`PeakLimits.PeakBoundsDaysIff`, `PeakLimits.HugePeakIsSkipped`).
- FindOpenPR fetches its list in pages. Pull requests that close between two requests move the later ones
  forward. The quota's own one is missed exactly when it crosses a cut that way, from a page that was not yet
  fetched to one that was (`Branches.FoundUnlessItCrosses`); one page never misses
  (`Branches.OnePageNeverMisses`). After a miss a second pull request is opened
  (`ProtocolRepeats.MissedSearchOpensTwo`), so that at most one is open only in runs without a miss
  (`ProtocolSafety.AtMostOneOpen`).
- ParsePolicy collects the spellings apart so that the order of the map does not matter. Two names for one
  resource in one spelling, such as "cpuheadroom" and "cpu-headroom", still make the policy depend on it
  (`PolicyMerge.AmbiguousDependsOnOrder`, `PolicyMerge.AliasIsAmbiguous`).

A result that the program announces itself (internal/git/github.go:304-307): a shrink that was opened but left
no stamp, because its answer was lost or because CreatePR took it back for want of labels, is proposed again at
once. `ProtocolRepeats.RepeatedIff` gives the exact condition for that, and `ProtocolRepeats.ProposesShrinkIff`
the one for any clock and any readings.

## Model

| member | source | states |
|---|---|---|
| ObservationWindow.PeakTable.Raise | internal/sizing/window.go:153-166 | the map of peaks is updated in place to the pointwise maximum with the sample; a missing or unreadable entry is replaced; reports whether any entry changed |
| ObservationWindow.DayBucket.IsCovered | internal/sizing/window.go:242-251 | covered exactly when sampling began by 00:30, was still going at 23:30 and the readable gap is at most an hour |
| ObservationWindow.Prune | internal/sizing/window.go:255-271 | keeps exactly the buckets dated within the window, in order; copies the slice only when something is removed, and the copies share the maps of peaks |
| ObservationWindow.IndexOf | internal/sizing/window.go:273-280 | the first bucket of a date, or -1 |
| ObservationWindow.Window.Observe | internal/sizing/window.go:105-169 | the new window as a value, the changed flag, and what every other holder of the old slice sees afterwards; what that value is, OwnSamples and CoverageExact say in fields |
| ObservationWindow.Window.Peak | internal/sizing/window.go:173-208 | the loop computes the largest countable amount of the completed days |
| ObservationWindow.Window.IsComplete | internal/sizing/window.go:212-237 | every completed day has a covered bucket with a readable amount for the resource; the last bucket of a date counts |
| WindowModel.PeakOf | internal/sizing/window.go:173-208 | none when nothing counts, and otherwise an amount that occurs and that no counting amount exceeds |
| WindowModel.IndexAtIsFirst | internal/sizing/window.go:273-280 | no earlier bucket has the date |
| WindowModel.HasDuplicateDates | internal/sizing/window.go:81-90 | true exactly when two positions hold the same date |
| WindowModel.DecodeWindow | internal/sizing/window.go:54-77 | an annotation of schema version 1 without two buckets of a date is the window it encodes, and everything else the empty one |
| OwnSamples.ResetStartsOver | internal/sizing/window.go:111-117 | after a sample of another quota object the window is one bucket of today, whose first and last sample is this one, with no gap and exactly its amounts as peaks; the old buckets are left as they were |
| OwnSamples.SameObjectGoesOn | internal/sizing/window.go:119-169 | a sample of the same object goes into the bucket of its day: first sample kept, last one and count moved on, longest gap and every peak raised and never lowered; an unreadable gap stays, an unreadable peak is replaced |
| OwnSamples.BucketsHoldOwnSamples | internal/sizing/window.go:111-169 | in every run, with any objects one after the other and any failures, the first and the last sample and every peak of every bucket, cached or persisted, are of samples of the window's own object, the last that were folded of it; of the object sampled last, the last since the UID changed, or reaching back beyond a change that was never stored |
| OwnSamples.CompleteMeans | internal/sizing/window.go:212-251 | complete exactly when the last bucket of each completed day has its first sample by 00:30, its last from 23:30 on, a readable gap of at most an hour and a readable amount |
| OwnSamples.WritesIff | internal/controller/observation.go:82-94 | on a window of the same object a call writes the Lease exactly when a bucket leaves the window, the day is new, an amount rises or replaces an unreadable one, or the last write is an hour ago |
| OwnSamples.ResetWrites | internal/controller/observation.go:82-94 | and on a window of another object always |
| Observation.Observer.Load | internal/controller/observation.go:66-77 | a copy of the cached struct that shares its slice, or the decoded annotation; nothing only on a failed read without a cache |
| Observation.Observer.Commit | internal/controller/observation.go:82-99 | the Lease is written exactly when the window changed or an hour has passed; an error leaves the cached struct alone, an unacknowledged write leaves the Lease new |
| Observation.Observer.Observe | internal/controller/observation.go:59-102 | Lease and cache after a call, for every failure, are the step of the value model, including the buckets a failed call changed in the cache |
| Observation.Observer.Forget | internal/controller/observation.go:106-110 | only the cache is dropped |
| CoverageRuns.RunKeepsInv | internal/controller/observation.go:59-121 | in every run, over any objects, with restarts and failed, lost or unacknowledged calls, every bucket in Lease and cache accounts for all gaps of its date, in the samples its window rests on, up to a known sample |
| CoverageRuns.CoveredMeansObserved | internal/sizing/window.go:239-251 | a covered bucket of such a window belongs to a day with real samples by 00:30 and from 23:30 on and no pause over an hour ending on it |
| CoverageRuns.CrashSafeCoverage | internal/controller/observation.go:54-102 | whatever crashed or failed and whatever objects came before, a complete window, cached or persisted, was really observed on each of its days by the samples it rests on, the last of its own object; and by all that were ever folded of it exactly unless nothing was stored before that day, and the first sample of the day came more than an hour after a lost one before it |
| CoverageRuns.RunOwns | internal/controller/observation.go:66-99 | in every run, over any objects and whatever fails, every window rests on the last of all samples that were folded of its own object |
| CoverageRuns.OwnFits | internal/sizing/window.go:111-117 | so of these and the samples since the UID changed, one list is the end of the other |
| CoverageRuns.PauseForcesWrite | internal/controller/observation.go:82-94 | after any run, a pause of an hour or more makes the next sample write the Lease |
| PeakRuns.RunKeepsPeakInv | internal/controller/observation.go:79-99 | without failed writes, over any objects, persisted and cached peaks are the exact maxima, per day and resource, of the samples the window rests on |
| PeakRuns.RunRestsOnAll | internal/controller/observation.go:79-99 | and these are all samples of the object since the UID changed |
| PeakRuns.PeakCoversHistory | internal/sizing/window.go:173-237 | in a complete window, no sample of a completed day, of the object since the UID changed, exceeds the peak |
| PeakRuns.UnchangedAgrees | internal/sizing/window.go:102-169 | when Observe reports no change, dates and peaks are as before |
| PeakRuns.LeaseFollowsCache | internal/controller/observation.go:82-94 | without failed writes, the Lease agrees with the cache on object, dates and peaks, rests on the same samples and lags by less than an hour |
| FailedWrites.FailedWriteIsRepairedIff | internal/controller/observation.go:59-102 | whatever the cache holds, a failed write is made good by the next successful call exactly when that call writes, the day is still in the window, and either the cache kept what the failed call changed or, on the same day, each amount was stored already or comes again |
| FailedWrites.CrashedWriteIsRepairedIff | internal/controller/observation.go:66-77 | and after a crash that follows the failed write, exactly when the next call writes on the same day and each amount was already stored in the Lease or comes again |
| FailedWrites.ColdFailedWriteLosesPeak | internal/controller/observation.go:66-94 | three concrete values: cpu 100 in the Lease, a failed write of 900 with a cold cache, and a next call with 500 that writes without 900 |
| PeakLimits.WarmCacheRepairsIff | internal/controller/observation.go:79-94 | with a cache in step with the Lease and a next call on the same day, the Lease is repaired exactly when that call raises a peak itself or the heartbeat is due |
| PeakLimits.FailedWriteLosesPeak | internal/controller/observation.go:79-94 | two concrete samples a minute apart that leave the peak out of the Lease |
| PeakLimits.PeakBoundsDaysIff | internal/sizing/window.go:193-201 | a complete window's peak bounds all its days exactly when no day stores an amount beyond 64-bit milli-units and some day stores one that is not negative |
| PeakLimits.HugePeakIsSkipped | internal/sizing/window.go:193-201 | a concrete complete window of two days whose peak skips the one that holds 2^63 milli-units |
| CoverageGate.RegularSamplingCompletes | internal/sizing/window.go:119-151 | samples at most half an hour apart since 00:30 of the oldest day make the window complete |
| CoverageExact.CompleteIff | internal/sizing/window.go:105-251 | in a run of one object without crashes and failures, the window is complete for a resource exactly when each of its days was observed: sampled by 00:30 and from 23:30 on, and never after a pause of more than an hour |
| CoverageGate.FailedFirstWriteHidesPause | internal/controller/observation.go:82-94 | when the very first write fails and regular sampling begins more than an hour later, by 00:30 of the next day, the window becomes complete although a longer pause ended on its oldest day |
| CoverageGate.PauseIsHidden | internal/controller/observation.go:82-94 | a concrete run: a first sample at 22:00 whose write fails, one every half hour from 00:20, and a complete day on which a pause of 140 minutes ended |
| WindowBounds.WindowIsBounded | internal/sizing/window.go:253-271 | after any run, whatever the clock, the UIDs and the failures, the cached and the persisted window have distinct, increasing dates inside the window of their last sample, so there are at most windowDays + 1 buckets |
| WindowBounds.ObserveIsBounded | internal/sizing/window.go:253-271 | after any run, a call that succeeds leaves at most windowDays + 1 buckets, distinct, increasing and inside the window of its own sample |
| WindowBounds.DaysOnlyGrow | internal/sizing/window.go:133-166 | while a day stays in the window its peaks and largest gap never fall and its first sample stays |
| Quantities.QuantizeIsLeast | internal/sizing/quantity.go:55-79 | in exact arithmetic, the least whole unit not below the amount |
| Quantities.QuantizeMonotone | internal/sizing/quantity.go:63-79 | a larger amount never rounds to a smaller one |
| Quantities.QuantizeIdempotent | internal/sizing/quantity.go:63-79 | a rounded amount is not rounded again |
| QuotaKeys.UnitsOfKeys | internal/sizing/quantity.go:22-79 | for every key that Kubernetes knows, behind any scope: objects are rounded up to whole ones, memory and storage to whole Mi, processors not at all |
| QuotaKeys.UnitByMention | internal/sizing/quantity.go:22-79 | and for any other key: counted when it begins with "count/", in whole Mi when the part after the last slash mentions memory or storage |
| QuotaKeys.TargetOfKey | internal/sizing/policy.go:81-137 | for every key that Kubernetes knows, behind any scope, the demand in the target is scaled by the headroom of the key itself, else of its family, else the default, else a quarter; and the minimum is that of the key, else of its family |
| QuotaKeys.TargetByMention | internal/sizing/policy.go:81-137 | and for any other key, by what the part after the last slash mentions: processors before memory before storage |
| FloatRounding.DivisionKeepsOrder | internal/sizing/quantity.go:65-74 | under round-to-nearest, the rounded quotient by 1000 is at most a whole number exactly when the true one is, up to 16 TiB |
| FloatRounding.ExactUpToP53 | internal/sizing/quantity.go:63-79 | up to 2^53 milli-units floating point rounds to exactly the least whole unit |
| FloatRounding.LostOccurs | internal/sizing/quantity.go:55-79 | every byte amount, and every count below 2^55 milli-units, that lies above a whole unit by at most half the spacing has such roundings, so that it is rounded below its target |
| FloatRounding.OddCountIsKept | internal/sizing/quantity.go:63-79 | from 2^55 on the condition for counts is another one: a concrete count that this would call lost is rounded exactly |
| FloatCounts.CountAtMost | internal/sizing/quantity.go:63-79 | from 2^55 milli-units on, at most so many objects are left exactly when the converted amount is at most half a spacing of the quotient above them, or, from 2^53 objects on, above the even count below |
| FloatCounts.ExactIff | internal/sizing/quantity.go:55-79 | for all of int64: rounding falls below the target, and rises above the least whole unit, exactly where integer inequalities on the amount say so, and is exact otherwise |
| PolicyMerge.ParsePolicy | internal/sizing/policy.go:239-310 | the loops, in any order of the map, compute the policy and the warnings of some order of the annotations |
| PolicyMerge.HeadroomFollowsPrecedence | internal/sizing/policy.go:286-307 | in every order, a resource has the headroom of an annotation of the highest precedence that gives it one: headroom, increment, threshold, then the global value |
| PolicyMerge.OrderSparesTheRest | internal/sizing/policy.go:244-284 | warnings and all settings other than headrooms are the same in every order |
| PolicyMerge.UnambiguousIsOrderFree | internal/sizing/policy.go:244-310 | unless two annotations disagree on the deciding spelling of a resource, policy and warnings are the same in every order |
| PolicyMerge.AmbiguousDependsOnOrder | internal/sizing/policy.go:244-310 | if two do disagree, two orders give different policies |
| PolicyMerge.AliasIsAmbiguous | internal/sizing/policy.go:312-320 | "cpuheadroom" and "cpu-headroom" with different values are such a pair |
| PolicyMerge.ScalarStep | internal/sizing/policy.go:141-191 | each scalar annotation sets its own field and no other, whatever was set before |
| PolicyMerge.MergedKeepsRanges | internal/sizing/policy.go:204-231 | for all annotations and orders, a valid policy stays in its ranges and shrinking is never switched on |
| PolicySettings.OwnAnnotations | internal/sizing/policy.go:251-255 | the annotations that count are those that begin with "resizer.io/", by the rest of their names |
| PolicySettings.AnnotationGives | internal/sizing/policy.go:257-336 | which names give a resource a headroom in which spelling, and the value: a number or a percentage, and for a threshold t the x with (1 + x) t = 100 |
| PolicySettings.FamilyHeadroomScales | internal/sizing/policy.go:81-93 | in every order of the annotations, a headroom for cpu, memory or storage is the factor in the target of each key of the family that has none of its own |
| PolicySettings.FamilyMinimumHolds | internal/sizing/policy.go:102-112 | and a minimum for the family bounds the target of each key that has none of its own |
| PolicySettings.NumbersAreSet | internal/sizing/policy.go:141-186 | what the annotations for band, step, window, cooldowns and time to live set, in fractions, days and minutes, and what they leave alone when they are out of range |
| PolicySettings.SwitchesAreSet | internal/sizing/policy.go:141-231 | only "false" opts a namespace out, only "true", in any case, keeps shrinking on, and a quantity sets the minimum of its resource |
| PolicySettings.RejectionsAreTold | internal/sizing/policy.go:141-283 | an annotation is reported as rejected exactly when its value makes no sense for its name |
| PolicySettings.DeprecationsAreTold | internal/sizing/policy.go:286-307 | an increment or a threshold is reported as deprecated exactly when it is used and nothing of a higher precedence is, and nothing is reported twice |
| Deciding.ShrinkGates | internal/sizing/decide.go:282-303 | exactly the gates that are closed, in order |
| Deciding.Decide | internal/sizing/decide.go:144-242 | the loop, in any order of the map, yields a decision by the rule, with the reason lines sorted; what the rule says is told in numbers by DecisionNumbers and QuotaKeys |
| DecisionRule.DecisionUnique | internal/sizing/decide.go:144-242 | the rule leaves one decision, so the order of the map never shows |
| DecisionProperties.TargetIsGreatestRequirement | internal/sizing/decide.go:246-278 | the target is the largest of usage, peak and shortage with headroom and the minimum, and is one of them; the usage-floor driver never occurs |
| DecisionProperties.DecisionFollowsRule | internal/sizing/decide.go:140-142 | grow exactly when some resource exceeds the band; shrink exactly when none does, some falls below it by more than rounding, and every gate is open; with exactly those targets |
| DecisionNumbers.ResourceInNumbers | internal/sizing/decide.go:183-209 | a limit grows exactly when its target lies above (1 + tolerance) of it, and to the rounded target; it is previewed for a shrink exactly when the target lies below (1 - tolerance) of it, nothing grows and rounding leaves something, at the larger of the target and what one step leaves |
| DecisionNumbers.UnmeasuredIsLeftAlone | internal/sizing/decide.go:153-171 | nothing is asked for where the limit is zero, the usage is missing, or either is negative or beyond 64-bit milli-units |
| DecisionNumbers.DisabledDecidesNothing | internal/sizing/decide.go:145-147 | a namespace that opted out gets no targets, no preview and no metrics |
| DecisionNumbers.GatesInNumbers | internal/sizing/decide.go:224-241 | a shrink is proposed as previewed exactly when no gate is closed; otherwise exactly the closed ones are named, once and in order |
| DecisionNumbers.HeadroomDecides | internal/sizing/policy.go:81-93 | a concrete quota of ten processors with eight in use under the default policy: it stays, and with a headroom of 1.0 for cpu it grows to sixteen |
| DecisionReasons.ReasonAccounts | internal/sizing/decide.go:246-313 | the reason has one line for each resource that changes and no other, in order, and the cause a line names leads to the same value without all the others |
| DecisionProperties.RawTargetMonotone | internal/sizing/decide.go:259-264 | larger shortages never lower a target |
| DecisionProperties.MoreShortage | internal/sizing/decide.go:259-264 | larger shortages keep a grow a grow, only remove resources from a shrink and never lower a value |
| EndToEnd.ShrinkKeepsCurrentDemand | internal/sizing/decide.go:194-208 | a shrink is below the limit, no deeper than one step, and covers usage and pending shortage with headroom and the minimum |
| EndToEnd.ShrinkCoversHistory | internal/sizing/decide.go:246-303 | after any run without failed writes, a shrink covers with headroom every sample that was ever folded of its object, since the UID changed, on the completed days of the window |
| EndToEnd.ShrinkRestsOnObservation | internal/sizing/decide.go:280-303 | whatever failed or crashed and whatever objects came before, a shrink rests on days that were really observed, by samples of its own object, by all that were ever folded of it under that exact condition, and keeps its distance from the last grow and shrink |
| EndToEnd.RegularSamplingShrinks | internal/sizing/decide.go:194-241 | when nothing grows, the receding resources were sampled half-hourly since 00:30 of the oldest day and the last grow and shrink are long enough ago, the decision is a shrink to the step target |
| Controller.RunKeepsInv | internal/controller/resourcequota_controller.go:113-172 | in every run of the controller every decision under way and every one that was proposed was made on a window that was cached at that moment |
| Controller.EveryShrinkPRCoversHistory | internal/controller/resourcequota_controller.go:113-172 | in every run of the controller without a failed window write, a shrink pull request covers, in every commit it ever gets, every sample of its object that was taken before it, since the UID changed, on the completed days, with headroom |
| Controller.EveryShrinkPRWasObserved | internal/controller/resourcequota_controller.go:113-172 | and, whatever failed on either side, those days were really observed, by samples of its own object, and by all that were ever taken of it exactly unless the first one of the day came late and nothing was stored before |
| Controller.PassGoesOn | internal/controller/resourcequota_controller.go:113-172 | an undisturbed pass observes a sample taken now, may decide on exactly the window this leaves in the cache, and every later step is taken |
| EndToEnd.FloatKeepsShrink | internal/sizing/quantity.go:63-79 | floating point lowers or raises the value of a shrink exactly where the integer inequalities say so |
| Dynamics.GrownStays | internal/sizing/decide.go:183-209 | a value that was just grown is a fixpoint, even where rounding lifted it out of the band |
| Dynamics.StaysWhere | internal/sizing/decide.go:183-209 | above its target a value stays exactly when it is in the band or rounding erases the step; then it is in the band, at the rounded target, or a step is smaller than a unit |
| Dynamics.NeverBelowTarget | internal/sizing/decide.go:194-208 | repeated shrinks never go below the target |
| Dynamics.AlwaysSettles | internal/sizing/decide.go:183-209 | every start settles, from below after one merge and from above within as many as there are whole rounding units to give up, and then never moves |
| Dynamics.SettlesWithin | internal/sizing/decide.go:195-206 | the merges it takes: as many as bring (1 - s)^n of the start below one unit, and 2 + 1 / s more |
| Dynamics.ConvergesAbove | internal/sizing/decide.go:195-206 | while it moves, after n merges the limit is at most (1 - s)^n of the start plus unit / s, or the rounded target |
| Dynamics.ConvergesBelow | internal/sizing/decide.go:195-206 | and at least (1 - s)^n of the start minus 1 / s |
| ClosedLoop.NeverFlaps | internal/sizing/decide.go:140-242 | with constant demand no decision after the first is a grow, and what the first one grew is in no later decision's targets |
| ClosedLoop.ShrinksAreFinite | internal/sizing/decide.go:194-240 | with constant demand there are no more shrinks in a row than whole rounding units to give up over the whole quota |
| Deficits.CollectDeficits | internal/controller/resourcequota_controller.go:486-553 | per quota key, the sum over its names and over workloads of the largest amount any counted event reports; which names these are, DeficitNames says |
| DeficitNames.ShortageOf | internal/controller/resourcequota_controller.go:500-578 | a limit has a shortage exactly when some event that counts reports its own name, or its twin's while that is not limited; it is what all workloads together lack under these names |
| DeficitNames.TwinCounts | internal/controller/resourcequota_controller.go:557-578 | of cpu and requests.cpu, memory and requests.memory, storage and requests.storage, where only one is limited amounts under both count for it |
| DeficitNames.OwnNameCounts | internal/controller/resourcequota_controller.go:557-578 | where both are, and for every other name, an amount counts for its own name alone |
| DeficitNames.OneEvent | internal/controller/resourcequota_controller.go:500-578 | for a single event, which keys are returned and with what amounts; nothing unless it is a warning of the last hour, not older than the last change, about this quota and a living object |
| DeficitNames.ProcessorsAreRequested | internal/controller/resourcequota_controller.go:557-578 | cpu reported against requests.cpu and limits.cpu is booked on requests.cpu and nothing else |
| DeficitNames.TwoEvents | internal/controller/resourcequota_controller.go:535-551 | two reports of one workload are one shortage, the larger, and those of two workloads add up |
| Deficits.DeficitMonotone | internal/controller/resourcequota_controller.go:500-551 | the sum for a key never drops when counted events are added, and does not depend on order or repetition |
| Deficits.MoreEventsAreNoSmaller | internal/controller/resourcequota_controller.go:500-551 | a scan of more events collects at least the same shortages, and two scans of the same events, in any order and however often, collect the same |
| Deficits.MoreEventsNeverProposeLess | internal/controller/resourcequota_controller.go:486-553 | down to the decision: with more events in the scan a grow stays a grow, a shrink only loses resources and no value falls |
| Branches.BranchIsUnambiguous | internal/git/github.go:202-211 | a branch matches the prefix of a search exactly when direction, namespace and quota are equal |
| Branches.BranchIsNeverLegacy | internal/git/github.go:409-414 | no branch opened today matches a legacy prefix |
| Branches.LegacyCollidesIff | internal/git/github.go:416-422 | two quotas share a legacy prefix exactly when their joined names agree |
| Branches.LegacyCollision | internal/git/github.go:416-422 | a concrete pair that does |
| Branches.DirectionFromLabels | internal/git/github.go:485-497 | shrink exactly when some direction label says anything but grow |
| Branches.FindOpenPR | internal/git/github.go:424-467 | the paged loop is the scan of the specification, with failing pages |
| Branches.ScanIsSearch | internal/git/github.go:436-462 | where the pages are cut does not matter |
| Branches.OwnIsFound | internal/git/github.go:416-455 | a quota's own pull request is found with its branch's direction, in every order and whatever legacy matches are listed |
| Branches.OldShapeIsFound | internal/git/github.go:424-467 | a quota without a pull request of its own is answered with the first branch of the old shape and the direction of its labels, wherever it is listed |
| Branches.NeitherIsNothing | internal/git/github.go:424-467 | and with nothing when neither shape is listed |
| Branches.FoundUnlessItCrosses | internal/git/github.go:436-462 | while any pull requests close between the requests of a search, the quota's own open one is found exactly unless, between two requests, it moves over the cut between a page that was not yet fetched and one that was |
| Branches.FoundUnlessAtTheCut | internal/git/github.go:436-462 | so when one other pull request closes between two pages, the quota's own one is found exactly unless it was the first of the next page and the closed one stood before it |
| Branches.OnePageNeverMisses | internal/git/github.go:428-462 | in a list that fits one page, the own pull request is always found |
| LeaseCodec.HolderRoundTrip | internal/lock/state.go:85-109 | a holder that was written is read back as the same number |
| LeaseCodec.AppliedAt | internal/lock/state.go:94-137 | what each annotation holds after a write; foreign annotations are left alone |
| LeaseCodec.WrittenAs | internal/lock/state.go:94-137 | the names of the five annotations, what stands under each after a write, and the holder |
| LeaseCodec.PutGet | internal/lock/state.go:77-110 | what is put is read back |
| LeaseCodec.PutPut | internal/lock/state.go:94-110 | the last put wins |
| LeaseCodec.GetPutIff | internal/lock/state.go:77-110 | reading and writing back changes nothing exactly on a canonical Lease |
| LeaseClients.Linearizable | internal/lock/state.go:51-75 | however the calls interleave, the Lease is what the effective updates make of it one after the other; a call that succeeded is one of them exactly once, and an update is always the one its client asked for |
| LeaseClients.CommitOf | internal/lock/state.go:51-75 | a call that succeeded took effect as an update with its own closure or pull request |
| LeaseClients.CommitsExclude | internal/lock/lease.go:59-108 | between two updates that take the lock for different pull requests, MutateState took it away |
| LeaseClients.NothingIsLost | internal/lock/state.go:48-75 | the window is what the window updates alone would leave, and the rest what the other updates alone would leave |
| LeaseClients.RunLosesNothing | internal/lock/state.go:48-75 | the same of the stored Lease in every run of clients with closures of the two kinds |
| LeaseClients.LockExcludes | internal/lock/lease.go:59-108 | two calls of AcquireLock for different pull requests both succeed only if MutateState took the lock from the first of them in between |
| LeaseClients.ReacquireIsIdempotent | internal/lock/lease.go:103-106 | the holder acquires again and nothing changes |
| LeaseClients.AloneMutates | internal/lock/state.go:51-75 | a call of MutateState with nobody in between succeeds, on an empty Lease if there is none |
| LeaseClients.AloneAcquires | internal/lock/lease.go:59-108 | a call of AcquireLock with nobody in between succeeds exactly when no other pull request holds the Lease, and changes the holder alone |
| LeaseClients.WindowWritesAreDisciplined | internal/controller/observation.go:88-90 | the observer's closure only sets the window |
| LeaseClients.ReleasesAreDisciplined | internal/controller/resourcequota_controller.go:191-214 | the closure that releases a pull request neither reads nor writes the window |
| LeaseClients.RecordsAreDisciplined | internal/controller/resourcequota_controller.go:465-473 | nor does the one that records it |
| LeaseClients.AdoptionsAreDisciplined | internal/controller/resourcequota_controller.go:392-395 | nor does the one that adopts it |
| LeaseClients.ExpiriesAreDisciplined | internal/controller/resourcequota_controller.go:234-239 | nor does the one that releases an expired shrink |
| LeaseClients.AutoMergesAreDisciplined | internal/controller/resourcequota_controller.go:281-287 | nor does the one that stamps an auto-merge |
| LeaseLocking.LeaseLocker.MutateState | internal/lock/state.go:51-75 | the retry loop: on success the closure took effect exactly once, on the version current then, otherwise at most once; each attempt writes what the closure makes of what it read, and the call fails only when a request does or after five conflicts |
| LeaseLocking.LeaseLocker.AcquireLock | internal/lock/lease.go:59-108 | the retry loop: on success the Lease was free or held for the same pull request and is now held for it, also after a lost create race; the call fails only when a request does, another pull request holds the Lease, or after five conflicts |
| ProtocolSafety.RunIsSafe | internal/controller/resourcequota_controller.go:157-480 | the safety invariant of all reachable states |
| ProtocolSafety.LeaseKnowsDirection | internal/controller/resourcequota_controller.go:392-395 | every version of the Lease that holds a pull request carries the direction of its branch |
| ProtocolSafety.OnlyGrowthIsAutoMerged | internal/controller/resourcequota_controller.go:248-329 | in every run MergePR is called only for branches that say grow, and every value written to them exceeded the limit in force |
| ProtocolSafety.AtMostOneOpen | internal/controller/resourcequota_controller.go:379-402 | in every run in which no search missed an open pull request, at most one of the quota is open |
| ProtocolSafety.ShrinksComeFromScans | internal/controller/resourcequota_controller.go:128-165 | every shrink ever proposed knew the pending shortages and lowered what it touched |
| ProtocolHistory.CreatedFromDecision | internal/controller/resourcequota_controller.go:140-165 | every pull request of a run was opened from a decision on the input of its log entry, and a shrink holds exactly that decision for ever |
| ProtocolMemory.RunRemembers | internal/controller/resourcequota_controller.go:177-214 | in every run with fresh reads the stamps of the Lease are those of logged entries, and those that a proposal was made on stay until another one is logged |
| ProtocolSpacing.ShrinksAreSpaced | internal/controller/resourcequota_controller.go:186-246 | with fresh reads, after a shrink was recorded or released no shrink is proposed before the cooldown, nor within the window after a recorded or merged grow |
| ProtocolSpacing.GrowsAreSpaced | internal/controller/resourcequota_controller.go:422-434 | with fresh reads, after a merge no grow is proposed before the grow cooldown |
| ProtocolRepeats.ProposesShrinkIff | internal/controller/resourcequota_controller.go:140-165 | in every fresh run, at every clock and on any readings, a pass over a free Lease whose search finds nothing opens a shrink exactly when the readings ask for one that is not yet in the spec, every grow stamp ever logged is a window old and every shrink stamp a cooldown old |
| ProtocolRepeats.AskedAgainIff | internal/controller/resourcequota_controller.go:140-165 | in every fresh run, at the clock at which a shrink was proposed the same readings ask for a shrink again exactly when no grow was recorded or found merged since, and the shrink left no stamp or there is no cooldown |
| ProtocolRepeats.RepeatedIff | internal/controller/resourcequota_controller.go:379-480 | in particular, at the clock of a shrink and on the same readings a pass opens another one exactly when its targets are not yet in the spec, nothing grew since, and the shrink left no stamp or there is no cooldown |
| ProtocolRepeats.UnrecordedShrinkIsRepeated | internal/git/github.go:277-299 | from every reachable state in which a shrink may be proposed, one that was opened but not recorded and then closed is proposed again at once |
| ProtocolRepeats.ConsecutiveShrinks | internal/controller/resourcequota_controller.go:186-246 | of two shrinks, the second comes a cooldown after the first if one was recorded or released between them |
| ProtocolRepeats.MissedSearchOpensTwo | internal/controller/resourcequota_controller.go:379-402 | from every reachable state, a search that misses an open pull request leads to a second one |
| ProtocolProgress.ShortageIsServed | internal/controller/resourcequota_controller.go:157-480 | from every reachable state without a missed search, restarted at any point, a grow decision past its cooldown is served within four undisturbed passes: the Lease holds an open grow whose last commit has exactly the targets of the decision, or one was merged, or nothing is open and the spec already has every target, or the forge still computes whether the open grow can be merged |
| ProtocolProgress.HeldGrowIsUpdated | internal/controller/resourcequota_controller.go:248-329 | from every reachable state, one undisturbed pass with a grow decision gives the open grow that the Lease holds a commit with its targets, or merges it, or leaves everything alone while the forge computes |
| ProtocolPasses.PassOnFinished | internal/controller/resourcequota_controller.go:186-221 | a pass over a merged or closed pull request releases it and sets the stamps of its branch's direction, of a closed one only that of a shrink, and nothing else |
| ProtocolPasses.PassOnHeldShrink | internal/controller/resourcequota_controller.go:223-246 | a pass closes an open shrink exactly when growth is decided or it is older than its time to live, and then releases it with a shrink stamp |
| ProtocolPasses.PassOnHeldGrow | internal/controller/resourcequota_controller.go:248-329 | what a pass makes of an open grow: merged and released with its stamps, one more commit, or nothing |
| ProtocolPasses.PassOnStray | internal/controller/resourcequota_controller.go:379-402 | an open pull request that the Lease does not hold is adopted, with the direction of its branch |
| ProtocolPasses.PassOnFree | internal/controller/resourcequota_controller.go:404-480 | with nothing open, a pull request with exactly the targets is opened and held, with the stamp of its direction, unless nothing would change or growing has to wait; a shrink without labels is closed again and not held |
| ProtocolPasses.PassOnQuiet | internal/controller/resourcequota_controller.go:157-172 | a pass without a decision, or with a shrink whose event scan failed, changes nothing |
| ProtocolLease.ClosuresAgree | internal/controller/resourcequota_controller.go:191-214 | each closure on the decoded Lease is the step that the protocol takes |
| ProtocolLease.VersionsFollowProtocol | internal/lock/state.go:51-75 | however the calls interleave, the stored Lease goes through the versions of the protocol |
| ProtocolLease.MutateStateIsAtomic | internal/lock/state.go:51-75 | a call that succeeded is one step of its own closure between two neighbouring versions |
| Reconciling.Reconciler.Reconcile | internal/controller/resourcequota_controller.go:65-172 | one pass is a run of the protocol that ends idle; it reads the Lease unless the namespace opted out, decides on exactly what it read, and goes on to the pull request the Lease holds, or to a proposal unless there is nothing to propose or a shrink may not know the shortages |
| Reconciling.Reconciler.HandleActivePR | internal/controller/resourcequota_controller.go:175-329 | which calls an active pull request leads to, in the fields of its status: closed exactly when an open shrink gives way to growth or is too old; merged exactly when auto-merge is on, the namespace did not opt out, it is no shrink, and it is mergeable and clean, or blocked with passed or no checks; updated with exactly the targets when growth is decided and it was not merged |
| Reconciling.Reconciler.HandleNewProposal | internal/controller/resourcequota_controller.go:367-480 | one search, and a pull request is created exactly when it answers none, some target is not in the spec yet and growing need not wait; adoption and recording follow the protocol |
| Reconciling.OffMeansNoMerge | internal/controller/resourcequota_controller.go:255-258 | a pass with auto-merge off, or in a namespace whose annotation says "false", asks for no merge |
| Reconciling.Reconciler.Serve | internal/controller/resourcequota_controller.go:255-258 | nor do any number of passes of one reconciler |
| Reconciling.Reconciler.IsNoop | internal/controller/resourcequota_controller.go:404-416 | true exactly when every target is already in the spec |
| Reconciling.Services.CreatePR | internal/git/github.go:182-302 | a number is returned exactly when the protocol goes on to record it; a shrink without labels is closed again |
| Reconciling.ReconcilerIsSafe | internal/controller/resourcequota_controller.go:248-302 | however it was interrupted, it asked to merge nothing but growth, and unless a search missed an open pull request one is open at most |

## Left out

- The map from quotas to cached windows and its mutex: one quota is modelled, since the controller runtime never reconciles one object twice at once.
- JSON of the window, printing and parsing of quantities, Go's time formatting: assumed to round-trip on what the code writes. Reasons show amounts in milli-units.
- Quantities finer than a milli-unit, nil maps inside a decoded bucket, and int64 overflow of scaled targets, summed deficits and durations in days.
- Infinite and NaN fractions; reals stand for the floating-point policy fractions and the products with them, so the last bit of a product is not modelled outside Quantize.
- The GitHub requests inside CreatePR and UpdatePR, path templates, file search, the edit of the YAML file and the text of pull requests: only the effects create, update, merge, close and list remain.
- Two live reconcilers for one quota, people who reopen pull requests, Lease names shared by two quotas, and the adoption of legacy branches: excluded by hypothesis in the runs of the protocol.
- The Lease garbage collector: no step deletes the Lease.
- The lookups behind an event (whether its object is alive, what its workload requests): an event carries their results. PodRequests and PVCRequests are part of that.
- How annotation values are parsed as numbers and quantities: a value carries the results of Go's parsers.
- Metrics, event recorder, logging, command line and manifests.
- FloatCounts.ExactIff: exponents are unbounded, and that a nearest number exists is shown for lost amounts only and otherwise left to the standard.
- Reconciling.Reconciler.Reconcile: takes the window as a parameter; that it is the one just observed is part of Controller, which is a machine and not a class.
- Branches.FoundUnlessItCrosses: pull requests only close during a search; ones that are opened, which move others backwards, are not modelled.
- ProtocolSpacing.ShrinksAreSpaced: supposes that GetState reads the current Lease, a clock that does not run backwards, and a pull request that was recorded or adopted before it was released.
- Reconciling.Reconciler.Serve: stands for the work queue, which calls Reconcile on whatever it reads; when it does so, and the delays between passes, are not modelled.
- ProtocolProgress.ShortageIsServed: supposes that no call fails and nobody merges or closes during the four passes, that the shortage is read the same in each, and that the Lease has not lost its pull request to a second one after a missed search.
- PeakRuns.PeakCoversHistory: supposes that no attempted Lease write failed and that all amounts fit 64-bit milli-units; PeakLimits shows why both are needed.
- CoverageRuns.CrashSafeCoverage: supposes that quota objects have UIDs, a window of at least a day and a clock that does not run backwards; the runs of Controller have that by construction.
- CoverageExact.CompleteIff: speaks of one window length throughout and of samples that all report the resource.
- Deciding.Decide: evaluates one resource in a helper method, as ObservationWindow.Window.IsComplete indexes the buckets in one; this changes nothing but the layout of the loops.
- Reconciling.Reconciler.MergeOrUpdate: is the end of HandleActivePR as a method of its own, and CloseShrink its branch for shrinks; this changes nothing but the layout.
- PolicyMerge.ParsePolicy: keeps the three collected maps as one map keyed by spelling and resource.
