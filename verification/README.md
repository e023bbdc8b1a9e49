# kube-state-metrics: a verified model of the path from events to scrapes

kube-state-metrics keeps a cache of rendered Prometheus text that follows the lists and watch events of the
Kubernetes API. This project models that path in Dafny and proves what it is for:

- **Merging.** Several per-namespace watches become one. The goroutines, channels and wait group are a step relation
  over all interleavings (`MultiWatch`), and so are calls of `Stop` (`StopCalls`); when the store behind the merge depends
  on the interleaving is stated exactly (`MergedStore`, `MergedRuns`); each source gets its own resource version back
  (`MultiLister`).
- **Filtering.** By hash of the UID (`Jump`, `Sharding`) and by denied namespace (`Denylist`), in front of the reflector
  (`Reflector`). Both commute with the store, and where they do not, the exact condition is proved (`EquivalenceLimit`,
  `Denylist.DenyingCommutes`).
- **Storing.** The rendered cache equals the map of latest objects, rendered on demand (`StoreSpec`, `MetricsStore`),
  also for scrapes that run beside the writing reflector (`ConcurrentScrape`).
- **Printing.** The text printer (`Exposition`) has a reader as its partner, written from the Prometheus text exposition
  format 0.0.4, sections "Comments, help text, and type information" and "Grouping and sorting": its syntax (`Parser`)
  and its rules on names, help texts, types, labels and series (`Format`). When a whole scrape is a legal exposition is
  stated exactly, in every map iteration order (`Scrape`, `Legality`), and so for the concatenation of all stores that a
  client reads (`Exposed`).
- **Sharding.** All shards together expose exactly the sample lines of one unsharded instance (`Equivalence`), and the
  text that the code of an instance writes is the text that theorem speaks about (`Instance`); it holds although every
  shard sees an interleaving of its own (`MergedShards`). Pods find their shard by
  their name (`Ordinal`); reconfiguration is sound under concurrency (`Handler`, `HandlerEvents`).
- **Around it.** Family generators (`Generator`), the allow and deny list (`AllowDeny`), flag values (`Flags`, `Sorting`,
  `Text`), label conversion (`Labels`) and the pod reason tables (`PodTables`, `PodSeries`). `Fresh` finds UIDs that a run
  does not mention.

Verify everything with `dafny verify dfyconfig.toml`.

## Conventions and assumptions

- An object is its UID, name, namespace, whether it is a Namespace, and an opaque body; `Bare` is an object on which
  `meta.Accessor` fails. Errors carry no text.
- Go's map iteration order is a parameter: a sequence for which `Seqs.IsOrder` holds, chosen anew for every loop. Results
  hold for every choice.
- FNV-1a is an arbitrary function of the UID. Rounding to float64 is any monotone function that is exact on the integers
  up to 2^53 and on (2^32 - 1) * 2^31; `Jump` follows the vendored code, with its 64-bit wrap-around and int32 conversion.
- A finite float64 is identified with the shortest decimal text that `strconv.AppendFloat` gives it. Minus zero prints
  as `0`, because the code compares with `== 0` first.
- The reflector of client-go is the environment: a list becomes `Replace`, an event becomes `Add`, `Update` or `Delete`.
- The README of the repository describes sharding as an md5 sum and a modulo (README.md:182). The code uses FNV-1a and
  jump consistent hashing, and so does the model.

## Findings

Properties that hold only under a condition, each proved with its exact condition:

- A list holding an object without metadata breaks the equivalence of shards and unsharded instance until the next
  list: the sharded `List` refuses the list, the unsharded store takes the part before that object
  (`EquivalenceLimit.EquivalenceCondition`). For the same reason the shortcut of shard 0 of 1 is not quite the filter
  (`Sharding.ShortcutKeepsAll`).
- A denied object arriving under the UID of a stored allowed object leaves the old entry in the filtered store, and so
  does every list that the deny filter refuses. A list keeps every run in step iff it is not refused and no later item
  of it replaces an allowed object by a denied one (`Denylist.ListCondition`, `Denylist.RefusedListLingers`); for whole
  runs the condition is per input (`Denylist.DenyingCommutes`, `Denylist.ChangedNamespaceLingers`).
- Overlapping calls of `multiWatch.Stop` can close a channel twice, although its comment calls it safe to repeat. No
  second close can follow iff at most one call is past its check, and none after the first close
  (`StopCalls.SafeIffNoOverlap`); the panic is reachable with any number of sources (`StopCalls.OverlapIsReachable`).
- Sources that share objects can leave different stores in different interleavings, namely iff two of them end in
  different effects on one UID (`MergedRuns.MergedRunsAgree`); two watches of one namespace of which only one has seen a
  deletion do (`MergedRuns.SharedObjectDiverges`).
- A handler whose first StatefulSet event asks for shard 0 of 0 takes it for unchanged and builds no stores
  (`HandlerEvents.LastEventWins`, `HandlerEvents.ZeroReplicasFirst`).
- An ordinal from 2^31 on is cut to 32 bits, and one from 2^63 on is an error (`Ordinal.NominalUndoesNaming`).
- Every key gets a bucket iff there are between 1 and 2^31 of them (`Jump.BucketsAreInRangeIff`); beyond, key 0 gets a
  negative one and no shard keeps the object (`Jump.ZeroKeyIsLost`).
- What an instance serves is a legal exposition iff every family of its live objects obeys the format and no two take one
  name (`Exposed.ServedTextReadsAsGroups`). It does not when a help text, which is written unescaped, holds a stray
  backslash (`Format.StrayBackslash`, `Format.HelpReadsBackIff`), when two Kubernetes labels of an object are sanitised
  alike (`Labels.ConvertedLabelsAreLegalIff`), or when two containers of a pod share a name
  (`PodSeries.PodSeriesLegalIff`).

## Model

| member | source | states |
|---|---|---|
| `Equivalence.ShardsExposeTheUnshardedLines` | pkg/sharding/listwatch.go:37-98 | for every number of shards, every run of every resource in which a list lacking metadata is followed by one that does not, and every map order, the multiset union of the shards' sample lines equals the unsharded instance's |
| `Equivalence.PodsExposeTheUnshardedLines` | pkg/metricshandler/metrics_handler.go:212-235 | the same for the pods of a StatefulSet, each configured from its own name; unset replicas count as one |
| `Equivalence.ExactlyOnePodKeeps` | pkg/metricshandler/metrics_handler.go:212-235 | the pods get distinct settings, and every UID is kept by exactly one of them |
| `Equivalence.ServedAllLines` | pkg/metricshandler/metrics_handler.go:201-204 | the sample lines of whatever a request may write are the lines of the live objects of all resources, in no particular order |
| `EquivalenceLimit.ListWithoutMetaDiverges` | pkg/sharding/listwatch.go:59-63 | for every list with an object lacking metadata, and whatever follows it short of a list, there is an agreeing run after which shards and unsharded instance differ |
| `EquivalenceLimit.EquivalenceCondition` | pkg/sharding/listwatch.go:37-70 | a list keeps every agreeing run in agreement until the next list iff there is one shard or every item has metadata |
| `Instance.Filtered` | pkg/sharding/listwatch.go:37-87 | the code of the filter lets through exactly what the specification of a shard lets through, lists and events alike, and reports a refused list as failed |
| `Instance.Deliver` | vendor/k8s.io/client-go/tools/cache/reflector.go:378-407 | an added or modified object is rendered under its UID, a deleted one removed, bookmarks, errors and objects without metadata ignored, a list put in place |
| `Instance.Follow` | internal/store/builder.go:323-354 | a store built and fed through the sharding filter holds the rendering its run prescribes |
| `Instance.WriteStores` | pkg/metricshandler/metrics_handler.go:201-204 | the loop writes the texts of the stores one after the other, for all iteration orders |
| `Instance.ServeStores` | pkg/metricshandler/metrics_handler.go:201-204 | for stores that followed their runs, the text is one that the equivalence theorem speaks about |
| `Exposed.ServedTextReadsAsGroups` | pkg/metricshandler/metrics_handler.go:201-204 | whatever a request may write reads as one contiguous group per family of all resources, HELP and TYPE first, with the samples of the live objects, iff every family obeys the format (name, help escapes, type, label names, unique series) and no two families of all resources take the same name |
| `Reflector.FedIsContents` | vendor/k8s.io/client-go/tools/cache/reflector.go:378-407 | feeding a store input by input leaves what the operations that arrive leave |
| `Jump.JumpForward` | vendor/github.com/dgryski/go-jump/jump.go:16-20 | jumps go strictly forward and stay within (2^32 - 1) * 2^31, hence within int64, under every admissible rounding |
| `Jump.NextKey` | vendor/github.com/dgryski/go-jump/jump.go:18 | the next key is congruent to the key times 2862933555777941757 plus one, modulo 2^64 |
| `Jump.ExactJump` | vendor/github.com/dgryski/go-jump/jump.go:19 | without rounding, the next jump is the integer quotient of (b + 1) * 2^31 by one more than the top 31 bits of the key |
| `Jump.BucketIsLastJumpBelow` | vendor/github.com/dgryski/go-jump/jump.go:11-23 | the bucket is the one jump of the key's jump sequence below n whose successor is not |
| `Jump.KeyMatters` | vendor/github.com/dgryski/go-jump/jump.go:11-23 | for every number of buckets from 2 on, two keys get different ones |
| `Jump.LastJump` | vendor/github.com/dgryski/go-jump/jump.go:16-22 | the bucket lies between the last accepted jump and the number of buckets |
| `Jump.Bucket` | vendor/github.com/dgryski/go-jump/jump.go:11-23 | the bucket lies in [0, n) for 1 <= n <= 2^31, and is -1 below |
| `Jump.Hash` | vendor/github.com/dgryski/go-jump/jump.go:11-23 | the loop ends for every key with the last jump below n, and no jump leaves int64 |
| `Jump.LargeBucketsTurnNegative` | vendor/github.com/dgryski/go-jump/jump.go:22 | the int32 result is the last jump if that is below 2^31, and negative otherwise |
| `Jump.ZeroKeyIsLost` | vendor/github.com/dgryski/go-jump/jump.go:16-22 | with more than 2^31 buckets, key 0 gets a negative one under every admissible rounding |
| `Jump.BucketsAreInRangeIff` | vendor/github.com/dgryski/go-jump/jump.go:10-23 | every key gets a bucket in [0, n) iff 1 <= n <= 2^31 |
| `Jump.Int32` | vendor/github.com/dgryski/go-jump/jump.go:22 | the conversion to int32 keeps values in range and is congruent modulo 2^32 |
| `Jump.GrowMovesOnlyToNewBucket` | vendor/github.com/dgryski/go-jump/jump.go:11-23 | one more bucket moves a key nowhere but to the new bucket |
| `Jump.GrowByMany` | vendor/github.com/dgryski/go-jump/jump.go:11-23 | growing by any number of buckets, a key stays or moves to a new one |
| `Sharding.Keep` | pkg/sharding/listwatch.go:94-98 | a UID is kept iff the bucket of its own hash is the shard |
| `Sharding.UidMatters` | pkg/sharding/listwatch.go:96-97 | any two UIDs are told apart by some shard under some hash, for every number of shards from 2 on |
| `Sharding.List` | pkg/sharding/listwatch.go:47-70 | the kept items in order, or an error as soon as an item has no metadata |
| `Sharding.ReflectOwned` | pkg/sharding/listwatch.go:47-87 | filtering an input, then reflecting it, is reflecting it, then filtering the operation by UID, iff the input is no refused list or the shard is 0 of 1 |
| `Sharding.ShardIsRestriction` | pkg/sharding/listwatch.go:47-98 | on any run whose last list was accepted, a shard's store is the unsharded store restricted to the shard's UIDs, for any rendering |
| `Sharding.ShortcutKeepsAll` | pkg/sharding/listwatch.go:38-42 | for shard 0 of 1, skipping the filter passes what the filter would pass iff the input is not a list with an object lacking metadata |
| `Sharding.ScalingOutMovesOnlyToNewShard` | pkg/sharding/listwatch.go:94-98 | with one shard more, an object stays with its shard or moves to the new one |
| `StoreSpec.StoreIsLatest` | pkg/metrics_store/metrics_store.go:63-141 | after any operations, failed ones included, the store holds exactly the rendering of the latest live object per UID; a failed Replace leaves the prefix before the failure |
| `StoreSpec.LastOfIsLast` | pkg/metrics_store/metrics_store.go:128-141 | of several list items with one UID the last one counts |
| `StoreSpec.RenderEagerIsRenderOnDemand` | docs/design/metrics-store-performance-optimization.md:60-83 | rendering on every event equals keeping objects and rendering them on demand |
| `StoreSpec.FilterCommutes` | pkg/metrics_store/metrics_store.go:63-141 | filtering arriving operations by UID is restricting the store by UID, failing lists included |
| `MetricsStore.RenderFamilies` | pkg/metrics_store/metrics_store.go:73-77 | one text per family, in order |
| `MetricsStore.MetricsStore.constructor` | pkg/metrics_store/metrics_store.go:51-57 | an empty store |
| `MetricsStore.MetricsStore.Add` | pkg/metrics_store/metrics_store.go:63-82 | fails and changes nothing without metadata, else puts one text per family under the UID and changes nothing else; every entry keeps one text per header |
| `MetricsStore.MetricsStore.Update` | pkg/metrics_store/metrics_store.go:85-88 | the same as Add |
| `MetricsStore.MetricsStore.Delete` | pkg/metrics_store/metrics_store.go:91-104 | fails and changes nothing without metadata, else removes the UID and nothing else |
| `MetricsStore.MetricsStore.Replace` | pkg/metrics_store/metrics_store.go:128-141 | the old contents go; the new are the list's, up to its first failing object |
| `MetricsStore.MetricsStore.WriteAll` | pkg/metrics_store/metrics_store.go:150-161 | every header followed by its column of texts, in any order per header, without indexing out of range |
| `MetricsStore.BuildStore` | internal/store/builder.go:323-340 | a store of the included families whose headers and generators belong together |
| `MetricsStore.StoreHoldsRendering` | pkg/metrics_store/metrics_store.go:63-141 | after any operations every entry has as many texts as there are headers, and is the rendering of its live object |
| `ConcurrentScrape.ScrapesSeeNoMix` | pkg/metrics_store/metrics_store.go:128-161 | in every interleaving with the reflector, a scrape shows the whole result of the finished operations or exactly a prefix of the list being put in |
| `ConcurrentScrape.ScrapeNeverOutOfRange` | pkg/metrics_store/metrics_store.go:150-161 | in every reachable state a started scrape can take its next step |
| `ConcurrentScrape.PrefixesAreSeen` | pkg/metrics_store/metrics_store.go:128-141 | for every list and every number of objects added, some scrape shows exactly that prefix |
| `Exposition.WriteFloat` | pkg/metric/metric.go:104-124 | minus zero is written as 0, every other value as the general formatter writes it |
| `Exposition.LabelsToString` | pkg/metric/metric.go:72-87 | appends the braced, comma-separated, escaped labels, or nothing for none |
| `Exposition.WriteMetric` | pkg/metric/metric.go:58-70 | appends labels, a space, the value and a newline |
| `Exposition.ByteSlice` | pkg/metric/family.go:42-50 | one line per metric, each starting with the family's name |
| `Parser.ReadEscaped` | pkg/metric/metric.go:89-98 | reading undoes escaping for every label value, backslashes, quotes and newlines included |
| `Parser.ReadSampleLine` | pkg/metric/metric.go:58-98 | a line reads back as its name, its labels in order and its own value, minus zero as zero |
| `Parser.FamilyLines` | pkg/metric/family.go:42-50 | a rendered family has exactly one line per metric |
| `Parser.PrintReadFamily` | pkg/metric/family.go:42-50 | printing then reading a family is the identity on its samples |
| `Parser.PrintInjective` | pkg/metric/family.go:42-50 | families of one name with equal texts have the same labels, and the same values or zeros of either sign |
| `Generator.GenerateHeader` | pkg/metric_generator/generator.go:45-58 | a HELP line and a TYPE line |
| `Format.HelpReadsBackIff` | pkg/metric_generator/generator.go:47-50 | a help text is read back as it was iff it holds no backslash and starts with no blank |
| `Format.StrayBackslash` | pkg/metric_generator/generator.go:50 | a backslash before any character but a backslash or n makes the help text illegal |
| `Format.LegalNamesAreReadable` | pkg/metric/family.go:42-50 | names that the format allows hold none of its delimiters, so the printer's demands are met |
| `Format.UnescapeEscaped` | pkg/metric_generator/generator.go:47-50 | a help text escaped as the format asks, which the code does not do, would read back for every text |
| `Generator.ExtractMetricFamilyHeaders` | pkg/metric_generator/generator.go:62-70 | the header of every family, in order |
| `Generator.ComposeFamilies` | pkg/metric_generator/generator.go:38-84 | one family per generator, in order, with the generator's name and type |
| `Generator.FilterMetricFamilies` | pkg/metric_generator/generator.go:93-103 | the included families, and only those |
| `Seqs.FilterIsPositions` | pkg/metric_generator/generator.go:93-103 | filtering yields the elements at the increasing positions where the test holds |
| `Seqs.PositionsIncrease` | pkg/metric_generator/generator.go:93-103 | filtering keeps the order |
| `Seqs.PositionsComplete` | pkg/metric_generator/generator.go:93-103 | filtering drops nothing that passes the test |
| `Scrape.ColumnIsFamily` | pkg/metrics_store/metrics_store.go:154-160 | the texts under one header are the print of one family that gathers all objects |
| `Scrape.SectionLines` | pkg/metrics_store/metrics_store.go:154-160 | a section is a HELP line, a TYPE line and exactly the sample lines of the family |
| `Scrape.ScrapeGroups` | pkg/metrics_store/metrics_store.go:150-161 | the lines of a scrape are whole and read as one contiguous group per family, HELP and TYPE first |
| `Legality.GroupLegalIff` | pkg/metrics_store/metrics_store.go:157-159 | a printed group obeys the format iff the family of the live objects does, in every iteration order |
| `Legality.ScrapeReadsAsGroups` | pkg/metrics_store/metrics_store.go:150-161 | a scrape is a legal exposition, and reads as one group per family with its help unescaped, iff every family of the live objects obeys the format and no two families take the same name |
| `Legality.RepeatedNameIsIllegal` | pkg/metrics_store/metrics_store.go:154-156 | two families of one name never make a legal exposition |
| `Legality.PlainNamesSuffice` | pkg/metric/metric.go:42-48 | counters, gauges and untyped families only need different names |
| `Scrape.GroupSamples` | pkg/metrics_store/metrics_store.go:154-160 | the samples of a group, counted, do not depend on the iteration order |
| `Scrape.ScrapeLinesAreObjectLines` | pkg/metrics_store/metrics_store.go:150-161 | the sample lines of a scrape, counted, are the sum over the live objects |
| `MultiWatch.ChannelsAreSafe` | pkg/listwatch/listwatch.go:189-238 | in every interleaving the wait group counts the live senders, nothing is sent on the closed result channel, and it is closed at most once, after all senders are gone |
| `MultiWatch.DeliveryIsInOrder` | pkg/listwatch/listwatch.go:207-222 | per source the delivered events are a prefix of the produced ones; before Stop none is lost, after it at most the one in the sender's hand and what was never received |
| `MultiWatch.ClosedMeansAllDelivered` | pkg/listwatch/listwatch.go:207-231 | a result channel that closes without Stop has delivered every event |
| `MultiWatch.SelectIsFree` | pkg/listwatch/listwatch.go:216-220 | after Stop a sender may still deliver the event in its hand, or give it up |
| `MultiWatch.DrainStep` | pkg/listwatch/listwatch.go:207-259 | after Stop and the closing of the sources, every step lowers a measure, and further calls of Stop change nothing |
| `MultiWatch.DrainProgress` | pkg/listwatch/listwatch.go:207-231 | as long as the result channel is open, some goroutine can move without its consumer |
| `MultiWatch.StopEnds` | pkg/listwatch/listwatch.go:207-259 | then every run is bounded, and ends with all senders gone and the result channel closed exactly once |
| `StopCalls.SerialStopsAreSafe` | pkg/listwatch/listwatch.go:245-259 | calls of Stop that do not overlap call each stopper at most once and close the stop channel at most once |
| `StopCalls.Finish` | pkg/listwatch/listwatch.go:253-256 | a call past its check can always go on to its close, which panics if the channel is closed by then |
| `StopCalls.OverlappingStopsPanic` | pkg/listwatch/listwatch.go:249-256 | from any two calls past the check, wherever they are, a second close can follow |
| `StopCalls.SafeIffNoOverlap` | pkg/listwatch/listwatch.go:245-259 | from any state, no second close can follow without a further overlapping call iff at most one call is past its check, and none after the first close |
| `StopCalls.OverlapIsReachable` | pkg/listwatch/listwatch.go:249-256 | for every number of sources, a run that calls Stop on the finished multi-watch ends in a second close |
| `MergedStore.SomeSourceDecides` | pkg/listwatch/listwatch.go:207-222 | what the store ends up with for a UID is the last effect of some source that reports it, or what the list left |
| `MergedStore.MergeOrderIsIrrelevant` | pkg/listwatch/listwatch.go:207-222 | all merges of given per-source events leave the same store iff for every UID all sources that report it end in the same effect |
| `MergedStore.DisjointSourcesAgree` | pkg/listwatch/listwatch.go:207-222 | sources that share no object meet that condition |
| `MergedRuns.MergeIsComplete` | pkg/listwatch/listwatch.go:189-238 | every merge is what some completed run delivers |
| `MergedRuns.CompleteIsMerge` | pkg/listwatch/listwatch.go:189-238 | every run that completes without Stop delivers a merge |
| `MergedRuns.MergedRunsAgree` | pkg/listwatch/listwatch.go:189-238 | all completed runs over the same sources leave the same store, whatever the interleaving, iff for every UID all sources that report it end in the same effect |
| `MergedRuns.SharedObjectDiverges` | pkg/listwatch/listwatch.go:207-222 | two sources report an object, one of them also its deletion: two completed runs leave different stores |
| `MergedShards.OwnRunsExposeTheUnshardedLines` | pkg/sharding/listwatch.go:37-98 | the headline for shards that each follow a run of their own, as long as the runs leave an unsharded store alike |
| `MergedShards.MergedShardsExposeTheUnshardedLines` | internal/store/builder.go:344-354 | shards and unsharded instance that each merge the same watches in an interleaving of their own expose the same sample lines, if for every UID all watches that report it end alike |
| `MergedShards.StoreAfterMergedList` | pkg/listwatch/listwatch.go:151-153 | after the merged list the store holds exactly the objects that some source lists |
| `MultiLister.List` | pkg/listwatch/listwatch.go:135-160 | item k of list i stands behind all items of the lists before it, and there are no others; watching from the joined version hands every source its own version back, or is refused for a slash; any failing source fails the list |
| `MultiLister.WatchFromListedVersions` | pkg/listwatch/listwatch.go:156-176 | every source is watched from the version its own List returned, for any number of sources; versions with a slash are refused |
| `MultiLister.WatchVersionsSound` | pkg/listwatch/listwatch.go:165-176 | a non-empty version is accepted only with one part per source, and the parts are its own |
| `Denylist.List` | pkg/listwatch/namespace_denylist.go:61-101 | in order and under the version of the list, the Namespace objects whose name is not denied and the other objects whose namespace is not; an error if the list fails or an item has no metadata |
| `Denylist.FilteredWatchIsSound` | pkg/listwatch/namespace_denylist.go:120-174 | in every interleaving a prefix of the allowed events in order; the result is closed once, the wrapped watch stopped at most once |
| `Denylist.EmittedIsAllowed` | pkg/listwatch/namespace_denylist.go:144-184 | only events of undenied Namespace objects and of objects in undenied namespaces are emitted, and all of them if the source closes |
| `Denylist.FilteredWatchCompletes` | pkg/listwatch/namespace_denylist.go:136-171 | whatever is produced, a run emits every allowed event and closes with its source |
| `Denylist.StopTakesEffect` | pkg/listwatch/namespace_denylist.go:159-169 | once stopped, the goroutine can leave from wherever it is, stopping the wrapped watch and closing the result |
| `Denylist.ShownIff` | pkg/listwatch/namespace_denylist.go:152-184 | an added object is stored iff it is a Namespace whose name is not denied, or another object whose namespace is not |
| `Denylist.CommutesStep` | pkg/listwatch/namespace_denylist.go:42-174 | one more input keeps filter and store in step iff it does not clash: no denied object arrives under a stored UID, no later item of a list replaces an allowed object by a denied one, and no refused list has other final items than those stored |
| `Denylist.DenyingCommutes` | pkg/listwatch/namespace_denylist.go:61-184 | on every run, the filtered store is the unfiltered one restricted to allowed namespaces at all times iff no input clashes |
| `Denylist.DenyingCommutesWithFixedNamespaces` | pkg/listwatch/namespace_denylist.go:176-184 | it is so on every run in which objects keep their namespace and the last list was accepted |
| `Denylist.ChangedNamespaceLingers` | pkg/listwatch/namespace_denylist.go:152-155 | an object that moves to a denied namespace under its UID lingers |
| `Denylist.RefusedListLingers` | pkg/listwatch/namespace_denylist.go:82-87 | for every refused list there is a run in step that it puts out of step |
| `Denylist.ListCondition` | pkg/listwatch/namespace_denylist.go:42-101 | a list keeps every run in step iff it is not refused and no later item of it replaces an allowed object by a denied one |
| `Denylist.NoFilter` | pkg/listwatch/namespace_denylist.go:42-46 | with no namespace denied, filtered and unfiltered store are always the same |
| `Handler.ReconfigurationIsSound` | pkg/metricshandler/metrics_handler.go:71-204 | over all interleavings of events, reconfigurations and scrapes: at most one context lives, the served stores belong to it and to the current settings, and no scrape mixes two builds |
| `HandlerEvents.MetricsHandler.constructor` | pkg/metricshandler/metrics_handler.go:60-67 | a handler without stores, with zero settings |
| `HandlerEvents.MetricsHandler.ConfigureSharding` | pkg/metricshandler/metrics_handler.go:71-87 | cancels the old context and serves one build of the new one with the new settings |
| `HandlerEvents.MetricsHandler.Handle` | pkg/metricshandler/metrics_handler.go:118-168 | ignores other sets, unchanged versions, unparsable pods and unchanged settings; otherwise reconfigures |
| `Handler.CallConfigures` | pkg/metricshandler/metrics_handler.go:71-87 | from the moment it gets the lock, running its statements one by one gives a call the effect that the method ConfigureSharding promises |
| `Handler.CurrentSettingsStay` | pkg/metricshandler/metrics_handler.go:131-137 | an event for the current settings changes nothing |
| `Handler.OtherSettingsAreServed` | pkg/metricshandler/metrics_handler.go:131-139 | an event for other settings leads to one new build with exactly those |
| `Handler.ScrapeShowsTheStores` | pkg/metricshandler/metrics_handler.go:180-204 | whenever nobody writes, a scrape can be made and shows exactly the served stores |
| `HandlerEvents.LastEventWins` | pkg/metricshandler/metrics_handler.go:118-168 | the settings are those asked for last; stores exist iff some event asked for other than the zero settings |
| `HandlerEvents.NewsIsFollowed` | pkg/metricshandler/metrics_handler.go:118-168 | an addition, or an update to another version, of its own set puts pod k on shard k of the replicas, whatever came before |
| `HandlerEvents.NoNewsIsIgnored` | pkg/metricshandler/metrics_handler.go:121-150 | an event of another set, or an update to the same version, changes nothing |
| `HandlerEvents.NoOrdinalIsIgnored` | pkg/metricshandler/metrics_handler.go:125-129 | a pod whose name holds no number in place of the ordinal ignores every event |
| `HandlerEvents.ZeroReplicasFirst` | pkg/metricshandler/metrics_handler.go:130-136 | pod 0 of a set first seen with zero replicas builds no stores |
| `Ordinal.NominalUndoesNaming` | pkg/metricshandler/metrics_handler.go:227-235 | parsing the pod name gives back its ordinal iff the ordinal is below 2^31, for every set name; larger ones are cut to 32 bits, and an error from 2^63 on |
| `Ordinal.AtoiAcceptsIff` | pkg/metricshandler/metrics_handler.go:229-232 | a text is taken for a number iff it is an optional sign and decimal digits of a value within int64, and then for that value |
| `Ordinal.ForeignPodIsParsedWhole` | pkg/metricshandler/metrics_handler.go:228 | a pod name without the set's name in front is parsed as a whole |
| `Ordinal.SettingsOfPod` | pkg/metricshandler/metrics_handler.go:212-225 | a pod finds its own ordinal and the number of replicas, one if unset |
| `AllowDeny.New` | pkg/allowdenylist/allowdenylist.go:35-58 | refuses two non-empty lists; an empty allow list means denying |
| `AllowDeny.AllowDenyList.Parse` | pkg/allowdenylist/allowdenylist.go:61-72 | compiles the whole list in any order, or changes nothing |
| `AllowDeny.AllowDenyList.Include` | pkg/allowdenylist/allowdenylist.go:75-85 | adds when allowing, removes when denying |
| `AllowDeny.AllowDenyList.Exclude` | pkg/allowdenylist/allowdenylist.go:88-98 | removes when allowing, adds when denying |
| `AllowDeny.AllowDenyList.IsIncluded` | pkg/allowdenylist/allowdenylist.go:101-115 | some compiled pattern matches, negated when denying |
| `AllowDeny.AnswersForLastParse` | pkg/allowdenylist/allowdenylist.go:35-115 | over every history the answers are those of the list as of the last successful Parse |
| `AllowDeny.EditsActOneWay` | pkg/allowdenylist/allowdenylist.go:74-98 | including never hides a name and excluding never shows one, in both modes |
| `AllowDeny.EditsTakeEffect` | pkg/allowdenylist/allowdenylist.go:74-115 | after a good Parse, a pattern included when allowing shows its names, and one excluded when denying hides them |
| `AllowDeny.EditsUndo` | pkg/allowdenylist/allowdenylist.go:74-98 | excluding undoes including when allowing, and including undoes excluding when denying |
| `Flags.ParseItems` | pkg/options/types.go:37-47 | the trimmed, non-empty parts, in order |
| `Flags.TrimPadded` | pkg/options/types.go:41 | trimming takes off the padding of spaces, all of it, and nothing else |
| `Flags.SpacesAre` | pkg/options/types.go:41 | the characters that count as spaces, by code point |
| `Flags.CleanPadded` | pkg/options/types.go:39-45 | the items are the parts without their padding, in order, empty ones left out |
| `Flags.NamespaceList.Set` | pkg/options/types.go:114-123 | appends the items of the value, and keeps every item trimmed, non-empty and free of commas |
| `Flags.NamespaceList.String` | pkg/options/types.go:103-105 | setting an empty list from the text gives the list back, in order and with repetitions |
| `Flags.StringSet.Set` | pkg/options/types.go:37-47 | adds the items of the value, and keeps every element trimmed, non-empty and free of commas |
| `Flags.StringSet.String` | pkg/options/types.go:29-34 | setting an empty set from the text gives the set back; the text lists the elements sorted, each once, from any iteration order |
| `Flags.SetTwiceIsSetJoined` | pkg/options/types.go:114-123 | two calls of Set are one with both values joined by a comma |
| `Flags.NamespacesRoundTrip` | pkg/options/types.go:100-123 | after any Set calls, setting an empty list from the printed text rebuilds it, order and repetitions included |
| `Flags.SetsRoundTrip` | pkg/options/types.go:29-84 | after any Set calls, setting an empty set from the printed text rebuilds it |
| `Flags.TextForgetsOrder` | pkg/options/types.go:29-34 | the printed text of a set does not depend on the iteration order |
| `Sorting.SortSorts` | pkg/options/types.go:29-34 | sorting yields a sorted permutation |
| `Sorting.SortedUnique` | pkg/options/types.go:29-34 | a sorted sequence is determined by its elements |
| `Sorting.LessIff` | pkg/options/types.go:32 | the first differing character decides the order, and a proper prefix comes first |
| `Sorting.SortedAscends` | pkg/options/types.go:32 | a sorted sequence ascends |
| `Labels.SanitizeLabelName` | internal/store/utils.go:94-96 | same length, every character outside the allowed class an underscore, the others kept |
| `Labels.ConvertInPlace` | internal/store/utils.go:86-91 | overwriting the ranged slice gives name i and value i of raw key i |
| `Labels.MapToPrometheusLabels` | internal/store/utils.go:79-92 | names and values follow the sorted raw keys |
| `Labels.NamesCollide` | internal/store/utils.go:79-96 | two names coincide iff the raw keys differ only in characters that become underscores |
| `Labels.ConvertedNamesAreLegal` | internal/store/utils.go:79-96 | under a prefix that starts with a letter, converted names are label names the format allows |
| `Labels.ConvertedLabelsAreLegalIff` | internal/store/utils.go:79-96 | converted labels obey the format, which forbids a repeated name, iff no two raw keys are sanitised alike |
| `PodTables.Slot` | internal/store/pod.go:487-495 | slot i*R+j belongs to container i and reason j, and to no other pair |
| `PodTables.ReasonTable` | internal/store/pod.go:484-691 | every slot of each table holds the cell of its container and reason, and row i is the row of container i |
| `PodTables.RowHasOneOne` | internal/store/pod.go:1054-1073 | a row whose values say which reason holds has exactly one 1 if the container's reason is listed, and none otherwise |
| `PodTables.CellValue` | internal/store/pod.go:1054-1073 | a cell is 1 iff the container waits, is terminated, or was last terminated, each according to its own table, for the reason, and 0 otherwise |
| `PodTables.ReasonsDistinct` | internal/store/pod.go:36-37 | no reason is listed twice |
| `PodTables.WrapPodFunc` | internal/store/pod.go:1028-1041 | every metric gets the namespace and pod labels in front, in place |
| `PodTables.WrappedHas` | internal/store/pod.go:1034-1037 | the namespace and the pod come first, each value under its key, and the rest is kept |
| `PodTables.WrappedStaysOk` | internal/store/pod.go:1028-1041 | wrapping keeps keys and values paired and keys printable, so that printing cannot panic |
| `PodTables.ReasonFamily` | internal/store/pod.go:484-691 | from statuses to wrapped metrics that the printer accepts and the reader can read, with exactly one 1 in the row of every container whose reason is listed and none in the others |
| `PodTables.CompletionTime` | internal/store/pod.go:94-118 | the latest finish time if positive, else nothing |
| `PodSeries.PodSeriesLegalIff` | internal/store/pod.go:484-691 | the labels of a pod's reason family obey the format, and its series are unique iff the containers have different names |
| `PodSeries.PodsApart` | internal/store/pod.go:1028-1041 | the reason families of different pods share no series |

## Left out

- HTTP, gzip and request headers of `ServeHTTP`: input and output; only its loop over the stores is modelled.
- client-go's reflector, informers, pager, resync, `watch.Filter` and contexts: environment steps or plain filters; shutdown by a parent context is not modelled.
- The resource version of `shardedListWatch.List`, which the code does not copy: the claims are about items and events.
- The error path of `newMultiWatch` when a later `Watch` call fails: earlier sources then keep running unstopped.
- `MultiNamespaceListerWatcher`'s dispatch and the instrumented lister-watcher: wiring without state of its own.
- Jump.Hash: stated for less than 2^32 buckets; from there on a jump can exceed int64, and Go leaves the conversion of such a float to the platform.
- Jump.LastJump: less than 2^32 buckets, for the same reason.
- Jump.Bucket: less than 2^32 buckets, for the same reason.
- Sharding.Keep: less than 2^32 shards, for the same reason.
- Sharding.List: less than 2^32 shards, for the same reason.
- Instance.Filtered: less than 2^32 shards, for the same reason.
- Instance.Follow: less than 2^32 shards, for the same reason.
- Instance.ServeStores: less than 2^32 shards, for the same reason.
- Equivalence.ShardsExposeTheUnshardedLines: at most 2^31 shards, because the shard index is an int32; only runs whose last list was accepted, because it fails on the others (`EquivalenceLimit.EquivalenceCondition`); and only generators whose names, help texts and label keys avoid the format's delimiters.
- Equivalence.PodsExposeTheUnshardedLines: the same runs and generators; replicas are an int32.
- Sharding.ShardIsRestriction: the same runs.
- Denylist.DenyingCommutesWithFixedNamespaces: the same runs, because it fails on the others (`Denylist.ListCondition`).
- Exposed.ServedTextReadsAsGroups: the syntax of numbers is not checked beyond their characters; timestamps, which the printer never writes, are not read.
- Instance.Follow: what the lister-watcher hands on is given; `MultiLister`, `MultiWatch` and `MergedShards` speak about the merge in front of it.
- Exposition.WriteMetric: the panic on unpaired labels is a demand on the caller, carried by the type `Metrics`; `PodTables` shows that the pod families meet it.
- Exposition.WriteFloat: the digits of `strconv.AppendFloat` and the number buffer pool are foreign.
- AllowDeny.AllowDenyList.IsIncluded: regular expression matching is abstract.
- Generator.ComposeFamilies: families are values, so that aliasing between a generator's result and the composed slice is not captured.
- `WithEnabledResources` and the table of available stores, `IsExcluded` and `Status`: one-line members.
- The other files under internal/store, `addConditionMetrics` and the resource-name classes: field copies, and tables of the layout of `PodTables`.
- Self metrics, logging, flag registration, the process reaper, manifests and scripts: plumbing.
