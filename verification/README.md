# HDCS in Dafny

HDCS is a hyper-converged distributed cache. This project models its two algorithmic cores and proves what
they promise.

**Replica placement.** `CrushTypes`, `Perm`, `Straw2Buckets`, `ListBuckets`, `TreeNodes`, `TreeBuckets` and
`CrushMaps` model the CRUSH buckets, their builder and their choosers. `Firstn`, `FirstnCode`, `Fallback`,
`Indep`, `IndepCode` and `Rule` model the two placement searches and the rule interpreter; `FirstnExact` and
`IndepExact` say exactly what the searches find. `Generator`, `HostPicks` and `DomainMap` model how HDCS keeps,
for every master, a list of slaves that are up while hosts come and go. The hash functions and `crush_ln` are
arbitrary functions into 32 bits and 48 bits.

**The block data path.** `Split` cuts a byte range into block fragments, `Volume` relates a byte array to its
blocks, `Barrier` is the completion with its 8-bit count, and `Merge` the extent merging of
`DataStoreRequest`. `TierChain`, `TierFlat`, `TierMachine`, `TierRuns`, `TierWork`, `Tier`, `TierProgress` and
`TierSubmit` model the tier policy as a machine in which mapping and the workers of all blocks interleave
freely. Three refinements of it follow the code more closely: `TierPool`, `TierJam`, `TierJamRun` and
`TierStuck` put it on a fixed pool of threads, `TierWake` and `TierLost` make a wait a test and a sleep, and
`TierEarly` and `TierEarlyRun` make the last hand-over a count and a submission. `CacheChain`, `CacheBlock`,
`CacheMachine`, `CacheSteps`, `CacheOwners`, `Cache` and `CacheCode` model the cache policy the same way,
`CachePartial` its requests for part of a block and its read-only mode, `CacheReload` its restart, `CacheRecency`
the order of its lists, and `CacheList`, `CacheOrder`, `CacheOvertake` and `CacheRead` the list of block requests
in front of it. `Queue` is the linked operation queue of one block, and `Lru` the linked list behind the clean,
dirty and free lists. `Basics` holds what several of them share.

The main results are:

- `DomainMap.Serve`: from any host list, after every sequence of host events, each master's replica set is right.
- `Firstn.FirstnSound`, `Indep.RunSound`, `Rule.SingleChooseleafRule`: what the placement searches return, on
  every map without a cycle, for all tunables; `CrushMaps.RankExists` is why they terminate there.
- `Fallback.FillsWhileDevicesRemain`: the exhaustive fallback leaves no usable device behind.
- `FirstnExact.SearchIsFirst`, `FirstnExact.FirstnFills`, `IndepExact.RunFollowsSchedule`: exactly which draws the
  two searches take, on every map. `Generator.SlavesArePicks`, `DomainMap.Serve`: and so exactly which slaves HDCS
  answers with, and when there are any, after any run of events.
- `Straw2Buckets.EveryDraw`, `ListBuckets.EveryDraw`, `TreeBuckets.EveryDraw`, `Perm.EveryPermutation`: the draws
  depend on nothing but their inputs, and on these freely.
- `Perm.PermChoose`: the cached shuffle never depends on earlier calls.
- `Tier.TierRefinesFlatArray`, `Tier.ReadReturnsFlat`: every interleaving of the tier machine behaves like one
  flat byte array, for writes whose fragments the 8-bit count can hold, if the last hand-over submits them in
  one step. `TierEarlyRun.FlatIffOneBlockWrites`: in the code's two steps this stays true of every run exactly
  when no write covers two blocks.
- `TierLost.StuckIffTwoBlocks`: waiting as the code does, with any number of threads, a run can stop with work
  left exactly when there are two blocks or more, since a wake-up can be lost. If a wait tested and slept in one
  step, that would be exactly when there are fewer threads than blocks (`TierStuck.AtomicWaitStuckIff`), and a
  machine with a thread for every block would never stop (`TierProgress.AtomicWaitNoDeadlock`,
  `TierProgress.RunIsBounded`).
- `TierSubmit.MergeAndSubmit`: the machine's atomic submission is what the merged extents do to the store, for
  every order of arrival.
- `Cache.CacheHoldsLastWrite`, `Cache.EntriesAreConserved`, `Cache.ListsFollowStatus`: contents, entries and
  lists of the cache in every interleaving, in the order in which requests are mapped.
- `Cache.LastWriteReachesBackend`, `CacheReload.RunRestarts`, `CacheRecency.ListsByUse`: when a write is in the
  backend, what a restart finds, and in which order the lists are, in every run.
- `CacheOvertake.OrderKeptIff`, `CacheOrder.CacheHoldsLastArrived`, `CacheRead.ReadReturnsArrived`: exactly when
  that is the order in which they arrived, what the cache then holds, and what a read then returns.
- `Queue.Interleave`, `Queue.Block.Guarantees`: one chain at a time, each operation once, in mapping order.

Loops and objects that the source updates in place are methods and classes here (`PermChoose`, the bucket
classes, `ChooseFirstn`, `ChooseIndep`, `DoRule`, `CrushMapGenerator`, `HDCSDomainMap`, `LruList`,
`DataStoreRequest`, `CachePolicy`, `Block`), each proved equal to a specification function about which the
properties are proved. Concurrency is modelled as a machine whose steps are the critical sections and block
operations. The clock and the stores' I/O are outside: a store is an array of blocks.

Where a promise does not hold for all inputs the exact condition is proved instead:

- `TreeBuckets.TreeSlotInBounds` (a tree bucket without weight), `ListBuckets.FallbackIffWeightless`,
  `ListBuckets.ListBucket.ExactIffTotalFits` and `TreeBuckets.TreeBucket.Adjust` (sums that exceed 32 bits),
  `Straw2Buckets.Straw2Bucket.Remove` (its return code), `ListBuckets.OnlyReachable` (slots with weight that no
  hash value draws);
- `Generator.CrushMapGenerator.DomainIffOffered` (an answer without any slave);
- `IndepExact.PairedIff` and `Indep.PairedUnlessRejected` (leaf search for devices; `Indep.TypeZeroLeavesRejectedLeaf` shows a failure),
  `DomainMap.UpIffListedOnce` (a master listed twice), `Split.CountsAgreeIff` (empty requests),
  `TreeBuckets.TreeBucket.Remove` (its return code when no weight is left);
- `Barrier.FiresAtLastIff` (a count in 8 bits; `Barrier.TwoHundredFiftySix` shows a failure), `TierFlat.AgreesIff` and
  `TierFlat.PromoteBreaksIff` (promoting a dirty block; `TierFlat.PromoteLosesWrite` shows a failure);
- `TierLost.StuckIffTwoBlocks` (`TierLost.WakeUpIsLost` and `TierLost.OneThreadWaits` show failures) and
  `TierStuck.AtomicWaitStuckIff` (`TierStuck.SmallWritesJam` and `TierStuck.OneWriteJams` show failures);
- `TierEarlyRun.FlatIffOneBlockWrites` (a thread passes before the submission; `TierEarlyRun.OlderSubmitsLater` shows
  a failure);
- `CacheOvertake.OrderKeptIff` (a newer request overtakes; `CacheOvertake.OlderWriteWins` shows a failure),
  `CachePartial.WriteIsRightIff` (partial writes and writes in read-only mode; `CachePartial.PartialIsWrong` and
  `CachePartial.ReadOnlyIsWrong` show failures) and `CachePartial.DiscardIsRightIff` (partial discards);
- `CacheReload.RestartKeepsIff` (a restart with blocks in the cache, since entries are numbered downwards).

## Model

| member | source | states |
|---|---|---|
| Perm.ShuffleDistinct | src/ha/libcrush/crush/mapper.c:108-122 | the Fisher-Yates shuffle is a permutation at every stage |
| Perm.ShufflePrefixStable | src/ha/libcrush/crush/mapper.c:108-122 | later rounds never change a position that is already drawn |
| Perm.StepExchanges | src/ha/libcrush/crush/mapper.c:110-119 | step p exchanges positions p and p plus its hash modulo what is left, and no others |
| Perm.RankDraws | src/ha/libcrush/crush/mapper.c:73-131 | a rank's slot is the one that the step of its remainder draws |
| Perm.PermVisitsEverySlotOnce | src/ha/libcrush/crush/mapper.c:73-131 | any run of size-many consecutive ranks visits every slot exactly once |
| Perm.PermChoose | src/ha/libcrush/crush/mapper.c:73-131 | whatever the workspace cached before, for buckets of every size, the answer is that of a shuffle from scratch, and the workspace stays valid |
| Perm.CleanUp | src/ha/libcrush/crush/mapper.c:97-103 | the clean-up after the first-rank shortcut leaves exactly the one-step shuffle |
| Perm.Advance | src/ha/libcrush/crush/mapper.c:105-122 | the loop extends the cached shuffle past the wanted position |
| Perm.EveryPermutation | src/ha/libcrush/crush/mapper.c:108-122 | whatever permutation is wanted for each hash kind, `x` and bucket id, some hash makes the shuffle give it |
| Straw2Buckets.FirstMax | src/ha/libcrush/crush/mapper.c:332-367 | the slot with the greatest straw, the earliest of equals |
| Straw2Buckets.FirstMaxUnique | src/ha/libcrush/crush/mapper.c:361-364 | there is only one such slot |
| Straw2Buckets.Straw2Choose | src/ha/libcrush/crush/mapper.c:323-368 | the loop returns the item with the first greatest straw, whose value `StrawIs` gives and whose freedom `EveryDraw` shows |
| Straw2Buckets.StrawIs | src/ha/libcrush/crush/mapper.c:334-359 | a weighted item's straw is the distance of its hash's logarithm from the top, divided by the weight and rounded toward zero; a weightless one's is the least 64-bit number |
| Straw2Buckets.EveryDraw | src/ha/libcrush/crush/mapper.c:323-368 | whatever weighted slot is wanted for each hash kind, `x` and rank, some hash and logarithm draw it |
| Straw2Buckets.RanksDrawFreely | src/ha/libcrush/crush/mapper.c:323-368 | so any two weighted slots can be drawn at two ranks, or for two values of `x` |
| Straw2Buckets.LowBitsDraw | src/ha/libcrush/crush/mapper.c:334-344 | the draw depends on the low 16 bits of the hash only |
| Straw2Buckets.StrawGrowsWithWeight | src/ha/libcrush/crush/mapper.c:334-359 | a heavier item's straw is never shorter, and a weightless one's is shortest |
| Straw2Buckets.AppendMovesOnlyToNew | src/ha/libcrush/crush/builder.c:835-864 | after an append the choice is the new item exactly when its straw beats the old winner, and is otherwise unchanged |
| Straw2Buckets.RaiseMovesOnlyToRaised | src/ha/libcrush/crush/builder.c:1216-1234 | raising a weight changes the choice only to that item |
| Straw2Buckets.LowerOtherMovesNothing | src/ha/libcrush/crush/builder.c:1216-1234 | lowering an item that was not chosen changes nothing |
| Straw2Buckets.RemoveOtherMovesNothing | src/ha/libcrush/crush/builder.c:1072-1109 | removing an item that was not chosen keeps the chosen item |
| Straw2Buckets.WeightlessNeverChosen | src/ha/libcrush/crush/mapper.c:323-368 | an item without weight is never chosen while another has weight |
| Straw2Buckets.Straw2Bucket.constructor | src/ha/libcrush/crush/builder.c:597-637 | items and weights are stored; the total is the sum exactly when it fits 32 bits |
| Straw2Buckets.Straw2Bucket.Add | src/ha/libcrush/crush/builder.c:835-864 | appends, or refuses with ERANGE exactly when the total would not fit |
| Straw2Buckets.Straw2Bucket.Adjust | src/ha/libcrush/crush/builder.c:1216-1234 | the first entry with the id gets the weight; the total stays right exactly when the new sum fits |
| Straw2Buckets.Straw2Bucket.Remove | src/ha/libcrush/crush/builder.c:1072-1109 | the first entry with the id goes, the total stays right; the return code reports not-found also when the last slot was removed |
| CrushTypes.FirstIndexOf | src/ha/libcrush/crush/builder.c:1171-1176 | the lookup loop of the adjust and remove functions finds the first entry with the id, or the end |
| ListBuckets.ListChoose | src/ha/libcrush/crush/mapper.c:141-164 | the loop from the newest item down returns the specified item, or the oldest when no test succeeds |
| ListBuckets.SlotIsNewest | src/ha/libcrush/crush/mapper.c:141-164 | a slot is drawn exactly when its 16-bit share of the sum falls below its weight and no newer slot does so |
| ListBuckets.EveryDraw | src/ha/libcrush/crush/mapper.c:141-164 | whatever reachable slot is wanted for each hash kind, `x`, rank and bucket id, some hash draws it |
| ListBuckets.OnlyReachable | src/ha/libcrush/crush/mapper.c:141-164 | and no other slot is ever drawn: one with weight is reachable if and only if each newer one is passed over at the greatest hash value |
| ListBuckets.ListSlotSound | src/ha/libcrush/crush/mapper.c:141-164 | with exact sums a prefix yields an item exactly when it has weight, and that item has weight |
| ListBuckets.FallbackIffWeightless | src/ha/libcrush/crush/mapper.c:141-164 | the "bad list sums" fallback is reached exactly when the bucket has no weight |
| ListBuckets.AppendMovesOnlyToNew | src/ha/libcrush/crush/builder.c:705-743 | an append moves a choice to the new item exactly when its test succeeds, and otherwise not at all |
| ListBuckets.AppendKeepsExact | src/ha/libcrush/crush/builder.c:705-743 | an accepted append keeps every prefix sum exact and the total below 2^32 |
| ListBuckets.AdjustKeepsModular | src/ha/libcrush/crush/builder.c:1142-1162 | shifting all later sums by the difference keeps every sum right modulo 2^32 |
| ListBuckets.ListBucket.Make | src/ha/libcrush/crush/builder.c:233-285 | fails exactly when the total does not fit 32 bits, otherwise all prefix sums are exact |
| ListBuckets.ListBucket.Add | src/ha/libcrush/crush/builder.c:705-743 | appends and keeps the sums exact, or right modulo 2^32 if they were only that, or refuses and changes nothing |
| ListBuckets.ListBucket.Adjust | src/ha/libcrush/crush/builder.c:1142-1162 | only that weight changes, the difference is returned, and the sums are exact whenever the new total fits |
| ListBuckets.ListBucket.ExactIffTotalFits | src/ha/libcrush/crush/builder.c:1142-1162 | a valid bucket's sums are exact when the total fits 32 bits, and its weight is the total only then |
| TreeNodes.DepthFits | src/ha/libcrush/crush/builder.c:310-323 | the computed depth holds all leaves and no smaller depth does |
| TreeNodes.ParentIsUp | src/ha/libcrush/crush/builder.c:290-308 | the bit formula for the parent agrees with the scale-free description |
| TreeNodes.UpOfChildren | src/ha/libcrush/crush/mapper.c:168-188 | the two children computed by the mapper have the node as the builder's parent, one level down |
| TreeNodes.ChildOfUp | src/ha/libcrush/crush/builder.c:298-308 | every node is one of its parent's two children |
| TreeNodes.NodeInTree | src/ha/libcrush/crush/mapper.c:168-193 | every node spans a range inside the tree, and only the middle node has the top height |
| TreeBuckets.NodeWeighsItsLeaves | src/ha/libcrush/crush/builder.c:369-388 | in a balanced tree every node weighs the sum of the leaves under it, modulo 2^32 |
| TreeBuckets.ExactWhenTotalFits | src/ha/libcrush/crush/builder.c:369-389 | when the total fits, every interior node is exactly the sum of its two children and the root is the total |
| TreeBuckets.DebtMovesUp | src/ha/libcrush/crush/builder.c:1183-1186 | adding the difference to one ancestor leaves only the next one to correct |
| TreeBuckets.Climb | src/ha/libcrush/crush/builder.c:379-387 | the walk over the ancestors of a changed leaf restores the balance and touches no leaf |
| TreeBuckets.RootIsWeight | src/ha/libcrush/crush/mapper.c:202-208 | the node where the search starts holds the bucket's weight |
| TreeBuckets.WalkKeepsWeight | src/ha/libcrush/crush/mapper.c:205-219 | a walk that starts on weight ends on a leaf with weight |
| TreeBuckets.TreeSlotInBounds | src/ha/libcrush/crush/mapper.c:195-222 | with weight the search ends inside the items on an item with weight; without weight it stays inside exactly when the tree is full |
| TreeBuckets.TreeChoose | src/ha/libcrush/crush/mapper.c:195-222 | the loop returns the item of the specified slot |
| TreeBuckets.WalkTo | src/ha/libcrush/crush/mapper.c:205-219 | the least hash value at a node turns left and the greatest right, towards the weight there |
| TreeBuckets.EveryDraw | src/ha/libcrush/crush/mapper.c:195-222 | whatever slot with weight is wanted for each hash kind, `x`, rank and bucket id, some hash draws it |
| TreeBuckets.Fill | src/ha/libcrush/crush/builder.c:357-388 | building succeeds exactly when the total fits, with every weight at its leaf and a balanced tree |
| TreeBuckets.CutKeepsBalance | src/ha/libcrush/crush/builder.c:992-1024 | cutting off weightless leaves keeps the balance and the total |
| TreeBuckets.TreeBucket.Make | src/ha/libcrush/crush/builder.c:325-397 | for up to 64 items: fails exactly when the total does not fit, otherwise a valid bucket of these items and weights |
| TreeBuckets.TreeBucket.Adjust | src/ha/libcrush/crush/builder.c:1164-1189 | only that leaf changes, the balance holds, and the weight is right exactly when the new total fits |
| TreeBuckets.TreeBucket.Remove | src/ha/libcrush/crush/builder.c:959-1026 | the first entry is cleared and weightless slots at the end are cut; balance, total and all other leaves are kept; where `realloc` to nothing returns NULL, it fails exactly when no weight is left, with the items freed and the size kept |
| CrushMaps.RankExists | src/ha/libcrush/crush/mapper.c:529-539 | on a map where no path leads from a bucket back to itself, buckets can be numbered so that the number falls along every edge |
| CrushMaps.RankIsEnough | src/ha/libcrush/crush/mapper.c:529-539 | and a map with such a rank has no such path |
| CrushMaps.ChildInMap | src/ha/libcrush/crush/mapper.c:529-539 | descending into a child bucket lowers the rank |
| CrushMaps.Workspace.constructor | src/ha/libcrush/crush/mapper.c:842-871 | a fresh workspace is valid for every query on its map |
| CrushMaps.StrawChoose | src/ha/libcrush/crush/mapper.c:227-245 | the loop returns the item with the first greatest straw |
| CrushMaps.EveryStrawDraw | src/ha/libcrush/crush/mapper.c:227-245 | whatever slot with a straw is wanted for each hash kind, `x` and rank, some hash draws it |
| CrushMaps.ArgsReplace | src/ha/libcrush/crush/mapper.c:302-368 | ids and weights given with the query replace those of the bucket, by position and beyond the last position by the last; no item that is weightless there is drawn while another has weight |
| CrushMaps.EveryOutcome | src/ha/libcrush/crush/mapper.c:408-424 | a device without weight is out and one of full weight is not; one between is out for any wanted set of inputs and devices under some hash |
| CrushMaps.ChooseFrom | src/ha/libcrush/crush/mapper.c:371-402 | every bucket kind's chooser computes its specification and keeps the workspace valid |
| Firstn.SearchSound | src/ha/libcrush/crush/mapper.c:485-613 | a found item is new, of the asked type, below the top bucket and not out; its leaf is a live device below it and new |
| Firstn.LeafSound | src/ha/libcrush/crush/mapper.c:550-579 | the recursive leaf search returns only live, unused devices below the item |
| Firstn.ExtendKeepsGood | src/ha/libcrush/crush/mapper.c:620-623 | recording a good pick keeps the output good |
| Firstn.CollectSound | src/ha/libcrush/crush/mapper.c:481-631 | the replica loop keeps the output good from any good start |
| Firstn.FirstnSound | src/ha/libcrush/crush/mapper.c:444-632 | at most out_size pairwise distinct items of the asked type; in leaf mode also pairwise distinct leaves, none out, each below its item, even when hosts share devices |
| FirstnCode.JudgeDraw | src/ha/libcrush/crush/mapper.c:499-587 | one draw with its checks computes the specified verdict, by which `FirstnExact.SearchIsFirst` says which ranks are taken |
| FirstnCode.ChooseLeaf | src/ha/libcrush/crush/mapper.c:550-579 | the recursive call computes the specified leaf |
| FirstnCode.DescendOnce | src/ha/libcrush/crush/mapper.c:486-613 | the inner loops end, and either finish the search or restart it with more failures counted |
| FirstnCode.ChooseFirstn | src/ha/libcrush/crush/mapper.c:444-632 | the nested retry loops terminate for all tunables and compute the specified output |
| FirstnExact.OneTry | src/ha/libcrush/crush/mapper.c:499-587 | one way down ends where the draws at its rank lead: at an item of the type, in an empty bucket, or astray |
| FirstnExact.TakesIff | src/ha/libcrush/crush/mapper.c:543-606 | the item there is taken exactly if it is not chosen, some rank of its own window finds a device below it that is in and not used, and it is not out itself |
| FirstnExact.SearchIsFirst | src/ha/libcrush/crush/mapper.c:486-613 | without local retries, on every map: a slot is filled exactly if one of its ranks is taken before the draws go astray, with what the first such rank gives |
| FirstnExact.FirstnFills | src/ha/libcrush/crush/mapper.c:444-632 | and the whole call fills slot after slot that way |
| Fallback.FlatJudge | src/ha/libcrush/crush/mapper.c:499-587 | in a flat bucket a draw is taken exactly when it is neither chosen nor out |
| Fallback.ReachesOffer | src/ha/libcrush/crush/mapper.c:590-612 | the fallback goes on until it offers an acceptable item |
| Fallback.SlotNeverSkipped | src/ha/libcrush/crush/mapper.c:499-612 | with the fallback long enough, a slot is filled whenever some item is acceptable |
| Fallback.FillsWhileDevicesRemain | src/ha/libcrush/crush/mapper.c:481-631 | the whole call fills all slots or leaves no acceptable item |
| Fallback.FirstOfferTaken | src/ha/libcrush/crush/mapper.c:505-515 | in a flat bucket the fallback offers the bucket's own draws and then its permutation, at successive ranks, and takes the first acceptable one |
| Fallback.NoOfferStartsOver | src/ha/libcrush/crush/mapper.c:590-612 | without one it starts over after size and fallback tries and one, or gives up |
| Fallback.LeavesBucketAfterRetries | src/ha/libcrush/crush/mapper.c:590-612 | on every map, a bucket that offers only chosen items is drawn from at local-retries-and-one successive ranks; then the search starts over or gives up |
| Fallback.TakenWithinRetries | src/ha/libcrush/crush/mapper.c:590-612 | and a usable device at one of these ranks is taken |
| Indep.PlaceSound | src/ha/libcrush/crush/mapper.c:691-798 | one placement yields a new item of the asked type with a good leaf, a retry, or a permanent gap |
| Indep.LeafRunSound | src/ha/libcrush/crush/mapper.c:768-787 | the recursive call returns a live device below the item, or none |
| Indep.ApplyKeepsGood | src/ha/libcrush/crush/mapper.c:725-797 | recording an outcome keeps the invariant, with left equal to the number of undefined slots |
| Indep.RoundsSound | src/ha/libcrush/crush/mapper.c:672-800 | all rounds keep the invariant |
| Indep.RunSound | src/ha/libcrush/crush/mapper.c:639-827 | no slot stays undefined; placed items are distinct and of the asked type with a live leaf below them; an empty slot has no leaf, or for devices one that was rejected |
| Indep.LeavesDistinctIfDisjoint | src/ha/libcrush/crush/mapper.c:768-787 | leaves of items that share no device are distinct |
| Indep.TypeZeroLeavesRejectedLeaf | src/ha/libcrush/crush/mapper.c:783-797 | a map on which a type-zero leaf search leaves a device in out2 for a slot that stays empty |
| Indep.PairedUnlessRejected | src/ha/libcrush/crush/mapper.c:768-797 | for every type, items and leaves are gaps in the same slots, unless devices are asked for and one below the start is out |
| IndepExact.PlaceIsSink | src/ha/libcrush/crush/mapper.c:691-748 | a slot's way down in a pass uses the rank of its number plus the pass times the number of slots, or one more in a uniform bucket that they divide |
| IndepExact.RunFollowsSchedule | src/ha/libcrush/crush/mapper.c:639-827 | on every map: each slot takes, in the first pass where this works, what its rank falls on if no slot decided earlier has it and it has a usable device; it is given up where the draw goes astray; if all passes miss it is empty, and its leaf is the device last turned down for it, or none |
| IndepExact.ScheduleUnique | src/ha/libcrush/crush/mapper.c:639-827 | no other outcome follows such a schedule |
| IndepExact.PairedIff | src/ha/libcrush/crush/mapper.c:768-797 | items and leaves are gaps in the same slots if and only if no slot that all passes missed had a device turned down last |
| IndepCode.PlaceStep | src/ha/libcrush/crush/mapper.c:694-798 | one descent step decides the slot or goes on in a bucket of lower rank |
| IndepCode.PlaceOne | src/ha/libcrush/crush/mapper.c:691-798 | the descent loop computes the specified outcome |
| IndepCode.ChooseIndep | src/ha/libcrush/crush/mapper.c:639-827 | the round loops terminate and compute the specified slots |
| IndepCode.SettleAll | src/ha/libcrush/crush/mapper.c:801-808 | undefined slots become gaps, others stay |
| Rule.PartsKnown | src/ha/libcrush/crush/mapper.c:977-1075 | a choose step yields items of the map, and live devices when it searches leaves |
| Rule.PerformSane | src/ha/libcrush/crush/mapper.c:929-1091 | every step keeps the working vector inside the map and the result within its limit |
| Rule.LeafRulesEmitLiveDevices | src/ha/libcrush/crush/mapper.c:884-1094 | a rule that emits only after leaf searches returns only live devices, whatever its other steps |
| Rule.SingleChooseleafRule | src/ha/libcrush/crush/mapper.c:884-1094 | take, chooseleaf firstn, emit returns exactly the leaves of the search from the root, at most result_max distinct live devices |
| Rule.EmitAppends | src/ha/libcrush/crush/mapper.c:1078-1084 | emit keeps the result so far, adds the working vector in order as far as there is room, and clears it |
| Rule.ChooseInOrder | src/ha/libcrush/crush/mapper.c:995-1068 | a choose step yields the parts of the elements one after the other, each in the room the others leave |
| Rule.PartIs | src/ha/libcrush/crush/mapper.c:995-1068 | in any state of the interpreter a bucket contributes what the search from it yields with the tunables set so far, and a device nothing |
| Rule.TunedRule | src/ha/libcrush/crush/mapper.c:884-1094 | six set steps, take, choose of any kind and emit return exactly what the search with these tunables yields; setters take only the values they accept, and a count of zero or less is counted from result_max |
| Rule.ChooseAll | src/ha/libcrush/crush/mapper.c:995-1068 | the loop over the working vector computes the specified concatenation |
| Rule.PerformStep | src/ha/libcrush/crush/mapper.c:933-1090 | one interpreter step computes its specification, of which `EmitAppends`, `ChooseInOrder` and `TunedRule` say what it comes to |
| Rule.DoRule | src/ha/libcrush/crush/mapper.c:884-1094 | the interpreter computes the specified result, never longer than result_max, and nothing for an unknown rule |
| Generator.HostMapWellFormed | src/ha/CrushMapGenerator.h:142-167 | a map of one-device host buckets under one root is well formed |
| Generator.SlavesAreLiveAndDistinct | src/ha/CrushMapGenerator.h:184-200 | the devices chosen for a host are distinct, up, within the count, and never the host's own |
| Generator.SlavesArePicks | src/ha/CrushMapGenerator.h:184-200 | they are the picks of the root's draws among the other hosts that are up, with 51 ranks for each slot from the slot's number on |
| HostPicks.SomePickIff | src/ha/CrushMapGenerator.h:184-200 | there is a pick exactly if one of the ranks looked at draws a host that is up |
| HostPicks.FirstPick | src/ha/CrushMapGenerator.h:184-200 | the first pick is the first such draw |
| HostPicks.ShortMeansExhausted | src/ha/CrushMapGenerator.h:184-200 | a slot is left empty only if all hosts that its ranks draw and that are up are picked |
| HostPicks.FilledIfEnoughDrawn | src/ha/CrushMapGenerator.h:184-200 | all slots are filled if the ranks that all of them look at draw as many hosts that are up |
| Generator.CrushMapGenerator.constructor | src/ha/CrushMapGenerator.h:40-59 | an empty root in an otherwise empty map |
| Generator.CrushMapGenerator.AddBucket | src/ha/libcrush/crush/builder.c:131-179 | the bucket gets the next free id and its slot; all other slots are kept while the table grows |
| Generator.CrushMapGenerator.AddHost | src/ha/CrushMapGenerator.h:142-167 | the host gets the next index, a bucket and a place under the root |
| Generator.CrushMapGenerator.Build | src/ha/CrushMapGenerator.h:70-75 | all hosts are in the map and up, whatever the order |
| Generator.CrushMapGenerator.Finalize | src/ha/CrushMapGenerator.h:128-140 | weights for every host, all up, and a valid workspace |
| Generator.CountDevices | src/ha/libcrush/crush/builder.c:45-52 | the bound above the highest device, exactly |
| Generator.CrushMapGenerator.OfflineHost | src/ha/CrushMapGenerator.h:85-92 | exactly that host goes down; unknown hosts change nothing |
| Generator.CrushMapGenerator.OnlineHost | src/ha/CrushMapGenerator.h:103-110 | exactly that host comes up |
| Generator.CrushMapGenerator.DomainIsSound | src/ha/CrushMapGenerator.h:169-215 | an answer names distinct hosts that are up, within the count and not the asker |
| Generator.CrushMapGenerator.DomainIsPicks | src/ha/CrushMapGenerator.h:169-215 | and it names exactly the picks, in order |
| Generator.CrushMapGenerator.DomainIffOffered | src/ha/CrushMapGenerator.h:169-215 | there is an answer if and only if one of the first count-plus-50 ranks draws another host that is up |
| Generator.CrushMapGenerator.FirstOffer | src/ha/CrushMapGenerator.h:169-215 | whose first host is the first such draw |
| Generator.CrushMapGenerator.GetHostDomain | src/ha/CrushMapGenerator.h:169-215 | returns that answer and leaves all weights as they were |
| Generator.CrushMapGenerator.NamesOf | src/ha/CrushMapGenerator.h:202-209 | the nested loops name every index, in any order of the table |
| Generator.CrushMapGenerator.GetAll | src/ha/CrushMapGenerator.h:77-83 | the answers for all hosts, weights unchanged |
| DomainMap.SlaveNames | src/ha/HDCSDomainMap.h:17-24 | adding and cutting off the slave suffix are inverse |
| DomainMap.SplitHosts | src/ha/HDCSDomainMap.h:17-24 | slaves become map entries, the others the list of masters in order |
| DomainMap.SlaveIffSuffixed | src/ha/HDCSDomainMap.h:17-24 | the slaves are the names that end in "slave" |
| DomainMap.MastersCount | src/ha/HDCSDomainMap.h:17-24 | every other name is a master as often as it is listed |
| DomainMap.SlaveKeysAre | src/ha/HDCSDomainMap.h:17-24 | the entries are those of the listed slaves, and no others |
| DomainMap.OfflineIffListedOnce | src/ha/HDCSDomainMap.h:43-47 | one offline event removes a master exactly when it is listed at most once |
| DomainMap.UpIffListedOnce | src/ha/HDCSDomainMap.h:40-60 | a master is online exactly when its last event says so, for every sequence of events, if and only if it is listed at most once at the start |
| DomainMap.Merge | src/ha/HDCSDomainMap.h:62-75 | the refresh loop makes the item of each configured master that is online the master and then the crush map's answer for its slave, empties that of the others, and keeps the rest |
| DomainMap.HDCSDomainMap.constructor | src/ha/HDCSDomainMap.h:14-25 | entries for the slaves, masters online, an empty generator |
| DomainMap.HDCSDomainMap.Generate | src/ha/HDCSDomainMap.h:31-38 | all slaves are in the map and up, and every item is right |
| DomainMap.HDCSDomainMap.Refresh | src/ha/HDCSDomainMap.h:62-75 | every configured item is the master with the crush map's answer for its slave, or empty while the master is off; weights, masters and other items are unchanged |
| DomainMap.HDCSDomainMap.OfflineHost | src/ha/HDCSDomainMap.h:40-49 | takes down exactly that slave, or one entry of that master; short names raise the exception and change nothing |
| DomainMap.HDCSDomainMap.OnlineHost | src/ha/HDCSDomainMap.h:51-60 | brings up exactly that slave, or enters that master if it has no entry |
| DomainMap.HDCSDomainMap.GetHostDomainItem | src/ha/HDCSDomainMap.h:77-94 | the item of a known master; an unknown one is entered with empty names; slaves get nothing; correct items stay correct |
| DomainMap.HDCSDomainMap.Handle | src/ha/HDCSDomainMap.h:40-75 | an event with its refresh keeps the state in step with the history of events |
| DomainMap.HDCSDomainMap.Run | src/ha/HDCSDomainMap.h:31-75 | after any sequence of events a configured master's item is empty if the events leave it no entry, and else is the master and the crush map's answer: fewer than count distinct slaves that the history says are up, not its own, and at least one if and only if one of the ranks looked at draws such a slave; for a master listed once, the last event decides |
| DomainMap.Serve | src/ha/HDCSDomainMap.h:14-75 | built from any host list and driven by any events: fails exactly if a name is too short, and otherwise every master's item is right by the history, with a slave in it if and only if one is drawn in time |
| Split.FragmentsPartition | src/core/BlockGuard.h:68-81 | the fragments are consecutive, non-empty, each in one block, and cover exactly the request |
| Split.CountIsShared | src/core/BlockGuard.h:50-52 | their number is the count computed up front |
| Split.CountsAgreeIff | src/core/BlockGuard.h:50-81 | the two counts differ exactly for an empty request inside a block |
| Split.FragmentAt | src/core/BlockGuard.h:68-81 | successive fragments lie in successive blocks, and only the ends can be partial |
| Split.CreateBlockRequests | src/core/BlockGuard.h:40-82 | the loop produces these fragments and this count, all inside the volume |
| Split.FiresOnceAfterLast | src/common/Request.h:38-55 | the completion fires once, after the last fragment, with the sum of all results |
| Split.FanIn | src/common/Request.h:38-55 | any number of fragments registered and completed in turn: nothing fires before the last, then once, with the sum of the results |
| Split.Request.Complete | src/common/Request.h:43-55 | one fragment fewer, and the completion when none is left |
| Barrier.FiresAtLastIff | src/common/AioCompletionImp.h:23-41 | a completion opened with the 8-bit count of n fires exactly once, at the n-th call, if and only if n is 1 to 255 |
| Barrier.PassesIffAll | src/store/DataStoreRequest.h:19-28 | up to 255 the wait lets pass exactly when all have arrived |
| Barrier.TwoHundredFiftySix | src/store/DataStoreRequest.h:19-28 | a request of 256 fragments is submitted again at every arrival from the second on, and its waiters never pass |
| Volume.WriteRunOfBlocks | src/store/DataStoreRequest.h:91-106 | writing several blocks at once replaces exactly those blocks |
| Merge.MaximalUnique | src/store/DataStoreRequest.h:42-67 | a block lies in only one maximal data-contiguous run |
| Merge.MergedIsRuns | src/store/DataStoreRequest.h:42-70 | joining a new block to the runs it touches gives the runs of the larger set |
| Merge.DataStoreRequest.PrepareRequest | src/store/DataStoreRequest.h:33-75 | the in-place edit of the ordered map, walked by a live iterator, turns the runs of the blocks so far into those with the new block |
| Merge.LiveAhead | src/store/DataStoreRequest.h:42-67 | whatever the loop inserts lies behind the iterator, and what it erases is not ahead of it |
| Merge.ArriveInOrder | src/store/DataStoreRequest.h:33-75 | for every order of arrival the chain is the set of maximal runs |
| Merge.RunsPartition | src/store/DataStoreRequest.h:42-70 | every block is in exactly one extent |
| Merge.WriteExtent | src/store/DataStoreRequest.h:91-106 | writing one extent writes each of its blocks with its own data |
| Merge.SubmitRequest | src/store/DataStoreRequest.h:77-114 | the store ends up as if every block had been written alone |
| Merge.WriteOneBlock | src/store/DataStoreRequest.h:91-106 | what writing one block alone does |
| Merge.WrittenAloneUnique | src/store/DataStoreRequest.h:77-114 | that end state is unique |
| Merge.RequestLayoutProper | src/core/policy/TierPolicy.cpp:119-138 | the buffers of a request's blocks are adjacent only for adjacent whole blocks |
| TierChain.Map | src/core/policy/TierPolicy.cpp:43-177 | for every kind of request the chain built from its end is the specified sequence of operations |
| TierChain.ChainMeaning | src/core/policy/TierPolicy.cpp:73-171 | every chain, run from any state, does to its block what its fragment is meant to do |
| TierFlat.WriteByBlocks | src/core/BlockGuard.h:68-81 | a write of any range is, on each block, the write of its fragment |
| TierFlat.ReadByBlocks | src/core/BlockGuard.h:68-81 | a fragment reads its part of the range |
| TierFlat.BlockRunIsFlat | src/core/policy/TierPolicy.cpp:43-177 | fragments applied one after the other keep a block equal to its part of the flat array, clean when flushed, with reads answered from it |
| TierFlat.BackendIsSynced | src/core/policy/TierPolicy.cpp:141-171 | the backend holds the block of the flat array as of the block's last flush, promotion or discard, and the status is what the last request that sets one leaves |
| TierFlat.AgreesIff | src/core/policy/TierPolicy.cpp:72-171 | the first request that is not allowed leaves a block equal to its part of the flat array exactly when it is harmless |
| TierFlat.PromoteBreaksIff | src/core/policy/TierPolicy.cpp:163-171 | a promote at the end of a run breaks the block exactly when it is dirty and differs from the backend |
| TierFlat.PromoteLosesWrite | src/core/policy/TierPolicy.cpp:163-171 | a write and a promote after which the written byte is gone |
| Volume.Assembled | src/core/BlockGuard.h:68-81 | a buffer filled fragment by fragment holds the whole range |
| TierMachine.SoonStep | src/core/BlockOp.h:32-42 | each operation leads on to the same end of its chain |
| TierMachine.SoonOfSubmitted | src/store/DataStoreRequest.h:72-74 | writing a waiting block early does not change where its chain ends |
| TierMachine.FullIffAll | src/store/DataStoreRequest.h:19-28 | for up to 255 fragments the 8-bit count is reached exactly when every block of the request has arrived, which is when the completion lets waiters pass |
| TierRuns.ArriveKeeps | src/core/HDCSCore.cpp:130-136 | a new request keeps every block's invariant |
| TierRuns.MapKeepsTarget | src/core/HDCSCore.cpp:146-169 | mapping a fragment keeps the invariant of its block |
| TierRuns.MapHeads | src/core/HDCSCore.cpp:146-169 | and the block still heads for what its requests make it |
| TierWork.WorkKeeps | src/core/BlockOp.h:32-42 | an operation keeps its block's invariant |
| TierWork.HandOverSelf | src/core/BlockOp.h:546-562 | handing a block over keeps its invariant, also when this submits the request |
| TierWork.HandOverOther | src/store/DataStoreRequest.h:72-75 | and keeps that of every other block, waiting at the barrier or not |
| Tier.StepKeepsInv | src/core/HDCSCore.cpp:130-169 | every step of every thread keeps the invariant |
| Tier.TierRefinesFlatArray | src/core/policy/TierPolicy.cpp:72-171 | in every interleaving, with submission at the last arrival, a block between two chains is its part of the flat array after the requests it is through with, the backend holds that part as of the block's last flush or promotion, the status is what the requests left, and its reads got the flat array's bytes |
| Tier.QuietVolumeIsFlat | src/core/policy/TierPolicy.cpp:72-171 | with nothing left to do the whole volume is the flat array after all requests |
| Tier.LogAnswers | src/core/BlockOp.h:103-120 | a block answers each read once, with the flat array's bytes at the read's place in the order |
| Tier.DeliveredSoFar | src/core/BlockOp.h:103-120 | also in the middle of a chain a block has delivered what the flat array says for the reads it is through with |
| Tier.ReadAnswered | src/core/BlockOp.h:103-120 | in every run, each read that a block is through with was answered by that block with the flat array's bytes |
| Tier.ReadReturnsFlat | src/core/BlockGuard.h:68-81 | in every run, once all its blocks are through with a read, its buffer, filled from what they delivered, is the range of the flat array as the requests before it left it |
| TierProgress.AtomicWaitNoDeadlock | src/store/DataStoreRequest.h:72-75 | if a wait tests and sleeps in one step: while a block has work, some fragment can be mapped or some worker, if it has a thread, can run |
| TierProgress.StepsUseUp | src/core/HDCSCore.cpp:130-169 | mapping and working strictly use up a bound |
| TierProgress.RunIsBounded | src/core/HDCSCore.cpp:130-169 | so a run without new requests is no longer than the bound |
| TierProgress.AtomicWaitRests | src/core/HDCSCore.cpp:130-169 | likewise, where a machine with a thread for every block stops, everything is mapped and every block idle |
| TierPool.PoolStep | src/common/tq.h:26-97 | on a pool every block with work has a thread or a task and not both, and all that the tier machine keeps is kept |
| TierPool.AtomicWaitEnough | src/common/tq.h:26-43 | if a wait tests and sleeps in one step: with as many threads as blocks no state is stuck |
| TierJam.JamStays | src/common/AioCompletionImp.h:38-41 | in the same machine, when every thread waits at a barrier that is not full, only arrivals and mapping can happen, and they change nothing of that |
| TierJam.JamIsForEver | src/common/AioCompletionImp.h:38-41 | so in no run does such a jam resolve |
| TierStuck.SmallWritesJam | src/store/DataStoreRequest.h:72-75 | for every number of threads below that of blocks, a read and writes of two blocks each that jam them all |
| TierStuck.OneWriteJams | src/store/DataStoreRequest.h:72-75 | so does a single write of one block more than there are threads |
| TierStuck.AtomicWaitStuckIff | src/core/HDCSCore.cpp:35-36 | if a wait tests and sleeps in one step: for every number of threads, a stuck state can be reached if and only if there are fewer threads than blocks |
| TierWake.WakeStep | src/common/AioCompletionImp.h:23-41 | with the test, the sleep and the notification as separate steps, threads about to sleep or asleep are at a barrier, and all that the pool keeps is kept |
| TierWake.LostStays | src/common/AioCompletionImp.h:27-41 | no step wakes a thread that fell asleep after its request was submitted |
| TierLost.LostForEver | src/common/AioCompletionImp.h:27-41 | so in no run does its block get on with its work |
| TierLost.WakeUpIsLost | src/common/AioCompletionImp.h:27-41 | with two threads or more, one write of two blocks can leave a thread asleep for good with all other work done |
| TierLost.OneThreadWaits | src/store/DataStoreRequest.h:72-75 | a single thread falls asleep waiting for the block it would have to run itself |
| TierLost.StuckIffTwoBlocks | src/common/AioCompletionImp.h:23-41 | for every number of threads, a state with work left where only new requests can happen can be reached if and only if there are two blocks or more |
| TierEarly.SmallStep | src/common/AioCompletionImp.h:27-29 | with the count and the submission as separate steps and writes of one block each, what waits to be submitted is as good as submitted |
| TierEarlyRun.OlderSubmitsLater | src/common/AioCompletionImp.h:27-41 | a write of two blocks and one of a single block after it that end, all done, with the first over the second |
| TierEarlyRun.FlatIffOneBlockWrites | src/common/AioCompletionImp.h:27-41 | whenever all is done the volume is the flat array after all requests, in every run, if and only if no write can cover two blocks |
| TierSubmit.LastHandOver | src/store/DataStoreRequest.h:25-28 | the last arrival finds all others waiting, writes exactly the request's blocks and leaves the rest alone |
| TierSubmit.SubmissionStepIsMerge | src/store/DataStoreRequest.h:77-114 | this is what writing the request's blocks from their buffers does |
| TierSubmit.MergeAndSubmit | src/store/DataStoreRequest.h:33-114 | merging in any order of arrival and submitting gives exactly the machine's next store |
| CacheChain.Map | src/core/policy/CachePolicy.cpp:119-353 | for every kind of request, whole or partial, in either mode, the chain built from its end is the sequence of operations that `ChainMeaning` shows to do what is meant |
| CacheChain.ChainMeaning | src/core/policy/CachePolicy.cpp:119-353 | every chain but that of a write that is partial or in read-only mode, if it finds the entry it was built for, does exactly what its request is meant to do to the bytes, the reads, the backend copy and the status, and leaves contents, status, lists and stored word in agreement |
| CacheChain.DroppedIsBlank | src/core/policy/CachePolicy.cpp:286-328 | an entry that is given back is blank, its status and its stored word cleared |
| CachePartial.PartialHit | src/core/policy/CachePolicy.cpp:219-231 | a partial write of a cached block stores the head of the cached block, laid over fresh memory, and copies all of it over the request's buffer, past the end of the fragment |
| CachePartial.PartialMiss | src/core/policy/CachePolicy.cpp:261-272 | one of an uncached block stores the request's bytes, laid over fresh memory that holds part of the backend's block at its head |
| CachePartial.PartialIsWrong | src/core/policy/CachePolicy.cpp:219-272 | for every partial write, memory contents for which the cached block is then wrong |
| CachePartial.WriteIsRightIff | src/core/policy/CachePolicy.cpp:193-275 | a write's chain leaves the block right, whatever memory held, if and only if it covers the whole block, or in read-only mode if and only if the block is not cached or nothing is written |
| CachePartial.ReadOnlyWrite | src/core/policy/CachePolicy.cpp:195-197 | in read-only mode a write reaches the backend and leaves the cached copy as it is |
| CachePartial.ReadOnlyIsWrong | src/core/policy/CachePolicy.cpp:195-197 | so a cached block keeps standing for its old bytes |
| CachePartial.PartialDiscardErases | src/core/policy/CachePolicy.cpp:309-328 | for every discard of part of a block, contents of which it erases a byte outside its range |
| CachePartial.DiscardIsRightIff | src/core/policy/CachePolicy.cpp:309-328 | a discard spares the bytes outside its range, whatever they are, if and only if it covers the whole block |
| CacheBlock.RanKeeps | src/core/BlockOp.h:32-84 | an operation keeps a block's invariant |
| CacheBlock.MapKeepsHit | src/core/policy/CachePolicy.cpp:122-143 | mapping on a cached block keeps it: the queued chains will find the entry they were built for |
| CacheBlock.MapKeepsMiss | src/core/policy/CachePolicy.cpp:144-185 | so does mapping with an entry from the free list |
| CacheSteps.SteppedSelf | src/core/BlockOp.h:228-279 | an operation on the entry number fixed when its chain was built acts on the block's own entry |
| CacheSteps.SteppedOther | src/core/BlockOp.h:228-279 | and on nothing that belongs to another block |
| CacheOwners.SteppedOwned | src/core/BlockOp.h:396-466 | running an operation keeps every entry accounted for |
| CacheOwners.MappedOwned | src/core/policy/CachePolicy.cpp:144-160 | so does mapping |
| Cache.StepKeepsInv | src/core/HDCSCore.cpp:146-169 | mapping any request at any time and running any block's operation keep the invariant |
| Cache.FreshStarts | src/core/policy/CachePolicy.cpp:34-64 | an empty cache satisfies it |
| Cache.CacheHoldsLastWrite | src/core/policy/CachePolicy.cpp:122-347 | in every interleaving a block between chains holds the last write, in mapping order, it is through with, answered its reads accordingly, and if flushed equals the backend |
| Cache.BlockIsAsMeant | src/core/policy/CachePolicy.cpp:122-347 | at every step of a run a block between chains is, in its bytes, reads, backend copy and status, exactly what its requests are meant to make it, and its stored word and its lists say so |
| Cache.LastRequest | src/core/policy/CachePolicy.cpp:193-347 | what the last request of any sequence leaves in the backend and as status |
| Cache.OnlyDirtyDiffers | src/core/policy/CachePolicy.cpp:193-347 | only a dirty block differs from the backend, and with a dirty timeout of zero none is dirty |
| Cache.LastWriteReachesBackend | src/core/policy/CachePolicy.cpp:193-347 | in every interleaving: after the flush of a cached block, or a write with a dirty timeout of zero, the last write is in the backend and the block is flushed and in the clean list; after a demote it is in the backend and the block not cached; after a discard the backend is erased; after another write the block is in the dirty list |
| Cache.EntriesAreConserved | src/core/policy/CachePolicy.cpp:144-328 | at every step each entry is free, in one block, or on its way back from one block, and only one of these |
| Cache.ListsFollowStatus | src/core/BlockOp.h:396-432 | a block with no chain running is in the dirty list exactly when unflushed, in the clean list exactly when flushed, and in one of them exactly when cached |
| CacheRecency.UseIsNextToLast | src/core/BlockOp.h:396-432 | a block is used exactly once by each read, write and flush of it, right before the completion |
| CacheRecency.DropIsLate | src/core/BlockOp.h:401-404 | an entry is dropped exactly once by each demote and discard of a cached block |
| CacheRecency.ListsByUse | src/core/BlockOp.h:396-432 | in every run the clean and the dirty list are in order of use and the free list in order of dropping, the latest first |
| CacheRecency.MissTakesLatest | src/core/policy/CachePolicy.cpp:144-160 | so a miss takes the free entry that was dropped last |
| Cache.AfterIsLastWrite | src/core/policy/CachePolicy.cpp:193-275 | the reference semantics is last write wins |
| CacheList.MoveKeepsInv | src/core/HDCSCore.cpp:130-144 | arrivals, the visits of a pass and block work in any interleaving keep the invariant |
| CacheList.MoveKeepsOrder | src/core/HDCSCore.cpp:136-143 | and, unless a request arrives for a block that is being discarded and has another in the list, they keep the list in step with the order of arrival |
| CacheOrder.ArrivalOrderKept | src/core/HDCSCore.cpp:130-144 | in every run without such an arrival, requests are mapped to each block in the order in which they arrived |
| CacheOrder.CacheHoldsLastArrived | src/core/HDCSCore.cpp:130-144 | in such a run a block between chains holds the last write, in arrival order, of the requests it is through with, and its reads got these bytes; with nothing left to do, these are all that arrived |
| CacheOrder.HeldUntilArrival | src/core/HDCSCore.cpp:136-143 | between passes a request held in the list stays there, whatever the blocks do, until another request arrives |
| CacheRead.DeliveredSoFar | src/core/BlockOp.h:103-120 | also in the middle of a chain a block has delivered the answers to all reads it is through with |
| CacheRead.ReadReturnsArrived | src/core/BlockGuard.h:68-81 | in every run without such an arrival, once all its blocks are through with a read, its buffer, filled from what they delivered, is the range of the volume as all that arrived before it leaves it |
| CacheOvertake.Overtakes | src/core/HDCSCore.cpp:136-143 | a request that arrives for a block being discarded can be mapped before an older one of it |
| CacheOvertake.OrderKeptIff | src/core/HDCSCore.cpp:130-144 | between passes, with room in the cache: requests that now arrive are mapped in order in every interleaving if and only if none finds its block being discarded and an older one of it held |
| CacheOvertake.OlderWriteWins | src/core/policy/CachePolicy.cpp:286-308 | a run of a write, the demote of its block, two more writes and a read that ends, all done, with the older of the two in the block and in the answer |
| CacheCode.CachePolicy.constructor | src/core/policy/CachePolicy.cpp:26-64 | on an unused store: all entries on the free list in rising order, the volume seen as the backend |
| CacheReload.ReadWords | src/core/policy/CachePolicy.cpp:40-51 | the first loop notes for each entry number the block whose stored word names it |
| CacheReload.Load | src/core/policy/CachePolicy.cpp:34-66 | both loops: a cached block gets the mirror image of the entry its word names, the lists follow the stored status, and the other entries are free |
| CacheReload.RestartKeepsIff | src/core/policy/CachePolicy.cpp:34-66 | after a restart all blocks stand for what they did before, whatever the entries hold, if and only if none is cached but in the middle entry |
| CacheReload.RestartStarts | src/core/policy/CachePolicy.cpp:34-66 | under that condition the loaded state is one from which runs may start, standing for what was stored, so the results on runs hold across a restart |
| CacheReload.RunLeavesWords | src/core/policy/CachePolicy.cpp:34-66 | what a run leaves in the store, its work done, is what loading expects |
| CacheReload.RunRestarts | src/core/policy/CachePolicy.cpp:34-66 | so after any run and a restart under that condition each block stands for its last write of that run |
| CacheCode.CachePolicy.Map | src/core/policy/CachePolicy.cpp:79-353 | takes the entry, raises the flag, queues the chain, exactly as specified, and keeps the invariant |
| CacheCode.CachePolicy.Send | src/core/BlockOp.h:49-523 | runs one operation exactly as specified and keeps the invariant |
| Lru.WithoutSound | src/common/LRU_Linklist.h:123-151 | removal takes out that key only and keeps the keys distinct |
| Lru.TouchedSound | src/common/LRU_Linklist.h:87-121 | touching adds at most that key and keeps the keys distinct |
| Lru.LruList.constructor | src/common/LRU_Linklist.h:34-38 | an empty list |
| Lru.LruList.GetHead | src/common/LRU_Linklist.h:48-54 | the most recently used key |
| Lru.LruList.GetKeys | src/common/LRU_Linklist.h:56-85 | the asked number of keys from either end |
| Lru.LruList.TouchKey | src/common/LRU_Linklist.h:87-98 | the key is first, the others keep their order; links, ends, length and key map agree |
| Lru.LruList.MoveToFront | src/common/LRU_Linklist.h:100-121 | the relinking moves that node to the front |
| Lru.LruList.Remove | src/common/LRU_Linklist.h:123-131 | the key is gone, the others keep their order |
| Lru.LruList.RemoveNode | src/common/LRU_Linklist.h:133-151 | the same on the node |
| Lru.LruList.Insert | src/common/LRU_Linklist.h:153-170 | a new key comes first |
| Queue.Block.BuildChain | src/core/policy/TierPolicy.cpp:47-49 | a linked chain of fresh nodes, its end the completion |
| Queue.Block.MapBlock | src/core/HDCSCore.cpp:146-169 | the chain starts a worker if none runs and otherwise goes behind the last node |
| Queue.Block.RunOp | src/core/BlockOp.h:32-42 | an operation runs and sends the next |
| Queue.Block.CompleteOp | src/core/BlockOp.h:61-70 | the completion finishes its request; the flag falls exactly when no request is left |
| Queue.Block.Return | src/core/BlockOp.h:72-82 | the callback is made once, then the next chain is sent |
| Queue.Block.Guarantees | src/core/HDCSCore.cpp:146-169 | at most one chain runs; in_process holds exactly when requests are unfinished; block_ops_end is the last node; what ran is a prefix of what was mapped; at rest every operation ran once, in order, with every callback made |
| Queue.Interleave | src/core/HDCSCore.cpp:146-169 | every interleaving of mapping and thread steps keeps this |

## Left out

- Straw buckets' `crush_calc_straw` (floating point), `crush_find_roots`, and the concrete values of the hash and logarithm tables.
- Tree buckets' growing add, list buckets' remove, and the reweight functions.
- CrushMaps.WellFormed: only acyclic maps with ids in range are placed on; the mapper's checks against malformed ids are kept in the searches but their branches add nothing here.
- Firstn.FirstnSound: ranks, failure counts and try counts are unbounded integers, so 32-bit wrap-around after billions of tries is not modelled; the histogram of tries is dropped.
- FirstnCode.ChooseFirstn: the output vectors are sequences that grow, not arrays shared with the recursive call.
- IndepCode.ChooseIndep: the output vectors are values, not arrays shared with the recursive call.
- FirstnExact.SearchIsFirst: takes no local retries and no fallback, as in HDCS's tunables; `Fallback` has the results on these, exact within a bucket and for flat buckets.
- Perm.PermChoose: ranks are natural numbers; a negative rank in the source wraps as unsigned before the remainder.
- DomainMap.HDCSDomainMap.constructor: takes names of at least five characters; on a shorter one the source throws, which `DomainMap.Serve` models.
- DomainMap.HDCSDomainMap.Run: the source aborts beyond 65535 hosts.
- TierChain.ChainMeaning: flushes and promotes go through the request's buffer, which the model drops; for a request of part of a block the source reads a whole block into that smaller buffer (src/core/BlockOp.h:512, src/core/policy/TierPolicy.cpp:167-170).
- Tier: discards in runs, replicas and I/O errors; the status word on disk is not separate from the status in memory.
- Tier.TierRefinesFlatArray: submission is one step with the last arrival (`TierEarlyRun.FlatIffOneBlockWrites` has it as two), blocks are promoted before use and not while dirty (`TierFlat.AgreesIff`), and a write has at most 255 fragments (`Barrier.FiresAtLastIff`).
- TierProgress.AtomicWaitNoDeadlock: a wait is one step, unlike in the source; `TierLost.StuckIffTwoBlocks` is the result for the source's two.
- TierLost.StuckIffTwoBlocks: a condition variable does not wake up by itself, which the C++ standard would allow, and submission is one step with the last arrival.
- TierEarlyRun.FlatIffOneBlockWrites: what a submission writes is fixed at the last arrival; a partial write that passes early also frees the buffer its data is in.
- CacheChain.Map: the branches for an empty free list are not built, since the source takes the head of the list unchecked before it tests for one.
- CacheChain.ChainMeaning: takes whole-block writes in write-back mode only, since `CachePartial.WriteIsRightIff` shows which others are right; so do the runs of the cache machine. A discard is meant to erase the whole block, as the code does; `CachePartial.DiscardIsRightIff` has the condition for sparing the rest.
- CacheCode.CachePolicy.Map: takes whole-block writes in write-back mode only, as above, and a miss needs a free entry, since the source takes the head of the free list unchecked.
- CacheCode.CachePolicy.constructor: is the start on an unused store; the start on a used one is `CacheReload.Load`.
- CacheOvertake.OrderKeptIff: the direction from order to condition is shown where every fragment in the list finds a free entry; without one a pass does not go on.
- Cache: timers, and runs in read-only mode with writes (`CachePartial.ReadOnlyIsWrong`).
- Queue: I/O errors, which stop a chain and leave the block in process.
- Networking, heartbeat, configuration, the stores' engines and the managers.
