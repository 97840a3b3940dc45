# Spanning-tree collection with link-quality ratings, in Dafny

This project models one device's round of the FCPP aggregate program in
`lib/case-study.hpp`. Each round a device does the following:

- It runs three link-quality estimators. `uniConnection` counts the rounds each
  neighbour has been seen. `biConnection` counts confirmed two-way exchanges.
  `oldNbrConnection` keeps a local counter seeded from half of what the
  neighbour advertises.
- It runs `sp_collection_mod` once per estimator. Each run picks a next hop
  toward the source by the least `(distance, -rating, uid)`. It keeps the old
  parent while the parent's decayed rating (`rating*0.8`) still beats the best
  rival. It sums the values advertised by the neighbours that chose this device
  as their parent.
- It updates its node storage in place: source flag, battery level, parent,
  parent rating, rating field and alert counters. The battery level moves
  LOW/MEDIUM/HIGH one step per round and is pinned to HIGH at the source.

Modules:

- `Fields` (fields.dfy) defines fields as maps from device id to value over the
  round's domain, which is the neighbours plus the device itself. It models
  `mod_other`, the `nbr` view, and `fold_hood` as a fold in increasing id order.
  It proves the fold does not depend on that order when the combining function
  is a commutative monoid.
- `Estimators` (estimators.dfy) holds the three estimators as functions, and
  runs of them over several rounds.
- `Collection` (collection.dfy) holds candidate selection, the hysteresis rule
  (with `int` ratings truncated after `*0.8`) and the `sp_collection_mod` step.
- `Battery` (battery.dfy) holds the battery state machine.
- `Device` (device.dfy) holds the whole aggregate round as a function
  (`AggregateRound`). It also holds the class `Node`, whose fields are the node
  storage the main program writes.
- `Node.Round` runs one round of the main program. Its inputs are:
  - the neighbours' last exports;
  - the device's distance to the source;
  - the outcomes of the two battery draws.

## Model

| member | source | states |
|---|---|---|
| Fields.ModOther | lib/case-study.hpp:120 | `mod_other(CALL, 1, 0)` is the own value at the device itself and the other value at every neighbour |
| Fields.NbrAt | lib/case-study.hpp:126 | the `nbr` field at a neighbour is the entry that neighbour exported for this device (the default where it exported none); at the device itself it is its own last export |
| Fields.FoldHoodSplitsSelf | lib/case-study.hpp:151 | for a commutative monoid, `fold_hood(..., value)` is `accumulate(value, fold over the neighbours alone)` |
| Fields.FoldOrPeel | lib/case-study.hpp:151 | for an associative, commutative `accumulate` with neutral `null`, any entry can be folded first, so the result of `fold_hood` does not depend on enumeration order |
| Fields.FoldOrDropsNeutral | lib/case-study.hpp:151 | entries equal to `null` (the `mux` else-branch) do not change the fold |
| Fields.FoldOrCongruent | lib/case-study.hpp:151 | the fold reads only the entries of its domain |
| Estimators.UniConnection | lib/case-study.hpp:118-122 | the result is defined on exactly the neighbours and self; each neighbour gets its previous counter (0 if absent) plus 1; self keeps its previous value plus 0 |
| Estimators.UniConnectionCountsRounds | lib/case-study.hpp:118-122 | a neighbour seen in every one of k rounds gains exactly k |
| Estimators.UniConnectionResetsAfterAbsence | lib/case-study.hpp:118-122 | after a round in which a neighbour was absent, its counter equals the number of rounds seen since, whatever it was before |
| Estimators.UniConnectionKeepsSelf | lib/case-study.hpp:118-122 | the device's own entry never changes (it stays 0 from the initial field) |
| Estimators.UniConnectionNonNegative | lib/case-study.hpp:118-122 | counters never go negative over any run of rounds |
| Estimators.BiConnection | lib/case-study.hpp:125-129 | each neighbour's counter is what it last advertised for this device plus 1, or 1 when it never exported; self keeps its own last export plus 0; the domain is exactly neighbours plus self |
| Estimators.BiConnectionNonNegative | lib/case-study.hpp:125-129 | non-negative own and advertised counters give non-negative counters |
| Estimators.BiConnectionCountsBothWays | lib/case-study.hpp:125-129 | two devices linked for k synchronised rounds each hold k for the other and 0 for themselves |
| Estimators.OldNbrConnection | lib/case-study.hpp:132-139 | the returned rating is the advertised field `n`; the stored counter is `n/2 + 1` where the local counter is exactly 0 and `o + 1` otherwise; self keeps `o` |
| Estimators.OldNbrSeedsThenCounts | lib/case-study.hpp:132-139 | a neighbour seen every round from no local counter is seeded at half its first advertisement plus one and then gains exactly one per round |
| Estimators.OldNbrResetsAfterAbsence | lib/case-study.hpp:132-139 | a neighbour absent from the previous domain is seeded afresh from its advertisement |
| Estimators.OldNbrNonNegative | lib/case-study.hpp:132-139 | with non-negative inputs the state and the rating stay non-negative, and every neighbour's counter is at least 1 |
| Collection.NbrDistance | lib/case-study.hpp:145 | `nbr(CALL, distance)` is the neighbour's last exported distance, and the device's current distance at itself and where none arrived |
| Collection.CandidateKey | lib/case-study.hpp:145 | a candidate's key is (its `nbr` distance, minus its rating, its uid) |
| Collection.MinOver | lib/case-study.hpp:145 | the `min_hood` result is the key of some id in the domain and is `<=` every key of the domain |
| Collection.BestCandidate | lib/case-study.hpp:145-147 | the best candidate is in the neighbourhood including self, carries its own key, and is lexicographically least under (distance, -rating, uid) |
| Collection.BestCandidateIsUnique | lib/case-study.hpp:145-147 | any candidate whose key is least is the best candidate (the order has no ties) |
| Collection.BestCandidateBeatsOthers | lib/case-study.hpp:145-147 | every other candidate is farther, or as far with a lower rating, or as far with an equal rating and a higher uid |
| Collection.BestCandidatePrefersReached | lib/case-study.hpp:145-147 | while any candidate has a finite distance, the best candidate has a finite distance |
| Collection.TruncateToInt | lib/case-study.hpp:153 | the conversion of `rating*0.8` back to an `int` R truncates toward zero |
| Collection.Evolve | lib/case-study.hpp:153 | `rating*0.8` is exact for real ratings; for int ratings it is truncated: non-negative, at most `rating*0.8`, and within 1 of it |
| Collection.Hysteresis | lib/case-study.hpp:153-167 | the best candidate is adopted iff it is the old parent or its rating reaches the decayed rating (equality switches); otherwise the old parent is kept with the decayed rating; the new rating is never below the best rating |
| Collection.HysteresisThreshold | lib/case-study.hpp:155 | from a rating of 1.0, a rival at 0.79 does not displace the parent, while 0.8 and 0.81 do |
| Collection.RetainedRounds | lib/case-study.hpp:153-160 | while every round's best candidate is a rival below the decayed threshold, the parent is kept and its rating is decayed once per round |
| Collection.DecayedReal | lib/case-study.hpp:153 | a real rating retained k rounds is `rating * 0.8^k` |
| Collection.DecayedInt | lib/case-study.hpp:153 | an int rating retained k rounds stays between 0 and `rating * 0.8^k` |
| Collection.DecayedShrinks | lib/case-study.hpp:153 | a positive real rating shrinks strictly with every retained round and stays positive |
| Collection.InitialExport | lib/case-study.hpp:143 | the initial tuple is `(null, 0, own uid)` |
| Collection.NbrExport | lib/case-study.hpp:143 | the field `x` is the device's own previous tuple at itself, a neighbour's exported tuple, or the initial `(null, 0, own uid)` where the neighbour exported none |
| Collection.Contributions | lib/case-study.hpp:151 | the `mux` field is defined on exactly the neighbours and self |
| Collection.Children | lib/case-study.hpp:151 | the children are neighbours that exported a tuple, and never the device itself |
| Collection.SpCollectionMod | lib/case-study.hpp:141-177 | the new parent is the best candidate iff the best candidate is the old parent or its rating reaches the decayed one; otherwise the old parent is kept with the decayed rating; the rating is never below the best rating |
| Collection.SpCollectionFoldsChildren | lib/case-study.hpp:151 | the collected value is `accumulate(value, fold of the children's aggregates)`, over exactly the neighbours whose advertised parent is this device, in any order |
| Collection.Add | lib/case-study.hpp:274-276 | `adder` returns the sum of its two arguments |
| Collection.AddIsCommutativeMonoid | lib/case-study.hpp:274-276 | `adder` with 0 is a commutative monoid |
| Collection.SpCollectionSumsChildren | lib/case-study.hpp:288-290 | with `adder` and null 0, the collected value is the own value plus each child's aggregate |
| Collection.SpCollectionTwoChildren | lib/case-study.hpp:288-290 | a source with own value 1 and two children advertising 2 and 3 collects 6 |
| Collection.FirstRoundAdoptsBest | lib/case-study.hpp:143-167 | from the initial tuple and with non-negative ratings, the device adopts the best candidate and its rating |
| Battery.BatteryStep | lib/case-study.hpp:195-230 | an increase moves LOW to MEDIUM to HIGH and saturates at HIGH; otherwise a decrease moves HIGH to MEDIUM to LOW and saturates at LOW; the level moves by at most one step; any other level is unchanged; a valid level stays valid |
| Battery.BatteryRound | lib/case-study.hpp:195-239 | at the source the level is then forced to HIGH; elsewhere it is the step |
| Battery.BatteryRunStaysInRange | lib/case-study.hpp:195-239 | starting from a valid level, the level stays LOW, MEDIUM or HIGH for any sequence of draws |
| Battery.BatteryRunMovesSlowly | lib/case-study.hpp:195-230 | over k rounds the level of a non-source device moves by at most k |
| Battery.BatteryRunCharges | lib/case-study.hpp:195-210 | increase draws alone raise the level one step per round up to HIGH and keep it there |
| Device.Estimate | lib/case-study.hpp:280-282 | at each neighbour: the uniConnection counter is one more than before, the biConnection counter is one more than the neighbour's advertised count for this device, and the rating is the neighbour's advertised oldNbrConnection counter |
| Device.EstimateDomains | lib/case-study.hpp:280-282 | after a round, all three estimator fields are defined on exactly the neighbours plus self |
| Device.EstimateNonNegative | lib/case-study.hpp:280-282 | the estimator round keeps every counter and the oldNbrConnection rating non-negative when the neighbours' advertisements are |
| Device.AggregateRoundParents | lib/case-study.hpp:278-290 | in the aggregate round (`AggregateRound`: the estimators, then one `sp_collection_mod` per estimator), each of the three trees' parents is a device of the current domain or the previous parent |
| Device.AggregateRoundCounts | lib/case-study.hpp:274-290 | in the aggregate round (`AggregateRound`), each of the three trees collects 1 plus the sum of the aggregates of exactly the neighbours that chose this device in that tree |
| Device.RatingsNonNegative | lib/case-study.hpp:145-146 | with a non-negative rating field, the best candidate's rating is non-negative |
| Device.AggregateRoundRatingsNonNegative | lib/case-study.hpp:278-290 | when the estimator state and the neighbours' advertisements are non-negative, each of the three trees' parent rating is non-negative after the round |
| Device.Node.constructor | lib/case-study.hpp:191-192 | a new device starts with the initial `old`/`nbr`/`oldnbr` values, is the source iff its uid is 0, and has parent 0 and every rating and alert counter at 0 |
| Device.Node.UpdateBattery | lib/case-study.hpp:195-230 | the stored battery level becomes the battery step of the old level |
| Device.Node.SwitchBattery | lib/case-study.hpp:191-239 | `node_source` is set to uid == 0, then the level becomes the step, forced to HIGH at the source |
| Device.Node.StoreParent | lib/case-study.hpp:173-174 | `node_parent` and `node_rating_parent` become the computed parent and rating |
| Device.Node.Commit | lib/case-study.hpp:191-303 | the storage after a round: battery and source as above; parent and parent rating from the oldNbrConnection tree, the last of the three writes; the three alert counters; `node_rating`; the source alert counters at the source only, unchanged elsewhere |
| Device.Node.Round | lib/case-study.hpp:191-303 | one main-program round: the threaded state is `AggregateRound` of the old one, and the storage is as in `Commit` for that round |

## Left out

- FCPP library internals are not modelled. The field primitives (`old`, `nbr`, `oldnbr`, `mod_other`, `min_hood`, `fold_hood`, `mux`, `self`) are written out as maps with explicit defaults. A neighbour's counter that left the domain reads 0 when it returns. FCPP's own propagation of a field's default value through arithmetic is not modelled.
- `fold_hood` enumerates the domain in increasing id order. FCPP's actual order is not part of this model. The order-independence lemmas cover `adder`.
- `real_t` is modelled as an exact `real`. Floating-point rounding, for example of `0.8` or `n/2`, is not modelled. An `int` rating R is truncated explicitly after `*0.8`. Values of R are carried as reals in the threaded tuple and in `ratingParent`.
- `coordination::abf_distance` is not part of this model. The distance is an input: `Finite(x)` or the `Infinite` sentinel.
- The classic `coordination::sp_collection` and the two `classic` alert counters it feeds are not part of this model.
- The sleep/power ratio table, the colour, size and shape storage writes and the connector data (lines 186-188, 232-272) are visualisation and simulator data, so they are left out.
- `node.next_real` randomness is replaced by the two boolean outcomes of the draws.
- Scheduling, network delivery, neighbour expiry and network-wide convergence are left out. One device's round takes the neighbour view as an input.
- The `option` namespace, the run/ entry points and `std::cout` are simulator configuration and output, so they are left out.
- Device.AggregateRoundParents: a kept parent may have left the current domain. The model keeps it, as the code does, and the lemma states only "in the domain or the previous parent".
- Collection.BestCandidate: when every candidate is at infinite distance, the code still picks by rating and then uid, and the model follows the code. A device that is not yet reached therefore does not fall back to itself as parent.
- Collection.NbrDistance: the one-argument `nbr(CALL, distance)` at line 145 is read as each neighbour's last exported distance and, at the device itself, its current distance. A neighbour whose distance has not arrived also reads the current distance. The library's own convention for the self entry is not part of this model. By contrast, the `nbr`/`oldnbr` calls with an update function (`Fields.NbrAt`, `Collection.NbrExport`) use the device's previous export at itself.
- Collection.InitialExport: the code starts the tuple with aggregate `null`, not the device's own value. The model follows the code.
- Estimators.BiConnection: the lambda's parameter is `field<real_t>` over an `int` field. Integer counters convert both ways without loss, so the model keeps them as `int`.
- Device.Node.Commit: the main program writes `node_parent` and `node_rating_parent` once per `sp_collection_mod` call. The model performs all three writes in source order, so only the oldNbrConnection tree's values remain.
