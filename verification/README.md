# Jamswap off-chain builder: verified model

Jamswap's builder collects public and sealed orders, plans a bounded batch auction, clears it at
one uniform price and submits it to the chain as a *round*. It then follows that round through
landing, re-orgs, release and late landing. This project models that machinery in Dafny and proves
what it is meant to guarantee. It also covers the codecs, the WebSocket reader, the order telemetry
and the head alignment that stand beside it.

The model has three layers.

- Specification functions give each operation's meaning on values: the state of a market, a plan,
  a stream of octets, a log.
- Methods and classes carry the operations out as the builder does, with loops and fields updated
  in place. Each is proved equal to its specification function.
- Lemmas prove what the specification promises, over every input, every run or every reachable state.

`dafny verify dfyconfig.toml` checks the whole project.

## Main results

- Over every run of a market, an accepted order that has not ended is in exactly one custody
  (queued, waiting to be re-sealed, in flight, or held by a sighted round), no order incarnation is
  settled twice, rounds settle whole, and sealed quantity is conserved over any number of carries
  (`LifecycleRuns`). Orders may be placed and re-seals retried while a build is under way, and the
  reads of a round's own landing and finality may fail.
- On any chain, and whichever of those reads fail, a round is settled only after two readings with none to the
  contrary between them, and given up only after being dead throughout its confirmation period or
  overdue.
- An order that has ended is queued or sent again only if, after it ended, a late-landed round that
  carried it reverted; otherwise never (`LifecycleEnded`).
- A retry that a settlement overlaps loses an order exactly when a re-seal was waiting and the chain
  refuses one of that settlement's re-seals (`LifecycleOverlaps`).
- A sweep that ends at a failing read of a rival round is followed by a second settlement of an order
  exactly when the next sweep finds landed and confirmed a round that the first one had settled
  (`LifecycleHalts`).
- The round a build sends is one the service can settle, whatever pricing, floors, a late landing
  and new arrivals do to the batch that was planned; a build that fails gives its orders back in
  queue order (`LifecycleSends`). No build sends an account's newer public order and leaves behind an
  older one that a round could carry (`LifecycleTurns`).
- Claiming a late landing and giving it back undo each other exactly under a stated condition.
- The clearing price is optimal over all prices, rationing is exact and fair, and clearing is
  complete: the residue never crosses.
- Hiding sealed orders that cannot trade changes nothing in the clearing; the capped planner
  reaches a fixed point within its bounded passes and loses no order. A public order that fits waits
  only for want of room for an order that is public, or sealed, ready and matched.
- The sequence discipline keeps a largest acceptable round.
- The codec readers accept exactly what the writers write; the round trips hold exactly when the
  prerequisites are in order.
- A WebSocket message is returned exactly when a well-formed fragmented message stands in the
  stream, however it is masked, chunked or interleaved with pings.
- The live order table and the replay of its log agree exactly under a stated condition on expiries.
- The live tallies equal the verdict's exactly when every cleared order was marketable and no missed
  order was cancelled.
- Nodes show one head exactly when their chains agree up to the common slot, and a sample of the
  network is judged good exactly when all nodes are up, close together and of one chain.

## Modules

- `Sequences`, `Orders`: filters, sums, permutations, a stable sort; orders and their keys.
- `Clearing`, `ClearingTheorems`: the uniform-price auction.
- `Planning`, `PlanningTheorems`: which queued orders clear, and the capped batch.
- `BatchCap`, `BatchCapTheorems`: the capacity policy. `SeqDiscipline`: the per-account sequence rule.
- `Lifecycle`: one market as a transition system. `LifecycleInvariants` states what every step
  keeps; `LifecycleReceipts`, `LifecycleSettling`, `LifecycleClaims`, `LifecycleSweeps`,
  `LifecycleReleases`, `LifecycleQueues` and `LifecycleBuilds` prove it operation by operation;
  `LifecycleSightings` and `LifecycleDeadlines` follow the looks that lead to a settlement or a
  release, `LifecycleProgress` shows that durable landings do settle, `LifecycleSends` what a build
  sends or gives back, and `LifecycleRuns` states the theorems over whole runs. `LifecycleEnded`
  says when an ended order comes back, `LifecycleOverlaps` when an overlapped retry loses one,
  `LifecycleHalts` when a sweep cut short leads to a second settlement, and `LifecycleTurns` what a
  build does for an account's older orders. `LifecycleScenes` works out small markets step by step;
  `LifecycleReversal`, `LifecycleUnread`, `LifecycleRevival`, `LifecycleOverlaps` and
  `LifecycleHaltedRuns` make of them the runs in which an assumption fails or such a thing happens.
  `Market` is the market as a class.
- `NatCodec`, `WorkPackages`, `PackageReader`: the Gray Paper 0.8.0 work-package codec.
- `Frames`, `WebSockets`: RFC 6455 frames and messages.
- `Telemetry`: the live order table against the replay of its own log.
- `HeadAlignment`: one head or several, over a block tree, and the judgement of a sample.

## What is assumed

The lifecycle theorems hold for every interleaving of placements, re-seal retries, resolver sweeps
and builds, over a chain that may re-org at will. A sweep and a build exclude each other, as they do
under the market lock. A placement or a retry takes no market lock, so a build lets any number of
them fall in at three points: before it takes its batch, before its second look, and after it.

Apart from that each step is taken to run alone, and the code does not enforce this everywhere.

- A placement appends under the mempool's own lock (offchain/server.py:825-827), so it may also fall
  between the mempool accesses of one look or of the end of a build; those finer points are not modelled.
- A retry (offchain/server.py:1206-1230) is one step here. In the code a settlement inside a build may
  append a re-seal (offchain/server.py:1197) after the retry's loop and before its result is written back.
  `OverlappedDrain` states what happens then: an order is lost if and only if a re-seal was waiting
  already, so that the retry visits the market at all, and the chain refuses one of the settlement's
  re-seals. `OverlapLoses` gives a run. The run theorems assume that this does not happen.

A look at the chain is a set of landed round ids plus the finalized ones among them, and the rounds
whose landing or finality could not be read when their turn came; everything else about the chain is
arbitrary. Three things are assumed of it, and they are preconditions of the run-level lemmas that
need them:

- In one look, no two landed rounds share an order incarnation (`Consistent`).
- A round that was settled stays: no later look shows another round landing one of its orders
  (`Durable`).
- A failed read hides no reversal: a sighted round that could not be read is still landed (`Readable`).

One sweep's reads come from one look, which is one parameter of the sweep. The reads of rival rounds
(offchain/server.py:1398-1404) are taken to succeed: in the code a failing one ends the sweep half way
and leaves listed the rounds it had dropped. `HaltedSettlesTwiceIff` states exactly when the next sweep
then settles an order twice, and `RivalReadsAreNeeded` gives a run.

`DurabilityIsNeeded` shows that the second is needed, by runs in which every look is consistent and
an order is settled twice. `ReadsAreNeeded` shows that the third is, by runs in which every look is
consistent and durable, two rounds come to hold one order, and the round that lands is dropped without
a receipt. A build additionally relies on the book holding no sealed order's oid
(`BookApart`): a sealed order never rests there. The theorems on sightings and releases
(`SettledAfterTwoSightings`, `ReleasedOnlyWhenDue`) need none of these. That the round sent keeps
within its limits rests on an order's gas not depending on its price (`PriceBlind`), as
offchain/server.py:1145-1148 computes it.

A round id is the hash of the exact payload, so it fixes the orders the round carries: `RoundId`
holds that set and a number standing for the rest of the payload. Times are integers. Postings
that the chain may refuse (`refused`), finality reads, the price and floor reads, the book and the
point where a build fails are parameters.

Where the code and its comments differ the model follows the code. In particular the live
telemetry keeps the last non-empty expiry of a resting order while the replay uses the last rest's
expiry; `StaleIsStuck` gives the exact condition under which the two agree, and `ExpiryForgotten`
an order on which they do not.

## Model

| member | source | states |
|---|---|---|
| Clearing.ClearBatch | offchain/clearing.py:19-64 | the best-price loop and the two rationing loops compute the specified clearing |
| Clearing.RationQueue | offchain/clearing.py:53-62 | the rationing loop hands the volume down the queue exactly as specified |
| ClearingTheorems.SelectIsBest | offchain/clearing.py:31-42 | the selection keeps the best candidate: most volume, then least imbalance, then lowest price |
| ClearingTheorems.QuotedDominates | offchain/clearing.py:23-32 | no price between quoted ones trades more than some quoted price |
| ClearingTheorems.ClearPriceOptimal | offchain/clearing.py:23-42 | the volume is the maximum of min(demand, supply) over all prices; ties go to least imbalance, then lowest price |
| ClearingTheorems.ClearingPriceUnique | offchain/clearing.py:31-42 | that rule picks one price and one volume |
| ClearingTheorems.ClearIsClearing | offchain/clearing.py:19-64 | the result is the optimal price with each side rationed in price-time order |
| ClearingTheorems.RationShare | offchain/clearing.py:53-62 | an order gets its slice of the volume after everything queued ahead of it |
| ClearingTheorems.RationTotal | offchain/clearing.py:53-62 | a queue receives the smaller of what is offered and what it asks for |
| ClearingTheorems.FillIsDue | offchain/clearing.py:44-64 | every fill equals what price-time priority entitles the order to |
| ClearingTheorems.FillWithinLimits | offchain/clearing.py:44-64 | no order exceeds its quantity or trades through its limit |
| ClearingTheorems.RationingFair | offchain/clearing.py:44-64 | an order not fully filled implies a zero fill for every order it outranks |
| ClearingTheorems.RationingExact | offchain/clearing.py:44-64 | filled buys and filled sells each sum to the volume |
| ClearingTheorems.CrossingPairTrades | offchain/clearing.py:25-32 | a crossing pair makes a positive volume possible |
| ClearingTheorems.ResidueUncrossed | offchain/clearing.py:31-64 | after clearing no buy remainder is priced at or above a sell remainder |
| ClearingTheorems.ClearingIsComplete | offchain/clearing.py:31-64 | clearing the residue again trades nothing |
| ClearingTheorems.SameBookSameClear | offchain/clearing.py:19-64 | two books with the same demand, supply and queues clear alike |
| ClearingTheorems.ClearOrderIndependent | offchain/clearing.py:19-64 | with unique oids the result is the same for every permutation of the input |
| Planning.PlanRoundLoop | offchain/round.py:99-156 | the planner's two passes compute the specified plan |
| Planning.PlanBatchLoop | offchain/round.py:162-212 | the bounded iteration over passes computes the specified batch plan |
| PlanningTheorems.CrossesIffMatch | offchain/round.py:81-96 | the best-opposing-price test decides exactly whether a counterparty exists |
| PlanningTheorems.PlanRoundMember | offchain/round.py:99-156 | for each list of the plan, exactly which orders are in it |
| PlanningTheorems.ShownHasCounterparty | offchain/round.py:99-156 | every revealed order has a counterparty among what is submitted |
| PlanningTheorems.ShownTrades | offchain/round.py:39-48 | a batch holding an order with a counterparty clears a positive volume |
| PlanningTheorems.HidingIsNeutral | offchain/round.py:39-48 | leaving out orders without a counterparty changes no price, volume or fill |
| PlanningTheorems.PlanningIsNeutral | offchain/round.py:126-156 | clearing all ready liquidity equals clearing only what the plan reveals |
| PlanningTheorems.SubmittedClearsAlike | offchain/round.py:126-156 | the batch in the order it is submitted clears the same |
| PlanningTheorems.PassKeepsPrevious | offchain/round.py:182-208 | each pass keeps the previous pass's reveals and public orders |
| PlanningTheorems.ProvenNotStuck | offchain/round.py:182-208 | a pass over proven reveals only has none stuck |
| PlanningTheorems.PassesSettle | offchain/round.py:182-208 | the last pass executed never has a stuck sealed order, and draws only on the sealed orders the passes began with, for any safe policy |
| PlanningTheorems.PlanBatchSettles | offchain/round.py:162-212 | the batch plan is a stuck-free refill, and only sealed orders that are ready and matched ever compete for its room |
| PlanningTheorems.BatchShownHasCounterparty | offchain/round.py:162-212 | every order the capped plan reveals has a counterparty in the book or the batch |
| PlanningTheorems.BatchShownTrades | offchain/round.py:162-212 | a capped plan that reveals anything clears a positive volume |
| PlanningTheorems.PlanBatchPartitions | offchain/round.py:194-212 | each pending order lands in exactly one of the six lists |
| BatchCap.CollectSlots | offchain/server.py:925-928 | the positions each account's public orders hold |
| BatchCap.DealAccount | offchain/server.py:930-932 | one account's orders dealt oldest first into the positions it holds |
| BatchCap.DealQueue | offchain/server.py:925-932 | the whole re-dealt queue |
| BatchCap.CapBatch | offchain/server.py:910-945 | the capacity loop computes the specified batch and overflow |
| BatchCapTheorems.DealInTurn | offchain/server.py:925-932 | in the dealt queue every account's public orders come lowest seq first |
| BatchCapTheorems.DealPermutes | offchain/server.py:925-932 | dealing is a permutation |
| BatchCapTheorems.DealWithout | offchain/server.py:925-932 | taking sealed orders out commutes with dealing |
| BatchCapTheorems.WalkIsPrefix | offchain/server.py:933-943 | the batch is a prefix of the orders some round could carry, and it stops only at a full limit |
| BatchCapTheorems.BatchWithinLimits | offchain/server.py:933-943 | count, gas and sealed limits hold of every batch |
| BatchCapTheorems.CapLosesNothing | offchain/server.py:910-945 | batch plus overflow is a permutation of the input |
| BatchCapTheorems.OlderGoesFirst | offchain/server.py:910-945 | with a newer public order batched, the account's older one is batched if and only if a round could carry it |
| BatchCapTheorems.CapPolicyIsSafe | offchain/server.py:910-945 | the cap is a safe policy: removing sealed candidates never drops an admitted order |
| BatchCapTheorems.UnstuckIsWholeBatch | offchain/round.py:190-208 | a stuck-free plan submits its whole batch |
| BatchCapTheorems.NoStarvation | offchain/round.py:172-212 | a public order that fits waits only when the final batch has no room for some order it leaves out, which is public or sealed, ready and matched, as is everything in the batch |
| SeqDiscipline.Sanitize | offchain/server.py:865-890 | the sanitizer loop computes the specified kept and dead lists |
| SeqDiscipline.SanitizeIsExact | offchain/server.py:865-890 | kept passes the running-floor walk, uses every distinct seq above the floor once, and kept plus dead is the input, each dead order explained |
| SeqDiscipline.SanitizeIsMaximal | offchain/server.py:865-890 | no acceptable round made of these orders carries more of them |
| LifecycleReceipts.ReceiptOneKeeps | offchain/server.py:1158-1204 | one receipt, with its re-sealed remainder, keeps the whole invariant |
| LifecycleReceipts.ResealConserves | offchain/server.py:1158-1204 | a carried remainder conserves its order's quantity |
| LifecycleReceipts.ReceiptAllKeeps | offchain/server.py:1232-1261 | a round's receipts log exactly its orders, once each |
| LifecycleSettling.StandingUnclaimed | offchain/server.py:1232-1244 | a released round ready to settle has no order claimed by another |
| LifecycleSettling.LandingUnclaimed | offchain/server.py:1232-1244 | nor has the round in flight |
| LifecycleSettling.FinalizeKeeps | offchain/server.py:1232-1261 | finalizing receipts every order of the round and keeps the invariant |
| LifecycleSettling.FinalizeAdds | offchain/server.py:1158-1204 | a settlement queues only re-seals with new commitments, appends to the retry list if and only if one of them is refused, and ends only what it receipts |
| LifecycleSettling.ZombieFinalizes | offchain/server.py:1380-1383 | a released round that stood its confirmation is settled whole |
| LifecycleSettling.InflightFinalizes | offchain/server.py:1421-1424 | so is the round in flight |
| LifecycleClaims.ClaimKeeps | offchain/server.py:1318-1331 | a late landing takes its orders out of the queue and off every other record, keeping the invariant |
| LifecycleClaims.UnclaimKeeps | offchain/server.py:1333-1351 | a reverted late landing gives its orders back, unless in flight, held elsewhere or queued |
| LifecycleClaims.ClaimUndoneQueue | offchain/server.py:1318-1351 | claim then unclaim restores the queue, and the queued-or-in-flight set, if and only if a stated condition on the round's orders holds |
| LifecycleClaims.ClaimUndoneClean | offchain/server.py:1318-1351 | afterwards no record is claimed by the round and no round's own orders changed |
| LifecycleClaims.ClaimUndoneRecords | offchain/server.py:1318-1351 | a record's claims are restored if and only if none of the shared orders was already claimed |
| LifecycleClaims.ClaimUndoneWhenLive | offchain/server.py:1318-1351 | in a reachable state, a round none of whose orders ended restores the queued-or-in-flight set |
| LifecycleSweeps.ForgetKeeps | offchain/server.py:1366-1367 | forgetting an unsighted round keeps the invariant |
| LifecycleSweeps.SettledWhole | offchain/server.py:1232-1261 | a round is settled for all its orders or for none |
| LifecycleSweeps.MidwayForms | offchain/server.py:1353-1396 | each visit of the sweep keeps what holds half way through it |
| LifecycleReleases.ResolveZombiesKeeps | offchain/server.py:1353-1396 | a whole sweep over released rounds keeps the invariant, also with a build's orders in hand, and names what it took from them |
| LifecycleReleases.TrimForgetsOldest | offchain/server.py:1296-1301 | beyond the cap the oldest unsighted records are forgotten, no more than needed and never a sighted one |
| LifecycleReleases.AbandonKeeps | offchain/server.py:1280-1312 | releasing the round in flight keeps the invariant |
| LifecycleReleases.ResolveInflightKeeps | offchain/server.py:1406-1444 | judging the round in flight keeps the invariant on every branch |
| LifecycleReleases.SweepKeeps | offchain/server.py:1446-1470 | one resolver sweep keeps the invariant |
| LifecycleQueues.PlaceKeeps | offchain/server.py:806-829 | accepting an order keeps the invariant, whatever a build has in hand |
| LifecycleQueues.DrainKeeps | offchain/server.py:1206-1230 | retrying re-seals keeps the invariant, whatever a build has in hand |
| LifecycleQueues.DrainIsExact | offchain/server.py:1206-1230 | each waiting re-seal expires, waits on, or is queued, in order |
| LifecycleQueues.ArriveAllKeeps | offchain/server.py:806-829 | any sequence of placements and retries keeps the invariant, only appends to the queue and leaves every round alone |
| LifecycleBuilds.TakeBatchKeeps | offchain/server.py:1625-1662 | what the plan does not take stays queued, what expired ends, the rest is in hand |
| LifecycleBuilds.RequeueKeeps | offchain/server.py:1714-1729 | a failed build puts back exactly the orders it still owns |
| LifecycleBuilds.DisciplineSplits | offchain/server.py:1761-1763 | pricing and the sequence rule lose no public order: each is kept or ended |
| LifecycleBuilds.MarketPriceAtEdge | offchain/server.py:610-617 | a market order is priced inside the band the service accepts, at its very edge |
| LifecycleBuilds.RehideKeeps | offchain/server.py:1777-1799 | unsettleable orders end, sealed orders left without a counterparty are queued again |
| LifecycleBuilds.SubmitKeeps | offchain/server.py:1674-1712 | a refused round's orders go back, a sent round's are in flight, one record per round id |
| LifecycleBuilds.BuildKeeps | offchain/server.py:1581-1862 | a build keeps the invariant however it ends and whatever arrives meanwhile |
| LifecycleBuilds.BuildWhole | offchain/server.py:1581-1862 | a build settles released rounds whole, if it settles any |
| LifecycleSends.AcceptsFewer | offchain/server.py:1764-1776 | a round that passes the running-floor walk still passes when orders are taken out of it |
| LifecycleSends.SentRoundSettles | offchain/server.py:1744-1816 | in the round sent every revealed order is ready and has a counterparty, public orders beat their floors, market orders are in the band, the count, gas and sealed limits hold, and a round that reveals anything trades |
| LifecycleSends.FailedBuildRestores | offchain/server.py:1652-1669 | a build that fails reading a price or a floor loses only what had expired; the batch it took stands first, then what waited, both in queue order, then what arrived |
| LifecycleSends.LateFailureRestores | offchain/server.py:1777-1848 | a build whose payload cannot be made puts back, in front and in queue order, what it would have sent; the rest of its batch was hidden again, ended, or is held by a late landing |
| LifecycleProgress.DurableSettles | offchain/server.py:1353-1396 | a sighted round still landed and now durable has every order receipted by the sweep that finds it so |
| LifecycleProgress.DurableInflightSettles | offchain/server.py:1406-1424 | so has the round in flight, which leaves its slot |
| LifecycleProgress.RivalsWait | offchain/server.py:1398-1404 | even on an inconsistent look, a released round is not settled while a tracked round sharing an order also reads as landed |
| LifecycleDeadlines.DeadInflightFair | offchain/server.py:1434-1439 | the dead timer runs over an unbroken line of looks and releases only at its end |
| LifecycleDeadlines.SweepFair | offchain/server.py:1406-1444 | one sweep keeps every timer and every release fair |
| LifecycleDeadlines.BuildFair | offchain/server.py:1581-1712 | so does a build |
| LifecycleRuns.CustodyHolds | offchain/server.py:1158-1444 | in every reachable state an accepted order that has not ended is queued, waiting to be re-sealed, in flight, or held by a sighted round |
| LifecycleRuns.CustodyIsSingle | offchain/server.py:1318-1351 | never queued twice, never queued while in flight or while a sighted round holds it, never held by two sighted rounds, and in flight while held only if marked there as claimed |
| LifecycleRuns.CustodyIsExact | offchain/server.py:1158-1444 | an accepted order that has not ended is in exactly one of the four places |
| LifecycleRuns.SettledOnce | offchain/server.py:1232-1261 | no order incarnation is settled twice over any run, rounds settle whole, and a settled order is queued or held nowhere, and in flight only if marked there as claimed |
| LifecycleRuns.ReleasedOnlyWhenDue | offchain/server.py:1406-1444 | on any chain a released round was dead and not landed in every look of the confirmation period, or was overdue |
| LifecycleRuns.SealedConserved | offchain/server.py:1158-1230 | a sealed order's quantity equals its incarnations' fills plus what lapsed plus its one unsettled incarnation, over any number of carries |
| LifecycleRuns.SettledAfterTwoSightings | offchain/server.py:1051-1067 | on any chain a round is settled only after two readings as landed with none to the contrary between, the second final or late enough |
| LifecycleEnded.RevertQueues | offchain/server.py:1333-1351 | a reverted late landing queues exactly those of its orders that are not in flight, held elsewhere or queued, ended or not |
| LifecycleEnded.EndedStaysEnded | offchain/server.py:1158-1444 | over any run only accepted orders end, none that has ended waits to be re-sealed, and one that has ended is queued or in flight only if a late-landed round carrying it reverted after it ended |
| LifecycleRevival.EndedCanReturn | offchain/server.py:1333-1351 | runs that meet every assumption and leave an ended order queued |
| LifecycleOverlaps.FinalizeGrows | offchain/server.py:1158-1204 | a settlement adds the same to the queue, the retry list and the ended orders, whatever else is there |
| LifecycleOverlaps.OverlappedDrain | offchain/server.py:1206-1230 | if a round settles between the retry's loop and its write-back, no order is lost if and only if nothing was waiting or none of the settlement's re-seals is refused; if none is, the settlement may as well come after the whole retry |
| LifecycleOverlaps.OverlapInRuns | offchain/server.py:1206-1230 | the same for any late-landed round at any point of a run |
| LifecycleOverlaps.OverlapLoses | offchain/server.py:1206-1230 | runs that meet every assumption, with a re-seal waiting, in which the overlap loses the next order's re-seal |
| LifecycleHalts.HaltedTidy | offchain/server.py:1353-1396 | where a sweep is cut short, every round listed with a receipt is landed, sighted and has no order claimed |
| LifecycleHalts.HaltedSettlesTwiceIff | offchain/server.py:1380-1404 | after a sweep that ends at a failing rival read, at any point of a run, the next sweep settles an order twice if and only if it finds landed and confirmed a round still listed with a receipt, and there is none unless the sweep cut short had settled something |
| LifecycleHaltedRuns.RivalReadsAreNeeded | offchain/server.py:1380-1404 | runs that meet every assumption, in which a sweep settles one round and ends at a rival read for the next, and the sweep after it settles the first order again |
| LifecycleTurns.OlderIsPlanned | offchain/round.py:162-212 | the capped plan takes an account's older public order with its newer one, if a round could carry it |
| LifecycleTurns.OlderIsNotLeftBehind | offchain/server.py:910-914 | if a build sends a public order, every older one of its account that was queued when it planned, and that a round could carry, is in the round, has ended, or is held by a late landing |
| LifecycleScenes.OneIsBuilt | offchain/server.py:1581-1712 | a build over a market whose only order fits puts exactly that order in flight, or ends it if it is public and its seq is stale |
| LifecycleScenes.DeadIsReleased | offchain/server.py:1434-1439 | a round found dead is released and its orders queued in front, with no wait to confirm |
| LifecycleReversal.ReceiptsInOrder | offchain/server.py:1232-1261 | a round's receipts are appended one for each order, in order |
| LifecycleReversal.ReversalSettlesTwice | offchain/server.py:1353-1404 | a look that turns back on a settled round is not durable, and with a second one settles a shared order again |
| LifecycleReversal.SettlingIsHonest | offchain/server.py:1353-1444 | a run of place, build, dead release, rebuild, landing and settlement meets every assumption |
| LifecycleReversal.DurabilityIsNeeded | offchain/server.py:1353-1404 | continued by two consistent looks that land the first round instead, that run settles the order twice |
| LifecycleUnread.SecondSettles | offchain/server.py:1365-1383 | a round whose order is claimed by a sighted round that cannot be read is dropped without a receipt |
| LifecycleUnread.ReadsAreNeeded | offchain/server.py:1365-1391 | runs of consistent, durable looks with one round's reads failing, in which two rounds hold an order and the one that lands leaves no receipt |
| Market.NoteOthers | offchain/server.py:1327-1330 | the claim loop over the other records |
| Market.DropFromOthers | offchain/server.py:1338-1346 | the loop that takes claims back |
| Market.TrimList | offchain/server.py:1296-1301 | the trimming loop |
| Market.KeepRest | offchain/server.py:1391-1395 | the records kept at the end of a sweep |
| Market.Market.constructor | offchain/server.py:1036-1040 | a market starts empty |
| Market.Market.PlaceOrder | offchain/server.py:806-829 | accepts an order, in place |
| Market.Market.Receipt | offchain/server.py:1158-1204 | receipts one order, in place |
| Market.Market.ReSeal | offchain/server.py:1182-1201 | queues a remainder or keeps it for a retry, in place |
| Market.Market.FinalizeRound | offchain/server.py:1232-1261 | finalizes a round, in place |
| Market.Market.DrainRetry | offchain/server.py:1206-1230 | retries re-seals, in place |
| Market.Market.ArriveMany | offchain/server.py:806-829 | placements and retries while a build is under way, in place |
| Market.Market.ReleaseRound | offchain/server.py:1280-1312 | releases a round, in place |
| Market.Market.ClaimRound | offchain/server.py:1318-1331 | claims a late landing, in place |
| Market.Market.UnclaimRound | offchain/server.py:1333-1351 | gives a reverted landing's orders back, in place |
| Market.Market.RivalReads | offchain/server.py:1398-1404 | whether another tracked round sharing an order reads as landed |
| Market.Market.VisitRound | offchain/server.py:1365-1391 | one visit of a sweep, in place |
| Market.Market.SweepZombies | offchain/server.py:1353-1396 | the sweep over released rounds, in place |
| Market.Market.JudgeInflight | offchain/server.py:1406-1444 | judges the round in flight, in place |
| Market.Market.SweepOnce | offchain/server.py:1446-1470 | one resolver sweep, in place |
| Market.Market.Requeue | offchain/server.py:1714-1729 | puts back what a failed build owns, in place |
| Market.Market.TakePlanned | offchain/server.py:1625-1662 | takes the planned batch out of the mempool, in place |
| Market.Market.Discipline | offchain/server.py:1761-1763 | prices and sanitizes the public orders |
| Market.Market.HideUnmatched | offchain/server.py:1786-1799 | queues unmatched sealed orders again, in place |
| Market.Market.SubmitRound | offchain/server.py:1674-1712 | sends a round or puts it back, in place |
| Market.Market.AssembleRound | offchain/server.py:1731-1862 | the rest of a build, in place |
| Market.Market.BuildRound | offchain/server.py:1581-1712 | a whole build, in place |
| NatCodec.EncNat | offchain/workpackage.py:40-50 | the encoder's loop finds the specified length and octets, and refuses what is out of range |
| NatCodec.Decode | offchain/workpackage.py:53-65 | the decoder as it runs computes the specified result |
| NatCodec.DecIffEnc | offchain/workpackage.py:40-65 | at any offset the decoder succeeds if and only if a canonical encoding stands there, with its number and end |
| NatCodec.PrefixFree | offchain/workpackage.py:40-50 | no encoding is the beginning of another |
| NatCodec.StrictImpliesLenient | offchain/netwatch.py:237-246 | the watcher's decoder agrees wherever the strict one succeeds |
| NatCodec.DecodersAgree | offchain/netwatch.py:237-246 | where the lenient one answers, the strict one gives the same answer if its octets are complete and canonical and refuses otherwise |
| NatCodec.DecodersDiffer | offchain/netwatch.py:237-246 | two strings on which they differ |
| WorkPackages.BlobLaw | offchain/workpackage.py:68-69 | a length-prefixed string is read exactly where it was written |
| WorkPackages.SeqLaw | offchain/workpackage.py:104-105 | so is a sequence, given the law for its items |
| WorkPackages.PairLaw | offchain/workpackage.py:83-109 | two readers in a row accept exactly one encoding after the other |
| WorkPackages.ContextLaw | offchain/workpackage.py:113-138 | the context reader accepts exactly what valid contexts write |
| WorkPackages.ImportLaw | offchain/workpackage.py:141-156 | the import reader, with its package flag in bit 15 |
| WorkPackages.ExtrinsicLaw | offchain/workpackage.py:176-186 | the extrinsic reader |
| WorkPackages.ItemLaw | offchain/workpackage.py:159-186 | the work-item reader |
| WorkPackages.PackageLaw | offchain/workpackage.py:217-253 | the package reader |
| WorkPackages.DecodeIffWrites | offchain/workpackage.py:246-253 | decoding succeeds exactly on the octets of some valid package, and returns it |
| WorkPackages.EncodedDecodes | offchain/workpackage.py:231-253 | an encoded package decodes to itself if and only if its prerequisites are in order |
| WorkPackages.DecodedEncodes | offchain/workpackage.py:231-253 | accepted octets re-encode identically if and only if there is an item and the prerequisites are in order |
| WorkPackages.UnsortedBreaks | offchain/workpackage.py:113-138 | a package with prerequisites out of order fails both round trips |
| WorkPackages.EmptyBreaks | offchain/workpackage.py:217-253 | a package without items decodes but is refused by the encoder |
| PackageReader.Cursor.Take | offchain/workpackage.py:87-92 | takes octets and advances the cursor |
| PackageReader.Cursor.Natural | offchain/workpackage.py:97-99 | reads a natural and advances the cursor |
| PackageReader.Cursor.Blob | offchain/workpackage.py:101-102 | reads a length-prefixed string |
| PackageReader.Cursor.Context | offchain/workpackage.py:135-138 | reads a context field by field |
| PackageReader.Cursor.Item | offchain/workpackage.py:178-186 | reads a work-item field by field |
| PackageReader.Cursor.ItemsOf | offchain/workpackage.py:104-105 | reads a counted sequence of items |
| PackageReader.Cursor.Package | offchain/workpackage.py:245-253 | reads a package field by field |
| PackageReader.DecodePackage | offchain/workpackage.py:245-253 | the cursor decoder computes the specified result, refusing trailing octets |
| Frames.XorStrings | offchain/jip2.py:38-44 | one exclusive or of two strings read as numbers is the octetwise one |
| Frames.FastIsMasked | offchain/jip2.py:38-44 | masking through big numbers equals masking octet by octet |
| Frames.MaskedTwice | offchain/jip2.py:38-44 | masking twice gives the payload back |
| Frames.EncodeIsWire | offchain/jip2.py:47-60 | an encoded frame is a final frame on the wire with its length in the shortest form |
| Frames.ReadWire | offchain/jip2.py:123-138 | a frame is read back whatever its mask and length form, stopping where it ends |
| Frames.EncodedRead | offchain/jip2.py:47-138 | an encoded frame is read back whole, or refused if and only if its payload is above the size limit |
| Frames.ReadIsWire | offchain/jip2.py:123-138 | whatever is read as a frame is some wire form of it |
| WebSockets.MessageReceived | offchain/jip2.py:140-172 | a fragmented message with pings and pongs in between is returned joined, each ping answered once in order, the rest left unread |
| WebSockets.OnlyMessagesReceived | offchain/jip2.py:140-172 | nothing but such a message is ever returned |
| WebSockets.Connection.Fill | offchain/jip2.py:105-109 | a chunk moves from the socket to the buffer without changing the stream |
| WebSockets.Connection.Take | offchain/jip2.py:111-115 | the next octets, however they arrive in chunks |
| WebSockets.Connection.NextFrame | offchain/jip2.py:123-138 | the next frame of the stream, in place |
| WebSockets.Connection.Handle | offchain/jip2.py:146-172 | what one frame does to the message under way |
| WebSockets.Connection.NextMessage | offchain/jip2.py:140-172 | the receive loop computes the specified outcome from the stream alone |
| Telemetry.LiveIffNoTerminal | offchain/order_telemetry.py:100-227 | an order is in the live table if and only if its log has an event and no terminal |
| Telemetry.StaleIsStuck | offchain/order_telemetry.py:230-255 | live staleness equals the replay's stuck-open at every time if and only if a resting order's last rest kept an expiry or no rest had one |
| Telemetry.StaleSetIsStuckSet | offchain/soak_verdict.py:95-130 | given that, the two sets are equal |
| Telemetry.ExpiryForgotten | offchain/order_telemetry.py:83-97 | a run on which they differ |
| Telemetry.TalliesByVerdict | offchain/order_telemetry.py:187-219 | the live tallies count the orders judged cleared and marketable, and those judged missed and not cancelled |
| Telemetry.TalliesAgreeIff | offchain/soak_verdict.py:64-130 | the live tallies never exceed the verdict's, and equal them if and only if every cleared order was marketable and no missed one was cancelled |
| Telemetry.TalliesDiffer | offchain/order_telemetry.py:187-219 | a run with a filled order that was not marketable and one with a cancelled order that was, on which live tally and verdict differ |
| Telemetry.Live.constructor | offchain/order_telemetry.py:77-80 | the tables start empty |
| Telemetry.Live.Log | offchain/order_telemetry.py:83-97 | appends a line and stamps the record |
| Telemetry.Live.OnPlaced | offchain/order_telemetry.py:100-113 | a placement, in place |
| Telemetry.Live.OnMoved | offchain/order_telemetry.py:116-184 | the five non-terminal transitions, in place |
| Telemetry.Live.OnTerminal | offchain/order_telemetry.py:187-219 | the end of an order, in place |
| Telemetry.Live.Snapshot | offchain/order_telemetry.py:230-255 | open and stale orders counted phase by phase and in all, the longest delay, and the share of marketable orders that cleared |
| Telemetry.FirstKeysInOrder | offchain/soak_verdict.py:48-61 | orders are listed once each, in the order of their first line in the log |
| Telemetry.StuckListed | offchain/soak_verdict.py:95-130 | the orders listed as stuck open are exactly those of the replay |
| Telemetry.ScoreLog | offchain/soak_verdict.py:95-147 | every order tallied by its verdict, the stuck ones listed in log order with their ages, and the share and the pass mark that follow |
| HeadAlignment.Walk | offchain/netwatch.py:181-193 | the walk loop computes the specified ancestor |
| HeadAlignment.FoundIff | offchain/netwatch.py:181-193 | the walk succeeds if and only if the chain reaches that low with few enough blocks above |
| HeadAlignment.FoundIsNewest | offchain/netwatch.py:181-193 | it finds the newest block at or below the slot: the chain up to the slot is that block's chain |
| HeadAlignment.SameHashIffAgree | offchain/netwatch.py:332-341 | two nodes show one hash at the slot if and only if their chains agree on every block up to it |
| HeadAlignment.Align | offchain/netwatch.py:332-341 | the common slot and a walk from every head |
| HeadAlignment.OneHeadIffAgree | offchain/netwatch.py:332-392 | the walked heads show one hash and none is unaligned if and only if every walk reaches the common slot and all chains agree up to it |
| HeadAlignment.Judge | offchain/netwatch.py:372-400 | the judgement of a sample computes the specified picture |
| HeadAlignment.SampleOkIff | offchain/netwatch.py:372-400 | a sample is good if and only if all nodes are up and within the lag, walked heads hold one chain, and nodes without hashes one height for a slot |

## Left out

- HTTP handlers, threads, sleeps, persistence, metrics and logging. Locks appear only through what may fall inside what; see "What is assumed".
- Market.Market.RivalReads: a read that raises has no counterpart in the class; `LifecycleHalts` states what follows from one.
- Cancels of pending orders, signed cancels and account registrations: other ways an order can end, not modelled.
- The encrypt-until-batch shrink of the sealed cap: the cap is a parameter of the batch.
- Execution records, trade tape and reasons on receipts: a receipt here is the round, the order, what it traded and what lapsed.
- How the builder decides that a round is dead: a look carries the answer, and the timer on it is modelled.
- Cryptography: commitments, round ids and block hashes are opaque identities.
- The Rust service: only the running-floor walk and the price band it enforces are stated, as the builder's code describes them.
- UTF-8 decoding of text messages, the opening handshake and the close of a WebSocket.
- Verdict episodes, finality and authoring checks of the network watcher, and the finalized heads of a sample.
- Latencies, retry counters and sealed-order tallies of the soak verdict, and its cut of each list to twenty entries.
- Authorizers: parsing and printing `host:code_hash[:config[:token]]`, and the hashes that identify an authorizer and a package, are not modelled.
- Market.Market.SweepZombies: records are values in a sequence, so two references to one record are not modelled.
