# A model of the KV-cache routing simulator and its gateway plugin

The system studies where to send a request in a cluster of inference nodes that each
keep a bounded cache of KV blocks. An offline simulator (`src/bench/sim/`) replays a
request stream against a cluster under a routing policy; a gateway plugin
(`src/gateway-plugin/`) carries the learned half of one policy into a router. This
project models both in Dafny and proves what they keep over all inputs and all runs.

How it is laid out:

- `Basics`, `Reals`, `Lru`, `Ranking`, `BoundedMap`: sets, named products and quotients,
  recency lists, keeping the top of an order, bounded tables. Everything a bounded table
  owes to the unbounded history follows from its being a suffix of the unbounded recency
  list.
- `Eviction` is the specification of a node's cache: one strict total order per
  strategy, and an admission that inserts, stamps and evicts. `Node` is the class that
  does this in place and is proved equal to it. `EvictionLaws`, `PlainLru`, `Leases`
  and `Belady` prove what follows: top of the order, stack inclusion, exact pressure
  counting, lease safety, and optimality of lookahead eviction by an exchange argument.
  `Shedding` says which of two blocks goes first in terms of their marks alone.
- `Blocks` and `Workload`: hash chains, tokens, and streams of growing sessions.
- `Cost`, `Policies`, `Router`, `WorstCases`: predicted time, the argmin, the coarse
  policies and the weighted router with their worst-case regret. `Prices`,
  `ClassChoices` and `RouterChoices` say in seconds, blocks and ids what is decided.
- `GapStats`, `Learning`, `Retention`: the one-pass estimate, the bounded tables against
  the whole history, the lease decision. `PythonTables` and `GoTables` are the
  ordered-dictionary and the map-plus-list classes proved against the same functions.
  `Reliability` is the policy class, `HeaderText` and `PreRequest` the plugin and its
  header.
- `Engine` is the run as a state machine over values, for any policy; `Simulator` is
  the same run on node objects updated in place, proved equal to it. `EngineLaws`,
  `NodeHistory`, `SingleNode`, `RouterRuns`, `RouterHistory`, `WeightedRuns`, `WorstCaseRuns`,
  `EngineLeases` and `ReliabilityRuns` prove properties of whole runs. `Handover` follows
  a directive from the placement into the node and through the run, `LeaseDecisions` says
  exactly when there is one, `Ledger` what is reported, `HintTexts` what the plugin
  writes and reads, `GeneratedTurns` what a generated session says and when.
- `TwoLearners`, `PluginMirrors` and `GeneratedRuns` put the simulator's router and the
  plugin on one stream: where they differ, exactly when they agree, and that on
  generated streams the plugin emits what the router decides.

How things are modelled:

- Times and costs are `real`; an expiry is a time or never. The square root is a
  parameter constrained by `IsSqrt`; Python's `round` is written out, ties to even.
- The block hash is a parameter: any injective function that never yields the root.
- Cost parameters are positive and capacities are natural numbers, as the defaults and
  the eviction loop presuppose. A node's id is its index.
- The two node classes of `node.py` differ in victim selection only and are one class
  with a strategy field.
- A policy is a function of its own state, the request as a router sees it, and the
  cluster; laws about runs quantify over all such functions that name an existing node.
- Texts are sequences of words, and whatever the session generator draws is an arbitrary
  input.
- Lemmas with a body carry `{:induction false}`: each holds by its written proof, without
  a hypothesis generated for it.
- The plugin's linked list is a sequence of element objects, in bijection with its map.

Two findings.

- An empty lease is stored as a permanent one. With all recorded gaps of a tool equal to
  0, the learned window is 0, `retain_until` equals `now`, and the node reads an explicit
  priority without a future expiry as a mark that never lapses, while the policy's text
  describes a lease that ends when the session is due back. The model follows the code;
  `RetentionLaws.LeaseExpiresUnlessGapsAreZero` gives the exact condition and
  `RetentionLaws.InstantReturnIsPinnedForever` a run.
- The plugin does not quite mirror the simulator. Its text says it does
  (`src/gateway-plugin/toolgap.go:8`, `src/gateway-plugin/session.go:14-16`), but it looks
  at tool turns only, where the simulator's policy looks at every request. So the two
  differ when a conversation has a document turn or a one-shot among or before its tool
  turns, when another turn names a tool, and when other conversations crowd one out of the
  simulator's last-seen table (`TwoLearners.MixedConversationDiffers`,
  `DocumentOpenerDiffers`, `NamedToolDiffers`, `CrowdedOutDiffers`).
  `TwoLearners.AnswersAgree` and `TwoLearners.LessonsAgree` say exactly when they agree,
  request by request and over a run, and `PluginMirrors.PluginMirrorsRouter` what follows
  for the emitted directives. On the generator's own session streams, with short opening
  questions, named tools and no more sessions than the table holds, they do agree
  (`GeneratedRuns.GeneratedRunsAreMirrored`).

`node.py` calls its lookahead node a reference baseline and not an optimum. On one node
and counting resident requested blocks it is an optimum, and that is what is proved.
About contiguous prefixes the text is right (`Belady.PrefixReuseIsNotMaximised`); about
several nodes nothing is claimed here.

## Model

| member | source | states |
|---|---|---|
| Eviction.LineIsStrictTotal | src/bench/sim/node.py:136-141 | Rank, then recency, is a strict total order on the resident blocks, for directives and for lookahead alike. |
| Eviction.VictimIsLeast | src/bench/sim/node.py:133-174 | The victim is the least resident block of that order. |
| Eviction.BisectRightSplits | src/bench/sim/node.py:204-212 | The binary search splits a sorted use list exactly into uses up to the current request and uses after it. |
| Nodes.Node.constructor | src/bench/sim/node.py:25-42 | A new node is idle, empty, unmarked and has counted no pressure. |
| Nodes.Node.Admit | src/bench/sim/node.py:56-104 | The in-place admission leaves the queue at max(now, old tail) plus service, and the view of cache, marks and counter as the specification `Admit` and its batch form `KeepsTop` have them; the side tables keep equal key sets inside the cache, the cache fits, and the eviction loop terminates. |
| Nodes.Node.InsertBatch | src/bench/sim/node.py:94-102 | The insertion loop as a fold of single insertions, in order. |
| Nodes.Node.EvictToFit | src/bench/sim/node.py:103-104 | The eviction loop ends with a cache that fits and is the one of the specification loop. |
| Nodes.Node.InsertBlock | src/bench/sim/node.py:94-102 | One block becomes the most recently used and has its mark stamped or cleared, everything else untouched. |
| Nodes.Node.EvictOne | src/bench/sim/node.py:124-131 | Removes exactly the least block and its side-table entries; nothing happens on an empty cache. |
| Nodes.Node.PickVictim | src/bench/sim/node.py:133-225 | The victim, read off the two side tables and the ages: it gives way to every other block (evict-first before unmarked or lapsed before leased, then lower priority, sooner expiry, older), or for lookahead it is the oldest one never used again, else the one used again last; the counter moves exactly when the victim is under a live mark of priority at least 0. |
| Nodes.Node.PickByDirective | src/bench/sim/node.py:146-174 | The fast path without marks and the full scan both return the block that goes next by the two side tables and the ages, and count it exactly if it is leased. |
| Nodes.Node.ScanBuckets | src/bench/sim/node.py:149-166 | The single oldest-first scan finds in each bucket the first block of least rank. |
| Nodes.Node.PickByNextUse | src/bench/sim/node.py:214-225 | The scan with early exit returns the first never-used block, else the first block whose next use is furthest. |
| Nodes.ScanDecides | src/bench/sim/node.py:168-174 | The lowest non-empty bucket holds the least block, and a lease is sacrificed exactly when the two lower buckets are empty. |
| EvictionLaws.EvictLoopKeepsTop | src/bench/sim/node.py:103-104 | Evicting one at a time keeps exactly the top `capacity` blocks of the order as it stood before the loop, with their marks and relative recency. |
| EvictionLaws.SacrificeIsLastResort | src/bench/sim/node.py:140-142 | A live mark of priority at least 0 is sacrificed if and only if every resident block is under one. |
| EvictionLaws.PressureIsExact | src/bench/sim/node.py:168-174 | An eviction loop adds exactly max(0, overflow minus blocks not live-marked at priority at least 0) to the counter. |
| EvictionLaws.InsertAllMarks | src/bench/sim/node.py:82-102 | After the insertion loop every block of the batch carries the batch's directive, or none, and every other block keeps what it had. |
| EvictionLaws.AdmitKeepsTop | src/bench/sim/node.py:56-104 | Batch specification of an admission: survivors, their marks and order, the size, and the exact growth of the counter. |
| EvictionLaws.StackInclusion | src/bench/sim/node.py:90-174 | Under the same admissions a larger cache holds everything a smaller one holds, with equal marks and the same relative recency; for arbitrary priorities, lapsing leases, and for lookahead eviction. |
| PlainLru.MatchedGrowsWithCapacity | src/bench/sim/node.py:48-50 | The matched prefix never shrinks when the capacity grows, after any admissions. |
| PlainLru.UnmarkedLoopTrims | src/bench/sim/node.py:143-147 | With no mark in the cache the loop drops the oldest blocks and nothing else. |
| PlainLru.PlainRunIsRecent | src/bench/sim/node.py:76-77 | A node that is never given a directive holds exactly the `capacity` most recently used blocks of its history, in order. |
| PlainLru.RecentBlocksStay | src/bench/sim/node.py:94-104 | If the distinct blocks admitted since request i fit, all blocks of request i are still resident. |
| PlainLru.NextTurnFindsItsPrefix | src/bench/sim/workload.py:186-260 | A turn that extends an earlier prompt matches at least that prompt's whole chain, if that chain and the distinct blocks admitted since fit. |
| PlainLru.HeadStaysIfAllFit | src/bench/sim/node.py:94-104 | The head of a batch that is not admitted again is resident if and only if the distinct blocks admitted from that batch on fit: a batch enters head first, so its head is its oldest block. |
| PlainLru.NextTurnFindsAllOrNothing | src/bench/sim/workload.py:186-260 | All or nothing: a turn that extends an earlier prompt, whose chain's head was not admitted since, matches that whole chain if the distinct blocks from it on fit and matches 0 blocks otherwise. |
| Leases.LeaseIsHonoured | src/bench/sim/node.py:72-84 | While the counter stands still, a block marked at priority at least 0 stays resident under its mark until it lapses or is admitted again, over every run. |
| Leases.BrokenLeaseIsCounted | src/bench/sim/node.py:139-142 | A step that drops such a block increments the counter. |
| Leases.PressureIsOvercommitment | src/bench/sim/node.py:36-38 | The counter of a run equals, summed over its admissions, how far live marks exceeded the capacity. |
| Leases.FittingLeasesAreHonoured | src/bench/sim/node.py:149-174 | If live marks always fit, the counter stays 0 and every lease is honoured. |
| EngineLeases.ReportedPressureIsOvercommitment | src/bench/sim/engine.py:211-212 | The total a run reports is the overcommitment of all nodes, each over the admissions routed to it. |
| EngineLeases.QuietRunHonoursLeases | src/bench/sim/engine.py:76-78 | If a run has reported no pressure so far, every lease of every node that has not lapsed or been overwritten is still held, whatever the policy. |
| Shedding.VictimGoesNext | src/bench/sim/node.py:149-174 | The victim of the directive order gives way to every other resident block by the marks themselves, lower priority and sooner expiry first, or is the older one of equals. |
| Shedding.VictimIsUsedLast | src/bench/sim/node.py:204-225 | The victim of the lookahead order is the oldest block never used again or, if there is none, the one whose next use is furthest. |
| Shedding.WeakerGoesFirst | src/bench/sim/node.py:149-166 | Of two blocks in reach of an admission, the one that gives way by its mark, or by its age when the marks are on a par, never outlives the other. |
| Shedding.RunsShedInOrder | src/bench/sim/node.py:133-174 | The same for every admission of every run. |
| Shedding.SoonerLeaseGoesFirst | src/bench/sim/node.py:163-166 | Of two running leases of equal priority, the one that expires later never goes while the sooner one stays, in any run. |
| Belady.BuildFutureUses | src/bench/sim/engine.py:133-139 | The table lists, ascending, exactly the requests that contain each block. |
| Belady.NextUseIsExact | src/bench/sim/node.py:204-212 | The lookup answers the first later request that uses the block, and nothing if there is none. |
| Belady.RunIsSchedule | src/bench/sim/node.py:103-104 | Any node run, whatever its strategy and marks, is an eviction schedule of its capacity. |
| Belady.LookaheadEvictsFurthest | src/bench/sim/node.py:177-225 | An admission gives up a block that is used within some horizon only if it keeps no block unused within it. |
| Belady.LookaheadStaysAhead | src/bench/sim/node.py:186-192 | The exchange invariant: at every horizon a competitor's lead in soon-used blocks is at most the lookahead node's lead in hits. |
| Belady.LookaheadIsOptimal | src/bench/sim/node.py:177-225 | On one stream, no eviction schedule of the same capacity, clairvoyant or not, finds more requested blocks resident. |
| Belady.LookaheadBeatsDirectives | src/bench/sim/node.py:177-225 | In particular no directive node does, whatever marks it is given. |
| Belady.PrefixReuseIsNotMaximised | src/bench/sim/node.py:186-192 | A stream and a schedule of capacity 1 on which lookahead eviction reuses no contiguous prefix and the schedule reuses one block. |
| SingleNode.LookaheadRunIsBest | src/bench/sim/engine.py:142-158 | Two single-node engine runs on one stream, under any policies: the one with lookahead eviction finds at least as many requested blocks resident. |
| SingleNode.ReuseWithinHits | src/bench/sim/engine.py:189-190 | The contiguous reuse a single-node run reports never exceeds its hits, for chains without repeated blocks. |
| SingleNode.LookaheadBoundsReuse | src/bench/sim/engine.py:200-209 | So the lookahead run's hits bound the reuse any single-node run of that capacity reports. |
| Blocks.HashBlocks | src/bench/sim/blocks.py:20-33 | The rolling loop computes the chain of all whole blocks, block by block from its parent, ignoring a partial last block. |
| Blocks.SharedPrefixIsExact | src/bench/sim/blocks.py:3-7 | Two prompts share exactly floor(common token prefix / block size) leading hashes. |
| Blocks.GrowingPromptExtendsChain | src/bench/sim/blocks.py:20-33 | A longer prompt's chain starts with the shorter one's. |
| Blocks.ChainIsDistinct | src/bench/sim/blocks.py:28-32 | No hash repeats along a chain. |
| Blocks.MatchedPrefix | src/bench/sim/blocks.py:36-49 | The loop returns the longest leading run that is resident. |
| Blocks.MatchedWithinHits | src/bench/sim/blocks.py:39-41 | The contiguous match is at most the number of resident requested blocks. |
| Workload.Vocabulary.Tokenize | src/bench/sim/workload.py:67-75 | Tokens are the ids of the words, known words keep their ids, and ids stay distinct and dense. |
| Workload.EncodingKeepsCommonPrefix | src/bench/sim/workload.py:61-64 | Token prefixes are word prefixes: identical text and only identical text gives identical tokens. |
| Workload.SharedWordsAreSharedBlocks | src/bench/sim/workload.py:61-64 | Two texts share exactly as many leading block hashes as whole blocks of common words. |
| Workload.GenerateSession | src/bench/sim/workload.py:183-260 | For any draws, turn i of a session has the prompt, message list, arrival, hash chain, token count and tool name that all draws up to it determine, and earlier turns are unaffected by words learned later. |
| Workload.AddTurn | src/bench/sim/workload.py:193-260 | One iteration of the turn loop: pause by tool outcome, three new messages, longer prompt, hashed again. |
| Workload.GenerateSessions | src/bench/sim/workload.py:176-263 | For any draws, the stream is the sorted concatenation of all sessions, launched one after another. |
| Workload.SortedFacts | src/bench/sim/workload.py:262 | Sorting by (arrival, session, turn) orders the stream and neither loses nor invents a turn. |
| WorkloadLaws.StreamHolds | src/bench/sim/workload.py:176-263 | The stream holds exactly the turns of all sessions, in order of that key. |
| WorkloadLaws.TurnsGrow | src/bench/sim/workload.py:196-245 | A later turn of a session arrives no earlier and extends the prompt, its hash chain and the message list. |
| WorkloadLaws.ConversationsGrow | src/bench/sim/workload.py:262 | In the sorted stream the turns of one conversation come in turn order, each extending the earlier ones. |
| WorkloadLaws.TurnsAreClassified | src/bench/sim/engine.py:32-43 | From its message list every turn is classified as a tool turn, except an opener whose question is as long as a document. |
| WorkloadLaws.ArrivalsAreOrdered | src/bench/sim/workload.py:177-179 | Arrivals are at least 0 and never decrease along the stream. |
| GeneratedTurns.TurnInFull | src/bench/sim/workload.py:188-260 | A turn's prompt is the transcript of its messages: the opening pair and, per earlier turn, the assistant's reply naming the tool, the result and the next question; at least one token is generated. |
| GeneratedTurns.PausesInFull | src/bench/sim/workload.py:203-219 | A turn comes think time plus nominal turn after the last one without a tool, 0.2 seconds after a failed call, think time plus the tool's latency after a successful one. |
| GeneratedTurns.StartsInFull | src/bench/sim/workload.py:177-179 | Sessions start one drawn gap after the other. |
| GeneratedTurns.StreamOrder | src/bench/sim/workload.py:262 | The stream is strictly ascending by arrival, session, turn, so no turn occurs twice. |
| GeneratedTurns.GapIsPause | src/bench/sim/policies.py:266-289 | On a replayed stream of at most 8192 sessions the gap observed at each turn is exactly the pause drawn before it, and nothing at a first turn or without a tool. |
| GeneratedRuns.GeneratedStreamsAreTimely | src/bench/sim/workload.py:262-263 | Generated streams meet the timing hypotheses of the lease laws and of the index laws. |
| Cost.HotNode | src/bench/sim/cost.py:82-84 | The node of longest matched prefix, and the lowest id among those. |
| CostLaws.OracleIsLowerBound | src/bench/sim/cost.py:122-136 | The oracle's time is at most that of every node and flag, also of the excluded transfer onto the hot node. |
| CostLaws.TransferFlagIsRegime | src/bench/sim/cost.py:111-136 | The oracle's transfer flag is set exactly when blocks move, by its tie-breaking. |
| CostLaws.TransferSeedsHotPrefix | src/bench/sim/engine.py:102-105 | A transfer makes exactly the hot node's matched prefix resident on the target; without one the node's own counts, which is never more. |
| CostLaws.IdleOptimumIsHot | src/bench/sim/engine.py:117-120 | With every queue empty the argmin is the hot node without a transfer. |
| CostLaws.CoupledIsOffTheHotNode | src/bench/sim/engine.py:108-130 | Closed form of the probe: coupled if and only if the loaded oracle choice is not the hot node without transfer. |
| CostLaws.AffinityRegretMeansCoupled | src/bench/sim/policies.py:110-112 | If always following the hot node loses time to the oracle, the request is coupled. |
| CostLaws.NoTransferIsStable | src/bench/sim/cost.py:54-57 | If the oracle does not transfer it returns the identical placement at every lower bandwidth. |
| CostLaws.OracleFallsWithBandwidth | src/bench/sim/cost.py:122-136 | The oracle's time never rises with bandwidth. |
| Prices.TimeInFull | src/bench/sim/cost.py:87-119 | The predicted time in plain arithmetic: queue, blocks copied over the link at their byte price, blocks still to compute, fixed overhead. |
| Prices.ColdTime | src/bench/sim/cost.py:59-60 | On an idle node of a cold cluster a request takes the compute time of all its blocks plus the fixed overhead, and the oracle no less. |
| Prices.OracleOrder | src/bench/sim/cost.py:122-136 | The oracle's choice has the least time among all candidates, then the lowest id, then no transfer. |
| Prices.BreakEven | src/bench/sim/cost.py:54-60 | Two nodes, one holding m blocks more: the oracle copies, computes or waits exactly when m blocks' link price, m blocks' compute price and the difference of the queues say so, ties included. |
| Prices.EqualHolders | src/bench/sim/cost.py:122-136 | If both hold equally much, it takes the shorter queue, the lower id on a tie, and copies nothing. |
| Policies.TransferAware | src/bench/sim/policies.py:132-152 | The double loop with its running best returns the tuple argmin of the coarse score over all candidates. |
| RegretLaws.RegretIsNonNegative | src/bench/sim/engine.py:180-182 | True regret is never negative, so the clamp at 0 never acts; the oracle's own is 0. |
| RegretLaws.CoarseIsNear | src/bench/sim/policies.py:120-129 | The quantised wait is within half a nominal service time of the true one. |
| RegretLaws.TransferAwareRegret | src/bench/sim/policies.py:132-152 | Regret of coarse transfer-aware routing is at most one nominal service time. |
| RegretLaws.OneshotRegret | src/bench/sim/policies.py:376-379 | Regret of least-loaded routing is at most one nominal service time plus the prefill of the hot prefix. |
| RegretLaws.DocumentRegret | src/bench/sim/policies.py:380-384 | Regret of document affinity to a hot node that holds something below saturation is at most 8.5 nominal service times. |
| RegretLaws.ClassAwareRegret | src/bench/sim/policies.py:365-387 | Per inferred class: one nominal service for a tool turn and for a cold or saturated document, 8.5 for a document that follows its prefix, one and the hot prefix for a one-shot. |
| WorstCases.WorstCaseAttains | src/bench/sim/policies.py:120-129 | On states whose queues of 2.5 and 1.5 service times both look like 2, or of 8.5 like 8, each class loses exactly its bound. |
| WorstCaseRuns.ClassAwareBoundIsAttained | src/bench/sim/policies.py:365-387 | No smaller bounds hold: for all parameters, all blocks and every cache that holds them, a class-aware run reaches such a state and its last request records exactly the bound of its class. |
| ClassChoices.CoarseInFull | src/bench/sim/policies.py:115-129 | The coarse wait is the whole number of nominal services (fixed overhead and forty tokens) nearest to the true one, the even number half way. |
| ClassChoices.TransferAwareIsBest | src/bench/sim/policies.py:132-152 | Transfer-aware routing takes the candidate of least coarse time, then lowest id, then no transfer, and reports that time. |
| ClassChoices.ToolChoice | src/bench/sim/policies.py:385-387 | A tool turn goes to that optimum and loses at most one nominal service. |
| ClassChoices.OneshotChoice | src/bench/sim/policies.py:376-379 | A one-shot goes to the shortest coarse queue, lowest id on ties, without transfer. |
| ClassChoices.DocumentChoice | src/bench/sim/policies.py:380-387 | A document stays with its prefix if the hot node holds part of it within eight nominal services, losing at most 8.5 of them; cold or saturated, it goes to the coarse optimum and loses at most one. |
| ClassChoices.PlacementInFull | src/bench/sim/policies.py:365-387 | The placement carries no directive, and the true time where affinity or load decided, the coarse one elsewhere. |
| RouterLaws.WeightedRegret | src/bench/sim/policies.py:295-300 | While some node is within the saturation limit, the weighted router loses at most depth + 0.5 nominal service times (8.5 by default) and the prefill of the hot prefix, whatever it believes. |
| WeightedRuns.WeightedRunRegret | src/bench/sim/policies.py:336-362 | The same for the regret recorded at any such request of any precise or approximate run. |
| WeightedRuns.NoBoundWhenSaturated | src/bench/sim/policies.py:342-346 | When every node is saturated there is no bound: for all parameters and every loss, a run of three requests ends with both nodes saturated and a recorded regret above it, precise or approximate. |
| Router.WinnerIsBest | src/bench/sim/policies.py:351-357 | The chosen candidate has the highest score, and the lowest id among those. |
| Router.SaturationFilters | src/bench/sim/policies.py:342-346 | If any node is within the saturation limit, so is the chosen one. |
| Router.LoadBreaksTies | src/bench/sim/policies.py:348-357 | Among candidates believed to hold equally much the chosen one has the shortest coarse queue. |
| Router.AffinityDominates | src/bench/sim/policies.py:295-300 | With the default weights a candidate ahead of all others by more than half of the blocks is chosen whatever the queues. |
| RouterChoices.TradeOff | src/bench/sim/policies.py:342-357 | The winner is within the saturation limit unless no node is, and no candidate has a better balance of weighted prefix share against weighted strain, strain being where its coarse queue lies between the shortest (0) and the longest (1) of the candidates, nor an equal one and a lower id. |
| RouterChoices.DefaultTradeOff | src/bench/sim/policies.py:303-357 | By default: twice the share of the blocks less the strain, within eight nominal services. |
| RouterChoices.HalfTheBlocks | src/bench/sim/policies.py:295-300 | Between two candidates of different queues the longer one wins if and only if its lead exceeds half of the blocks, or equals it and its id is lower. |
| Router.RouterIndex.Record | src/bench/sim/policies.py:170-176 | Recording moves the blocks of one node's list to its fresh end in order and trims that list to the capacity; other nodes' lists are untouched. |
| Router.WeightedScorers.Route | src/bench/sim/policies.py:336-362 | The index is created on first use; the placement is the winner's without transfer, and only the approximate router writes its index. |
| RouterHistory.BeliefIsHistory | src/bench/sim/policies.py:155-176 | Over any run the approximate router believes of each node exactly the most recent distinct blocks of what it routed there, and nothing else. |
| RouterHistory.RunTradeOff | src/bench/sim/policies.py:336-362 | At every request of every run no candidate has a better balance than the chosen node, or an equal one and a lower id, with the share read off the caches by the precise router and off its own routing by the approximate one. |
| RouterRuns.BeliefAgainstTruth | src/bench/sim/policies.py:155-176 | Over whole runs: an index larger than the cache believes a superset of every true cache, a smaller one a subset, an equal one the very list. |
| RouterRuns.ApproximateIsPrecise | src/bench/sim/policies.py:328-362 | With index capacity equal to cache capacity the approximate and the precise run have equal nodes, tables and results at every step. |
| GapStats.UpdateStat | src/bench/sim/policies.py:221-230 | The in-place update is one step of the specification `Fold`. |
| GapStats.EstimateIsWeighted | src/gateway-plugin/toolgap.go:82-93 | After any gaps the one-pass mean and variance are the weighted mean and the weighted variance about it, under one explicit list of weights. |
| GapStats.WeightsAreConvex | src/bench/sim/policies.py:225-229 | Those weights are non-negative and sum to 1. |
| GapStats.WeightsInFull | src/bench/sim/policies.py:225-229 | Each weight in closed form: alpha for the newest gap, times 1 - alpha for every gap since, the first gap keeping what is left. |
| GapStats.EstimateIsBounded | src/bench/sim/policies.py:225-229 | The mean stays within any range of the gaps and 0 <= variance <= (high - mean)(mean - low). |
| GapStats.ZeroMean | src/bench/sim/policies.py:225-229 | Non-negative gaps have mean 0 if and only if all of them are 0. |
| PythonTables.LastSeen.ObserveGap | src/bench/sim/policies.py:266-289 | The in-place bounded LRU answers and changes as the specification `Observe` does, including the cases without conversation, earlier turn or tool. |
| PythonTables.ToolGapIndex.Record | src/bench/sim/policies.py:216-233 | Pop, fold, reinsert and trim, as the specification `Record`. |
| PythonTables.ToolGapIndex.Predict | src/bench/sim/policies.py:235-243 | Learned estimate, else the tool's prior, else the default prior. |
| Lru.BoundedKeysAreRecent | src/bench/sim/policies.py:281-286 | A table trimmed after every write holds exactly the `capacity` most recently written distinct keys. |
| Lru.RecentIffFewSince | src/bench/sim/policies.py:281-286 | A key is among the `capacity` most recent if and only if it was written and fewer than `capacity` distinct keys were written since. |
| LearningHistory.SeenTableIsRecent | src/bench/sim/policies.py:266-289 | The last-seen table holds exactly the most recently seen conversations, each with its latest time. |
| LearningHistory.ObserveIsExact | src/bench/sim/policies.py:273-289 | The answer is the gap since the conversation's previous turn if it is among the `capacity` most recently seen and a tool is known, else nothing. |
| LearningHistory.GapTableIsRecent | src/bench/sim/policies.py:216-233 | A tool in the index has exactly the estimate of its gaps since it last entered, and the tools in it are the most recently recorded. |
| GoTables.LruList.SetValue | src/gateway-plugin/toolgap.go:82-93 | Writing through the element found in the map changes that entry only; map and list stay in bijection. |
| GoTables.LruList.MoveToBack | src/gateway-plugin/session.go:56-59 | Moves the key of the element to the most recent end. |
| GoTables.LruList.Append | src/gateway-plugin/session.go:60-62 | A new element at the back, found under its key. |
| GoTables.LruList.TrimFront | src/gateway-plugin/session.go:63-67 | Front elements leave list and map together until the capacity is met, as the simulator's table is trimmed. |
| GoTables.SessionTracker.constructor | src/gateway-plugin/session.go:29-38 | A non-positive capacity means 8192; the table starts empty. |
| GoTables.SessionTracker.ObserveGap | src/gateway-plugin/session.go:46-72 | Answers and changes as the simulator's `Observe`, with the empty string for no key and no tool. |
| GoTables.ToolGapIndex.constructor | src/gateway-plugin/toolgap.go:53-68 | Non-positive capacity means 512, a weight outside (0, 1] means 0.3; the index starts empty. |
| GoTables.ToolGapIndex.Record | src/gateway-plugin/toolgap.go:71-100 | Map, list and in-place estimate refine the simulator's `Record`. |
| GoTables.ToolGapIndex.Predict | src/gateway-plugin/toolgap.go:104-118 | The simulator's lookup; the empty tool always gets the default prior. |
| RetentionLaws.LearnerMatchesHistory | src/bench/sim/policies.py:434-443 | After any turns the learner's two bounded tables are those of the gaps the whole history attributes to tools. |
| RetentionLaws.IndexHasEvidence | src/bench/sim/policies.py:434-443 | Every tool in the index has recorded, non-negative gaps behind its estimate. |
| RetentionLaws.ConfidenceReaches | src/gateway-plugin/toolgap.go:125-131 | Confidence is at least t if and only if t * variance <= (1 - t) * max(mean squared, 1e-9). |
| RetentionLaws.WindowIsBounded | src/bench/sim/policies.py:460-465 | A confident short prediction is kept at least 1.5 times the mean and one standard deviation past it, and at most 6 seconds. |
| RetentionLaws.DefaultPriorIsDoubted | src/bench/sim/policies.py:206-208 | The default prior never earns a lease. |
| RetentionLaws.LeaseHasEvidenceAndBounds | src/bench/sim/policies.py:445-466 | In every run with default thresholds and no static priors a HIGH lease has a resident tool with recorded gaps behind it and the length bounds above. |
| RetentionLaws.LeaseExpiresUnlessGapsAreZero | src/bench/sim/node.py:111-122 | The node stores that lease with an expiry if and only if some gap recorded since the tool entered the index is positive; otherwise the mark never lapses. |
| RetentionLaws.InstantReturnIsPinnedForever | src/bench/sim/policies.py:460-465 | A concrete run of two turns at one instant whose lease the node stores without an expiry. |
| Reliability.ClassAware | src/bench/sim/policies.py:365-387 | The branches per class, with the coarse score on the spilled ones. |
| Reliability.ClassAwareReliability.constructor | src/bench/sim/policies.py:420-432 | Starts with an empty index and table, default prior and weight, and the given thresholds. |
| Reliability.ClassAwareReliability.LearnFrom | src/bench/sim/policies.py:434-443 | Both tables change as the specification `Learn`. |
| Reliability.ClassAwareReliability.Route | src/bench/sim/policies.py:445-466 | Learns first, routes as class-aware does, then attaches the directive of the class and of the freshly learned prediction. |
| Reliability.DirectivesKeepRouting | src/bench/sim/policies.py:416-417 | Whatever is predicted, node and transfer flag are those of class-aware routing. |
| Reliability.StoredMark | src/bench/sim/node.py:106-122 | What the node makes of the placement: one-shots evict-first for good, documents and doubted tools unmarked, a trusted tool HIGH until its window ends, or for good if the window is empty. |
| ReliabilityRuns.RunLearnsAll | src/bench/sim/policies.py:434-450 | In an engine run the learner depends on the requests alone, not on routing. |
| ReliabilityRuns.LearningRunRegret | src/bench/sim/policies.py:445-466 | The class-aware bounds hold for the recorded regret of every request of every learning run. |
| ReliabilityRuns.LeasesInRun | src/bench/sim/policies.py:445-466 | In every engine run with default thresholds: HIGH only for tool turns with recorded gaps behind them and for 1.5 means to 6 seconds; one-shots evict-first; everything else without directive. |
| ReliabilityRuns.ReportedGapsAreExact | src/bench/sim/engine.py:164-168 | After any policy's run the reported gaps per tool are the history's own re-arrival gaps, in order. |
| HeaderText.AtoiInvertsItoa | src/gateway-plugin/prerequest.go:169-170 | Parsing inverts printing for every 64-bit integer. |
| HeaderText.LeadingPriorityOfPrinted | src/gateway-plugin/prerequest.go:167-171 | The printed priority is read back whatever parameters follow the first semicolon. |
| PreRequest.Hinter.constructor | src/gateway-plugin/prerequest.go:69-79 | Empty tables with the default capacities and weight, and the given thresholds. |
| PreRequest.Hinter.LearnTurn | src/gateway-plugin/prerequest.go:138-143 | Both linked tables change as the simulator's `Learn`. |
| PreRequest.Hinter.Emit | src/gateway-plugin/prerequest.go:145-157 | A lease is printed exactly when the prediction is confident and short, with its window rounded to milliseconds and the scope if there is one. |
| PreRequest.Hinter.Decide | src/gateway-plugin/prerequest.go:129-158 | One-shots evict-first without learning, documents nothing, tool turns learn and then lease. |
| PreRequest.Hinter.BeforeRequest | src/gateway-plugin/prerequest.go:108-126 | Without request or headers nothing changes, the tables included; otherwise the headers are those of the merge below. |
| PreRequestLaws.EmittedPriorityReadsBack | src/gateway-plugin/prerequest.go:160-164 | Every emitted directive, whatever its scope and duration text, reads back as -1 for a one-shot and 50 for a tool turn. |
| PreRequestLaws.RouterWinsDownward | src/gateway-plugin/prerequest.go:116-123 | When a directive is emitted the header's leading priority becomes min(client, router) if the client's parses and the router's otherwise, other headers untouched; when none is, no header changes. |
| PreRequestLaws.TtlIsBounded | src/gateway-plugin/prerequest.go:151-152 | The printed milliseconds are within 0.500001 of the window and at most 6000. |
| PreRequestLaws.HinterLearnsToolTurns | src/gateway-plugin/prerequest.go:130-143 | Over any run the plugin's tables are those of its tool-class requests alone. |
| PreRequestLaws.EmittedLeaseHasEvidence | src/gateway-plugin/prerequest.go:138-157 | In any run with default thresholds an emitted lease names a tool with recorded gaps and lasts between 1.5 means, less rounding, and 6000 milliseconds. |
| HintTexts.SaidInRun | src/gateway-plugin/prerequest.go:129-158 | Over any run the plugin writes "-1" for a one-shot, nothing for a document, and for a tool turn, exactly when its tool returns soon and reliably, the whole text "50; ttl=..." with the nearest millisecond of the least window and the scope if there is one; otherwise nothing. |
| HintTexts.HeaderAfterHook | src/gateway-plugin/prerequest.go:108-126 | The header after the hook, text by text: a client that asks for no more than -1 or 50 keeps its own, any other reads the plugin's, no other header changes. |
| HintTexts.AtoiAccepts | src/gateway-plugin/prerequest.go:167-171 | A priority is read exactly from an optional sign, leading zeros and a decimal number within 64 bits. |
| HintTexts.BlanksAreIgnored | src/gateway-plugin/prerequest.go:167-171 | Blanks around it and everything from the first semicolon on are ignored. |
| TwoLearners.AnswerIsInStream | src/gateway-plugin/session.go:40-72 | On either side, the gap observed at a request is the time since the conversation's latest turn that side looks at, if fewer conversations than the table holds were met since, else nothing. |
| TwoLearners.AnswersAgree | src/gateway-plugin/session.go:14-16 | At a tool turn with conversation and tool the two sides observe the same if and only if both remember the conversation or neither does, and its latest turn of any class is at the time of its latest tool turn. |
| TwoLearners.LessonsAgree | src/gateway-plugin/prerequest.go:130-143 | Over a whole run both sides record the same gaps at every point if and only if every tool turn meets that condition and no other request gives the simulator a gap. |
| TwoLearners.IndicesAgree | src/gateway-plugin/toolgap.go:8 | Then both indices are equal. |
| TwoLearners.OrderlyIndicesAgree | src/gateway-plugin/toolgap.go:8 | They are equal at every request if no conversation mixes tool turns with others, only tool turns name a tool, and no more conversations occur than the last-seen table holds. |
| TwoLearners.MixedConversationDiffers | src/gateway-plugin/prerequest.go:134-143 | A document turn between two tool turns: a gap of 2 in the simulator, 3 in the plugin. |
| TwoLearners.DocumentOpenerDiffers | src/gateway-plugin/prerequest.go:134-143 | A document turn before the first tool turn: a gap of 1 in the simulator, none in the plugin. |
| TwoLearners.NamedToolDiffers | src/gateway-plugin/prerequest.go:134-143 | Two document turns that name a tool: the simulator's index has the tool, the plugin's is empty. |
| TwoLearners.CrowdedOutDiffers | src/gateway-plugin/prerequest.go:134-143 | For every capacity, as many one-shots of fresh conversations between two tool turns: no gap in the simulator, a gap in the plugin. |
| Renaming.IndexMapped | src/bench/sim/policies.py:266-289 | What is learned per tool does not depend on how conversations are named. |
| PluginMirrors.PluginMirrorsRouter | src/gateway-plugin/prerequest.go:129-158 | In an engine run whose requests have taught both sides alike so far, the plugin emits for a request exactly the printed form of the directive on the router's placement: a HIGH lease with the time to live of the same window, evict-first, or nothing. |
| PluginMirrors.OrderlyRunsAreMirrored | src/gateway-plugin/prerequest.go:129-158 | On an orderly stream it does so at every request. |
| GeneratedRuns.GeneratedStreamsAreOrderly | src/bench/sim/workload.py:176-263 | Generated streams with questions shorter than a document, named tools and no more sessions than the table holds are orderly. |
| GeneratedRuns.GeneratedRunsAreMirrored | src/gateway-plugin/prerequest.go:129-158 | So on every such stream the plugin mirrors the router. |
| Queue.BusyIsMaximum | src/bench/sim/node.py:90-92 | After any admissions the busy time is the largest of all the work and, over j, arrival j plus the work from j on, and is one of these. |
| NodeHistory.NodesAreRuns | src/bench/sim/engine.py:200-209 | At every point of every run each node's queue and cache are those of a fresh node that admitted just what was routed to it. |
| NodeHistory.CompletionTime | src/bench/sim/engine.py:183-209 | Arrival plus the recorded end-to-end latency is the chosen node's new busy time plus the transfer time. |
| EngineLaws.RunAddsUp | src/bench/sim/engine.py:182-198 | For every stream and policy: successes, list lengths, regime counts and per-kind counts all equal the number of requests, per-kind blocks sum to the aggregates, reused is at most total. |
| Handover.StepServes | src/bench/sim/engine.py:174-209 | One step of any run under any policy: the chosen node's queue grows by the seconds of service, it holds what fits of its blocks and the request's, the request's blocks under exactly the mark the placement asks for and all others under the mark they had; no other node changes. |
| Handover.StepSheds | src/bench/sim/engine.py:200-209 | In that step, of two blocks in reach the one whose mark gives way never outlives the other. |
| Handover.LeaseLasts | src/bench/sim/engine.py:200-209 | What a placement leases stays on its node under that mark until it lapses or is admitted there again, while the node's counter stands still; for any policy and run. |
| LeaseDecisions.LeaseDecided | src/bench/sim/policies.py:445-466 | In every run a tool turn is placed at priority 50 if and only if its tool is among the 512 recorded most recently with a mean of at most 3 seconds and a variance of at most the squared mean or 1e-9, and then for the least window of 1.5 means and a standard deviation past the mean; one-shots at -1, the rest without directive. |
| LeaseDecisions.WindowIsLeast | src/bench/sim/policies.py:461-464 | The window is the least length that is 1.5 means and reaches one standard deviation past the mean. |
| LeaseDecisions.MarksLand | src/bench/sim/engine.py:200-209 | After such a placement the request's blocks on the chosen node are under exactly that class's mark. |
| LeaseDecisions.LearnedLeaseLasts | src/bench/sim/policies.py:458-465 | The prefix of a trusted tool turn stays on its node at priority 50 until its window ends or the node serves it again, while the node reports no pressure. |
| Ledger.OutcomeIsEntry | src/bench/sim/engine.py:174-198 | The outcome of a request in seconds, blocks and ids: time, latency, regime (blocks copied; nothing copied on the first longest holder; else recompute), regret, coupling, reuse. |
| Ledger.ReportIsLedger | src/bench/sim/engine.py:182-198 | After every prefix of every run the report is the ledger of its requests: the columns, the totals, the count per regime, and per kind the columns and totals of that kind's entries alone. |
| EngineLaws.RegretIsRecorded | src/bench/sim/engine.py:180-186 | The k-th recorded regret is the true gap to the oracle on the state request k met, and is not negative. |
| EngineLaws.OracleRunHasNoRegret | src/bench/sim/policies.py:469-470 | Oracle routing records regret exactly 0 for every request of every run. |
| EngineLaws.CoarseRunRegret | src/bench/sim/policies.py:132-152 | A transfer-aware run never records more than one nominal service time. |
| EngineLaws.ClassRunRegret | src/bench/sim/policies.py:365-387 | A class-aware run never records more than the bound of the request's class. |
| EngineLaws.AffinityLossesAreCoupled | src/bench/sim/engine.py:170-186 | In a pure-affinity run the requests with positive regret are at most those counted as coupled. |
| Simulator.IsCoupled | src/bench/sim/engine.py:108-130 | The probe overwrites every queue tail, asks again, and leaves all nodes exactly as they were. |
| Simulator.ProbeCoupled | src/bench/sim/engine.py:108-130 | Its answer on the real cluster is the coupling question of the specification. |
| Simulator.ServeOne | src/bench/sim/engine.py:160-209 | One iteration on node objects and tables is one step of the value-level engine. |
| Simulator.Replay | src/bench/sim/engine.py:157-212 | The loop over the stream returns what the value-level run reports, the counters of all nodes summed. |
| Simulator.RunSimulation | src/bench/sim/engine.py:142-212 | The same from fresh nodes; with lookahead eviction the nodes look up an exact next-use table of the stream itself. |

## Left out

- Belady.LookaheadIsOptimal: counts distinct requested blocks that are resident, on one node; nothing is claimed for several nodes, which `src/bench/sim/node.py:186-192` itself disclaims.
- SingleNode.LookaheadBoundsReuse: asks that no chain repeats a block, which `Blocks.ChainIsDistinct` gives for every hashed prompt.
- RouterRuns.ApproximateIsPrecise: for arrivals of at least 0, since a placement without directive carries `retain_until` 0; the generator's arrivals are (`GeneratedRuns.GeneratedStreamsAreTimely`).
- RetentionLaws.LeaseHasEvidenceAndBounds: for default thresholds, no static priors and times that do not decrease within a conversation; with other thresholds or priors the bounds are different ones.
- RetentionLaws.InstantReturnIsPinnedForever: a single run by design; the statement for all runs is `RetentionLaws.LeaseExpiresUnlessGapsAreZero`.
- Router.AffinityDominates: for the default weights only, as is `RouterChoices.HalfTheBlocks`; `RouterChoices.TradeOff` is for all.
- LeaseDecisions.LeaseDecided: for default thresholds; `RetentionLaws.ConfidenceReaches` is for all.
- GeneratedTurns.GapIsPause: for at most as many sessions as the last-seen table holds; beyond that `LearningHistory.ObserveIsExact` says what is observed.
- PluginMirrors.PluginMirrorsRouter: conversation ids appear in the gateway as distinct non-empty texts, whatever they are; a tool with the empty name, which the gateway reads as no tool, is excluded.
- Workload.GenerateSessions: the sampled distributions are not modelled and nothing statistical is claimed; call ids and argument texts of tool calls are left out, and the library sort is an insertion sort by the same key.
- PreRequest.Hinter.Decide: request class, last tool name and conversation key are inputs; body parsing, the FNV key and the factory's parameter decoding are not modelled.
- PreRequest.Hinter.Emit: how a duration prints is a parameter, so the statements hold for any rendering; a window under half a millisecond prints as zero and what a backend makes of that is outside.
- Simulator.RunSimulation: policies are functions over values with explicit state, so a policy object that mutates nodes is outside; the router classes are proved against the same functions separately.
- The generators of document and one-shot requests and the merge of several streams.
- Floating-point rounding and overflow, NaN, and Python's concrete `hash`.
- Locks of the Go tables: each call is modelled as one atomic step, which is what the mutex provides.
- `round_robin`, `build_policy`, `class_name`, `ToolGapIndex.confidence`: one-line members that add no property.
- Derived percentages (`hit_rate`, `regime_mix`, `coupled_fraction`, `mean_regret`) and the never-written `errors` field.
- The command line, reports, metrics scraping, live traffic, prompts, logging, and Kubernetes plumbing.
- The RFC document's rules the code does not have: maximum of live directives on shared blocks, token-range directives, server-side caps on lease length.
