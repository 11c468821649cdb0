# FederLoom: a verified model

FederLoom scores attacking IP addresses, gossips reports between nodes and turns scores into firewall
blocks. This project models its core and proves what the core promises, over every input and every
run. `dafny verify dfyconfig.toml` checks all of it.

| files | what they hold |
|---|---|
| `powers.dfy` | products and powers of reals |
| `reputation.dfy`, `sweeps.dfy`, `engine.dfy` | decay, accumulation, disputes, records as replays of their history, decay sweeps, the stored records |
| `stranger_bound.dfy`, `reach.dfy`, `stranger_exact.dfy`, `stranger_lowering.dfy`, `stranger_votes.dfy` | what strangers can do to a score: the two-run bound on their reports, how far a voice can climb, exactly when the bound holds, exactly when their reports lower a score, what their disputes can take |
| `recompute.dfy`, `recompute_order.dfy` | the federated recompute: the fold of synthetic votes against its closed form, and its monotonicity |
| `rules.dfy`, `rule_spec.dfy`, `burst.dfy`, `burst_exact.dfy`, `lint.dfy` | rule evaluation with memoised burst counts and what it decides condition by condition, evicting burst windows, the stranger-safety lint |
| `governor.dfy`, `rate_limit.dfy`, `dedup.dfy`, `query_cache.dfy` | the rate ring, its hysteresis, and the two bounded caches, each against a plain history |
| `netutil.dfy` (modules `NetUtil`, `NeverBlock`), `address_spec.dfy`, `wire.dfy`, `trust.dfy`, `relay.dfy` | key normalisation and never-block entries, the same in plain arithmetic, signed messages, anchors and certificates, hop rules |
| `node_model.dfy`, `node_spec.dfy`, `node_runs.dfy`, `node_safety.dfy`, `disputes.dfy`, `dispute_runs.dfy`, `lint_runs.dfy` | one node as a state machine, what each of its steps does to an event's key, and its safety over runs |
| `node.dfy` | the node's objects and methods, each proved to take exactly the machine's step, so that every call sequence is a run of the machine |
| `publication.dfy`, `network.dfy`, `flood.dfy` (modules `Flood`, `Once`) | a network of such nodes: bridge invariant, end of flooding, at-most-once |

How things are represented. Scores are `real`; time is a natural number of ticks, and tick 0 is Go's
zero time; a half-life is a retained fraction `d` per tick, 0 < d < 1, or none. IP texts are parsed
addresses (`NetUtil.Text`); parsing, printing and signing are functions in `NodeModel.Config`. A
signature is an abstract relation on message bytes. The answers of the database and the sink are
inputs of a step (`dbOk`, `sinkOk`), as are the answers of the governor and the dedup cache in the
pure machine; `NodeObject.Node` computes the last two with the real objects.

Assumed throughout: reporter trust in [0,1], `diversityRepeat` in (0,1], `strangerCap` >= 0,
`disputeWeight` > 0 and a clock that does not run backwards.

## What the code does not promise

Each of these is a claim one might expect, shown false of the code by a lemma, with the exact condition
where one exists.

- Decay sweeps compound, because `Engine.Decay` does not move `LastSeen`
  (internal/reputation/engine.go:219-221): `Sweeps.SweepBound` says exactly when they cost more than
  the single exponential.
- Strangers can add more than the cap (counted against the same history without their reports) when
  sweeps meet decay, and when a dispute weight above 100, which the configuration accepts, lets them
  waste dispute budget. `StrangerExact.BoundIsExact` says for which parameters the bound holds.
- Strangers can lower a score: they name a subnet and so damp its first anchored report.
  `StrangerLowering.LoweringIsExact` says for which histories, `StrangerLowering.LoweringPerConfiguration`
  under which parameters.
- In the recompute the first repeat vote is itself first from its subnet, so one more vote counts fully
  than the comment at internal/repquery/recompute.go:61-63 says; the closed form uses
  min(groups, max(subnets,1)+1).
- A burst count over a short window evicts what a longer one should see
  (`Burst.MixedWindowsUndercount`). Counts over a window are true in every run iff no burst rule in use
  has a shorter one (`BurstExact.CountsAreExactIff`).
- The gate admits fewer than budget + 1 remote events in ten ticks, but not always fewer than the budget.
  That smaller bound holds of all runs iff charge and gate always read one tick, or the budget is at
  most one event and the gate comes less than ten ticks after the charge (`RateLimit.StrictLimitIff`);
  for a budget above one a lag of a single tick breaks it (`RateLimit.StraddlingEventSlipsThrough`).
- The legacy-mode warning (internal/rules/rule.go:91) is silent though strangers can block exactly when
  the threshold equals the cap, below 100 (`Lint.LegacyWarningMisses`).
- A never-block entry longer than the IPv6 prefix protects its key only if it starts on a block boundary
  (`NeverBlock.EntryProtectsKeyIff`); `::1/128` under /64 does not (`NeverBlock.LoopbackKeyUnprotected`).
  An address with a zone is covered by no entry, though its key, which has none, may be
  (`NeverBlock.CoarseEntriesProtectKeys`).
- Two reports, one with bars in its reason and one with bars in its subnet, can share their signed bytes
  (`Wire.BarsCollide`). Reports are identified by their bytes iff bars are kept out of the reason of all
  of them, or out of the subnet of all of them (`Wire.BytesIdentifyIff`).
- A materialise call checked before a dispute still blocks and marks after it
  (`DisputeRuns.CheckedBeforeDisputeStillBlocks`, a run from an empty store), and only such a call does
  (`Disputes.DisputeEndsBlocking`).
- A sweep lifts a materialised block that nobody disputed (`DisputeRuns.SweepLiftsMaterialisedBlock`, a run
  from an empty store), exactly when the key's score has faded (`Disputes.SweepLiftsFadedBlocks`).
- A mark outlives a later local block, so a dispute lifts that block (`DisputeRuns.DisputeLiftsLocalBlock`,
  a run from an empty store); it lifts whatever block stands iff the key carries a live mark
  (`DisputeRuns.DisputeLiftsIff`).
- `AddCert` overwrites a cached certificate even by a shorter-lived one, iff that one verifies
  (`Trust.AddCertShortensIff`); once it lapses the peer is a stranger though the longer one still stood
  (`Trust.ShorterCertTakesOver`). The reload of the certificate file has the missing guard
  (`Trust.LongestLivedWins`).

## Model

| member | source | states |
|---|---|---|
| `Reputation.DecayComposes` | internal/reputation/decay.go:13-23 | reading a score at b and again at c gives what reading it once at c gives |
| `Reputation.HalfLifeHalves` | internal/reputation/decay.go:13-23 | after the half-life the score is half |
| `Reputation.DecayBounds` | internal/reputation/decay.go:13-23 | decay never raises a score and never makes it negative |
| `Reputation.DecayNeverRunsBack` | internal/reputation/decay.go:13-23 | a clock that ran backwards, or no half-life, decays nothing |
| `Reputation.WeightFor` | internal/reputation/engine.go:11-33 | every scenario weighs between 2 and 50 points |
| `Reputation.ScenarioWeights` | internal/reputation/engine.go:11-33 | a spamtrap hit weighs most, then successful logins, then attempts, and everything else the default |
| `Reputation.AnchoredReportClosesGap` | internal/reputation/engine.go:54-102 | an anchored report shrinks the gap between the decayed score and 100 by one minus its power, damped for a repeated subnet |
| `Reputation.AnchoredDisputeScales` | internal/reputation/engine.go:116-152 | an anchored dispute scales the decayed score by one minus its power, floored at zero |
| `Reputation.ApplyKeepsRange` | internal/reputation/engine.go:54-152 | reports, disputes and sweeps keep the score in [0,100] and both stranger budgets within the cap |
| `Reputation.ReplayInRange` | internal/reputation/engine.go:54-152 | the same over every history |
| `Reputation.ReplayLists` | internal/reputation/engine.go:54-152 | over every history Groups, SubnetsSeen and DisputeSubnetsSeen are duplicate-free lists of exactly the anchored groups, reporting subnets and anchored disputing subnets; Corroboration counts the groups |
| `Reputation.RecordOfHistory` | internal/reputation/engine.go:54-152 | both together: a record in range whose lists are those of its history |
| `Reputation.ReplayNames` | internal/reputation/engine.go:54-152 | over every history the record names the distinct reasons and reporters, FirstSeen is the time of the first report and LastSeen that of the last report or dispute |
| `StrangerBound.VoteKeepsGap` | internal/reputation/engine.go:54-102 | a report, no less diverse in the second run, never widens the gap between two runs' scores |
| `StrangerBound.DisputeKeepsGap` | internal/reputation/engine.go:116-152 | nor does an anchored dispute |
| `StrangerBound.CappedDisputeKeepsGap` | internal/reputation/engine.go:116-152 | an un-anchored dispute up to full power never widens the score gap and the gap of spent dispute budgets taken together |
| `StrangerBound.StrangerDisputeIs` | internal/reputation/engine.go:116-152 | an un-anchored dispute takes its share of the score or what is left of the budget, whichever is less |
| `StrangerBound.RunsStayRelated` | internal/reputation/engine.go:54-152 | for every history of reports and disputes of any kind, the lead of the full run in score and in spent dispute budget stays within what strangers contributed |
| `StrangerBound.StrangersAddAtMostTheCap` | internal/reputation/engine.go:67-87 | the score is at most strangerCap above that of the history without stranger reports, at every later time, unless sweeps meet decay or disputes weigh more than 100 |
| `Reach.ScoresStayBelow` | internal/reputation/engine.go:54-102 | no history ever brings a score to 100 |
| `Reach.ReachLevel` | internal/reputation/engine.go:54-102 | repeating one report reaches every level below 100 that its budget allows |
| `Reach.SpendBudget` | internal/reputation/engine.go:67-87 | a stranger can spend exactly what is left of the cap |
| `StrangerExact.WastedDisputesBreakTheBound` | internal/reputation/engine.go:116-152 | for every dispute weight above 100 and cap between 0 and 100 a history exceeds the bound |
| `StrangerExact.BoundIsExact` | internal/reputation/engine.go:54-225 | without sweeps the bound holds of all histories iff the dispute weight is at most 100, or the cap 0 or at least 100; with sweeps iff the cap is at least 100, or nothing decays and the former holds |
| `StrangerLowering.DampedAlike` | internal/reputation/engine.go:59-67 | both runs damp a report alike unless it is trusted and the first anchored one of a subnet a stranger named |
| `StrangerLowering.StrangersNeverLower` | internal/reputation/engine.go:54-225 | with full weight for repeats, or no such report, stranger reports never lower the score, over all histories, sweeps and disputes included |
| `StrangerLowering.LoweringIsExact` | internal/reputation/engine.go:54-225 | for every history: some valid parameters let the strangers lower the score iff it holds such a report |
| `StrangerLowering.LoweringPerConfiguration` | internal/reputation/engine.go:59-67 | for every parameter set: strangers never lower a score in any history iff repeats count in full |
| `StrangerVotes.StrangerReportIs` | internal/reputation/engine.go:67-87 | an un-anchored report takes its share of the gap to 100 or what is left of the budget, whichever is less |
| `StrangerVotes.RunsFollow` | internal/reputation/engine.go:54-225 | over every history the lag of the full run, in score and in spent report budget, stays within what un-anchored disputes took |
| `StrangerVotes.StrangersTakeAtMostTheCap` | internal/reputation/engine.go:104-152 | a flood of un-anchored disputes cannot clear a score: over every history, sweeps included, and every dispute weight, deleting them raises it by at most the cap |
| `StrangerExact.SweepsBreakTheBound` | internal/reputation/engine.go:211-225 | with decay and a cap below 100 a history with one sweep and no dispute exceeds the bound |
| `Sweeps.SweepsCompound` | internal/reputation/engine.go:211-225 | a series of sweeps retains the fraction of the sum of all elapsed times |
| `Sweeps.SweepBound` | internal/reputation/engine.go:211-225 | sweeps leave at most the single exponential, strictly less iff the score is positive, decays, and met an earlier sweep at positive elapsed time |
| `ScoreStore.FaithfulStep` | internal/reputation/engine.go:178-225 | every stored record stays in range and the replay of its changes |
| `ScoreStore.Engine.Record` | internal/reputation/engine.go:178-191 | stores the accumulated record, or changes nothing when the database fails |
| `ScoreStore.Engine.RecordDispute` | internal/reputation/engine.go:196-207 | stores the disputed record and returns exactly the distinct anchored subnets that ever disputed it |
| `ScoreStore.Engine.Decay` | internal/reputation/engine.go:211-225 | stores the decayed score; unknown keys score 0 and are not written |
| `Recompute.MaxWeightScenario` | internal/repquery/recompute.go:19-28 | returns a scenario of greatest weight, or the empty one |
| `Recompute.CountVotes` | internal/repquery/recompute.go:44-71 | the clamped weight, groups and disputes, and the number of distinct-subnet votes |
| `Recompute.FoldGroups` | internal/repquery/recompute.go:73-84 | folding g group votes of strength q gives 100(1-max(1-q,0)^m max(1-rq,0)^(g-m)) with m = min(g, max(subnets,1)+1), and the record's lists; with negative trust at most 0 |
| `Recompute.FoldStep` | internal/repquery/recompute.go:73-84 | one more vote of any strength through `Accumulate` keeps the fold on the closed form |
| `Recompute.StrangerFold` | internal/repquery/recompute.go:85-89 | the strangers' synthetic vote adds min(q(100-s), cap) points, up to 100 |
| `Recompute.FoldDisputes` | internal/repquery/recompute.go:91-99 | n disputes scale the score by max(0, 1-T*dw/100)^n; with negative trust it stays at most 0 |
| `Recompute.FoldVotes` | internal/repquery/recompute.go:73-99 | groups, strangers, disputes in that order give the closed form, or at most 0 with negative trust |
| `Recompute.RecordFromEvidence` | internal/repquery/recompute.go:40-117 | for every federation discount: the looped fold equals the closed form written out in the evidence's own buckets, clamps and weight, decayed once from the window's end, or 0 if the discount is negative; metadata only, no groups and no corroboration; an empty window gives the empty record |
| `Recompute.RecomputedMeetsClosedForm` | internal/repquery/recompute.go:40-107 | the score in terms of the buckets "groups", "subnets" and "dispute_subnets", the limit 64 and the claimed weight clamped to [0,1] |
| `RecomputeOrder.MoreGroupsLeaveLess` | internal/repquery/recompute.go:54-84 | more groups never leave a larger gap to 100, though they may turn full votes into repeats |
| `RecomputeOrder.UndecayedMonotone` | internal/repquery/recompute.go:54-99 | the undecayed score grows with groups, subnets, strangers and the scenario's weight and falls with disputes |
| `RecomputeOrder.RecomputeMonotone` | internal/repquery/recompute.go:40-117 | so does the federated score; scenarios matter only through their greatest weight, and a heavier one never lowers it |
| `RecomputeOrder.GreatestWeightUnique` | internal/repquery/recompute.go:19-28 | that greatest weight is unique |
| `Rules.KeepValidIs` | internal/rules/rule.go:227-244 | rule by rule and in order, a rule stays iff its action is block, watch or ignore and it asks for no burst without a window |
| `Rules.ValidateRules` | internal/rules/rule.go:227-244 | the loop keeps exactly those rules |
| `Rules.LintBlockRules` | internal/rules/rule.go:256-268 | warns of exactly the block rules that strangers could satisfy |
| `Rules.RuleSet.Load` | internal/rules/rule.go:85-95 | installs the valid rules of a readable file and warns of a legacy threshold below the cap |
| `Rules.RuleSet.Reload` | internal/rules/rule.go:180-213 | installs the valid rules and warns iff the lint is not silent on them |
| `Rules.RuleSet.Evaluate` | internal/rules/rule.go:100-147 | the memoised loop returns the verdict of the scan and leaves its windows; an empty list falls back to the threshold |
| `RuleSpec.ReasonDecides` | internal/rules/rule.go:217-222 | a rule on a starred stem acts on every reason that starts with it and no other, a plain one on exactly its reason, one without a reason on all |
| `RuleSpec.ScanDecides` | internal/rules/rule.go:113-147 | for every rule list and any windows: the first rule whose reason, score, group, stranger and burst conditions hold decides, no burst count exceeding what is on record in its window |
| `RuleSpec.EvaluationDecides` | internal/rules/rule.go:100-147 | with one window the counts are the numbers on record; without rules the score blocks from the threshold on |
| `Burst.BurstStore.Record` | internal/rules/burst.go:23-28 | appends the timestamp |
| `Burst.BurstStore.Count` | internal/rules/burst.go:32-49 | never more than the true number recorded in the window, and equal to it iff no earlier count evicted one of them |
| `Burst.LiveFrom` | internal/rules/burst.go:36-41 | drops exactly the leading timestamps before the cutoff |
| `Burst.KeepsTrim` | internal/rules/burst.go:32-49 | trimming keeps a suffix of the recorded history and its exactness condition |
| `Burst.MixedWindowsUndercount` | internal/rules/burst.go:39-47 | a short count makes a later longer one too low |
| `BurstExact.ScanIsFirstMatch` | internal/rules/rule.go:113-147 | with one shared window the memoised scan is first-match evaluation |
| `BurstExact.ExactTrim` | internal/rules/burst.go:39-47 | a trim over the same or a wider window evicts nothing that still lies in this one |
| `BurstExact.WiderRunsStayExact` | internal/rules/burst.go:23-49 | over every run whose burst windows are at least this wide nothing still in it is evicted |
| `BurstExact.LeastWindowCountsTruly` | internal/rules/burst.go:32-49 | so a count over the shortest window in use is the true number |
| `BurstExact.CountsAreExactIff` | internal/rules/burst.go:32-49 | for any set of windows in use, counts over a window are true in every run iff none of them is shorter |
| `BurstExact.SharedWindowIsExact` | internal/rules/rule.go:113-147 | every evaluation whose burst rules share the shortest window of the run is first-match evaluation over all that was ever recorded |
| `Lint.StrangerRecord` | internal/reputation/engine.go:67-87 | strangers alone give a record no group, no corroboration and a score of at most the cap |
| `Lint.NoRuleNoBlock` | internal/rules/rule.go:113-147 | with no burst on record only a matching block rule without a burst condition blocks |
| `Lint.SilentNeverBlocks` | internal/rules/rule.go:256-268 | under silent rules no record made by strangers alone gets a block |
| `Lint.ReachIsExact` | internal/reputation/engine.go:67-87 | strangers alone can bring a record to a level iff it is within the cap and below 100 |
| `Lint.LintIsExact` | internal/rules/rule.go:256-268 | for one block rule and every cap: strangers alone can make it block iff the lint speaks and it asks for less than 100 |
| `Lint.LegacyIsExact` | internal/rules/rule.go:106-111 | in legacy mode strangers can make the rules say block iff the threshold is at most the cap and below 100 |
| `Lint.LegacyWarningMisses` | internal/rules/rule.go:85-95 | the load-time warning is silent though they can iff threshold and cap are equal and below 100, and speaks though they cannot iff the threshold is at least 100 and below the cap |
| `LintRuns.ScanTrims` | internal/rules/rule.go:113-147 | evaluation never fills an empty window |
| `LintRuns.BurstsNeedAnchors` | internal/node/node.go:493-497 | in every run a key's burst window is empty unless an anchored peer or the node itself reported the key |
| `LintRuns.BlockFollowsVerdict` | internal/node/node.go:498-518 | the remote path blocks only if the rules said block |
| `LintRuns.LintIsSound` | internal/node/node.go:476-509 | in every run, while the lint is silent on the rules in force, no report of a key that only un-anchored peers reported gets a block from the rules, even before the node's downgrade |
| `Governor.SheddingIsHysteresis` | internal/resources/governor.go:86-102 | shedding iff some past call saw the budget reached and none since saw four fifths of it |
| `Governor.ShedChangesWhen` | internal/resources/governor.go:86-102 | a call of Shed starts shedding at as many charges in ten ticks as the budget and ends it at four fifths or fewer, counted entry by entry |
| `Governor.BucketsHoldTheWindow` | internal/resources/governor.go:64-70 | the ten buckets sum to the charges of the last ten ticks |
| `Governor.Governor.ZeroElapsed` | internal/resources/governor.go:43-62 | empties exactly the buckets whose tick has passed |
| `Governor.Governor.Advance` | internal/resources/governor.go:43-62 | moving on keeps the ring equal to the call log |
| `Governor.Governor.RateLocked` | internal/resources/governor.go:64-70 | the sum is the number of charges in the last ten ticks |
| `Governor.Governor.Charge` | internal/resources/governor.go:73-82 | adds one charge at the tick, or nothing without a budget |
| `Governor.Governor.Shed` | internal/resources/governor.go:86-102 | answers the hysteresis of the call log |
| `Governor.Governor.Rate` | internal/resources/governor.go:105-110 | answers the charges of the last ten ticks |
| `RateLimit.RemoteRateLimit` | internal/node/node.go:400-404 | fewer than budget + 1 remote events pass in any ten ticks of any run, fewer than budget if charge and gate read one tick |
| `RateLimit.GatesNeedCharges` | internal/node/node.go:400-404 | every gate call since a tick has its own charge since then, but for the first |
| `RateLimit.TinyBudgetPassesNone` | internal/resources/governor.go:86-102 | under a budget of at most one event, an event whose charge is still in the window is always shed |
| `RateLimit.StraddlingEventSlipsThrough` | internal/resources/governor.go:73-102 | for every budget above one and every lag of 1 to 10 ticks a run in which as many events as the budget, or more, pass in ten ticks; for every budget at a lag of 10 |
| `RateLimit.StrictLimitIff` | internal/node/node.go:400-404 | for every budget and greatest lag: fewer than the budget pass in ten ticks of every run iff the lag is 0, or the budget is at most one and the lag below ten |
| `Dedup.LiveDropMeansFull` | internal/node/dedup.go:46-66 | a live entry is dropped only from a cache full of live entries none of which is older |
| `Dedup.MarkingAgrees` | internal/node/dedup.go:30-42 | a marking answers as the unbounded TTL set does, and stays in agreement unless it drops a live entry |
| `Dedup.DedupCache.EvictOldest` | internal/node/dedup.go:46-66 | drops the expired entries, and one oldest live entry only if that made no room |
| `Dedup.DedupCache.MakeRoom` | internal/node/dedup.go:30-42 | leaves room for one more entry |
| `Dedup.DedupCache.Mark` | internal/node/dedup.go:30-42 | reports a live entry, else inserts one; never exceeds the bound |
| `Dedup.DedupCache.Seen` | internal/node/dedup.go:30-42 | true iff the key was marked less than the TTL ago, else marks it now; agrees with an unbounded TTL set until a live entry is dropped, and extends the trail of calls |
| `Dedup.ForgottenOnlyByAgeOrCrowding` | internal/node/dedup.go:30-66 | between two calls that both find a key absent or expired, its entry's life ran out or a cache full of live entries crowded it out |
| `QueryCache.Querier.Evict` | internal/repquery/querier.go:196-220 | drops expired answers, each by its own TTL, and an oldest one only from a cache full of live answers |
| `QueryCache.Querier.Store` | internal/repquery/querier.go:98-103 | caches the answer within the bound |
| `QueryCache.Querier.Query` | internal/repquery/querier.go:76-108 | serves the cached answer while it is younger than its life, a fifth for a negative one, and else caches and serves the fetched one |
| `NetUtil.NormalizeIdempotent` | internal/netutil/netutil.go:20-47 | normalising a key again changes nothing |
| `NetUtil.Renormalise` | internal/netutil/netutil.go:20-47 | re-masking a peer's key at an equal or coarser prefix is normalising the raw address |
| `NetUtil.MaskNeverMaps` | internal/netutil/netutil.go:38-46 | masking never yields an IPv4-mapped address (section 2.5.5.2 of RFC 4291) |
| `NetUtil.KeyExists` | internal/netutil/netutil.go:20-60 | exactly unparsable text and IPv4 in CIDR form have no key, and every key has its address back |
| `AddressSpec.KeyIs` | internal/netutil/netutil.go:20-60 | the key of an IPv4 address is itself, that of an IPv6 address the start of its block of 2^(128-prefix), without zone |
| `AddressSpec.UnmapIs` | internal/netutil/netutil.go:20-60 | addresses from ::ffff:0:0 to ::ffff:ffff:ffff are the IPv4 addresses of their low 32 bits, all others themselves |
| `AddressSpec.CoversIff` | internal/enforce/neverblock.go:73-84 | a prefix covers the zone-less addresses of its family in its own block |
| `AddressSpec.EntryIs` | internal/enforce/neverblock.go:42-69 | a single host on the list covers itself alone, a prefix its block, a zoned host nothing |
| `AddressSpec.WhitelistIs` | internal/store/whitelist.go:46-67 | a whitelist names its single hosts, mapped or not, and the blocks of its prefixes |
| `AddressSpec.ProtectedIs` | internal/node/node.go:336-341 | protected means covered by a never-block entry or named by the whitelist |
| `NeverBlock.NewNeverBlockList` | internal/enforce/neverblock.go:42-69 | the list covers exactly what its parsable entries cover |
| `NeverBlock.Contains` | internal/enforce/neverblock.go:73-84 | true iff some entry covers the key's address |
| `NeverBlock.CoarseEntriesProtectKeys` | internal/enforce/neverblock.go:42-84 | an entry no longer than the configured prefix covers a key iff it covers the address without its zone; it covers the address itself iff moreover there is no zone |
| `NeverBlock.EntryProtectsKeyIff` | internal/enforce/neverblock.go:42-84 | any entry that covers an address covers its key iff it is no longer than the prefix or block-aligned |
| `NeverBlock.LoopbackKeyUnprotected` | internal/enforce/neverblock.go:13-30 | the default entry ::1/128 does not protect the loopback key under /64 |
| `Wire.SignedBytesAre` | internal/identity/sign.go:18-45 | the signed bytes field by field, with a tag of their own for votes |
| `Wire.SignedRoundTrip` | internal/identity/sign.go:18-45 | splitting the signed bytes at bars recovers the kind and every signed field |
| `Wire.SignedBytesIdentify` | internal/identity/sign.go:18-45 | equal bytes mean equal kind and equal signed fields |
| `Wire.KindsNeverCollide` | internal/identity/sign.go:40-45 | no report shares its bytes with a vote, whatever the fields hold |
| `Wire.ReportBytesIdentify` | internal/identity/sign.go:18-25 | two reports stay distinct even if their reasons hold bars |
| `Wire.BarredSubnetIdentifies` | internal/identity/sign.go:18-25 | two reports stay distinct, too, if only their subnets hold bars |
| `Wire.BarsCollide` | internal/identity/sign.go:18-25 | a report with a barred subnet and one with a barred reason that share their bytes |
| `Wire.BytesIdentifyIff` | internal/identity/sign.go:18-25 | reports are identified by their bytes iff bars are kept out of all their reasons or out of all their subnets |
| `Wire.DedupKeyIdentifies` | internal/node/dedup.go:10-12 | the dedup key is injective even if only the reason holds bars |
| `Wire.DedupKeyNonEmpty` | internal/node/dedup.go:10-12 | it is never the empty key that the eviction loop treats as none |
| `Trust.WithCertIs` | internal/trust/store.go:67-75 | a certificate from the wire replaces its own peer's iff it counts |
| `Trust.AddCertShortensIff` | internal/trust/store.go:67-75 | a wire certificate shortens what is cached for a peer iff it verifies and ends sooner; a file certificate never does |
| `Trust.ShorterCertTakesOver` | internal/trust/store.go:67-95 | a peer with two good certificates becomes a stranger when the later, shorter one lapses |
| `Trust.LongestLivedWins` | internal/trust/store.go:156-165 | a reload of certificates keeps the longest-lived verified one for every peer |
| `Trust.CertVerifiesIff` | internal/trust/store.go:67-75 | a certificate counts iff its signature is good, its fields are well-formed and it has not run out |
| `Trust.ResolutionIs` | internal/trust/store.go:79-95 | a peer is anchored iff its cached certificate has not lapsed and names a Person with a live anchor; it has that anchor's weight and Person, else a stranger's |
| `Trust.ResolutionSound` | internal/trust/store.go:79-95 | a resolution is within [0,1], and anchored only for a peer with a verified unexpired certificate from a live anchor |
| `Trust.ReloadKeepsSound` | internal/trust/store.go:111-187 | reloads keep weights in (0,1] and certificates verified |
| `Trust.LastAnchorWins` | internal/trust/store.go:128-146 | for every key the last entry of positive weight counts, its weight cut to at most one |
| `Trust.ReloadIs` | internal/trust/store.go:111-187 | a reload blocks exactly the listed peers, anchors exactly the listed keys and keeps the longest-lived certificates; what cannot be read stays |
| `Trust.LoadAnchors` | internal/trust/store.go:128-146 | drops non-positive weights and clamps the rest to at most 1; the last entry per key wins |
| `Trust.LoadCerts` | internal/trust/store.go:156-165 | merges verified certificates, never replacing one by a shorter-lived |
| `Trust.TrustStore.AddCert` | internal/trust/store.go:67-75 | caches a certificate iff it verifies |
| `Trust.TrustStore.Resolve` | internal/trust/store.go:79-95 | answers the resolution of the current state |
| `Trust.TrustStore.Reload` | internal/trust/store.go:111-187 | each file replaces or extends its part of the state, or keeps the last good one |
| `NodeRuns.TrustStaysSound` | internal/trust/store.go:67-187 | in every run of a node the trust state is sound |
| `NodeSpec.EffectsAreAuthentic` | internal/node/node.go:391-434 | in every run a remote event that changes anything came from a known unblocked publisher, was not shed, has a good signature if any, and if its reporter is another is signed and passed on by the last hop of its trace |
| `NodeSpec.TakesUpIff` | internal/node/node.go:391-474 | exactly which reports and votes are scored, guard by guard |
| `NodeSpec.ReportTrust` | internal/node/node.go:462-471 | a report that is taken up adds its reporter's own certificate, even if it was seen before; nothing else it does touches the trust |
| `NodeSpec.ReportSpec` | internal/node/node.go:472-522 | a report taken up for the first time is recorded with its reporter's weight, discounted iff un-anchored and from abroad, blocked iff the rules say so and a group is on record, and passed on iff this node bridges and the trace has room; any other report does nothing of that |
| `NodeSpec.VoteSpec` | internal/node/node.go:527-545 | an authentic first-seen vote disputes the record with its reporter's standing; any other leaves records and log alone |
| `NodeSpec.VoteTrust` | internal/node/node.go:532-536 | a first-seen vote adds its reporter's own certificate |
| `NodeSpec.SameReportIff` | internal/node/dedup.go:10-12 | two reports are one to the dedup cache iff reporter, key, reason and time agree |
| `NodeSpec.SweepSpec` | internal/node/node.go:637-656 | a sweep stores the decayed score, keeps the rest of the record and unblocks iff the score is below the threshold |
| `NodeSpec.OwnVoteSpec` | internal/node/node.go:590-593 | the node's own vote disputes its record with its own standing |
| `NodeSpec.LocalSpec` | internal/node/node.go:328-385 | a local report of an unprotected key is recorded at full trust, blocked iff the rules say so and published as this node's own signed report; any other does nothing |
| `NodeRuns.StepFollowsChange` | internal/node/node.go:328-656 | a step changes a key's record by exactly the change it makes to that key, and no other record |
| `NodeRuns.StoreIsReplay` | internal/node/node.go:328-656 | in every run each record is the replay of the changes made to its key |
| `NodeRuns.ChangesAreValid` | internal/node/node.go:476-492 | every observation a run records has trust in [0,1], discount included, and the step's time |
| `NodeRuns.RecordsOfRun` | internal/node/node.go:328-656 | in every reachable state each record is in range and its lists are exactly the distinct contributors of the run |
| `NodeSafety.StepAppends` | internal/node/node.go:328-729 | what a step blocks is unprotected, a remote block has an anchored group on record, a materialised block a pending check |
| `NodeSafety.NothingProtectedIsBlocked` | internal/node/node.go:336-341 | in every run no key passed to Block or BlockFor is on the never-block list or the whitelist |
| `NodeSafety.AnchoredReportsAreBacked` | internal/node/node.go:462-492 | an anchored report on record came from this node or from a vouched peer |
| `NodeSafety.RemoteBlocksAreBacked` | internal/node/node.go:498-518 | in every run a block on the remote path implies an observation of the key by this node, or an authentic report of it by a peer whose certificate had verified and whose anchor was live then |
| `Disputes.MarksOfRun` | internal/node/node.go:551-569 | in every run a key is materialised iff it was marked and not suppressed since, and disputed iff it was ever suppressed |
| `Disputes.VoteEffect` | internal/node/node.go:527-569 | a counted vote suppresses, clears the mark and lifts a marked block iff the disputing subnets reach the floor |
| `Disputes.OnlyDiverseDisputesLift` | internal/node/node.go:551-569 | in every run a dispute lifts a block only if a materialise call marked the key, no dispute cleared it since, and at least the floor of distinct anchored subnets disputed it |
| `Disputes.ChecksOfRun` | internal/node/node.go:703-729 | in every run each materialised block was checked when no suppression of its key had happened |
| `Disputes.DisputeEndsBlocking` | internal/node/node.go:713-718 | a call that checks after a suppression never blocks the key |
| `Disputes.HitsOfRun` | internal/node/node.go:703-712 | in every run each materialised block comes from a hit on its key with materialisation on, a score at the threshold and evidence from the floor of subnets |
| `Disputes.ProvenanceOfRun` | internal/node/node.go:719-727 | in every run a key is marked only after a materialise call blocked it |
| `Disputes.MaterialiseCompletes` | internal/node/node.go:719-727 | a checked call blocks and marks, whatever happened since its check |
| `DisputeRuns.CheckedBeforeDisputeStillBlocks` | internal/node/node.go:713-727 | a run from an empty store in which check, dispute, block and mark leave a disputed key blocked and marked |
| `DisputeRuns.DisputeLiftsIff` | internal/node/node.go:551-569 | in every run a counted vote lifts a block iff the floor is reached and the key carries a live mark |
| `Disputes.SweepLiftsFadedBlocks` | internal/node/node.go:637-656 | a sweep lifts a block iff the key's score has faded below the threshold, and leaves the mark |
| `DisputeRuns.SweepLiftsMaterialisedBlock` | internal/node/node.go:637-656 | a run from an empty store in which a sweep lifts a materialised block of a key never disputed, and its mark stays |
| `DisputeRuns.DisputeLiftsLocalBlock` | internal/node/node.go:555-569 | a run from an empty store in which a dispute lifts the block that a local event placed after a materialise mark |
| `NodeObject.WhitelistContains` | internal/store/whitelist.go:46-67 | true iff some entry allows the key's address |
| `NodeObject.Node.ProcessLocal` | internal/node/node.go:328-385 | takes the local step, charges the governor once without asking it, and remembers the event's dedup key |
| `NodeObject.Node.ProcessRemote` | internal/node/node.go:391-522 | takes the remote step; its gate answer is that of the call log, which it extends by one charge, one gate call and at most one question; its duplicate answer is that of the cache, in which it leaves the event's key iff the event got that far; an event not shed is one more admitted |
| `NodeObject.Node.ProcessReport` | internal/node/node.go:440-522 | the report part of it, with what it does to cache and call log |
| `NodeObject.Node.ProcessDispute` | internal/node/node.go:527-545 | the vote part of it, with what it does to the cache |
| `NodeObject.Node.MaybeUnblockDisputed` | internal/node/node.go:551-569 | suppresses, clears and lifts as the machine does |
| `NodeObject.Node.RecordAndJudge` | internal/node/node.go:489-518 | record, burst, evaluate, downgrade and block as the machine's judgement |
| `NodeObject.Node.Weigh` | internal/node/node.go:476-488 | the observation with its federation discount, in range |
| `NodeObject.Node.HopsAreOk` | internal/node/node.go:441-454 | true iff the trace neither passed this node nor is too long |
| `NodeObject.Node.ReemitIfBridge` | internal/node/node.go:601-635 | publishes the forwarded copy onto the other subnets iff not shedding, bridging, not looping and within the cap, and adds one question to the call log |
| `NodeObject.Node.ScoreAndForward` | internal/node/node.go:476-521 | judges an accepted report at its reporter's weight, then re-emits it |
| `NodeObject.Node.RunDecay` | internal/node/node.go:637-656 | the loop takes the machine's sweep step for every key in turn |
| `NodeObject.Node.CountOwnVote` | internal/node/node.go:590-593 | takes the machine's step for one of the node's own shared votes |
| `NodeObject.Node.MaterialiseFederated` | internal/node/node.go:703-729 | an uninterrupted call takes the machine's check, block and mark steps: it blocks iff materialisation is on, the key is neither protected nor disputed, and score and subnets suffice, and marks iff the sink then succeeds |
| `NodeObject.Node.ReloadRules` | internal/rules/rule.go:180-213 | takes the machine's step |
| `NodeObject.Node.ReloadTrust` | internal/trust/store.go:111-187 | takes the machine's step |
| `NodeObject.Node.SafeWheneverTraced` | internal/node/node.go:328-729 | after any sequence of calls on a node the enforcement gate, the marks, the checks and every record are as proved of runs |
| `NodeObject.Node.RemoteEventsAreLimited` | internal/node/node.go:400-404 | whatever calls a node has handled, fewer than budget + 1 of the events it did not shed were gated in any ten ticks, fewer than the budget if charge and gate read one tick |
| `Publication.StepPublishes` | internal/node/node.go:378-384 | a step publishes its own stamped report or one forwarded copy of what it scored, and nothing else |
| `Network.FlightIsSound` | internal/node/node.go:342-353 | in every run of a network each copy in flight has a trace from its reporter to its publisher, without repeats and at most 8 long, and is otherwise as its reporter signed it |
| `Network.ForwardedIs` | internal/node/node.go:601-635 | forwarding keeps that |
| `Network.SignedCopiesPass` | internal/node/node.go:405-430 | a signed copy passes every receiver's relay guard and signature check; an unsigned one passes the guard iff its reporter published it |
| `Flood.ForwardingShrinks` | internal/node/node.go:620-635 | all copies a bridge makes weigh less than the one it received |
| `Flood.FloodEnds` | internal/node/node.go:601-635 | in every run deliveries made plus those still possible are at most k(k+1)^7 per local report, k the number of node-subnet links |
| `Once.OnceOfRun` | internal/node/dedup.go:30-42 | in every run each node's cache is what its log remembers, and a scored report was not remembered before and goes onto joined subnets only |
| `Once.ScoredAtMostOnce` | internal/node/node.go:472-474 | between two scorings, hence two forwardings, of one report at one node, its dedup entry was lost |
| `Once.OriginatorNeverScores` | internal/node/node.go:441-449 | no node scores its own report when it comes back, dedup entry or not |

## Left out

- libp2p, gossipsub, the DHT, discovery and reconnection: the network delivers each publication to any of the other joined nodes, each at most once, and may lose any copy.
- Ed25519, base64 and SHA-256: signatures and certificate checks are abstract relations; a message is its string of fields.
- BadgerDB, JSON and the bloom filter: the store is a map; its TTL is not modelled, as every sweep renews it.
- ipset, nftables and CrowdSec sinks: calls on the sink are entries of a log; a block whose sink call fails is logged like one that succeeds.
- HTTP API, DNSBL server, Go client, metrics and SQLite outputs.
- Ingest adapters and log tailing, CLI, invitations, configuration loading and deployment.
- Floating-point rounding: scores are reals; a NaN evidence weight is kept and counts as 0.
- Printing of times and addresses: `ts` is carried in printed form, `Config.parse` and `Config.show` are arbitrary functions.
- YAML parsing and file stat checks: a reload is its own step with the file's contents, or nothing, as its input.
- A clock that runs backwards, apart from the floor on elapsed time in `DecayScore` itself.
- The merge of several aggregators' answers in the querier's fan-out: the merged answer is an input of `Query`.
- The built-in never-block entries (internal/enforce/neverblock.go:10-30), but for ::1/128: the list is a parameter.
- Publishing the node's own shared votes: machine and node object apply them to the own record, the network carries reports only, since votes are never forwarded.
- Interleaving inside one event: scoring, judging and blocking one event is one step with one clock reading; only the three parts of a materialise call are separate steps.
- RateLimit.RemoteRateLimit: states fewer than budget + 1 in general, because charge and gate may read different ticks; `RateLimit.StrictLimitIff` says exactly when fewer than the budget is true.
- Lint.LintIsExact: is about a single block rule, because in a list an earlier rule may always match first.
- BurstExact.CountsAreExactIff: is stated for positive windows, because a count over a negative one sees nothing.
- DisputeRuns.CheckedBeforeDisputeStillBlocks: shows the run for a floor of one disputing subnet, because one vote then suffices; `Disputes.MaterialiseCompletes` is about any state.
- DisputeRuns.DisputeLiftsLocalBlock: likewise for a floor of one; `DisputeRuns.DisputeLiftsIff` is about any floor and run.
- DisputeRuns.SweepLiftsMaterialisedBlock: shows the run without rules, because a rule might block on the local report.
- NodeSafety.NothingProtectedIsBlocked: the lists are fixed for a run and keys are normalised texts, because the raw lookup string of a materialise call is not normalised by the code.
- NodeObject.Node.MaterialiseFederated: is one uninterrupted call; its interleavings are covered on the machine's steps.
- Once.ScoredAtMostOnce: eviction and expiry of dedup entries are one kind of move that may happen at any time, because either loses the entry; when a real cache loses one is `Dedup.ForgottenOnlyByAgeOrCrowding`.
