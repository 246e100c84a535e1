# XMPlusServer model

XMPlusServer is a proxy backend. It polls a panel for one node's settings and its
subscriptions, keeps a running xray core in step with the answers, admits connections
under IP and speed limits, and reports usage back. These Dafny modules model the parts of
it that carry state, loops or protocol steps, and prove what they keep.

- **Connection limiter** (`LimiterSpec`, `Limiter`, `OnlineReport`). The classes of
  `helper/limiter` with their in-place updates refine a state machine on values, and the
  theorems are about every sequence of admissions, updates and reports. `Admission`
  splits one admission into its atomic steps and bounds every interleaving;
  `GlobalLimit` does the same for the shared IP cache and the local caches in front of
  it, `SettledCache` says what they guarantee when writes land in time, and `ManyCaches`
  how much many nodes then let through together.
- **Reconciler** (`Routing`, `Node`, `Xray`, `NodeManager`, `Compare`, `Users`,
  `SubscriptionManager`, `Footprint`, `Controller`). `Start` and every poll are methods
  of a `Controller` class over a mutable xray core that other controllers share. The
  invariant `Ready` says that the core is what others installed plus exactly this
  controller's footprint, with the order of the others' rules intact, and that the limiter
  entry is current. `Serve` carries it through any run. The core's default outbound is
  followed alongside.
- **Many controllers** (`Shares`, `Fleet`, `Transit`). All controllers of a process share
  one core and one limiter. `Fleet.Launch` builds them, starts them and lets any
  interleaving of their polls, connections and reports happen: every one of them stays
  ready, provided that their tags differ; `Transit` says exactly when relay tags do not.
- **Usage accounting** (`Ledger`, `QuietRound`). Reads, reports and resets of traffic
  counters interleave with traffic.
- **Sniffing** (`Sniffing`, `CachedReader`, `SniffLoop`). A look-ahead reader, a list of
  candidates that narrows in place, and the loop that drives both.
- **Port lists** (`PortList`, `Decimal`). A parser, a printer, and their round trip.

What the code does and its own text or its callers do not promise:

- The local test refuses a new IP only when *more* than `ipLimit` are online, so one
  connection at a time allows `ipLimit + 1` IPs (`LimiterSpec.SequentialBound`) and K
  concurrent ones `ipLimit + K` (`Admission.ConcurrentBound`); both bounds are reached
  (`Admission.BoundIsAttained`, with K = 1 for the first). One at a time, a window holds
  all IPs that were offered in it, or `ipLimit + 1` of them if more than `ipLimit` were
  (`LimiterSpec.WindowCount`). In every interleaving a user's map gets more than B IPs
  exactly if some connection that counted at most its limit when it began stores a new IP
  when at least B are there (`Admission.BeyondIff`).
- `determineRate` is announced as the minimum non-zero rate; it is that exactly when both
  limits or neither are zero (`LimiterSpec.RateIsMinimumNonZero`).
- A speed limit of 2^63 or more gives a bucket with a negative burst
  (`LimiterSpec.BurstPositive`).
- The sets stored in the shared cache are bounded by the limit, the IPs let through are
  not, not even on one node (`GlobalLimit.Overshoot`). More than the limit are let through
  exactly if some connection with a new IP meets a failing cache or a set that shows fewer
  than the limit once the limit is reached (`GlobalLimit.OvershootIff`). With one
  connection of a user at a time, every write landed before the next read and nothing
  lost, expired or failing, a single node keeps the limit (`SettledCache.SettledBound`).
  Several nodes do not, since each trusts its own cache first. M > 1 nodes let through at
  most `M * (L - 1) + 2` IPs under a limit L > 1, which is exact
  (`ManyCaches.SettledNodesBound`, `ManyCaches.CapIsReached`), and they exceed the limit
  even if all writes land in order (`ManyCaches.StaleCacheExceeds`).
- A patch leaves the users of a modified Id as they were, and its removals stop at the
  first user who is not installed, that is, at a leaving subscription whose key was never
  usable. The inbound is in step with the new list exactly when no kept Id changes the user
  it builds and no leaving user comes after such a subscription in the order of removal
  (`Users.PatchSynchronises`). That order is Go's map order: nobody can be left behind
  exactly if all leaving subscriptions have a usable key or none has (`Users.NoOrderStrands`).
- An installed user whose email changed, or who was left behind, keeps an entry with the
  limits it had (`Controller.StaleEntryStays`) and counters that no round reads
  (`Controller.Controller.ServedIffListed`), so what it uses is never reported
  (`Ledger.UnlistedIsNeverReported`). After a patch there is such a user exactly if a kept
  Id with an installed user changed its email or somebody was left behind
  (`Users.PatchedListed`).
- A poll installs the relay for the tag from before its rebuild. Relayed users have a
  route exactly when that tag is still the current one, and a blocking rule binds them
  exactly when no such relay rule precedes it (`Footprint.RouteOfRelayed`).
- A relay tag names the transit server and the subscription, not the relaying node. A
  second node of the same process cannot install its relay exactly if it uses the same
  transit server for an Id that both relay (`Transit.RefusedByServer`), and a poll that
  drops a relay then takes the other node's with it (`Transit.DropNextToRelay`).
- A node with a relay node but a relay type other than 0 and 1 has neither a relay nor a
  default rule: its unblocked traffic has no route (`Controller.Controller.RouteOfNeither`).
- Traffic without a route takes the core's default outbound, and so leaves through somebody
  else's outbound exactly if the default one is somebody else's
  (`Controller.Controller.LeavesElsewhere`). If the configuration files define an outbound,
  the default one is theirs for ever (`Fleet.Launch`); otherwise, once all controllers
  have started, it is the first node's: its first usable relay outbound, or its blackhole
  (`Fleet.Fleet.Start`, `Xray.RelaysAddedIs`).
- A blocking port text such as `","` blocks all traffic (`Routing.BlankPortTextBlocksAll`).
- Where rejections persist, narrowing agrees with the full list in all runs exactly if
  whoever asked for more data suffices from then on (`Sniffing.NarrowingSoundIff`);
  otherwise it misses protocols (`Sniffing.NarrowingNeedsOneAsks`).

## Model

| member | source | states |
|---|---|---|
| PortList.ParsePortString | node/router.go:162-214 | the in-place loop, with its early returns, computes the recursive `Parse`, whose meaning `AcceptedTexts` fixes |
| PortList.AcceptedTexts | node/router.go:162-214 | exactly these texts are accepted, with exactly these results: comma separated items, each blank, a decimal below 2^32, or two such around the first dash, with blanks around any of them |
| PortList.LeadingZero | node/router.go:185-201 | leading zeros do not change a number |
| PortList.ParseOfPrint | node/router.go:162-214 | every list of 32-bit ranges is read back from its printed form |
| PortList.PrintOfParse | node/router.go:162-214 | whatever text is accepted, blanks and empty items included, its bounds fit in 32 bits and print-then-parse gives the same list |
| Decimal.DecInjective | subscription/subscription.go:217-219 | decimal text determines its integer, negative Ids included |
| Decimal.DigitValues | node/router.go:185-201 | the digits 0 to 9 are read and printed with those values |
| Decimal.ValueOfMore | node/router.go:185-201 | in reading, a further digit multiplies by ten and adds its value |
| Decimal.TextOfMore | subscription/subscription.go:217-219 | in printing, ten times a positive number plus a digit is its text followed by that digit |
| UserKey.KeyInjective | subscription/subscription.go:217-219 | for one tag the user key determines email and Id, whatever characters the email holds |
| UserKey.GlobalKeySharedByNodes | helper/limiter/limiter.go:245-246 | replacing the tag prefix by the limit gives a key that no longer mentions the node |
| UserKey.GlobalKeyInjective | helper/limiter/limiter.go:245-246 | two nodes meet under one global key exactly when limit, email and Id agree |
| Compare.ToMap | subscription/subscription.go:107-119 | the map built from a list is the last-wins map by Id |
| Compare.LastWinsIs | subscription/subscription.go:107-119 | an entry that is the last of its Id in the list is the one in the map |
| Compare.FindDeleted | subscription/subscription.go:121-126 | in whatever order the map is visited: exactly the entries whose Id left, each once |
| Compare.FindAddedAndModified | subscription/subscription.go:128-142 | exactly the entries whose Id is new, and exactly those with a kept Id that differ from the old entry as values, each once |
| Compare.Compare | subscription/subscription.go:95-145 | the three parts of the difference, and the results for missing lists |
| Compare.DiffIsExact | subscription/subscription.go:91-145 | the parts have disjoint Ids, and applying them turns the old list's map into the new list's |
| Compare.DiffOrderIrrelevant | subscription/subscription.go:121-142 | two runs under any map iteration orders return permutations of each other |
| Compare.DiffWithoutList | subscription/subscription.go:96-105 | without an old or a new list the difference still leads to the new list's map |
| LimiterSpec.DetermineRate | helper/limiter/limiter.go:290-309 | the result is one of the two limits and at most either |
| LimiterSpec.RateIsMinimumNonZero | helper/limiter/limiter.go:290-309 | it is the minimum non-zero rate exactly when both limits or neither are zero; it is unlimited exactly when one is |
| LimiterSpec.BucketsCarryCurrentRates | helper/limiter/limiter.go:98-124 | after every sequence of admissions, updates and reports each stored bucket has the positive rate and the burst of the current limits, and no two keys share one |
| LimiterSpec.BurstPositive | helper/limiter/limiter.go:223 | a stored burst is an int congruent to the rate modulo 2^64; it is positive, and equal to the rate, exactly when the rate fits in an int |
| LimiterSpec.SameBucketUntilEvicted | helper/limiter/limiter.go:220-232 | over any run a key's bucket is the same object at both ends exactly when it was never evicted between |
| LimiterSpec.AdmissionsShareBucket | helper/limiter/limiter.go:220-232 | two rate limited admissions of a key return the same bucket object exactly when the key was not evicted between them |
| LimiterSpec.OnlineIsHistory | helper/limiter/limiter.go:191-217 | the stored IPs are exactly the pairs admitted since the last report |
| LimiterSpec.RefusalIsAboutTheWindow | helper/limiter/limiter.go:195-217 | in terms of history alone: an IP admitted in this window is never refused locally, a new one exactly when more than the limit were admitted |
| LimiterSpec.SequentialBound | helper/limiter/limiter.go:191-217 | under any updates that keep the limit within 1..L a window holds at most L + 1 IPs of a user |
| LimiterSpec.WindowCount | helper/limiter/limiter.go:191-217 | under a constant limit L > 0 a window holds all IPs that passed the shared cache since the last report, or exactly L + 1 of them if those were more than L; without a limit all of them |
| LimiterSpec.ReportEvictsIdle | helper/limiter/limiter.go:136-155 | after a report a bucket remains exactly for keys that had one and were admitted in the closed window |
| LimiterSpec.QuietWindowLeavesNoBuckets | helper/limiter/limiter.go:136-155 | two reports with no admission between them leave no bucket |
| LimiterSpec.ReportedIdIsTheUsers | helper/limiter/limiter.go:177-216 | in every run that admits listed users the Id stored with an IP is the one in its user key |
| LimiterSpec.StoreAllLists | helper/limiter/limiter.go:85-93 | storing a list with unique Ids records each subscription's Id, speed limit and IP limit under its key of tag, email and Id and leaves other keys alone |
| LimiterSpec.UpdateAllStores | helper/limiter/limiter.go:98-124 | an update stores like a fresh list does and touches neither tag, node limit, cache flag nor online IPs |
| LimiterSpec.UpdateEvictsIff | helper/limiter/limiter.go:102-119 | an update drops a bucket exactly if some updated subscription under its key is unlimited, by itself or by its node |
| LimiterSpec.AdmittedByTheList | helper/limiter/limiter.go:85-237 | in every run from a fresh inbound, for a subscription that is the last one given under its key: an IP is refused exactly if the shared cache refuses it, or it is new in the window, the IP limit is positive and more IPs than that were admitted; an admission is rate limited exactly if both speed limits are positive, with the lesser of them |
| LimiterSpec.WindowOfTheList | helper/limiter/limiter.go:85-217 | if all subscriptions given under a listed key have the IP limit L > 0, a window holds all IPs offered in it, or exactly L + 1 of them if those were more than L |
| Limiter.InboundInfo.Update | helper/limiter/limiter.go:102-119 | one subscription's turn: stored limits, and the bucket object changed in place or dropped, no other bucket touched |
| Limiter.InboundInfo.UpdateAll | helper/limiter/limiter.go:102-119 | the loop takes the turns in list order |
| Limiter.InboundInfo.EvictIdle | helper/limiter/limiter.go:136-143 | in any order of visit exactly the buckets of offline keys go |
| Limiter.InboundInfo.AppendIps | helper/limiter/limiter.go:147-152 | one user's IPs are appended once each with their Ids |
| Limiter.InboundInfo.Drain | helper/limiter/limiter.go:144-155 | every online pair is listed exactly once and none is left |
| Limiter.InboundInfo.GetOnlineDevice | helper/limiter/limiter.go:134-155 | both loops together take the report step |
| Limiter.InboundInfo.LocalLimit | helper/limiter/limiter.go:191-217 | refuses exactly over the limit and stores the IP otherwise |
| Limiter.InboundInfo.SpeedLimit | helper/limiter/limiter.go:220-232 | returns the stored bucket object if there is one, a new stored one otherwise, none without a rate |
| Limiter.InboundInfo.GlobalLimit | helper/limiter/limiter.go:241-278 | the verdict and the push of the cache test, under the key with the tag replaced by the limit; a failing cache admits and pushes nothing |
| Limiter.GlobalKeyOf | helper/limiter/limiter.go:245-246 | for a recorded subscription the set read and pushed is the one under the text of IP limit, email and Id, the key that all nodes use |
| Limiter.VerdictIs | helper/limiter/limiter.go:163-237 | a connection's refusal, rate limit and push in terms of its subscription, the IPs of the window and the stored set |
| Limiter.InboundInfo.Admit | helper/limiter/limiter.go:174-232 | the admission takes the specified step with the cache's verdict, its result is the decision of that step, and it pushes what the cache test says |
| Limiter.Limiter.AddInboundLimiter | helper/limiter/limiter.go:52-96 | the tag gets a fresh entry with the node's limit and cache flag that records Id, speed limit and IP limit of every listed subscription, no IPs and no buckets; every other entry and bucket is unchanged |
| Limiter.Limiter.UpdateInboundLimiter | helper/limiter/limiter.go:98-124 | fails exactly for an unknown tag; otherwise only that entry is updated: it records Id and both limits of every updated subscription, and keeps the rest |
| Limiter.Limiter.DeleteInboundLimiter | helper/limiter/limiter.go:126-129 | only that entry goes |
| Limiter.Limiter.GetOnlineDevice | helper/limiter/limiter.go:131-161 | fails exactly for an unknown tag; otherwise lists and forgets that entry's online pairs |
| Limiter.Limiter.GetSubscriptionLimiter | helper/limiter/limiter.go:163-237 | an unknown tag admits without limits; otherwise one admission step with the source address as fallback IP, all other entries unchanged. For every recorded subscription: refused exactly if the cache as it answers then refuses it or a new IP exceeds its IP limit, limited exactly if both speed limits are positive, and what is pushed |
| OnlineReport.ReportIsTheWindow | helper/limiter/limiter.go:131-161 | after any run a report lists each pair admitted since the previous one exactly once and leaves none behind |
| OnlineReport.ReportNamesTheUser | helper/limiter/limiter.go:147-152 | each listed element carries the Id of the user it was admitted under |
| OnlineReport.CountsAddUp | api/subscription.go:115-129 | exact per-Id counts sum to the length of the list |
| OnlineReport.Client.ReportOnlineIPs | api/subscription.go:111-134 | the list is sent as it is, and the counts kept are exact and sum to its length |
| Admission.ConcurrentBound | helper/limiter/limiter.go:191-217 | under every interleaving of K connections with updates and reports no user limited to 1..L has more than L + K IPs in one map |
| Admission.BeyondIff | helper/limiter/limiter.go:195-216 | in every interleaving with updates and reports a map gets more than B IPs if and only if some connection that counted at most its limit when it began stores a new IP when at least B are there |
| Admission.BoundIsAttained | helper/limiter/limiter.go:195-216 | for every K and L some interleaving under the constant limit L reaches L + K |
| GlobalLimit.StoredSetsBounded | helper/limiter/limiter.go:241-288 | under every interleaving of reads, pushes, refills, losses and expiries a set stored under a key that encodes L > 0 has at most L IPs |
| GlobalLimit.OvershootIff | helper/limiter/limiter.go:248-277 | in every run more than L IPs are let through if and only if some step decides a new IP on a failed read or on a set of fewer than L when L were let through already |
| GlobalLimit.Overshoot | helper/limiter/limiter.go:248-277 | whatever the limit, K connections that read before any push lands are all let through |
| SettledCache.SettledBound | helper/limiter/limiter.go:248-277 | in settled runs on one node at most L IPs are let through, both caches store exactly those once the pushes have landed, and refusal happens exactly for new IPs when L others were let through |
| SettledCache.NodeBound | helper/limiter/limiter.go:63-83 | in settled runs on any nodes no node adds more than L IPs |
| ManyCaches.SpareBound | helper/limiter/limiter.go:63-83 | a node that made neither of the first two additions adds at most L - 1 |
| ManyCaches.SettledNodesBound | helper/limiter/limiter.go:63-83 | settled runs that use M nodes let at most `Cap(M, L)` IPs through: L on one node, one under limit 1, `M * (L - 1) + 2` otherwise |
| ManyCaches.CapIsReached | helper/limiter/limiter.go:63-83 | for every number of nodes and every limit some settled run lets exactly that many through, since each node reads its own cache first |
| ManyCaches.StaleCacheExceeds | helper/limiter/limiter.go:77-81 | two nodes under limit 2 with every write landed in order before the next read: three IPs are let through |
| Ledger.Conservation | subscription/subscription.go:148-187 | at every moment of every interleaving: added = acknowledged + still in the counter + arrived between read and reset, so acknowledged usage never exceeds real usage |
| Ledger.FailedReportsLoseNothing | subscription/subscription.go:179-182 | any number of rounds whose reports are all refused acknowledge and lose nothing: whatever is added stays in the counters |
| Ledger.LostOnlyInTheWindow | subscription/subscription.go:290-297 | a step loses bytes only by resetting a counter, and exactly those that arrived since its read |
| Ledger.UnlistedIsNeverReported | subscription/subscription.go:158-174 | in every interleaving a counter that no round reads keeps all that is added to it, and no report carries any of it |
| Ledger.RoundsAreDistinct | subscription/subscription.go:158-174 | a list with unique Ids reads every counter at most once in a round |
| QuietRound.QuietRoundIsARun | subscription/subscription.go:148-187 | the monitor's own round is one run of the ledger: its acknowledged amounts grow, counter by counter, by exactly the amounts in the report, it loses nothing and leaves the counters as the method does |
| QuietRound.AckedIsBilled | subscription/subscription.go:158-187 | acknowledging what the listed counters hold acknowledges for each subscription exactly the upload and download of its element in the report, and for no other counter anything |
| SubscriptionManager.QuietRoundConserves | subscription/subscription.go:158-187 | a listed subscription's element carries its uplink and its downlink counter, is in the report unless both are zero, and both counters are zero after the acknowledgement |
| SubscriptionManager.ReportIsExact | subscription/subscription.go:158-174 | with unique Ids the report has exactly one element for each subscription whose counters are not both zero and no other; its upload is the counter `user>>>` key `>>>traffic>>>uplink`, its download the one ending in `downlink` |
| SubscriptionManager.AfterReportIs | subscription/subscription.go:290-297 | the counters of the listed subscriptions are zero after the reset, all others as they were |
| SubscriptionManager.Manager.AddNewSubscription | subscription/subscription.go:39-59 | succeeds for an empty list or a node of one of the four types with no user present, and then adds exactly the built users, with unique Ids for each subscription the account its node type asks for |
| SubscriptionManager.Manager.AddInboundSubscriptions | subscription/subscription.go:222-247 | adds the users in order, touching one inbound only, and succeeds if none is present |
| SubscriptionManager.Manager.Remove | subscription/subscription.go:249-270 | removes the users in order up to the first absent one, touching one inbound only, and succeeds exactly if all are present |
| SubscriptionManager.Manager.CollectTraffic | subscription/subscription.go:158-174 | the report and the counters to reset, in list order; with unique Ids one element for each subscription that used something, with what its two counters hold |
| SubscriptionManager.Manager.ZeroAll | subscription/subscription.go:290-297 | all listed counters are zero, others unchanged |
| SubscriptionManager.Manager.ReportTraffic | subscription/subscription.go:153-187 | each listed subscription is billed what its counters held, and counters are zeroed, those of the list and no others, only after an acknowledged report |
| SubscriptionManager.Manager.ReportOnline | subscription/subscription.go:189-199 | drains the online pairs and counts them; an empty list or unknown tag is not sent |
| SubscriptionManager.Manager.SubscriptionMonitor | subscription/subscription.go:148-202 | one whole monitor round: the exact report, the reset if it was acknowledged, the drained online pairs |
| Sniffing.Sniffer.Sniff | app/dispatcher/sniffer.go:59-86 | the loop with its early returns decides by the first decisive candidate and narrows the list in place |
| Sniffing.Sniffer.SniffMetadata | app/dispatcher/sniffer.go:88-113 | the metadata round's result and the list it leaves |
| Sniffing.OutcomeIs | app/dispatcher/sniffer.go:59-86 | a round finds or asks for more exactly as its first candidate of the network that recognises the payload or asks for more does; without one it is clueless exactly if some candidate has no clue |
| Sniffing.MetadataOutcomeIs | app/dispatcher/sniffer.go:88-113 | the metadata round reports the first hit among the metadata candidates, whoever else is left; without one it is clueless exactly if somebody is left for later |
| Sniffing.MetadataKeepsPayloadCandidates | app/dispatcher/sniffer.go:88-113 | the metadata round drops no candidate that payload rounds use |
| Sniffing.NarrowingIsSound | app/dispatcher/sniffer.go:59-86 | after any undecided rounds on growing payloads the narrowed list succeeds exactly when, and with the same result as, the full list |
| Sniffing.NarrowingSoundIff | app/dispatcher/sniffer.go:59-86 | if rejections persist, narrowing agrees with the full list in all undecided growing runs if and only if every candidate that decided a round by asking for more succeeds exactly when the full list does from then on |
| Sniffing.OneAsksSuffices | app/dispatcher/sniffer.go:70-73 | that condition holds if after one asks no other succeeds or asks |
| Sniffing.NarrowingNeedsOneAsks | app/dispatcher/sniffer.go:70-73 | two candidates for which it fails: narrowing misses a protocol that the full list recognises |
| CachedReader.Transparent | app/dispatcher/default.go:33-85 | delivered ++ cache ++ unread is the stream after any calls, and a payload is always what will be delivered next |
| CachedReader.PayloadsExtend | app/dispatcher/default.go:39-54 | as long as nothing is delivered payloads only extend |
| CachedReader.Reader.Cache | app/dispatcher/default.go:39-54 | a look-ahead that does not fail takes everything that is ready, at most the rest of the stream, behind the cache, and fills the buffer with the cache up to its capacity |
| CachedReader.Reader.ReadInternal | app/dispatcher/default.go:56-67 | the cache is handed over whole |
| CachedReader.Reader.ReadMultiBuffer | app/dispatcher/default.go:69-85 | returns the whole cache if there is one, otherwise exactly the first bytes of the rest of the stream that are ready; it fails exactly if it has no cache and the reader below fails |
| CachedReader.ReadDelivers | app/dispatcher/default.go:69-85 | the same of the reader as a value |
| CachedReader.EverythingArrives | app/dispatcher/default.go:69-85 | any successful reads in which as much arrives as is unread, after one read for a nonempty cache, deliver the whole stream |
| CachedReader.Reader.Interrupt | app/dispatcher/default.go:87-96 | drops the looked-ahead bytes and, over a pipe, all that is unread; another reader below is not touched |
| CachedReader.NothingAfterInterrupt | app/dispatcher/default.go:87-96 | after an interrupt over a pipe no run delivers anything more |
| SniffLoop.SniffPayload | app/dispatcher/default.go:494-506 | one round's result or whether it counts as an attempt |
| SniffLoop.SniffContent | app/dispatcher/default.go:478-512 | the loop terminates, consumes nothing, ends in the round and with the result its environment determines, and recognises a protocol exactly when the full list would on some payload looked at |
| SniffLoop.EndsOnce | app/dispatcher/default.go:478-512 | the specified end of the loop is unique: one round, one result |
| SniffLoop.SilentConnection | app/dispatcher/default.go:478-512 | a connection that says nothing is given up after two looks, or after the first if that took 200 ms |
| SniffLoop.TimeoutMeans | app/dispatcher/default.go:478-512 | a timeout ends the loop only after the first round by which two attempts were counted or 200 ms had passed |
| SniffLoop.SniffConnection | app/dispatcher/default.go:466-520 | metadata first, then content: both found give the domain of the metadata with the protocol of the content, one found gives that one; and the metadata round does not change what content is recognised |
| Routing.BlankPortTextBlocksAll | node/router.go:88-147 | a blocking rule matches all traffic of its inbound exactly when its port text lists no port and nothing else is given |
| Routing.BlockRulesAre | node/router.go:79-147 | the rule can be built exactly if nothing is given, or xray accepts it and the port text is blank, "0" or a port list; it then has each condition in its own field and leads to the blackhole |
| Routing.BlockingRuleBlocks | node/router.go:79-147 | such a rule matches traffic of its inbound exactly if that is to be blocked |
| Routing.BlockedOrDefault | node/router.go:46-159 | with the blocking rule before the default rule, first match picks the blackhole exactly when something is given and the traffic meets each given condition: domains, addresses, protocols, and a port in a listed range; the node's outbound otherwise |
| Routing.FirstMatchDecides | app/dispatcher/default.go:525-572 | the first matching rule decides: its outbound, or a closed connection if that is not there; only traffic that no rule matches takes the default outbound |
| Routing.RulesOfOthers | node/router.go:14-159 | no rule built for one inbound matches the traffic of another |
| Routing.RelayRuleMatches | node/router.go:14-44 | a relay rule matches its user on an inbound exactly when it was built for that inbound |
| Footprint.TagKinds | controller/controller.go:409-421 | a supported node's tag never looks like a relay tag |
| Footprint.NodeTagParts | controller/controller.go:409-421 | the tags of supported nodes agree exactly when node type, listening port and node Id do |
| Footprint.NodesApart | controller/controller.go:409-421 | supported nodes with different tags share no inbound, outbound or rule tag of their own |
| Footprint.RouteOfNode | node/node.go:71-105 | routing of a footprint without relay in a shared core, blocked traffic in terms of the given conditions |
| Footprint.OwnRoute | app/dispatcher/default.go:543-559 | traffic that no rule of others matches is routed to an own outbound that is there, or not at all |
| Footprint.RouteOfRelayed | node/node.go:143-151 | routing of a relayed user: the exact conditions for relay, blackhole and no route |
| Footprint.RelayOutsAre | node/node.go:119-152 | each relayed subscription has an outbound to the transit server with its Id, email and relay key, and none if its key is too short |
| Footprint.RelaysInCore | node/node.go:119-152 | the same in a core shared with others |
| Xray.Frame | node/node.go:46-239 | in a shared core each operation succeeds, and changes the controller's part, exactly as if it were alone; what others installed and their rule order stay |
| Xray.RelaysAddedIs | node/node.go:119-152 | a relay becomes the default outbound only if there was none, and then with its first usable subscription |
| Node.RelayKeyIs | node/node.go:119-139 | the key of a relay outbound is the password, or for a 2022 cipher, in any case of letters, the server's key with the first 16 or 32 characters of the password, and absent exactly if it is shorter |
| NodeManager.NextSubTagFresh | node/node.go:119-152 | with unique Ids the next relay tag is not among those already installed |
| NodeManager.Manager.AddTag | node/node.go:46-86 | succeeds exactly when nothing is in its way, and then adds inbound, outbound and, without relay, the default rule |
| NodeManager.Manager.RemoveTag | node/node.go:89-106 | succeeds exactly when the inbound is there, and removes it with outbound and default rule |
| NodeManager.Manager.AddRelayFor | node/node.go:119-151 | one subscription's outbound and rule, or nothing if its key is unusable |
| NodeManager.Manager.AddRelayTag | node/node.go:109-155 | adds exactly the relay outbounds and rules of the list, and with unique Ids succeeds exactly if no tag of a usable subscription is present |
| NodeManager.Manager.RemoveRelayTag | node/node.go:179-188 | removes exactly the outbounds of the list's Ids |
| NodeManager.Manager.RemoveRelayRules | node/node.go:191-200 | removes exactly the rules of the list's Ids, keeping the order of the rest |
| NodeManager.Manager.RemoveBlockingRules | node/node.go:203-214 | removes the blackhole rule and outbound |
| NodeManager.Manager.AddRuleTag | node/node.go:217-239 | succeeds exactly when the ports parse, xray accepts the rule and no tag is present, and adds the blackhole and at most one rule, with domains, addresses, ports and protocols each in their own field |
| Footprint.DropRelay | controller/controller.go:218-236 | dropping the relay leaves exactly the node's own part |
| Footprint.AddRelayOwn | controller/controller.go:239-259 | no tag of a new relay meets one of the node's own |
| Footprint.AddRelayGives | controller/controller.go:239-259 | the relay in place makes exactly the relayed footprint |
| Footprint.RemoveNode | controller/controller.go:265-274 | removing a node leaves exactly the relay's part |
| Footprint.AddNode | controller/controller.go:284-300 | adding a node next to a relay meets no tag and gives exactly the new footprint |
| Footprint.RelayDropped | controller/controller.go:218-236 | the same in a core shared with others |
| Footprint.RelayAdded | controller/controller.go:239-259 | the same in a core shared with others |
| Footprint.NodeRemoved | controller/controller.go:265-274 | the same in a core shared with others |
| Footprint.NodeAdded | controller/controller.go:284-300 | the same in a core shared with others |
| Transit.SubTagParts | node/node.go:181 | the tag of a relayed subscription determines relay tag and Id |
| Transit.RelayTagParts | controller/controller.go:416-421 | relay tags agree exactly when type, port and Id of the transit server do |
| Transit.RelayNextToRelay | node/node.go:109-155 | a relay can be installed next to another node's exactly when they have no usable Id and tag in common |
| Transit.RefusedByServer | controller/controller.go:416-421 | the same in terms of the relay answers as the client built them: refused exactly for the same type, Id and drawn port of the transit server and a common Id |
| Transit.SharedServerRefused | controller/controller.go:97-109 | the failing input: one transit server, one subscription, two relaying nodes |
| Transit.DropNextToRelay | controller/controller.go:218-236 | dropping a relay leaves another node's footprint alone exactly if it drops no tag the other has installed |
| Node.CredentialIs | subscription/builders.go:24-150 | the account by node type: vless with password as Id and the node's flow, vmess, trojan, shadowsocks with the cipher its name spells, or for a 2022 cipher the first 16 or 32 characters of the password, absent exactly if it is shorter |
| Users.UsersOfIs | subscription/builders.go:24-114 | a user is installed for a list exactly when a listed subscription builds it |
| Users.UsersOfServes | subscription/builders.go:24-150 | with unique Ids the users of a list are exactly the accounts of its subscriptions, type by type |
| Users.AllCut | subscription/subscription.go:263-268 | every removal finds its user exactly if the keys are distinct and present, and then exactly they go |
| Users.LeftAfterIs | subscription/subscription.go:263-268 | after the removals exactly those users are left that are not named, or named after an absent one |
| Users.CanPatch | controller/controller.go:350-364 | patching an inbound in step with its list meets no user that it adds |
| Users.PatchedIs | controller/controller.go:335-364 | after the patch: the users of kept subscriptions as they were, those of the added ones, and the leaving ones that come after an unusable key in the order of removal |
| Users.PatchSynchronises | controller/controller.go:335-377 | the patched users are those of the new list exactly when no kept Id changes the user it builds and no leaving user comes after an unusable key |
| Users.NoOrderStrands | subscription/subscription.go:121-126 | in no order of removal is anybody left behind, exactly if all leaving subscriptions have a usable key or none has |
| Users.PatchedListed | controller/controller.go:335-377 | after the patch all installed users have a key of the new list exactly if no kept Id with an installed user changed its email and no leaving user was left behind |
| Controller.StaleEntryStays | helper/limiter/limiter.go:98-124 | a patch leaves the entry of a key that is no longer listed as it was |
| Controller.Controller.ServedIffListed | subscription/subscription.go:158-174 | in every ready state the installed users all have a current limiter entry exactly if their keys are all listed, and counters that a monitor round reads exactly then |
| Controller.Controller.ServesIfReady | controller/controller.go:314-364 | whenever the users are those of the list, the inbound holds for each listed subscription the account its node type asks for and nobody else |
| Controller.Controller.Handlers | node/node.go:46-239 | in every ready state the node's own outbound goes out directly, its blackhole is one, it is relayed exactly for relay type 1 with a relay node, and then each listed subscription has its relay outbound with its own key |
| Controller.PatchedCurrent | controller/controller.go:351-373 | storing the added and the modified brings the limiter entry up to date for the whole new list, changed emails included |
| Controller.Controller.RefreshRelay | controller/controller.go:218-259 | the old relay goes, the new one is installed for the old tag and the new list |
| Controller.Controller.TakeNodeDown | controller/controller.go:265-274 | what is left of the footprint is the relay |
| Controller.Controller.PutNodeUp | controller/controller.go:284-300 | next to the relay the node's part is complete again, without users |
| Controller.Controller.SwapNode | controller/controller.go:262-300 | the node is replaced in the core; the relay stays and its rules now come first |
| Controller.Controller.Rebuild | controller/controller.go:262-308 | and the old limiter entry goes; the branch for Shadowsocks-Plugin nodes is never reached |
| Controller.Controller.InstallUsers | controller/controller.go:314-334 | a fresh inbound gets exactly the list's users and a fresh limiter entry |
| Controller.Controller.PatchUsers | controller/controller.go:343-364 | the user part of a patch: removals up to the first absent user, then the additions whatever the removals did |
| Controller.Controller.PatchLimiter | controller/controller.go:359-373 | the limiter part of a patch |
| Controller.Controller.Patch | controller/controller.go:335-375 | both parts for the difference of the two lists |
| Controller.Controller.Install | controller/controller.go:89-131 | relay, blocking rule and node of a first start in a core that holds nothing of this controller |
| Controller.Controller.Start | controller/controller.go:72-152 | succeeds on good input and establishes `Ready` with the answered relay and, for each listed subscription, the account its node type asks for |
| Controller.Controller.NodeInfoMonitor | controller/controller.go:187-379 | every poll keeps `Ready`, leaves other nodes' limiter entries alone, cannot fail on good input, has the relay of the last answer in place, leaves the list's users (after a rebuild always, after a patch exactly when no kept user changed and no leaving one was left behind), and makes of the default outbound what its own additions and removals make of it |
| Controller.Controller.Serve | controller/controller.go:72-379 | any run of polls, connections and reports keeps `Ready`; if no Id changes email or password and keys are usable, every poll succeeds and the users are always those of the list |
| Controller.SteadyListsAgree | controller/controller.go:335-377 | lists that agree on each Id's email and password keep every user they share and can be patched |
| Controller.SteadyPollIsGood | controller/controller.go:187-379 | a poll with such answers cannot fail |
| Controller.PollMinds | controller/controller.go:218-300 | a poll leaves a default outbound of others alone, and otherwise leaves none or one of its own |
| Controller.HearIs | controller/controller.go:187-216 | after a poll a controller goes by the node and the list it brought, unless one of the two requests failed |
| Controller.Controller.LeavesElsewhere | app/dispatcher/default.go:525-572 | in every ready state traffic that no rule of others matches leaves through an outbound of somebody else exactly if no own rule matches it and the default outbound is somebody else's; it is closed exactly if there is none then |
| Controller.Controller.RouteOfOwn | controller/controller.go:284-300 | in every ready state of a node of relay type 0 or without relay node its traffic goes to the blackhole exactly when something is given to block and the traffic meets each given condition, to its own outbound otherwise |
| Controller.Controller.RouteOfRelay | controller/controller.go:239-259 | in every ready state of a relayed node: the exact conditions under which a listed user reaches its relay, the blackhole or the default outbound |
| Controller.Controller.RouteOfNeither | node/node.go:71-82 | in every ready state of a node with neither relay nor default rule unblocked traffic has no route and takes the default outbound |
| Shares.FrameOthers | node/node.go:46-239 | the dual of `Frame`: an operation on tags that are not a controller's leaves its part as it is and acts on the rest as if the part were not there |
| Shares.OthersUndisturbed | manager/manager.go:173-203 | one controller's change on its own tags leaves another's part, and what surrounds it, in order |
| Fleet.Fleet.Start | manager/manager.go:197-203 | starting all controllers in turn succeeds on good answers and leaves all of them ready next to each other, each serving its list; only the first of them can have set the default outbound |
| Fleet.Fleet.Handle | manager/manager.go:173-203 | an event at one controller leaves all in order; the others keep what they know and whom they serve |
| Fleet.Fleet.Serve | manager/manager.go:173-203 | any interleaving of events at any controllers keeps all of them ready; if no panel changes email or password of an Id, every call succeeds and every inbound always has exactly its list's users |
| Fleet.ListHeard | controller/controller.go:187-379 | after any run of the fleet a controller goes by the last list that a poll of its own brought |
| Fleet.NoListHeard | controller/controller.go:187-379 | or by the one it started with, if none did |
| Fleet.NodeHeard | controller/controller.go:187-379 | the same for its node |
| Fleet.NoNodeHeard | controller/controller.go:187-379 | the same for its node |
| Fleet.Fleet.Run | manager/manager.go:197-203 | starting all controllers and then any lawful run: all stay ready, each goes by what its panel said last, and a default outbound of the configuration stays; with good answers and steady panels every call succeeds and every inbound has exactly its list's users |
| Fleet.Build | manager/manager.go:163-195 | the controllers of a process are distinct and share one core, one limiter and one set of counters |
| Fleet.Launch | manager/manager.go:163-206 | the same from the configuration on, with assumptions on the answers and events only |

## Left out

- HTTP, ETags and JSON of the panel client: a poll is an input (changed or unchanged node, changed or unchanged list, relay answer); a failing `GetTransitNode` panics in the code and has no counterpart.
- Transport and security settings and the handler builders: the field `settings` stands for all of them and `builds` for whether the builders accept them.
- xray-core is not part of this model. Its managers are assumed to refuse present tags and users on adding, and absent inbounds and users on removing, and to ignore absent outbounds and rules; it also lower-cases emails and indexes some accounts by password, which the model does not.
- The default outbound is the first one added while there is none, and is forgotten when its tag is removed; that is xray's outbound manager, which is assumed and not in the repository. Its handler may outlive a failed addition; the model keeps its tag.
- Controller.Controller.NodeInfoMonitor: says nothing about the core after a poll in which a call other than a removal of users failed, since the code returns early or skips the limiter and leaves partial state; it assumes unique Ids and that nothing else in the core uses the tags that the poll installs. For the node's own tags that is up to the panel; relay tags of two nodes can meet, and `Transit` has the exact condition.
- Controller.Controller.Start: assumes the same of the first answers.
- Controller.Controller.RefreshRelay: assumes that no relay tag of a listed Id belongs to others, see `Transit`.
- Controller.Controller.Install: assumes the same.
- Footprint.RelayDropped: assumes the same; where it fails, the other node's relay goes too (`Transit.DropNextToRelay`).
- Footprint.RelayAdded: assumes the same; where it fails, the relay is refused (`Transit.RelayNextToRelay`).
- Transit.RefusedByServer: takes the listening port as built by the client, which draws it at random when the answer holds a port range; whether two draws meet is not modelled.
- Controller.Controller.ServedIffListed: is about the list in place; the monitor round that runs next to a poll may still use the previous one.
- Fleet.Fleet.Serve: every poll is one event, and polls begin when all controllers have started; single operations of two controllers are related by `Shares.FrameOthers`.
- Limiter.Limiter.GetSubscriptionLimiter: the class is sequential, the cache's answer is given with the call, and an admission that still holds an inbound replaced meanwhile is not modelled (`Admission` models the interleavings of one inbound, `GlobalLimit` those of the cache).
- Limiter.InboundInfo.Admit: the same.
- LimiterSpec.BucketsCarryCurrentRates: rates are integers; the code's float64 rounds those above 2^53.
- SubscriptionManager.Manager.CollectTraffic: counters stand still while they are read; `Ledger` has the interleaved case.
- SubscriptionManager.Manager.ReportTraffic: the same, and none arrives before the reset.
- SubscriptionManager.Manager.SubscriptionMonitor: no traffic arrives while it runs; `Ledger` has the interleaved case, where counters are natural numbers without overflow.
- CachedReader.Reader.ReadMultiBuffer: library reads that return data together with an error are not modelled.
- SniffLoop.SniffContent: needs that each round in which a candidate asks for more takes positive clock time, that rejections persist on longer payloads and that whoever asked suffices from then on.
- CachedReader.Reader.Interrupt: that an interrupted pipe discards its content and fails later reads is assumed of the library.
- Token buckets: only rate and burst are modelled, not timing.
- Redis and the node's own cache: maps whose entries may vanish and whose writes may be late, lost or reordered.
- Individual protocol sniffers and fake DNS: functions of the payload.
- Text is a sequence of characters: lengths are not bytes, lower-casing is ASCII only, and base64 text is represented by what it encodes.
- Node settings are compared as values, so a missing and an empty list in a blocking rule are the same.
- Account conversion errors in `ToMemoryUser`, certificates, command line tools, key generation, configuration loading, logging, closing and restarting the manager, and periodic scheduling.
