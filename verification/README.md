# Tarkka: a verified model of its core algorithms and of its crash-recovery protocol

Tarkka acquires research sources over HTTP, normalizes them into documents, links them by citations and
exports the result as proof bundles. This project models the parts of it that carry real logic and proves
what they are for. `dafny verify dfyconfig.toml` checks the whole project (Dafny 4.11).

## The parts

- **Citation traversal** (`citation_traversal`, `citation_graph`, `citation_order`, `citation_cutting`,
  `citation_service`).
  A level-by-level search over persisted relations with limits on depth, works and relations. The loops are
  proved to compute `TraverseSpec`. About `TraverseSpec` it is proved, for every repository and policy, that
  works are listed in order of graph distance with no nearer work skipped, that each but the root is found from
  an earlier one, one step nearer, along a listed relation, that nothing repeats or exceeds its limit, that
  `stopped_by` is absent exactly when no allowed relation of a listed work is missing, that relations and works
  come in one definite order, and that lowering the works or depth limit only cuts the answer short. An unflagged
  answer is the whole reachable graph: under Outbound what steps from subject to object reach, under Inbound what
  steps from object to subject reach, under Both what either kind does.
- **Crash-safe acquisition** (`traversal_checkpoint`, `traversal_runs`, `durable_stores`, `elapsed_time`,
  `http_exchange`, `http_acquisition`, `http_policy_fetch`, `http_recovery`, `acquisition_runs`,
  `acquisition_instances`). Checkpoints and their transitions are values, as in the source; every run of
  transitions keeps the constructors' invariants and accounts for every request and byte. The services run
  over a `World` of durable stores whose ports may fail before or after a write has become durable, and which
  records the disk after every effect. `AnyRun` interleaves all service calls with crashes at any instant and
  keeps, at every instant: no completed target lacks an output; no output is stored that a durable checkpoint
  or marker has not named before; no request is made that the durable checkpoint was not charged for before,
  and every byte received is charged next, except for at most one response per failure or crash; a marker
  never goes before its outputs are durable; the durable checkpoint is one its constructors accept. By the latest
  reading of the clock, no host is resolved and no request made once the elapsed budget is used up. Where no port
  and no clock fails, the calls also have to succeed: `Acquire` acquires what the network serves, `Fetch` returns
  what a pending marker promises, `RecoverFinalization` completes or gives up what is pending.
- **robots.txt** (`robots_pattern`, `robots_rules`, `robots_decision`, `robots_lines`, `robots_cache`), RFC 9309. The greedy
  matcher equals the declarative meaning of `*` and `$`; two well-escaped spellings of a path are identified
  exactly when they denote the same octets; the grouping loop equals a direct reading of the lines; a URL is
  denied exactly when a matching disallow rule is strictly more specific than every matching allow rule, where the
  rules are those that the texts of the lines state, by key and value in any letter case, with spaces and comments. The
  cache never serves a copy fetched 24 hours ago or earlier, over any sequence of refreshes.
- **Document order** (`document_structure`, `document_order`). The stack walk accepts exactly the acyclic
  hierarchies, and its answer is the unique preorder of the section forest, whatever the order of the input.
- **Replay diff** (`replay_diff`, `replay_entries`). The bounded walk over one shared list gives exactly the first
  entries of the unbounded walk, which are exactly the places where the trees differ.
- **BibTeX fields** (`bibtex_fields`). The cursor loops refine functions on the rest of the text, and
  values written in braces, in quotes, as tokens and as macro names read back, and so do whole lists of fields.
- **Proof-bundle manifests** (`proof_bundle_values`, `proof_bundles`). Versions 1 to 3 read back through the
  versioned parser; no value is a manifest of two versions.
- **Complete paging** (`claim_lineage`, `research_state`). The paged collection equals the unpaged one for
  all limits, in order and without repeats.
- **Token estimate** (`comparison_tokens`). The self-measuring loop ends within four evaluations at the
  least consistent count; four can be needed.

`ordering`, `wrappers`, `python_text` and `identities` hold what several parts share.

## How the source is represented

- UUIDs are numbers, or constructors where they are derived: UUIDv5 and SHA-256 are injective (`identities`).
  The canonical text of a UUID sorts as its number does.
- URI normalization, `urljoin`, host extraction, address policies, response snapshots, UTF-8 decoding, UUID
  text and ISO-8601 checks are functions passed in; nothing is assumed of them except, for manifests, that a
  UUID's text reads back as the UUID.
- The citation repository is assumed to list distinct, filtered relations, at most `limit` of them, and all
  of them when fewer than `limit` (src/tarkka/conformance/citation_repository.py:163-197; the last part is
  what a limit means).
- Clocks are arbitrary, possibly failing and possibly moving backwards; `Clock` keeps every reading. Elapsed
  budgets are reals; cache times are whole microseconds.
- Every port may fail, also one that only reads. `World.faults` counts how often a port did not do its part, and
  crashes; `World.replies` and `answers` are what the network and the resolver said. A service's duty to succeed
  is stated relative to them. In a `reliable` world only the saves listed in `failing` fail;
  `acquisition_instances` runs the services in such worlds.
- The bytes received are those of bodies within their cap. A transport that delivers a longer one breaks its
  contract: that is a fault, and nothing of the body is counted.
- An artifact store may answer with an artifact other than the one given to it, as the services check for;
  such artifacts are `misfiled` and named by no intent.
- Sleeping between two hops has no effect but on later clock readings.
- An exception is a value (`Err`, `None`, or a named outcome). Its message is not modelled, except for the
  reasons that checkpoints store.
- A Python set or dictionary used as a running index is a `set` or `map` variable of the loop that updates it.
- The names of manifest fields are constructors of `Key`; every other string is `OtherKey`.

## What the proofs brought out

- The durable elapsed time can fall. When finalizing is already durable and the clock then cannot be used,
  `acquire` fails the target from the checkpoint it held before; when a policy fetch has recorded its time and
  then cannot build its snapshot or marker, `fetch` records the time again from the checkpoint before
  (src/tarkka/application/http_policy_fetch.py:146-151, 196-205). `Acquire` and `Fetch` ensure that the time
  falls during a call if and only if such a second record was made at an earlier clock reading than the first
  (`ElapsedTime.FallsIffRegresses`); as long as readings never decrease it does not fall, over any run
  (`AcquisitionRuns.SoundMeans`). `AcquisitionInstances.ElapsedTimeFalls` and `FetchTimeFalls` are runs of the
  two services in which it falls from 5 to 1. Single transitions never lower it.
- `complete_finalization` is given the time since the start on top of a budget that already contains the time
  up to finalization (src/tarkka/application/http_acquisition.py:328-331). So an acquisition that starts at s,
  begins to finalize at t1 and completes at t2 records (t1 - s) + (t2 - s), which `Acquire` ensures, and which
  is the time that has passed if and only if t1 = s (`ElapsedTime.TrueTimeIff`).
  `AcquisitionInstances.TimeCountsTwice` is a run that records 12 seconds where 7 have passed.
- `max_bytes` bounds what is charged at every instant, and what is received as long as no port fails. A failed
  save or a crash can lose the charge of one response, so with f faults up to f + 1 times `max_bytes` can be
  received, and no more (`AcquisitionRuns.SoundMeans`). `AcquisitionInstances.MoreThanMaxReceived` is a run of two
  acquisitions with one failed save that receives ten bytes under a limit of five.
- Refreshing robots.txt during an outage while the cached success would stay fresh for more than 15 minutes
  raises a cache conflict, because the fallback copy would shorten its expiry
  (`RobotsRefresh.FallbackConflicts`; `EarlyRefreshConflicts` is an instance). The crawl gate never refreshes
  that early.
- Canonicalizing a URL component twice is not always the same as once: `%%341` becomes `%41`, then `A`
  (`RobotsRules.StrayPercentIsUnstable`). It is the same if and only if no stray `%` of the component comes to
  stand before two hexadecimal digits, bare or decoded, whose escape would be respelled
  (`RobotsRules.StableIffSteady`); in particular if every `%` starts an escape (`CanonicalIsStable`).
- The comment on the token loop promises convergence "in a handful of steps"; the exact bound is four.

## Model

| member | source | states |
|---|---|---|
| CitationGraph.TraversalAnswers | src/tarkka/application/citation_traversal.py:65-162 | for every conforming repository, policy and root: nothing repeats, limits hold, both ends of each relation are listed; works come nearest first within the depth limit, no nearer work is skipped, and each but the root is found from an earlier one, exactly one step nearer, along a listed relation in the direction asked for, also when a limit cuts a level half-way; every listed relation was followed in that direction from a listed work within the depth limit; the stop flag is absent exactly when no allowed relation of a listed work is missing |
| CitationGraph.UnflaggedIsWholeGraph | src/tarkka/application/citation_traversal.py:65-162 | without a flag, the works are exactly the reachable ones and the relations exactly the allowed ones between them |
| CitationGraph.UnflaggedByDirection | src/tarkka/application/citation_traversal.py:65-191 | without a flag, the works are exactly those that steps from subject to object reach under Outbound, from object to subject under Inbound, and of either kind under Both |
| CitationGraph.ListedRelationsLead | src/tarkka/application/citation_traversal.py:102-126 | under Outbound every listed relation has its subject nearer than the depth limit and its object listed, under Inbound its object, under Both one of them |
| CitationGraph.DepthReached | src/tarkka/application/citation_traversal.py:86-162 | every work nearer than `max_depth_reached` has all its relations listed; with a stop flag it is the distance of a work with a relation missing, without one it is the greatest distance of a reachable work or one more |
| CitationOrder.TraversalIsOrdered | src/tarkka/application/citation_traversal.py:98-191 | relations are listed in the order in which they are followed: from nearer works first, from works of one distance in ascending order, from one work in ascending order of kind, subject, object and identity; each work was found by the first listed relation that touches it, and works come in the order of those relations |
| CitationGraph.LevelsAnswer | src/tarkka/application/citation_traversal.py:86-162 | the same from any settled level: the frontier is the set of works at that distance |
| CitationGraph.ExpandKeepsLayers | src/tarkka/application/citation_traversal.py:98-138 | expanding works of one level keeps the distance layering and the discovery of each work; a cut names the limit that is used up and something allowed is then really missing |
| CitationGraph.AbsorbKeepsLayers | src/tarkka/application/citation_traversal.py:108-126 | taking one work's relations keeps the layering: a new work lies exactly one step further |
| CitationGraph.NextLevelSettled | src/tarkka/application/citation_traversal.py:140-145 | after a fully expanded level the new frontier is exactly the works at the next distance |
| CitationGraph.BatchIsListing | src/tarkka/application/citation_traversal.py:164-191 | one batch holds distinct allowed unseen relations, and all of them when below the limit, though two listings are merged and cut |
| CitationGraph.UnseenMeansIncomplete | src/tarkka/application/citation_traversal.py:193-207 | the probe finds something exactly when some frontier work has an allowed relation not yet listed |
| CitationCutting.CuttingIsPrefix | src/tarkka/application/citation_traversal.py:86-162 | works and relations under a smaller works or depth limit are prefixes of those under a larger one |
| CitationCutting.ExpandCut | src/tarkka/application/citation_traversal.py:98-138 | one level under tighter limits is either the same step or a cut whose lists are prefixes |
| CitationService.Traverse | src/tarkka/application/citation_traversal.py:65-162 | the loops with their running sets, early returns and default policy return the specified traversal |
| CitationService.ExpandLevel | src/tarkka/application/citation_traversal.py:98-138 | the loop over a level computes the specified step and keeps the visited and seen sets equal to the lists |
| CitationService.AbsorbBatch | src/tarkka/application/citation_traversal.py:108-126 | the loop over one work's relations computes the specified step |
| CitationService.CollectRelations | src/tarkka/application/citation_traversal.py:164-191 | filling a dictionary by identity, sorting and cutting gives the specified batch |
| CitationService.AnyUnseen | src/tarkka/application/citation_traversal.py:193-207 | true exactly when the frontier has an unseen allowed relation |
| TraversalRuns.RunsFromEmpty | src/tarkka/domain/traversal.py:102-446 | after any sequence of transitions from an empty checkpoint: constructor invariants hold; requests = attempts + follow-ups + policy requests; bytes = target bytes + policy bytes; attempts stay within retries + 1; requests within the limit |
| TraversalRuns.RunKeeps | src/tarkka/domain/traversal.py:123-446 | any run keeps that invariant and never lowers the elapsed time |
| TraversalRuns.StepKeeps | src/tarkka/domain/traversal.py:123-446 | each transition keeps it, including the policy-request transitions and abandonment |
| TraversalRuns.StepAdvances | src/tarkka/domain/traversal.py:194-446 | each transition moves every target along the lifecycle; attempts count exactly the starts; outputs are named only on entering finalization, kept by completion and dropped only by failing it; exactly the charging transitions charge one request |
| TraversalRuns.RunStaysInPolicy | src/tarkka/domain/traversal.py:194-225 | over any run, no target outside the policy's URIs or depth has ever been requested, whatever depth it was enqueued with later |
| TraversalRuns.ChargingIsAllowed | src/tarkka/domain/resource_acquisition.py:128-161 | no start, follow-up or policy request is charged past the request, byte, depth or elapsed limit, or before the interval has passed |
| TraversalRuns.MovesExactly | src/tarkka/domain/traversal.py:227-426 | every other transition of a target succeeds exactly from its status, with an elapsed time that does not fall, a reason that is not blank, and for a requeue with a retry left |
| TraversalRuns.ChargesExactly | src/tarkka/domain/resource_acquisition.py:128-161 | a start, follow-up or policy request succeeds exactly within the depth, request, byte, elapsed and interval limits, for a queued target of an allowed URI or one in progress |
| TraversalRuns.RunFollows | src/tarkka/domain/traversal.py:123-446 | over any run targets never vanish or move, and completed or skipped ones keep status, outputs, attempts and bytes |
| TraversalRuns.RunKeepsDerived | src/tarkka/domain/traversal.py:449-450 | over any run each target's identity is the one derived from its URI |
| TraversalRuns.EnqueueSucceeds | src/tarkka/domain/traversal.py:123-171 | after any run a URI can be enqueued alone or under another known target: derived identities never clash |
| TraversalRuns.EnqueueKeeps | src/tarkka/domain/traversal.py:123-171 | a new or enriched target keeps the checkpoint invariant and the accounts |
| TraversalRuns.KnownUriIsEnriched | src/tarkka/domain/traversal.py:123-157 | enqueueing a known URI changes its one target only: while queued it moves to the smaller depth, the link and the parent are added once; it fails exactly for an unknown parent or for itself as parent |
| TraversalRuns.NewUriIsAppended | src/tarkka/domain/traversal.py:157-171 | enqueueing a new URI puts one queued, untouched target at the end, with the derived identity, depth, link and parent given |
| TraversalRuns.NextEligible | src/tarkka/domain/traversal.py:173-192 | the loop returns the first target that could be started now, or none exactly if there is none; it raises exactly if a queued target of an allowed URI meets a negative waiting time |
| TraversalRuns.InterruptKeeps | src/tarkka/domain/traversal.py:386-399 | failing all interrupted targets keeps the invariant and the accounts |
| TraversalRuns.MovedIsValid | src/tarkka/domain/traversal.py:38-91 | a transition gives its target a state its constructor accepts |
| TraversalRuns.MovedIsBounded | src/tarkka/domain/resource_acquisition.py:108-111 | a queued target always has a retry left, and none uses more than retries + 1 attempts |
| AcquisitionRuns.AnyRun | src/tarkka/application/http_acquisition.py:88-344 | any interleaving of acquisitions, policy fetches, recoveries, frontier upkeep and crashes, with ports that fail before or after writing, keeps every recorded instant sound |
| AcquisitionRuns.SoundMeans | src/tarkka/application/http_acquisition.py:88-344 | what a sound instant guarantees: the durable checkpoint satisfies its constructor invariants and retry bound; completed targets have both outputs; every stored output was durably named first; a marker ever saved is still there or both its outputs are durable; requests are charged before they are made; bytes received exceed those charged by at most one response per failure and the one in hand, and are at most `max_bytes` times one more than the failures, so at most `max_bytes` if there is none; the recorded time never falls while the clock does not |
| AcquisitionRuns.Crash | src/tarkka/application/http_acquisition.py:179-261 | a process death leaves the disk exactly as it was after some effect of the interrupted call |
| AcquisitionRuns.Upkeep | src/tarkka/domain/traversal.py:386-426 | enqueueing, interrupting, requeueing and skipping keep the disk safe |
| AcquisitionRuns.UpkeepIsSafe | src/tarkka/domain/traversal.py:386-426 | no upkeep transition completes a target or loses durable outputs |
| DurableStores.StepKeepsAccounted | src/tarkka/domain/traversal.py:102-446 | a checkpoint within its accounts and constructor invariants stays so under every transition, and no single transition lowers its elapsed time |
| DurableStores.MoveIsSafe | src/tarkka/domain/traversal.py:194-384 | a transition of one target keeps a checkpoint safe when the outputs it completes are durable |
| DurableStores.World.SaveCheckpoint | src/tarkka/application/http_acquisition.py:403-409 | a save may fail before or after the checkpoint became durable; only one that is safe, charged, and covers all but the last response may be offered |
| DurableStores.World.Request | src/tarkka/application/policy_http_exchange.py:25-66 | a network call needs an allowed URI, an allowed address, a byte cap within the budget, a durable charge that covers it, all earlier bytes charged and some of the elapsed budget left; it adds to the calls made and, for a body within its cap, to the bytes received |
| DurableStores.World.Resolve | src/tarkka/application/policy_http_exchange.py:47-47 | a host is resolved only while some of the elapsed budget is left |
| DurableStores.World.PutBytes | src/tarkka/ports/artifacts.py:26-33 | bytes are stored only under an intent that is durable already; they may become durable although the call fails, and what the store answers need not be what was sent |
| DurableStores.World.SaveObservation | src/tarkka/application/http_acquisition.py:321-321 | an observation is stored only under a durable intent that names it |
| DurableStores.World.DeleteMarker | src/tarkka/infrastructure/storage/json_policy_fetch_finalization_repository.py:61-76 | a marker is deleted only when both outputs are durable, and only if it is the stored one; a different one is refused and stays |
| DurableStores.World.SaveMarker | src/tarkka/infrastructure/storage/json_policy_fetch_finalization_repository.py:35-50 | saving a marker is idempotent; a different one for the same resource is refused and the stored one stays |
| HttpAcquisition.Acquire | src/tarkka/application/http_acquisition.py:88-177 | refused exactly for the checks before the start, and then nothing changes; sound at every instant; at most redirects + 1 calls, the first to the request URI given, or else to the target's own, and each further one to where the redirect before it points: status 301, 302, 303, 307 or 308, its location joined with the URI it came from, allowed by the policy; success means the network served the last reply, its digest and observation are those of the completed durable target, and both outputs are durable; an interrupted commit leaves the durable target finalizing or completed with the same outputs; without failures it is acquired exactly if served, and otherwise the cause is one of those on record; if the first account of bytes is the save that fails, the call ends there with the charge of the start alone; the durable time falls exactly when it was recorded again at an earlier reading |
| HttpAcquisition.StartAndFollow | src/tarkka/application/http_acquisition.py:109-177 | the charged checkpoint is durable before the clock is read and the first call is made, which goes to the requested URI |
| HttpAcquisition.FollowRedirects | src/tarkka/application/http_acquisition.py:120-177 | the redirect loop ends within the limit; the replies form a trail from the requested URI through each redirect; it ends acquired exactly if the last reply is served, when nothing fails |
| HttpAcquisition.FollowHops | src/tarkka/application/http_acquisition.py:120-164 | the passes up to the one that does not send the loop on: a trail of allowed redirects, each charged before its call |
| HttpAcquisition.OneHop | src/tarkka/application/http_acquisition.py:121-164 | one pass makes at most one call, to the first allowed address of the URI's own host, durably charges exactly the bytes of its body, and follows exactly the redirect its status and location ask for; it ends or goes on only if each of its three, or five, checks of the elapsed budget left something; without failures it stops only for no allowed address, an unacceptable reply or a used-up budget |
| HttpAcquisition.AskAndAccount | src/tarkka/application/http_acquisition.py:121-131 | the request of a pass and the durable account of its bytes; if that save fails, nothing of it is charged |
| HttpAcquisition.JudgeResponse | src/tarkka/application/http_acquisition.py:132-164 | an accounted response ends the loop, is followed or fails as its status, location, size and the limits say; it ends the loop or is followed only if the elapsed budget was checked after it, once or three times, with some left each time |
| HttpAcquisition.ChargeHop | src/tarkka/application/http_acquisition.py:156-164 | the next hop is charged durably before it is requested; without failures it is refused only for the budget |
| HttpExchange.RequestOnce | src/tarkka/application/http_acquisition.py:263-281 | at most one call, to the first allowed address of the URI's own host, after two checks of the elapsed budget that left some; its body fits the remaining byte budget and exactly its length is added to what was received, and nothing else changes on disk; without failures it yields no response only if no resolved address is allowed |
| HttpExchange.PinAddress | src/tarkka/application/policy_http_exchange.py:38-55 | the host of the URI itself is resolved, after a check of the elapsed budget, and its first allowed address chosen; none exactly if none is allowed, when nothing fails |
| HttpExchange.FirstAllowed | src/tarkka/application/policy_http_exchange.py:50-55 | the pinned address is the first allowed one in the order resolved, and there is none exactly if none is allowed |
| HttpExchange.WaitForFollowup | src/tarkka/application/http_acquisition.py:346-365 | a follow-up goes ahead only when the budget allows a request after the interval, the interval fits what is left of the elapsed budget, and some is left after the wait; it is held back only for the budget, or for a reading that leaves too little or cannot be used |
| HttpExchange.RemainingElapsed | src/tarkka/application/http_acquisition.py:375-386 | what is left of the elapsed budget is positive or the call raises |
| HttpExchange.Elapsed | src/tarkka/application/http_acquisition.py:388-392 | the time recorded so far plus the time since the start, or a raise exactly when the reading is unusable or before the start |
| HttpExchange.StoreOutputs | src/tarkka/application/http_acquisition.py:312-321 | under a durable intent: bytes, then observation; success means both are durable, and without failures it succeeds |
| HttpExchange.HopStoppedIsStopped | src/tarkka/application/http_acquisition.py:120-164 | a pass that stopped for a cause on record makes the whole trail one that the network did not serve |
| HttpExchange.TrailGoesOn | src/tarkka/application/http_acquisition.py:143-164 | a call that answers with an allowed redirect within the limit prolongs the trail by the join of its location with its own URI |
| HttpAcquisition.BeginDurably | src/tarkka/application/http_acquisition.py:304-310 | the checkpoint naming digest and observation is durable before it returns, with the time up to now recorded; nothing else is written |
| HttpAcquisition.FinishAcquisition | src/tarkka/application/http_acquisition.py:283-344 | the intent is durable before any output, since outputs are stored only under one; completion only with both outputs durable; no network; which clock readings decide the outcome |
| HttpAcquisition.CommitOutputs | src/tarkka/application/http_acquisition.py:311-344 | bytes, then observation, then completion; an interruption leaves the same outputs finalizing or completed; completion adds the time since the start once more |
| HttpAcquisition.CompleteDurably | src/tarkka/application/http_acquisition.py:328-338 | with both outputs durable the target is completed, unless the save fails or the clock cannot be used, which changes nothing |
| HttpAcquisition.RecordFailure | src/tarkka/application/http_acquisition.py:167-177 | a failure is durable with the target failed and the time since the start, or the clock or the save failed |
| HttpAcquisition.Conclude | src/tarkka/application/http_acquisition.py:137-177 | finishing, or failing because finishing raised: acquired exactly if the snapshot exists, when nothing fails; the saves made are one or two, timed by the readings taken |
| ElapsedTime.FallsIffRegresses | src/tarkka/application/http_acquisition.py:167-177 | the saves of one call record a falling time if and only if the last two both took the time from the clock and the later one read earlier; `Acquire` and `Fetch` ensure it of their own saves |
| ElapsedTime.TrueTimeIff | src/tarkka/application/http_acquisition.py:328-331 | a completed acquisition records (t1 - s) + (t2 - s), which is the true time if and only if finalizing began at the start |
| AcquisitionInstances.ElapsedTimeFalls | src/tarkka/application/http_acquisition.py:167-177 | a run of `acquire` with readings 0, 5, none, 1 lowers the durable time from 5 to 1 |
| AcquisitionInstances.FetchTimeFalls | src/tarkka/application/http_policy_fetch.py:146-205 | a run of `fetch` with readings 0, 5, 1 whose snapshot cannot be built lowers the durable time from 5 to 1 |
| AcquisitionInstances.TimeCountsTwice | src/tarkka/application/http_acquisition.py:328-331 | a run of `acquire` with readings 0, 5, 7 records 12 seconds |
| AcquisitionInstances.MoreThanMaxReceived | src/tarkka/application/http_acquisition.py:127-131 | a run of two acquisitions of one target, where the save that counts the first response fails: ten bytes are received under a limit of five |
| HttpRecovery.RecoverFinalization | src/tarkka/application/http_acquisition.py:179-261 | refused exactly for a target that is unknown or not pending, unless the checkpoint cannot be read; no network and no new outputs; a durable checkpoint of another identity counts as none; a completed target is returned unchanged; a finalizing one is completed exactly if both outputs are durable and failed exactly if one is absent, whenever neither a port nor the clock fails; an interruption hands back the durable checkpoint, the one before if its save failed, and the supplied one if none of its identity is durable |
| HttpRecovery.RecoverFrom | src/tarkka/application/http_acquisition.py:195-261 | the same, once the durable checkpoint is found |
| HttpRecovery.RecoverPending | src/tarkka/application/http_acquisition.py:217-261 | the same for a durable finalizing target |
| HttpRecovery.Reconcile | src/tarkka/application/http_acquisition.py:222-261 | the decision from the stores: completed if both outputs are durable, given up for retry if one is absent, untouched if the observation names another artifact; if interrupted, the checkpoint handed back is the durable one, or the one before if its save failed |
| HttpRecovery.AbandonHolds | src/tarkka/application/http_acquisition.py:430-455 | abandoning gives a valid failed target without outputs and keeps the checkpoint safe |
| HttpPolicyFetch.Fetch | src/tarkka/application/http_policy_fetch.py:97-205 | refused exactly for the checks before the start, unless the journal cannot be read; with a pending marker: no network, no clock and no save, and if no port fails the original body and observation are returned exactly if the artifact is stored; otherwise at most redirects + 1 calls, each charged first; without failures fetched exactly if served, the redirect limit reported exactly if the last reply is an acceptable redirect after `max_redirects` others, and a failed fetch for every other end; the redirect limit is reported only if the clock could be used at the end; the checkpoint handed back is the durable one; calls go where `Acquire`'s do; the durable time falls exactly when it was recorded again at an earlier reading |
| HttpPolicyFetch.BeginAndFollow | src/tarkka/application/http_policy_fetch.py:123-205 | the charged checkpoint is durable before the clock is read and the first call is made |
| HttpPolicyFetch.FollowPolicyRedirects | src/tarkka/application/http_policy_fetch.py:128-205 | the redirect loop ends within the limit along a trail of redirects, charging before each call; without failures it ends fetched exactly if the last reply is served |
| HttpPolicyFetch.OnePolicyHop | src/tarkka/application/http_policy_fetch.py:129-189 | one pass makes at most one call, to the first allowed address of the URI's own host, durably charges exactly the bytes of its body, and follows exactly the redirect its status and location ask for, each time only with some of the elapsed budget left |
| HttpPolicyFetch.JudgePolicyResponse | src/tarkka/application/http_policy_fetch.py:141-189 | an accounted response ends the loop, is followed, exceeds the redirect limit or fails as its status, location, size and the limits say, with the elapsed budget checked after it |
| HttpPolicyFetch.LimitAtEnd | src/tarkka/application/http_policy_fetch.py:162-189 | the last reply of a fetch is an acceptable redirect at the limit exactly if its last pass ended at the limit |
| HttpPolicyFetch.CheckedServed | src/tarkka/application/http_policy_fetch.py:289-315 | what `Fetch` counts as served also has a snapshot that names the requested URI as the normalization spells it |
| HttpPolicyFetch.CompletePolicyFetch | src/tarkka/application/http_policy_fetch.py:146-205 | the time is durable before the marker; a snapshot that cannot be marked fails the fetch and records the time again |
| HttpPolicyFetch.FinishPolicy | src/tarkka/application/http_policy_fetch.py:289-349 | the marker is durable before any output, since outputs are stored only under one; success leaves both outputs durable and the marker gone; without failures and without an older marker it succeeds |
| HttpPolicyFetch.CommitPolicyOutputs | src/tarkka/application/http_policy_fetch.py:326-349 | bytes, then observation, then the marker's removal, and nothing else on disk; without failures it succeeds; either way it hands back the checkpoint it was given |
| HttpPolicyFetch.RecoverPolicyResult | src/tarkka/application/http_policy_fetch.py:229-287 | no network; an absent artifact changes nothing and is reported; otherwise, unless a port fails, the bytes of the marker's digest and its observation are returned, both are durable and only the marker goes; either way it hands back the checkpoint it was given |
| HttpPolicyFetch.RecordPolicyFailure | src/tarkka/application/http_policy_fetch.py:196-205 | a failed fetch keeps the requests and bytes spent and saves the elapsed time |
| HttpPolicyFetch.PolicyChargeHolds | src/tarkka/domain/policy_requests.py:10-37 | a begun policy request is charged within the request limit before the call it covers |
| RobotsPattern.PatternMatches | src/tarkka/domain/robots_rules.py:218-246 | the greedy loop returns true exactly when the target matches: `*` stands for any text, a final `$` ends the target |
| RobotsPattern.FirstOccurrenceSuffices | src/tarkka/domain/robots_rules.py:241-244 | exchange argument: if a part fits anywhere with the rest after it, it fits at its first occurrence |
| RobotsPattern.SplitJoins | src/tarkka/domain/robots_rules.py:221-221 | splitting at `*` and joining with `*` is the identity, and no part contains `*` |
| RobotsPattern.TailMeaning | src/tarkka/domain/robots_rules.py:218-246 | without `$` a pattern matches exactly when it does with a trailing `*` |
| RobotsPattern.Find | src/tarkka/domain/robots_rules.py:241-243 | the first occurrence at or after a position, or none |
| RobotsPattern.RFind | src/tarkka/domain/robots_rules.py:238-240 | the last occurrence, or none |
| RobotsRules.Parse | src/tarkka/domain/robots_rules.py:46-114 | the grouping loop with its three variables yields the recursive grouping |
| RobotsRules.GroupingIsFaithful | src/tarkka/domain/robots_rules.py:46-114 | a rule is in a group naming an agent exactly when its line is in force for that agent by the lines themselves; an agent is named exactly when a line names it |
| RobotsLines.EveryLineIsRead | src/tarkka/domain/robots_rules.py:77-81 | a line with no colon before its comment says nothing; any other is a key and a value with spaces around them and perhaps a comment |
| RobotsLines.AgentLineIsRead | src/tarkka/domain/robots_rules.py:84-93 | the key `user-agent`, in any letter case, with `*` or a product token names that agent, and with any other value says nothing |
| RobotsLines.RuleLineIsRead | src/tarkka/domain/robots_rules.py:98-106 | the key `allow` states a rule that allows and `disallow` one that does not, in any letter case, about the canonical spelling of the value, or no rule if it is empty or unusable |
| RobotsLines.PatternIs | src/tarkka/domain/robots_rules.py:175-184 | a pattern of usable characters is spelled canonically, and a final `$` stays an anchor |
| RobotsLines.PatternIsNot | src/tarkka/domain/robots_rules.py:175-184 | a pattern that holds a control character, a space or `#` is not used |
| RobotsLines.TextStatesIsStated | src/tarkka/domain/robots_rules.py:75-114 | the rules in force for an agent by the lines read are exactly those its texts state |
| RobotsRules.CanonicalizeComponent | src/tarkka/domain/robots_rules.py:191-215 | the index loop yields the canonical spelling of the whole component |
| RobotsRules.SpellingIsIrrelevant | src/tarkka/domain/robots_rules.py:191-215 | components that denote the same octets have the same canonical spelling (unreserved characters and their escapes, either case of hexadecimal, characters outside ASCII and their UTF-8 escapes); well-escaped ones that denote different octets do not, where a reserved character such as `/` counts as different from its escape |
| RobotsRules.CanonicalIsStable | src/tarkka/domain/robots_rules.py:191-215 | canonicalizing a well-escaped component keeps what it denotes, and doing it twice is the same as once |
| RobotsRules.FixedIffCanonical | src/tarkka/domain/robots_rules.py:191-215 | a text is its own canonical spelling exactly if it is ASCII and each of its escapes is upper-case and of an octet that is not unreserved |
| RobotsRules.StableIffSteady | src/tarkka/domain/robots_rules.py:191-215 | for every component: canonicalizing again changes nothing if and only if no stray `%` of it stands before two octets that are hexadecimal digits and whose escape would be spelled otherwise |
| RobotsRules.StrayPercentIsUnstable | src/tarkka/domain/robots_rules.py:191-215 | a component that canonicalizes differently the second time, for exactly that reason |
| RobotsRules.Utf8Encodes | src/tarkka/domain/robots_rules.py:210-211 | a character outside ASCII is escaped by the octets of the table of section 3 of RFC 3629 |
| RobotsRules.EncodesOnce | src/tarkka/domain/robots_rules.py:210-211 | that table has one encoding of each code point |
| RobotsRules.CharacterClasses | src/tarkka/domain/robots_rules.py:9-13 | the characters of product tokens, of escapes, and the unreserved ones, by their codes |
| RobotsDecision.DecisionFollowsLines | src/tarkka/domain/robots_rules.py:116-152 | denied exactly when some matching disallow rule heard by the agent is strictly more specific than every matching allow rule |
| RobotsLines.DecisionFollowsText | src/tarkka/domain/robots_rules.py:75-152 | denied exactly when the target is not `/robots.txt` itself and the texts state, for the crawler or else for `*`, a matching disallow rule strictly more specific than every matching allow rule they state; matched is the canonical spelling of the path, `/` if empty, with `?` and the query if there is one |
| RobotsLines.RefusedTargets | src/tarkka/domain/robots_rules.py:116-122 | the call raises exactly for a product token that is none, and then for a target that is not absolute HTTP(S) |
| RobotsLines.TwoLineFile | src/tarkka/domain/robots_rules.py:75-152 | for the agent named, `Disallow: p` denies exactly what matches the canonical spelling of p, `/robots.txt` excepted, and `Allow: p` denies nothing |
| RobotsDecision.OrderIsIrrelevant | src/tarkka/domain/robots_rules.py:116-152 | files that state the same rules for the same agents decide alike, whatever their order or grouping |
| RobotsDecision.ApplicableIsHeard | src/tarkka/domain/robots_rules.py:148-152 | the applicable groups hold exactly the agent's rules, or those for `*` when no group names it |
| RobotsDecision.MostSpecificIsMaximum | src/tarkka/domain/robots_rules.py:22-26 | the compared specificity is attained and never exceeded |
| RobotsDecision.SpecificityIs | src/tarkka/domain/robots_rules.py:21-26 | specificity is the length in UTF-8 of what is left of a pattern without its stars and its anchor |
| RobotsRefresh.NeverStalerThanADay | src/tarkka/application/robots_refresh.py:85-178 | after any refreshes, a fresh cached entry or a chosen fallback stems from a real fetch less than 24 hours earlier; a fallback is a valid success, fresh when chosen |
| RobotsRefresh.RunIsTraced | src/tarkka/application/robots_refresh.py:85-235 | every cached entry is a valid copy of what one attempt really learned, with at most its expiry extended, and only for a success |
| RobotsRefresh.OutagesKeepTheCopy | src/tarkka/application/robots_refresh.py:152-178 | through any outages the success keeps content, provenance and fetch time exactly until one finds it out of its window with newer news; then no success is served |
| RobotsRefresh.OutageFetchesArePaced | src/tarkka/application/recursive_crawl.py:161-172 | during an outage, whether errors or 5xx responses, the number of calls is bounded by one per 15 minutes, plus one where the 24-hour limit cuts a window; results recovered without a call never add to it |
| RobotsRefresh.FallbackConflicts | src/tarkka/infrastructure/storage/json_robots_cache.py:38-65 | falling back conflicts with the cache exactly when the copy would stay fresh past the retry window; never when it is not fresh |
| RobotsRefresh.EarlyRefreshConflicts | src/tarkka/infrastructure/storage/json_robots_cache.py:38-65 | an instance: a success fetched at 0 and an outage found one hour later |
| RobotsRefresh.FetchTimesNeverFall | src/tarkka/infrastructure/storage/json_robots_cache.py:38-65 | no refresh replaces a fetch by an older one, rewrites it, or shortens its expiry |
| RobotsRefresh.LearnedIsValid | src/tarkka/application/robots_refresh.py:181-252 | a response is a success exactly when 2xx, small enough and decodable, unavailable exactly when 4xx, and unreachable otherwise, with its status only if 5xx; lifetimes are 6 hours, 1 hour and 15 minutes from its observation; every entry is one its constructor accepts |
| RobotsRefresh.FailureIsLearned | src/tarkka/application/robots_refresh.py:108-128 | a redirect limit is learned for 1 hour and an error for 15 minutes, both from now; any other exception teaches nothing |
| RobotsRefresh.FallsBackExactly | src/tarkka/application/robots_refresh.py:104-178 | an earlier copy stands in exactly if the site is out and the copy is a success fetched less than 24 hours ago that expires within 15 minutes; it then expires after 15 minutes or after those 24 hours, whichever is earlier; otherwise what was learned is chosen |
| RobotsRefresh.Refresh | src/tarkka/application/robots_refresh.py:85-150 | the branches and saves give the specified outcome and cache |
| RobotsRefresh.FinishUnreachable | src/tarkka/application/robots_refresh.py:152-178 | the copy within its window is extended and saved, otherwise the failure is; a conflict leaves the cache as it was |
| RobotsRefresh.RobotsCache.Save | src/tarkka/infrastructure/storage/json_robots_cache.py:38-65 | accepted exactly when newer, or the same fetch with no shorter expiry |
| DocumentOrder.ValidatedParentFirst | src/tarkka/domain/document_structure.py:44-116 | each rejection has its exact cause in the order of the checks; otherwise accepted exactly when acyclic, with the preorder of the forest as a permutation of the input |
| DocumentOrder.ListingIsTotalIffAcyclic | src/tarkka/domain/document_structure.py:98-116 | the listing from the roots has every section exactly when there is no cycle: the length comparison is a cycle test |
| DocumentOrder.PreorderIsUnique | src/tarkka/domain/document_structure.py:44-116 | there is only one such order |
| DocumentOrder.InputOrderIsIrrelevant | src/tarkka/domain/document_structure.py:44-116 | permuted inputs are accepted alike, with the same result, and rejected at the same check |
| DocumentOrder.PassageChecksPermute | src/tarkka/domain/document_structure.py:55-69 | whether the passage checks pass does not depend on the order of the sections |
| DocumentOrder.PreorderIsParentFirst | src/tarkka/domain/document_structure.py:98-116 | every section comes after its parent |
| DocumentOrder.Walk | src/tarkka/domain/document_structure.py:98-109 | the stack loop ends and lists the forest in preorder |
| DocumentOrder.IndexChildren | src/tarkka/domain/document_structure.py:88-96 | the child lists hold exactly the children, and the roots exactly the parentless |
| DocumentOrder.CheckPassages | src/tarkka/domain/document_structure.py:55-69 | the nested loops report the first fault |
| DocumentOrder.CleanPassages | src/tarkka/domain/document_structure.py:55-69 | no fault exactly when passage ids never repeat and ordinals never repeat within a section |
| DocumentStructure.TreesAreUnique | src/tarkka/domain/document_structure.py:88-109 | trees over the same sections with the same heads are equal |
| DocumentStructure.ForestIsDistinct | src/tarkka/domain/document_structure.py:98-109 | the preorder lists no section twice, even when other sections lie on cycles |
| DocumentStructure.RootedIffAcyclic | src/tarkka/domain/document_structure.py:111-116 | every section has a root above it exactly when there is no cycle |
| ReplayDiff.ReplayMismatches | src/tarkka/application/replay.py:152-209 | exactly the first `limit` entries of the unlimited walk, nothing exactly for equal trees, and an error exactly for limits below one |
| ReplayDiff.NoDiffIffSame | src/tarkka/application/replay.py:178-206 | the unlimited walk reports nothing exactly when keys, lengths and leaves agree throughout |
| ReplayEntries.DiffIsEntries | src/tarkka/application/replay.py:165-209 | the unlimited walk reports exactly the places where the trees differ - a key on one side only, lists of different lengths, unequal leaves - under the dotted and bracketed path of the place, with what each side holds there, or `<missing>`, on its own side |
| ReplayEntries.LeafEqualIsAlike | src/tarkka/application/replay.py:205-206 | leaves are equal by value as in Python: `True` is 1, `False` is 0, and an integer equals a float of the same value |
| ReplayDiff.Collector.Walk | src/tarkka/application/replay.py:178-206 | the recursion over the shared list appends the entries of the walk up to the limit |
| ReplayDiff.CapStep | src/tarkka/application/replay.py:182-203 | stopping at the limit in the middle of a walk loses only what the limit cuts off |
| ReplayDiff.Diagnostic | src/tarkka/application/replay.py:212-219 | a diagnostic is never longer than allowed |
| BibtexFields.WrittenFieldsReadBack | src/tarkka/infrastructure/bibliography_bibtex.py:149-244 | distinct names, each with one or more `#`-joined parts in braces, in quotes, as tokens or as macro names, read back as those names with what the parts stand for, joined and stripped |
| BibtexFields.EntryReadsBack | src/tarkka/infrastructure/bibliography_bibtex.py:149-193 | one written field is read exactly, leaving the rest |
| BibtexFields.PartsReadBack | src/tarkka/infrastructure/bibliography_bibtex.py:181-193 | `#` joins what its parts stand for |
| BibtexFields.PartReadsBack | src/tarkka/infrastructure/bibliography_bibtex.py:196-213 | each kind of part reads back as what it stands for: a braced or quoted text as it is, a macro name as its value, any other token as itself |
| BibtexFields.QuotedReadsBack | src/tarkka/infrastructure/bibliography_bibtex.py:247-264 | a quoted value with balanced groups and escapes, and no bare quote outside groups, is read to exactly its closing quote, whatever follows |
| BibtexFields.TokenReadsBack | src/tarkka/infrastructure/bibliography_bibtex.py:204-213 | a token is read up to a space, comma or `#`, or the end, and looked up among the macros in lower case |
| BibtexFields.ParensReadBack | src/tarkka/infrastructure/bibliography_bibtex.py:216-244 | between parentheses, nested parentheses count, those in braces or quotes do not |
| BibtexFields.ScanPieces | src/tarkka/infrastructure/bibliography_bibtex.py:216-244 | a balanced value is scanned to exactly its closing brace, whatever follows |
| BibtexFields.ReadFields | src/tarkka/infrastructure/bibliography_bibtex.py:149-178 | the cursor loop ends and returns the specified fields or error |
| BibtexFields.ReadField | src/tarkka/infrastructure/bibliography_bibtex.py:149-178 | one pass reads the specified field and strictly advances |
| BibtexFields.ReadValue | src/tarkka/infrastructure/bibliography_bibtex.py:181-193 | the concatenation loop reads the specified value |
| BibtexFields.ReadAtom | src/tarkka/infrastructure/bibliography_bibtex.py:196-213 | a braced, quoted, numeric or macro atom is read as specified |
| BibtexFields.BalancedBody | src/tarkka/infrastructure/bibliography_bibtex.py:216-244 | the depth and escape flags find the matching delimiter or raise |
| BibtexFields.QuotedBody | src/tarkka/infrastructure/bibliography_bibtex.py:247-264 | the closing quote at depth zero is found or an error raised |
| ProofBundles.ManifestRoundTrip | src/tarkka/domain/proof_bundle_v2.py:130-155 | every valid manifest of every version, printed and parsed by version, is the same manifest |
| ProofBundles.VersionsAreDisjoint | src/tarkka/domain/proof_bundle_v2.py:130-155 | no value is a manifest of two versions, and dispatch returns the one version that accepts it or raises |
| ProofBundles.OtherVersionsRefuse | src/tarkka/domain/proof_bundle_v3.py:83-129 | what one version prints, no other version's parser accepts |
| ProofBundles.ParsedIsCanonical | src/tarkka/domain/proof_bundles.py:239-326 | whatever parses is valid, and its printed form parses to the same manifest |
| ProofBundles.AcceptedHoldsTogether | src/tarkka/domain/proof_bundles.py:190-224 | in an accepted manifest the document and every work link name the one artifact, whose identity and path follow from its digest; every resource link names a listed observation; no identity is listed twice |
| ProofBundles.ManifestReadsBack | src/tarkka/domain/proof_bundles.py:227-326 | the version 1 printer and strict parser are inverse on valid manifests |
| ProofBundles.Manifest2ReadsBack | src/tarkka/domain/proof_bundle_v2.py:76-127 | overwriting the version and adding the research state is undone by the version 2 parser |
| ProofBundles.Manifest3ReadsBack | src/tarkka/domain/proof_bundle_v3.py:76-129 | the same for the normalized document of version 3 |
| ProofBundles.ReadManifest | src/tarkka/domain/proof_bundles.py:239-326 | what parses is valid, has exactly the contract's keys and the integer version 1 |
| ProofBundles.ObservationReadsBack | src/tarkka/domain/proof_bundles.py:138-152 | an observation with its metadata reads back |
| ProofBundles.LinkReadsBack | src/tarkka/domain/proof_bundles.py:177-186 | a resource link with its metadata reads back |
| ProofBundles.ArtifactReadsBack | src/tarkka/domain/proof_bundles.py:42-64 | an artifact record reads back |
| BundleValues.PlainCopiesBack | src/tarkka/domain/proof_bundles.py:477-511 | frozen metadata of any depth, written as plain JSON and copied again, is itself |
| BundleValues.CopyIsFrozen | src/tarkka/domain/proof_bundles.py:477-499 | a copy holds only tuples, string keys that are not blank, and finite numbers |
| BundleValues.CopyJsonMapping | src/tarkka/domain/proof_bundles.py:477-485 | the dictionary loop yields the frozen copy, or raises exactly when the value is not acceptable |
| BundleValues.CopyJsonValue | src/tarkka/domain/proof_bundles.py:488-499 | the same for any value |
| BundleValues.BlankIs | src/tarkka/domain/proof_bundles.py:477-485 | a key is blank exactly if it holds nothing but white space |
| ResearchState.CollectCompleteClaimLineage | src/tarkka/application/document_research_state.py:141-232 | when everything stored resolves, the pages give exactly the unpaged verdict for all limits the constructor accepts; otherwise nothing complete is returned |
| ResearchState.CompleteMeansEverything | src/tarkka/application/document_research_state.py:209-232 | a complete lineage has the claim's evidence in order and every stored relation once, strictly ordered by identity |
| ResearchState.CollectEvidence | src/tarkka/application/document_research_state.py:176-192 | the evidence pages make up exactly the claim's evidence; no page is refused for its bounds |
| ResearchState.CollectAssessments | src/tarkka/application/document_research_state.py:194-207 | the same for the relation pages |
| ResearchState.FirstPage | src/tarkka/application/document_research_state.py:147-174 | the first page fails only if the whole does, and reports the whole's totals |
| ResearchState.AssembleDocumentResearchState | src/tarkka/application/document_research_state.py:93-119 | succeeds exactly when the count, every document and every claim are within bounds and complete; lineages come in claim order |
| ResearchState.SortBySorts | src/tarkka/application/document_research_state.py:231-231 | sorting by key orders and permutes |
| ClaimLineages.Inspect | src/tarkka/application/claim_lineage.py:129-204 | a page with its caches equals the page computed from the repositories alone, errors included |
| ClaimLineages.PageHoldsTogether | src/tarkka/application/claim_lineage.py:129-318 | a page answers with the claim's own run and source, its evidence of the asked positions in order, each of the claim's run and document and with the source found in that document, and its relations of the asked positions, each with exactly the evidence and the context it names; documents, artifacts, runs and contexts have the identities they were looked up by |
| ClaimLineages.EvidenceIsJoined | src/tarkka/application/claim_lineage.py:257-284 | evidence resolves exactly if its run and document exist under their identities, belong together, agree with the owner where required, and it can be located |
| ClaimLineages.AssessmentIsAssessed | src/tarkka/application/claim_lineage.py:176-194 | a relation resolves exactly if it belongs to the claim, and the evidence and the context it names do |
| ClaimLineages.ReadAllEvidence | src/tarkka/application/claim_lineage.py:159-169 | the evidence of a slice is resolved in order, or the call raises |
| ClaimLineages.ReadAssessments | src/tarkka/application/claim_lineage.py:176-194 | the assessments of a page are resolved in order, or the call raises |
| ClaimLineages.Caches.ReadRun | src/tarkka/application/claim_lineage.py:206-227 | a cached run answers as a fresh lookup would |
| ClaimLineages.Caches.ReadSource | src/tarkka/application/claim_lineage.py:229-255 | a cached source answers as a fresh lookup would |
| ClaimLineages.Caches.ReadEvidence | src/tarkka/application/claim_lineage.py:257-284 | evidence resolves as the repositories determine, with the owner's document and run checked when required |
| ClaimLineages.EvidenceJoins | src/tarkka/application/document_research_state.py:176-192 | resolving consecutive pages resolves the list they make up |
| ComparisonTokens.StableComparisonTokens | src/tarkka/application/challenge.py:434-462 | the loop ends within four evaluations at the least count that is the cost of the view showing it |
| ComparisonTokens.ThirdIsStable | src/tarkka/application/challenge.py:434-462 | the third estimate is its own cost |
| ComparisonTokens.BelowFixedPoints | src/tarkka/application/challenge.py:434-462 | no estimate exceeds any consistent count |
| ComparisonTokens.FourAreNeeded | src/tarkka/application/challenge.py:434-462 | with 399,995 other characters the first three estimates all differ |
| ComparisonTokens.CostIs | src/tarkka/domain/manifest.py:31-35 | the cost of a view is a quarter of its length, rounded up, including the digits of the embedded count |
| ComparisonTokens.EstimateIsQuarter | src/tarkka/domain/manifest.py:31-35 | the estimate is the least number of groups of four characters that holds the text |

## Left out

- HttpPolicyFetch.Fetch: does not promise progress for a marker whose artifact is absent, because the source makes none: such a marker is only ever reported as interrupted.
- TraversalRuns.RunsFromEmpty: does not bound `bytes_used` for arbitrary callers, because `record_response_bytes` and `complete` accept any amount; the byte limit is part of `Safe`, which the services keep at every instant.
- AcquisitionRuns.SoundMeans: does not bound the bytes received by `max_bytes` once a port has failed, because a crash or a failed save loses the charge of the response before it.
- DurableStores.World.Request: of a body longer than its cap it counts no bytes as received, because what arrives of it is up to a transport that breaks its contract.
- TraversalRuns.RunKeeps: does not state that `parent_target_ids` is acyclic, because enqueueing an existing URI may close a cycle.
- RobotsRefresh.NeverStalerThanADay: says nothing of the freshness of an entry just fetched through a recovered policy fetch, because it keeps the earlier observation time.
- BibtexFields.WrittenFieldsReadBack: case folding of names is for ASCII letters.
- Network, DNS, files, JSON encoding, PostgreSQL, `urlsplit` and IDNA: abstract functions or ports.
- robots.txt: `Crawl-delay`, splitting text into lines, and the 512 KiB limits other than the one on a fetched body.
- Cache entries: the checks of URI shape, time zones and digest format in the constructor.
- BibTeX: splitting a file into entries, comments, string macros' definitions, and author names; the RIS and CSL readers.
- Manifests: JSON text, archive members and their hashing, and the order of keys.
- Claim lineage: how an evidence span is located in its document (`locate` is a parameter) and the exported JSON view.
- The walleted token loops of the comparison service: the digits of the remaining balance make them non-monotone.
- Recursive crawl orchestration, rights decisions, context wallets, workspace indexes, discovery, extraction, retrieval scores, rendering and the command line: composition or formatting around the parts above.
