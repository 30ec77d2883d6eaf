# LLM router: verified models of the stateful control code

A Dafny model of the parts of the router that keep state across calls, attempts, requests
or restarts, with proofs of what they promise over whole runs.

* **Failover** (`PreludeBuffer.dfy`, `Dispatch.dfy`, `Bindings.dfy`): the discardable
  response writer, the dispatch loop over it with its same-binding retries and its sibling
  rescue, and the list of bindings the loop walks. An attempt is an arbitrary script of
  writer calls, including writes the client refuses, followed by an outcome.
* **Caches** (`InvalidationCache.dfy`, `CacheProtocol.dfy`, `LostSets.dfy`, `ApiKeyCache.dfy`,
  `UserClusterCache.dfy`): the LRU with a secondary index and a generation guard, first one
  operation at a time, then as a step machine in which any number of Sets and
  invalidations interleave with evictions, the exact condition under which a Set ends up
  where no invalidation finds it, and the two-way-index variant, a machine of its own, which
  follows the first step for step while each user keeps one installation.
* **Export** (`Export.dfy`): keyset paging under a moving clock, over a table that grows.
* **Compaction** (`Envelope.dfy`, `AnthropicEnvelope.dfy`, `Compaction.dfy`): the tiered
  cascade that shrinks an over-long conversation, over any body format whose edits keep a few
  laws, and the OpenAI and Anthropic formats with the router's own size estimate.
* **Policy sidecar client** (`PolicyLadder.dfy`, `RouteMessages.dfy`): attempt budgets, the
  retry ladder's errors, and the message window with its truncation report.
* **Session pins** (`PinStore.dfy`, `PinEviction.dfy`, `ForceModel.dfy`, `Escalation.dfy`,
  `StruggleRoster.dfy`, `SessionRuns.dfy`): the pin table as its SQL treats it, every
  handler that writes it, with any store call failing at any time, and runs of all of them.
* **Loop signals and bounded memory** (`LoopDetectors.dfy`, `SessionMemory.dfy`).
* **Flag overrides** (`Flags.dfy`): validation, parsing and marshalling.

Objects the source updates in place are classes here, and its loops are loops; each is
proved equal to a function of the old state, and the lemmas are about those functions.
`hide` statements only keep the solver's work small.

## What the code does, where its documentation says otherwise

* The comments of `preludeBuffer` (`internal/proxy/fallback.go:24`, `:92`) say that
  WriteHeader after Seal commits the prelude. The code (`:66-78`) only buffers the status;
  the model follows the code.
* InvalidateInstallation (`internal/auth/apikey_cache.go:114-115`) is documented as dropping
  every positive entry of the installation. An entry can be cached without being indexed, and
  is then kept: `LostSets.NewSetCanBeLostExactlyWhen` says exactly which Sets can end so.
* `maybeCompact` is documented (`internal/proxy/compaction.go:242-250`) as compacting what is
  too long. Clearing replaces a result by a placeholder that may be longer, so a request
  that fits can end up trimmed or refused (`Compaction.ShortResultsCostAFittingRequest`).
* `internal/proxy/service.go:2684-2687` has compaction shrink a request to fit the largest
  eligible model. The window is computed with the signature savings of the request as it
  came in, and the pre-filter (`:2720`) recomputes them on the compacted one, so a request
  that was made to fit may fit no model (`Compaction.SafeToRecomputeExactlyWhen` says when).
* The comment on UpsertSessionPin (`db/queries/session_pins.sql:37-41`) says that the
  empty model of an eviction marker resets the strike counters. History rows are stored
  with an empty model, so their counters survive
  (`PinEviction.EvictionClearsStrikesExactlyWhen` gives the exact condition).
* The comment on DisableSessionPinProvider (`db/queries/session_pins.sql:274-279`) says that a strike-out lasts within one
  strategy. On a legacy row without a strategy the marker written right after it wipes it
  (`PinEviction.StrikeOutSurvivesExactlyUnderItsStrategy`).
* `internal/proxy/pin_eviction.go:51-53` says that a history row must not derive a second
  role suffix, because the role column is bounded. A strike against an HMM history row
  does derive one, of up to 33 characters (`PinStore.OneSuffixFits`); it is only ever
  deleted, never written.
* `handleLoopEscalation` reads the pin a second time to carry `LastServedModel` over, but
  UpsertSessionPin has no such column: the read has no effect.

## Model

| member | source | states |
|---|---|---|
| PreludeBuffer.ExecuteShows | internal/proxy/fallback.go:51-137 | for every script run from a ready buffer, the client sees exactly the reference view of that script (nothing unless it commits; else its last pre-commit status, its prelude, its later calls in order), and the buffer ends committed exactly when the script commits |
| PreludeBuffer.ExecuteHeaders | internal/proxy/fallback.go:101-117 | a script changes the header map by its own header calls and nothing else |
| PreludeBuffer.ClientBytes | internal/proxy/fallback.go:51-137 | when the client accepts its writes, the bytes it sees of a committing script are all the bytes the script wrote, in order; of any other script, none |
| PreludeBuffer.DiscardReady | internal/proxy/fallback.go:101-117 | discarding an uncommitted attempt leaves a ready buffer, the client untouched and the header snapshot restored, and doing it twice changes nothing |
| PreludeBuffer.Buffer.Write | internal/proxy/fallback.go:51-64 | the in-place writer takes exactly the specified step, committing the prelude on the first write after Seal |
| PreludeBuffer.Buffer.CommitPrelude | internal/proxy/fallback.go:119-137 | committing sends status, prelude and flush once; a refused prelude leaves the buffer committed with nothing more sent |
| PreludeBuffer.Buffer.DiscardBuffered | internal/proxy/fallback.go:101-117 | the in-place discard is the specified one, and a no-op once committed |
| Dispatch.ClientSeesOneAttempt | internal/proxy/fallback.go:194-321 | for every binding list and every attempt script the client sees the events of at most one attempt, the last one run; the error renderer writes at most once and only when nothing was committed |
| Dispatch.ChainShowsOneAttempt | internal/proxy/service.go:3150-3297 | the same over the primary dispatch, which may not have been built, and the sibling rescue behind it: one attempt's events or one rendered error, never both |
| Dispatch.ChainSucceedsExactlyWhen | internal/proxy/service.go:3150-3297 | the chain succeeds if and only if the primary does, or it failed rescuably with nothing shown, the sibling is viable, buildable and has a binding, and the sibling's dispatch succeeds |
| Dispatch.DeferredErrorReachesClient | internal/proxy/service.go:3186-3297 | with a viable sibling, a chain that fails with nothing shown ends with exactly one rendered error: the primary's deferred one when it was not rescued, else the sibling's |
| Dispatch.FirstServiceableBindingWins | internal/proxy/fallback.go:194-321 | with several bindings each configured one up to the winner is attempted exactly once, in order; the winner is the first not passed over (unconfigured, or failed failably with nothing committed), or the last |
| Dispatch.SucceedsExactlyWhen | internal/proxy/fallback.go:194-321 | with several bindings a dispatch succeeds exactly when some configured binding would, every binding before it passed over |
| Dispatch.SingleBindingRetries | internal/proxy/fallback.go:194-321 | one binding is attempted one to three times; every retry is timely, follows a retryable failure, and starts 250 and then 500 milliseconds after it; a retryable failure is final only when attempts or budget are spent or the sleep was cut short |
| Dispatch.RetriesStayInBudget | internal/proxy/fallback.go:335-375 | every same-binding retry starts one backoff after the attempt before it ended, and within the 10s budget, counted from the first, plus that backoff |
| Dispatch.GivesUpOnlyWhenSpent | internal/proxy/fallback.go:257-292 | a lone binding gives up on a retryable error only at its third attempt or past the budget |
| Dispatch.StatusDecides | internal/providers/provider.go:186-262 | a failure that carries an upstream answer is retried on 408, 429 and 5xx, and passed on to another binding on those, 402 and 404; one already sent to the client, or a cancellation, never; a stall always |
| Dispatch.RenderedExactlyWhen | internal/proxy/fallback.go:177-324 | the error renderer writes if and only if the dispatch failed with nothing shown, a renderer is there and not deferred, and the failure is not that of an unconfigured last binding, of a backoff cut short, or of an empty list the user did not force |
| Dispatch.NothingToAttempt | internal/proxy/fallback.go:179-216 | an empty list fails with a 503 naming the forced model or a bare 502, a sole unconfigured binding with its own failure, the client shown nothing but a rendering |
| Dispatch.OnlyTheLastAttemptDressesHeaders | internal/proxy/fallback.go:194-321 | no header of a failed attempt survives: the final map comes from the last attempt over a clean start, or from the snapshot and the error renderer alone |
| Dispatch.HeadersNameTheBinding | internal/proxy/fallback.go:231-244 | whoever shows the client anything is named: provider, model and window headers of the attempt that ran, and the fallback headers exactly past the first binding |
| Dispatch.DispatchWithFallback | internal/proxy/fallback.go:177-324 | the nested loops in place, through the buffer, compute the specified dispatch: winner, error, log, rendering and every field of writer and buffer |
| Dispatch.TryBinding | internal/proxy/fallback.go:222-292 | the same-binding loop in place equals the specified run of retries |
| Bindings.SelectedArmMovesToFront | internal/proxy/fallback.go:477-504 | when the selected arm matches a candidate, the resolved list is a stable move-to-front permutation of the eligible bindings |
| Bindings.ResolvesTo | internal/proxy/fallback.go:398-504 | the whole list, told by the catalog row: with nothing eligible the decision's provider or nothing; with that provider struck out the eligible bindings in catalog order; else that provider in front and behind it, in catalog order, the eligible bindings at other providers, but for a sole one the arm does not name |
| Bindings.DecisionLeads | internal/proxy/fallback.go:398-475 | a non-empty list starts with the decision's provider if and only if failover does not apply or that provider is not struck out; without failover it is the whole list |
| Bindings.LeadBinding | internal/proxy/fallback.go:446-475 | the binding in front keeps its upstream ID exactly when the arm names it or it stands first among several eligible ones |
| Bindings.ArmMatchedExactlyWhen | internal/proxy/fallback.go:477-504 | the arm matches if and only if the row's binding at its index is eligible, at the decision's provider, and serves the model under the arm's upstream ID |
| Bindings.ResolvedListIsSound | internal/proxy/fallback.go:398-475 | the resolved list repeats no provider, and under deployment-keyed failover holds no provider struck out for the session |
| Bindings.CandidateReachedExactlyWhen | internal/proxy/fallback.go:398-475 | every eligible binding is reached, except a sole candidate at another provider than the decision's, when that provider is not struck out and no arm matched |
| Bindings.EmptyExactlyWhen | internal/proxy/fallback.go:398-475 | exactly when the list is empty |
| Bindings.ResolveBindingsForDispatch | internal/proxy/fallback.go:398-475 | the loops in place compute the specified list |
| InvalidationCache.IndexedAfterEveryRun | internal/auth/apikey_cache.go:69-146 | run one at a time with evictions between, operations keep every cached entry indexed under its installation, and index nothing else while each key keeps one installation |
| InvalidationCache.InvalidateAloneIsExact | internal/auth/apikey_cache.go:116-128 | an invalidation run alone leaves no entry of its installation and, each key keeping one installation, keeps all others |
| CacheProtocol.OvertakenSetLeavesNothing | internal/auth/apikey_cache.go:69-128 | under every interleaving of any number of Sets, invalidations and evictions, a Set whose index step precedes and whose recheck follows an invalidation of its installation has no entry of its own left from the moment it returns |
| CacheProtocol.RestIsFreshAndIndexed | internal/auth/apikey_cache.go:69-146 | at every rest of a run in which waiting Sets keep their index entries, each cached entry is indexed and was begun after its installation's last invalidation |
| CacheProtocol.AloneRestIsFreshAndIndexed | internal/auth/apikey_cache.go:69-146 | the same whenever a Set starts only while its key is absent and no other Set of it is in flight |
| CacheProtocol.UnindexedEntrySurvives | internal/auth/apikey_cache.go:69-146 | an instance of a lost Set: a legal run comes to rest with an unindexed entry cached that an invalidation was meant to remove |
| LostSets.CanBeLostExactlyWhen | internal/auth/apikey_cache.go:69-146 | at any point of any interleaving, a Set that has not inserted yet can come to rest with its entry cached and unindexed if and only if its ticket is current and its index entry is gone, or an entry is cached at its key and installation, or another Set of the two is waiting to insert or has inserted and been overtaken |
| LostSets.NewSetCanBeLostExactlyWhen | internal/auth/apikey_cache.go:69-146 | the condition before the call: a starting Set can be so lost if and only if its key is already cached under its installation, or another Set of the two is waiting or overtaken |
| LostSets.ApartRestIsFreshAndIndexed | internal/auth/apikey_cache.go:69-146 | if no Set of a run starts in that situation, at every rest each cached entry is indexed and was begun after its installation's last invalidation |
| LostSets.OverlapLosesAnEntry | internal/auth/apikey_cache.go:114-128 | if one does, its run can come to rest, nothing else starting, with that Set's entry cached, unindexed, and kept by an invalidation of its installation |
| CacheProtocol.InvalidationSparesOthers | internal/auth/apikey_cache.go:116-128 | in every interleaving no removal an invalidation makes touches another installation's entry, and at rest the index lists cached entries only |
| ApiKeyCache.LRUAPIKeyCache.Set | internal/auth/apikey_cache.go:69-112 | the method, run alone, makes exactly the specified change to LRU, index and generations, and keeps every entry indexed |
| ApiKeyCache.LRUAPIKeyCache.InvalidateInstallation | internal/auth/apikey_cache.go:116-128 | likewise for an invalidation, the negative cache untouched |
| ApiKeyCache.LRUAPIKeyCache.OnPositiveEvict | internal/auth/apikey_cache.go:132-146 | the eviction callback drops the key from its installation's bucket, and the bucket when it empties |
| UserClusterCache.ClusterOvertakenSetLeavesNothing | internal/auth/user_cluster_cache.go:68-119 | in every run of this cache's own protocol, users moving between installations at will, a Set whose index step precedes and whose recheck follows an invalidation of its installation has no lists of its own left from the moment it returns |
| UserClusterCache.StepsInLockstep | internal/auth/user_cluster_cache.go:68-144 | while each user keeps one installation every step, tagged with that installation, is the API-key cache's step, and keeps the two index maps mirrored |
| UserClusterCache.ClusterRestIsExact | internal/auth/user_cluster_cache.go:68-144 | and at rest, when waiting Sets kept their index entries, the users cached are exactly the users indexed, each under its own installation, by both maps |
| UserClusterCache.ApartClusterRestIsExact | internal/auth/user_cluster_cache.go:68-144 | the same when no Set of a user starts over the user's cached lists, nor over another Set of the user that waits to insert or has been overtaken |
| UserClusterCache.OverlapLosesLists | internal/auth/user_cluster_cache.go:68-144 | and no less will do: any run with a Set that does can come to rest, nothing else starting, with the user's lists cached, unindexed, and kept by an invalidation |
| UserClusterCache.OperationsInLockstep | internal/auth/user_cluster_cache.go:68-119 | and both operations, run alone, are the API-key cache's |
| UserClusterCache.MovedUserIsDroppedByEither | internal/auth/user_cluster_cache.go:68-119 | a user set again under another installation is dropped by an invalidation of either |
| UserClusterCache.LRUUserClusterListCache.Set | internal/auth/user_cluster_cache.go:68-100 | run alone, the method's whole effect on the four maps, whatever installation the user had; an unnamed user is ignored |
| UserClusterCache.LRUUserClusterListCache.InvalidateInstallation | internal/auth/user_cluster_cache.go:104-119 | run alone: the bucket and its users' back references go, the generation rises, the users' lists leave the LRU, nothing else changes |
| Export.CursorRoundTrips | internal/analytics/cursor.go:28-53 | parsing undoes rendering for every cursor with an ID, and for the zero cursor |
| Export.RefusedExactlyWhen | internal/analytics/service.go:57-111 | a request errs with InvalidCursor exactly when its token is no cursor's, with WindowRequired exactly when cursor and Since are both absent, and with the repository's failure exactly when a non-empty window was asked of a failing one |
| Export.InStepIsAnswered | internal/analytics/service.go:57-111 | a consumer in step, over a repository that answers, gets a page unless it has neither asked for a window nor been given a cursor |
| Export.PageKeepsToTheRequest | internal/analytics/service.go:66-111 | a page holds at most the limit asked, a thousand when none was and never over ten thousand, is full when there is more, and holds no row past the holdback, at or past Until, or before Since |
| Export.ReadIsGoodPage | internal/analytics/service.go:57-111 | a page answered to a consumer in step holds new rows of the window, in order and skipping none, and HasMore says exactly whether a row of the window is left |
| Export.DeliversExactlyOnceInOrder | internal/analytics/service.go:57-111 | over any interleaving of commits within Holdback and reads of any window and limit under a non-decreasing clock, the rows delivered are, each once and in key order, exactly those from Since up to the cursor |
| Export.DrainedMeansComplete | internal/analytics/service.go:57-111 | after a page without more, every row from Since on and before the holdback was delivered |
| Export.DrainTerminates | internal/analytics/service.go:57-111 | pages reporting more are never more than the rows the table ends with |
| Export.FreshConsumerStaysInStep | internal/analytics/service.go:57-111 | both from the first call on, for any table |
| Export.CommitKeepsStepExactlyWhen | internal/analytics/service.go:57-111 | a commit leaves a consumer in step if and only if its row is before Since or past the consumer's cursor |
| Export.TimelyIsAhead | internal/analytics/service.go:57-111 | a row committed within Holdback of its timestamp is always so |
| Export.StaysInStepExactlyWhen | internal/analytics/service.go:57-111 | over any interleaving of reads and commits, however late, the rows delivered are, each once and in key order, exactly those from Since up to the cursor, if and only if no row from Since on was committed behind the cursor of its time |
| Export.RowBehindCursorIsLost | internal/analytics/service.go:57-111 | a row landing behind the cursor, as a commit past Holdback can, is never delivered, whatever else lands and however long the consumer reads on |
| Envelope.TrimNeverRaises | internal/translate/handover.go:211-244 | trimming never raises the estimate, and reports zero only when it changed nothing |
| Envelope.TrimKeepsTheNewest | internal/translate/handover.go:211-244 | a trim keeps all system messages and the last n others in order, without the tool results whose call was cut off, and nothing else is missing |
| Envelope.RewriteKeepsTheNewest | internal/translate/compaction.go:214-240 | a rewrite keeps the system messages, its summary, and the messages from a user turn on (the first in the window, or the last before it), with no orphaned tool result |
| Envelope.ClearingKeepsTheRecent | internal/translate/compaction.go:144-184 | clearing replaces exactly the tool results with keepRecent others behind them and touches nothing else |
| Envelope.ClearingLongResultsNeverRaises | internal/translate/compaction.go:144-184 | clearing reports zero only when it changed nothing, and does not raise the estimate when the cleared results average a placeholder's length |
| AnthropicEnvelope.TrimNeverRaises | internal/translate/handover.go:117-134 | the Anthropic trim, with its dropping of orphaned tool results, raises neither the estimate nor the signature savings, and reports zero only when it changed nothing |
| AnthropicEnvelope.TrimKeepsTheNewest | internal/translate/handover.go:117-134 | the last n messages stay in order, without the tool results whose call was cut off and the user messages that were nothing else |
| AnthropicEnvelope.RewriteKeepsTheNewest | internal/translate/compaction.go:198-212 | the summary in front, and behind it the messages from a user turn on, with no orphaned tool result |
| AnthropicEnvelope.ClearingKeepsTheRecent | internal/translate/compaction.go:76-142 | exactly the tool results of user messages with keepRecent others behind them become the placeholder |
| AnthropicEnvelope.ClearingLongResultsNeverRaises | internal/translate/compaction.go:76-142 | the Anthropic clearing never raises the savings, reports zero only when it changed nothing, and does not raise the estimate when the cleared results average a placeholder's length |
| AnthropicEnvelope.RewriteKeepsNoMoreSignatures | internal/translate/compaction.go:198-212 | rewriting behind a summary never raises the savings |
| Compaction.FormatsAreLawful | internal/translate/compaction.go:20-54 | both formats keep the laws the cascade's theorems ask of a body |
| Compaction.MaxEligibleContextWindow | internal/proxy/compaction.go:140-155 | the loop returns the largest effective window of the eligible models, zero when there is none |
| Compaction.SomeModelFitsExactlyWhen | internal/proxy/compaction.go:140-155 | some eligible model passes the per-model window check exactly when estimate and reserve fit that maximum, at the same signature savings |
| Compaction.FittingModelFitsEveryBinding | internal/proxy/sibling_failover.go:66-75 | a model passing the pre-filter passes the sibling check at each of its enabled bindings |
| Compaction.SelectsFirstCandidateWithRoom | internal/proxy/compaction.go:168-212 | the summarizer is the first candidate with room, the session's own model when eligible; none exactly when none has room |
| Compaction.CandidatesAreNamed | internal/proxy/compaction.go:158-202 | the candidates, none twice: the session's own eligible model in front, the configured or default summarizer, the large-window model last |
| Compaction.NilExactlyWhenFits | internal/proxy/compaction.go:251-343 | an active cascade returns an error exactly when the body it leaves does not fit, whatever the summary's size |
| Compaction.TriggerIsTheFraction | internal/proxy/service.go:1470-1477 | the trigger is the configured fraction of the window in whole tokens, 85 percent when it is out of range, and zero turns the cascade off |
| Compaction.DefersExactlyWhen | internal/proxy/compaction.go:234-273 | a request is left for the client to compact if and only if the cascade is past its trigger, the request fits, and it is Claude Code's for a model whose window less 13000 is within the largest eligible one |
| Compaction.ClearsFirst | internal/proxy/compaction.go:251-300 | an engaged cascade clears all but five tool results, reports how many, and stops there when that gets under the trigger; any other leaves the body alone |
| Compaction.SummaryIsUsed | internal/proxy/compaction.go:303-325 | a summary that comes is used: the report names its model, the history is rewritten behind it with twelve turns unless that pushes a fitting request out, and a rewrite that fits is sent untrimmed |
| Compaction.SummarizedOnlyWhen | internal/proxy/compaction.go:303-394 | without one nothing is rewritten and no model named |
| Compaction.RescueStopsAtTheFirstFit | internal/proxy/compaction.go:320-343 | what still does not fit is trimmed to 12, 6, 3 messages and 1, the first that fits is sent, and the request refused only when none does |
| Compaction.CompactedRequestHasAModel | internal/proxy/compaction.go:251-343 | when an active cascade returns nil, some eligible model passes the window check |
| Compaction.SavingsNeverRise | internal/proxy/compaction.go:251-343 | the cascade never raises the signature savings |
| Compaction.RecomputedCheckPasses | internal/proxy/service.go:2687-2720 | after a nil return some eligible model passes the check at the recomputed savings whenever none were lost, or a signature-keeping model has the window by itself, or the reserve takes it up |
| Compaction.SafeToRecomputeExactlyWhen | internal/proxy/service.go:2687-2720 | over all Anthropic requests with given savings and all configurations, a nil return always leaves such a model exactly when there are no savings, or a signature-keeping model has the window by itself, or the reserve takes it up |
| Compaction.SavingsLostToCompactionCostTheModel | internal/proxy/service.go:2687-2720 | for every other catalog, window and savings some request, run through the cascade, comes back nil and fits no eligible model |
| Compaction.ReportIsHonest | internal/proxy/compaction.go:251-343 | Applied=false means the body is untouched, and the reported estimate is that of the body left |
| Compaction.ServedWhateverTheSummaryExactlyWhen | internal/proxy/compaction.go:251-343 | a request that fits is neither trimmed nor refused, whatever the summarizers are and answer, exactly when the cascade does not engage or the request fits once cleared |
| Compaction.FittingAfterClearingIsServed | internal/proxy/compaction.go:251-343 | in particular a request that fits before and after clearing is never trimmed or refused |
| Compaction.FittingIsRescuedExactlyWhen | internal/proxy/compaction.go:251-343 | a request that fits on entry is trimmed or refused exactly when the cascade engages and clearing and summarizing leave it too large |
| Compaction.ShortResultsCostAFittingRequest | internal/proxy/compaction.go:251-343 | results shorter than their placeholders cost a fitting request its history |
| Compaction.SixShortResultsAreNotServed | internal/proxy/compaction.go:251-343 | and there are such histories |
| Compaction.MaybeCompactInPlace | internal/proxy/compaction.go:251-343 | the cascade in place leaves the specified body and report |
| PolicyLadder.AttemptTimeoutInRange | internal/policyclient/client.go:57-73 | the attempt bound lies in [min(500ms, t), t]; from 2300ms on it is at least 1.8s and leaves 500ms |
| PolicyLadder.AttemptTimeoutByBudget | internal/policyclient/client.go:57-73 | the attempt bound of every budget, interval by interval, and of a budget that is not positive |
| PolicyLadder.AttemptTimeoutMonotone | internal/policyclient/client.go:57-73 | a larger budget never gives a smaller bound |
| PolicyLadder.TwoAttemptsFitExactlyWhen | internal/policyclient/client.go:21-73 | two full attempts and the first backoff fit exactly when 1050ms <= t < 2300ms or t >= 3650ms |
| PolicyLadder.ThreeAttemptsNeverFit | internal/policyclient/client.go:21-73 | three full attempts with both backoffs never fit |
| PolicyLadder.LadderKeepsDiagnosis | internal/policyclient/client.go:756-832 | at most three attempts; a final error carries the latest transient status of any attempt; the context's sentinel is reachable when it ended the ladder before or between attempts, and the third attempt's own when it ended there: a deadline always, a cancellation unless a deadline and a status both outrank it |
| PolicyLadder.ThirdAttemptWithoutReply | internal/policyclient/client.go:756-885 | a third attempt without a reply: cut by its own bound it leaves a deadline and no cancellation; otherwise an expiry is always reachable, a cancellation exactly when there is not both an expiry and an earlier sidecar status |
| PolicyLadder.AnsweredExactlyWhen | internal/policyclient/client.go:756-784 | answered exactly when one of three attempts gets a non-transient status with the context live until then |
| PolicyLadder.MakesAttemptExactlyWhen | internal/policyclient/client.go:756-885 | attempt k is made if and only if every one before it failed transiently with the context live throughout, and an answer is the reply of the last attempt |
| PolicyLadder.BuildErrorExactlyWhen | internal/policyclient/client.go:756-885 | a request that cannot be built is given up on at the first attempt, unless the context was over |
| PolicyLadder.FourStatusesAreTransient | internal/policyclient/client.go:887-892 | 500, 502, 503 and 504 alone are worth another attempt |
| PolicyLadder.DoPolicyRequest | internal/policyclient/client.go:756-784 | the loop ends as the specified ladder does |
| RouteMessages.SentWithinLimits | internal/policyclient/client.go:946-954 | at most 96 messages, 3000 bytes a text and 48000 bytes of text in all |
| RouteMessages.SentInOrder | internal/policyclient/client.go:1015-1098 | the messages sent are some of the last 96, in order: each has the role of its original, a text that is a prefix of the trimmed original, and the conversion of that message's own calls and results; none of them with a call or a result to send is left out |
| RouteMessages.BudgetGoesToTheNewest | internal/policyclient/client.go:1024-1039 | at any place in the window, a message's text budget is what the messages behind it left: it sends its whole text when that and 3000 bytes are room enough, never more, and is left out over its text only when nothing is left |
| RouteMessages.CallsAreCut | internal/policyclient/client.go:1041-1062 | each call is sent in its place exactly when it is named, under a front of its name, with the first 24 input keys and not the input |
| RouteMessages.KeysAreCut | internal/policyclient/client.go:1046-1055 | each key is sent in its place exactly when not blank, whole up to the limit and cut to a front of it past that |
| RouteMessages.ResultsAreKept | internal/policyclient/client.go:1063-1098 | every result is sent, in order, with its error flag, under a front of its ID and without its text |
| RouteMessages.RolesSent | internal/policyclient/client.go:1100-1109 | five roles are known whatever their case, "model" is the assistant's, and a sent role would be sent as itself |
| RouteMessages.CaseDoesNotMatter | internal/policyclient/client.go:1100-1109 | two spellings of a role that differ in case alone are sent alike |
| RouteMessages.WhatLimitsKeep | internal/policyclient/client.go:1015-1055 | a limit that is not positive limits nothing; a positive one keeps the first keys and the last messages, as many as it says |
| RouteMessages.NotTruncatedIsLossless | internal/policyclient/client.go:956-983 | when nothing is reported truncated, every message of a known role with anything in it is sent, its text, tool names and input keys whole but for white space |
| RouteMessages.TruncatedExactlyWhenLossy | internal/policyclient/client.go:956-983 | on messages without blank parts the report is exact: truncated if and only if what is sent is not all of them, whole but for white space |
| RouteMessages.ReportIgnoresResults | internal/policyclient/client.go:956-983 | the report does not depend on tool results, though their IDs are clipped |
| RouteMessages.ConvertRouteMessagesLoop | internal/policyclient/client.go:1015-1098 | the backward loop with its reversed buffer computes the specified list |
| RouteMessages.RouteMessagesTruncated | internal/policyclient/client.go:956-983 | the reporting loop decides the specified predicate |
| Flags.RoundTripsExactlyWhenValid | internal/flags/flags.go:375-471 | parsing undoes marshalling exactly for the override sets validation accepts |
| Flags.ParseOverrides | internal/flags/flags.go:375-402 | accepts exactly the readable objects that denote a valid set, returns that set, and never one validation rejects, and names of any other object a fault it has |
| Flags.NothingIsNoOverride | internal/flags/flags.go:375-384 | no text and a JSON null are no overrides, and text that is not JSON is refused |
| Flags.ValidateOverrides | internal/flags/flags.go:302-350 | accepts exactly the sets whose every key is registered, overridable, in the map of its kind, and holds an admitted value, and names of any other set a fault it has |
| Flags.AdmittedValues | internal/flags/flags.go:302-350 | a percentage is admitted from 0 to 100, a fallback model when it is not all white space, any other value always |
| Flags.ValidIsDisjoint | internal/flags/flags.go:302-350 | an accepted set has no key in two maps |
| Flags.MarshalJSON | internal/flags/flags.go:456-471 | the four loops lay the maps over each other, the last one holding a key winning |
| Flags.DisjointMarshalIsLossless | internal/flags/flags.go:456-471 | with disjoint maps every value can be read back from the flat object |
| Flags.ClashIsLossy | internal/flags/flags.go:297-301 | with a key in two maps it cannot: sets differing in the shadowed value marshal alike |
| Flags.ReparseIsStable | internal/flags/flags.go:375-471 | an accepted object keeps its keys through parse and marshal, and parses to the same set again |
| Flags.NullReadsAsZero | internal/flags/flags.go:405-451 | adding a null to an accepted object is accepted as an override to the kind's zero value |
| PinStore.RoleNamesAreDistinct | internal/proxy/force_model.go:119-131 | role names built with any suffixes are pairwise distinct, and none is the force control role |
| PinStore.OneSuffixFits | internal/proxy/command_continuation.go:12-22 | one suffix always fits the 32-character column; a continuation of a history role overflows it exactly for the top tier |
| PinStore.NothingStaleSurvives | db/queries/session_pins.sql:25-188 | an upsert leaves behind of the row before its runner-up pair, policy group and strikes only for the same model under the same strategy, its served history, switch flag and struck-out providers only under the same strategy, and touches no other row |
| PinStore.TurnsAreCounted | db/queries/session_pins.sql:56-176 | over any run of upserts under one strategy, whatever their models, a row counts one turn each from the write that made it or changed its strategy, keeps that write's start, and holds the last write's model, provider, reason, expiry, runner-up and group |
| PinStore.SwitchesAreRemembered | db/queries/session_pins.sql:183-208 | over any run of usage writes, the switch flag ends up if and only if it was up, a write brought it, or a write served another model than the one before |
| PinStore.SweepTakesTheLongDead | db/queries/session_pins.sql:294-300 | the sweep takes exactly the rows dead for more than a day |
| PinStore.StrategiesKeepApart | internal/proxy/pin_strategy.go:13-22 | a row of one strategy matches no other; one without matches all but the beta |
| PinEviction.EvictedExactlyAtTheSecondStrike | internal/proxy/pin_eviction.go:172-240 | over any run of sticky unforced turns, refreshes and usage writes, on a pin's own row or its HMM history row, of any model or none, the row keeps its model and life exactly until the first second error of one kind (non-retryable status, or 529) with no served turn between, and is then evicted |
| PinEviction.OneCounterAtMost | internal/proxy/provider_overload.go:29-100 | one turn, whatever the rows, the dead-arm verdict and the store's failures, raises no counter of any row but one of the turn's own row: its rejections, by one, on a non-retryable status, or its overloads, by one, on a 529; never both |
| PinEviction.OnlyStrikesCount | internal/proxy/provider_overload.go:29-100 | a retryable or transport failure, or a turn forced or not sticky, leaves the whole table alone |
| PinEviction.StrikeOutOutlivesThePin | db/queries/session_pins.sql:274-296 | a provider struck out on a row stays so through any further turns, evictions and re-pins under the strategy |
| PinEviction.EvictionClearsStrikesExactlyWhen | db/queries/session_pins.sql:37-41 | a strike eviction clears each counter exactly when the row held a model or another strategy, or, for the overload counter, when the strike-out itself resets it |
| PinEviction.NextRejectionEvictsAloneExactlyWhen | internal/proxy/pin_eviction.go:172-240 | after an eviction and the write that makes the row live again, one more rejected turn evicts on its own exactly when neither changed the row's empty model or its strategy |
| PinEviction.StrikeOutSurvivesExactlyUnderItsStrategy | internal/proxy/provider_overload.go:83-93 | the struck-out provider is remembered past the eviction exactly when the row already carried the turn's strategy |
| PinEviction.ExpiryTakesTheContinuation | internal/proxy/pin_eviction.go:54-80 | an expiry leaves its row dead and no continuation of it to be taken under the strategy, touches no other row, and does neither when the marker write fails |
| PinEviction.DeadArmAndDegenerateExpire | internal/proxy/pin_eviction.go:108-165 | a rejected dead arm expires the row, sticky or not, a degenerate response the sticky row, each with its continuation; a user's force and an unaddressable turn are left alone |
| PinEviction.DeadArmTurnLeavesNoPin | internal/proxy/pin_eviction.go:143-165 | a turn whose arm was dead leaves the row dead, however it ended and whatever other call fails |
| PinEviction.SecondRejectionByCalls | internal/proxy/pin_eviction.go:172-240 | the second rejection store call by store call: without the count nothing, without the marker only the count, then the continuation |
| PinEviction.SecondOverloadByCalls | internal/proxy/provider_overload.go:29-100 | the second overload likewise: count, strike-out, marker, continuation, history marker, stopping at the first failure |
| PinEviction.StrikesByStatus | internal/proxy/pin_eviction.go:172-200 | 529 counts as an overload, any other status not worth a retry as a rejection, no answer as neither |
| PinEviction.MaybeEvictPinAfterUpstreamErr | internal/proxy/pin_eviction.go:172-240 | the handler's whole effect on the table, with any store call failing |
| PinEviction.MaybeDisableProviderAfterOverload | internal/proxy/provider_overload.go:29-100 | likewise |
| PinEviction.ExpireSessionPinAndHMMHistory | internal/proxy/pin_eviction.go:82-97 | the whole effect on the table, with any store call failing; it stops at the first failure and reports an error exactly when a call it made failed |
| ForceModel.LoadForceModelSessionPin | internal/proxy/force_model.go:180-199 | what loading the control row yields, for every row and failure |
| ForceModel.LoadedExactlyWhen | internal/proxy/force_model.go:180-199 | a choice is read exactly from an unexpired forced row that names model and provider, and an undone one is told from none |
| ForceModel.SetForceModelSessionPin | internal/proxy/force_model.go:133-178 | the handler's effect and error, with any store call failing |
| ForceModel.ClearForceModelSessionPin | internal/proxy/force_model.go:275-295 | likewise |
| ForceModel.OutgoingChoiceBecomesHistory | internal/proxy/force_model.go:133-178 | the model another one takes the place of becomes the new row's last served model, a switch is remembered, any other write keeps the history, and exactly a failed call is reported |
| ForceModel.ClearLegacyForceModelPins | internal/proxy/force_model.go:252-273 | the loop over the four thread roles, stopping at the first failure |
| ForceModel.NoThreadStaysForced | internal/proxy/force_model.go:252-273 | once the clearing reports no error, as it never does while the store answers, no thread row of the session is left user-forced, and no other was touched |
| ForceModel.GrantIsTakenOnce | internal/proxy/command_continuation.go:27-80 | a granted continuation serves its pin's model and provider to the next consume before expiry, and nothing to the one after |
| ForceModel.GrantedExactlyWhen | internal/proxy/command_continuation.go:27-59 | a continuation is granted exactly for an addressable turn whose row serves a routed, unforced model whose last output stayed under 8000 tokens |
| ForceModel.FirstContinuationCopiesThePin | internal/proxy/command_continuation.go:40-59 | a first continuation copies the pin's model, runner-up, reason and group, and none of its history or strikes |
| ForceModel.GrantPostCommandContinuation | internal/proxy/command_continuation.go:27-59 | the handler's effect, for every pin and failure |
| Escalation.HandleLoopEscalation | internal/proxy/loop_detection.go:137-287 | the handler's effect on pins and events, with any store call failing |
| Escalation.HandleStruggleEscalation | internal/proxy/struggle_escalation.go:69-228 | likewise |
| Escalation.LoopPinsBeforeItRecords | internal/proxy/loop_detection.go:231-287 | a turn records at most one event, for its own session and role, and a recorded move's pin is in place |
| Escalation.StrugglePinsBeforeItRecords | internal/proxy/struggle_escalation.go:127-227 | likewise for the struggle move |
| Escalation.FailedRescueIsRetried | internal/proxy/loop_detection.go:231-263 | a rescue whose pin write fails leaves pins and events alone, and the next turn, the store answering, lands it |
| Escalation.RescuedExactlyWhen | internal/proxy/loop_detection.go:137-230 | exactly which loops are rescued when the stores answer |
| Escalation.RescuePinServes | internal/proxy/loop_detection.go:231-263 | a rescue pins the target at its provider for exactly a session TTL and touches no other row |
| Escalation.LoopRecordsWhy | internal/proxy/loop_detection.go:150-287 | the one event names the model found looping and the first reason that held for leaving it, or the rescue |
| Escalation.MovedExactlyWhen | internal/proxy/struggle_escalation.go:69-189 | exactly which struggling sessions are moved when the stores answer |
| Escalation.MovePinServes | internal/proxy/struggle_escalation.go:150-205 | a move pins the roster's arm, at its provider and with its cluster as the group, for exactly a session TTL |
| Escalation.FailedMoveIsRetried | internal/proxy/struggle_escalation.go:183-205 | a move whose pin write fails leaves everything as it was, event included |
| Escalation.StruggleRecordsWhy | internal/proxy/struggle_escalation.go:104-228 | the one event names the model found and the first reason that held for making no move, or the move and its direction |
| Escalation.ArmedOnlyBetweenThePoints | internal/proxy/struggle_escalation.go:104-108 | the struggle move is open only between the early and the late operating point |
| StruggleRoster.EscalationTarget | internal/proxy/struggle_roster.go:54-94 | the target is the first arm that can serve of the first cluster that has one, over the clusters above and then the session's own; none exactly when none can |
| StruggleRoster.TargetIsEligible | internal/proxy/struggle_roster.go:50-94 | a target is a known model other than the session's own, not excluded and allowed, the first such listed for its cluster; without one every arm of every cluster searched is none of that |
| StruggleRoster.SidewaysOnlyWhenNothingAboveServes | internal/proxy/struggle_roster.go:50-70 | the session's own cluster is chosen exactly when no cluster above can serve |
| StruggleRoster.AboveIsTheHigherRungs | internal/proxy/struggle_roster.go:11-20 | what stands above a group is exactly the clusters of the higher rungs, cheapest first, the group not among them; nothing above an unknown group |
| StruggleRoster.ClustersAbove | internal/proxy/struggle_roster.go:22-40 | the two loops compute that list |
| SessionRuns.InvalidateSessionRoutingState | internal/proxy/beta.go:131-163 | the cleanup's loops consume the twelve state rows in order, going on past failures and reporting that there was one |
| SessionRuns.Take | internal/proxy/service.go:3520-3540 | every step of the runs is the handler itself, run on the pin table and the two event tables |
| SessionRuns.ToggleLeavesNoLiveState | internal/proxy/beta.go:131-163 | with the store answering, no live row of the strategy left remains under the session's routing roles, and no other row is touched |
| SessionRuns.LoadYieldsTheStandingChoice | internal/proxy/force_model.go:155-199 | over any run of all the pin table's writers with any call failing, loading the force yields the model of the last successful set not followed by a successful clear |
| SessionRuns.OthersKeepControls | internal/proxy/pin_eviction.go:41-97 | no handler but setting and clearing touches a force control row |
| SessionRuns.StandingForceBlocksEscalation | internal/proxy/loop_detection.go:170-176 | at any point of any run, an escalation turn of a session under a standing force, its control row read, leaves the pin table as it finds it |
| SessionRuns.OneEventEach | internal/proxy/struggle_escalation.go:114-122 | while count reads succeed, each session and role gets at most one loop and one struggle event over any run, whatever writes fail |
| SessionRuns.EveryMoveLanded | internal/proxy/loop_detection.go:231-287 | every recorded move was recorded at a step that left its pin in place |
| SessionRuns.OneTurnPerGrant | internal/proxy/command_continuation.go:24-102 | over any run the turns served from one-shot continuations, and the one pending, never exceed the grants that landed |
| LoopDetectors.DetectCyclicToolCallLoop | internal/proxy/loop_detection.go:97-128 | fires exactly on an edit-free, narrow window of enough calls, and then reports a signature of the highest multiplicity, at least three |
| LoopDetectors.CyclesExactlyWhen | internal/proxy/loop_detection.go:97-133 | the condition it fires on: 24 calls or more, and of the last 30 no edit and fewer than two in five different |
| LoopDetectors.NarrowRepeats | internal/proxy/loop_detection.go:78-85 | the pigeonhole: a window under the distinct ratio holds some signature three times |
| LoopDetectors.KeyTellsApart | internal/proxy/loop_detection.go:115 | the NUL-joined counting key tells signatures apart, whatever the tool names hold |
| LoopDetectors.TrailingPingPongLen | internal/proxy/spiral_detection.go:182-203 | the length of the longest suffix strictly alternating two distinct signatures, or zero when under four |
| LoopDetectors.StepsSinceProgress | internal/proxy/spiral_detection.go:208-223 | the calls after the last edit that did not fail; zero while no edit was attempted |
| LoopDetectors.RepeatedInWindow | internal/proxy/spiral_detection.go:160-174 | the sum over the counts is the number of the last twelve places whose signature stands at another of them too |
| LoopDetectors.NoRepeatsExactlyWhenDistinct | internal/proxy/spiral_detection.go:160-174 | that number is zero exactly when all the calls differ |
| SessionMemory.FingerprintRing.RecordAndDetect | internal/proxy/no_progress.go:97-112 | the ring reports a loop exactly when at least five of the last eight of all recorded entries match within ninety seconds |
| SessionMemory.NoProgressTracker.RecordAndDetect | internal/proxy/no_progress.go:221-238 | likewise per bucket, over what was recorded since the bucket's last eviction |
| SessionMemory.EvictionNeverInventsALoop | internal/proxy/no_progress.go:114-125 | with no eviction the count is that of the full history; with any, never more |
| SessionMemory.CounterIsTheBestObservation | internal/proxy/search_scope.go:34-49 | the one counter equals the maximum, over all past turns that saw a search, of decay minus recency minus age, and zero |
| SessionMemory.SearchUseTracker.Observe | internal/proxy/search_scope.go:34-49 | the requirement is alive exactly when a search happened this turn or, since the session was last evicted, lies fewer than decayTurns turns back; so eviction only ever drops it |

## Left out

- CacheProtocol.RestIsFreshAndIndexed: assumes that waiting Sets keep their index entries; the members of `LostSets` say exactly when one may not.
- PinEviction.EvictedExactlyAtTheSecondStrike: store calls succeed, and the row carries the turns' strategy; `PinEviction.EvictionClearsStrikesExactlyWhen` and the two lemmas after it cover a row that does not.
- UserClusterCache.ClusterRestIsExact: assumes each user keeps one installation, and what `CacheProtocol.RestIsFreshAndIndexed` assumes; `UserClusterCache.ApartClusterRestIsExact` replaces the second by the exact discipline.
- PinEviction.StrikeOutOutlivesThePin: until the hourly sweep, which deletes a row expired for a day.
- Escalation.HandleStruggleEscalation: the roster's answer is a parameter; `StruggleRoster.EscalationTarget` says what it is.
- SessionRuns.OneEventEach: one replica, requests one at a time; the count is best effort across replicas.
- LRU victim choice and entry age: an eviction may strike any key at any time, and is one step with its callback.
- Time limits, goroutines, locks and cancellation other than the policy ladder's: a critical section is one step.
- A response write is delivered whole or not at all; header name canonicalisation and aliasing of header value slices.
- Dispatch without a buffer, and the request build of an attempt.
- The text of errors, logs, metrics and telemetry rows; the SSE and JSON text of rendered errors.
- Cursor text: base64url and RFC 3339 rendering are a lossless codec given as a parameter.
- JSON punctuation and white space between messages and blocks, and a tool result without a content field: a message weighs what its parts weigh. Image pricing beyond the count.
- The quality of summaries, and everything about a summarizer call but its success and its size.
- trainingRouteMessageDelta, result sizes and exit categories of the sidecar messages, and Unicode white space in trimming.
- JSON syntax, NaN and rounding of float overrides, and the order Go visits a map in: an error among several may be any of them.
- The 0.4 ratio of the cycle detector is compared over the reals; for windows of at most thirty calls the double comparison agrees.
- Fingerprint hashing, session-key derivation and the hexadecimal bucket keys; the same-file-edit, error-streak and monologue signals.
- DeterministicHoldout's key bytes: a number stands for the first four.
- Canonicalisation of legacy model names on reading a pin, token counts but the last output's, and last-seen times of pin rows.
- Model name resolution, effort suffixes and provider binding of a forced model: a set is given the resolved model and provider.
- What the turn loop decides to route: its writes to the pin table are arbitrary rows at the roles it uses.
- The scorer, the catalog, prices and the SQL engine.
