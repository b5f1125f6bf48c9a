# Ensemble task actions: a verified model

A Dafny model of the parts of Ensemble that decide how AI providers are run and how their results take effect, with
proofs that hold for every provider and every storage failure, and for every interleaving of the drives, windows and
operations named below. `dafny verify dfyconfig.toml` checks everything.

The provider-attempt loop and what surrounds it:

- `ProviderSelection`: the operation-bound selection session, the registry's ranking, and the ranked selection.
- `TaskOutcome`: outcomes, and the attempt history that travels on them.
- `ChainExhaustion`, `ChainAttribution`: whose attempt is whose when a ranked chain is exhausted.
- `RoundParts`: the pending Chat transaction record, one operation's lease phases, the promotion target, the broker. What
  providers, storage and callers answer is a `Surroundings` value: one arbitrary function for every decision the
  coordinator does not make itself.
- `AttemptLog`: what can be read off a session log: calls, rejection history, the reserved attempts as a ranked walk.
- `AttemptBooks`, `RoundSteps`, `RoundEndings`, `ProviderRow`: `runProviderRow` and `settleEnvelope`. The loop's local
  variables are a `Round`, all of them functions of the log; its objects as values are a `Ledger`. `Finished` is what a
  finished round promises, `RoundResults` what follows from it, and `RoundOutcomes` says the same once more in the
  fields of the row, the replies and the surroundings.
- `Coordinator`: admission, continuation, abort and Resume around the loop; `MalformedRetry`: the outer retry that one
  user press runs; `TaskLease`: the lease store, and the lease phases of any number of operations.

Around it: `ResumeProtocol` (explicit Resume within one editor window, as a step relation over a durable record and an
exclusive claim marker), `ResumeWindows` (the same across windows, where an update of the record can be lost),
`ReviewerTicks` (tick scoping, tick diff, undo), `AutomationSettings` (the all-or-nothing settings write), `Jsonc` (the
one-pass JSONC stripper).

## What is proved of the attempt loop

`ProviderRow.RunProviderRow` ends for every `Surroundings`, and its `RoundOver` says of whatever it returns
(`AttemptBooks.Finished`):

- `SettlesAs`: the outcome, its stamp and its history included, is exactly the one that the log, its last attempt and
  that attempt's reply call for; only a refusing claim gate leaves an attempt without an outcome.
- `LogIsTrue`: every attempt in the log says what really happened to it; no reserved candidate goes unsent without one
  of the four causes, and none is sent past a failed attachment, prompt assembly or hook.
- `CallsMatch`: the provider calls are exactly those of the log's sent attempts, in order.
- `RankedWalk`: the reserved attempts are one group for every supported candidate in ranked order, an original followed
  by at most three repeats.
- `WithinBudget`: at most `max(1, budget - seed)` provider calls, the budget being `max(3, candidateCount)`.
- `CandidateFirst`: an operation that starts a press never ends on the budget or a deadline while a candidate is
  unreserved.
- `PassesOver`: a candidate that the retry rule passes over is never claimed, and before the last attempt no other one
  is left unclaimed.
- `RecordKept`, `Promotes`: the pending record is posted exactly for questions; it is settled exactly after a
  cancellation or a deadline before any response, and never deleted then; the workflow task is changed exactly when the
  round's own attempt completed.

With the session's own contract: no attempt is allocated after a terminal outcome and none is reported twice. The
broker's preconditions add: no attempt is sent twice, never while the operation holds its lease, and only while the
pending record of an operation that keeps one is there.

What the documentation promises of such a round then follows for all of them (`RoundResults`, `ChainAttribution`): no
call is missing from a failed or rejected outcome; a malformed result gives the whole history of the press back; a result
is unstamped exactly for three kinds of replies; an exhausted chain gives each candidate exactly its own attempts.

## Where the code differs from its comments

- The comment in `enrichChainExhaustionWithAttemptOutcomesV1` (src/actions/taskActionCoordinatorV1.ts:1448-1450) lists
  skip-on-retry reservations among the unclaimed attempts. They have a model id, so the cursor walk gives them to their
  candidate. The model follows the code.
- The comment above `allInvokedCandidatesDeferredByQuotaV1` (1474-1477) says only invoked candidates count. A candidate
  whose provider is switched off is not filtered out either. `ChainAttribution.DeferredExactlyWhen` gives the condition:
  none is switched off, and every candidate's last attempt failed on a usage limit.
- The comment above `enrichChainExhaustionWithAttemptOutcomesV1` (1351-1353) allows two ranked candidates to share a
  model id. The registry's ranking never has two (`ProviderSelection.OpenRunnerSelection`), and the attribution is right
  because of that; `ChainExhaustion.SharedModelIsMisattributed` shows what a selection from elsewhere could do.
- The comment above `abortAdmittedAction` (3650-3652) says no attempt was allocated for an admitted ticket. One was, and
  it stays without an outcome.
- The shared budget is promised for a whole press. It holds whenever no operation but the last ends on a reply over the
  size limit, in a foreign spool, or readable but nothing the row asked for (`MalformedRetry.PressKeepsTheSharedBudget`);
  such a reply brings the loop no nearer its end (`ProgressExactlyWhenStampable`), and there are providers for which it
  never ends (`RetryOnMalformed` in `Endless` worlds, which exist by `EndlessWorldsExist`). In every press that never
  ends all last replies are of that kind from some operation on (`EndlessPressIsUnstampable`).
- A settled record is said to be final, since every mutation rejects it
  (src/services/chatInteractionTransactionStoreV1.ts:1097-1100). A replacement that another window began before the
  settlement can still land after it: `ResumeWindows.TwoWindowsTwoResolutions`. What the claim marker is for holds all
  the same.
- Undo promises the plan as it was. `ReviewerTicks.UndoRestoresExactlyWhen` gives the exact condition for the order of
  the lines; the lines themselves are always conserved.

## Model

| member | source | states |
|---|---|---|
| ProviderSelection.Session.AllocateAttempt | src/services/providerSelectionPolicyV1.ts:322-342 | legal only while the session is open and every attempt has its outcome; the identity is new, except that a Resume's first attempt is the recorded one |
| ProviderSelection.Session.Reserve | src/services/providerSelectionPolicyV1.ts:346-376 | one reservation for an attempt, the rest of the log unchanged |
| ProviderSelection.Session.Claim | src/services/providerSelectionPolicyV1.ts:378-421 | a reservation is claimed once, before its attempt settles |
| ProviderSelection.Session.BeginInvocation | src/services/providerSelectionPolicyV1.ts:404-419 | a claimed reservation's single invocation is used up once |
| ProviderSelection.Session.ReportAttemptOutcome | src/services/providerSelectionPolicyV1.ts:423-440 | an attempt settles once; a terminal outcome closes the session for good |
| ProviderSelection.FirstOfEachKeepsEveryModelOnce | src/runners/runnerRegistry.ts:279-288 | the loops with a seen set keep no model twice, none of a form already taken, and lose no model that qualifies |
| ProviderSelection.FirstOfEachInOrder | src/runners/runnerRegistry.ts:279-288 | the loops with a seen set keep exactly the first qualifying id of every form, unless the form is taken, at strictly increasing positions |
| ProviderSelection.OpenRunnerSelection | src/runners/runnerRegistry.ts:2594-2658 | ranked: the operation's model, then, where the stage may switch, the first enabled backup of every other form, in the order and with the spelling of the settings; switched off: of the primary and the backups the first of every form whose provider is disabled and that is not ranked, whether the stage may switch or not |
| ProviderSelection.Selection.ReserveNext | src/runners/runnerRegistry.ts:2664-2731 | walks the ranking one step at a time; an unsupported candidate settles the attempt; nothing remains only with no supported candidate or with the ranking used up |
| TaskOutcome.LatestGivesHistoryBack | src/actions/taskActionCoordinatorV1.ts:1373-1390 | round trip: attaching the history to the outcome that is its latest entry and reading it back gives the same records |
| TaskOutcome.NamelessListsHistory | src/actions/productionTaskActionRuntimeV1.ts:282-301 | an outcome that names no attempt lists the whole history as prior |
| TaskOutcome.AttachLosesNoAttempt | src/actions/taskActionCoordinatorV1.ts:1373-1390 | whatever attempt an outcome reports, every attempt of the history can be read back from it |
| TaskOutcome.SkipOnRetryMeans | src/actions/taskActionCoordinatorV1.ts:2041-2053 | a model is passed over if and only if it has a record, and one that failed before any response or else there are fewer distinct models on record than candidates |
| ChainExhaustion.Enrich | src/actions/taskActionCoordinatorV1.ts:1391-1461 | the cursor loop gives each candidate what the declarative walk gives it, folds its retries in, defers it only for a failure text that says usage limit, and lists the rest as unclaimed |
| ChainExhaustion.AttemptsArePartitioned | src/actions/taskActionCoordinatorV1.ts:1448-1460 | no attempt goes to two candidates or twice to one; claimed and unclaimed attempts together are all of them |
| ChainExhaustion.ClaimsAreAPrefix | src/actions/taskActionCoordinatorV1.ts:1396-1422 | what the candidates consume is a front piece of the reserved attempts, in order |
| ChainExhaustion.OwnAttemptsExactlyWhen | src/actions/taskActionCoordinatorV1.ts:1399-1422 | every candidate gets exactly its own original and retries if and only if no candidate without attempts shares the model id of the next one with attempts |
| ChainExhaustion.DistinctModelsNeverShared | src/runners/runnerRegistry.ts:279-288 | a ranking without duplicates meets that condition |
| ChainExhaustion.SharedModelIsMisattributed | src/actions/taskActionCoordinatorV1.ts:1351-1354 | two candidates under one model id, which only an injected selection can rank: the attempt of the second goes to the first |
| ChainAttribution.ExhaustedChainIsAttributed | src/actions/taskActionCoordinatorV1.ts:2190-2197 | every exhausted chain a round reports gives each ranked candidate exactly the attempts reserved for its model, a switched-off one none, and lists exactly the unreserved attempts besides |
| ChainAttribution.DeferredExactlyWhen | src/actions/taskActionCoordinatorV1.ts:1480-1485 | the chain counts as deferred if and only if no configured candidate is switched off and the last attempt of every supported one is a usage limit |
| ChainAttribution.StatusOfRanked | src/actions/taskActionCoordinatorV1.ts:1391-1447 | in a reported chain a ranked candidate lists exactly the attempts reserved for its model, in order; the last of them gives its reason, and defers it if it was sent and failed on a usage limit; one that cannot serve the mode has none |
| ChainAttribution.StatusOfSwitchedOff | src/runners/runnerRegistry.ts:2611-2658 | a switched-off model is listed behind the ranked ones, as that and with no attempt |
| ChainAttribution.ListedBesides | src/actions/taskActionCoordinatorV1.ts:1448-1460 | the attempts listed besides are exactly those without a reservation, in order |
| ChainAttribution.DeferredMeans | src/actions/taskActionCoordinatorV1.ts:1480-1485 | the same condition in the fields of the log: of every supported candidate the last attempt was sent and is a usage limit, and nothing configured is switched off |
| AttemptLog.WalkTimes | src/actions/taskActionCoordinatorV1.ts:2584-2618 | on a ranked walk over distinct models no model is reserved more often than once and for its repeats, and only supported ones are |
| RoundSteps.ReserveRanked | src/actions/taskActionCoordinatorV1.ts:2225-2235 | reserving the next ranked candidate keeps the loop's books and resets its retries |
| RoundSteps.Settle | src/actions/taskActionCoordinatorV1.ts:2496-2551 | whatever an attempt settles as, the history grows by exactly what its reply leaves there, and the rejected outcome an exhaustion would report follows |
| RoundSteps.Repeat | src/actions/taskActionCoordinatorV1.ts:2619-2642 | a same-candidate retry keeps the loop's books |
| RoundEndings.TakeOff | src/actions/taskActionCoordinatorV1.ts:2396-2433 | one more counted call keeps the operation within its budget and leaves one first attempt for every unreserved candidate |
| RoundEndings.RejectedGrounded | src/actions/taskActionCoordinatorV1.ts:2765-2799 | a rejection with the next candidate to come joins the history and becomes what an exhaustion would report, and the loop's invariant holds again |
| RoundEndings.LastChance | src/actions/taskActionCoordinatorV1.ts:2531-2533 | with the budget spent or nothing untried, every candidate of an unseeded operation has been reserved |
| RoundEndings.EndRejected | src/actions/taskActionCoordinatorV1.ts:2156-2188 | with nothing left, the earlier rejected result, or a malformed one's later failure, is reported with the whole history |
| RoundResults.NoCallIsUnlisted | src/actions/taskActionCoordinatorV1.ts:1360-1390 | every failed or rejected ending lists every provider call of the round and every earlier attempt of the press, except the attempt that the outcome itself reports; a lone failure has no history to list |
| RoundResults.MalformedGivesHistoryBack | src/actions/productionTaskActionRuntimeV1.ts:282-301 | a malformed result that names its attempt gives the whole history back, record for record, all calls in it; one that names none gives nothing |
| RoundResults.UnstampedExactlyWhen | src/actions/taskActionCoordinatorV1.ts:2766-2785 | a retried row's result is malformed without a stamp if and only if the last attempt was sent and its reply is over the size limit, in a foreign spool, or readable but not what the row asked for |
| RoundResults.StampsCountCalls | src/actions/taskActionCoordinatorV1.ts:2766-2785 | a stamp is the press's call count and the budget, and only on rows whose results are retried |
| RoundResults.LastCallDecides | src/actions/taskActionCoordinatorV1.ts:2703-2745 | the reply to a round's last call alone decides whether its result can be stamped |
| RoundResults.FewAttemptsEach | src/actions/taskActionCoordinatorV1.ts:2584-2618 | in a finished round no model was reserved more than 1 + 1 + 2 times, and no unranked or unsupported one at all |
| RoundResults.OneCallEnds | src/actions/taskActionCoordinatorV1.ts:2101-2899 | where nothing but the providers decides and every reply is terminal, a round with a candidate makes exactly one call |
| RoundResults.OpenUnlessSkipped | src/actions/taskActionCoordinatorV1.ts:2041-2056 | as long as no earlier attempt failed before a response, the retry rule leaves some supported candidate |
| RoundResults.TriedAgainOnlyWhen | src/actions/taskActionCoordinatorV1.ts:2041-2053 | for every finished round: while the records name fewer models than there are usable candidates no model on record is claimed or sent again, and afterwards none with a record that failed before any response |
| RoundResults.PassedOverOnlyWhen | src/actions/taskActionCoordinatorV1.ts:2241-2250 | and no candidate is passed over without such a record: a reserved attempt the round went on after unclaimed has one |
| RoundOutcomes.WithoutResult | src/actions/taskActionCoordinatorV1.ts:2443-2494 | what a cancelled call, an oversize result and an unreadable one come back as |
| RoundOutcomes.AfterTransportFailure | src/actions/taskActionCoordinatorV1.ts:2495-2583 | a failed transport that ended the round keeps its fault class, is retryable exactly without a started response, and names its attempt unless a response had started or the time ran out |
| RoundOutcomes.AfterBrokenFrame | src/actions/taskActionCoordinatorV1.ts:2703-2800 | a foreign or broken frame is malformed under its attempt; stamped with the calls of the press and the larger of three and the candidate count exactly on text rows other than edit executions |
| RoundOutcomes.UnstampableReplies | src/actions/taskActionCoordinatorV1.ts:2903-2962 | which replies give a malformed result without a stamp, by kind, type and permitted kinds |
| RoundOutcomes.AfterCompletedContent | src/actions/taskActionCoordinatorV1.ts:2963-2996 | completed content takes effect exactly when its kind is permitted, its type matches and its rule holds; then busy, promoted or not promoted decide |
| RoundOutcomes.AfterOtherResult | src/actions/taskActionCoordinatorV1.ts:2997-3087 | questions, a cancellation and a declared failure where the row permits them; questions only once recorded and never in a resumed run |
| RoundOutcomes.WithoutCall | src/actions/taskActionCoordinatorV1.ts:2101-2319 | what the round reports when the last attempt was never sent, by what kept it from being sent |
| RoundOutcomes.AfterRejections | src/actions/taskActionCoordinatorV1.ts:2156-2188 | with nothing left after a rejected result: that result, or the failure before any response that came after a malformed one |
| RoundOutcomes.ExhaustedFor | src/runners/runnerRegistry.ts:2664-2690 | the mode is unavailable if and only if no ranked candidate can serve it |
| RoundOutcomes.CallsWithinBudget | src/actions/taskActionCoordinatorV1.ts:2396-2433 | after its first call an operation keeps the press within the larger of three and the number of usable models |
| RoundOutcomes.EveryCandidateFirst | src/actions/taskActionCoordinatorV1.ts:2531-2618 | an operation that starts a press ends on such a failure only when every usable candidate was reserved |
| RoundOutcomes.HistoryHolds | src/actions/taskActionCoordinatorV1.ts:2360-2395 | exactly which attempts are in the rejection history, each under its own code, and which of them count as failed before any response |
| RoundParts.InvocationRecord.Admit | src/actions/taskActionCoordinatorV1.ts:2293-2319 | exclusive create: refused while an earlier record is there |
| RoundParts.Broker.Invoke | src/actions/taskActionCoordinatorV1.ts:2435-2442 | reaches the provider at most once per attempt, without the lease, with the pending record in place |
| ProviderRow.ReserveFresh | src/actions/taskActionCoordinatorV1.ts:2123-2235 | an attempt in hand for the next ranked candidate, an audited skip, or the end with a reported reason |
| ProviderRow.ExhaustedOutcome | src/actions/taskActionCoordinatorV1.ts:2133-2213 | with nothing left: the exhausted chain, or the rejected result with its history, or a malformed one's later failure under that failure's own attempt and code; it keeps every promise of a finished round |
| ProviderRow.OpenRecord | src/actions/taskActionCoordinatorV1.ts:2287-2319 | the pending record is there afterwards exactly when the admission lands and there was none or a discardable one; a size-driven refusal is not retryable |
| ProviderRow.PrepareAttempt | src/actions/taskActionCoordinatorV1.ts:2238-2394 | ready to send past the claim gate, passed over for a cause, or the end; a reservation carried in from admission or a repeat is not refused again for its record |
| ProviderRow.HandleTransport | src/actions/taskActionCoordinatorV1.ts:2496-2670 | a failed transport ends the round exactly for a started response or with time or budget spent and nothing untried, and then with exactly this failure and its history; the same candidate is repeated exactly when that is earned, and counts as a repeat for lack of capacity while there are fewer than two, else as one for a dropped connection |
| ProviderRow.TransportRule | src/actions/taskActionCoordinatorV1.ts:2531-2642 | when a failed transport is repeated and when it ends the round, in the fields: once for a dropped connection, twice for lack of capacity, within the larger of three and the candidate count and a first attempt for each one not reserved |
| ProviderRow.HandleMisframed | src/actions/taskActionCoordinatorV1.ts:2691-2800 | the next candidate exactly for an eligible row within the budget and a result that is neither foreign nor usable as plain text |
| ProviderRow.HandleFramed | src/actions/taskActionCoordinatorV1.ts:2802-2899 | the next candidate exactly for a broken content rule on an eligible row within the budget |
| ProviderRow.SettleEnvelope | src/actions/taskActionCoordinatorV1.ts:2903-3087 | a permitted result of the right type takes effect once, any other is malformed without a stamp |
| ProviderRow.PromoteCompleted | src/actions/taskActionCoordinatorV1.ts:2963-2996 | promotion happens under the settlement lease, at most once, and the lease is released on every way out |
| ProviderRow.TakeTurn | src/actions/taskActionCoordinatorV1.ts:2101-2899 | a turn that does not end the round uses up a candidate, a repeat or the carried reservation |
| ProviderRow.RunProviderRow | src/actions/taskActionCoordinatorV1.ts:1767-2901 | ends for every provider behaviour, with all promises of a finished round: the exact outcome, stamp and history, and a true log |
| Coordinator.TaskActions.FinalizeOutcome | src/actions/taskActionCoordinatorV1.ts:3126-3152 | one audit record; one follow-up exactly for a completed outcome of a row that declares one |
| Coordinator.TaskActions.AdmitAction | src/actions/taskActionCoordinatorV1.ts:3164-3566 | settled at once, audited, for exactly the first reason that applies, with progress and lease exactly for a request whose checks hold; or admitted at the head of the attempt loop with the lease released, a candidate not passed over in hand and the record pending |
| Coordinator.TaskActions.ContinueAdmittedAction | src/actions/taskActionCoordinatorV1.ts:3568-3630 | the first retirement runs the round, cleans up its record and audits once; a second one changes nothing |
| Coordinator.TaskActions.AbortAdmittedAction | src/actions/taskActionCoordinatorV1.ts:3656-3688 | audits once, discards the record, reaches no provider; a second retirement changes nothing |
| Coordinator.TaskActions.ExecuteAction | src/actions/taskActionCoordinatorV1.ts:3632-3638 | one audit record, at most one follow-up, progress ended as often as begun, the workflow task changed only by a completed outcome; settled in admission for its exact reason, or by a finished round |
| Coordinator.TaskActions.ResumeAction | src/actions/taskActionCoordinatorV1.ts:3690-4024 | audited once however it ends; the first check that fails decides and takes nothing; a taken lease rejects; an unsettled record is retryable; with every check passed, the task free and the interaction settled there is a round, and without them no call, lease or change; a refusing gate means no call; a drive that resumes the same operation starts under exactly the recorded attempt; the workflow task changes exactly when its own attempt completed |
| Coordinator.FirstFailedCheckRefuses | src/actions/taskActionCoordinatorV1.ts:3694-3790 | the code that each failing check gives when all before it hold, and that nothing is refused exactly when all of them hold |
| Coordinator.FollowUpsFit | src/actions/taskActionCoordinatorV1.ts:3143-3150 | there are never more follow-ups than completed executions |
| Coordinator.BooksBalance | src/actions/taskActionCoordinatorV1.ts:1625-1639 | when nothing is under way, every execution ever started was audited exactly once and progress is closed |
| Coordinator.RecordMeans | src/actions/taskActionCoordinatorV1.ts:1889-1912 | the pending record after an execution: a posted interaction exactly for questions, a settled one or one that could not be settled exactly after a cancellation or a deadline before any response, else none or one that could not be discarded; a throwing hook is a retryable failure |
| Coordinator.AdmitOperation | src/actions/taskActionCoordinatorV1.ts:3303-3549 | the admission loop ends, and refuses exactly when no candidate can be reserved, the prompt cannot be assembled, the message was sent before, or the record cannot be admitted; else it establishes what the attempt loop starts from |
| Coordinator.AdmittedIsFirst | src/actions/taskActionCoordinatorV1.ts:3289-3300 | the candidate an operation starts with is the first usable one of the ranking that is not passed over, by the records alone: it has none that excludes it, and each usable one before it has one |
| MalformedRetry.RoundKeeps | src/actions/taskActionCoordinatorV1.ts:2765-2785 | a finished round keeps what the outer loop relies on: its budget, its stamp by its last reply, its history |
| MalformedRetry.LoneCallOf | src/actions/taskActionCoordinatorV1.ts:2703-2799 | in a round where nothing but the providers decides, a foreign frame gives one call and a stamp one higher, a reply that cannot be stamped one call and no history |
| MalformedRetry.RetryOnMalformed | src/actions/productionTaskActionRuntimeV1.ts:303-352 | the loop runs exactly the operations of a press, each seeded with the calls spent and the attempts made; an edit execution is never run again; anything else is exactly after a malformed result, below `maxAttempts` operations while the first result has no stamp, else while the last stamp is below the larger of three and the last budget; it never stops in endless worlds; the workflow task changes at most once |
| MalformedRetry.WantsRetryMeans | src/actions/productionTaskActionRuntimeV1.ts:332-346 | when the loop asks for another operation, in the fields of the results: the running count is the last stamp |
| MalformedRetry.EndlessWorldsExist | src/actions/taskActionCoordinatorV1.ts:2488-2495 | for every retried row there are such worlds: one foreign frame, and results over the size limit ever after |
| MalformedRetry.SharedCountsStampedCalls | src/actions/productionTaskActionRuntimeV1.ts:332-349 | the running count misses exactly the calls of unstamped results |
| MalformedRetry.PressWithinBudget | src/actions/productionTaskActionRuntimeV1.ts:334-346 | a press makes at most `max(3, candidateCount)` calls besides those of unstamped results |
| MalformedRetry.StampedPressWithinBudget | src/actions/productionTaskActionRuntimeV1.ts:334-346 | with all retried results stamped the shared bound holds as promised |
| MalformedRetry.PressKeepsTheSharedBudget | src/actions/productionTaskActionRuntimeV1.ts:303-352 | every press the loop runs through the coordinator keeps the bound, as long as no operation but the last ended on a reply that nobody stamps; after a first result that was stamped it is exceeded by at most the calls of those that were not |
| MalformedRetry.StampedPressEnds | src/actions/productionTaskActionRuntimeV1.ts:334-351 | a press of stamped results asks for no operation beyond `max(3, candidateCount)` |
| MalformedRetry.ProgressExactlyWhenStampable | src/actions/productionTaskActionRuntimeV1.ts:347-349 | another malformed result raises the running count if and only if its operation's last reply is none of those that nobody stamps |
| MalformedRetry.UnstampedPressIsBounded | src/actions/productionTaskActionRuntimeV1.ts:334-342 | a press whose first result is unstamped runs at most `maxAttempts` operations, none seeded |
| MalformedRetry.UnstampedPressCalls | src/actions/productionTaskActionRuntimeV1.ts:334-342 | and makes at most `maxAttempts` times `max(3, candidateCount)` provider calls, since no operation counts the others' |
| MalformedRetry.EndlessPressIsUnstampable | src/actions/productionTaskActionRuntimeV1.ts:320-346 | in every press that never ends the first result is stamped, and from some operation on every last reply is one that nobody stamps |
| MalformedRetry.NoCallIsLost | src/actions/productionTaskActionRuntimeV1.ts:282-301 | each operation's history strictly extends the last one's, and the last contains every provider call of the press |
| TaskLease.LeaseStore.Acquire | src/services/workflowLeaseStoreV1.ts:79-101 | one lease per binding, a duplicate is rejected |
| TaskLease.LeaseStore.AcquireChild | src/services/workflowLeaseStoreV1.ts:103-133 | a nested lease exactly inside the named parent's current hold |
| TaskLease.LeaseStore.Release | src/services/workflowLeaseStoreV1.ts:135-152 | a parent's children go with it, a nested lease goes alone; a late release frees nothing newer |
| TaskLease.RunKeepsInv | src/actions/taskActionCoordinatorV1.ts:3198-3219 | store and operations agree in every reachable state of any number of operations |
| TaskLease.HowAPhaseBegins | src/actions/taskActionCoordinatorV1.ts:3198-3219 | a phase that needs the lease begins exactly when the task is free, or for a nested operation exactly when its parent holds it; otherwise the operation is over and the store unchanged |
| TaskLease.HowAPhaseEnds | src/actions/taskActionCoordinatorV1.ts:3212-3218 | in every reachable state a phase that ends gives up exactly its own lease, with what is nested in it; a provider row then waits, any other operation is over |
| TaskLease.NoLeaseDuringTheCall | src/actions/taskActionCoordinatorV1.ts:3263-3287 | no lease in the store belongs to an operation whose provider is at work |
| TaskLease.PromotionIsGuardedExactlyWhen | src/actions/taskActionCoordinatorV1.ts:2971-2996 | a promotion holds the lease, a nested one exactly while its parent has not released |
| TaskLease.RunStaysNested | src/actions/taskActionCoordinatorV1.ts:3238-3260 | while callers await their nested operations, every nested lease lies inside the hold it was granted in |
| TaskLease.OneUnrelatedPromotion | src/actions/taskActionCoordinatorV1.ts:2971-2996 | then two operations inside a lease phase on one task at once are always parent and nested, or nested in the same one; in particular no two unrelated ones promote at once |
| TaskLease.EveryAcquireIsReleasedOnce | src/actions/taskActionCoordinatorV1.ts:3212-3218 | every acquire is matched by one release |
| TaskLease.AnImpatientParentBreaksExclusion | src/services/workflowLeaseStoreV1.ts:139-150 | the waiting is needed in every reachable state: once a parent leaves while a nested operation is inside a phase, any unrelated one on the task that has not begun can promote beside it |
| ResumeProtocol.RunKeepsInv | src/actions/actionConversationOrchestratorV1.ts:608-723 | within one window: record, claim marker and every drive agree in every reachable world |
| ResumeProtocol.HowADriveMoves | src/actions/actionConversationOrchestratorV1.ts:608-723 | every working step of a drive in every reachable world, in the fields of the record it finds |
| ResumeProtocol.HowAStepFails | src/actions/actionConversationOrchestratorV1.ts:679-723 | a failing step writes what the working one would have, or nothing; it refuses the drive, except that a lost mirror does not keep it from invoking nor a lost outcome record from returning |
| ResumeProtocol.WhatTheStoreAccepts | src/services/chatInteractionTransactionStoreV1.ts:958-1160 | exactly when a Resume can be scheduled, settled, and its outcome recorded |
| ResumeProtocol.ResolutionIsAsDeclared | src/services/chatInteractionTransactionStoreV1.ts:995-1046 | in every reachable world the recorded resolution is of the kind the interaction declared |
| ResumeProtocol.InvokedAtMostOnce | src/actions/taskActionCoordinatorV1.ts:3903-3935 | at most one drive passes the claim gate, and only in a settled interaction |
| ResumeProtocol.NeverInvokedBeforeSettled | src/actions/actionConversationOrchestratorV1.ts:679-702 | whoever passes the gate does so once the resolution is recorded |
| ResumeProtocol.ClaimShutsOutAllOthers | src/services/chatInteractionTransactionStoreV1.ts:1047-1121 | once the marker is taken, no other drive ever invokes, whatever follows |
| ResumeProtocol.HowADriveEnds | src/actions/taskActionCoordinatorV1.ts:3915-3934 | the invoking drive returns its own outcome, another one the recorded outcome or a refusal |
| ResumeProtocol.GateAfterClaim | src/actions/actionConversationOrchestratorV1.ts:679-702 | after the claim the gate gives the recorded outcome if there is one, else the fixed refusal |
| ResumeProtocol.OneResolution | src/actions/actionConversationOrchestratorV1.ts:608-677 | within one window all successful resolutions over a whole history are the same, and drives of the same operation start under the same attempt |
| ResumeProtocol.NothingStrandsBeforeTheClaim | src/actions/taskActionCoordinatorV1.ts:3742-3760 | from every reachable unclaimed world a fault-free drive reaches the invocation boundary |
| ResumeProtocol.OnlyTheRecordedIdReplays | src/actions/taskActionCoordinatorV1.ts:3749-3756 | a settled interaction replays exactly under the recorded id |
| ResumeProtocol.AdoptingDriveCannotReplayItself | src/actions/actionConversationOrchestratorV1.ts:639-647 | a drive that adopts a scheduled id can itself never replay |
| ResumeProtocol.ADeathRightAfterTheClaimIsFinal | src/actions/taskActionCoordinatorV1.ts:3923-3931 | a drive that dies between claim and invocation leaves the interaction uninvoked for good |
| ResumeWindows.RunSafe | src/services/chatInteractionTransactionStoreV1.ts:44-53 | whatever updates are lost between windows, marker, call log, every stored or pending record and every drive stay consistent |
| ResumeWindows.InvokedAtMostOnce | src/services/chatInteractionTransactionStoreV1.ts:1071-1107 | across windows at most one drive passes the claim gate, and only one whose claim found the record settled |
| ResumeWindows.HowADriveEnds | src/actions/taskActionCoordinatorV1.ts:3915-3934 | across windows the invoking drive returns its own outcome, any other one what the provider produced or a refusal |
| ResumeWindows.ClaimShutsOutAllOthers | src/services/chatInteractionTransactionStoreV1.ts:1080-1105 | once a drive of any window has the marker, no other drive ever invokes |
| ResumeWindows.NothingStrandsBeforeTheClaim | src/actions/taskActionCoordinatorV1.ts:3742-3760 | whatever updates were lost, from every reachable store without a marker a fault-free drive of any window reaches the invocation boundary |
| ResumeWindows.TwoWindowsTwoResolutions | src/services/chatInteractionTransactionStoreV1.ts:48-53 | wherever drives of two windows schedule one answered interaction, both can settle, with two resolutions |
| ResumeWindows.OneWindowRefines | src/services/chatInteractionTransactionStoreV1.ts:81-88 | every run of one window, its read and replace steps split, is a run of the atomic protocol |
| ResumeWindows.OneWindowOneResolution | src/services/chatInteractionTransactionStoreV1.ts:81-88 | so the drives of one window agree on one resolution over a whole history |
| ReviewerTicks.ScopeTargets | src/commands/applyReviewerVerifiedTicks.ts:755-776 | the targets at strictly increasing positions: unless every item has its id, of each wording the earliest as many as offered, whatever ids the targets have; else an issued target exactly when its id was offered, and of the others the earliest of each wording as many as offered without an id |
| ReviewerTicks.EarliestOfEachWordingPass | src/commands/applyReviewerVerifiedTicks.ts:770-774 | of each wording exactly the earliest `min(offered, present)` targets pass |
| ReviewerTicks.IssuedItemsPassById | src/commands/applyReviewerVerifiedTicks.ts:769-769 | with aligned ids an issued item passes exactly when its own id was offered |
| ReviewerTicks.DiffTickedLines | src/commands/applyReviewerVerifiedTicks.ts:1497-1510 | exactly the changed lines, old and new, at strictly increasing positions; nothing when the line counts differ |
| ReviewerTicks.UndoInPlace | src/commands/applyReviewerVerifiedTicks.ts:1584-1594 | overwriting the line array equals the declarative undo, with its count |
| ReviewerTicks.UndoneByRecord | src/commands/applyReviewerVerifiedTicks.ts:1586-1593 | each record in turn puts the old line back where the ticked one stands first, and counts; one whose line is gone does neither |
| ReviewerTicks.UndoReviewerVerifiedTicks | src/commands/applyReviewerVerifiedTicks.ts:1568-1609 | restored and skipped add up; a missing or empty plan, or a refused write, changes nothing |
| ReviewerTicks.UndoTouchesOnlyTickedLines | src/commands/applyReviewerVerifiedTicks.ts:1586-1593 | on any later text only lines equal to a recorded ticked line are replaced |
| ReviewerTicks.UndoConservesLines | src/commands/applyReviewerVerifiedTicks.ts:1584-1594 | undo right after the tick gives back exactly the original lines, skipping none |
| ReviewerTicks.UndoRestoresExactlyWhen | src/commands/applyReviewerVerifiedTicks.ts:1584-1594 | and in their order if and only if no original line above a changed one reads like the tick |
| ReviewerTicks.UniqueTicksUndoInPlace | src/commands/applyReviewerVerifiedTicks.ts:1584-1594 | so it does when the changed lines are unique and are no other's old line |
| ReviewerTicks.UndoRestoresTextExactlyWhen | src/commands/applyReviewerVerifiedTicks.ts:1497-1510 | the same condition for the plan's text, through split and join |
| ReviewerTicks.LookalikeIsUntickedInstead | src/commands/applyReviewerVerifiedTicks.ts:1587-1591 | the input that shows the condition is needed |
| AutomationSettings.Configuration.Update | src/commands/chooseAutomationLevelV1.ts:86-97 | a write lands, or throws with or without having been stored; other entries stay |
| AutomationSettings.Snapshot | src/commands/chooseAutomationLevelV1.ts:69-79 | every touched entry is recorded with its prior value, in the order of the restore, and nothing else |
| AutomationSettings.ScopesInOrder | src/commands/chooseAutomationLevelV1.ts:69-79 | the order of the snapshot: for each key, as listed, user, workspace, and the open folders in their order |
| AutomationSettings.WriteForward | src/commands/chooseAutomationLevelV1.ts:81-98 | fails exactly when a write threw; otherwise every override is gone and counted, and the values written; a failed pass made exactly the writes up to the first that threw |
| AutomationSettings.PassInOrder | src/commands/chooseAutomationLevelV1.ts:83-97 | the order of the writes: for each key, as listed, the workspace override, those of the open folders, each once, and then the value |
| AutomationSettings.Rollback | src/commands/chooseAutomationLevelV1.ts:98-105 | every snapshot entry is written back in order, going on after a write that throws |
| AutomationSettings.RolledBackMeans | src/commands/chooseAutomationLevelV1.ts:98-105 | an entry is then as it was exactly where one of its writes was stored |
| AutomationSettings.ReadBack | src/commands/chooseAutomationLevelV1.ts:106-127 | lists exactly the scopes whose value differs, with both values |
| AutomationSettings.NotApplied | src/commands/chooseAutomationLevelV1.ts:134-142 | lists exactly the keys whose effective value is not the wanted one, and where |
| AutomationSettings.NarrowestScopeIsRead | src/commands/chooseAutomationLevelV1.ts:134-142 | a reader sees the value of the narrowest scope that has one, else the shipped default |
| AutomationSettings.ApplyAutomationSettings | src/commands/chooseAutomationLevelV1.ts:66-144 | all or nothing under every pattern of write failures; other keys never change; after success every listed key has the value listed last and no override left, overrides are counted, and exactly the keys listed with another value before are named; after a failure exactly the differing scopes are named, and there are none exactly when each scope that the interrupted pass changed is stored again |
| AutomationSettings.AfterKeysMeans | src/commands/chooseAutomationLevelV1.ts:83-97 | what every scope holds after a write without failure |
| AutomationSettings.EffectiveAfter | src/commands/chooseAutomationLevelV1.ts:134-142 | every reader then sees the value listed last |
| AutomationSettings.NothingLeftExactlyWhen | src/commands/chooseAutomationLevelV1.ts:134-142 | nothing is reported as not applied if and only if no key is listed with two values |
| AutomationSettings.DriftsAreExact | src/commands/chooseAutomationLevelV1.ts:106-133 | no drift is reported exactly when every setting is as it was |
| AutomationSettings.ShippedLevelsReplaceEachOther | src/commands/chooseAutomationLevelV1.ts:27-42 | both shipped levels are consistent, and the one chosen last is all that is left |
| AutomationSettings.ShippedLevelsAreSeen | src/commands/chooseAutomationLevelV1.ts:27-42 | the value every reader sees of each key once a shipped level is written |
| Jsonc.StripJsonc | deploy/devbox/box-models.py:54-104 | one pass equals the two-pass reference on every text |
| Jsonc.StripsByFirstCharacter | deploy/devbox/box-models.py:59-103 | what happens to the first character of any text: a literal is kept, a comment goes, a comma goes when the next character that counts closes, anything else is kept |
| Jsonc.ClosesByFirstCharacter | deploy/devbox/box-models.py:81-97 | what the lookahead passes over and what it finds, character by character |
| Jsonc.CommentEndsAt | deploy/devbox/box-models.py:75-80 | a line comment ends before the first newline and a block comment past the first closing mark, or with the text |
| Jsonc.LiteralGoesOn | deploy/devbox/box-models.py:61-74 | a backslash takes the next character along, and the first quote not taken along ends the literal |
| Jsonc.IsTrailingComma | deploy/devbox/box-models.py:81-97 | the lookahead over blanks and comments sees what follows in the comment-free text |
| Jsonc.StringsAreKept | deploy/devbox/box-models.py:61-74 | every string literal outside comments survives unchanged and in order, and none appears |
| Jsonc.UnchangedExactlyWhenPlain | deploy/devbox/box-models.py:54-104 | a text passes through unchanged if and only if it has no comment and no trailing comma outside strings |
| Jsonc.StrippingTwiceExactlyWhen | deploy/devbox/box-models.py:81-100 | a second pass changes nothing if and only if, comments aside, no comma has only blanks between it and a trailing one |

## Left out

- MalformedRetry.RetryOnMalformed: the source has no bound on its operations; `rounds` says how many are looked at, and `done` whether the loop ended, because without stamps it need not.
- RoundParts.Broker.Invoke: prompts, digests, spool bytes and provider processes are opaque; a reply is a value of an arbitrary function of the attempt.
- ProviderRow.RunProviderRow: texts for people (`detail`, the first fallback reason, notifications), metrics, waits, and observers that cannot affect a round (`onPromptAssembled`, `onCandidateInvokedV1`) are not modelled.
- ProviderRow.RunProviderRow: of the exceptions that can escape the loop only the caller's pre-invocation hook is modelled.
- ProviderRow.RunProviderRow: whether a failure text means a usage limit is an arbitrary function of the attempt.
- Coordinator.TaskActions.AdmitAction: what the checks, the earlier send of the same message and a lifecycle row's transition find are parts of the request.
- Coordinator.TaskActions.ResumeAction: what its checks find, and the settled resolution, are parts of the request; how a record gets settled is `ResumeProtocol`.
- ResumeProtocol.RunKeepsInv: one interaction; the store's read and replace of its record is one step, which is right within one window (`ResumeWindows` splits it); sweeps, retention, drafts of answers and recovery of corrupt records are left out.
- TaskLease.RunKeepsInv: an operation's nested operations are named in advance, and its phases are steps of the whole system; `RoundParts.LeasePhases` is the same lease as one operation's round sees it.
- ProviderSelection.OpenRunnerSelection: a disabled primary, which the registry refuses with an exception, and how settings resolve to a stage's chain. A selection restricted to its primary model is one whose stage may not switch.
- ReviewerTicks.ScopeTargets: finding and wording of checklist items are given; text normalisation is an arbitrary function.
- AutomationSettings.ApplyAutomationSettings: legacy setting names and language-specific values, which the settings API also resolves.
- Decision cards, the automatic-dispatch gate, the auto-continue sweep, chat send state, views and notifications: the deciding rules are elsewhere.
