# Verification of the rental platform's agent, booking, alert, prompt and analytics cores

A Dafny model of five parts of the backend, with proofs about every run, every interleaving and every input.

- **Agent sessions** (`Session`, `SessionHistory`, `SessionStory`, `SessionCauses`, `Secrecy`, `LiveHistory`,
  `Transcript`, `WireShape`, `RunLifecycle`, with `Tools`, `Sanitizer`, `Privacy`, `Cost`, `Json`). The turn loop with
  its six guardrails, the permission gate, the durable transcript and the in-memory message list. The loop exists
  twice: as the method `AgentSession.Loop` over the objects it updates, and as the function `RunLoop`, which the
  method is proved equal to. Provider, clock, executors and proposal keys are an arbitrary `Oracle`.
- **Proposals** (`Proposals`, `ProposalSafety`, `ProposalOutcomes`, `ProposalCalls`, `ProposalCeilings`,
  `SessionSteps`). Creation, approval, rejection, application and expiry, the consent paths by which the owner of a
  conversation approves and applies a proposal in one transaction, and the autopilot's own proposals, as methods on
  one locked store, beside a history of approvals, consents and executor calls that no rollback undoes. An application
  commits only when its result can be stored and the database takes the writes. Safety is stated over any interleaving
  of these with agent turns and clock ticks, and whole session runs, with everyone else acting between their turns,
  are shown to be such interleavings.
- **Bookings** (`Bookings`, `BookingSafety`, `BookingRoles`, `BookingEffects`). The unlocked pre-check, the locked
  re-check and insert, and the update path as separate steps of any number of clients; the signals as an effect log.
- **Alerts and prompts** (`Alerts`, `AlertHistory`, `PromptTemplate`, `PromptStore`). The streak, deduplication and
  cooldown machine; the versioned prompt registry and its template scanner.
- **Numbers** (`SearchMetrics`, `TrendLine`, `Forecast`, `MarketReport`, `MarketHistory`), over exact reals.

Imperative code is modelled by classes and loops; each method is proved against a specification function, and the
properties below are proved of those functions over whole runs.

## What the proofs found

Each of these is a theorem below; where the code does not do what its text promises, the model follows the code.

- The agent core lets only a strict admin approve a proposal of a high-risk tool. The negotiation agent's consent path
  approves as the conversation's owner, never looks at the ceiling, and covers exactly tools such as
  `negotiation.accept`. So every high-risk call has a strict admin behind it if and only if no owner below that role
  consents to one (`HighRiskNeedsAdminIff`, `OwnerConsentsToHighRisk`). What every call does have behind it is an
  approval that meets the ceiling or the owner's consent to a consentable tool, in time (`ApprovalSafety`).
- The two ceilings are not nested: a superuser without staff rights may approve proposals of high-risk tools but not
  those of other tools (`CeilingsAreNotNestedIff`).
- An application that reached its executor is undone, and the proposal stays approved, when the result holds
  something JSON cannot (a date, say), when the database refuses the writes, or when another exception follows a
  `TypeError` (`CausesOfUndoing`, `DateInResultIsUndone`). So one approval can mean two calls of a tool that changes
  state, and more (`UndoneApplicationRunsAgain`, `CalledAtMostOnceIff`).
- `AgentTool.execute` promises to wrap any exception. After a `TypeError` it calls the executor a second time, and
  another kind of exception then escapes (`ExecuteWrapsUnlessRetryRaises`).
- An exception that escapes the session loop leaves the run's recorded totals at zero although turns were spent. It
  does so on exactly the answers that `RunRaisesIff` names (`TotalsAreRecordedIff`); tool arguments that are a JSON
  list are among them (`ListArgumentsLoseTotals`), and so is a read result with a key that is not a string, on which
  masking raises (`NumberKeyIsUnmaskable`).
- An unknown model response writes a tool message without a frame. The rebuilt history equals the live one, and the
  transcript keeps its shape, exactly until the provider gives one (`RebuiltEqualsLive`, `HeadsShaping`).
- A prompt variable whose definition is not a dict escapes the fallback to inline instructions
  (`BadDefinitionFailsTheRun`).
- The agents' own provider names have no price, so without a reported cost the cost guardrail cannot stop a run
  (`CostGuardIsInert`). An unlisted model whose name starts with `gpt-4` is charged as `gpt-4`, whatever longer
  prefix it also has (`UnlistedGpt4IsChargedAsGpt4`). A zero override means "use the default" for every limit but
  cost (`ZeroCostOverrideStopsAtOnce`).
- A tool re-registered as high-risk between proposal and application runs under the old approval ceiling
  (`RaisedCapabilityEscapesCeiling`); raising is harmless exactly when no open, unexpired proposal under a staff
  ceiling names the tool (`RaisingIsHarmlessIff`).
- The update path writes back a whole row without a lock, so a stale save can bring a cancelled booking back onto
  days taken since (`StaleSaveDoubleBooks`), and corporate bulk creation checks no overlap at all. A run double books
  exactly when one of these steps does (`NeverDoubleBookedIff`, `SaveDoubleBooksIff`, `BulkDoubleBooksIff`). A stale
  save can also approve a cancelled booking again, which counts it twice in the funnel and asks for its schedule
  twice (`ConfirmedOnceIff`, `StaleSaveConfirmsTwice`). Only the room's owner can ask for an approval, but a tenant who
  loads an approved booking to sign it, cancels it elsewhere and then saves makes it approved again
  (`ApprovalIsTheOwnersIff`, `TenantReapprovesBySigning`).
- A separator inside a feature or provider name lets two alert scopes share one dedup key (`DedupKeyIff`,
  `ScopesMayCollide`).
- NDCG can exceed 1 when results repeat: one relevant item returned twice does so under every discount
  (`RepeatedHitExceedsOne`). With hits in front the bound holds for a discount exactly when hits do not outnumber the
  relevant items (`PackedNdcgBoundedIff`); with hits anywhere that is exact over all discounts together, not for the
  code's one (`NdcgBoundedIff`).

## Model

The main results come first, then operations and supporting results by module, and last the facts that follow by unfolding.

| member | source | states |
|---|---|---|
| `LiveHistory.RebuiltEqualsLive` | backend/agents/session.py:245-299 | at every loop head of a run that fits the window, rebuilding from the transcript gives the live list with arguments masked and results capped, if and only if the provider has given no unknown kind |
| `RunLifecycle.AskedRunIsInStep` | backend/agents/session.py:245-299 | any run started by a question has live and rebuilt history in step at every loop head, as long as it fits the window and exactly until the provider gives an unknown kind |
| `ProposalSafety.ApprovalSafety` | backend/agents/services.py:297-458 | over any interleaving of turns, emissions, approvals, owner consents, rejections, applications, sweeps and clock ticks, a tool that changes state is called only for a proposal, with its arguments, before its deadline and before any application of it commits, after an approval by a reviewer meeting its ceiling or a consent by its owner to a consentable tool, in time as well; reviewers approve it at most once and at most one application commits |
| `SessionSteps.RunIsAgentTurns` | backend/agents/session.py:303-516 | a whole run, whatever reviewers, consenting owners, applications, the clock and the sweep do between its turns, is a sequence of agent turns of the proposal world: the proposals created are exactly those it requested, and the executors called during runs are exactly those behind its stored read calls, but for the calls of the one read, if any, whose exception ended it; so the safety claims cover sessions and reviewers together |
| `SessionSteps.HeadsAgree` | backend/agents/session.py:303-516 | at every loop head, and after anything others do there, tool, arguments, ceiling and owner of the proposal rows are those of the rows before the run and its requests, in order, and the executor calls of runs are exactly those behind its stored read calls, in order |
| `ProposalOutcomes.RowsTellOutcomes` | backend/agents/services.py:374-439 | over any run, a proposal is applied, or failed, exactly when its last committed application is recorded as a success, or a failure; it is a success exactly when the last executor call before it returned a dict whose `ok` is absent or truthy; and row and history name the same reviewer and times |
| `ProposalOutcomes.ExceptionsAreNeverApplied` | backend/agents/tools.py:100-121 | an executor whose last call before the committed application ended in an exception leaves its proposal failed, never applied |
| `ProposalCalls.CalledAtMostOnceIff` | backend/agents/tools.py:100-121 | over any interleaving, a proposal's executor is called at most once if and only if the first application that reaches it does not start with a TypeError and, should that application be undone, no later one reaches it |
| `ProposalCeilings.RaisingIsHarmlessIff` | backend/agents/tools.py:129-131 | registering a tool as high-risk is harmless for every later run that changes no capability if and only if no open, unexpired proposal under a staff ceiling names it |
| `ProposalCeilings.HighRiskNeedsAdminIff` | backend/negotiation_agent/services.py:684-741 | while re-registering a tool keeps its capability and the autopilot proposes state-changing tools only, every high-risk call is made under the authority of a strict admin if and only if no owner below that role consents to a proposal of a high-risk tool and gets it called |
| `ProposalSafety.DeadlineIsFinal` | backend/agents/models.py:464-468 | past its deadline a pending proposal can only be rejected or expire and an approved one only expire, whatever happens |
| `ProposalSafety.SweepCloses` | backend/agents/services.py:442-458 | after one sweep past its deadline a proposal is rejected or expired for good |
| `SessionHistory.RunIsBounded` | backend/agents/session.py:314-359 | whatever provider, executors and clock do, a run ends with turns, tool calls and failures within their limits and tokens and cost over by at most one response, and finished unless an exception escaped |
| `SessionHistory.BookkeepingMatchesHistory` | backend/agents/session.py:356-505 | at every loop head failures count the failing turns since the last good read, and tool calls equal the accepted turns, the non-denied entries of the tool sequence and the stored call rows |
| `SessionStory.HeadsTell` | backend/agents/session.py:389-495 | at every loop head the accepted turns are the stored calls, in order: a stored read is executed exactly when its stored result has a truthy `ok` and failed otherwise, its turn counted as a good or failed read accordingly, its error is the result's, cut, and the tool sequence without denials lists the same tools and verdicts |
| `SessionStory.EndingTells` | backend/agents/session.py:303-390 | a run that no exception left ends completed with the model's cleaned text as last message, failed after a provider failure with no message, or terminated under the name of the first limit reached in the order of the checks |
| `Secrecy.RunHides` | backend/agents/session.py:650-737 | two runs whose executors' results differ only in what masking hides, at any depth, are the same: transcript, messages to the model, stored calls, counters and ending |
| `SessionHistory.CostIsOneEstimate` | backend/agents/session.py:564-585 | when no turn reports a cost, the accumulated cost is one estimate on the total tokens |
| `SessionStory.CostIsReportsAndEstimate` | backend/agents/session.py:564-585 | the accumulated cost is the sum of the costs reported and one estimate on the tokens of the answers that reported none |
| `SessionCauses.RunRaisesIff` | backend/agents/session.py:303-516 | an exception escapes a run if and only if it reaches a turn on which the provider raises, arguments are not a dict, a read raises after a TypeError, its result has a key masking cannot read, or its error entry cannot be cut |
| `RunLifecycle.TotalsAreRecordedIff` | backend/agents/session.py:518-534 | a new run's recorded totals are its loop's if and only if it is refused or reaches no turn whose answers let an exception escape; otherwise they stay zero although a turn was taken |
| `SessionCauses.HeadsStoreClean` | backend/agents/session.py:650-710 | at every loop head each stored result is bounded and masked at every level, and all stored arguments, of calls and proposals, are fixed points of masking |
| `WireShape.HeadsShaping` | backend/agents/session.py:681-694 | along a run sequence numbers stay 1..n, and every tool result directly follows its frame if and only if the provider has given no unknown kind |
| `WireShape.TranscriptsAreWellShaped` | backend/agents/session.py:739-757 | any sequence of runs by providers with known kinds, each cut short at any persisted row, leaves a transcript numbered 1..n with every tool result right after its frame |
| `WireShape.WireIsWellFormed` | backend/agents/session.py:245-299 | in the wire rebuilt from such a transcript each tool message follows the frame with its id, except possibly the first when the window splits a pair, and the wire never ends in a frame |
| `RunLifecycle.ChatIsWellShaped` | backend/agents/services.py:132-155 | over any sequence of questions, refused and failing ones included, the conversation's transcript stays well-shaped |
| `Sanitizer.FixedPoints` | backend/agents/session.py:711-737 | the sanitiser leaves a tree alone if and only if it is bounded and masked |
| `Sanitizer.OutcomeIsBoundedAndMasked` | backend/agents/session.py:711-737 | whatever an executor returns, unless sanitising it raises, what is stored has at most 8 levels, 200 children a node and 2000 characters a string, and no field at any level that masking would still change |
| `BookingSafety.NeverDoubleBookedIff` | backend/bookings/serializers.py:101-162 | any number of clients, however stale their pre-checks, never reach two live bookings of one room sharing a day if and only if no bulk creation takes a taken day or adds two bookings on one, and no save brings a closed booking back onto a taken day |
| `BookingRoles.EveryMoveIsAnswerable` | backend/bookings/serializers.py:173-221 | in any run a booking changes status only by a save whose user made a move they were entitled to from the status they saw (the owner, not the tenant, approves or rejects a pending one, the tenant cancels a live one), or who saved a status they did not touch over one that changed since |
| `BookingRoles.ApprovalIsTheOwnersIff` | backend/bookings/serializers.py:173-221 | a save that takes a booking to approved is its room's owner's, who is not its tenant, unless the row was already approved when loaded; then it is either party's and only writes that back |
| `BookingEffects.BookingsAreSafe` | backend/bookings/serializers.py:101-221 | from an empty table, over any guarded run: no double booking, at most one schedule and commission each, none without approval, and one to three notices |
| `BookingEffects.ConfirmedOnceIff` | backend/bookings/signals.py:65-130 | over any interleaving, stale saves included, each booking is confirmed, and its schedule asked for, at most once if and only if no save puts back an approval over a booking that was approved and no longer is |
| `BookingEffects.EffectsFollowStories` | backend/bookings/signals.py:65-158 | in every reachable state each booking's effects are one of the few histories its status allows, whatever the interleaving of guarded steps |
| `BookingEffects.NoticesCountChanges` | backend/bookings/signals.py:65-158 | notices are one plus the number of status changes, over any run |
| `AlertHistory.AlertRateIsBounded` | backend/ai_intelligence/alerts.py:278-319 | any window of length W holds at most floor(W / cooldown) + 1 alerts of one key, for a positive cooldown |
| `AlertHistory.BreachCountIsTheStreak` | backend/ai_intelligence/alerts.py:250-276 | over any run, the stored breach count is the length of the longest suffix of the enabled evaluations that did not raise whose values all lie beyond the threshold, on it counting for the inclusive operators; no data ends a streak |
| `AlertHistory.OutcomeFollowsTheReadings` | backend/ai_intelligence/alerts.py:244-343 | after any run, each of the eight outcomes of the next evaluation is given exactly when the rule, the values measured so far, the open alerts and the ages of alerts call for it, and the table changes by exactly that one alert |
| `AlertHistory.OneOpenAlertPerKey` | backend/ai_intelligence/alerts.py:179-187 | in every reachable state at most one alert per dedup key is triggered or acknowledged |
| `PromptTemplate.ScanIsTheLeftmostSplit` | backend/ai_intelligence/services.py:118 | the scan is the one and only leftmost, non-overlapping split into literals and placeholders, and concatenates back to the template |
| `PromptTemplate.CheckedTemplatesHaveNoBlanks` | backend/ai_intelligence/services.py:432-452 | when the check returns no warning and rendering does not raise, every placeholder gets a context value or a non-empty default |
| `PromptStore.RegistryInvariant` | backend/ai_intelligence/services.py:121-374 | over any sequence of operations versions are 1..n with unchanging content, at most one is active, flag and status agree, and none becomes deprecated |
| `PromptStore.RollbacksInARow` | backend/ai_intelligence/services.py:316-374 | from active version v exactly the first v - 1 rollbacks in a row succeed |
| `PromptStore.RollbackRestoresRows` | backend/ai_intelligence/services.py:222-374 | in any store the operations built, activating v + 1 and rolling back restores the very rows |
| `PromptStore.RollbackRestoresRendering` | backend/ai_intelligence/services.py:377-429 | activating v + 1 and rolling back renders every context as v did |
| `SearchMetrics.NdcgIsNormalised` | backend/ai_intelligence/evaluators.py:118-142 | for any positive, strictly decreasing discount and no more hits than relevant items, NDCG lies in [0, 1] and is 1 if and only if the first min(k, relevant) results exist and are relevant |
| `SearchMetrics.PackedNdcgBoundedIff` | backend/ai_intelligence/evaluators.py:118-142 | for any one discount and results whose hits come first, NDCG is at most 1 if and only if the hits do not outnumber the relevant items |
| `SearchMetrics.ScoreIsOneIff` | backend/ai_intelligence/evaluators.py:163-176 | duplicate-free results have a relevance score of 1 if and only if their first five are the relevant items, all of them and no others |
| `TrendLine.TrendLineIsTheBest` | backend/analytics/forecast.py:74-93 | for two or more weeks a line has least squared error if and only if it is the one with `slope` through the two means |
| `TrendLine.TrendTells` | backend/analytics/forecast.py:74-110 | for two or more weeks, slope, forecast and direction are those of the line of least squared error: rising if and only if it climbs by at least 0.15 a week from the first week to the last, falling if it drops as much, flat otherwise, and the forecast its last level over thirty days, never negative |
| `Forecast.DemandTells` | backend/analytics/forecast.py:113-146 | the demand index is the whole number nearest to the last four weeks' average in percent of the busiest week, the even one of two, and the trend is that of the best line |
| `TrendLine.ReversingNegatesTheSlope` | backend/analytics/forecast.py:85-104 | reading the weeks backwards negates the slope and swaps rising and falling |
| `Forecast.SeriesConservesSignals` | backend/analytics/forecast.py:38-71 | the series sums to the signals of the whole look-back window |
| `Forecast.IndexIsAPercentage` | backend/analytics/forecast.py:132-133 | the index before its cap lies in [0, 100], and is 100 when the last four weeks are all at the peak |
| `MarketReport.MarketReporter.ThreeReports` | backend/analytics/market_report.py:213-221 | with unchanged live data, building, generating and generating again within one week give one report, and the second generation leaves the table as the first did |
| `MarketReport.ReportIgnoresLaterSnapshot` | backend/analytics/market_report.py:121-168 | a snapshot written for a week, from whatever live data, changes no report of that week or an earlier one, baseline flag included |
| `MarketHistory.NextWeekSeesThisWeekIff` | backend/analytics/market_report.py:71-85 | next week's history shows exactly this week's segments if and only if these cover every room type of the last 26 weeks |
| `MarketHistory.NextWeekComparesWithThisWeek` | backend/analytics/market_report.py:71-91 | when they cover them, next week's prior average is this week's weighted average |
| `Session.AgentSession.Loop` | backend/agents/session.py:303-516 | the `while True` over run, message list and tables ends, and leaves exactly the state `RunLoop` describes, including which exits raise |
| `Session.AgentSession.ProviderTurn` | backend/agents/session.py:341-505 | one provider call and its branch change counters, transcript, live list and tables as `Turn` says |
| `Session.AgentSession.HandleToolCall` | backend/agents/session.py:389-495 | the tool branch records the verdict first, then does what the gate decided, in the three ways a call can go |
| `Session.AgentSession.Exchange` | backend/agents/session.py:398-424 | a tool frame and its result reach the transcript and the live list together |
| `Session.AgentSession.RecordReadCall` | backend/agents/session.py:650-679 | a read call is stored with its sanitised result, unless an exception escapes; then nothing is stored |
| `Session.AgentSession.CreateProposal` | backend/agents/session.py:696-707 | a proposal branch writes one audited call and one pending proposal, with the ceiling of the tool's capability |
| `Session.Tables.PersistMessage` | backend/agents/session.py:739-757 | a message is appended with cleaned, capped text and the next sequence number |
| `SessionHistory.HeadsWithinBounds` | backend/agents/session.py:314-339 | at every loop head turns, tool calls and failures are within their limits, and tokens and cost over by at most the response just received |
| `SessionHistory.LastHead` | backend/agents/session.py:303-516 | every run reaches a last loop head and ends there, with max_turns less the turn count as measure |
| `SessionHistory.CostGuardIsInert` | backend/agents/session.py:536-575 | with a shipped provider and no reported cost, no run ends for cost |
| `SessionHistory.ZeroCostOverrideStopsAtOnce` | backend/agents/models.py:175-204 | a zero cost override ends every run before the first provider call, while zero in any other override means the default |
| `SessionHistory.SessionActsWithinPermission` | backend/agents/session.py:612-639 | at every loop head, each stored call names a tool within the agent's permission, runs at once only if read-only, and each high-risk proposal asks for an admin and comes from an admin agent |
| `SessionHistory.UnknownIff` | backend/agents/session.py:497-505 | the history of a run shows an unknown kind if and only if the provider gave a successful answer of one |
| `SessionStory.FailuresHaveACause` | backend/agents/session.py:389-505 | the failure counter is above zero only after a denial, a stored read without a truthy `ok`, or an answer of an unknown kind |
| `SessionStory.ModelIsToldToWait` | backend/agents/session.py:462-485 | after a proposal the model is told its key, the first 400 characters of its summary and that it is pending approval |
| `SessionStory.StopSentenceReads` | backend/agents/session.py:319-339 | the closing sentence of a stopped run is the text of its reason without underscores |
| `SessionStory.CleaningDropsNulAndCr` | backend/agents/session.py:739-757 | cleaning a message drops NUL and CR, keeps every other character in order, and only then cuts |
| `SessionStory.OverridesReplaceTheirs` | backend/agents/models.py:175-204 | each override replaces its own default and nothing else |
| `SessionCauses.TurnRaisesIff` | backend/agents/session.py:341-505 | one turn raises exactly on the answers that `RunRaisesIff` names, whatever the counters and tables hold |
| `SessionCauses.NumberKeyIsUnmaskable` | backend/fraud/services/privacy.py:70-88 | a successful read result with a number as key is such an answer |
| `LiveHistory.HeadsInStep` | backend/agents/session.py:389-505 | the transcript grows by exactly the durable form of what the live list gains, plus one row per unknown response |
| `WireShape.RunKeepsShape` | backend/agents/session.py:303-516 | a whole run by a provider with known kinds leaves a well-shaped transcript well-shaped and only appends to it |
| `RunLifecycle.CreateRun` | backend/agents/services.py:158-200 | a refused question writes nothing; an accepted one appends the user's message and yields a pending run |
| `RunLifecycle.QuestionIsAsked` | backend/agents/services.py:158-200 | a question that is taken becomes the conversation's next message, cleaned, before anything its run writes, and one that is refused changes nothing |
| `RunLifecycle.Execute` | backend/agents/session.py:102-159 | execution never raises and leaves the run row and tables that `Executed` describes, for refusals, loops and escaped exceptions alike |
| `RunLifecycle.Dispatch` | backend/agents/tasks.py:14-33 | a dispatched task executes pending and running runs and leaves finished ones untouched |
| `RunLifecycle.ExecutionFinishes` | backend/agents/session.py:102-159 | every execution ends completed, terminated or failed, within the loop's bounds |
| `RunLifecycle.SecondDispatchIsIdle` | backend/agents/tasks.py:22-24 | dispatching a run again, under any later circumstances, changes neither run nor transcript |
| `RunLifecycle.ListArgumentsLoseTotals` | backend/agents/session.py:389-424 | a run whose model asks, on its first turn, for a tool with a JSON list as arguments: one turn and its tokens spent, totals recorded as zero, reason `internal_error` |
| `RunLifecycle.BadDefinitionFailsTheRun` | backend/agents/session.py:203-229 | once every required variable is provided, a used placeholder whose definition is not a dict fails every otherwise valid run of the agent with `internal_error`, inline instructions or not |
| `Tools.ExecuteWrapsUnlessRetryRaises` | backend/agents/tools.py:100-121 | an execution ends in an `ok` envelope if and only if it is not a TypeError followed by another exception |
| `Tools.AgentToolRegistry.Register` | backend/agents/tools.py:129-131 | registration adds or replaces the tool under its own name and keeps the invariant that a tool found under a name carries it |
| `Tools.AgentToolRegistry.Get` | backend/agents/tools.py:133-135 | lookup answers the registered tool, which carries the name asked for, or nothing |
| `Sanitizer.SanitizedTwice` | backend/agents/session.py:426-437 | the payload shown to the model, sanitised a second time, is the stored result |
| `Sanitizer.SanitizedIsMaskable` | backend/agents/session.py:711-737 | sanitising again raises on nothing it has returned |
| `Sanitizer.NamedIsMaskable` | backend/agents/session.py:711-737 | sanitising raises on no tree whose keys are all strings |
| `Sanitizer.BeyondTheCutIsNotSeen` | backend/agents/session.py:711-737 | whether it raises depends on the first 200 children and the first 8 levels only |
| `Json.FalsyIff` | backend/agents/session.py:389-402 | the values an `ok` or `or` reads as false are None, False, 0 and the empty string, list and dict, and no others |
| `Privacy.SanitizeDictIdempotent` | backend/fraud/services/privacy.py:70-88 | masking a dictionary twice is masking it once, for phone, identity, e-mail and secret fields alike |
| `Privacy.MaskTextSettles` | backend/fraud/services/privacy.py:46-83 | a masked text, even cut to eight or more characters, is a fixed point of its mask |
| `Secrecy.MaskTellsWhatIsShownIff` | backend/fraud/services/privacy.py:46-83 | two texts look the same behind a mask if and only if the same is shown of them: ends of a phone number, end of an identity number, first letter and domain of an address, nothing of a secret |
| `Secrecy.SecretsAreHidden` | backend/fraud/services/privacy.py:15-44 | fields named password, otp, token and the like, however capitalised, show nothing of their value |
| `Secrecy.SanitizedHides` | backend/agents/session.py:711-737 | trees that differ only in what masking hides, at any depth, sanitise to the same tree |
| `Cost.EstimateIsAdditive` | backend/ai_intelligence/services.py:663-711 | estimating response by response and adding up equals one estimate on the token totals |
| `Cost.EstimateIsNonNegative` | backend/ai_intelligence/services.py:663-711 | no model, listed or matched by prefix, ever has a negative estimate |
| `Cost.EstimateIsPerThousand` | backend/ai_intelligence/services.py:663-711 | an estimate is the input price for every thousand tokens in and the output price for every thousand out |
| `Cost.OutputCostsMore` | backend/ai_intelligence/services.py:663-711 | for every priced model tokens out cost more than as many tokens in |
| `Cost.ListedIsChargedItsPrice` | backend/ai_intelligence/services.py:663-711 | a model listed by its full name is charged its own price, whatever shorter names it begins with |
| `Cost.UnlistedGpt4IsChargedAsGpt4` | backend/ai_intelligence/services.py:663-711 | any unlisted name starting with `gpt-4` gets the price of `gpt-4`, not that of its longest prefix |
| `Proposals.ProposalService.CreateProposal` | backend/agents/services.py:218-279 | a proposal starts pending with the ceiling of its tool's capability, masked arguments and the deployment's deadline |
| `Proposals.ProposalService.ApproveProposal` | backend/agents/services.py:313-342 | approval needs a pending, unexpired proposal and a reviewer meeting its ceiling, and is recorded with reviewer and time; a refusal changes nothing |
| `Proposals.ProposalService.RejectProposal` | backend/agents/services.py:345-371 | only a pending proposal can be rejected, by a reviewer meeting its ceiling |
| `Proposals.ProposalService.ApplyProposal` | backend/agents/services.py:374-439 | only an approved, unexpired proposal reaches its executor; every call of it is recorded; the row ends applied or failed by the outcome, or stays as it was when an exception escapes, the result cannot be stored or the database refuses the writes |
| `Proposals.ProposalService.ExpireProposals` | backend/agents/services.py:442-458 | a sweep marks every open proposal past its deadline, counts them, and in a dry run only counts |
| `Proposals.ProposalService.SelfConsent` | backend/negotiation_agent/services.py:684-741 | an owner's consent approves a pending, unexpired proposal of a supported tool and applies it, both or neither; a bookmark consent expires its siblings; the ceiling is never looked at |
| `Proposals.ProposalService.ExpireSiblings` | backend/rental_agent/services.py:176-195 | exactly the owner's other pending bookmark proposals for the same room expire |
| `Proposals.ProposalService.SelfReject` | backend/negotiation_agent/services.py:744-782 | an owner rejects a pending, unexpired proposal of a supported tool; a refusal changes nothing |
| `ProposalOutcomes.EnvelopeTells` | backend/agents/tools.py:100-121 | an envelope reads as a success if and only if the call it stands for, the retry if there is one, returned a dict whose `ok` is absent or truthy |
| `ProposalOutcomes.ReviewIff` | backend/agents/services.py:282-371 | approval succeeds if and only if the proposal is pending and in time and the reviewer is a strict admin for high-risk tools, any authenticated staff member or admin for others; rejection likewise but at any time; and each refusal names its reason |
| `ProposalOutcomes.ReviewChangesOneRow` | backend/agents/services.py:313-371 | a review changes the status, reviewer and time of one row and nothing else |
| `ProposalOutcomes.ApplicationIff` | backend/agents/services.py:374-406 | each refusal of an application names its reason, and an applied proposal is left alone |
| `ProposalOutcomes.OwnerDecidesIff` | backend/negotiation_agent/services.py:684-782 | an owner's consent or rejection is taken if and only if the proposal is theirs, pending, in time and of a supported tool, and the tables behind the kind agree |
| `ProposalOutcomes.OwnerErrors` | backend/negotiation_agent/services.py:684-782 | each refusal of a consent or an owner's rejection names its reason, and an applied proposal is left alone |
| `ProposalOutcomes.ConsentLeavesNoSibling` | backend/rental_agent/services.py:176-246 | after a committed bookmark consent the owner has no other pending bookmark for that room, and only such rows expired |
| `ProposalOutcomes.CeilingsAreNotNestedIff` | backend/agents/services.py:282-310 | who meets the admin ceiling meets the staff ceiling if and only if they are authenticated and staff or admin by role |
| `ProposalSafety.SafeAfterRun` | backend/agents/services.py:218-458 | at every reachable state each proposal's approvals, consents, executor calls and committed applications are what its status says, and only read-only tools were called during runs |
| `ProposalSafety.ClosedProposalsStayClosed` | backend/agents/services.py:313-458 | a rejected, expired, applied or failed proposal never changes again |
| `ProposalSafety.SweepIsExact` | backend/agents/services.py:442-458 | a sweep counts exactly the rows it changes and leaves nothing due |
| `ProposalCalls.StepCalls` | backend/agents/tools.py:104-107 | one application or consent that reaches the executor calls it once, or twice after a TypeError; no other step calls it for a proposal |
| `ProposalCalls.UndoneApplicationRunsAgain` | backend/agents/services.py:374-439 | an application undone for whatever reason leaves the proposal approved, so that it can be applied, and its executor called, again |
| `ProposalCalls.CausesOfUndoing` | backend/agents/services.py:407-439 | an application that reached the executor is undone if and only if another exception follows a TypeError, the database refuses a write, or the result cannot be stored as JSON |
| `ProposalCalls.DateInResultIsUndone` | backend/agents/models.py:449 | a successful result that holds a date undoes the application, with no TypeError at all |
| `ProposalCeilings.ApplyKeepsCeilingIff` | backend/agents/services.py:374-439 | one application keeps high-risk calls under admin ceilings if and only if it does not call a tool now high-risk for a proposal under a staff ceiling |
| `ProposalCeilings.RaisedCapabilityEscapesCeiling` | backend/agents/tools.py:129-131 | a five-step run in which a staff approval executes a tool re-registered as high-risk |
| `ProposalCeilings.OwnerConsentsToHighRisk` | backend/negotiation_agent/services.py:684-741 | a three-step run in which a landlord, no admin, consents to a proposal of the high-risk `negotiation.accept` and gets it called |
| `ProposalCeilings.CoveredAfterRun` | backend/agents/services.py:218-458 | every run that changes no capability, owner consents included, keeps this: no high-risk tool has an open, unexpired proposal under a staff ceiling, and none was called for one |
| `SessionSteps.TurnPerforms` | backend/agents/session.py:389-495 | in any world with the same registry, every turn of the loop, whatever it ends in, is one step of it: the same new proposals, and executor calls of the tool, capability, arguments and outcome that its stored row shows |
| `Bookings.OverlapIsSharedDay` | backend/bookings/serializers.py:118-133 | for well-formed intervals, open-ended ones included, the query finds an overlap if and only if a day is shared |
| `Bookings.BookingService.Create` | backend/bookings/serializers.py:135-162 | the locked re-check refuses an unavailable room or an overlap and otherwise inserts one pending booking with its effects |
| `Bookings.BookingService.Save` | backend/bookings/signals.py:22-34 | a full-row save replaces the row and emits the effects of the change from the stored status |
| `Bookings.BookingService.BulkCreate` | backend/corporate/services.py:73-99 | one pending booking per member, with no overlap check |
| `BookingSafety.NoDoubleBookingEver` | backend/bookings/serializers.py:101-162 | the stronger invariant of the locked check, that the overlap query finds nothing, over runs whose bulk creations do not clash and whose saves overwrite no status changed since it was loaded |
| `BookingSafety.BulkKeepsIff` | backend/corporate/services.py:73-99 | the overlap query still finds nothing after a bulk creation if and only if nothing clashes before it and it adds at most one booking or its own dates do not overlap themselves |
| `BookingSafety.SaveKeepsIff` | backend/bookings/serializers.py:173-221 | the overlap query still finds nothing after a save if and only if it does not bring a closed booking back against one the query finds |
| `BookingSafety.StaleSaveDoubleBooks` | backend/bookings/serializers.py:173-221 | from an empty table, one interleaving of three clients that ends in a double booking through a stale save |
| `BookingSafety.BulkDoubleBooksIff` | backend/corporate/services.py:73-99 | a bulk creation leaves no shared day if and only if it covers no day, adds nothing, or adds one booking on free days |
| `BookingSafety.SaveDoubleBooksIff` | backend/bookings/serializers.py:173-221 | a save leaves no shared day if and only if it does not bring a closed booking back onto a day taken since |
| `BookingRoles.UpdateAcceptedIff` | backend/bookings/serializers.py:173-221 | an update is accepted if and only if it comes from a party, makes a move that party may make with the deposit rule met, and signs only an approved booking; and the accepted row differs in status and signature only |
| `BookingRoles.UpdateErrors` | backend/bookings/serializers.py:173-221 | each refusal of an update names its reason |
| `BookingRoles.RequestAcceptedIff` | backend/bookings/serializers.py:101-162 | a request passes if and only if the room exists, is available, is someone else's and no live booking of it meets the days; the lock re-checks all but the owner |
| `BookingRoles.RequestErrors` | backend/bookings/serializers.py:101-162 | each refusal of a request names its reason, an own room before an unavailable one before taken days |
| `BookingRoles.RequestBecomesBooking` | backend/bookings/serializers.py:135-162 | an accepted request adds one pending, unpaid, unsigned booking of its tenant |
| `BookingRoles.TenantReapprovesBySigning` | backend/bookings/serializers.py:173-221 | from an empty table, a run in which a tenant's save takes a cancelled booking to approved |
| `BookingEffects.ExactlyOnce` | backend/brokers/signals.py:19-42 | each history a status allows has at most one payment schedule and one commission, never without an approval, and at most three notices |
| `BookingEffects.ApprovedAtMostOnce` | backend/bookings/serializers.py:173-221 | a booking enters approved at most once, only from pending, and never leaves rejected or cancelled |
| `BookingEffects.EffectsCountApprovals` | backend/bookings/signals.py:65-130 | over any run, guarded or not, the funnel event and the call for a payment schedule of a booking happen exactly once per save that takes it to approved |
| `BookingEffects.StaleSaveConfirmsTwice` | backend/bookings/serializers.py:173-221 | from an empty table, two tabs approving one booking with a cancellation in between confirm it twice |
| `Alerts.AlertEngine.EvaluateRule` | backend/ai_intelligence/alerts.py:244-343 | one evaluation updates streak and alerts as `Evaluate` says on each of its eight outcomes |
| `Alerts.AlertEngine.EvaluateAllRules` | backend/ai_intelligence/alerts.py:346-358 | the sweep evaluates each enabled rule once, in order, and counts each outcome |
| `Alerts.AlertEngine.AcknowledgeAlert` | backend/ai_intelligence/alerts.py:366-383 | only an open alert can be acknowledged; otherwise nothing changes |
| `Alerts.AlertEngine.ResolveAlert` | backend/ai_intelligence/alerts.py:386-412 | any alert not yet resolved can be resolved |
| `Alerts.AlertEngine.SuppressAlert` | backend/ai_intelligence/alerts.py:415-441 | any alert not resolved can be suppressed |
| `Alerts.OpenAlert` | backend/ai_intelligence/alerts.py:179-187 | answers an open alert under the key if there is one, and nothing only when there is none |
| `AlertHistory.FiredAfterStreak` | backend/ai_intelligence/alerts.py:266-319 | a new alert implies that the last `consecutive_checks` values, and at least one, were measured and each lay beyond its rule's threshold, on it counting for the inclusive operators |
| `AlertHistory.OperatorsOppose` | backend/ai_intelligence/alerts.py:149-159 | opposite operators never agree, inclusive and strict ones differ exactly on the threshold, moving further out never mends a breach, and an unknown operator never breaches |
| `AlertHistory.DedupKeyIff` | backend/ai_intelligence/alerts.py:162-170 | with a digest that keeps texts apart and names without separators, two rules share a dedup key if and only if key, feature, provider and model are the same |
| `AlertHistory.ScopesMayCollide` | backend/ai_intelligence/alerts.py:162-170 | with a separator in a name two different scopes share a key |
| `AlertHistory.ActionsMoveStatuses` | backend/ai_intelligence/alerts.py:366-441 | acknowledging moves only triggered alerts, resolving closes any, suppressing any but a resolved one, and nothing else changes |
| `AlertHistory.SweepCountsTell` | backend/ai_intelligence/alerts.py:346-358 | a sweep's counts of errors, missing data, good and breaching values are those of the metrics |
| `AlertHistory.ClosedStaysClosed` | backend/ai_intelligence/alerts.py:366-441 | a resolved or suppressed alert never opens again, and a resolved one stays resolved |
| `AlertHistory.AlertsAreSpaced` | backend/ai_intelligence/alerts.py:190-193 | any two alerts of one key are strictly more than its cooldown apart, whatever was resolved or suppressed in between |
| `AlertHistory.SweepReportsItsAlerts` | backend/ai_intelligence/alerts.py:346-358 | a sweep reports no rule disabled, and the table grows by exactly the alerts reported triggered |
| `AlertHistory.CountsAddUp` | backend/ai_intelligence/alerts.py:346-358 | the counts per outcome add up to the rules evaluated |
| `PromptTemplate.HoleAtIsTheMatch` | backend/ai_intelligence/services.py:118 | a placeholder is recognised at a position if and only if the text there is two braces, one or more word characters and two braces |
| `PromptTemplate.RenderSucceedsIff` | backend/ai_intelligence/services.py:397-429 | rendering raises nothing if and only if no required variable is missing and no placeholder used has a definition that is not a dict |
| `PromptTemplate.NoWarningsIff` | backend/ai_intelligence/services.py:432-452 | the check returns no warning if and only if the variables declared are exactly those used |
| `PromptTemplate.BlankIffUndeclared` | backend/ai_intelligence/services.py:417-429 | in a rendering a placeholder has neither value nor default if and only if it is undeclared and absent from the context |
| `PromptTemplate.ValuesAreVerbatim` | backend/ai_intelligence/services.py:425-429 | each value stands in the output as it is, braces included, right after the output of what precedes its placeholder |
| `PromptTemplate.RenderedPlaceholdersStay` | backend/ai_intelligence/services.py:425-429 | a template whose values are its own placeholders renders to itself: nothing is expanded twice |
| `PromptStore.PromptRegistry.Create` | backend/ai_intelligence/services.py:121-179 | a new key gets version 1, inactive; an existing key is refused and nothing changes |
| `PromptStore.PromptRegistry.AddVersion` | backend/ai_intelligence/services.py:182-219 | an inactive version one above the highest is appended, or an unknown key refused |
| `PromptStore.PromptRegistry.ActivateNumber` | backend/ai_intelligence/services.py:222-272 | all versions are switched off and the target on, or the store is unchanged |
| `PromptStore.PromptRegistry.DeactivateActive` | backend/ai_intelligence/services.py:275-313 | the active version, if any, is switched off |
| `PromptStore.PromptRegistry.RollbackActive` | backend/ai_intelligence/services.py:316-374 | the version before the active one is activated, or the store is unchanged |
| `PromptStore.DeactivatingTells` | backend/ai_intelligence/services.py:275-313 | deactivation reports whether a version was active and leaves none active under the key, others alone |
| `PromptStore.RendersNothingIff` | backend/ai_intelligence/services.py:377-400 | a key renders nothing if and only if no version of it is active |
| `PromptStore.RollbackStepsDown` | backend/ai_intelligence/services.py:316-374 | a rollback succeeds if and only if a version above the first is active, and moves down by one |
| `PromptStore.RollbackAfterActivate` | backend/ai_intelligence/services.py:222-374 | activating n and rolling back lands on n - 1, whatever was active before |
| `SearchMetrics.NdcgBoundedIff` | backend/ai_intelligence/evaluators.py:118-142 | with hits anywhere, NDCG is at most 1 for all discounts together if and only if the hits do not outnumber the relevant items |
| `SearchMetrics.ListingIsIdeal` | backend/ai_intelligence/evaluators.py:137-138 | in whatever order the relevant set is listed, its gain is the ideal one |
| `SearchMetrics.DcgAtMostIdeal` | backend/ai_intelligence/evaluators.py:131-135 | results are worth at most their hits moved to the front, and that much only when they are there |
| `SearchMetrics.DistinctHits` | backend/ai_intelligence/evaluators.py:82-115 | duplicate-free results hit each relevant item at most once |
| `SearchMetrics.RelevanceScoreIsAFraction` | backend/ai_intelligence/evaluators.py:163-176 | for duplicate-free results the weighted score lies in [0, 1] |
| `SearchMetrics.SharesInCommon` | backend/ai_intelligence/evaluators.py:82-115 | of duplicate-free results, precision and recall are the common items' share of the first k and of the relevant ones |
| `SearchMetrics.NothingExpectedScores` | backend/ai_intelligence/evaluators.py:163-176 | with nothing expected the score is 0.6 whatever was returned |
| `SearchMetrics.LateHitsScore` | backend/ai_intelligence/evaluators.py:163-176 | without a hit among the first five only NDCG over the first ten counts, at 0.3 |
| `SearchMetrics.NoListScoresNothing` | backend/ai_intelligence/evaluators.py:82-176 | an output that is no list scores 0 |
| `SearchMetrics.MeanReciprocalRank` | backend/ai_intelligence/evaluators.py:145-160 | the loop answers 1 over the rank of the first relevant result, and 0 only if there is none |
| `SearchMetrics.RepeatedHitExceedsOne` | backend/ai_intelligence/evaluators.py:118-142 | one relevant item returned twice scores above 1 under every discount, for every k from 2 on |
| `TrendLine.TrendIsBest` | backend/analytics/forecast.py:74-110 | the slope returned belongs to a line that no other line beats |
| `TrendLine.ErrorGap` | backend/analytics/forecast.py:85-93 | any line's squared error is the trend line's plus a penalty for its slope and one for its height |
| `TrendLine.SpreadIsPositive` | backend/analytics/forecast.py:88-93 | the denominator is positive from two weeks on |
| `TrendLine.RaisingKeepsTheSlope` | backend/analytics/forecast.py:85-93 | adding a constant to every week leaves the slope |
| `TrendLine.StraightSeriesIsRecovered` | backend/analytics/forecast.py:85-104 | weeks on a line give that line back, rising from a step of 0.15 on and falling from -0.15 down, and the forecast is the last week's level times 30/7 |
| `Forecast.WeeklySeries` | backend/analytics/forecast.py:38-71 | the loop yields, oldest first, the signals of each week from the three tables |
| `Forecast.SignalsAreTheRows` | backend/analytics/forecast.py:38-71 | the signals between two moments are one for each save and booking of the area and each booking request or room view of the area or naming it |
| `Forecast.EveryMomentHasOneWeek` | backend/analytics/forecast.py:45-47 | a moment lies in at most one week of the series, and in one if and only if it lies in the window |
| `Forecast.AreaDemand` | backend/analytics/forecast.py:113-146 | the total reported is the number of signals in the last twelve weeks; the index is the nearest percentage of the busiest week and the trend that of the line that fits the weeks best |
| `Forecast.DemandNeedsThreeSignals` | backend/analytics/forecast.py:117-130 | demand is estimated if and only if there are three signals; the zero-peak guard and the cap never decide |
| `Forecast.Peak` | backend/analytics/forecast.py:117 | the peak is a value of the series and no week exceeds it |
| `MarketReport.AverageIsBetweenExtremes` | backend/analytics/market_report.py:46-52 | the weighted average lies between the smallest and largest segment that has samples |
| `MarketReport.WeightedAverageIsAverage` | backend/analytics/market_report.py:46-52 | the weighted average depends on the segments, not on the order they are listed in |
| `MarketReport.MarketReporter.PreviousWeekStats` | backend/analytics/market_report.py:71-85 | the `setdefault` loop over rows newest first averages the latest row of each room type of the last 26 weeks |
| `MarketReport.MarketReporter.ComputeReport` | backend/analytics/market_report.py:121-210 | though snapshots are upserted between the rows, each row is computed as if over the table the call found, which is left as it was unless persisting |
| `MarketReport.MarketReporter.BuildReport` | backend/analytics/market_report.py:213-215 | the public read path leaves the table alone |
| `MarketReport.MarketReporter.GenerateReport` | backend/analytics/market_report.py:218-221 | the weekly task reports over the table it found and leaves the week's snapshot in it |
| `MarketReport.PersistTwice` | backend/analytics/market_report.py:147-158 | writing a week's snapshot again changes nothing |
| `MarketReport.LatestCoversHistory` | backend/analytics/market_report.py:71-85 | a room type has a latest stat if and only if it was seen in the last 26 weeks |
| `MarketHistory.LatestIsTheNewest` | backend/analytics/market_report.py:71-85 | a room type's latest stat is that of its newest snapshot within the 182 days before the week, and there is none only when there is no such snapshot |
| `MarketHistory.SamplesAdd` | backend/analytics/market_report.py:160 | the sample size reported is the sum over all segments |
| `MarketHistory.UnchangedPricesDoNotMove` | backend/analytics/market_report.py:88-91 | prices that stay as they are for a week are reported with a change of zero, or none when there is no average or it is zero |
| `MarketHistory.PersistFilesOnMondays` | backend/analytics/market_report.py:33-37 | every snapshot is filed under the Monday of its week |
| `MarketHistory.MovementIsPercent` | backend/analytics/market_report.py:88-91 | a price k thousandths above what it was is reported as k tenths of a percent, negative when it fell |
| `MarketHistory.MovementIff` | backend/analytics/market_report.py:88-91 | there is a movement if and only if both averages exist and the earlier is not zero |
| `MarketHistory.UniformAreaIsReported` | backend/analytics/market_report.py:121-168 | an area whose segments with samples all have the same prices is reported with those prices, the earlier average and the change from it |
| `MarketHistory.SplittingChangesNothing` | backend/analytics/market_report.py:46-52 | only samples weigh: dividing a segment in two changes neither average nor sample count |
| `Tools.PlanIsTheGate` | backend/agents/session.py:612-639 | a call is read or proposed exactly when the tool is registered, within the permission (viewers read, operators also change state, admins everything), on the allowlist unless that is empty, and its arguments validate; only admins reach high-risk tools |
| `Tools.DenialNamesTheCheck` | backend/agents/session.py:612-639 | a denial names the first check that fails: registration, capability, allowlist or arguments |
| `RunLifecycle.ChecksAgree` | backend/agents/session.py:166-182 | for an active conversation execution refuses exactly what creation refuses, for the same reason |
| `RunLifecycle.QuestionTakenIff` | backend/agents/services.py:158-200 | a question is taken if and only if the agent exists, is active, serves the user (staff or admins, anyone signed in, or everyone) and its feature is not switched off; each refusal names its reason |
| `RunLifecycle.RunStartsIff` | backend/agents/session.py:102-134 | a run reaches its loop if and only if the conversation is open, the question would be taken, a live or allowed mock provider exists and there is a prompt |
| `RunLifecycle.PromptIsTemplateThenInstructions` | backend/agents/session.py:203-229 | the system prompt is the rendered template, a blank line and the inline instructions, whichever there are, cleaned and cut to 12000 characters |
| `RunLifecycle.NoPromptBecause` | backend/agents/session.py:203-229 | without a prompt the reason is a definition that is not a dict, a template that cannot be rendered without inline text, or no text at all |
| `RunLifecycle.PromptExistsIff` | backend/agents/session.py:203-229 | a run has a system prompt if and only if there is inline or rendered text and rendering raises nothing but validation errors |
| `RunLifecycle.RefusedRunLeavesNoTrace` | backend/agents/session.py:113-134 | a run refused before its first turn writes no message, calls no tool and proposes nothing |
| `SessionHistory.GuardIsTheLimits` | backend/agents/session.py:536-553 | the guard passes if and only if turns, tool calls, tokens, cost, time and failures are all strictly below their limits |
| `Cost.AgentProvidersAreUnpriced` | backend/ai_intelligence/services.py:663-711 | the providers the agent SDK ships estimate to zero for every model |
| `Bookings.OverlapIsSymmetric` | backend/bookings/serializers.py:118-133 | it does not matter which of two bookings was there first |
| `BookingSafety.ChecksAllowOnlyTurns` | backend/bookings/serializers.py:173-221 | a validated update only moves pending to approved, rejected or cancelled and approved to cancelled |

## Left out

- The ORM, HTTP views, serializer plumbing, Celery, e-mails, push and audit rows. A table is a sequence or map; a locked transaction is one atomic step that commits or changes nothing.
- Races in paths the code leaves unlocked, apart from the booking update, which is modelled in two steps: transcript appends, prompt operations and alert evaluation are atomic steps, with one run at a time per conversation. Clock reads within one step are one instant.
- Provider, executors, clock and proposal keys are arbitrary functions of the turn; JSON-schema validation is a predicate of the tool; `json.dumps`, `str()` of containers, denial sentences, the truncated hash of the dedup key and the word class of the regular expression are parameters.
- `error_message`, timestamps, durations, provider health and execution-log enrichment of a run, and failures of the final `UPDATE` of a run, which the code suppresses.
- Providers outside `BaseProvider`: its `run` turns every exception into a failed result, so that an answer that raises can come only from a provider that does not derive from it.
- SessionCauses.RunRaisesIff: supposes that the database takes every write of a session.
- LiveHistory.RebuiltEqualsLive: takes stored JSON to keep the order of its fields, which PostgreSQL's `jsonb` does not.
- A dictionary key is a string or one that `json.dumps` writes as a string; sets, bytes and dates are opaque values.
- `resolve_provider` itself: which provider a name selects is an input, and an exception from it is not modelled.
- RunLifecycle.SecondDispatchIsIdle: is about dispatches one after another; a run left "running" by a killed worker is executed again, with fresh counters.
- Secrecy.RunHides: compares runs with the same provider answers, as a provider is shown nothing of what differs.
- Owner consent: what decides whether the owner takes part in the negotiation or owns the room is one answer of the tables, a room id that `int()` refuses is not modelled, and notices and notes are left out. The autopilot may emit any proposal here; the checks before an emission, which only make it rarer, are left out.
- ProposalCeilings.HighRiskNeedsAdminIff: that the autopilot's tools are registered as state-changing is a condition on the run (`StableRun`), as are unchanged capabilities; `ApprovalSafety` supposes neither.
- Proposals are not edited through the Django admin or written by seed scripts.
- ProposalSafety.DeadlineIsFinal: an open proposal past its deadline stays open until a sweep, as approval and application refuse it without marking it; SweepCloses covers the sweep.
- ProposalCalls.CalledAtMostOnceIff: a call is an attempt to call the executor; a TypeError raised before its body starts cannot be told from one raised inside, and what a call did outside the database is not part of this model.
- BookingSafety.NoDoubleBookingEver: supposes guarded steps, as the overlap query may also find intervals that cover no day; NeverDoubleBookedIff is the exact statement for shared days.
- BookingEffects.EffectsFollowStories: the payment schedule and the commission are single effects, the calls the signals make; what `generate_payment_schedule`, which leaves a booking that has a schedule alone, and `create_commission`, which is keyed by booking, write is not part of this model.
- Rent, fees, deposit amounts and review code of bookings; broker code lookup is an input.
- Alerts.AlertEngine.EvaluateRule: the metric value is an input; computing it from execution logs, the alert text and admin notification are left out.
- AlertHistory.AlertRateIsBounded: is stated for a scope whose rules keep at least the given positive cooldown; with a cooldown of zero only the deduplication of open alerts remains.
- PromptStore: approval fields, audit rows and metadata of a version.
- SearchMetrics.NdcgBoundedIff: is exact over all discounts, not for `1 / log2(i + 2)` alone, under which late repeats may still score below 1.
- Tools: `AgentToolRegistry.clear` and `verify_arguments`, which only tests call.
- SearchMetrics.NdcgIsNormalised: uses any strictly decreasing positive discount instead of `1 / log2(i + 2)`; float rounding and a negative k are left out.
- SearchMetrics: classification, ranking and text evaluators, which are independent sums.
- TrendLine.TrendIsBest: the two-decimal rounding of the returned slope and forecast is left out; the direction is decided, as in the code, on the unrounded slope.
- Forecast: area names are compared exactly and `icontains` is a parameter; `area_demand_summary` only maps and filters.
- MarketReport: availability and demand are passed through to the row; rounding is exact half-to-even on reals; highlights, rising and falling lists and the Bengali summary are functions of the rows and left out.
- Dashboards, CRUD services, dataset and evaluation bookkeeping, broker screening and review summaries: they would add only easy members.
