# GenieHive control plane: a verified model

GenieHive routes OpenAI-style requests to model servers.  Nodes report their hosts and
services to a control plane; the control plane keeps roles, budgets, an audit log and
benchmark samples, and for every request decides which service answers it and what exactly
is sent there.  This project models that decision making and proves what it guarantees.

Everything the control plane changes in place is a class with those fields (`Registry.Registry`,
`Ledger.RequestLedger`, `Responses.ToolBuilder`, `Events.Emitter`, `NodeSync.NodeClient`), and
everything the code loops over is a method with a loop.  Each of these methods is proved equal
to a specification function, and the theorems are about those functions, over all inputs, all
runs and all interleavings.

| File | What it covers |
|---|---|
| `Common`, `Json`, `Text`, `Entities`, `Ordering` | shared vocabulary: options, nested JSON, strings, the stored records, sorting by key |
| `DeepMerge`, `RequestPolicy` | the request-policy algebra and prompt injection |
| `Sanitize` | stripping reasoning from documents and from event-stream bytes |
| `Calendar`, `Pricing` | civil dates, monthly periods, exact cost rounding |
| `Budget`, `BudgetRuns`, `BudgetWitness`, `Recording`, `Ledger` | the budget gate, its usage queries, the admit / await / record protocol, and what it leaves in the log |
| `Tables` | the host and service tables and what they refine |
| `Selection`, `Choice`, `Routing`, `RowOrder`, `Fairness`, `MixedTraffic`, `ChatTraffic`, `Catalogue`, `Listings`, `Registry` | eligibility, scheduling, the fallback search, round robin, the model list |
| `Chat`, `ChatPolicy` | the chat endpoint end to end, and the request policy in what it sends |
| `Responses`, `Adapter`, `AdapterDetails`, `Events`, `EventStream`, `EventText` | the Responses adapter in both directions, and its event stream |
| `NodeSync` | a node staying registered through losses and restarts |
| `Matching`, `Signals` | scored candidate routes, and what their scores respond to |

## Main results

* **Fallback search.**  For any role catalogue, cyclic or not, a request finds a service exactly
  when some id reachable over fallback edges has one of its own (`SearchIsComplete`), what it
  finds is sound (`ResolveSound`), fallbacks are tried in the order listed (`FallbackOrder`), and
  the outcome is, but for round robin, independent of row order (`ResolveSame`).  The model list
  and the resolver agree (`ListedIffResolves`).
* **Choice.**  In terms of the stored rows: which services are fit for a role or a name
  (`RoleFitness`, `DirectFitness`), and in what the one that serves is ahead of every other one in
  the running (`RoleIsServedBest`, `NameIsServedBest`).
* **Round robin.**  k resolutions give each of n candidates the floor or the ceiling of k/n turns
  (`PoolIsServedFairly`), also among requests for other ids that share the role's counter
  (`MixedTrafficIsServedFairly`).  The chat endpoint resolves twice per request, so it reaches the whole
  pool exactly when n is odd (`ChatServesWholePoolIff`); an even pool shares all chat traffic
  among one half and never serves the other (`ChatShares`), and such pools exist
  (`HalfOfAnEvenFleetIdles`).
* **Budgets.**  Over every interleaving, a period is charged at most limit - 1 + K * M
  (`OvershootIsBounded`); for token limits and all cost scopes alike that bound is attained
  (`BoundIsAttained`), and once it is exhausted a meter stays closed until the reset
  (`ExhaustedStaysClosed`).  M is what replies report; a reply is charged exactly that
  (`ReplyIsCharged`), and every request ends up in the log or in flight, once
  (`EveryRequestOnce`).
* **Chunks.**  However a stream is cut into chunks, what is sent is the stripped stream if and only
  if that holds line by line for the fragments in which each line arrives
  (`ChunkingIsHarmlessIff`); cutting at line ends is one way to meet this (`ChunkingIrrelevant`).
* **Periods.**  The date arithmetic computes the greatest reset boundary not after now
  (`PeriodStartIsGreatestBoundary`), over a proved bijection between dates and day numbers.
* **Tables.**  The flat tables refine "what each host last reported" over every run
  (`TablesRefineHistory`).
* **Policies.**  The two merges are dual.  Override is associative exactly where no path holds
  object / non-object / object with something in the first object that the last does not already
  decide (`OverrideAssociativeIff`).  Any number of merged policy layers fill a body as the layers
  do one by one under exactly that condition, layer by layer (`MergedPolicyFillsLikeLayers`).
  In the chat request sent, the defaults and the prompt stand where the role, the asset and the
  model say (`DefaultsReachTheRequest`, `PromptReachesTheRequest`).
* **Responses adapter.**  Tools and tool calls round-trip (`ReplyRoundTrip`), coalescing is lossless
  and canonical, and a client folding the event stream rebuilds the response
  (`StreamRebuildsOutput`), also from the framed text alone (`StreamOnTheWire`), and knows when
  it is over (`StreamIsFinal`).

## Where code and documentation differ

The model follows the code.

* docs/architecture.md:145 promises that `round_robin` cycles across the filtered candidate set.
  A chat request advances the counter twice (once for the audit, once to serve), so a pool of even
  size is only half served; the audited service is then not the serving one
  (`AuditedIsServedIff`).  Listing models and matching routes advance the counters too.
* docs/architecture.md:136-137 weighs benchmark quality 0.55 and overlap 0.45; the code does the reverse.  The
  latency bands and the candidate weights given there also differ from the code.
* A token or cost limit reads like a hard cap; it is one only up to the requests in flight
  (`BoundIsAttained`, for limits of either kind).
* `least_loaded` takes a reported latency of 0.0 for unknown; `scored` does not.
* Override is not associative in general, so applying a merged policy and applying its layers one
  by one can differ; `MergedPolicyFillsLikeLayers` says exactly when.
* docs/llm_demo.md:83-84 promises that reasoning is stripped from every chunk, but chunks arrive cut
  anywhere (upstream.py:107).  A cut inside a line is harmless exactly when stripping the two
  fragments gives what stripping the line gives (`CutIsHarmlessIff`); a document cut in two is
  passed on unstripped, which is harmless exactly when it carried nothing to strip
  (`CutDocumentIsHarmlessIff`).  Cut right after its `data: `, every document that carries
  reasoning is passed on whole (`MisalignedChunkingMatters`).
* A role's counter is shared by all kinds of request for it: asking one role for two kinds of work spoils
  the turns (`TurnsNeedPlainRequests`), asking each for its own kind never does.
* With an empty requested model and assets of which some have an empty id, the asset whose policy
  applies need not be the one sent upstream; `PolicyAssetIsUpstreamAssetIff` gives the exact
  condition.  No chat or embeddings request gets that far (chat.py:63-64 and 120-121 turn an empty
  model away).  The model list applies the policy selector to a service with an empty id
  (registry.py:1222, 1260), and the transcription endpoint hands the id selector whatever name it
  is given (chat.py:158).

## Model

| member | source | states |
|---|---|---|
| DeepMerge.DeepMergeDefaults | src/geniehive_control/request_policy.py:8-16 | The key-by-key update over a copy yields the recursive defaults merge, whatever the order of keys |
| DeepMerge.DeepMergeOverride | src/geniehive_control/request_policy.py:19-26 | The key-by-key update over a copy yields the recursive override merge, whatever the order of keys |
| DeepMerge.DefaultsIsFlippedOverride | src/geniehive_control/request_policy.py:8-26 | On all nested JSON, filling defaults is overriding with the arguments exchanged |
| DeepMerge.OverrideAtPath | src/geniehive_control/request_policy.py:19-26 | What a merge holds at every path, in terms of what the two documents hold there |
| DeepMerge.CoveredMeansAbsorbed | src/geniehive_control/request_policy.py:19-26 | A document is absorbed by another exactly when the other has a value on each of its paths |
| DeepMerge.OverrideAssociativeIff | src/geniehive_control/request_policy.py:19-26 | Override associates on a, b, c if and only if wherever an object of a meets a non-object of b and an object of c, the latter already decides all that the former says |
| DeepMerge.OverrideIsNotAssociative | src/geniehive_control/request_policy.py:19-26 | Three objects for which grouping matters |
| DeepMerge.RegroupingOnlyAdds | src/geniehive_control/request_policy.py:8-26 | Merging the upper two of three documents first never loses a path or changes a leaf; it can only add paths |
| DeepMerge.WithinBothWays | src/geniehive_control/request_policy.py:8-26 | Two documents each contained in the other are equal, so paths added by one regrouping are never cancelled by another |
| DeepMerge.OverrideIdempotent | src/geniehive_control/request_policy.py:19-26 | Overriding a second time with the same document changes nothing |
| DeepMerge.LayeredDefaultsIff | src/geniehive_control/request_policy.py:68-79 | Merging two layers first and filling them one by one, most specific first, agree if and only if nothing clashes |
| DeepMerge.DefaultsIdempotent | src/geniehive_control/request_policy.py:8-16 | Filling the same defaults a second time changes nothing |
| RequestPolicy.MergeRequestPolicies | src/geniehive_control/request_policy.py:68-79 | The loop over layers combines all that are present, and gives none when nothing was set |
| RequestPolicy.MostSpecificPromptWins | src/geniehive_control/request_policy.py:76-78 | The prompt and its position are those of the last layer that has a prompt |
| RequestPolicy.MergedPolicyFillsLikeLayers | src/geniehive_control/request_policy.py:68-79 | For any number of layers and any body, the merged policy fills the body as the layers do one by one, most specific first, if and only if no layer clashes on the body it reaches; otherwise the layers fill in more |
| RequestPolicy.ApplySystemPrompt | src/geniehive_control/request_policy.py:29-43 | Prepend, append and replace in place give the injected message list |
| RequestPolicy.InjectedHasPrompt | src/geniehive_control/request_policy.py:29-43 | After injection some system message carries the prompt |
| RequestPolicy.InjectionKeepsConversation | src/geniehive_control/request_policy.py:29-43 | Injection keeps every non-system message, in order |
| RequestPolicy.InjectionReplacesAtMostOne | src/geniehive_control/request_policy.py:29-43 | Injection adds one system message, or replaces the first, or changes nothing |
| RequestPolicy.ApplyRequestPolicy | src/geniehive_control/request_policy.py:46-65 | Shaping a copy in place yields the shaped body |
| RequestPolicy.ShapingKeepsClientValues | src/geniehive_control/request_policy.py:46-65 | Outside messages the client's non-object values stay, gaps take the policy's value, and no value appears below a client's own leaf |
| RequestPolicy.ShapingIdempotent | src/geniehive_control/request_policy.py:46-65 | Shaping a request twice is shaping it once, for all bodies and policies |
| RequestPolicy.PolicyAssetIsUpstreamAssetIff | src/geniehive_control/request_policy.py:82-93 | The asset whose policy applies is the one sent upstream if and only if a model is named, or asset ids are all empty or all non-empty |
| RequestPolicy.ChatLayerPrecedence | src/geniehive_control/request_policy.py:117-128 | At every path a role's value beats the asset's, which beats the one inferred for the model |
| ChatPolicy.TargetAssetMeaning | src/geniehive_control/request_policy.py:82-93 | The asset in force is the first one named, else the first loaded one with an id, else the first with an id |
| ChatPolicy.QwenNames | src/geniehive_control/request_policy.py:96-98 | Names that begin with qwen3, in any case and with punctuation between, look like Qwen3 whatever follows |
| Sanitize.StripReasoningFields | src/geniehive_control/chat.py:20-31 | The in-place walk removes reasoning as the recursive specification does |
| Sanitize.StripAtPath | src/geniehive_control/chat.py:20-31 | At every path: nothing below `reasoning_content` or `reasoning`, and elsewhere the same leaf, an object, or a list of the same length |
| Sanitize.StripIdempotent | src/geniehive_control/chat.py:20-31 | Stripping twice is stripping once |
| Sanitize.StripReasoningFromSseChunk | src/geniehive_control/chat.py:34-48 | The line loop rewrites each data line and joins them again |
| Sanitize.LinesAreStripped | src/geniehive_control/chat.py:34-48 | Line by line, a `data: ` line with a document goes out as that document without its reasoning, and every other line as it came |
| Sanitize.StripOfConcat | src/geniehive_control/chat.py:34-48 | After a newline, stripping a concatenation is concatenating the stripped parts |
| Sanitize.ChunkingIrrelevant | src/geniehive_control/chat.py:34-48 | Every line-aligned chunking of a stream gives the bytes that stripping it whole gives |
| Sanitize.CutIsHarmlessIff | src/geniehive_control/chat.py:34-48 | For any two chunks, stripping them apart and together agree if and only if they agree on the one line the cut goes through |
| Sanitize.CutDocumentIsHarmlessIff | src/geniehive_control/chat.py:34-48 | When neither fragment is rewritten on its own, the cut is harmless if and only if the line had nothing to strip |
| Sanitize.ChunkingIsHarmlessIff | src/geniehive_control/chat.py:34-48 | For every chunking of every stream, the output is that of stripping it whole if and only if this holds for each line and its fragments |
| Sanitize.MisalignedChunkingMatters | src/geniehive_control/chat.py:34-48 | The failing side occurs: for every faithful codec and every document with reasoning, cut after its data prefix it is passed on whole, uncut it is stripped |
| Sanitize.StripChunkIdempotent | src/geniehive_control/chat.py:34-48 | Stripping the bytes of a chunk twice is stripping them once |
| Calendar.MonthStartClosedForm | src/geniehive_control/budgeting.py:45-57 | Months laid end to end start where the leap-year formula says |
| Calendar.DateOfInvertsDayOf | src/geniehive_control/budgeting.py:45-57 | Every valid date comes back from its day number |
| Calendar.DayOfInvertsDateOf | src/geniehive_control/budgeting.py:45-57 | Every day number comes back from its date |
| Calendar.PeriodStartByMonth | src/geniehive_control/budgeting.py:48-57 | The date arithmetic, including the January step and short months, arrives at the opening month's reset day |
| Calendar.PeriodStartIsGreatestBoundary | src/geniehive_control/budgeting.py:45-57 | The period start is the greatest reset boundary not after now; it fails exactly for unrepresentable instants or before the first boundary |
| Calendar.BoundaryDates | src/geniehive_control/budgeting.py:48-57 | Boundaries are the UTC midnights of the reset day of a month: the first for anything earlier, the month's last for anything later |
| Calendar.PeriodStartInDates | src/geniehive_control/budgeting.py:45-57 | In civil dates, a period starts with the latest reset date's midnight not after now |
| Calendar.PeriodStartMonotone | src/geniehive_control/budgeting.py:45-57 | A later instant never has an earlier period start |
| Calendar.PeriodStartIdempotent | src/geniehive_control/budgeting.py:45-57 | A period start is its own period start |
| Calendar.FilterKeepsExactlyThisPeriod | src/geniehive_control/registry.py:603-636 | An earlier instant passes the query filter if and only if it has the same period start |
| Calendar.PeriodExists | src/geniehive_control/budgeting.py:45-57 | Every instant from 1970 to 9999 has a period |
| Calendar.CalendarAnchors | src/geniehive_control/budgeting.py:46 | The day-number constants are the dates they stand for |
| Pricing.HalfUpIsNearest | src/geniehive_control/budgeting.py:60-85 | The recorded cost is the nearest hundredth of a cent, halves upward, and the only such number |
| Pricing.CostMonotone | src/geniehive_control/budgeting.py:60-85 | More tokens never cost less |
| Pricing.RecordedSumError | src/geniehive_control/budgeting.py:60-85 | Over k requests the recorded sum is within k/2 hundredths of the exact cost |
| Pricing.ZeroUsageProbesThePrice | src/geniehive_control/main.py:210-218 | Costing zero usage tells exactly whether the model has a price |
| Budget.GatePassesIff | src/geniehive_control/main.py:180-227 | A request passes if and only if the gate is off or every configured limit that applies is strictly unmet; unpriced models by policy |
| Budget.FirstExhaustedScopeIsNamed | src/geniehive_control/main.py:219-227 | A refusal for cost names the first exhausted scope of key, global, provider |
| Budget.RefusalsAreTrue | src/geniehive_control/main.py:180-227 | What each decision is, with its figures: the key's tokens before any cost, then an unknown price, then key, global and provider budget |
| Budget.CostLimitsAreTheConfiguredScopes | src/geniehive_control/main.py:199-207 | A scope is tried with a limit exactly when the configuration sets that limit for this request |
| Budget.QuerySumsThisPeriod | src/geniehive_control/registry.py:603-636 | At check time a usage query sums exactly the current period's rows |
| Budget.CostConservation | src/geniehive_control/registry.py:615-636 | Per-key sums plus keyless rows, and per-provider sums plus unattributed rows, each equal the global sum |
| Budget.PeriodsPartition | src/geniehive_control/registry.py:603-636 | Over a whole log each row is charged to exactly one period |
| BudgetRuns.ApplyKeepsSane | src/geniehive_control/main.py:344-389 | No step of any request puts a row or a flight into the future or outside the calendar |
| BudgetRuns.AdmissionMeansBelow | src/geniehive_control/main.py:180-227 | A request that will be charged is admitted only while its meter is below the limit in the current period |
| BudgetRuns.OvershootIsBounded | src/geniehive_control/main.py:344-389 | Over every interleaving of at most K covered flights whose replies report at most M each, no period is charged more than limit - 1 + K * M; for tokens and for each cost scope |
| BudgetRuns.RecordedAsReported | src/geniehive_control/main.py:124-178 | A record is charged the total tokens reported, and prompt and completion at their own prices to the nearest hundredth of a cent |
| Pricing.UsageIsRead | src/geniehive_control/main.py:124-130 | Usage is read off the three named fields of the reply, each by itself; anything else reports nothing |
| Recording.ReplyIsCharged | src/geniehive_control/main.py:150-178 | A reply raises the usage query of each meter it concerns by exactly what it reports, and no other |
| Recording.StatedTotalIsCharged | src/geniehive_control/main.py:124-178 | The total a reply states is what its key's tokens go up by, whatever prompt and completion it states |
| Recording.OnlyRepliesAreCharged | src/geniehive_control/main.py:344-455 | No arrival, refusal or failure raises any query |
| Recording.ArrivalIsRecorded | src/geniehive_control/main.py:350-375 | An arrival goes aloft, or is recorded as a success if it is a stream, or as a failure if refused; with who, where and when |
| Recording.LandingIsRecorded | src/geniehive_control/main.py:375-455 | What lands is recorded as it took off, with its outcome |
| Recording.EveryRequestOnce | src/geniehive_control/main.py:344-455 | Over every run each request seen is in flight or in the log, once, nothing else is, and failures carry no usage |
| BudgetRuns.ExhaustedStaysClosed | src/geniehive_control/main.py:180-198 | Once recorded usage reaches the limit, no charged request is admitted before the next reset, whatever happens meanwhile |
| BudgetWitness.BoundIsAttained | src/geniehive_control/main.py:344-389 | For every token or cost limit and every load there is a run of requests with a resolved service that charges a period exactly limit - 1 + K * M |
| BudgetWitness.EveryLimitHasASetting | src/geniehive_control/main.py:180-227 | For every key, global or provider limit there is a configuration, caller and route to which the former applies |
| Ledger.RequestLedger.EnforceRequestBudget | src/geniehive_control/main.py:180-227 | The imperative gate decides as the specification does and changes nothing |
| Ledger.RequestLedger.CollectCostLimits | src/geniehive_control/main.py:199-207 | The appended limits are the configured scopes in order |
| Ledger.RequestLedger.FirstExhausted | src/geniehive_control/main.py:219-227 | The loop stops at the first exhausted scope |
| Ledger.RequestLedger.AuditRequest | src/geniehive_control/main.py:132-178 | One row is appended, costed from the model sent upstream |
| Ledger.RequestLedger.Arrive | src/geniehive_control/main.py:350-375 | Check and admission are one step of the protocol; streams are recorded at once without usage |
| Ledger.RequestLedger.Refuse | src/geniehive_control/main.py:424-435 | A request turned away is recorded without usage |
| Ledger.RequestLedger.Settle | src/geniehive_control/main.py:375-388 | A reply or a failure ends the flight and records it |
| Tables.InsertAllIff | src/geniehive_control/registry.py:289-318 | A batch of rows goes in exactly when its ids are distinct and free |
| Tables.ReplacedIff | src/geniehive_control/registry.py:289-318 | A report is accepted exactly when it repeats no id and uses none of another host, and then becomes that host's rows |
| Tables.ReplacedRows | src/geniehive_control/registry.py:289-318 | An accepted report leaves the tables consistent and every other host's rows untouched |
| Tables.TablesRefineHistory | src/geniehive_control/registry.py:217-318 | After every run of register, heartbeat, provider removal and health update the tables hold each host's last accepted report, modulo health overwrites; every row has a live host |
| Tables.ClashChangesNothing | src/geniehive_control/registry.py:289-318 | An operation clashes exactly on an unacceptable report, and then the whole state is unchanged |
| Selection.NarrowedMeaning | src/geniehive_control/registry.py:783-831 | A candidate survives exactly when it is loaded (if that is required and possible) and its family comes first among those remaining |
| Selection.OutscoresOrder | src/geniehive_control/registry.py:807-831 | The score comparison is a strict total order |
| Selection.LighterOrder | src/geniehive_control/registry.py:837-846 | The load comparison is a strict total order |
| Selection.BestIsOptimal | src/geniehive_control/registry.py:837-848 | The pick is a candidate that beats every other one |
| Selection.RowOrderIrrelevant | src/geniehive_control/registry.py:837-848 | The pick among given candidates does not depend on their order |
| RowOrder.ScheduledSame | src/geniehive_control/registry.py:782-848 | Under scored and least_loaded, filters, narrowing and pick together give the same service for every order of the rows |
| RowOrder.ResolveSame | src/geniehive_control/registry.py:773-801 | So does the whole search: same service, fallback, visited ids and counters |
| Selection.ScheduledServiceIsBest | src/geniehive_control/registry.py:782-848 | Under all strategies the chosen service is eligible, loaded if so required and possible, of the first family, and optimal under scored and least_loaded |
| Choice.RoleIsServedBest | src/geniehive_control/registry.py:803-848 | The service that serves a role is in the running, and under scored ahead of every other by guardrail match, family, loaded asset, lower latency, greater id; under least_loaded by fewer waiting requests, lower latency, smaller id |
| Choice.NameIsServedBest | src/geniehive_control/registry.py:951-971 | A name is served by the bearer that is loaded, then of lower latency, then of greater id |
| Choice.RoleFitness | src/geniehive_control/registry.py:908-949 | A role takes a service if and only if it is in service and none of the listed grounds (tier, device, employee device, workloads, context) refuses it |
| Choice.DirectFitness | src/geniehive_control/registry.py:897-906 | A service may be used by name if and only if it is in service and, on an employee device, allows it |
| Choice.GuardrailMeaning | src/geniehive_control/registry.py:21-41 | A profile matches when one of five fields has its word in any case, or the protocol is openai |
| Choice.FamilyIndexMeaning | src/geniehive_control/registry.py:810-816 | A service's family rank is that of the first preferred family its asset names contain |
| Choice.FamilyTextMeaning | src/geniehive_control/registry.py:85-95 | A host's one-word family is found if and only if id, an asset or a runtime field has it, in any case |
| Choice.MaxContextMeaning | src/geniehive_control/registry.py:974-996 | The context a service is held to is the largest it reports anywhere |
| Choice.PoolInListingOrder | src/geniehive_control/registry.py:822-836 | The pool that takes turns is in the order of the rows |
| Routing.ResolveSound | src/geniehive_control/registry.py:773-801 | What is found is a local service of an id reachable over fallbacks, and fallback_via is the first hop of a path to it |
| Routing.SearchIsComplete | src/geniehive_control/registry.py:773-801 | For any catalogue, cyclic or not, a service is found if and only if the request, or an id reachable from it, has one of its own |
| Routing.AnswerShape | src/geniehive_control/registry.py:773-801 | A direct match comes before the role of that id, and the role's own services before its fallbacks |
| Routing.FallbackOrder | src/geniehive_control/registry.py:789-801 | Fallbacks are tried in the order listed: whatever an earlier one reaches without coming back has no service of its own, and the one that answers serves with its own services first |
| Routing.DirectMatchIsBest | src/geniehive_control/registry.py:951-971 | A direct match is allowed, bears the requested name and strictly beats every other such service |
| Routing.KindIsKeptWithoutFallback | src/geniehive_control/registry.py:773-801 | Unless a fallback answers, the service has the kind asked for |
| Routing.ResolveIsLocateThenServe | src/geniehive_control/registry.py:773-848 | Where a request ends up does not depend on the round-robin counters; only who serves there does |
| Routing.PoolDistinct | src/geniehive_control/registry.py:782-831 | The pool that takes turns holds no service twice |
| Fairness.TurnsGoRound | src/geniehive_control/registry.py:832-836 | k resolutions walk the pool from the counter on, and only that role's counter moves |
| Fairness.PoolIsServedFairly | src/geniehive_control/registry.py:832-836 | Over k resolutions each of n candidates is chosen floor or ceiling of k/n times |
| MixedTraffic.MixedTurnsGoRound | src/geniehive_control/registry.py:773-836 | Under any mix of requests, none asking a role by name for a kind of work that is not its own, those that end at one role walk its pool from its counter on, whichever ids led there |
| MixedTraffic.MixedTrafficIsServedFairly | src/geniehive_control/registry.py:773-836 | Each of the n services of a role gets floor or ceiling of k/n of the k requests that end there |
| MixedTraffic.TurnsNeedPlainRequests | src/geniehive_control/registry.py:782-836 | Requests of two kinds for one role share its counter: two chat requests around an embeddings request get the same one of two workers |
| Fairness.AuditedIsServedIff | src/geniehive_control/main.py:106 | The audited service is the served one if and only if no pool of two or more takes turns |
| Fairness.ChatServesAlternateTurns | src/geniehive_control/chat.py:66 | The j-th chat request is served by candidate (c + 2j + 1) mod n |
| Fairness.ChatCoversPoolIff | src/geniehive_control/registry.py:832-836 | Every second turn reaches all n slots if and only if n is odd; for even n the slots of one parity are never reached |
| Fairness.ChatServesWholePoolIff | docs/architecture.md:145 | n chat requests reach the whole pool, as documented, if and only if n is odd |
| ChatTraffic.ChatShares | docs/architecture.md:145 | Over any m chat requests an odd pool serves each of n services floor or ceiling of m/n times; an even pool serves every second one floor or ceiling of m/(n/2) times and the others never |
| ChatTraffic.HalfOfAnEvenFleetIdles | docs/architecture.md:145 | For every even size there is a round-robin pool that is half idle under chat traffic; of two workers one serves every request |
| ChatTraffic.FleetIsRegistered | src/geniehive_control/registry.py:217-247 | The fleet of the former is what the registry lists after its one host has registered |
| Catalogue.ListedIffResolves | src/geniehive_control/registry.py:697-771 | A non-empty id is listed if and only if it resolves; the empty id needs a role or service that bears it |
| Catalogue.HealthyRoleResolves | src/geniehive_control/registry.py:720-771 | A role listed with healthy targets resolves to a service of its own operation |
| Catalogue.RoleEntryWins | src/geniehive_control/registry.py:697-771 | Where a role and a service share an id, the role's entry is the one listed |
| Listings.EntriesAreTrue | src/geniehive_control/registry.py:697-771 | What stands under an id is a usable service or asset that bears it, or a role of that id |
| Listings.TargetsAreCounted | src/geniehive_control/registry.py:720-771 | A role's entry counts the services fit for it and those of them that are loaded |
| Listings.ListingTakesTurns | src/geniehive_control/registry.py:720-771 | Under round robin, listing the models uses up one turn of each role with targets of its own, and of no other |
| Listings.ServicesInOrder | src/geniehive_control/registry.py:392-395 | Services are listed by host, then by id, in code-point order |
| Listings.ModelsInOrder | src/geniehive_control/registry.py:771 | Model ids are listed in ascending code-point order, none twice |
| Registry.Registry.ReplaceServices | src/geniehive_control/registry.py:289-318 | Delete and insert row by row is the replacement specification; on a clash it stops with the rows before the clashing one in place, for the caller to roll back |
| Registry.Registry.RegisterHost | src/geniehive_control/registry.py:217-247 | Registering is one step of the tables and rolls back on a clash |
| Registry.Registry.HeartbeatHost | src/geniehive_control/registry.py:263-287 | A heartbeat is one step of the tables and rolls back on a clash; an unknown host changes nothing |
| Registry.Registry.RemoveExternalProviderHosts | src/geniehive_control/registry.py:249-261 | Exactly the stale provider hosts go, with their services |
| Registry.Registry.UpdateServiceHealth | src/geniehive_control/registry.py:360-373 | Only the named row's health changes |
| Registry.Registry.UpsertRoles | src/geniehive_control/registry.py:327-358 | The last profile of each id is stored, other roles stay |
| Registry.Registry.ListServices | src/geniehive_control/registry.py:392-395 | All services once, by host and id |
| Registry.Registry.ListRoles | src/geniehive_control/registry.py:382-385 | All roles once, by id |
| Registry.Registry.ScheduleRole | src/geniehive_control/registry.py:832-848 | The three strategies and the counter update match the scheduler specification |
| Registry.Registry.ResolveRoute | src/geniehive_control/registry.py:773-801 | The recursive search over one shared, mutated visited set terminates and computes the specified outcome, visited set and counters |
| Registry.Registry.SearchFallbacks | src/geniehive_control/registry.py:789-801 | The fallback loop computes the specified search |
| Registry.Registry.ListClientModels | src/geniehive_control/registry.py:697-771 | Each id once, sorted, with the entry that was written last; the counters advance as specified |
| Chat.PrepareChatUpstream | src/geniehive_control/chat.py:51-84 | The service and body sent upstream, or the error, with the counters it moves |
| Chat.UpstreamRequestIsFaithful | src/geniehive_control/chat.py:51-84 | A prepared request goes to a service of the id asked for or of one reachable from it; the body names the asset whose policy shaped it and keeps the client's non-object values and conversation |
| ChatPolicy.DefaultsReachTheRequest | src/geniehive_control/chat.py:74-83 | At every path outside model and messages the client left open, the body sent shows the role's default, else the serving asset's, else the inferred one |
| ChatPolicy.PromptReachesTheRequest | src/geniehive_control/chat.py:74-83 | The most specific prompt is in the messages sent: as it was, or first, last, or in the first system message's place; without one the messages go as given |
| Chat.PreparedIff | src/geniehive_control/chat.py:62-72 | A request is prepared if and only if its model reaches a service of some id; which of the three errors it gets otherwise |
| Chat.RouteAuditMetadata | src/geniehive_control/main.py:97-122 | The route written to the audit, and the counter it moves |
| Chat.AuditedRoute | src/geniehive_control/main.py:97-122 | The audit names the model asked for, and the service found with its provider and the asset to be named upstream, or none of them |
| Chat.BilledModelIsSentModel | src/geniehive_control/main.py:97-122 | When no pool takes turns, service, provider and model in the audit are those the request is sent to |
| Chat.ChatCompletions | src/geniehive_control/main.py:344-389 | Authorization, gate, preparation and record happen in this order and leave the protocol state the specified steps reach; a prepared request streams or awaits as it asked |
| Chat.ArrivalOutcome | src/geniehive_control/main.py:350-389 | A request that left the handler waits unrecorded, or is recorded once: a stream as a success, anything else as a failure |
| Chat.Launch | src/geniehive_control/main.py:356-375 | An admitted request becomes a flight, a recorded stream, or a recorded failure |
| Responses.ToolBuilder.AddTool | src/geniehive_control/responses.py:38-58 | Recursive insertion adds the leaves of a tool tree in pre-order, or fails at the first bad leaf |
| Responses.ToolBuilder.AddTools | src/geniehive_control/responses.py:60-61 | The same for a whole list |
| Responses.ToolsAcceptedIff | src/geniehive_control/responses.py:38-61 | Tools are accepted if and only if every leaf is usable and aliases are distinct, and then definitions and mapping tabulate the leaves |
| Responses.TabulatedReadsBack | src/geniehive_control/responses.py:38-58 | The mapping is a bijection: an alias reads back from its target, and no two aliases share one |
| Responses.HistoryIsKept | src/geniehive_control/responses.py:70-94 | Flattened messages are the non-reasoning items, each once and in order, and stay coalesced |
| Responses.FirstBadItemDecides | src/geniehive_control/responses.py:70-94 | The first item that cannot be translated decides the error |
| Responses.CoalescingIsCanonical | src/geniehive_control/responses.py:83-86 | A coalesced message list is determined by its flattening, so merging is lossless and maximal |
| Adapter.ToChat | src/geniehive_control/responses.py:27-104 | The step-by-step translation yields the specified request and mapping, or the first error |
| Adapter.CollectMessages | src/geniehive_control/responses.py:70-94 | Appending to the last tool-call message in place is the specified fold |
| Adapter.AcceptedIff | src/geniehive_control/responses.py:27-104 | A request is accepted if and only if all listed conditions on model, tools, input and choice hold |
| Adapter.AcceptedRequests | src/geniehive_control/responses.py:27-104 | In every accepted request the tools tabulate the tree, the messages are the instructions and then the input turns, coalesced; model, temperature, token limit and tool choice are the client's or the defaults, and nothing streams |
| AdapterDetails.OneItem | src/geniehive_control/responses.py:71-94 | What each kind of input item adds, field by field |
| AdapterDetails.TurnsConcat | src/geniehive_control/responses.py:70-94 | The turns of a history are those of its parts, in order; the first error counts |
| AdapterDetails.ContentText | src/geniehive_control/responses.py:14-24 | Text is itself or its parts on lines of their own; anything but text is refused |
| AdapterDetails.OneTool | src/geniehive_control/responses.py:46-58 | What one tool is offered as, and what its alias stands for |
| AdapterDetails.InnermostNamespaceCounts | src/geniehive_control/responses.py:40-43 | A namespace replaces the one around it |
| AdapterDetails.ReplyMeaning | src/geniehive_control/responses.py:107-146 | Exactly which replies are accepted; the response's model, status and items, field by field |
| AdapterDetails.RefusedRequests | src/geniehive_control/responses.py:27-104 | Which error a refused request gets: the first that applies, in the order of the checks |
| AdapterDetails.FirstBadLeafDecides | src/geniehive_control/responses.py:44-49 | The first tool that is refused or repeats an alias decides the error |
| AdapterDetails.RefusedReplies | src/geniehive_control/responses.py:107-134 | Which error a refused reply or an unusable call gets |
| Adapter.FromChat | src/geniehive_control/responses.py:107-146 | The step-by-step conversion yields the specified response or the first error |
| Adapter.CallsAcceptedIff | src/geniehive_control/responses.py:120-138 | Calls are accepted if and only if each one names a known tool with usable arguments, and each becomes its own item |
| Adapter.FirstBadCallDecides | src/geniehive_control/responses.py:120-138 | The first unusable call decides the error |
| Adapter.ReplyRoundTrip | src/geniehive_control/responses.py:78-86 | A response replayed as history gives the assistant's text and calls back, with the same ids and aliases, equal function arguments and JSON-equal custom arguments |
| EventStream.FramingRoundTrip | src/geniehive_control/responses.py:157 | The event-stream parser of section 9.2 of the WHATWG HTML Living Standard reads back exactly the events framed |
| Events.Emitter.EmitItem | src/geniehive_control/responses.py:162-181 | One item's events, numbered from the shared counter |
| Events.EmitEvents | src/geniehive_control/responses.py:149-182 | The generator emits the specified stream |
| Events.StreamNumbers | src/geniehive_control/responses.py:149-182 | There are 3 + 6 * messages + 4 * calls events numbered from 0, and one terminal event, last |
| Events.StreamRebuildsOutput | src/geniehive_control/responses.py:149-182 | A client that checks brackets, numbers, empty announcements and repeated text accepts the whole stream and ends with exactly the response's model and output |
| Events.WireCarriesAll | src/geniehive_control/responses.py:149-182 | Each item on the wire has all fields of the response's item |
| Events.StreamIsFinal | src/geniehive_control/responses.py:149-182 | A client accepts no proper extension of a stream and is not done after any proper prefix |
| EventText.StreamOnTheWire | src/geniehive_control/responses.py:153-182 | With any printing of an event's name, number and payload that is one line and parses back, the framed text read by the client gives exactly the events sent, and the client ends with exactly the response's output |
| EventText.NamesDiffer | src/geniehive_control/responses.py:155-182 | No two kinds of event that are sent share a name, so the name alone tells the kind |
| NodeSync.NodeClient.RegisterOnce | src/geniehive_node/sync.py:44-55 | After a call that returns, the registry held exactly the host's services at the reply; a failure leaves the flag as it was, also when the registration took effect and only its reply was lost |
| NodeSync.NodeClient.HeartbeatOnce | src/geniehive_node/sync.py:57-81 | After a call that returns, the host was present at the last reply, with exactly the discovered services if any, whatever was wiped, whichever requests or replies were lost; without losses, and unless wiped again while recovering, it does return |
| Matching.BenchmarkSignals | src/geniehive_control/registry.py:1141-1175 | The running maxima over samples give the benchmark score |
| Matching.ScoresInRange | src/geniehive_control/registry.py:998-1092 | Every candidate's score lies in [0, 1] |
| Matching.IngestNeverLowersScores | src/geniehive_control/registry.py:1141-1175 | A sample under a new id never lowers any candidate's score when role resolution is unchanged |
| Matching.Rank | src/geniehive_control/registry.py:879-894 | The result has the size asked for; scores never rise along it, roles come before services and then ids ascend; and nothing left out is ahead of anything in it |
| Matching.RankingIsDetermined | src/geniehive_control/registry.py:879-886 | There is only one such ranking, so table order cannot matter |
| Matching.MatchRoutes | src/geniehive_control/registry.py:850-895 | The match lists the best of all wanted roles and services under the benchmark table, best first |
| Signals.CandidatesAre | src/geniehive_control/registry.py:853-877 | Candidates are the roles of the kind and modality asked for and, if wanted, the usable services of that kind |
| Signals.RoleCandidateScores | src/geniehive_control/registry.py:867-873 | A role's candidate has the score with the service the role resolves to |
| Signals.ServiceCandidateScores | src/geniehive_control/registry.py:875-877 | A service's candidate has that service's own score |
| Signals.RuntimeDirections | src/geniehive_control/registry.py:1094-1139 | Loaded, faster, more throughput, a shorter queue and not busy never score less |
| Signals.RuntimeAmounts | src/geniehive_control/registry.py:1094-1139 | By how much each of them counts |
| Signals.RoleWeights | src/geniehive_control/registry.py:998-1053 | What a role's score owes to text, family, guardrail, runtime and benchmark alone |
| Signals.ServiceWeights | src/geniehive_control/registry.py:1055-1092 | What a service's score owes to text, runtime and benchmark alone |
| Signals.SampleCounts | src/geniehive_control/registry.py:1141-1175 | A matching sample counts 0.55 of its overlap and 0.45 of its quality; one that overlaps in nothing asked for does not count |
| Signals.QualityMeaning | src/geniehive_control/registry.py:1387-1447 | Quality is speed alone, or 0.65 correctness and 0.35 speed |
| Signals.OthersDoNotCount | src/geniehive_control/registry.py:424-439 | A sample of another service changes nothing |

## Left out

- SQLite: tables are finite maps by primary key, each write block is one step that rolls back on a key clash.
- HTTP, FastAPI, httpx, TLS headers, environment variables, YAML and pydantic validation: validated records are the inputs. Text fields that the code trims and lower-cases when reading host metadata and role filters are taken in that form.
- JSON text: objects are unordered maps, and parsing and printing are parameters. Stripping an event stream twice assumes that a document once parsed is printed on one line and parsed back; the event stream assumes the same of events.
- Text: case folding is for ASCII. The token sets of descriptive texts in route matching are inputs, and so is whether the caller is authorized.
- Floating point: scores and latencies are reals without NaN; costs are integer microdollars and hundredths of a cent, below the size at which the control plane's 28-digit decimals would round. JSON numbers are exact reals: 1 and 1.0 are one number.
- Streams: the control plane records a stream before it starts, without token counts; such a request is charged zero and the overshoot bound says nothing about its real usage.
- Audit switch: with both audit and budgeting off nothing is recorded (main.py:147-148); the log is taken to be kept. A token count in a reply that is not a whole number, or a negative total, counts as not reported.
- Clocks and ids: one timestamp per admission, unique request ids, non-negative token counts. The ids that the adapter draws at random for response items are a parameter.
- A `model` field in a request body that is neither text nor falsy counts as an unknown model.
- Responses: the usage block, the creation time and the response id are not modelled; a message item has one text part, as the adapter builds it.
- Model list and route matching: item metadata (latency, offload hint, effective policy) and the textual reasons and signals of candidates.
- NodeSync.NodeClient.HeartbeatOnce: a restart of the control plane empties its hosts and services; roles and round-robin counters stay as they were. Timers and the loop around it are not modelled.
- Embeddings, transcription and the Responses endpoint: they run the same gate, resolver and audit as chat, in the same order.
- Client keys, authorization patterns, evaluation, the benchmark runner, the prober, discovery, the admin command line and scripts: mostly I/O or single branches.
