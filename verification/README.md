# Lead Line worker protocol and core algorithms: a verified model

Lead Line is a multi-tenant lead-management backend. An API stores leads and
sequences and publishes jobs to queues; one sequential worker receives the jobs,
calls a handler for each, and the handlers publish further jobs. This project
models that protocol and the self-contained algorithms around it, and proves what
they keep over whole runs.

## The worker protocol

`Worker` is a transition system. Its state holds the queues with their receive
counts, the database tables, the `failed_jobs` table, the worker's memory (the
batch at hand and where it stands with the current message) and some history:
every job a queue ever accepted, the messages whose handler returned, one entry
per handler call. A run is any sequence of steps: receive a batch, call a handler
and stop after any number of its publishes and commits, save to `failed_jobs`,
delete, stop anywhere, redeliver, deliver again a job that was accepted long ago,
replay a row, enrol a lead, publish from the API, and write any of the tables. A
handler is a plan (`Database.PlanFor`): the jobs it publishes before its commit,
the commit, the jobs after it. `Backend.Service` is the same behaviour as code
that updates fields in loops. Each handler is proved to carry out its plan, and a poll
to be exactly the run that its messages and their fates determine
(`Polls.PollTrace`); what such a run leaves behind is proved beside it.

What is proved about every run:

- `Custody`: no accepted job is lost, wherever the worker stops. This fails in one
  way. A row of `failed_jobs` records the last segment of the queue's URL as the
  queue name, `publish` drops a job whose name has no URL, and the replay marks the
  row `replayed` either way. So no run loses a job if and only if the names of the four
  queues the code publishes to keep resolving, however often a job is saved and
  replayed; for any other configuration a losing run is given. URLs that end in a slash
  and the queue's own name always qualify.
- `Retries`: while saves and deletes succeed, a handler runs at most three times for
  one message, and a job that always fails leaves exactly one row with three attempts.
- `Progress`: an enrolment has executed exactly the first `current_step_index` steps
  of its sequence in order, once each, under failures, duplicates, forged jobs and
  replays; under edits of steps the index still counts the executed steps; enrolments
  only move forward.
- `StepTokens`: each active enrolment has exactly one pending step job, on the queue
  or in `failed_jobs`, each completed one none. Jobs are published before the commit,
  so a step handler that stops in between breaks this, and so does a lost delete or an
  API process that stops before it publishes; the exact condition is proved for each.
  A trigger handler may stop anywhere without breaking it.
- `Cascade`, `Draining`: once failures stop, polling drains the queues, from every state
  any run can reach, doubled and lost step jobs and unset queues included, whatever and
  however many messages each poll returns. Each handled message lowers a weight of the
  queues; it lowers it by exactly one unless a job it publishes has no queue, or a second
  job is queued for an enrolment with more than one step left. So with all queues set and
  no doubled jobs the number of handler calls is fixed in advance: 4 plus the sum of
  max(1, steps) for one `message.created`. When the step jobs are balanced and none waits
  in `failed_jobs`, an emptied system has executed every step of every enrolment, once.
- `Handlers`: what each handler does when nothing stops it, said of the tables and of the
  fields of its jobs: which sequences a trigger enrols in, when a step handler acts, whom an
  analysis announces. No handler touches another tenant, and references never dangle.
- `Deliveries`: the usage counters are exactly the committed analyses and deliveries.

## The algorithms

- `RateLimit`: a fixed one-minute window per tenant bounds every interval of k
  minutes by (k + 1) * max(1, limit) - 1 admitted requests, and the bound is attained;
  tenants do not affect each other; a refusal is characterised exactly.
- `Masking`: both matchers find a match exactly when one starts there, and take the
  longest; an address is written with its domain only. The output of the telephone pass
  holds no telephone number, for every input and any table of digits and spaces; the tree
  walk is described path by path.
- `Routing`: sort-then-first-match is an argmax and depends only on the set of enabled
  rules. What each operator asks is stated without naming the comparison, and thresholds
  are monotone in the column they ask of. Routing writes four columns, the three of the
  assignment and, through the commit, `updated_at`; it is idempotent when no rule reads
  them. When rules do, the exact condition is proved: the winner keeps matching the lead it
  assigned, and no rule that reads these columns and ranks before it comes to match. A rule
  on the owner and a rule on the update stamp are given that fail it.
- `Leads`, `PlanLimits`, `Usage`: no duplicate leads, the plan cap, the ledger.
  Updating a contact makes no duplicate check; exactly when that is safe is proved, and
  a run that leaves two leads with one e-mail is given.
- `Webhooks`: which record each event of a HubSpot batch leaves, what a batch adds,
  redelivery, composition. At the Svix endpoint the first delivery that is stored decides:
  an event stored as failed is never tried again, one whose transaction was rolled back is
  new.
- `AiCache`: a cache that may lose entries answers as the direct analysis does. Messages
  can be edited and the key does not name the content; a history of edits is safe if and
  only if no earlier content that selects the same model has another analysis. The
  proofs ask for identifiers without colons, which the UUIDs in use are.

`Sorting` and `Text` hold what several modules share: the stable sort behind the
ORDER BY clauses, and `strip` and `lower` on ASCII text.

## Reading the model

- Identifiers are opaque ordered keys (`Id`); new ones are never reused, like UUIDs.
- A transaction is one atomic commit. The foreign keys are those of the declared
  models on PostgreSQL: deleting a lead or a sequence deletes its enrolments, and an
  enrolment for a missing lead is rejected.
- Calls that can fail take their fate as a parameter: `budget` calls of a handler
  succeed, `Fate` decides the calls around it. An exception that leaves `poll_queue`,
  a malformed body included, and a stopped process are the same step. Any handler may
  fail before its first call, also one that returns without making any; the failing runs
  given here only use handlers that read the database first.
- Time, the day, and what the AI reports are parameters.

Where the code and its documentation differ, the model follows the code. The
documentation lists a retry status for webhook events, but no code retries an
event with that status (`Webhooks.FirstDeliveryDecides`). The failed-jobs endpoint
reports a replay as done even when the publish was skipped
(`Custody.NothingLostIffNamesResolve`). Lead creation checks the plan cap before it
looks for a duplicate (`Leads.LeadService.CreateLead`).

## Model

| member | source | states |
|---|---|---|
| Custody.ConsistentAlways | app/workers/main.py:139-171 | in every run queued and received bodies are those accepted, the worker holds only queued messages, and each failed_jobs row has at least three attempts and the last segment of its own queue's URL as name |
| Custody.NoJobIsLost | app/workers/main.py:138-175 | from any safe state, a run with stops at any point and committed replays that find a configured queue keeps every accepted job queued, handled, without handler, or in failed_jobs, following replays from row to message |
| Custody.NothingLostIffNamesResolve | app/api/admin.py:177-184 | no run whose posts go to the queues the code publishes to loses an accepted job, if and only if their names keep resolving however often a job is saved and replayed |
| Custody.MisnamedQueueLosesJob | app/workers/main.py:156-169 | when the name of such a queue stops resolving after some replays, any job with a handler published to it is lost by a run of failures and replays |
| Custody.ConventionalUrlsLoseNothing | app/workers/main.py:159-165 | when the URL of every configured queue is a base, a slash and its own name, every name resolves, a failed_jobs row carries the name its job was published under, and no run loses a job |
| Jobs.LastSegmentSplits | app/workers/main.py:160 | the last segment holds no slash, and the URL is it behind a base that is empty or ends in a slash |
| Jobs.SplitsOnce | app/workers/main.py:160 | only one text splits off a URL in this way |
| Retries.RetryBound | app/workers/main.py:145-171 | while saves and deletes succeed, at most three handler calls per message and at most one row per message |
| Retries.AlwaysFailingJobIsSavedOnce | app/workers/main.py:156-169 | a job with a handler that left its queue unhandled has exactly one row, with its payload, after exactly three calls |
| Progress.StepsExecuteExactlyOnce | app/sequence/pipeline.py:75-137 | in any run that leaves a sequence's steps alone, each of its enrolments has executed exactly the first current_step_index steps in order, and is completed only after all of them |
| Progress.IndexCountsCommittedSteps | app/sequence/pipeline.py:108-122 | in any run, edits of steps included, current_step_index is the number of committed steps |
| Progress.EnrollmentsOnlyAdvance | app/sequence/pipeline.py:76-126 | in any run indexes never decrease, completed enrolments never change, the log only grows, identifiers do not return |
| Database.OrderedStepsListsTheRows | app/repositories/sequence_repository.py:79-86 | listing steps returns exactly the sequence's rows, by order_index then id |
| Handlers.TriggerEnrolsExactly | app/sequence/pipeline.py:15-58 | when nothing stops it, the trigger handler adds exactly one enrolment for each active sequence that the tenant has on the trigger, none for any other, and changes nothing else; it commits exactly for a complete payload, unless such a sequence exists and the lead is gone |
| Handlers.ActiveForLists | app/repositories/sequence_repository.py:34-48 | the query returns exactly the rows with that tenant and trigger that are active, each as often as it is there and in table order |
| Handlers.TriggerPublishesFirstSteps | app/sequence/pipeline.py:37-55 | the jobs it publishes are exactly one step job per new enrolment |
| Handlers.StepHandlerMoves | app/sequence/pipeline.py:61-137 | the step handler acts exactly on an active enrolment of the tenant whose lead and sequence the tenant still has; it moves that enrolment alone, executes the step its index names, and publishes the next step job or completes it |
| Handlers.MessageHandlerAnnounces | app/ai/pipeline.py:14-136 | the analysis handler acts exactly on a message of the tenant in the session named, and announces the score of the lead of that session, if the tenant has the session and it has a lead, with three jobs |
| Handlers.LeadHandlersPublishNothing | app/routing/pipeline.py:5-13 | routing and integration handlers act exactly on a lead the tenant has, and publish nothing |
| Handlers.HandlersTouchOneTenant | app/workers/main.py:35-47 | no handler changes or publishes anything of a tenant other than the one its payload names, nor writes leads, sequences, steps, sessions or messages |
| Handlers.ReferencesHold | app/models/sequence.py:48-58 | in every run every enrolment is of a lead and a sequence that are there |
| Handlers.DeletionCascades | app/models/sequence.py:48-58 | a write of the tables takes away exactly the enrolments of leads and sequences that are gone |
| Sorting.BySorts | app/repositories/sequence_repository.py:79-86 | the sort is an ordered rearrangement of its input |
| Sorting.OrderedIsUnique | app/repositories/sequence_repository.py:79-86 | with distinct keys there is only one ordered rearrangement |
| StepTokens.OneStepJobPerActiveEnrolment | app/sequence/pipeline.py:75-137 | in every orderly run from an empty system an active enrolment whose lead and sequence exist has exactly one pending step job and a completed one none |
| StepTokens.ConservedNext | app/sequence/pipeline.py:75-137 | every orderly step keeps the balance of step jobs, table edits and deletions included |
| StepTokens.StepHandlerConservesIff | app/sequence/pipeline.py:122-137 | a step handler call that has something to do keeps the balance if and only if it returns or stops before its first call |
| StepTokens.ConservedTrigger | app/sequence/pipeline.py:26-58 | a trigger handler keeps the balance wherever it stops |
| StepTokens.ConservedEnrol | app/api/sequences.py:158-186 | enrolling through the API adds one enrolment and its one step job |
| StepTokens.LostDeleteConservesIff | app/workers/main.py:156-175 | losing the delete of a finished or saved step job keeps the balance if and only if its enrolment, sequence or lead is gone |
| StepTokens.UnpublishedEnrolConservesIff | app/api/sequences.py:158-186 | stopping between the enrolment's commit and its publish keeps the balance if and only if nothing was enrolled |
| StepTokens.EmptyQueuesLeaveRows | app/sequence/pipeline.py:75-137 | in a balanced state with empty queues the active enrolments are exactly those whose step job is in failed_jobs, in one row each |
| Cascade.PlanBalances | app/sequence/pipeline.py:87-135 | the jobs a handler leaves behind weigh one less than the job it handled |
| StepTokens.CutOffHandlerUnbalances | app/sequence/pipeline.py:122-137 | a concrete orderly run after which a step handler stopped between its publish and its commit breaks the balance |
| Cascade.SentWeighs | app/queue/sqs.py:46-54 | the jobs that are not dropped weigh no more, and as much exactly when all queues are set |
| Draining.MessageLowersWeight | app/sequence/pipeline.py:87-135 | from any state between messages, with any batch at hand and any queues set, handling the next message without failure lowers the total weight of the queues, by exactly one if and only if nothing it publishes is dropped and no second job waits for an enrolment with more than one step left |
| Draining.DrainEnds | app/workers/main.py:138-175 | from any such state, whatever step jobs are doubled or missing, polls in which nothing fails, of any queues and with up to five messages each, handle at most the initial weight in messages |
| Draining.DrainEndsAfterAnyRun | app/workers/main.py:201-211 | after any run from an empty system, with failures and stops anywhere and any queues set, the polls that follow without failure end |
| Draining.DrainGoesOn | app/workers/main.py:138-175 | while triggers and sessions name existing leads, whatever messages a poll returns can all be handled to their end |
| Draining.QueuesCanBeDrained | app/workers/main.py:201-211 | so some schedule of polls empties the queues |
| Draining.DrainCountsDown | app/workers/main.py:201-211 | with all queues set and at most one step job queued per enrolment the queues are empty after exactly the initial weight in handled messages, whatever the polls return |
| Draining.BalancedHasNoRivals | app/sequence/pipeline.py:75-137 | every state whose step jobs are balanced drains in that exact number of calls |
| Draining.MessageCascade | app/ai/pipeline.py:105-136 | one message.created on a session with a lead, alone on the queues, causes at most 4 plus, for each active score_updated sequence of the tenant in the table, max(1, its steps) handler calls, and exactly that many when all queues are set |
| Draining.LeadCreatedCascade | app/services/lead_service.py:45-82 | the three jobs a new lead publishes on empty queues are drained after at most 3 plus, for each active lead_created sequence of the tenant in the table, max(1, its steps) handler calls, and exactly that many when all queues are set |
| Draining.DrainCompletesEnrolments | app/sequence/pipeline.py:87-135 | a drain from a balanced state with no step job in failed_jobs leaves every enrolment completed, each step of its sequence executed once in order |
| Deliveries.LedgerMatchesCommits | app/sequence/pipeline.py:102-106 | in any run a tenant's counters over all days are its committed analyses, tokens, e-mail steps to leads with an e-mail and SMS steps to leads with a phone |
| Backend.Service.PublishJob | app/queue/sqs.py:46-70 | a job is queued under its name's URL, or dropped, exactly when the name has none or a blank one |
| Backend.Service.EnrolInEach | app/sequence/pipeline.py:30-57 | the loop publishes one step job per new enrolment and stops after the publishes it is granted |
| Backend.Service.ProcessSequenceTriggerEvent | app/sequence/pipeline.py:15-58 | the trigger handler, cut off anywhere, carries out its plan |
| Backend.Service.ProcessSequenceStepEvent | app/sequence/pipeline.py:61-137 | the step handler, cut off anywhere, carries out its plan |
| Backend.Service.ProcessMessageCreatedEvent | app/ai/pipeline.py:14-136 | the analysis handler commits, then publishes its three jobs as far as it gets |
| Backend.Service.ProcessLeadEvent | app/routing/pipeline.py:5-13 | routing and integration handlers commit for an existing lead and publish nothing |
| Backend.Service.HandleEvent | app/workers/main.py:35-47 | each event goes to its handler |
| Backend.Service.PollQueue | app/workers/main.py:126-175 | a poll is exactly the receive and the steps its messages and their fates determine, up to the first exception, and it keeps jobs safe |
| Backend.Service.ProcessMessage | app/workers/main.py:139-175 | one turn of the loop: the parse, the handler with its outcome, and what follows from both; whether an exception ends the poll |
| Backend.Service.Settle | app/workers/main.py:151-175 | deleted when handled; left for redelivery below three receives; saved and deleted from three on; the queue, the rows, the batch and the steps in each case |
| Polls.ReceiveTakes | app/workers/main.py:126-143 | a receive hands out up to five different messages of the one queue polled, as they are there, with their receive counts one higher; nothing else changes |
| Polls.MessageSettled | app/workers/main.py:139-175 | after its turn a message is gone from its queue exactly when it was handled, or saved on its third delivery, and deleted; rows and handled messages say which; no other message is touched |
| Polls.CalmPollSettles | app/workers/main.py:138-175 | after a poll in which only handlers fail, a received message is still queued only below three receives; every other was handled, has no handler, or has a row |
| Backend.Service.EnrollLead | app/api/sequences.py:158-186 | the enrolment is committed before its step job is published |
| Backend.Service.ReplayDlqJob | app/api/admin.py:164-185 | a replay publishes, then marks the row whatever the publish returned |
| Usage.IncrementTotal | app/services/usage_tracking_service.py:24-51 | an increment moves exactly the tenant's totals by exactly the delta |
| Usage.IncrementRow | app/services/usage_tracking_service.py:24-51 | an increment touches the row of that tenant and day alone: each counter grows by its part of the delta, from zero in a new row |
| Usage.IncrementKeepsOneRowPerDay | app/models/usage_record.py:11-16 | the uniqueness of (tenant, day) is never violated |
| Usage.UsageTrackingService.IncrementUsage | app/services/usage_tracking_service.py:13-51 | finding or creating the day's row and adding in place is that increment |
| RateLimit.SlidingIntervalBound | app/security/rate_limit.py:20-39 | in any run any k minutes hold at most (k + 1) * max(1, limit) - 1 admitted requests of a tenant |
| RateLimit.SlidingIntervalBoundIsAttained | app/security/rate_limit.py:31-39 | for every limit and k a run admits exactly that many |
| RateLimit.TenantIsolation | app/security/rate_limit.py:26-29 | a tenant gets the answers of the run in which only it calls |
| RateLimit.RefusedIff | app/security/rate_limit.py:31-36 | a request is refused exactly when the window is under a minute old and max(1, limit) requests were admitted since it began |
| RateLimit.TenantRateLimiter.Allow | app/security/rate_limit.py:20-39 | the method over the window objects is one step of that model |
| Masking.PhoneEndIsLongest | app/security/masking.py:5 | the greedy, backtracking match finds a number exactly when one starts there, and takes the longest |
| Masking.PhonesAreGone | app/security/masking.py:10 | no part of the output of the telephone pass matches the telephone pattern |
| Masking.PhonePassFixedIff | app/security/masking.py:10 | the pass changes nothing exactly when there is no number, so it is idempotent |
| Masking.EmailEndIsLongest | app/security/masking.py:4 | the greedy, backtracking match finds an address exactly when one starts there, and takes the longest |
| Masking.EmailTailUnfolds | app/security/masking.py:9 | from left to right, where an address starts the longest one is written as `***@` and the text after its `@`, and every other character is copied |
| Masking.ScanKeepsText | app/security/masking.py:8-11 | a substitution keeps the text around its matches in place |
| Masking.MaskTextIsPhoneFree | app/security/masking.py:8-11 | mask_text leaves no number, and both passes keep the text they do not match |
| Masking.MaskTextPasses | app/security/masking.py:8-11 | text without addresses gets the telephone pass alone, an address alone keeps only its domain, and the output is that of the e-mail pass exactly when that holds no number |
| Masking.MaskPiiValue | app/security/masking.py:14-33 | the recursive walk with its loop computes the masked tree |
| Masking.MaskItems | app/security/masking.py:17-18 | the loop over a list |
| Masking.MaskObject | app/security/masking.py:19-32 | the loop over the entries of an object |
| Masking.MaskAlongOpenPath | app/security/masking.py:14-33 | along every path without a sensitive key the masked tree holds the masked value and nothing else |
| Masking.MaskKeepsShape | app/security/masking.py:14-33 | at any depth keys, lengths and scalars stay, values under the five sensitive keys in any case are redacted whole, other strings are masked |
| Masking.MaskedTreeIsPhoneFree | app/security/masking.py:14-33 | no string value of a masked tree holds a number |
| Routing.DecideIsArgmax | app/routing/engine.py:90-102 | the answer is an applying rule of highest priority and then smallest id, and no rule exactly when none applies |
| Routing.DecideDependsOnEnabledRules | app/routing/engine.py:92-95 | lists with the same enabled rules, in any order, give the same answer |
| Routing.LosersDoNotMatter | app/routing/engine.py:92-102 | removing rules other than the winner changes nothing |
| Routing.PreFilterChangesNothing | app/repositories/routing_repository.py:37-44 | the filtered and sorted query gives the answer the tenant's rules would |
| Routing.OrderingsAgree | app/routing/engine.py:16-59 | the comparators agree with each other and are false without numbers |
| Routing.OrderingsCompare | app/routing/engine.py:16-46 | gt, gte, lt and lte hold exactly of two values that stand for numbers, the left one being greater, at least, less, or at most the right one |
| Routing.OperatorsMean | app/routing/engine.py:49-59 | eq and neq compare up to booleans as numbers, contains asks for an occurrence in the lower-cased texts, in for an equal element of a list, and no other operator holds |
| Routing.ThresholdRule | app/routing/engine.py:25-46 | a rule with one threshold on a numeric column matches exactly the leads on that side of it |
| Routing.RaisingKeepsMatches | app/routing/engine.py:71-87 | raising a numeric column never makes a rule fail that asks of it with gt and gte, and never makes one match that asks with lt and lte |
| Routing.RaisingKeepsPriority | app/routing/engine.py:71-102 | when enabled rules ask of the column with gt and gte only, raising it never leads to a rule of lower priority |
| Routing.FieldsRead | app/routing/engine.py:62-68 | a field is an assignment column, another column, a custom field behind its prefix, or null, in this order |
| Routing.ConditionHolds | app/routing/engine.py:75-77 | field and operator count without the spaces around them, and the operator is eq by default |
| Routing.AtMostOneAssignee | app/routing/engine.py:105-122 | after a known action at most one assignment column is set; of the other columns only updated_at moves, when the assignment changes |
| Routing.AssignmentFills | app/routing/engine.py:105-122 | each of the three actions fills its own column with the text of its own payload entry, or clears it for a missing or blank one, and clears the other two; any other action changes nothing |
| Routing.RoutingIsIdempotent | app/services/routing_service.py:51-78 | if no enabled rule reads an assignment column or updated_at, a second routing decides the same and changes nothing, whatever stamps the commits write |
| Routing.RoutingIsIdempotentIff | app/services/routing_service.py:51-78 | for every lead and all stamps, a second routing changes nothing if and only if no rule applies, or the winner reads none of the four columns or still matches the lead it assigned, and no enabled rule that reads them and ranks before it matches that lead |
| Routing.RoutingMayNotBeIdempotent | app/services/routing_service.py:51-78 | two rules, one on the owner, for which routing an unowned lead twice differs from once |
| Routing.StampedRulesMayNotBeIdempotent | app/models/base.py:17-21 | two rules, one on updated_at and none on the assignment, for which routing twice differs from once |
| Routing.RuleMatches | app/routing/engine.py:71-87 | the loop over conditions decides whether all hold |
| Routing.EvaluateRouting | app/routing/engine.py:90-102 | the loop returns the identifier, the action and the payload of a winning rule, or none exactly when none applies |
| Routing.Lead.ApplyRoutingDecision | app/routing/engine.py:105-122 | the columns are updated in place as the decision says |
| Routing.RoutingService.EvaluateAndApply | app/services/routing_service.py:51-78 | only a lead of the tenant is routed, by its tenant's enabled rules; the commit stamps a changed lead, and the decision is recorded |
| Text.StripFixedIff | app/services/lead_service.py:17-20 | stripping trims, and changes nothing exactly when the text is trimmed |
| Text.SpacesAre | app/services/lead_service.py:20 | the spaces are the 29 characters that `str.strip` removes, by code point |
| Text.StripDropsSpaces | app/services/lead_service.py:17-20 | stripping takes spaces off both ends and nothing else |
| Text.StripOfPadded | app/routing/engine.py:75-76 | padding of any spaces around trimmed text comes off |
| Text.Lower | app/services/lead_service.py:20 | lower-casing leaves no capital and changes nothing but capitals |
| Leads.NormalizedStays | app/services/lead_service.py:17-27 | normalised contacts are fixed, but for an e-mail of spaces, which is stored blank |
| Leads.EmailNormalized | app/services/lead_service.py:17-20 | a missing or blank e-mail is none; any other loses the spaces around it and its capitals become small, and nothing else changes |
| Leads.PhoneNormalized | app/services/lead_service.py:23-27 | a telephone number keeps exactly its digits and plus signs, in order and as often as they are there, and is none without any |
| Leads.CreateStoresAndAnnounces | app/services/lead_service.py:84-109 | with all queues set, a new lead is stored last with its contacts normalised and announced by its three lead_created jobs; a refused or deduplicated request changes nothing |
| Leads.UpdateChangesGivenColumns | app/services/lead_service.py:117-138 | an update changes of the tenant's lead the given columns alone, and announces it by its three lead_updated jobs |
| Leads.DeleteRemovesTheLead | app/services/lead_service.py:140-146 | a deletion removes the tenant's lead and nothing else |
| Leads.FindDuplicate | app/repositories/lead_repository.py:45-61 | returns a row sharing a given contact, or none only when there is none |
| Leads.NoDuplicatesEver | app/services/lead_service.py:84-109 | over creations, deletions and updates of other columns no two leads of a tenant share a given e-mail or phone, and contacts are normalised |
| Leads.UpdateKeepsDistinctIff | app/services/lead_service.py:117-138 | an update keeps leads distinct exactly when the duplicate check over the other leads would have found nothing |
| Leads.CopiedEmailDuplicates | app/services/lead_service.py:117-138 | two creations and an update that copies an e-mail leave two leads with the same one |
| Leads.LedgerAndCapHold | app/services/lead_service.py:86-106 | over any run, plans changing at any time, created equals live plus deleted leads, no tenant has more leads than the highest cap it has had, one usage row per day |
| Leads.TenantStep | app/services/plan_limit_service.py:21-40 | a tenant only grows below the cap in force: lowering it stops creations and removes nothing |
| Leads.LeadService.CreateLead | app/services/lead_service.py:84-109 | the cap first, then duplicates, then the lead and its count are committed and its three jobs published, as far as their queues are set and no publish raises |
| Leads.LeadService.FindDuplicateRow | app/repositories/lead_repository.py:45-61 | the query over the rows finds that duplicate |
| Leads.LeadService.UpdateLead | app/services/lead_service.py:117-138 | only the given columns of the tenant's lead change, contacts normalised; then three jobs are published, as far as their queues are set and no publish raises |
| Leads.LeadService.DeleteLead | app/services/lead_service.py:140-146 | exactly the tenant's lead is removed |
| PlanLimits.LimitFor | app/services/plan_limit_service.py:21-40 | every limit in force is positive |
| PlanLimits.LimitInForce | app/services/plan_limit_service.py:10-40 | a positive override is the limit in force, otherwise the number of the plan, which for an unknown plan or a missing tenant is the starter's |
| PlanLimits.GetPlanLimits | app/services/plan_limit_service.py:21-40 | the loop overrides exactly the positive integer entries of the plan's defaults |
| Webhooks.BatchAddsFirstOccurrences | app/api/webhooks.py:104-124 | a batch keeps old records and appends one processed record with one attempt for the first item of each new key, in order |
| Webhooks.EveryEventIsStored | app/api/webhooks.py:104-124 | after a batch every event has exactly one record: provider hubspot, its tenant or global, its eventId, else its id, else unknown, as source; new records carry the type and body of the first event that goes by them |
| Webhooks.DifferentEventsKeepApart | app/api/webhooks.py:107-108 | events that differ in their tenant or in their event id leave records of their own |
| Webhooks.BatchKeepsUniqueKeys | app/repositories/integration_repository.py:55-67 | keys stay unique, so the lookup never finds two rows |
| Webhooks.RedeliveryChangesNothing | app/services/webhook_service.py:35-41 | a batch or any part of it delivered again changes nothing |
| Webhooks.BatchesCompose | app/api/webhooks.py:104-124 | one batch after another is their concatenation |
| Webhooks.AnonymousEventsCollide | app/api/webhooks.py:107-109 | after one event without an id, later ones of the tenant are dropped |
| Webhooks.SvixStores | app/api/webhooks.py:44-69 | a Svix delivery stores its event unless the tenant has that source already or the transaction is gone: processed, to be retried, or failed when one attempt is all there is |
| Webhooks.FirstDeliveryDecides | app/api/webhooks.py:44-69 | at the Svix endpoint the first delivery that is stored counts, failed or not; deliveries that were rolled back leave nothing |
| Webhooks.WebhookService.GetBySource | app/repositories/integration_repository.py:55-67 | finds the row of a key |
| Webhooks.WebhookService.EnsureIdempotent | app/services/webhook_service.py:26-55 | a new key is stored as received, a known one leaves the store as it is |
| Webhooks.WebhookService.Mark | app/services/webhook_service.py:57-97 | only the record of the key changes, with one attempt more |
| Webhooks.WebhookService.ReceiveHubspotWebhook | app/api/webhooks.py:101-127 | the loop over the items is the batch |
| Webhooks.WebhookService.ReceiveSvixWebhook | app/api/webhooks.py:44-69 | a delivery stores and marks a new event, as failed or not at all when marking or committing raises, and answers with the stored status or an error |
| AiCache.KeysDetermineMessage | app/ai/orchestrator.py:34-35 | keys of colon-free identifiers are equal only for the same message and, under one version or colon-free versions, the same version and model |
| AiCache.CacheIsTransparent | app/ai/orchestrator.py:29-66 | after any run of analyses, evictions, failing calls and edits of other messages an unedited message gets the analysis made without a cache, by the full model from 351 characters on and else by the small one |
| AiCache.EditsAreTransparentIff | app/api/conversations.py:141-157 | over all runs with a given history of edits of a message the answer is the direct one if and only if no earlier content selecting the same model has another, non-empty analysis |
| AiCache.EditedMessageIsStale | app/ai/orchestrator.py:44-51 | with the old content analysed and cached, the answer after an edit is right if and only if the edit selects another model or changes no analysis |
| AiCache.AIOrchestrator.AnalyzeMessage | app/ai/orchestrator.py:37-66 | the method reads, computes and writes the cache as the model does |

## Left out

- Custody.NoJobIsLost: a commit of the replay endpoint counts as lost custody when its queue name has no URL; the general case is the if-and-only-if beside it.
- StepTokens.OneStepJobPerActiveEnrolment: only for orderly runs (no forged or duplicated step jobs, no delete lost after a step job, every API enrolment published); when the balance fails is proved by `StepTokens.StepHandlerConservesIff`, `StepTokens.LostDeleteConservesIff` and `StepTokens.UnpublishedEnrolConservesIff`.
- StepTokens.ConservedNext: a lead or sequence whose tenant changes is excluded, since no request can write a tenant.
- Leads.NoDuplicatesEver: updates of contacts are excluded, because the code does not check them; see `Leads.UpdateKeepsDistinctIff`.
- Backend.Service.ProcessSequenceTriggerEvent: identifiers are drawn before the loop, not one per flush, so a handler that stops early skips some.
- Backend.Service.ProcessLeadEvent: the assignment, the timeline and the calls to HubSpot, Slack and Svix are not part of this state; routing itself is modelled in `Routing`.
- Draining.DrainEnds: nothing fails while draining; with repeated commit failures after a publish a drain need not end. A trigger whose lead was deleted is rejected by the database and counts as a failure.
- Draining.DrainEndsAfterAnyRun: the API posts no step job for an enrolment that does not exist yet; identifiers are drawn at random.
- Masking.MaskTextIsPhoneFree: nothing is claimed about addresses left after the e-mail pass, which keeps the domain, so text after it can form an address again. Keys of objects are not masked, as in the code.
- Leads.NormalizedStays: lower-casing covers ASCII letters only; stripping removes every character Python counts as a space.
- Routing.DecideIsArgmax: values are null, booleans, reals, strings and lists; objects, dates other than as text, rounding and NaN are not modelled; parsing and printing of values are parameters. A condition that names a relationship or a method of the lead object instead of a column is not modelled.
- Routing.RoutingService.EvaluateAndApply: an assignment to a user that does not exist, which the database rejects, is not modelled.
- Several workers, and API writes between a handler's read and its commit: the code takes no row locks, so every claim is for one worker and serial transactions.
- Sends to SES and Twilio happen before the commit and may repeat; they are not recorded here, only the committed steps are.
- Signatures, tokens, encryption, routing of HTTP requests, tracing, metrics and audit logs.
- The keyword heuristics and scores of the AI analysis, and the OpenAI call.
- Session and message caps, provisioning, conversations, and the usage summary query: they would only add easy members.
- `delay_seconds` of a step: stored, never read.
