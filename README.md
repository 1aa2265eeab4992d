# HTE-backend planner core in Dafny

HTE-backend is a FastAPI service that turns a goal into a dated task plan. A client posts
a `Plan`: a user id, a goal id, the goal's description and a possibly empty task list. The
endpoint answers 202 at once and starts a background job. The job asks a MiniMax model,
through the Anthropic Messages SDK, for a JSON array of tasks. It cuts the array out of the
reply, validates each element as a `TaskContent`, appends the new tasks to the plan and
stably sorts the whole list by `start_at`. The job reports its progress over a
Server-Sent-Events stream per goal: a status message when it starts, a status with the task
count, and finally `completed` with the plan or `error` with the message. A client that
connects after the job finished is sent the stored result as a single frame.

The model has these modules:

- `Schema` holds the three pydantic models: their validation from decoded JSON (required
  fields, defaults, optional fields) and the mutable `Plan` object.
- `TaskOrder` holds Python's string order and the stable sort by `start_at`. It proves the
  sort is sorted, a permutation and stable, and that these three facts determine its result.
- `LlmService` holds `MiniMaxClient.generate_completion`: the request it builds, how it
  collects text blocks, the empty-reply error and the error classification.
- `PlanService` holds `plan()`: strip, `find`/`rfind`, the slice, the decode, the validation
  loop, the merge and the sort, along with its three error messages.
- `Planner` holds the router. A `Registry` class holds the two module-level dictionaries
  (`sse_queues`, `task_results`), each subscriber's FIFO queue and each job's progress. Each
  method is one uninterrupted run of a coroutine between two suspension points of the event
  loop. Every schedule the event loop can produce is a sequence of these calls, and each
  call's precondition states what the router guarantees when that run starts. A job's three
  runs come in order. A stream's generator starts only for a goal the 404 check accepted,
  and such a goal stays accepted from then on.
- `EventStream` holds the wire format of the frames. It also holds the receiving side's line
  processing, as sections 9.2.5 and 9.2.6 of the HTML Living Standard define it. With it the
  model proves what an EventSource dispatches for the frames written.
- `Decimal` holds `str(n)` for the count in "Generated N tasks", with its read-back.
- `Scenarios` holds whole schedules on a fresh registry: fan-out to two subscribers, a late
  join, and a resubmission.
- `Wrappers` and `Json` hold shared datatypes: `Option`, `Result` and decoded JSON values.

Several things are parameters rather than code:

- the network call is a function `remote: Request -> Reply`;
- `json.loads` is a `Decoder`;
- `json.dumps` is a `Dumps`;
- pydantic's UUID and bool coercions are `Coercions`;
- `str(e)` of a validation failure is `describe`;
- the prompt builder and planner system prompt of `prompts.py` are `Prompts`.

Some behaviours of the code are not what a reader of its endpoints' descriptions might
expect. The model follows the code:

- Resubmitting a goal that is already known overwrites its subscriber list with an empty
  one. Nothing rejects it as a conflict.
- `task_results` is never cleared. A stream opened after the job's cleanup is therefore
  still found and replayed, not refused with 404 (`Scenarios.LateJoin`).
- "Generated N tasks" counts every task of the updated plan, old ones included, not only the
  new ones.
- The replayed event is chosen by whether the stored dict has an `"error"` key.
- A failed element validation reports pydantic's message through `describe`. The index of
  the failing element is not added to the message.
- A `task_id` such as `"t1"` is not a UUID. `TaskContent` rejects it whenever the `uuid`
  coercion does.
- The "Empty response from LLM" error comes from an empty join. That happens with no text
  blocks, or with exactly one empty text block. Two empty text blocks join to `"\n"` and
  succeed.

## Model

| member | source | states |
|---|---|---|
| Schema.ValidateTask | Desktop/HTE-backend/app/schemas/plan.py:13-21 | a task validates iff the six required fields are present as strings (task_id coercing to a UUID) and `complete`, if given, coerces to bool; on success each field is the given value and an absent `complete` is false; end_at before start_at is not checked |
| Schema.ValidateTaskList | Desktop/HTE-backend/app/schemas/plan.py:27 | a task list validates iff every element does; the result has one task per element, in order |
| Schema.ValidateGoal | Desktop/HTE-backend/app/schemas/plan.py:5-10 | duration, current_situation and task are required strings; attachment_id absent or null gives None, a string gives that string, anything else fails |
| Schema.ValidatePlan | Desktop/HTE-backend/app/schemas/plan.py:23-27 | a plan validates iff user_id and goal_id coerce to UUIDs, goal_content is an object that validates, and tasks_content is absent or an array whose every element validates; an absent tasks_content defaults to the empty list, and a given one gives exactly its validated tasks, in order |
| Schema.ValidatedTaskCanonical | Desktop/HTE-backend/app/schemas/plan.py:15 | when the UUID coercion is idempotent on what it parses, a validated task's id is parsed back from its canonical text |
| Schema.ValidatedPlanCanonical | Desktop/HTE-backend/app/schemas/plan.py:23-27 | every UUID of a validated plan (user, goal and each task) is parsed back from its canonical text |
| Schema.ValidateTaskDump | Desktop/HTE-backend/app/schemas/plan.py:13-21 | the JSON dump of a task whose id is canonical validates back to the same task |
| Schema.ValidateTaskListDump | Desktop/HTE-backend/app/schemas/plan.py:27 | the JSON dump of a list of tasks with canonical ids validates back to the same list |
| Schema.ValidatePlanDump | Desktop/HTE-backend/app/routers/planner.py:44 | the dict of the `completed` event, `model_dump(mode='json')` of a plan whose UUIDs are canonical, validates as a `Plan` back to the same plan |
| Schema.ValidatePlanRoundTrip | Desktop/HTE-backend/app/schemas/plan.py:23-27 | any plan that validated from some dict dumps to a dict that validates back to it |
| Schema.Plan.constructor | Desktop/HTE-backend/app/schemas/plan.py:23-27 | the new object's dump is exactly the validated data |
| TaskOrder.StrLeTotalOrder | Desktop/HTE-backend/app/services/plan_service.py:56 | Python's `<=` on str is reflexive, total, antisymmetric and transitive, so sorting by start_at is well defined |
| TaskOrder.SortByStart | Desktop/HTE-backend/app/services/plan_service.py:56 | the sorted list is a permutation of the input with the same length |
| TaskOrder.SortByStartSorted | Desktop/HTE-backend/app/services/plan_service.py:56 | the result of the sort is non-decreasing by start_at |
| TaskOrder.SortByStartStable | Desktop/HTE-backend/app/services/plan_service.py:56 | the sort is stable: for every key, the tasks carrying it stay in their input order |
| TaskOrder.SortByStartUnique | Desktop/HTE-backend/app/services/plan_service.py:56 | any ordering that is sorted and keeps the per-key order is the sort's result, so sorted plus stable characterises `list.sort` |
| TaskOrder.SortExample | Desktop/HTE-backend/app/services/plan_service.py:56 | two tasks given as 2026-03-02 then 2026-03-01 come out in date order |
| TaskOrder.SortExampleTie | Desktop/HTE-backend/app/services/plan_service.py:56 | two tasks with the same start_at keep their given order |
| LlmService.SystemPrompt | Desktop/HTE-backend/app/services/llm_service.py:56 | the system prompt is never empty: a non-empty given prompt is used as is; None or "" gives "You are a helpful assistant." |
| LlmService.TextsOfSelects | Desktop/HTE-backend/app/services/llm_service.py:64-68 | a text is collected iff some block of the reply is a text block with that text; thinking and other blocks contribute nothing |
| LlmService.JoinEmpty | Desktop/HTE-backend/app/services/llm_service.py:71-74 | the joined text is empty iff there are no text parts or exactly one empty part |
| LlmService.SplitJoin | Desktop/HTE-backend/app/services/llm_service.py:71 | joining with "\n" loses nothing: splitting on "\n" gives back the parts when none contains a line feed |
| LlmService.Completion | Desktop/HTE-backend/app/services/llm_service.py:61-81 | the result is the "\n"-join of the text blocks, and it is non-empty; it succeeds iff the SDK returned content whose join is not empty; an API error becomes "MiniMax API error: " + message; an empty join and every other failure become "Failed to generate completion: " + message |
| LlmService.MiniMaxClient.GenerateCompletion | Desktop/HTE-backend/app/services/llm_service.py:17-81 | the method sends exactly the built request and returns what `Completion` gives for the reply |
| PlanService.Find | Desktop/HTE-backend/app/services/plan_service.py:37 | `find` gives -1 iff the character is absent, otherwise its first index |
| PlanService.RFind | Desktop/HTE-backend/app/services/plan_service.py:38 | `rfind` gives -1 iff the character is absent, otherwise its last index |
| PlanService.StripBoundsSpec | Desktop/HTE-backend/app/services/plan_service.py:34 | strip removes exactly the leading and trailing whitespace and keeps every non-whitespace character |
| PlanService.ExtractArrayNone | Desktop/HTE-backend/app/services/plan_service.py:34-43 | there is no candidate text iff the reply lacks a `[` or lacks a `]` |
| PlanService.StripKeepsBrackets | Desktop/HTE-backend/app/services/plan_service.py:34 | stripping keeps every bracket, so the check may be stated on the raw reply |
| PlanService.ExtractArrayBounds | Desktop/HTE-backend/app/services/plan_service.py:34-43 | the candidate text runs from the reply's first `[` through its last `]`; when the last `]` comes before the first `[`, it is the empty string |
| PlanService.ValidateAll | Desktop/HTE-backend/app/services/plan_service.py:47-50 | all elements are converted iff every one validates, one task per element in order; on failure the message describes the first invalid element |
| PlanService.ValidateTasks | Desktop/HTE-backend/app/services/plan_service.py:47-50 | the loop computes `ValidateAll`: it collects every task, or stops with the first failure |
| PlanService.ValidateAllFirstInvalid | Desktop/HTE-backend/app/services/plan_service.py:47-50 | when element i is the first invalid one, the failure is that element's message |
| PlanService.ValidateAllOk | Desktop/HTE-backend/app/services/plan_service.py:47-50 | when every element validates, the result is exactly the validated tasks |
| PlanService.ParseTasksErrors | Desktop/HTE-backend/app/services/plan_service.py:40-63 | a reply with no bracket pair fails with "Error processing plan: No JSON array found in LLM response"; a decode error fails with "Failed to parse LLM response as JSON: " + message, not wrapped again; otherwise parsing succeeds iff every element validates, and when element i is the first invalid one it fails with "Error processing plan: " + that element's message |
| PlanService.BracketsReversed | Desktop/HTE-backend/app/services/plan_service.py:37-44 | when the last `]` precedes the first `[`, the empty slice is decoded and the JSON error results |
| PlanService.ParseTasksSuccess | Desktop/HTE-backend/app/services/plan_service.py:43-50 | a successful parse holds one validated task per element of the array between the first `[` and the last `]`, in order |
| PlanService.GeneratePlanTasks | Desktop/HTE-backend/app/services/plan_service.py:8-63 | the completion is requested with the planner prompts and 4000 max tokens; its error propagates unchanged; a parse error is returned with the plan's tasks untouched; on success the same plan object is returned with its task list equal to the sort of old ++ new; ids and goal content never change |
| PlanService.MergedTasks | Desktop/HTE-backend/app/services/plan_service.py:53-56 | the merged list is a permutation of old ++ new, of length N+M, sorted by start_at, and for each key it holds the old tasks, then the new ones, in order |
| PlanService.ParsedTasksCanonical | Desktop/HTE-backend/app/services/plan_service.py:47-50 | every task of a successful parse was validated, so its id is parsed back from its canonical text |
| PlanService.MergedPlanReadsBack | Desktop/HTE-backend/app/services/plan_service.py:53-56 | merging canonical new tasks into a canonical plan gives a plan whose `completed` dict validates back to it |
| Decimal.ValueShow | Desktop/HTE-backend/app/routers/planner.py:40 | the decimal text of the count reads back as the count |
| Decimal.ShowInjective | Desktop/HTE-backend/app/routers/planner.py:40 | different counts give different texts |
| EventStream.ParseFrame | Desktop/HTE-backend/app/routers/planner.py:230 | an `event:`/`data:` frame is dispatched as one event with that name and data, and the receiver returns to its initial state |
| EventStream.ParseKeepalive | Desktop/HTE-backend/app/routers/planner.py:238 | a keepalive comment dispatches nothing and consumes nothing of what follows |
| EventStream.ParseRenderAll | Desktop/HTE-backend/app/routers/planner.py:210-238 | a stream of well-formed frames and keepalives is read back as exactly its frames' events, in order |
| Planner.FinishMessages | Desktop/HTE-backend/app/routers/planner.py:38-62 | after `plan()` the job sends one status then the terminal `completed` on success, or the terminal `error` alone on failure; the terminal message carries exactly the dict stored for late readers |
| Planner.Stored | Desktop/HTE-backend/app/routers/planner.py:54-65 | the stored dict has an "error" key iff the job failed |
| Planner.JobScript | Desktop/HTE-backend/app/routers/planner.py:20-65 | a job sends the start status first and exactly one terminal event, last, whose data is the stored result: `completed` on success (3 messages), `error` on failure (2) |
| Planner.ReplayMatchesJob | Desktop/HTE-backend/app/routers/planner.py:207-212 | the replay sends the same terminal event that the job sent live |
| Planner.GeneratedCount | Desktop/HTE-backend/app/routers/planner.py:40 | a reader that takes the number out of "Generated N tasks" gets the task count of the updated plan |
| Planner.GeneratedDistinct | Desktop/HTE-backend/app/routers/planner.py:40 | plans with different task counts announce different status messages |
| Planner.ReadBack | Desktop/HTE-backend/app/routers/planner.py:224-234 | the frames written for a message sequence are read back as one event per message, with the message's name and dumped data |
| Planner.ScriptReadBack | Desktop/HTE-backend/app/routers/planner.py:20-65 | a subscriber that follows a job from its start delivers every message of the script to the EventSource, in order |
| Planner.RemoveFirst | Desktop/HTE-backend/app/routers/planner.py:243 | `list.remove` shortens the list by one and keeps every other subscriber; in a list without duplicates the removed one is gone |
| Planner.DeliverNone | Desktop/HTE-backend/app/routers/planner.py:82-83 | a broadcast to a goal without a list changes no queue |
| Planner.DeliverTwice | Desktop/HTE-backend/app/routers/planner.py:38-51 | two broadcasts to the same list equal one broadcast of both messages in order |
| Planner.Registry.constructor | Desktop/HTE-backend/app/routers/planner.py:14-17 | both dictionaries start empty |
| Planner.Registry.Submit | Desktop/HTE-backend/app/routers/planner.py:113-124 | the goal's list is overwritten with an empty one and a job is created; the response is success, the literal message and the goal id as text; nothing else changes |
| Planner.Registry.Broadcast | Desktop/HTE-backend/app/routers/planner.py:74-87 | the message is appended to the queue of every subscriber listed for the goal, and to no other queue; nothing happens when the goal has no list |
| Planner.Registry.JobStart | Desktop/HTE-backend/app/routers/planner.py:28-32 | the start status is delivered to the goal's current subscribers |
| Planner.Registry.JobFinish | Desktop/HTE-backend/app/routers/planner.py:34-65 | the rest of the script is delivered to the current subscribers, and the result is stored for the goal, replacing any earlier one; a stored plan is always the plan of the goal it is stored for |
| Planner.Registry.JobCleanup | Desktop/HTE-backend/app/routers/planner.py:67-71 | the goal's subscriber list is removed, whoever it belongs to by then; the results are kept, so every goal found before is still found |
| Planner.UnsubscribedKeepsOthers | Desktop/HTE-backend/app/routers/planner.py:240-243 | a subscriber leaving keeps every goal's list and every other subscriber on its list |
| Planner.Registry.CheckStream | Desktop/HTE-backend/app/routers/planner.py:194-199 | a stream is refused with 404 and "Plan generation task for goal {id} not found" iff the goal has neither a subscriber list nor a stored result |
| Planner.Registry.Open | Desktop/HTE-backend/app/routers/planner.py:201-217 | for a goal the 404 check accepted: a goal with a stored result gets one frame, `error` or `completed`, whose plan is the goal's own, and nothing is registered; otherwise a fresh subscriber is created and is always on the goal's list; every accepted goal stays accepted |
| Planner.Registry.Next | Desktop/HTE-backend/app/routers/planner.py:219-243 | one resumption of a stream after its terminal frame ends it and detaches it; an empty queue writes a keepalive and consumes nothing; otherwise the oldest message is taken off and written, and a terminal one marks the stream as ending |
| Planner.Registry.Detach | Desktop/HTE-backend/app/routers/planner.py:240-243 | the subscriber is removed from its goal's list if still there, every other list entry is kept, and it is listed nowhere |
| Planner.Registry.Close | Desktop/HTE-backend/app/routers/planner.py:240-243 | a client that disconnects loses only its own queue and list entry: every other subscriber stays listed, its goal and closing mark are dropped, and nothing else changes; a client with no queue changes nothing |
| Scenarios.FanOut | Desktop/HTE-backend/app/routers/planner.py:74-87 | for a successful or a failed job, two subscribers that attach before it runs write the same frames, one per message of the job's script in its order (the start, count and plan frames on success), and both streams then end |
| Scenarios.LateJoin | Desktop/HTE-backend/app/routers/planner.py:194-213 | after the job and its cleanup the goal is still found, and a new stream gets just the terminal frame |
| Scenarios.Resubmit | Desktop/HTE-backend/app/routers/planner.py:115 | a subscriber of an earlier submission of the goal hears nothing from the new job, neither its start nor its terminal broadcast: after the new job finishes, its next two resumptions are both keepalives |

## Left out

- The Anthropic SDK, the network and the MiniMax service are outside the model. The reply comes from the `remote` parameter, and the `client` field of `MiniMaxClient` is that parameter.
- `json.loads`, `json.dumps`, `model_dump` and pydantic's UUID and bool coercions are library code. They are parameters (`Decoder`, `Dumps`, `Coercions`, `describe`), and the text they produce is not modelled.
- Schema.ValidatePlanDump: requires `ReadsBack`: the UUID coercion parses back from its canonical text every UUID it produced, and a JSON boolean coerces to itself. This is assumed of pydantic, not proved. Texts the coercion rejects, such as `"t1"`, are unconstrained.
- Planner.ReadBack: requires that `dumps` writes one line (`OneLine`). This is what `json.dumps` does with its default settings, but the model assumes it rather than proves it.
- `prompts.py` (the prompt text and planner system prompt) is the `Prompts` parameter. `config.py` settings (API key, URL, model name) are only the `model` of the client.
- Timing is not modelled. The 30-second wait of the stream is an empty-queue step of `Next`, and the one-second sleep is the gap between `JobFinish` and `JobCleanup`.
- FastAPI is not modelled: routing, request-body validation, the 202 status, the stream's response headers and the 500 handler of lines 126-130 of planner.py, which no modelled step can reach.
- Persistence, the database models and the other routers are not part of this model.
- The event-stream receiver handles only `event` and `data` fields. `id` and `retry`, the last-event-id buffer, reconnection and the byte-order mark are not modelled, since the server never writes them.
- Planner.RemoveFirst: states which subscribers remain, not the order of the remaining list.
- Stored results are never evicted, and a resubmission is never rejected as a conflict: the code has neither behaviour, so the model has neither.
- Planner.Registry.JobFinish: requires that a successful outcome keeps the submitted plan's user id, goal id and goal content. `plan()` returns the object it was given, and `PlanService.GeneratePlanTasks` proves that it keeps these fields.
