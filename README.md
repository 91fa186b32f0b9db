# create-task: a verified model of the task-creation handler

This project models the Supabase edge function `create-task`. The function records a
follow-up task against an existing application and announces it on the realtime channel
`tasks`. Each request goes through one pass that stops at the first failure:

1. The method gate answers a CORS preflight with `ok` and refuses every method except POST with 405.
2. The validation chain checks `related_id`, `task_type` and `due_at`, in that order.
3. The tenant lookup reads `applications.tenant_id` for the given `related_id`.
4. The insert writes one `tasks` row with `status: "open"` and the looked-up tenant.
5. The broadcast subscribes to `tasks`. Once the channel reports `SUBSCRIBED`, it sends
   `task.created` and removes the channel.
6. The response is 200 with the new `task_id`, or 500 from the catch block. The catch block
   also handles a throw while the channel is set up, after the row is already stored.

Modules:

- `Wrappers` (`wrappers.dfy`): `Option` and `Result`.
- `Validation` (`validation.dfy`): the validation chain as a pure function.
  - `Validate` returns the first violated rule, or the validated request.
  - Its contract specifies the result independently of the code. Each rule is a predicate
    (`Violates`) with a fixed rank (`Rank`). A failure is a violated rule with no violated
    rule ranked before it. Success happens exactly when no rule is violated.
- `TaskStore` (`task_store.dfy`): the state the handler changes through its database client.
  - The `tasks` rows.
  - A log of the client calls with effects: `Inserted`, `Subscribed`, `Sent`, `ChannelRemoved`.
  - The next id the store will assign.
  - The invariant `Inv`:
    - ids increase;
    - every task's tenant is the tenant of its application;
    - the inserts in the log are exactly the tasks;
    - every subscription directly follows an insert;
    - every send directly follows that subscription and announces the inserted row;
    - every channel removal directly follows a send.
- `CreateTask` (`create_task.dfy`): the handler.
  - `Step` is the handler as a function of the store, the applications table, the request
    and the collaborators' outcomes (`World`).
  - The lemmas state the per-branch behaviour, the trust boundary (only the three request
    fields matter, so a caller-supplied `tenant_id` is ignored), preservation of `Inv`
    over any sequence of requests (`Serve`), and the absence of deduplication.
  - `TaskService` is the client state as a class. It has one method per client call
    (`SelectTenant`, `Insert`, `Subscribe`, `Send`, `RemoveChannel`). `Handle` makes those
    calls in the source's order and is proved to end in the state and outcome `Step` gives.

Collaborators are parameters of the model:

- the date parser (`new Date(due_at)` is valid) is a total function `parse: string -> Option<int>`;
- the clock (`new Date()`) is the integer `now`;
- the database's answer to the insert is `Stored` or `Failed(message)`;
- the channel is `SetupThrows(message)`, `NeverSubscribed`, `SendThrows` or `SendCompleted`. `SendCompleted` means the send returned; the handler never reads its result, so it does not mean the message was delivered.

The handler's Promise has no timeout. So when the channel never reports `SUBSCRIBED`, or
when `send` throws, the handler never answers. The model calls this outcome `NoResponse`.
In that case the row stays stored. After a throwing send, the channel is never removed.

The model keeps these behaviours of the code as they are:

- The wait for `SUBSCRIBED` has no bound.
- When the send throws, the channel is not released.
- When the notification does not complete, there is no response at all. There is no success
  response that carries a warning.
- A 500 returns the thrown error's own `message`. It falls back to `Internal server error`
  only when that message is empty.
- A throw during channel setup gives a 500 even though the task is already stored.

## Model

| member | source | states |
|---|---|---|
| Validation.ParseTaskType | backend/supabase/functions/create-task/index.ts:51 | A task type is accepted exactly when it is one of `VALID_TYPES`, and the accepted type's name is the string given |
| Validation.TypeNameRoundTrip | backend/supabase/functions/create-task/index.ts:21 | Every modelled task type is listed in `VALID_TYPES` and its name parses back to it |
| Validation.InvalidTaskTypeText | backend/supabase/functions/create-task/index.ts:53 | The task-type error, built by joining `VALID_TYPES` with ", ", reads "Invalid task_type. Must be one of: call, email, review" |
| Validation.MessagesDistinct | backend/supabase/functions/create-task/index.ts:43-81 | The five validation rules are reported with five different messages |
| Validation.Validate | backend/supabase/functions/create-task/index.ts:43-81 | A failure is a rule the body violates, and no rule earlier in the order related_id, task_type, due_at present, due_at parses, due_at in the future is violated. Success happens iff no rule is violated, and then carries the body's own related_id (non-empty), task_type and due_at, with a parsed due time strictly after now |
| TaskStore.CreationEvents | backend/supabase/functions/create-task/index.ts:102-142 | The effects of one creation insert exactly that one row, and on their own already follow the channel order (subscribe after insert, send after subscribe announcing that row, remove after send) |
| TaskStore.CreatedPreservesInv | backend/supabase/functions/create-task/index.ts:84-112 | Inserting a row with the next id and its application's tenant, followed by its broadcast steps, keeps the store invariant (increasing ids, tenant match, log and table agree, channel protocol) |
| TaskStore.CreationKeepsProtocol | backend/supabase/functions/create-task/index.ts:121-142 | Appending one creation's events keeps the order: subscribe after insert, send after subscribe announcing that row, remove after send |
| TaskStore.SentAnnouncesStoredTask | backend/supabase/functions/create-task/index.ts:114-142 | In any state satisfying the invariant, every send went to `tasks` and announces a row inserted earlier in the log and held in the table |
| CreateTask.ErrorTextNeverEmpty | backend/supabase/functions/create-task/index.ts:43-156 | Every error response the handler gives (405, 400, 404 or 500) carries a non-empty message. For a 500 this holds through the "Internal server error" fallback |
| CreateTask.Step | backend/supabase/functions/create-task/index.ts:23-158 | The store changes iff the request is a valid POST whose application exists and whose insert succeeds. It then gains exactly one row with the next id and the application's tenant. A success body appears iff, in addition, the subscription reports SUBSCRIBED and the send returns, and it is a 200 naming the new row's id. No response appears iff the row is stored and the channel never reports SUBSCRIBED or the send throws. A throw during channel setup after the insert gives 500 with the caught message |
| CreateTask.OptionsAnsweredFirst | backend/supabase/functions/create-task/index.ts:25-27 | OPTIONS gets 200 "ok" whatever the body, and changes nothing |
| CreateTask.OtherMethodsRejected | backend/supabase/functions/create-task/index.ts:29-34 | Any method other than OPTIONS and POST gets 405 "Method not allowed" before the body is read, and changes nothing |
| CreateTask.UnparsableBodyCaught | backend/supabase/functions/create-task/index.ts:36-37 | A body that `req.json()` rejects gets 500 with the caught message, and changes nothing |
| CreateTask.RelatedIdCheckedFirst | backend/supabase/functions/create-task/index.ts:43-48 | A missing or empty related_id gets 400 "related_id is required" whatever task_type and due_at are, and writes nothing |
| CreateTask.TaskTypeChecked | backend/supabase/functions/create-task/index.ts:51-56 | With related_id present, a missing task_type or one outside call/email/review gets 400 "Invalid task_type. Must be one of: call, email, review", and writes nothing |
| CreateTask.DueAtChecked | backend/supabase/functions/create-task/index.ts:59-81 | With the first two fields valid: a missing or empty due_at gets 400 "due_at is required"; an unparseable one gets 400 "due_at must be a valid ISO date string"; one at or before now gets 400 "due_at must be a future date". None of these writes anything |
| CreateTask.ValidationFailureWritesNothing | backend/supabase/functions/create-task/index.ts:43-81 | Every validation failure is a 400 with that rule's message, and the store and log are unchanged |
| CreateTask.UnresolvedApplication | backend/supabase/functions/create-task/index.ts:87-98 | A valid request whose related_id has no application gets 404 "Application (related_id) not found", and writes nothing |
| CreateTask.InsertFailure | backend/supabase/functions/create-task/index.ts:114-117 | A failed insert gets 500 with the database's message; nothing is stored and no channel is subscribed or sent on |
| CreateTask.SuccessfulInsert | backend/supabase/functions/create-task/index.ts:102-112 | An accepted request appends exactly one row and keeps the earlier rows. The row carries the request's related_id, task_type and due_at, the application's tenant_id, the next id and status open. The log gains the insert, followed by the subscription to `tasks` unless the channel setup threw |
| CreateTask.ChannelSetupFailure | backend/supabase/functions/create-task/index.ts:121-156 | If creating or subscribing to the channel throws, the response is 500 with the caught message. The row is still stored, and the log gains only the insert: nothing is subscribed or sent |
| CreateTask.BroadcastAndSuccess | backend/supabase/functions/create-task/index.ts:121-149 | When the subscription is confirmed and the send completes, the log gains, in order: the insert, the subscription, one `task.created` send on `tasks` with the new id and the request's fields, and one channel removal. The response is 200 with that same id |
| CreateTask.BroadcastNotCompleted | backend/supabase/functions/create-task/index.ts:125-142 | Without SUBSCRIBED nothing is sent. When the send throws, the channel is never removed. In both cases no response is produced and the row stays stored |
| CreateTask.OnlyRequestFieldsMatter | backend/supabase/functions/create-task/index.ts:37-38 | Two bodies that agree on related_id, task_type and due_at produce the same response and the same new state |
| CreateTask.CallerTenantIgnored | backend/supabase/functions/create-task/index.ts:84-108 | Adding a caller-chosen tenant_id to the body changes neither the response nor the stored row |
| CreateTask.StepPreservesInv | backend/supabase/functions/create-task/index.ts:84-142 | Every request keeps the store invariant, including "each task's tenant is its application's tenant" |
| CreateTask.ServePreservesInv | backend/supabase/functions/create-task/index.ts:23-158 | The invariant holds after any sequence of requests |
| CreateTask.RepeatedRequestNotDeduplicated | backend/supabase/functions/create-task/index.ts:102-112 | The same accepted request sent twice, at any two instants and with any collaborator outcomes that let both inserts succeed, creates two rows. They have distinct ids and otherwise equal fields |
| CreateTask.TaskService.constructor | backend/supabase/functions/create-task/index.ts:7 | A fresh client state over a given applications table has no tasks and an empty log, and satisfies the invariant |
| CreateTask.TaskService.SelectTenant | backend/supabase/functions/create-task/index.ts:87-91 | The lookup finds a tenant iff the id has an application, and that tenant is the application's |
| CreateTask.TaskService.Insert | backend/supabase/functions/create-task/index.ts:102-112 | A stored insert appends the row with the next id and status open, logs it and returns it. A failed one returns the message and changes nothing |
| CreateTask.TaskService.Subscribe | backend/supabase/functions/create-task/index.ts:126 | Subscribing logs a subscription to the channel and changes nothing else |
| CreateTask.TaskService.Send | backend/supabase/functions/create-task/index.ts:128-137 | Sending logs the message on the channel and changes nothing else |
| CreateTask.TaskService.RemoveChannel | backend/supabase/functions/create-task/index.ts:138 | Removing the channel logs the removal and changes nothing else |
| CreateTask.TaskService.Handle | backend/supabase/functions/create-task/index.ts:23-158 | Making the client calls in the handler's order ends in exactly the outcome and state `Step` specifies, and keeps the invariant |

## Left out

- CORS headers, the `Content-Type` header and the JSON serialisation of responses: a response is modelled as a status and a typed body.
- `Deno.env`, `createClient` and `serve`: the client is the `TaskService` state. The applications table is a constant map, because the handler only reads it.
- Request bodies that are JSON but not objects (such as `null`, where destructuring throws), and JSON members that are not strings: the body is a map from keys to strings. A body on which destructuring throws can be given as `Unparsable` with the thrown message.
- Date parsing and the wall clock: `new Date(due_at)` and `isNaN(getTime())` are the abstract `parse`, and `new Date()` is `now`, in whole milliseconds.
- Store-assigned ids are a counter (`nextId`), not the store's string ids. This gives the uniqueness a primary key provides.
- Errors of the tenant lookup other than "no row": the source answers every lookup error with 404. The model has only "the id is absent from the table", which gives the same 404.
- The subscription callback's intermediate statuses (`CHANNEL_ERROR`, `TIMED_OUT`, `CLOSED`) are ignored by the source. They are covered by `NeverSubscribed`, or precede one of the other outcomes.
- `removeChannel` is not awaited in the source. The model records it as done before the 200 response.
- Server-side logging (`console.error`).
- Concurrency between simultaneous requests: requests are handled one after another (`Serve`).
- The dashboard page (`frontend/pages/dashboard/today.tsx`): its query, its optimistic `markComplete` update and the `completed` status it sets. `Status.Completed` exists in the data model but this core never produces it.
