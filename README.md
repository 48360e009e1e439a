# Credit-engine worker: message pipeline model

A Dafny model of the per-message core of a background worker that takes
credit-evaluation requests off a RabbitMQ queue. For each delivery it decodes the
JSON body into a `QueueMessage`. It then validates the request against the
originating system's analysis request, fetches the credit-policy rules and submits
the request to the decision engine. Along the way it appends entries to the
request's status trail, persists the updated request through the REST gateway, and
acks or nacks the delivery. The model also covers the consumer's connection flags:
start, stop, the connectivity test and dispose.

Modules, one per source file or component:

- `Wrappers` (`wrappers.dfy`): `Option` for C# nullable values, and `Result` for a
  call that returns or throws.
- `QueueMessages` (`queue_message.dfy`): the status entry (a value: the core never
  mutates an entry once built) and its three-argument constructor. Also the
  `QueueMessage` class, whose trail and finish time are updated in place, and the
  counting of entries by status id.
- `Api` (`api.dfy`): the four gateway operations of `IApiService`, supplied from
  outside as functions, and the records they exchange.
- `CreditEngine` (`credit_engine.dfy`): the validator, which is a function. Also the
  processor: an imperative method on a `QueueMessage`, proved against the pure
  functions `Pipeline` (the decisions) and `ProcessOutcome` (the resulting request).
- `RabbitMQ` (`rabbitmq.dfy`): the per-delivery ack/nack decision `HandleDelivery`,
  and the `RabbitMQService` class. The class has connection, channel, consumer and
  disposed flags. Every broker call it completes is recorded in a log, `ops`.

Gateway replies are `Found`, `NotFound` or `Fault`. `ApiService.SendToApi` turns
every transport error, timeout and non-2xx status into an empty body. An empty body,
or a JSON `null`, becomes a null result (`NotFound`). But the
`JsonConvert.DeserializeObject` calls in `ApiService.cs` (lines 46, 57, 68, 79) sit
outside any `try`. So a non-empty 2xx body that does not deserialize makes the
gateway call throw (`Fault`).

Where the code departs from the documented design, the model follows the code:

- A body that is not JSON makes `JsonSerializer.Deserialize` throw. The delivery is
  nacked without requeue, not acked. Only a literal JSON `null` is acked unprocessed.
- A persist that fails over HTTP returns null and does not throw, so the delivery is
  still acked. Only a persist whose reply body does not deserialize leads to a nack.
- The "missing source id" failure after the rules lookup can never happen. Casting a
  null `AnalysisRequestId` throws inside the validator, which then answers
  `VALIDATION_ERROR`. So a valid verdict implies the id is present. The processor
  asserts this at the point of the dead check.
- `UseOnlyInternalData` is always the rules record's own flag. `UseOnInternalData` is
  a non-nullable `bool`, so the default `false` in the code is never taken.
- The processor can throw. A JSON `null` for `CreditEngineStatus` leaves the list
  null. The first `Add` throws, the handler's own `Add` throws again, and the
  exception escapes. The delivery is then nacked.
- `StopConsumingAsync` shares one `try` between both closes. If closing the channel
  throws, the connection is not closed.

## Model

| member | source | states |
|---|---|---|
| `QueueMessages.NewStatusEntry` | CreditEngineWorker/Models/QueueMessage.cs:75-84 | the message, status id and sender id are stored unchanged; the entry is active (`Status` true); `Id` keeps 0; `Data`, `CreatedAt` and `UpdatedAt` are the construction instant |
| `QueueMessages.CountStatusAppend` | CreditEngineWorker/Models/QueueMessage.cs:34-35 | counting trail entries by status id distributes over appending to the trail (the list only grows at its end) |
| `QueueMessages.QueueMessage.constructor` | CreditEngineWorker/Models/QueueMessage.cs:5-49 | a new message has an empty status trail, the name `""`, every nullable id and timestamp null, `Id` 0 |
| `QueueMessages.QueueMessage.FromView` | CreditEngineWorker/Models/QueueMessage.cs:7-47 | a deserialized message holds exactly the decoded property values (mandatory `Id`, optional policy, analysis, rule, user and group ids) |
| `QueueMessages.QueueMessage.AddStatus` | CreditEngineWorker/Models/QueueMessage.cs:34-35 | `Add` puts the entry at the end of the trail and changes nothing else; on a null list it throws and changes nothing |
| `CreditEngine.ValidateCreditRequest` | CreditEngineWorker/Services/CreditEngineService.cs:88-119 | never throws; valid iff the record exists with a non-empty document and an 11-character document has an individual policy id and a 14-character one a corporate id; valid implies `AnalysisRequestId` present; each code's exact condition, with first-failure-wins order (record absent, document empty, 11 without PF id, 14 without corporate id); a null id cast or a throwing read gives `VALIDATION_ERROR` with the exception's message; other lengths pass |
| `CreditEngine.BuildSubmission` | CreditEngineWorker/Services/CreditEngineService.cs:55-65 | the decision-engine body: `RequestId` is the one-element list of the analysis id, `SearchedItem` is `ReportId ?? 0`, both policy ids are copied from the request, `UseOnlyInternalData` is the rules' flag, and user name, password and features are null |
| `CreditEngine.Pipeline` | CreditEngineWorker/Services/CreditEngineService.cs:27-76 | the terminal status is Failed or Completed, Completed iff valid, rules found, source id present and engine answered; an invalid verdict ends with the validator's message and no rules read or submission; a null rule id ends Failed with the cast's message and no further call; a missing rules record ends Failed with no submission; calls come in the order source read, rules read, submission; the submission carries `[AnalysisRequestId]`, `ReportId ?? 0`, both policy ids, the rules' internal-data flag and null credentials and features |
| `CreditEngine.ProcessOutcome` | CreditEngineWorker/Services/CreditEngineService.cs:18-86 | with a trail: exactly two entries appended, Started first and then the run's terminal entry; prior entries unchanged; every appended entry has sender `request.Id` and is active; `TaskFinishedAt` becomes `now` iff the run completes and is unchanged otherwise; nothing else changes; with a null trail: throws |
| `CreditEngine.CallsMade` | CreditEngineWorker/Services/CreditEngineService.cs:18-86 | the processor never calls persist, and makes no gateway call when its first `Add` throws |
| `CreditEngine.ProcessAddsOneStartedOneTerminal` | CreditEngineWorker/Services/CreditEngineService.cs:22-85 | each run adds exactly one Started entry and exactly one terminal (Failed or Completed) entry to the trail's counts |
| `CreditEngine.ProcessCreditRequest` | CreditEngineWorker/Services/CreditEngineService.cs:18-86 | the request object is updated in place to `ProcessOutcome` of its old value, and the same object is returned; with a null trail the exception escapes and nothing changes; the gateway calls are `CallsMade` |
| `CreditEngine.IndividualWithoutPolicyIsRejected` | CreditEngineWorker/Services/CreditEngineService.cs:103-106 | an 11-digit document without an individual policy id is rejected with `CREDIT_POLICY_PF_ID_REQUIRED`; only the source read is made |
| `CreditEngine.CorporateRequestCompletes` | CreditEngineWorker/Services/CreditEngineService.cs:55-76 | a 14-digit document with a corporate id, rules with report 99 and an answering engine: the run completes, `TaskFinishedAt` is set, and the submission's searched item is 99 |
| `RabbitMQ.HandleDelivery` | CreditEngineWorker/Services/RabbitMQService.cs:195-225 | exactly one ack or nack, always with the delivery's own tag and `multiple=false`; a nack never requeues; ack iff the body is JSON `null`, or it decodes and processing returns and persist does not throw (a null persist result still acks); a non-JSON body is nacked; JSON `null` and bad bodies make no gateway call; a decoded message with a trail: the processor's calls, then one persist with the processed request; a decoded message with a null trail: no gateway call, nack |
| `RabbitMQ.Settlements` | CreditEngineWorker/Services/RabbitMQService.cs:174-225 | over a stream of deliveries, one settlement per delivery, in delivery order, each with that delivery's tag, none requeued |
| `RabbitMQ.StepsDone` | CreditEngineWorker/Services/RabbitMQService.cs:34-49 | the start sequence completes all four broker calls iff no step throws |
| `RabbitMQ.RabbitMQService.constructor` | CreditEngineWorker/Services/RabbitMQService.cs:17-32 | a new service has no connection, channel or consumer and is not disposed |
| `RabbitMQ.RabbitMQService.IsConnected` | CreditEngineWorker/Services/RabbitMQService.cs:100-103 | connected means both connection and channel exist and are open |
| `RabbitMQ.RabbitMQService.OnChannel` | CreditEngineWorker/Services/RabbitMQService.cs:211-223 | a `_channel?.` call reaches the broker only when a channel exists |
| `RabbitMQ.RabbitMQService.StartConsuming` | CreditEngineWorker/Services/RabbitMQService.cs:34-49 | connect, open the channel, declare the queue (durable, not exclusive, not auto-delete), register the consumer with `autoAck=false`, in that order; a failing step ends the start and is reported to the caller, with the earlier steps in effect; a start that succeeds leaves the service connected |
| `RabbitMQ.RabbitMQService.StopConsuming` | CreditEngineWorker/Services/RabbitMQService.cs:51-71 | closes the channel only if open, then the connection only if open; never reports an exception; a throwing channel close skips the connection; with no failing close the service is no longer connected |
| `RabbitMQ.RabbitMQService.ProcessMessage` | CreditEngineWorker/Services/RabbitMQService.cs:195-225 | the settlement chosen by `HandleDelivery` is sent on the channel when one exists; the gateway calls are those it lists; the connection flags do not change |
| `RabbitMQ.RabbitMQService.Dispose` | CreditEngineWorker/Services/RabbitMQService.cs:227-237 | idempotent: once disposed, a call changes nothing; the first call that returns closes then disposes the existing channel and connection, in that order, and sets `_disposed`; a throwing close escapes before `_disposed` is set: a throwing channel close changes nothing, a throwing connection close leaves the channel closed (and logged) and the connection as it was; the consumer flag never changes |

## Left out

- Logging, everywhere. Log calls have no effect on the state that is modelled.
- The clock: each call takes one instant `now`. All readings of `DateTime.UtcNow`
  within one call (three per status entry, one for `TaskFinishedAt`) are taken to be
  that instant.
- The health-check and reconnect loop in `Worker.cs`. It is driven by `Task.Delay`
  timers and a host cancellation token: timing and concurrency, not state logic. The
  operations it calls (`IsConnectedAsync`, `StopConsumingAsync`,
  `StartConsumingAsync`) are modelled.
- `Program.cs`: hosting, dependency injection and Serilog setup.
- HTTP wiring, URL building and JSON encoding in `ApiService.cs`. The gateway is four
  functions given as input. Each function's answers are fixed, so the model does not
  capture a remote system that changes between calls.
- `PublishMessageAsync`. The pipeline does not call it, and it only forwards to the
  broker client.
- `ConnectAsync`, `SetupQueueAsync` and the broker client itself. Connection
  settings, `AutomaticRecoveryEnabled` (the client may reopen a connection on its
  own) and the client's internal behaviour are not modelled. Whether a broker call
  throws is an input. A close that throws is taken to leave its handle as it was.
  `Dispose` on a handle is taken never to throw.
- `BasicAck` and `BasicNack` that throw (for example on a closed channel) are not
  modelled: `OnChannel` always completes. In the code, a throwing ack would lead to a
  nack, and a throwing nack would escape the callback.
- The read of `ea.BasicProperties.CorrelationId` before the `try` is not modelled.
  It is used only for logging. It would throw outside the handler if the client ever
  supplied no properties.
- Concurrency between consumer callbacks. Deliveries are handled one after another.
- Decimal amounts (`MinCreditAmount`, `MaxCreditAmount`, `RequestedAmount`,
  `CreditLimit`) and the other DTO fields the core never reads.
- Integer widths. Ids (`long`) and delivery tags (`ulong`) are unbounded integers.
  No arithmetic is done on them, so wrap-around cannot arise.
- Document length counts Unicode scalar values. C# counts UTF-16 code units. The two
  differ only for characters outside the Basic Multilingual Plane, which a document
  number does not contain.
- RabbitMQ.RabbitMQService.IsConnected: its `ensures` gives only the direction
  "connected implies both handles exist". The full "iff both are open" is its
  definition, which the other members' contracts use.
