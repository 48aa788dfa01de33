# Consumer worker and to-do API, modelled in Dafny

The `background_service` project has two parts, and this model covers the core of each.

The first part is the `ConsumerWorker` hosted service. It:
- connects to a local RabbitMQ broker;
- declares the queue `hello`;
- consumes it with manual acknowledgement;
- runs a `Received` handler on each delivery. The handler decodes the JSON body into `MessageData`. It rejects a `null` payload without requeue. It acknowledges a payload once the stand-in processing step completes, and rejects it with requeue when anything throws.
- tears the channel and the connection down in `Dispose`.

The second part is a small web API. `TodoItemsController` keeps a table of to-do items keyed by id. `AuthController.Login` accepts a single pair of credentials.

The model has six modules:

- `Envelope` holds the payload `MessageData`. It also holds the three ways decoding a body can end: `null`, an object, or an exception.
- `Broker` is the broker as the worker sees it:
  - the queue, head first;
  - the deliveries pushed to the consumer and not yet resolved;
  - a ledger recording what became of every delivery tag;
  - the messages acknowledged, dropped, or lost with a deleted queue.

  Each broker transition is a function. A lemma beside it shows that it keeps the invariant `Inv`: tags are consistent with the outstanding deliveries, and every message published is in exactly one place.
- `AckPolicy` is the handler's decision as pure functions:
  - the call the try block makes (`TryCall`);
  - every call the handler makes (`HandlerCalls`);
  - the calls that reach the broker (`Reached`);
  - the broker's resulting state (`HandlerEffect`).

  Lemmas beside them state the per-delivery policy and show that a poison message is requeued forever.
- `Consumer` is the class `ConsumerWorker`. Its fields are the connection and the channel (`Null`, `Open` or `Closed`), the broker state, and the list of client calls made so far (`ops`). Its methods are the constructor with `InitializeRabbitMQ`, the start of `ExecuteAsync`, the `Received` handler, and `Dispose`. Exceptions thrown by client calls are parameters:
  - `InitFailure`: which initialisation call throws;
  - `ChannelFault`: whether the handler's ack or reject is lost before the broker or throws after reaching it;
  - `failing`: which teardown step throws.
- `TodoItems` is the class `TodoItemsController`. The database context is reduced to its table, a map from key to item. There is one method per action, and each answers with the action result the controller returns.
- `Auth` holds `is_valid_user` and `Login`. The token that `generate_token` would sign is a parameter.

Behaviours of the code that the model makes explicit:

- A body that is malformed JSON, or that lacks a `required` member, makes `JsonSerializer.Deserialize` throw. That lands in the catch block, so the message is requeued, not dropped. Only a body that decodes to `null` is rejected without requeue (`FailureRequeued`, `NullPayloadDropped`).
- There is no attempt counter. A message whose handling always fails goes back to the head of the queue on every delivery, forever (`PoisonRounds`). That covers a body that can never be decoded. It also covers a decodable body whose processing keeps throwing or being cancelled, as when the stopping token is already cancelled.
- An ack or reject can throw after the broker has received it. The catch block then rejects the same tag a second time. The broker no longer knows that tag, so it closes the channel (a PRECONDITION_FAILED channel error). That cancels the consumer and returns every other outstanding delivery to the queue (`DoubleResolutionClosesChannel`, `Received`).
- `Dispose` deletes the queue before it closes the channel. Deliveries still outstanding at that point are therefore lost with the queue instead of being returned to it (`CleanDisposeReleasesAll`).

## Model

| member | source | states |
|---|---|---|
| Broker.Declare | background_service/ConsumerWorker.cs:42-46 | declaring the queue makes it exist; declaring an existing queue changes nothing; waiting and outstanding messages, ledger and consumer are untouched |
| Broker.DeclareKeepsInv | background_service/ConsumerWorker.cs:42-46 | declaring the queue keeps the broker invariant |
| Broker.Consume | background_service/ConsumerWorker.cs:94 | `BasicConsume` registers the consumer with the given auto-acknowledge flag and changes no message or tag |
| Broker.ConsumeKeepsInv | background_service/ConsumerWorker.cs:94 | registering the consumer keeps the broker invariant |
| Broker.NextTagUnused | background_service/ConsumerWorker.cs:94 | the tag of the next delivery has never been issued on the channel: no ledger entry has it and no outstanding delivery carries it |
| Broker.Deliver | background_service/ConsumerWorker.cs:94 | with manual acknowledgement a delivery only moves the head message to the outstanding deliveries under a fresh Pending tag, and nothing is acknowledged or dropped; only an auto-acknowledging consumer would remove it on delivery |
| Broker.DeliverKeepsInv | background_service/ConsumerWorker.cs:94 | a delivery keeps the broker invariant, so no message is lost or duplicated |
| Broker.StatusAfter | background_service/ConsumerWorker.cs:80 | an ack or reject always gives a terminal status, and `Acked` exactly for an ack |
| Broker.Settle | background_service/ConsumerWorker.cs:80 | settling an outstanding tag gives that tag its terminal status and leaves every other tag's status, the tag counter, the queue's existence and the consumer alone |
| Broker.SettleKeepsInv | background_service/ConsumerWorker.cs:80 | settling keeps the invariant, and the settled tag is no longer outstanding while every other tag still is |
| Broker.SettleMovesMessage | background_service/ConsumerWorker.cs:87 | an ack removes the message for good, a reject without requeue drops it, and a reject with requeue puts it back at the head of the queue (or loses it if the queue is gone); the other outstanding deliveries keep their order |
| Broker.OutstandingIsUnacked | background_service/ConsumerWorker.cs:80 | while the invariant holds, the broker finds a tag among its unacknowledged deliveries exactly when the ledger has it Pending |
| Broker.ResolveKeepsInv | background_service/ConsumerWorker.cs:80 | any resolution call keeps the invariant, whether it settles a delivery or is a channel error |
| Broker.Resolve | background_service/ConsumerWorker.cs:80 | the broker's answer to an ack or reject: for a tag among its unacknowledged deliveries, that tag gets the call's terminal status and the consumer stays; for any other tag (already resolved, never issued) it is a channel error: every pending tag is returned, nothing is left outstanding, the consumer is cancelled and nothing is acknowledged or dropped; no tag is used up either way |
| Broker.ApplyAll | background_service/ConsumerWorker.cs:60-89 | a series of resolution calls uses no new tag, leaves the queue's existence alone, and either keeps the consumer or cancels it |
| Broker.ApplyAllKeepsInv | background_service/ConsumerWorker.cs:60-89 | any series of resolution calls keeps the invariant |
| Broker.ChannelClosed | background_service/ConsumerWorker.cs:109 | closing the channel cancels the consumer and leaves nothing outstanding; every pending tag is recorded as returned; the outstanding messages go back to the head of the queue in delivery order, or are lost if the queue is gone |
| Broker.ClosedKeepsInv | background_service/ConsumerWorker.cs:109 | closing the channel keeps every message accounted for |
| Broker.QueueDelete | background_service/ConsumerWorker.cs:106 | deleting the queue loses its waiting messages, cancels its consumer and leaves outstanding deliveries and the ledger alone |
| Broker.QueueDeleteKeepsInv | background_service/ConsumerWorker.cs:106 | deleting the queue keeps the invariant |
| AckPolicy.TryCall | background_service/ConsumerWorker.cs:66-80 | the try block rejects without requeue exactly for a `null` payload and acknowledges exactly a decoded payload whose processing completes, always under the delivery's own tag |
| AckPolicy.HandlerCalls | background_service/ConsumerWorker.cs:60-89 | the handler makes one or two calls, all under the delivery's tag; an ack exactly when the payload decoded and processing completed; a reject without requeue exactly for `null`; a second call exactly when the try block's own call threw; and it ends with a reject with requeue exactly when something threw |
| AckPolicy.Reached | background_service/ConsumerWorker.cs:60-89 | two calls reach the broker exactly when the try block's call reached it and still threw; otherwise one; all under the delivery's tag |
| AckPolicy.ReachedOfIssued | background_service/ConsumerWorker.cs:82-88 | the calls reaching the broker are the calls made, less a try-block call lost before the broker |
| AckPolicy.HandlerKeepsInv | background_service/ConsumerWorker.cs:60-89 | the handler's effect on the broker keeps the invariant |
| AckPolicy.HandlerEffect | background_service/ConsumerWorker.cs:60-89 | the handler's effect on the broker uses up no tag, leaves the queue as declared, and keeps the consumer unless a channel error cancelled it |
| AckPolicy.DeliveredIsOutstanding | background_service/ConsumerWorker.cs:94 | a delivery handed to the handler is Pending in the ledger under its tag and carries the message the broker holds for it |
| AckPolicy.NullPayloadDropped | background_service/ConsumerWorker.cs:66-73 | a `null` payload is rejected once without requeue, processing never runs and its outcome makes no difference, no ack is issued, and the message is dropped |
| AckPolicy.CompletedAckedOnce | background_service/ConsumerWorker.cs:76-80 | a decoded payload whose processing completes gets exactly one ack under its own tag, and its message leaves the broker as acknowledged |
| AckPolicy.FailureRequeued | background_service/ConsumerWorker.cs:82-88 | a decode that throws, or processing that throws or is cancelled, leads to exactly one reject with requeue under the tag, whatever the channel does, and the message goes back to the head of the queue |
| AckPolicy.ExactlyOneResolution | background_service/ConsumerWorker.cs:60-89 | unless the try block's call throws after reaching the broker, one call reaches it; the handled tag moves from Pending to a terminal status, and every other tag keeps its status |
| AckPolicy.SettledBySingleCall | background_service/ConsumerWorker.cs:60-89 | when a single call reaches the broker, the handler's effect is that call settling the delivery |
| AckPolicy.DoubleResolutionClosesChannel | background_service/ConsumerWorker.cs:80-87 | when the ack or reject reaches the broker and still throws, the catch block's reject follows; the broker closes the channel, leaving the first call's status for the tag, returning every other pending delivery and cancelling the consumer |
| AckPolicy.ResolvedTwice | background_service/ConsumerWorker.cs:82-88 | on that path both the try block's call and the catch block's reject reach the broker, in that order |
| AckPolicy.SecondResolutionCloses | background_service/ConsumerWorker.cs:87 | any second resolution of a tag that the first call settled is a channel error |
| AckPolicy.RoundKeepsInv | background_service/ConsumerWorker.cs:94 | a delivery followed by the handler keeps the invariant |
| AckPolicy.RoundRequeues | background_service/ConsumerWorker.cs:82-88 | in a round with a poison message at the head, the handler's only call requeues the fresh delivery |
| AckPolicy.PoisonRoundQueue | background_service/ConsumerWorker.cs:82-88 | after such a round, the queue and the outstanding deliveries are exactly as before |
| AckPolicy.PoisonRoundLedger | background_service/ConsumerWorker.cs:82-88 | after such a round, the round's fresh tag is rejected with requeue and no other tag changes |
| AckPolicy.PoisonRoundSinks | background_service/ConsumerWorker.cs:82-88 | in such a round, nothing is acknowledged, dropped or lost |
| AckPolicy.PoisonRound | background_service/ConsumerWorker.cs:84 | one round with a message at the head whose handling always fails (it never decodes, or its processing throws or is cancelled) returns the broker to where it was, except that one more tag was used and ended rejected with requeue |
| AckPolicy.RequeuedRunEntries | background_service/ConsumerWorker.cs:84 | the ledger after a run of requeues holds exactly the old tags and the run's tags, each tag of the run rejected with requeue, and every old entry unchanged |
| AckPolicy.PoisonRounds | background_service/ConsumerWorker.cs:84 | with no attempt bound, a message whose handling always fails (it never decodes, or it decodes and processing keeps throwing or being cancelled) stays at the head of the queue after any number of rounds, with the consumer still registered; nothing is acknowledged, dropped or lost; only tags are used up |
| Consumer.Plan | background_service/ConsumerWorker.cs:103-118 | the channel steps are planned only when the channel is open and the connection steps only when the connection is open: three steps for an open channel, two for an open connection |
| Consumer.PlanOrder | background_service/ConsumerWorker.cs:103-118 | every channel step precedes every connection step, the queue is deleted before the channel closes, and each group is planned exactly when its object is open |
| Consumer.AttemptedStopsAtFailure | background_service/ConsumerWorker.cs:101-123 | the teardown steps started are a prefix of the plan: all of it when nothing throws, otherwise up to the throwing step, which is started once and last |
| Consumer.EffectiveBeforeFailure | background_service/ConsumerWorker.cs:101-123 | the steps that take effect are the started steps less the throwing one |
| Consumer.ChannelFailureSkipsConnection | background_service/ConsumerWorker.cs:101-123 | a throwing channel step means that no connection step is even started |
| Consumer.StepKeepsCoherent | background_service/ConsumerWorker.cs:106-117 | no single teardown step leaves the worker incoherent |
| Consumer.TeardownKeepsCoherent | background_service/ConsumerWorker.cs:101-119 | no series of teardown steps leaves the worker incoherent |
| Consumer.CleanDisposeReleasesAll | background_service/ConsumerWorker.cs:103-118 | a `Dispose` in which nothing throws leaves neither the channel nor the connection open; with an open channel the queue is gone, the waiting and the outstanding messages are lost with it, and nothing is acknowledged or dropped; with no open channel the broker is untouched |
| Consumer.CleanConnectionSteps | background_service/ConsumerWorker.cs:113-118 | the connection steps close the connection and leave the broker alone |
| Consumer.SecondDisposeIsNoop | background_service/ConsumerWorker.cs:99-128 | once neither object is open, `Dispose` starts no step and changes nothing, so it cannot throw |
| Consumer.HandlerPhases | background_service/ConsumerWorker.cs:62-88 | the handler's effect is its try block's call, when that reaches the broker, then the catch block's reject when something threw; the try block's call always finds the delivery outstanding |
| Consumer.HandlerKeepsCoherent | background_service/ConsumerWorker.cs:60-89 | the handler leaves the worker coherent; the channel stays open unless two calls reached the broker |
| Consumer.HandlerOps | background_service/ConsumerWorker.cs:60-89 | the handler's client calls are the try block's call, if any, followed by the catch block's reject, if anything threw |
| Consumer.DeliverKeepsCoherent | background_service/ConsumerWorker.cs:94 | a delivery to the open channel keeps the worker coherent |
| Consumer.ConsumerWorker.constructor | background_service/ConsumerWorker.cs:23-28 | construction, starting from a new channel with no consumer and no tag issued on it, runs `InitializeRabbitMQ`: the calls made, the connection and channel states and the broker are those `InitializeRabbitMQ` leaves, and the worker is valid |
| Consumer.ConsumerWorker.InitializeRabbitMQ | background_service/ConsumerWorker.cs:30-47 | connects to 127.0.0.1:5672, then opens a channel, then declares `hello` non-durable, non-exclusive and not auto-deleted; the calls made are the prefix up to the one that throws; the connection and channel states and the broker are those each stopping point leaves |
| Consumer.ConsumerWorker.ExecuteAsync | background_service/ConsumerWorker.cs:49-97 | a stop already requested registers no consumer and makes no call; otherwise the worker consumes `hello` with `autoAck: false`, and it is listening exactly when the channel is open and the queue exists; a missing queue is a channel error that closes the channel |
| Consumer.ConsumerWorker.BrokerDelivers | background_service/ConsumerWorker.cs:94 | a delivery to the manual-acknowledgement consumer moves the head message to the outstanding deliveries under a fresh Pending tag; nothing is acknowledged or dropped |
| Consumer.ConsumerWorker.Issue | background_service/ConsumerWorker.cs:80 | one ack or reject call: it is recorded, it throws exactly on a fault, it takes effect at the broker unless lost, and the channel closes exactly when it reaches the broker for a tag that is not outstanding |
| Consumer.ConsumerWorker.HandlerLeavesValid | background_service/ConsumerWorker.cs:60-89 | the worker the handler leaves behind, with the channel closed exactly when two calls reached the broker, is valid |
| Consumer.ConsumerWorker.TryBlock | background_service/ConsumerWorker.cs:62-81 | the try block makes the call `TryCall` decides, and ends in an exception exactly when there is no such call or the call throws; its call never closes the channel |
| Consumer.ConsumerWorker.Received | background_service/ConsumerWorker.cs:60-89 | the handler makes exactly the calls of `HandlerCalls`; the broker ends as `HandlerEffect` says; the channel is closed exactly when two calls reached the broker; the worker stays valid |
| Consumer.ConsumerWorker.Dispose | background_service/ConsumerWorker.cs:99-128 | `Dispose` runs the guarded plan up to the step that throws and catches the exception; the new state is the effect of the steps before it; the calls made are the steps started, then the base class's `Dispose` on every path; the worker stays valid |
| Consumer.ConsumerWorker.ChannelSteps | background_service/ConsumerWorker.cs:103-111 | the channel guard deletes the queue, then closes and disposes the channel, only when the channel is open, stopping at a throwing step |
| Consumer.ConsumerWorker.ConnectionSteps | background_service/ConsumerWorker.cs:113-118 | the connection guard closes and disposes the connection, only when the connection is open, stopping at a throwing step |
| Consumer.ConsumerWorker.TeardownLeavesValid | background_service/ConsumerWorker.cs:99-128 | a worker reached by teardown steps from a coherent state is valid |
| Consumer.ConsumerWorker.Perform | background_service/ConsumerWorker.cs:106-117 | one teardown step is recorded; it throws exactly when it is the failing step, and then it has no effect |
| TodoItems.TodoItemsController.constructor | background_service/Controllers/TodoItemsController.cs:25-28 | the controller works on the given table, whose items are stored under their own ids |
| TodoItems.TodoItemsController.TodoItemExists | background_service/Controllers/TodoItemsController.cs:129-132 | some stored item has the id exactly when the id is a key of the table |
| TodoItems.TodoItemsController.GetTodoItems | background_service/Controllers/TodoItemsController.cs:32-35 | the list holds every stored item exactly once and nothing else |
| TodoItems.TodoItemsController.GetTodoItem | background_service/Controllers/TodoItemsController.cs:39-49 | `NotFound` exactly when no item has the id; otherwise the stored item with that id; nothing changes |
| TodoItems.TodoItemsController.PutTodoItem | background_service/Controllers/TodoItemsController.cs:54-80 | `BadRequest` exactly when the ids differ; `NotFound` exactly when they agree and no item has the id; otherwise `NoContent` with exactly that entry replaced; the table is unchanged on every error |
| TodoItems.TodoItemsController.PostTodoItem | background_service/Controllers/TodoItemsController.cs:85-91 | the item is added under its id, or under the generated key when its id is 0, and `Created` names that key; a key already taken throws and leaves the table unchanged |
| TodoItems.TodoItemsController.DeleteTodoItem | background_service/Controllers/TodoItemsController.cs:95-107 | `NotFound` with the table unchanged exactly when no item has the id; otherwise `NoContent`, with exactly that key removed |
| TodoItems.TodoItemsController.PostThenGet | background_service/Controllers/TodoItemsController.cs:85-91 | getting the location that `PostTodoItem` answers with returns the created item |
| TodoItems.TodoItemsController.PutThenGet | background_service/Controllers/TodoItemsController.cs:54-80 | after a successful `PutTodoItem`, `GetTodoItem` returns the new version |
| TodoItems.TodoItemsController.DeleteThenGet | background_service/Controllers/TodoItemsController.cs:95-107 | after a successful `DeleteTodoItem`, the item no longer exists, and getting or deleting it again answers `NotFound` |
| Auth.SingleAccount | background_service/Controllers/TodoItemsController.cs:163-166 | `is_valid_user` accepts a single pair of credentials: any two accepted pairs are the same |
| Auth.Login | background_service/Controllers/TodoItemsController.cs:148-166 | `Unauthorized` exactly unless the user is `admin` with password `admin`; otherwise `Ok` with the token issued for `admin` |

## Left out

- The RabbitMQ client library and the network (`ConnectionFactory`, `EventingBasicConsumer`, AMQP framing) are reduced to open/closed handles, a record of the calls made, and the broker state. Client exceptions are parameters.
- Broker.Deliver: other consumers of `hello` are not modelled, although the queue is declared non-exclusive and others could share it. `consumer` is the consumer on the worker's own channel, and every delivery from the queue goes to it. With competing consumers, the broker would spread deliveries among them.
- AckPolicy.PoisonRounds: for the same reason, the poison message is shown to come back to this worker every round. With competing consumers it would still be requeued forever, but it could be delivered to any of them.
- Producers are outside the worker. `BrokerPublishes` is the environment routing a message into the queue, not part of the source.
- Broker.Requeue: a message requeued by a reject goes back to the head of the queue. The broker puts it back at its original position. The two agree when no delivery older than it was requeued since it was delivered. They differ when two outstanding deliveries are requeued in turn: the model ends with the later one first. `Broker.SettleMovesMessage` and `AckPolicy.FailureRequeued` state the head-first position, so they match the broker only in the first case. `AckPolicy.PoisonRounds` is not affected: the poison message was the head of the queue when it was delivered, so its original position is the head too.
- Broker.ChannelClosed: the returned deliveries go back ahead of the queue, in delivery order. This is the broker's original-position order only while no requeue has reordered the queue since they were delivered.
- UTF-8 and JSON decoding are reduced to their three outcomes. A message carries the outcome of decoding its body, which is a deterministic function of the body.
- Timing and concurrency: the 10-second delay becomes its outcome (`Completed`, `Faulted` or `Cancelled`), and the endless `Task.Delay(-1)` is not modelled. Handlers run one at a time and atomically, so overlapping callbacks on the shared channel are not modelled.
- Logging is left out.
- The commented-out `BasicQos` prefetch is not in effect, so any number of deliveries may be outstanding.
- Consumer.ConsumerWorker.Received: an exception thrown by the catch block's own reject would escape the `async void` handler. That path is not modelled: the catch block's reject is assumed to succeed (`NoFault`).
- Consumer.ConsumerWorker.ExecuteAsync: a stop requested later, during the endless wait, is not modelled. Only the start-up part before the wait is.
- Consumer.ConsumerWorker.Dispose: `_channel.IsOpen` and `_connection.IsOpen` are read from the model's handle state, so a connection dropped by the broker on its own is not modelled.
- The declaration of `TodoItem` (under `Models/`) is not part of this model. The item is assumed to have `Id`, `Name` and `IsComplete`; only `Id` matters to the actions.
- TodoItems.TodoItemsController.PutTodoItem: the `throw` at the end of the catch block needs the row to reappear between the save and the check, which needs a concurrent writer. That branch is not modelled.
- TodoItems.TodoItemsController.PostTodoItem: the database's key generator is a parameter (`generated`). How it chooses keys is not modelled.
- Entity Framework change tracking, `SaveChangesAsync` and its exceptions are reduced to their effect on the table. The 500 answer for an exception that escapes an action is `ServerError`.
- `generate_token` signs a JWT with HMAC-SHA256, using a configured key and a 30-minute expiry from the clock. It is a parameter of `Auth.Login`, so signing and expiry are not modelled.
- `Dev()` only prints and is left out. `Worker.cs` and `Program.cs` are host wiring and a no-op service, and are not part of this model.
