# Idempotent notification consumer — a Dafny model

This project models the notification service's Kafka consumer,
`NotificationEventConsumer`. It has four listeners, one per topic:
`USER_REGISTERED`, `USER_LOGGED_IN`, `LOW_STOCK_ALERT` and
`ORDER_STATUS_UPDATED`. Each listener follows the same idempotency protocol:

1. read `eventId` from the payload;
2. if `isDuplicate` says so, return at once;
3. otherwise render a notification from some payload fields;
4. then `markProcessed` records the id in the `ProcessedEventRepository`.

The model is a sequential state machine over pure functions:

- `wrappers.dfy` — `Option` (a Java nullable) and `Result` (a thrown exception).
- `payload.dfy` — payload values (`Null`, `Text`, `Number`); `Map.get`, where a
  missing key reads as null; the `(String)` cast, where a non-string raises
  `ClassCast`.
- `rendering.dfy` — the four event types, their topics, and the record of fields each
  handler copies into its notification.
- `ledger.dfy` — the repository as an immutable map from event id to the topic string it
  was recorded under, with
  `existsByEventId`, `save`, `isDuplicate` and `markProcessed`.
- `consumer.dfy` — one delivery, `Consume(ledger, type, payload)`, which returns the
  outcome and the new ledger. It also holds the four listeners and the single-delivery
  properties.
- `trace.dfy` — a run over any sequence of deliveries, with the whole-run guarantees. A
  delivery emits exactly when it is the first acceptable delivery of its id and that id
  was not recorded beforehand; a delivery with a null id emits whenever its handler can
  render it. Each id is
  emitted at most once. The ledger only grows.

The model follows the code. The code differs from a textbook idempotent consumer, which
reserves each id atomically before handling it, in four ways:

- The code does not reserve the id atomically before handling. It checks
  `existsByEventId`, renders, and only then saves. So an event whose handler raises
  (a `ClassCastException` on a String field) is not recorded, and a redelivery is
  handled again.
- There is no registry and no unknown-type error. Dispatch is static: one listener per
  topic.
- Missing payload fields are not rejected. They render as null.
- Storage failures are not handled by the code. They are not modelled.

## Model

| member | source | states |
|---|---|---|
| Payload.GetString | Ecom-Backend-Final/notificationservice/src/main/java/com/ecom/notificationservice/kafka/NotificationEventConsumer.java:29 | The String cast is lossless: a successful read gives back exactly the stored value (null for a missing key); it fails, naming the key, iff the value is a non-string object |
| Rendering.ListenerFor | Ecom-Backend-Final/notificationservice/src/main/java/com/ecom/notificationservice/kafka/NotificationEventConsumer.java:27-95 | A topic is routed to the listener whose subscribed topic it is, and a topic no listener subscribes to is routed nowhere |
| Rendering.RenderWelcome | Ecom-Backend-Final/notificationservice/src/main/java/com/ecom/notificationservice/kafka/NotificationEventConsumer.java:33-40 | The welcome email carries the payload's username and email unchanged; rendering fails iff one of them is a non-string |
| Rendering.RenderLoginAlert | Ecom-Backend-Final/notificationservice/src/main/java/com/ecom/notificationservice/kafka/NotificationEventConsumer.java:56-61 | The login alert carries the payload's username and raw timestamp unchanged; it fails iff the username is a non-string |
| Rendering.RenderLowStock | Ecom-Backend-Final/notificationservice/src/main/java/com/ecom/notificationservice/kafka/NotificationEventConsumer.java:76-85 | The low-stock alert carries productName, productId, currentStock and threshold exactly as they are in the payload; it fails iff productName is a non-string |
| Rendering.RenderOrderStatus | Ecom-Backend-Final/notificationservice/src/main/java/com/ecom/notificationservice/kafka/NotificationEventConsumer.java:101-109 | The order update carries username, orderId and shippingStatus unchanged; it fails iff username or shippingStatus is a non-string |
| Rendering.Render | Ecom-Backend-Final/notificationservice/src/main/java/com/ecom/notificationservice/kafka/NotificationEventConsumer.java:33-103 | The handler of type t renders a notification of t's shape; it fails exactly when some String-cast field of t holds a non-string, and the error names such a field |
| Rendering.RenderReadsOnlyFields | Ecom-Backend-Final/notificationservice/src/main/java/com/ecom/notificationservice/kafka/NotificationEventConsumer.java:33-109 | Payloads that agree on the fields a handler reads render the same notification, so the event id and extra fields never influence it |
| Rendering.RenderEncodeRoundTrip | Ecom-Backend-Final/notificationservice/src/main/java/com/ecom/notificationservice/kafka/NotificationEventConsumer.java:33-109 | Every notification is rendered back from the payload encoding its fields: rendering loses nothing it copies |
| Rendering.EncodeRenderRoundTrip | Ecom-Backend-Final/notificationservice/src/main/java/com/ecom/notificationservice/kafka/NotificationEventConsumer.java:33-109 | A rendered notification re-encodes to exactly the values its handler read from the payload |
| Ledger.MarkProcessedFresh | Ecom-Backend-Final/notificationservice/src/main/java/com/ecom/notificationservice/kafka/NotificationEventConsumer.java:131-135 | Marking a non-duplicate event adds exactly its id (none for a null id), under the event type string it is given, and keeps every earlier record |
| Ledger.DuplicateKeyedByIdAlone | Ecom-Backend-Final/notificationservice/src/main/java/com/ecom/notificationservice/kafka/NotificationEventConsumer.java:119-129 | `isDuplicate` depends only on which ids are recorded, never on the type they were recorded under, and a null id is never a duplicate |
| Ledger.MarkedIdIsDuplicate | Ecom-Backend-Final/notificationservice/src/main/java/com/ecom/notificationservice/kafka/NotificationEventConsumer.java:131-135 | `markProcessed` makes its own non-null id a duplicate for every later check and changes the verdict for no other id; a null id stays a non-duplicate |
| Consumer.Consume | Ecom-Backend-Final/notificationservice/src/main/java/com/ecom/notificationservice/kafka/NotificationEventConsumer.java:28-44 | A delivery emits iff its id is readable, not already recorded (or null), and its payload renders; the emitted notification is the rendered one; a non-emitting delivery leaves the ledger unchanged; an emitting one only adds its own id, under its listener's topic |
| Consumer.ConsumeUserRegistered | Ecom-Backend-Final/notificationservice/src/main/java/com/ecom/notificationservice/kafka/NotificationEventConsumer.java:27-45 | An emitted welcome email shows the payload's username and email, and the id is recorded as USER_REGISTERED |
| Consumer.ConsumeUserLoggedIn | Ecom-Backend-Final/notificationservice/src/main/java/com/ecom/notificationservice/kafka/NotificationEventConsumer.java:50-65 | An emitted login alert shows the payload's username and timestamp, and the id is recorded as USER_LOGGED_IN |
| Consumer.ConsumeLowStockAlert | Ecom-Backend-Final/notificationservice/src/main/java/com/ecom/notificationservice/kafka/NotificationEventConsumer.java:70-90 | An emitted low-stock alert shows the payload's product name, product id, current stock and threshold unchanged, and the id is recorded as LOW_STOCK_ALERT |
| Consumer.ConsumeOrderStatusUpdated | Ecom-Backend-Final/notificationservice/src/main/java/com/ecom/notificationservice/kafka/NotificationEventConsumer.java:95-114 | An emitted order update shows the payload's username, order id and shipping status, and the id is recorded as ORDER_STATUS_UPDATED |
| Consumer.NullIdAlwaysProcessed | Ecom-Backend-Final/notificationservice/src/main/java/com/ecom/notificationservice/kafka/NotificationEventConsumer.java:119-135 | An event with a null id is never a duplicate: it emits iff it renders, whatever the ledger, and leaves the ledger unchanged |
| Consumer.RecordedIdSuppressed | Ecom-Backend-Final/notificationservice/src/main/java/com/ecom/notificationservice/kafka/NotificationEventConsumer.java:124-127 | A delivery whose id is already recorded, under any event type, emits nothing and leaves the ledger unchanged |
| Consumer.FreshIdRecorded | Ecom-Backend-Final/notificationservice/src/main/java/com/ecom/notificationservice/kafka/NotificationEventConsumer.java:44 | After a fresh id is processed the ledger maps it to the handler's topic, and a later delivery of it under any type is skipped |
| Consumer.RedeliveryIsNoop | Ecom-Backend-Final/notificationservice/src/main/java/com/ecom/notificationservice/kafka/NotificationEventConsumer.java:28-44 | Delivering the same event with a non-null id twice emits at most once; after an emission the second delivery is skipped; after no emission the second behaves exactly like the first |
| Trace.Deliver | Ecom-Backend-Final/notificationservice/src/main/java/com/ecom/notificationservice/kafka/NotificationEventConsumer.java:28-114 | Consuming deliveries one after another gives one outcome per delivery, and the final ledger keeps every record of the initial one unchanged |
| Trace.StepKeys | Ecom-Backend-Final/notificationservice/src/main/java/com/ecom/notificationservice/kafka/NotificationEventConsumer.java:124-134 | One delivery adds an id to the ledger iff it carries that id, it is acceptable, and the id was not there before |
| Trace.DeliverEmitsFirstAcceptable | Ecom-Backend-Final/notificationservice/src/main/java/com/ecom/notificationservice/kafka/NotificationEventConsumer.java:119-135 | Over any run, a delivery emits iff it is acceptable and either has a null id, or is the first acceptable delivery of an id not recorded before the run; each emission is its handler's rendering |
| Trace.AtMostOncePerId | Ecom-Backend-Final/notificationservice/src/main/java/com/ecom/notificationservice/kafka/NotificationEventConsumer.java:124-127 | No two deliveries of the same non-null id both emit |
| Trace.PreRecordedNeverEmits | Ecom-Backend-Final/notificationservice/src/main/java/com/ecom/notificationservice/kafka/NotificationEventConsumer.java:124-127 | In any run, a delivery whose id was recorded before the run never emits, whatever its topic and position |
| Trace.NullIdsEmitWhenRenderable | Ecom-Backend-Final/notificationservice/src/main/java/com/ecom/notificationservice/kafka/NotificationEventConsumer.java:119-123 | In any run, a delivery with a null id emits iff its payload renders, regardless of earlier deliveries |
| Trace.ExactlyOncePerId | Ecom-Backend-Final/notificationservice/src/main/java/com/ecom/notificationservice/kafka/NotificationEventConsumer.java:28-44 | Each id is emitted exactly once in a run if it was unrecorded and some delivery of it is acceptable, and zero times otherwise; the final ledger holds the id iff it was recorded before the run or some delivery of it is acceptable |
| Trace.DeliverExtendsLedger | Ecom-Backend-Final/notificationservice/src/main/java/com/ecom/notificationservice/kafka/NotificationEventConsumer.java:131-134 | Over any run the ledger only grows: no record is removed or overwritten, and each emitting delivery with an id leaves it recorded under its own topic |

## Left out

- Kafka subscription wiring (consumer group, deserialization) and Spring injection: these are framework plumbing. Only the routing of each topic string to its listener is modelled (`ListenerFor`); a delivery names its listener by `EventType`.
- Log formatting (banner lines, emoji, fixed sentences) and the warnings for null and duplicate ids: a notification is modelled as the record of payload fields it shows.
- The JPA repository and the `ProcessedEvent` entity are not part of this model. They are abstracted as a map with `Exists` and `Save`. Any other fields of `ProcessedEvent` are not modelled.
- Repository exceptions (storage unreachable) and Spring Kafka's retry after a listener throws: the code does not handle them. A `ClassCastException` is modelled as a `Failed` outcome that leaves the ledger unchanged. What the bus does next is out of scope.
- Concurrency: the check (`existsByEventId`) and the insert (`save`) are not atomic. Concurrent deliveries of one id can both pass the check. The model is sequential and says nothing about such races.
- Java object types inside the payload: every non-String object is one `Number` value. The handlers only copy such objects or fail to cast them to String, so their exact class does not matter.
