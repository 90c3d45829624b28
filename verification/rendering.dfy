/** The four event types the consumer listens to and the notification each
    handler renders. A notification is modelled as the record of payload
    fields the handler copies into its log banner; the banner text itself
    (box-drawing lines, emoji, fixed sentences) is presentation only. */
module Rendering {
  import opened Wrappers
  import opened Payload

  /** One listener, subscribed to one topic, per event type. */
  datatype EventType = UserRegistered | UserLoggedIn | LowStock | OrderStatusUpdated

  /** The topic a listener subscribes to; the same string is stored as the
      event type of a processed-event record. */
  function Topic(t: EventType): string
  {
    match t
    case UserRegistered => "USER_REGISTERED"
    case UserLoggedIn => "USER_LOGGED_IN"
    case LowStock => "LOW_STOCK_ALERT"
    case OrderStatusUpdated => "ORDER_STATUS_UPDATED"
  }

  /** The listener, if any, that receives the messages of a topic. */
  function ListenerFor(topic: string): (r: Option<EventType>)
    ensures r.Some? ==> Topic(r.value) == topic
    ensures r.None? ==> forall t: EventType :: Topic(t) != topic
  {
    if topic == "USER_REGISTERED" then Some(UserRegistered)
    else if topic == "USER_LOGGED_IN" then Some(UserLoggedIn)
    else if topic == "LOW_STOCK_ALERT" then Some(LowStock)
    else if topic == "ORDER_STATUS_UPDATED" then Some(OrderStatusUpdated)
    else None
  }

  /** A rendered notification: the fields it shows, as read from the payload.
      String-cast fields are nullable strings; the others are copied as
      opaque objects. */
  datatype Notification =
    | WelcomeEmail(username: Option<string>, email: Option<string>)
    | LoginAlert(username: Option<string>, timestamp: Value)
    | LowStockAlert(productName: Option<string>, productId: Value, currentStock: Value, threshold: Value)
    | OrderStatusUpdate(username: Option<string>, orderId: Value, shippingStatus: Option<string>)

  /** The event type whose handler renders a notification of this shape. */
  function KindOf(n: Notification): EventType
  {
    match n
    case WelcomeEmail(_, _) => UserRegistered
    case LoginAlert(_, _) => UserLoggedIn
    case LowStockAlert(_, _, _, _) => LowStock
    case OrderStatusUpdate(_, _, _) => OrderStatusUpdated
  }

  /** The payload fields a handler reads (besides the event id). */
  function Fields(t: EventType): set<string>
  {
    match t
    case UserRegistered => {"username", "email"}
    case UserLoggedIn => {"username", "timestamp"}
    case LowStock => {"productName", "productId", "currentStock", "threshold"}
    case OrderStatusUpdated => {"username", "orderId", "shippingStatus"}
  }

  /** The subset of `Fields(t)` the handler casts to String. */
  function StringFields(t: EventType): (r: set<string>)
    ensures r <= Fields(t)
  {
    match t
    case UserRegistered => {"username", "email"}
    case UserLoggedIn => {"username"}
    case LowStock => {"productName"}
    case OrderStatusUpdated => {"username", "shippingStatus"}
  }

  /** Welcome email for a new user: username and email, both cast to String. */
  function RenderWelcome(p: Payload): (r: Result<Notification, CastError>)
    ensures r.Success? ==> r.value.WelcomeEmail?
    ensures r.Success? ==> AsValue(r.value.username) == Get(p, "username")
    ensures r.Success? ==> AsValue(r.value.email) == Get(p, "email")
    ensures r.Failure? <==> Get(p, "username").Number? || Get(p, "email").Number?
  {
    var username :- GetString(p, "username");
    var email :- GetString(p, "email");
    Success(WelcomeEmail(username, email))
  }

  /** Login alert: the username (cast to String) and the raw timestamp. */
  function RenderLoginAlert(p: Payload): (r: Result<Notification, CastError>)
    ensures r.Success? ==> r.value.LoginAlert?
    ensures r.Success? ==> AsValue(r.value.username) == Get(p, "username")
    ensures r.Success? ==> r.value.timestamp == Get(p, "timestamp")
    ensures r.Failure? <==> Get(p, "username").Number?
  {
    var username :- GetString(p, "username");
    Success(LoginAlert(username, Get(p, "timestamp")))
  }

  /** Administrator alert for low stock: the product name (cast to String)
      and the product id, current stock and threshold objects, unchanged. */
  function RenderLowStock(p: Payload): (r: Result<Notification, CastError>)
    ensures r.Success? ==> r.value.LowStockAlert?
    ensures r.Success? ==> AsValue(r.value.productName) == Get(p, "productName")
    ensures r.Success? ==> r.value.productId == Get(p, "productId")
    ensures r.Success? ==> r.value.currentStock == Get(p, "currentStock")
    ensures r.Success? ==> r.value.threshold == Get(p, "threshold")
    ensures r.Failure? <==> Get(p, "productName").Number?
  {
    var productName :- GetString(p, "productName");
    Success(LowStockAlert(productName, Get(p, "productId"), Get(p, "currentStock"), Get(p, "threshold")))
  }

  /** Order status update: username and shipping status (both cast to
      String) and the raw order id. */
  function RenderOrderStatus(p: Payload): (r: Result<Notification, CastError>)
    ensures r.Success? ==> r.value.OrderStatusUpdate?
    ensures r.Success? ==> AsValue(r.value.username) == Get(p, "username")
    ensures r.Success? ==> r.value.orderId == Get(p, "orderId")
    ensures r.Success? ==> AsValue(r.value.shippingStatus) == Get(p, "shippingStatus")
    ensures r.Failure? <==> Get(p, "username").Number? || Get(p, "shippingStatus").Number?
  {
    var username :- GetString(p, "username");
    var orderId := Get(p, "orderId");
    var shippingStatus :- GetString(p, "shippingStatus");
    Success(OrderStatusUpdate(username, orderId, shippingStatus))
  }

  /** The handler of event type `t`, applied to a payload. Rendering fails
      exactly when a String-cast field holds a non-string, and the error
      names such a field. */
  function Render(t: EventType, p: Payload): (r: Result<Notification, CastError>)
    ensures r.Success? ==> KindOf(r.value) == t
    ensures r.Failure? <==> exists k :: k in StringFields(t) && Get(p, k).Number?
    ensures r.Failure? ==> r.error.field in StringFields(t) && Get(p, r.error.field).Number?
  {
    match t
    case UserRegistered => RenderWelcome(p)
    case UserLoggedIn => RenderLoginAlert(p)
    case LowStock => RenderLowStock(p)
    case OrderStatusUpdated => RenderOrderStatus(p)
  }

  /** The payload a notification was rendered from, restricted to the fields
      its handler reads. */
  function Encode(n: Notification): Payload
  {
    match n
    case WelcomeEmail(u, e) => map["username" := AsValue(u), "email" := AsValue(e)]
    case LoginAlert(u, ts) => map["username" := AsValue(u), "timestamp" := ts]
    case LowStockAlert(name, id, stock, threshold) =>
      map["productName" := AsValue(name), "productId" := id, "currentStock" := stock, "threshold" := threshold]
    case OrderStatusUpdate(u, id, status) =>
      map["username" := AsValue(u), "orderId" := id, "shippingStatus" := AsValue(status)]
  }

  /** Rendering reads nothing but `Fields(t)`: two payloads that agree on
      those fields (a missing key agreeing with null) render alike. In
      particular the event id never influences the notification. */
  lemma RenderReadsOnlyFields(t: EventType, p: Payload, q: Payload)
    requires forall k :: k in Fields(t) ==> Get(p, k) == Get(q, k)
    ensures Render(t, p) == Render(t, q)
  {
  }

  /** Every notification is rendered back from its own encoding: rendering
      loses nothing of the fields it copies. */
  lemma RenderEncodeRoundTrip(n: Notification)
    ensures Render(KindOf(n), Encode(n)) == Success(n)
  {
  }

  /** Conversely, a rendered notification re-encodes to exactly the fields
      its handler read from the payload. */
  lemma EncodeRenderRoundTrip(t: EventType, p: Payload)
    requires Render(t, p).Success?
    ensures forall k :: k in Fields(t) ==> Get(Encode(Render(t, p).value), k) == Get(p, k)
  {
  }
}
