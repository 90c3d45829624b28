/** One delivery of one message to one listener: read the event id, skip the
    message if it is a duplicate, otherwise render the notification and then
    record the id. The ledger is threaded through explicitly; logging is the
    emission of a notification. */
module Consumer {
  import opened Wrappers
  import opened Payload
  import opened Rendering
  import opened Ledger

  /** What a delivery did: rendered a notification, skipped a duplicate, or
      stopped on a ClassCastException before anything was recorded. */
  datatype Outcome = Emitted(notification: Notification) | Skipped | Failed(error: CastError)

  /** The outcome of a delivery and the ledger after it. */
  datatype Step = Step(outcome: Outcome, ledger: Ledger)

  /** The handler protocol shared by the four listeners. A delivery emits
      exactly when its id can be read, is not in the ledger (or is null),
      and its payload renders; only an emitting delivery changes the ledger,
      and then only by recording its own non-null id under the topic of `t`. */
  function Consume(l: Ledger, t: EventType, p: Payload): (r: Step)
    ensures Extends(l, r.ledger)
    ensures !r.outcome.Emitted? ==> r.ledger == l
    ensures r.outcome.Emitted? <==>
      EventIdOf(p).Success? && !IsDuplicate(l, EventIdOf(p).value) && Render(t, p).Success?
    ensures r.outcome.Skipped? <==> EventIdOf(p).Success? && IsDuplicate(l, EventIdOf(p).value)
    ensures r.outcome.Emitted? ==> Render(t, p) == Success(r.outcome.notification)
    ensures r.outcome.Emitted? ==> r.ledger.Keys == l.Keys + IdSet(EventIdOf(p).value)
    ensures r.outcome.Emitted? && Get(p, EventIdKey).Text? ==> r.ledger[Get(p, EventIdKey).text] == Topic(t)
  {
    match EventIdOf(p)
    case Failure(e) => Step(Failed(e), l)
    case Success(eventId) =>
      if IsDuplicate(l, eventId) then Step(Skipped, l)
      else
        match Render(t, p)
        case Failure(e) => Step(Failed(e), l)
        case Success(n) =>
          MarkProcessedFresh(l, eventId, Topic(t));
          Step(Emitted(n), MarkProcessed(l, eventId, Topic(t)))
  }

  /** Listener of USER_REGISTERED: a welcome email to the new user. */
  function ConsumeUserRegistered(l: Ledger, p: Payload): (r: Step)
    ensures r.outcome.Emitted? ==> r.outcome.notification.WelcomeEmail?
    ensures r.outcome.Emitted? ==> AsValue(r.outcome.notification.username) == Get(p, "username")
    ensures r.outcome.Emitted? ==> AsValue(r.outcome.notification.email) == Get(p, "email")
    ensures r.outcome.Emitted? && Get(p, EventIdKey).Text? ==>
      Get(p, EventIdKey).text in r.ledger && r.ledger[Get(p, EventIdKey).text] == "USER_REGISTERED"
  {
    Consume(l, UserRegistered, p)
  }

  /** Listener of USER_LOGGED_IN: a login alert. */
  function ConsumeUserLoggedIn(l: Ledger, p: Payload): (r: Step)
    ensures r.outcome.Emitted? ==> r.outcome.notification.LoginAlert?
    ensures r.outcome.Emitted? ==> AsValue(r.outcome.notification.username) == Get(p, "username")
    ensures r.outcome.Emitted? ==> r.outcome.notification.timestamp == Get(p, "timestamp")
    ensures r.outcome.Emitted? && Get(p, EventIdKey).Text? ==>
      Get(p, EventIdKey).text in r.ledger && r.ledger[Get(p, EventIdKey).text] == "USER_LOGGED_IN"
  {
    Consume(l, UserLoggedIn, p)
  }

  /** Listener of LOW_STOCK_ALERT: an administrator alert that carries the
      product name, product id, current stock and threshold unchanged. */
  function ConsumeLowStockAlert(l: Ledger, p: Payload): (r: Step)
    ensures r.outcome.Emitted? ==> r.outcome.notification.LowStockAlert?
    ensures r.outcome.Emitted? ==> AsValue(r.outcome.notification.productName) == Get(p, "productName")
    ensures r.outcome.Emitted? ==> r.outcome.notification.productId == Get(p, "productId")
    ensures r.outcome.Emitted? ==> r.outcome.notification.currentStock == Get(p, "currentStock")
    ensures r.outcome.Emitted? ==> r.outcome.notification.threshold == Get(p, "threshold")
    ensures r.outcome.Emitted? && Get(p, EventIdKey).Text? ==>
      Get(p, EventIdKey).text in r.ledger && r.ledger[Get(p, EventIdKey).text] == "LOW_STOCK_ALERT"
  {
    Consume(l, LowStock, p)
  }

  /** Listener of ORDER_STATUS_UPDATED: a shipping-status update to the customer. */
  function ConsumeOrderStatusUpdated(l: Ledger, p: Payload): (r: Step)
    ensures r.outcome.Emitted? ==> r.outcome.notification.OrderStatusUpdate?
    ensures r.outcome.Emitted? ==> AsValue(r.outcome.notification.username) == Get(p, "username")
    ensures r.outcome.Emitted? ==> r.outcome.notification.orderId == Get(p, "orderId")
    ensures r.outcome.Emitted? ==> AsValue(r.outcome.notification.shippingStatus) == Get(p, "shippingStatus")
    ensures r.outcome.Emitted? && Get(p, EventIdKey).Text? ==>
      Get(p, EventIdKey).text in r.ledger && r.ledger[Get(p, EventIdKey).text] == "ORDER_STATUS_UPDATED"
  {
    Consume(l, OrderStatusUpdated, p)
  }

  /** An event whose id is null is never a duplicate: it is rendered on
      every delivery, whatever the ledger holds, and the ledger is left as
      it was because nothing is recorded for it. */
  lemma NullIdAlwaysProcessed(l: Ledger, t: EventType, p: Payload)
    requires Get(p, EventIdKey) == Null
    ensures Consume(l, t, p).ledger == l
    ensures Consume(l, t, p).outcome.Emitted? <==> Render(t, p).Success?
    ensures forall l' :: Consume(l', t, p).outcome == Consume(l, t, p).outcome
  {
  }

  /** A delivery whose id is already recorded, under any event type, returns
      early: nothing is emitted and the ledger is unchanged. */
  lemma RecordedIdSuppressed(l: Ledger, t: EventType, p: Payload, id: string)
    requires Get(p, EventIdKey) == Text(id)
    requires id in l
    ensures Consume(l, t, p) == Step(Skipped, l)
  {
  }

  /** After a fresh non-null id is processed, the ledger maps it to the
      handler's topic, and a later delivery of that id under any type
      is suppressed. */
  lemma FreshIdRecorded(l: Ledger, t: EventType, t': EventType, p: Payload, p': Payload, id: string)
    requires Get(p, EventIdKey) == Text(id) && Get(p', EventIdKey) == Text(id)
    requires Consume(l, t, p).outcome.Emitted?
    ensures id !in l
    ensures Consume(l, t, p).ledger[id] == Topic(t)
    ensures Consume(Consume(l, t, p).ledger, t', p') == Step(Skipped, Consume(l, t, p).ledger)
  {
  }

  /** Delivering the same event twice in a row, when its id is not null,
      emits at most one notification; once the first delivery is recorded
      the second is a no-op. A delivery that did not emit (including one
      whose id is not a String) changed nothing, so the second behaves
      exactly like the first. A null id is excluded: it is never recorded,
      so both deliveries render. */
  lemma RedeliveryIsNoop(l: Ledger, t: EventType, p: Payload)
    requires EventIdOf(p) != Success(None)
    ensures var s1 := Consume(l, t, p); var s2 := Consume(s1.ledger, t, p);
      && !(s1.outcome.Emitted? && s2.outcome.Emitted?)
      && s2.ledger == s1.ledger
      && (s1.outcome.Emitted? ==> s2.outcome == Skipped)
      && (!s1.outcome.Emitted? ==> s2 == s1)
  {
  }
}
