/** Sequences of deliveries, as the message bus hands them to the consumer
    one after another (with redeliveries, in any order, across all four
    topics), and the idempotency guarantees that hold over a whole run. */
module Trace {
  import opened Wrappers
  import opened Payload
  import opened Rendering
  import opened Ledger
  import opened Consumer

  /** One message delivered to the listener of `topic`. */
  datatype Delivery = Delivery(topic: EventType, payload: Payload)

  /** The outcomes of a run, one per delivery, and the final ledger. */
  datatype Run = Run(outcomes: seq<Outcome>, ledger: Ledger)

  /** The non-null id of a delivery, if it has a readable one. */
  function Key(d: Delivery): Option<string>
  {
    match EventIdOf(d.payload)
    case Success(id) => id
    case Failure(_) => None
  }

  /** A delivery its handler can process without raising: its id and every
      String-cast field hold a String or null. */
  predicate Acceptable(d: Delivery)
  {
    EventIdOf(d.payload).Success? && Render(d.topic, d.payload).Success?
  }

  /** Consumes the deliveries in order, threading the ledger. */
  function Deliver(l: Ledger, ds: seq<Delivery>): (r: Run)
    ensures |r.outcomes| == |ds|
    ensures Extends(l, r.ledger)
    decreases |ds|
  {
    if ds == [] then Run([], l)
    else
      var s := Consume(l, ds[0].topic, ds[0].payload);
      var rest := Deliver(s.ledger, ds[1..]);
      Run([s.outcome] + rest.outcomes, rest.ledger)
  }

  /** The independent account of a run: delivery `i` emits iff it is
      acceptable and either has no id, or has an id that was not recorded
      beforehand and that no earlier acceptable delivery carried. */
  ghost predicate FirstAcceptable(l: Ledger, ds: seq<Delivery>, i: int)
    requires 0 <= i < |ds|
  {
    && Acceptable(ds[i])
    && match Key(ds[i])
       case None => true
       case Some(id) =>
         id !in l && forall j :: 0 <= j < i && Key(ds[j]) == Some(id) ==> !Acceptable(ds[j])
  }

  /** How one step changes the set of recorded ids: a delivery's own id is
      added exactly when it is acceptable and fresh. */
  lemma StepKeys(l: Ledger, d: Delivery, id: string)
    ensures var s := Consume(l, d.topic, d.payload);
      id in s.ledger <==> id in l || (Key(d) == Some(id) && Acceptable(d))
  {
  }

  /** A run emits exactly on the deliveries `FirstAcceptable` picks out, and
      each emitted notification is the one its handler renders. */
  lemma {:induction false} DeliverEmitsFirstAcceptable(l: Ledger, ds: seq<Delivery>)
    ensures forall i :: 0 <= i < |ds| ==>
      (Deliver(l, ds).outcomes[i].Emitted? <==> FirstAcceptable(l, ds, i))
    ensures forall i :: 0 <= i < |ds| && Deliver(l, ds).outcomes[i].Emitted? ==>
      Render(ds[i].topic, ds[i].payload) == Success(Deliver(l, ds).outcomes[i].notification)
    decreases |ds|
  {
    if ds != [] {
      var d := ds[0];
      var s := Consume(l, d.topic, d.payload);
      var rest := ds[1..];
      DeliverEmitsFirstAcceptable(s.ledger, rest);
      var outs := Deliver(l, ds).outcomes;
      assert outs == [s.outcome] + Deliver(s.ledger, rest).outcomes;
      forall i | 0 <= i < |ds|
        ensures outs[i].Emitted? <==> FirstAcceptable(l, ds, i)
        ensures outs[i].Emitted? ==> Render(ds[i].topic, ds[i].payload) == Success(outs[i].notification)
      {
        if i > 0 {
          assert outs[i] == Deliver(s.ledger, rest).outcomes[i - 1];
          assert rest[i - 1] == ds[i];
          match Key(ds[i])
          case None =>
          case Some(id) =>
            StepKeys(l, d, id);
        }
      }
    }
  }

  /** No two deliveries of the same non-null id both emit. */
  lemma AtMostOncePerId(l: Ledger, ds: seq<Delivery>, i: int, j: int)
    requires 0 <= i < j < |ds|
    requires Key(ds[i]).Some? && Key(ds[i]) == Key(ds[j])
    ensures !(Deliver(l, ds).outcomes[i].Emitted? && Deliver(l, ds).outcomes[j].Emitted?)
  {
    DeliverEmitsFirstAcceptable(l, ds);
  }

  /** An id recorded before the run suppresses every delivery that carries
      it, whatever its topic and wherever it stands in the run. */
  lemma PreRecordedNeverEmits(l: Ledger, ds: seq<Delivery>, k: int)
    requires 0 <= k < |ds|
    requires Key(ds[k]).Some? && Key(ds[k]).value in l
    ensures !Deliver(l, ds).outcomes[k].Emitted?
  {
    DeliverEmitsFirstAcceptable(l, ds);
  }

  /** A delivery without an id emits whenever its handler can render it,
      on every delivery, regardless of what came before. */
  lemma NullIdsEmitWhenRenderable(l: Ledger, ds: seq<Delivery>, i: int)
    requires 0 <= i < |ds|
    requires Get(ds[i].payload, EventIdKey) == Null
    ensures Deliver(l, ds).outcomes[i].Emitted? <==> Render(ds[i].topic, ds[i].payload).Success?
  {
    DeliverEmitsFirstAcceptable(l, ds);
  }

  /** The number of deliveries in a run that carry `id` and emitted. */
  function EmissionsFor(outs: seq<Outcome>, ds: seq<Delivery>, id: string): nat
    requires |outs| == |ds|
    decreases |ds|
  {
    if ds == [] then 0
    else (if outs[0].Emitted? && Key(ds[0]) == Some(id) then 1 else 0) + EmissionsFor(outs[1..], ds[1..], id)
  }

  /** Exactly-once effect per id: an id emits once in a run if it was not
      recorded beforehand and some delivery of it is acceptable, and never
      otherwise. Afterwards the ledger holds the id iff it was recorded
      before the run or some delivery of it is acceptable. */
  lemma {:induction false} ExactlyOncePerId(l: Ledger, ds: seq<Delivery>, id: string)
    ensures var r := Deliver(l, ds);
      EmissionsFor(r.outcomes, ds, id) ==
        if id !in l && exists i :: 0 <= i < |ds| && Key(ds[i]) == Some(id) && Acceptable(ds[i]) then 1 else 0
    ensures id in Deliver(l, ds).ledger <==>
      id in l || exists i :: 0 <= i < |ds| && Key(ds[i]) == Some(id) && Acceptable(ds[i])
    decreases |ds|
  {
    if ds != [] {
      var d := ds[0];
      var s := Consume(l, d.topic, d.payload);
      var rest := ds[1..];
      ExactlyOncePerId(s.ledger, rest, id);
      StepKeys(l, d, id);
      var r := Deliver(l, ds);
      assert r.outcomes[1..] == Deliver(s.ledger, rest).outcomes;
      assert r.ledger == Deliver(s.ledger, rest).ledger;
      var inRest := exists i :: 0 <= i < |rest| && Key(rest[i]) == Some(id) && Acceptable(rest[i]);
      var inAll := exists i :: 0 <= i < |ds| && Key(ds[i]) == Some(id) && Acceptable(ds[i]);
      assert inAll <==> (Key(d) == Some(id) && Acceptable(d)) || inRest by {
        if inRest {
          var i :| 0 <= i < |rest| && Key(rest[i]) == Some(id) && Acceptable(rest[i]);
          assert ds[i + 1] == rest[i];
        }
        if inAll {
          var i :| 0 <= i < |ds| && Key(ds[i]) == Some(id) && Acceptable(ds[i]);
          if i > 0 { assert rest[i - 1] == ds[i]; }
        }
      }
    }
  }

  /** Over a whole run the ledger only grows: no record is removed or
      overwritten, and every emitting delivery with an id leaves that id
      recorded under its own topic. */
  lemma {:induction false} DeliverExtendsLedger(l: Ledger, ds: seq<Delivery>)
    ensures Extends(l, Deliver(l, ds).ledger)
    ensures forall i :: 0 <= i < |ds| && Deliver(l, ds).outcomes[i].Emitted? && Key(ds[i]).Some? ==>
      Key(ds[i]).value in Deliver(l, ds).ledger && Deliver(l, ds).ledger[Key(ds[i]).value] == Topic(ds[i].topic)
    decreases |ds|
  {
    if ds != [] {
      var d := ds[0];
      var s := Consume(l, d.topic, d.payload);
      var rest := ds[1..];
      DeliverExtendsLedger(s.ledger, rest);
      var r := Deliver(l, ds);
      assert r.outcomes == [s.outcome] + Deliver(s.ledger, rest).outcomes;
      forall i | 0 <= i < |ds| && r.outcomes[i].Emitted? && Key(ds[i]).Some?
        ensures Key(ds[i]).value in r.ledger && r.ledger[Key(ds[i]).value] == Topic(ds[i].topic)
      {
        if i > 0 {
          assert rest[i - 1] == ds[i];
          assert r.outcomes[i] == Deliver(s.ledger, rest).outcomes[i - 1];
        }
      }
    }
  }
}
