/** The processed-event ledger: the repository of `ProcessedEvent(eventId,
    eventType)` records, seen as a map from event id to the topic string it
    was recorded under, together with the two idempotency helpers of the
    consumer that consult and extend it. */
module Ledger {
  import opened Wrappers

  type Ledger = map<string, string>

  /** `existsByEventId`. */
  predicate Exists(l: Ledger, eventId: string)
  {
    eventId in l
  }

  /** `save(new ProcessedEvent(eventId, eventType))`. */
  function Save(l: Ledger, eventId: string, eventType: string): Ledger
  {
    l[eventId := eventType]
  }

  /** An event is a duplicate when it carries an id that the ledger already
      holds, whatever type it was recorded under. A null id is never a
      duplicate: such an event is processed anyway. */
  predicate IsDuplicate(l: Ledger, eventId: Option<string>)
  {
    match eventId
    case None => false
    case Some(id) => Exists(l, id)
  }

  /** Records a processed event under the event type its listener names;
      an event with a null id is not recorded. */
  function MarkProcessed(l: Ledger, eventId: Option<string>, eventType: string): Ledger
  {
    match eventId
    case None => l
    case Some(id) => Save(l, id, eventType)
  }

  /** The ids an event can add to the ledger: its own, if it has one. */
  function IdSet(eventId: Option<string>): set<string>
  {
    match eventId
    case None => {}
    case Some(id) => {id}
  }

  /** `l'` keeps every record of `l`, unchanged. */
  ghost predicate Extends(l: Ledger, l': Ledger)
  {
    forall id :: id in l ==> id in l' && l'[id] == l[id]
  }

  /** Duplicate detection looks at the recorded ids only, never at the type
      they were recorded under, and a null id is never a duplicate. */
  lemma DuplicateKeyedByIdAlone(l: Ledger, l': Ledger, eventId: Option<string>)
    requires l.Keys == l'.Keys
    ensures IsDuplicate(l, eventId) <==> IsDuplicate(l', eventId)
    ensures eventId.None? ==> !IsDuplicate(l, eventId)
  {
  }

  /** Marking an event processed makes its id a duplicate for every later
      check, and changes the verdict for no other id; a null id stays
      a non-duplicate. */
  lemma MarkedIdIsDuplicate(l: Ledger, eventId: Option<string>, eventType: string, other: Option<string>)
    ensures IsDuplicate(MarkProcessed(l, eventId, eventType), eventId) <==> eventId.Some?
    ensures other != eventId ==>
      (IsDuplicate(MarkProcessed(l, eventId, eventType), other) <==> IsDuplicate(l, other))
  {
  }

  /** Marking a fresh event processed records its id under its event type and
      leaves every earlier record as it was. */
  lemma MarkProcessedFresh(l: Ledger, eventId: Option<string>, eventType: string)
    requires !IsDuplicate(l, eventId)
    ensures Extends(l, MarkProcessed(l, eventId, eventType))
    ensures MarkProcessed(l, eventId, eventType).Keys == l.Keys + IdSet(eventId)
    ensures eventId.Some? ==> MarkProcessed(l, eventId, eventType)[eventId.value] == eventType
    ensures eventId.None? ==> MarkProcessed(l, eventId, eventType) == l
  {
  }
}
