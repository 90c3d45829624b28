/** The event payload a listener receives: a flat `Map<String, Object>`
    deserialized from the message bus, and the two ways a handler reads it
    (`get` returning the raw object, and `get` followed by a `(String)` cast). */
module Payload {
  import opened Wrappers

  /** A payload value. `Number` stands for every non-String object the
      deserializer can produce (Integer, Long, Double, ...): the handlers
      never look inside those, they only copy them. */
  datatype Value = Null | Text(text: string) | Number(number: int)

  type Payload = map<string, Value>

  /** The only failure a handler can raise: a `(String)` cast of a field
      whose value is not a String. */
  datatype CastError = ClassCast(field: string)

  /** The key under which every event carries its identity. */
  const EventIdKey: string := "eventId"

  /** `Map.get`: a missing key reads as null. */
  function Get(p: Payload, key: string): Value
  {
    if key in p then p[key] else Null
  }

  /** A nullable Java String seen as a payload value. */
  function AsValue(s: Option<string>): Value
  {
    match s
    case None => Null
    case Some(t) => Text(t)
  }

  /** `(String) p.get(key)`: null casts to null, a String to itself, and any
      other object raises ClassCastException. */
  function GetString(p: Payload, key: string): (r: Result<Option<string>, CastError>)
    ensures r.Success? ==> AsValue(r.value) == Get(p, key)
    ensures r.Failure? <==> Get(p, key).Number?
    ensures r.Failure? ==> r.error == ClassCast(key)
  {
    match Get(p, key)
    case Null => Success(None)
    case Text(s) => Success(Some(s))
    case Number(_) => Failure(ClassCast(key))
  }

  /** `(String) eventData.get("eventId")`, the first line of every handler. */
  function EventIdOf(p: Payload): Result<Option<string>, CastError>
  {
    GetString(p, EventIdKey)
  }
}
