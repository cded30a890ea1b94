/**
  The loosely typed Python values the reconciliation engine handles: the values
  stored under the keys of an event or document dict, the dicts themselves
  (as records whose every optional key is an `Option`), the update records and
  `$set` payloads the engine builds, and the exceptions it can raise.
 */
module Values {
  import opened Wrappers

  /** A Python `datetime`: microseconds since the epoch of its wall-clock reading
      taken as UTC, and whether it carries a `tzinfo`. Aware values are kept
      normalised to UTC, so two aware values are `==` exactly when they denote
      the same instant, as Python's comparison of aware datetimes does. */
  datatype DateTime = DateTime(micros: int, aware: bool)

  /** The value bound to a key of an event or document dict. */
  datatype Value =
    | Null                               // Python None
    | Str(s: string)
    | Time(dt: DateTime)
    | Other(text: string, truthy: bool)  // any other object: its str() and its truth value

  /** Python truthiness. */
  predicate Truthy(v: Value)
  {
    match v
    case Null => false
    case Str(s) => s != ""
    case Time(_) => true
    case Other(_, t) => t
  }

  /** Python's `a or b`. */
  function Or(a: Value, b: Value): Value
  {
    if Truthy(a) then a else b
  }

  /** `d.get(key)`: an absent key reads as None. */
  function Get(field: Option<Value>): Value
  {
    if field.Some? then field.value else Null
  }

  /** An event record as fetched from the feed, or a document as stored in the
      collection: `uid` is always present; any other key may be absent (None)
      or bound to a value (Some). Feed events use `dtstart`/`dtend`, stored
      documents `start_time`/`end_time`. */
  datatype Record = Record(
    uid: string,
    summary: Option<Value>,
    dtstart: Option<Value>,
    dtend: Option<Value>,
    startTime: Option<Value>,
    endTime: Option<Value>,
    description: Option<Value>,
    location: Option<Value>)

  /** An update record handed to the notifier. The engine binds every key but
      `description` and `location`; the notifier also reads those two as
      fallbacks, so they are part of the shape it accepts. */
  datatype UpdateRecord = UpdateRecord(
    uid: string,
    summary: Option<Value>,
    oldStart: Option<Value>,
    oldEnd: Option<Value>,
    newStart: Option<Value>,
    newEnd: Option<Value>,
    oldDescription: Option<Value>,
    newDescription: Option<Value>,
    oldLocation: Option<Value>,
    newLocation: Option<Value>,
    description: Option<Value>,
    location: Option<Value>)

  /** The `$set` document of an `update_one`: a key is set exactly when it is Some. */
  datatype Payload = Payload(
    startTime: Option<Value>,
    endTime: Option<Value>,
    summary: Option<Value>,
    description: Option<Value>,
    location: Option<Value>)
  {
    /** Python truthiness of the dict. */
    predicate IsEmpty()
    {
      startTime.None? && endTime.None? && summary.None? && description.None? && location.None?
    }
  }

  /** The exceptions the modelled code lets escape. */
  datatype Error =
    | KeyError(key: string)          // `d[key]` on an absent key
    | AttributeError(name: string)   // a string method called on a non-string

  /** The conversions between datetimes and text that the code delegates to
      Python's `datetime` type: `datetime.fromisoformat` (None where it raises),
      `datetime.isoformat()` and `str(datetime)`. */
  datatype TimeText = TimeText(
    fromIso: string -> Option<DateTime>,
    iso: DateTime -> string,
    show: DateTime -> string)

  /** Python's documented round trip: `fromisoformat` inverts `isoformat` on
      aware datetimes, and `isoformat` never yields the empty string. */
  ghost predicate Coherent(tt: TimeText)
  {
    forall d: DateTime :: d.aware ==> tt.iso(d) != "" && tt.fromIso(tt.iso(d)) == Some(d)
  }
}
