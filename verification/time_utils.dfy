/**
  The time helpers of the engine: null-safe parsing of the start and end
  values of events and documents into aware datetimes, and the retention
  window that decides which vanished events may be deleted. The wall clock
  is a parameter, `now`, in microseconds since the epoch (UTC).
 */
module TimeUtils {
  import opened Wrappers
  import opened Values

  const MICROS_PER_HOUR: int := 3_600_000_000

  /** `parse_dt`: a datetime is kept, a string goes through `fromisoformat`
      (None where that raises), anything else is None; a naive result is
      tagged UTC, an aware one is returned unchanged. */
  function ParseDt(v: Value, tt: TimeText): (r: Option<DateTime>)
    ensures r.Some? ==> r.value.aware
    ensures v.Null? || v.Other? ==> r == None
    ensures v.Time? ==> r == Some(DateTime(v.dt.micros, true))
    ensures v.Str? ==> (r.None? <==> tt.fromIso(v.s).None?)
    ensures v.Str? && r.Some? ==> r.value.micros == tt.fromIso(v.s).value.micros
  {
    var parsed :=
      match v
      case Null => None
      case Time(dt) => Some(dt)
      case Str(s) => tt.fromIso(s)
      case Other(_, _) => None;
    match parsed
    case None => None
    case Some(dt) => if !dt.aware then Some(DateTime(dt.micros, true)) else Some(dt)
  }

  /** A datetime value parses back to itself once it is aware. */
  lemma ParseDtOfAware(d: DateTime, tt: TimeText)
    requires d.aware
    ensures ParseDt(Time(d), tt) == Some(d)
  {
  }

  /** What `isoformat()` wrote, `parse_dt` reads back. */
  lemma ParseDtOfIso(d: DateTime, tt: TimeText)
    requires Coherent(tt) && d.aware
    ensures ParseDt(Str(tt.iso(d)), tt) == Some(d)
    ensures Truthy(Str(tt.iso(d)))
  {
  }

  /** `removal_threshold_hours`. */
  function RemovalThresholdHours(): (h: nat)
    ensures h * MICROS_PER_HOUR == 36_000_000_000
  {
    10
  }

  /** `threshold_datetime`: `now` minus the window. */
  function ThresholdDatetime(now: int): (t: int)
    ensures now - t == 36_000_000_000
  {
    now - RemovalThresholdHours() * MICROS_PER_HOUR
  }

  /** `is_within_removal_window`: None never is; a datetime is when it lies
      strictly after the threshold (comparing it with the aware threshold
      requires it to be aware itself). */
  function IsWithinRemovalWindow(dt: Option<DateTime>, now: int): (r: bool)
    requires dt.Some? ==> dt.value.aware
    ensures dt.None? ==> !r
    ensures dt.Some? ==> (r <==> dt.value.micros > now - 36_000_000_000)
  {
    dt.Some? && dt.value.micros > ThresholdDatetime(now)
  }

  /** The threshold itself is outside the window; a later instant is inside. */
  lemma {:induction false} WindowBoundary(now: int, delta: int)
    ensures !IsWithinRemovalWindow(Some(DateTime(ThresholdDatetime(now), true)), now)
    ensures IsWithinRemovalWindow(Some(DateTime(ThresholdDatetime(now) + delta, true)), now) <==> delta > 0
  {
  }

  /** Later instants stay in the window; later clocks only shrink it. */
  lemma {:induction false} WindowMonotone(a: DateTime, b: DateTime, now: int, later: int)
    requires a.aware && b.aware && a.micros <= b.micros && now <= later
    ensures IsWithinRemovalWindow(Some(a), now) ==> IsWithinRemovalWindow(Some(b), now)
    ensures IsWithinRemovalWindow(Some(a), later) ==> IsWithinRemovalWindow(Some(a), now)
  {
  }
}
