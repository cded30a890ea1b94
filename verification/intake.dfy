/**
  What happens to a fetched feed before it meets the collection: events at
  an excluded location are dropped (`fetch_events`), and the events whose
  uid is not stored yet are picked out (`filter_new_events` and the
  new-event comprehension of the reconciliation run).
 */
module Intake {
  import opened Wrappers
  import opened Values
  import opened Text
  import opened Store

  /** The excluded locations, already lower-cased. */
  const EXCLUDED_LOCATIONS: seq<string> := ["privat"]

  /** A location text is excluded when, stripped and lower-cased, it is one of the excluded locations. */
  predicate ExcludedText(s: string)
  {
    LowerAscii(Strip(s)) in EXCLUDED_LOCATIONS
  }

  /** The filter condition of `fetch_events` for one event: true when the
      event is dropped. Only a truthy location is looked at; one that is not
      a string has no `strip`, and the comprehension raises. */
  function Excluded(ev: Record): (r: Result<bool, Error>)
    ensures r.Failure? <==> Truthy(Get(ev.location)) && !ev.location.value.Str?
    ensures r.Failure? ==> r.error == AttributeError("strip")
    ensures r == Success(true) <==> ev.location.Some? && ev.location.value.Str? && ExcludedText(ev.location.value.s)
  {
    if ev.location.None? || !Truthy(ev.location.value) then Success(false)
    else if ev.location.value.Str? then Success(ExcludedText(ev.location.value.s))
    else Failure(AttributeError("strip"))
  }

  /** "privat" in any letter case, with any whitespace around it, is excluded. */
  lemma PrivatExcluded(pre: string, w: string, post: string)
    requires AllSpace(pre) && AllSpace(post) && LowerAscii(w) == "privat"
    ensures Excluded(Record("", None, None, None, None, None, None, Some(Str(pre + w + post)))) == Success(true)
  {
    assert LowerAscii(w)[0] == 'p' && LowerAscii(w)[5] == 't';
    StripAround(pre, w, post);
    assert ExcludedText(pre + w + post);
    assert (pre + w + post)[|pre|] == w[0];
  }

  /** `fetch_events`: the fetched events in order, without those at an
      excluded location; the first location that is not a string raises. */
  function FilterLocations(events: seq<Record>): (r: Result<seq<Record>, Error>)
    ensures r.Failure? <==> exists i :: 0 <= i < |events| && Excluded(events[i]).Failure?
    ensures r.Success? ==> |r.value| <= |events|
    ensures r.Success? ==> forall e :: e in r.value <==> e in events && Excluded(e) == Success(false)
  {
    if events == [] then Success([])
    else
      var front := events[..|events| - 1];
      var last := events[|events| - 1];
      assert forall e :: e in events <==> e in front || e == last;
      assert forall i :: 0 <= i < |front| ==> front[i] == events[i];
      match FilterLocations(front)
      case Failure(e) => Failure(e)
      case Success(kept) =>
        match Excluded(last)
        case Failure(e) => Failure(e)
        case Success(drop) => if drop then Success(kept) else Success(kept + [last])
  }

  /** The filter's outcome once one more event `e` is looked at: an earlier
      failure stands; otherwise the event's own failure, or the kept events
      with `e` dropped or appended last. */
  function Push(r: Result<seq<Record>, Error>, drop: Result<bool, Error>, e: Record): Result<seq<Record>, Error>
  {
    match r
    case Failure(err) => Failure(err)
    case Success(kept) =>
      match drop
      case Failure(err) => Failure(err)
      case Success(d) => Success(if d then kept else kept + [e])
  }

  /** The outcome over two batches: the first failure, else both kept lists in order. */
  function Join(r1: Result<seq<Record>, Error>, r2: Result<seq<Record>, Error>): Result<seq<Record>, Error>
  {
    match r1
    case Failure(err) => Failure(err)
    case Success(k1) =>
      match r2
      case Failure(err) => Failure(err)
      case Success(k2) => Success(k1 + k2)
  }

  /** The filter looks at the events one at a time, in fetch order. */
  lemma FilterLocationsStep(events: seq<Record>, e: Record)
    ensures FilterLocations(events + [e]) == Push(FilterLocations(events), Excluded(e), e)
  {
    assert (events + [e])[..|events|] == events;
  }

  lemma JoinPush(r1: Result<seq<Record>, Error>, r2: Result<seq<Record>, Error>, drop: Result<bool, Error>, e: Record)
    ensures Join(r1, Push(r2, drop, e)) == Push(Join(r1, r2), drop, e)
  {
    if r1.Success? && r2.Success? && drop == Success(false) {
      assert r1.value + r2.value + [e] == r1.value + (r2.value + [e]);
    }
  }

  /** The filter keeps the fetch order and every copy: it distributes over
      the concatenation of two batches, and the first failure wins. */
  lemma {:induction false} FilterLocationsAppend(a: seq<Record>, b: seq<Record>)
    ensures FilterLocations(a + b) == Join(FilterLocations(a), FilterLocations(b))
    ensures FilterLocations(a).Failure? ==> FilterLocations(a + b) == FilterLocations(a)
    ensures FilterLocations(a).Success? && FilterLocations(b).Failure? ==> FilterLocations(a + b) == FilterLocations(b)
    ensures FilterLocations(a).Success? && FilterLocations(b).Success? ==>
      FilterLocations(a + b) == Success(FilterLocations(a).value + FilterLocations(b).value)
    decreases |b|
  {
    if b == [] {
      assert a + b == a;
      if FilterLocations(a).Success? {
        assert FilterLocations(a).value + [] == FilterLocations(a).value;
      }
    } else {
      var front := b[..|b| - 1];
      var last := b[|b| - 1];
      assert b == front + [last];
      assert a + b == (a + front) + [last];
      FilterLocationsAppend(a, front);
      FilterLocationsStep(front, last);
      FilterLocationsStep(a + front, last);
      JoinPush(FilterLocations(a), FilterLocations(front), Excluded(last), last);
    }
  }

  /** Filtering a filtered feed again changes nothing. */
  lemma {:induction false} FilterLocationsIdempotent(events: seq<Record>)
    requires FilterLocations(events).Success?
    ensures FilterLocations(FilterLocations(events).value) == FilterLocations(events)
  {
    if events != [] {
      var front := events[..|events| - 1];
      var last := events[|events| - 1];
      var kept := FilterLocations(front).value;
      FilterLocationsIdempotent(front);
      if Excluded(last) == Success(false) {
        assert (kept + [last])[..|kept|] == kept;
      }
    }
  }

  /** `[event for event in events if event["uid"] not in known]`. */
  function NewEvents(events: seq<Record>, known: set<string>): (r: seq<Record>)
    ensures |r| <= |events|
    ensures forall e :: e in r <==> e in events && e.uid !in known
    ensures UidsOf(r) == UidsOf(events) - known
  {
    if events == [] then []
    else
      var front := events[..|events| - 1];
      var last := events[|events| - 1];
      assert forall e :: e in events <==> e in front || e == last;
      var rest := NewEvents(front, known);
      if last.uid !in known then rest + [last] else rest
  }

  /** The new events keep the fetch order: filtering distributes over the
      concatenation of two batches. */
  lemma {:induction false} NewEventsAppend(a: seq<Record>, b: seq<Record>, known: set<string>)
    ensures NewEvents(a + b, known) == NewEvents(a, known) + NewEvents(b, known)
    decreases |b|
  {
    if b == [] {
      assert a + b == a;
    } else {
      var front := b[..|b| - 1];
      assert (a + b)[..|a + b| - 1] == a + front;
      assert (a + b)[|a + b| - 1] == b[|b| - 1];
      NewEventsAppend(a, front, known);
    }
  }

  /** A single event is new exactly when its uid is not known. */
  lemma NewEventsOfOne(e: Record, known: set<string>)
    ensures NewEvents([e], known) == if e.uid in known then [] else [e]
  {
    assert [e][..0] == [];
  }

  /** Nothing is new when every uid is known. */
  lemma {:induction false} NewEventsNone(events: seq<Record>, known: set<string>)
    requires UidsOf(events) <= known
    ensures NewEvents(events, known) == []
  {
    if events != [] {
      var front := events[..|events| - 1];
      assert events[|events| - 1] in events;
      assert UidsOf(front) <= UidsOf(events) by {
        assert forall e :: e in front ==> e in events;
      }
      NewEventsNone(front, known);
    }
  }

  /** Only the known uids that some event carries matter. */
  lemma {:induction false} NewEventsOnlyFetchedMatter(events: seq<Record>, a: set<string>, b: set<string>)
    requires a * UidsOf(events) == b * UidsOf(events)
    ensures NewEvents(events, a) == NewEvents(events, b)
  {
    if events != [] {
      var front := events[..|events| - 1];
      var last := events[|events| - 1];
      assert UidsOf(front) <= UidsOf(events) by {
        assert forall e :: e in front ==> e in events;
      }
      assert last in events;
      assert last.uid in a <==> last.uid in a * UidsOf(events);
      assert last.uid in b <==> last.uid in b * UidsOf(events);
      assert a * UidsOf(front) == (a * UidsOf(events)) * UidsOf(front);
      assert b * UidsOf(front) == (b * UidsOf(events)) * UidsOf(front);
      NewEventsOnlyFetchedMatter(front, a, b);
    }
  }

  /** `filter_new_events`: the events whose uid is not stored, found with one
      `$in` query on the events' uids. */
  function FilterNewEvents(c: Collection, events: seq<Record>): (r: seq<Record>)
    reads c
    ensures r == NewEvents(events, UidsOf(c.docs))
    ensures forall e :: e in r <==> e in events && c.FindOne(e.uid).None?
  {
    var existing := UidsOf(c.Find(UidsOf(events)));
    UidsOfDocsWithUids(c.docs, UidsOf(events));
    NewEventsOnlyFetchedMatter(events, existing, UidsOf(c.docs));
    NewEvents(events, existing)
  }
}
