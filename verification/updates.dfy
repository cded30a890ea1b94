/**
  Update detection of the reconciliation run: which fetched events differ
  from their stored document, the `$set` payload and the update record
  built for each, and the collection once the payloads are written.
 */
module Updates {
  import opened Wrappers
  import opened Values
  import opened TimeUtils
  import opened Store
  import opened Repository

  /** The start of a stored document: `start_time`, else `dtstart`, parsed. */
  function StoredStart(d: Record, tt: TimeText): Option<DateTime>
  {
    ParseDt(Or(Get(d.startTime), Get(d.dtstart)), tt)
  }

  /** The end of a stored document: `end_time`, else `dtend`, parsed. */
  function StoredEnd(d: Record, tt: TimeText): Option<DateTime>
  {
    ParseDt(Or(Get(d.endTime), Get(d.dtend)), tt)
  }

  /** The start of a fetched event: `dtstart`, else `start_time`, parsed. */
  function FeedStart(ev: Record, tt: TimeText): Option<DateTime>
  {
    ParseDt(Or(Get(ev.dtstart), Get(ev.startTime)), tt)
  }

  /** The end of a fetched event: `dtend`, else `end_time`, parsed. */
  function FeedEnd(ev: Record, tt: TimeText): Option<DateTime>
  {
    ParseDt(Or(Get(ev.dtend), Get(ev.endTime)), tt)
  }

  /** `d.get(key) or ""`. */
  function TextOrEmpty(field: Option<Value>): Value
  {
    Or(Get(field), Str(""))
  }

  /** An event has changed against its stored document when its start or end
      differs (a missing one differs from a present one), or its description
      or location differs, a missing or empty one counting as "". The summary
      is not compared. */
  predicate Changed(stored: Record, ev: Record, tt: TimeText)
  {
    || StoredStart(stored, tt) != FeedStart(ev, tt)
    || StoredEnd(stored, tt) != FeedEnd(ev, tt)
    || TextOrEmpty(stored.description) != TextOrEmpty(ev.description)
    || TextOrEmpty(stored.location) != TextOrEmpty(ev.location)
  }

  /** `d.isoformat() if d is not None else None`. */
  function IsoOrNone(d: Option<DateTime>, tt: TimeText): Value
  {
    if d.Some? then Str(tt.iso(d.value)) else Null
  }

  /** The `$set` payload for a changed event: the new start and end as ISO
      text when they parse, and the summary, description and location the
      event has. */
  function PayloadFor(ev: Record, tt: TimeText): Payload
  {
    var start := FeedStart(ev, tt);
    var end := FeedEnd(ev, tt);
    Payload(
      startTime := if start.Some? then Some(Str(tt.iso(start.value))) else None,
      endTime := if end.Some? then Some(Str(tt.iso(end.value))) else None,
      summary := ev.summary,
      description := ev.description,
      location := ev.location)
  }

  /** The update record for a changed event, with the old and new values. */
  function UpdateFor(stored: Record, ev: Record, tt: TimeText): UpdateRecord
  {
    UpdateRecord(
      uid := ev.uid,
      summary := Some(if ev.summary.Some? then ev.summary.value else Get(stored.summary)),
      oldStart := Some(IsoOrNone(StoredStart(stored, tt), tt)),
      oldEnd := Some(IsoOrNone(StoredEnd(stored, tt), tt)),
      newStart := Some(IsoOrNone(FeedStart(ev, tt), tt)),
      newEnd := Some(IsoOrNone(FeedEnd(ev, tt), tt)),
      oldDescription := Some(Get(stored.description)),
      newDescription := Some(Get(ev.description)),
      oldLocation := Some(Get(stored.location)),
      newLocation := Some(Get(ev.location)),
      description := None,
      location := None)
  }

  /** One detected change: the uid written, its payload, and the record reported. */
  datatype Detection = Detection(uid: string, payload: Payload, update: UpdateRecord)

  function DetectionFor(stored: Record, ev: Record, tt: TimeText): Detection
  {
    Detection(ev.uid, PayloadFor(ev, tt), UpdateFor(stored, ev, tt))
  }

  /** `{doc["uid"]: doc for doc in docs}`: every stored uid, mapped to a
      document that carries it (the last one, `StoredByUidLast`). */
  function StoredByUid(docs: seq<Record>): (m: map<string, Record>)
    ensures m.Keys == UidsOf(docs)
    ensures forall u :: u in m ==> m[u] in docs && m[u].uid == u
  {
    if docs == [] then map[]
    else
      var front := docs[..|docs| - 1];
      var last := docs[|docs| - 1];
      assert forall d :: d in docs <==> d in front || d == last;
      StoredByUid(front)[last.uid := last]
  }

  /** A later document with the same uid overwrites an earlier one, so a
      uid maps to the last document that carries it. */
  lemma {:induction false} StoredByUidLast(docs: seq<Record>, i: nat)
    requires i < |docs| && forall j :: i < j < |docs| ==> docs[j].uid != docs[i].uid
    ensures docs[i].uid in StoredByUid(docs) && StoredByUid(docs)[docs[i].uid] == docs[i]
  {
    var front := docs[..|docs| - 1];
    if i < |docs| - 1 {
      assert front[i] == docs[i];
      assert forall j :: i < j < |front| ==> front[j] == docs[j];
      StoredByUidLast(front, i);
    }
  }

  /** With one document per uid, each document is the one its uid maps to. */
  lemma StoredByUidUnique(docs: seq<Record>)
    requires UniqueUids(docs)
    ensures forall d :: d in docs ==> d.uid in StoredByUid(docs) && StoredByUid(docs)[d.uid] == d
  {
    forall d | d in docs ensures d.uid in StoredByUid(docs) && StoredByUid(docs)[d.uid] == d {
      var i :| 0 <= i < |docs| && docs[i] == d;
      StoredByUidLast(docs, i);
    }
  }

  /** The changes the loop of `_detect_and_apply_updates` finds, in the order
      of the events: one for each event whose uid is stored and that has
      changed against the stored document. */
  function Detect(events: seq<Record>, stored: map<string, Record>, tt: TimeText): (r: seq<Detection>)
    ensures |r| <= |events|
    ensures forall d :: d in r ==> (d.uid in stored &&
      exists ev :: ev in events && ev.uid == d.uid && Changed(stored[ev.uid], ev, tt) && d == DetectionFor(stored[ev.uid], ev, tt))
    ensures forall ev :: ev in events && ev.uid in stored && Changed(stored[ev.uid], ev, tt) ==>
      DetectionFor(stored[ev.uid], ev, tt) in r
  {
    if events == [] then []
    else
      var front := events[..|events| - 1];
      var ev := events[|events| - 1];
      assert forall e :: e in events <==> e in front || e == ev;
      var rest := Detect(front, stored, tt);
      if ev.uid in stored && Changed(stored[ev.uid], ev, tt) then rest + [DetectionFor(stored[ev.uid], ev, tt)]
      else rest
  }

  /** No change is detected when no event with a stored uid has changed. */
  lemma {:induction false} DetectNothing(events: seq<Record>, stored: map<string, Record>, tt: TimeText)
    requires forall ev :: ev in events && ev.uid in stored ==> !Changed(stored[ev.uid], ev, tt)
    ensures Detect(events, stored, tt) == []
  {
    if events != [] {
      assert forall e :: e in events[..|events| - 1] ==> e in events;
      DetectNothing(events[..|events| - 1], stored, tt);
    }
  }

  /** One more event extends the detected changes by at most its own. */
  lemma DetectStep(events: seq<Record>, i: nat, stored: map<string, Record>, tt: TimeText)
    requires i < |events|
    ensures var ev := events[i];
      Detect(events[..i + 1], stored, tt) ==
        if ev.uid in stored && Changed(stored[ev.uid], ev, tt) then Detect(events[..i], stored, tt) + [DetectionFor(stored[ev.uid], ev, tt)]
        else Detect(events[..i], stored, tt)
  {
    assert events[..i + 1][..i] == events[..i];
  }

  /** The update records reported for the detected changes. */
  function UpdatesOf(ds: seq<Detection>): (r: seq<UpdateRecord>)
    ensures |r| == |ds| && forall k :: 0 <= k < |ds| ==> r[k] == ds[k].update
  {
    seq(|ds|, k requires 0 <= k < |ds| => ds[k].update)
  }

  /** The uids written by the detected changes. */
  function WrittenUids(ds: seq<Detection>): set<string>
  {
    set d | d in ds :: d.uid
  }

  /** One more change is one more `update_one`. */
  lemma ApplyWritesStep(docs: seq<Record>, ds: seq<Detection>, d: Detection)
    ensures ApplyWrites(docs, ds + [d]) == UpdateFirst(ApplyWrites(docs, ds), d.uid, d.payload)
    ensures UpdatesOf(ds + [d]) == UpdatesOf(ds) + [d.update]
  {
    assert (ds + [d])[..|ds|] == ds;
  }

  /** Only stored uids that some event carries are written. */
  lemma {:induction false} DetectUids(events: seq<Record>, stored: map<string, Record>, tt: TimeText)
    ensures WrittenUids(Detect(events, stored, tt)) <= stored.Keys * UidsOf(events)
  {
    if events != [] {
      var front := events[..|events| - 1];
      var ev := events[|events| - 1];
      DetectUids(front, stored, tt);
      assert UidsOf(events) == UidsOf(front) + {ev.uid} by {
        assert forall e :: e in events <==> e in front || e == ev;
      }
      var rest := Detect(front, stored, tt);
      if ev.uid in stored && Changed(stored[ev.uid], ev, tt) {
        assert WrittenUids(rest + [DetectionFor(stored[ev.uid], ev, tt)]) == WrittenUids(rest) + {ev.uid} by {
          assert forall x :: x in rest + [DetectionFor(stored[ev.uid], ev, tt)] <==> x in rest || x == DetectionFor(stored[ev.uid], ev, tt);
        }
      }
    }
  }

  /** The collection after the `update_one` of every detected change, in order. */
  function ApplyWrites(docs: seq<Record>, ds: seq<Detection>): (r: seq<Record>)
    ensures |r| == |docs| && forall i :: 0 <= i < |docs| ==> r[i].uid == docs[i].uid
    ensures forall i :: 0 <= i < |docs| && docs[i].uid !in WrittenUids(ds) ==> r[i] == docs[i]
  {
    if ds == [] then docs
    else
      var front := ds[..|ds| - 1];
      var d := ds[|ds| - 1];
      assert WrittenUids(ds) == WrittenUids(front) + {d.uid} by {
        assert forall x :: x in ds <==> x in front || x == d;
      }
      var prev := ApplyWrites(docs, front);
      UpdateFirst(prev, d.uid, d.payload)
  }

  /** The start stored once a change is written: the event's start when it
      parses, otherwise the start stored before. */
  lemma StartAfterUpdate(stored: Record, ev: Record, tt: TimeText)
    requires Coherent(tt)
    ensures StoredStart(ApplySet(stored, PayloadFor(ev, tt)), tt) ==
      if FeedStart(ev, tt).Some? then FeedStart(ev, tt) else StoredStart(stored, tt)
  {
    if FeedStart(ev, tt).Some? {
      ParseDtOfIso(FeedStart(ev, tt).value, tt);
    }
  }

  /** The end stored once a change is written: the event's end when it
      parses, otherwise the end stored before. */
  lemma EndAfterUpdate(stored: Record, ev: Record, tt: TimeText)
    requires Coherent(tt)
    ensures StoredEnd(ApplySet(stored, PayloadFor(ev, tt)), tt) ==
      if FeedEnd(ev, tt).Some? then FeedEnd(ev, tt) else StoredEnd(stored, tt)
  {
    if FeedEnd(ev, tt).Some? {
      ParseDtOfIso(FeedEnd(ev, tt).value, tt);
    }
  }

  /** Once its payload is written, an event is found unchanged on the next
      run exactly when each value it lacks was not stored either: a start
      or end that no longer parses, or a description or location key the
      event no longer has, leaves the stored value in place. */
  lemma RedetectAfterUpdate(stored: Record, ev: Record, tt: TimeText)
    requires Coherent(tt)
    ensures !Changed(ApplySet(stored, PayloadFor(ev, tt)), ev, tt) <==>
      && (FeedStart(ev, tt).Some? || StoredStart(stored, tt).None?)
      && (FeedEnd(ev, tt).Some? || StoredEnd(stored, tt).None?)
      && (ev.description.Some? || !Truthy(Get(stored.description)))
      && (ev.location.Some? || !Truthy(Get(stored.location)))
  {
    StartAfterUpdate(stored, ev, tt);
    EndAfterUpdate(stored, ev, tt);
  }

  /** An event all of whose values are present and parse is settled by one
      write, whatever was stored before. */
  lemma SettledByOneWrite(stored: Record, ev: Record, tt: TimeText)
    requires Coherent(tt)
    requires FeedStart(ev, tt).Some? && FeedEnd(ev, tt).Some? && ev.description.Some? && ev.location.Some?
    ensures !Changed(ApplySet(stored, PayloadFor(ev, tt)), ev, tt)
  {
    RedetectAfterUpdate(stored, ev, tt);
  }

  /** A stored event whose start no longer parses in the feed is reported
      as updated again on every run: the write cannot clear the old start. */
  lemma ReportedAgainWithoutStart(stored: Record, ev: Record, tt: TimeText)
    requires Coherent(tt)
    requires FeedStart(ev, tt).None? && StoredStart(stored, tt).Some?
    ensures Changed(stored, ev, tt)
    ensures Changed(ApplySet(stored, PayloadFor(ev, tt)), ev, tt)
  {
    RedetectAfterUpdate(stored, ev, tt);
  }

  /** The document stored for a new event is not found changed against that
      event, when the event has no `start_time`/`end_time` keys of its own
      (as no fetched event has). */
  lemma InsertedDocUnchanged(ev: Record, tt: TimeText)
    requires DocFromEvent(ev).Success? && ev.startTime.None? && ev.endTime.None?
    ensures !Changed(DocFromEvent(ev).value, ev, tt)
  {
  }

  /** Writing changes keeps the uids and keeps them unique. */
  lemma ApplyWritesKeepsUids(docs: seq<Record>, ds: seq<Detection>)
    ensures UidsOf(ApplyWrites(docs, ds)) == UidsOf(docs)
    ensures UniqueUids(docs) ==> UniqueUids(ApplyWrites(docs, ds))
  {
    var r := ApplyWrites(docs, ds);
    forall u | u in UidsOf(docs) ensures u in UidsOf(r) {
      var i :| 0 <= i < |docs| && docs[i].uid == u;
      assert r[i] in r;
    }
    forall u | u in UidsOf(r) ensures u in UidsOf(docs) {
      var i :| 0 <= i < |r| && r[i].uid == u;
      assert docs[i] in docs;
    }
  }

  /** Documents whose uid no change writes are the same before and after. */
  lemma UnwrittenKept(docs: seq<Record>, ds: seq<Detection>, d: Record)
    requires d.uid !in WrittenUids(ds)
    ensures d in ApplyWrites(docs, ds) <==> d in docs
  {
    var r := ApplyWrites(docs, ds);
    if d in docs {
      var i :| 0 <= i < |docs| && docs[i] == d;
      assert r[i] == d;
    }
    if d in r {
      var i :| 0 <= i < |r| && r[i] == d;
      assert docs[i] == d;
    }
  }

  /** With one document per uid, and one payload per written uid, every
      document ends up as its payload applied once to it. */
  lemma {:induction false} ApplyWritesOnce(docs: seq<Record>, ds: seq<Detection>, i: nat)
    requires UniqueUids(docs) && i < |docs|
    requires forall a, b :: a in ds && b in ds && a.uid == b.uid ==> a.payload == b.payload
    ensures forall d :: d in ds && d.uid == docs[i].uid ==> ApplyWrites(docs, ds)[i] == ApplySet(docs[i], d.payload)
  {
    if ds != [] {
      var front := ds[..|ds| - 1];
      var last := ds[|ds| - 1];
      assert forall x :: x in ds <==> x in front || x == last;
      ApplyWritesOnce(docs, front, i);
      var prev := ApplyWrites(docs, front);
      ApplyWritesKeepsUids(docs, front);
      if last.uid == docs[i].uid {
        assert last.uid in UidsOf(prev) by {
          assert prev[i] in prev;
        }
        var k := FirstIndex(prev, last.uid);
        assert k == i;
        if docs[i].uid in WrittenUids(front) {
          var x :| x in front && x.uid == docs[i].uid;
          assert prev[i] == ApplySet(docs[i], x.payload);
        }
      }
    }
  }
}
