/**
  The reconciliation service: one object holding the collection, the mail
  outbox, the recipient and the time conversions, whose methods perform a
  run step by step, each proved against the functions of `Reconciliation`.
  The fetched feed and the clock reading are passed in.
 */
module EventService {
  import opened Wrappers
  import opened Values
  import opened TimeUtils
  import opened Store
  import opened Repository
  import opened Intake
  import opened Updates
  import opened Removal
  import opened Reconciliation
  import opened Mail
  import opened Notifier

  /** `list(s)`: the members of a set, once each, in some order. */
  method ListOf(s: set<string>) returns (xs: seq<string>)
    ensures |xs| == |s|
    ensures forall u :: u in xs <==> u in s
  {
    xs := [];
    var rest := s;
    while rest != {}
      invariant rest <= s
      invariant forall u :: u in xs <==> u in s && u !in rest
      invariant |xs| + |rest| == |s|
      decreases rest
    {
      var u :| u in rest;
      xs := xs + [u];
      rest := rest - {u};
    }
  }

  /** The `changed` flag of `_detect_and_apply_updates`, set test by test.
      It is proved equal to `Updates.Changed`, about which the detection
      lemmas (`Updates.Detect`, `Updates.RedetectAfterUpdate`) are stated. */
  method ChangeFlag(stored: Record, ev: Record, tt: TimeText) returns (changed: bool)
    ensures changed == Changed(stored, ev, tt)
  {
    var oldStart := ParseDt(Or(Get(stored.startTime), Get(stored.dtstart)), tt);
    var oldEnd := ParseDt(Or(Get(stored.endTime), Get(stored.dtend)), tt);
    var newStart := ParseDt(Or(Get(ev.dtstart), Get(ev.startTime)), tt);
    var newEnd := ParseDt(Or(Get(ev.dtend), Get(ev.endTime)), tt);
    changed := false;
    if oldStart.None? != newStart.None? {
      changed := true;
    } else if oldStart.Some? && newStart.Some? && oldStart.value != newStart.value {
      changed := true;
    }
    if oldEnd.None? != newEnd.None? {
      changed := true;
    } else if oldEnd.Some? && newEnd.Some? && oldEnd.value != newEnd.value {
      changed := true;
    }
    if Or(Get(stored.description), Str("")) != Or(Get(ev.description), Str("")) {
      changed := true;
    }
    if Or(Get(stored.location), Str("")) != Or(Get(ev.location), Str("")) {
      changed := true;
    }
  }

  /** The `$set` payload, key by key: the parsed start and end as ISO text,
      then each of summary, description and location the event has. It is
      proved equal to `Updates.PayloadFor`, about which the write lemmas
      (`Updates.StartAfterUpdate`, `Updates.RedetectAfterUpdate`) are stated. */
  method BuildPayload(ev: Record, tt: TimeText) returns (payload: Payload)
    ensures payload == PayloadFor(ev, tt)
  {
    var newStart := FeedStart(ev, tt);
    var newEnd := FeedEnd(ev, tt);
    payload := Payload(None, None, None, None, None);
    if newStart.Some? {
      payload := payload.(startTime := Some(Str(tt.iso(newStart.value))));
    }
    if newEnd.Some? {
      payload := payload.(endTime := Some(Str(tt.iso(newEnd.value))));
    }
    if ev.summary.Some? {
      payload := payload.(summary := ev.summary);
    }
    if ev.description.Some? {
      payload := payload.(description := ev.description);
    }
    if ev.location.Some? {
      payload := payload.(location := ev.location);
    }
  }

  /** The `future_docs` loop of `_fetch_and_remove_events`. */
  method FutureDocs(stored: seq<Record>, now: int, tt: TimeText) returns (future: seq<Record>)
    ensures future == InWindow(stored, now, tt)
  {
    future := [];
    for i := 0 to |stored|
      invariant future == InWindow(stored[..i], now, tt)
    {
      var doc := stored[i];
      InWindowStep(stored, i, now, tt);
      var st := StoredStart(doc, tt);
      if st.Some? && IsWithinRemovalWindow(st, now) {
        future := future + [doc];
      }
    }
    assert stored[..|stored|] == stored;
  }

  class EventService {
    const collection: Collection
    const outbox: Outbox
    const recipient: string
    const tt: TimeText

    constructor (collection: Collection, outbox: Outbox, recipient: string, tt: TimeText)
      ensures this.collection == collection && this.outbox == outbox
      ensures this.recipient == recipient && this.tt == tt
    {
      this.collection := collection;
      this.outbox := outbox;
      this.recipient := recipient;
      this.tt := tt;
    }

    /** `store_events`: the insert-if-absent loop; the events come back
        unchanged unless a KeyError stops the loop. */
    method StoreEvents(events: seq<Record>) returns (r: Result<seq<Record>, Error>)
      modifies collection
      ensures var ins := InsertAll(old(collection.docs), events);
        && collection.docs == ins.0
        && (ins.1.None? ==> r == Success(events))
        && (ins.1.Some? ==> r == Failure(ins.1.value))
    {
      var err := InsertEvents(collection, events);
      if err.Some? {
        return Failure(err.value);
      }
      return Success(events);
    }

    /** One changed event in `_detect_and_apply_updates`: the `$set` of its
        payload on the first document with its uid (skipped for an empty
        payload), and its update record. */
    method WriteChange(stored: Record, ev: Record) returns (update: UpdateRecord)
      modifies collection
      ensures update == UpdateFor(stored, ev, tt)
      ensures collection.docs == if collection.supportsUpdate then UpdateFirst(old(collection.docs), ev.uid, PayloadFor(ev, tt)) else old(collection.docs)
    {
      var payload := BuildPayload(ev, tt);
      if !payload.IsEmpty() {
        var _ := UpdateOne(collection, ev.uid, payload);
      } else {
        UpdateFirstEmpty(collection.docs, ev.uid, payload);
      }
      update := UpdateFor(stored, ev, tt);
    }

    /** The loop of `_detect_and_apply_updates` over the events, against the
        stored documents `byUid` found for the matching uids. */
    method ApplyChanges(events: seq<Record>, byUid: map<string, Record>) returns (updates: seq<UpdateRecord>)
      modifies collection
      ensures var ds := Detect(events, byUid, tt);
        && updates == UpdatesOf(ds)
        && collection.docs == (if collection.supportsUpdate then ApplyWrites(old(collection.docs), ds) else old(collection.docs))
    {
      ghost var ds: seq<Detection> := [];
      updates := [];
      for i := 0 to |events|
        invariant ds == Detect(events[..i], byUid, tt)
        invariant updates == UpdatesOf(ds)
        invariant collection.docs == if collection.supportsUpdate then ApplyWrites(old(collection.docs), ds) else old(collection.docs)
      {
        var ev := events[i];
        DetectStep(events, i, byUid, tt);
        if ev.uid in byUid {
          var stored := byUid[ev.uid];
          var changed := ChangeFlag(stored, ev, tt);
          if changed {
            var update := WriteChange(stored, ev);
            ApplyWritesStep(old(collection.docs), ds, DetectionFor(stored, ev, tt));
            updates := updates + [update];
            ds := ds + [DetectionFor(stored, ev, tt)];
          }
        }
      }
      assert events[..|events|] == events;
    }

    /** `_detect_and_apply_updates`: the changes against the stored documents
        whose uid is in `matching`, written one `update_one` at a time, and
        the update records reported for them. */
    method DetectAndApplyUpdates(events: seq<Record>, matching: set<string>) returns (updates: seq<UpdateRecord>)
      modifies collection
      ensures var ds := MatchedChanges(old(collection.docs), events, matching, tt);
        && updates == UpdatesOf(ds)
        && collection.docs == (if collection.supportsUpdate then ApplyWrites(old(collection.docs), ds) else old(collection.docs))
    {
      if matching == {} {
        DetectNothing(events, map[], tt);
        return [];
      }
      var uids := ListOf(matching);
      assert (set u | u in uids) == matching;
      var found := FindDocsByUids(collection, uids);
      var byUid := StoredByUid(found);
      updates := ApplyChanges(events, byUid);
    }

    /** `_fetch_and_remove_events`: among the stored documents whose uid is in
        `all` but not `fetched`, those whose start is inside the window are
        deleted (by uid) and returned. */
    method FetchAndRemoveEvents(all: set<string>, fetched: set<string>, now: int) returns (removed: seq<Record>)
      modifies collection
      ensures removed == Vanished(old(collection.docs), all - fetched, now, tt)
      ensures collection.docs == WithoutUids(old(collection.docs), UidsOf(removed))
    {
      var removedUids := ListOf(all - fetched);
      if removedUids == [] {
        assert all - fetched == {};
        removed := [];
        assert UidsOf(removed) == {};
        return;
      }
      assert (set u | u in removedUids) == all - fetched;
      var stored := FindDocsByUids(collection, removedUids);
      removed := FutureDocs(stored, now, tt);
      if removed != [] {
        DeleteByUids(collection, UidList(removed));
      } else {
        assert UidsOf(removed) == {};
      }
    }

    /** The uid queries of `fetch_persist_and_send_events`: the fetched uids
        that are stored, and all stored uids, with the guard that recomputes
        the first from the second when the `$in` query found nothing. */
    method MatchingAndAllUids(fetched: set<string>) returns (matching: set<string>, all: set<string>)
      ensures all == UidsOf(collection.docs)
      ensures matching == fetched * all
    {
      matching := ExistingMatchingUids(collection, fetched);
      all := ExistingAllUids(collection);
      if matching == {} && fetched * all != {} {
        matching := fetched * all;
      }
    }

    /** `fetch_persist_and_send_events` over the fetched feed `raw` at clock
        `now`: the run `Reconcile` describes, then one summary mail when there
        is something to report. A KeyError while storing stops the run after
        the updates and removals are written, before any mail. */
    method FetchPersistAndSendEvents(raw: seq<Record>, now: int) returns (r: Result<seq<Record>, Error>)
      modifies collection, outbox
      ensures var o := Reconcile(old(collection.docs), collection.supportsUpdate, raw, now, tt);
        && collection.docs == o.docs
        && (o.error.None? ==>
              r == Success(o.added) && outbox.sent == old(outbox.sent) + Mails(Summary(recipient, o.added, o.removed, o.updated, tt)))
        && (o.error.Some? ==> r == Failure(o.error.value) && outbox.sent == old(outbox.sent))
    {
      var filtered := FilterLocations(raw);
      if filtered.Failure? {
        return Failure(filtered.error);
      }
      var events := filtered.value;
      var fetched := UidsOf(events);
      var matching, all := MatchingAndAllUids(fetched);
      var newEvents := NewEvents(events, matching);
      NewEventsOnlyFetchedMatter(events, matching, all);
      ghost var docs0 := collection.docs;
      ghost var o := RunOn(docs0, collection.supportsUpdate, events, now, tt);
      assert o == Reconcile(old(collection.docs), collection.supportsUpdate, raw, now, tt);
      ghost var ds := MatchedChanges(docs0, events, matching, tt);
      ghost var docs1 := if collection.supportsUpdate then ApplyWrites(docs0, ds) else docs0;
      var updated := DetectAndApplyUpdates(events, matching);
      assert collection.docs == docs1 && updated == o.updated;
      var removed := FetchAndRemoveEvents(all, fetched, now);
      assert removed == o.removed;
      ghost var docs2 := collection.docs;
      assert o.docs == InsertAll(docs2, newEvents).0 && o.error == InsertAll(docs2, newEvents).1;
      if newEvents != [] {
        var stored := StoreEvents(newEvents);
        if stored.Failure? {
          return Failure(stored.error);
        }
      }
      SendSummary(outbox, recipient, newEvents, removed, updated, tt);
      r := Success(newEvents);
    }
  }
}
