/**
  Idempotence of the reconciliation run: once a run over a well-formed feed
  has raised nothing, running again over the same feed at a later clock
  finds nothing to add, update or remove, and leaves the collection as it is.
 */
module Settling {
  import opened Wrappers
  import opened Values
  import opened TimeUtils
  import opened Store
  import opened Repository
  import opened Intake
  import opened Updates
  import opened Removal
  import opened Reconciliation

  /** An event as the feed parser produces it: a start and end that parse,
      bound `description` and `location` keys, no `start_time`/`end_time` keys. */
  predicate FeedEvent(ev: Record, tt: TimeText)
  {
    && FeedStart(ev, tt).Some? && FeedEnd(ev, tt).Some?
    && ev.description.Some? && ev.location.Some?
    && ev.startTime.None? && ev.endTime.None?
  }

  /** The feed lists each uid with one content. */
  ghost predicate OneEventPerUid(events: seq<Record>)
  {
    forall a, b :: a in events && b in events && a.uid == b.uid ==> a == b
  }

  /** No stored document differs from a fetched event with its uid. */
  ghost predicate Quiet(docs: seq<Record>, events: seq<Record>, tt: TimeText)
  {
    forall d, ev :: d in docs && ev in events && d.uid == ev.uid ==> !Changed(d, ev, tt)
  }

  /** A quiet collection yields no change to detect. */
  lemma QuietDetectsNothing(docs: seq<Record>, events: seq<Record>, matching: set<string>, tt: TimeText)
    requires Quiet(docs, events, tt)
    ensures MatchedChanges(docs, events, matching, tt) == []
  {
    var m := StoredByUid(DocsWithUids(docs, matching));
    forall ev | ev in events && ev.uid in m ensures !Changed(m[ev.uid], ev, tt) {
      assert m[ev.uid] in docs;
    }
    DetectNothing(events, m, tt);
  }

  /** With one event per uid, every change detected for a uid carries the
      payload of the event with that uid. */
  lemma DetectedPayloads(events: seq<Record>, m: map<string, Record>, tt: TimeText)
    requires OneEventPerUid(events)
    ensures var ds := Detect(events, m, tt);
      forall x, ev :: x in ds && ev in events && x.uid == ev.uid ==> x.payload == PayloadFor(ev, tt)
    ensures var ds := Detect(events, m, tt);
      forall a, b :: a in ds && b in ds && a.uid == b.uid ==> a.payload == b.payload
  {
    var ds := Detect(events, m, tt);
    forall a, b | a in ds && b in ds && a.uid == b.uid ensures a.payload == b.payload {
      var ea :| ea in events && ea.uid == a.uid && a == DetectionFor(m[ea.uid], ea, tt);
      var eb :| eb in events && eb.uid == b.uid && b == DetectionFor(m[eb.uid], eb, tt);
    }
    forall x, ev | x in ds && ev in events && x.uid == ev.uid ensures x.payload == PayloadFor(ev, tt) {
      var e :| e in events && e.uid == x.uid && x == DetectionFor(m[e.uid], e, tt);
    }
  }

  /** A document whose uid was written is settled against its event. */
  lemma WrittenSettled(docs: seq<Record>, ds: seq<Detection>, i: nat, ev: Record, tt: TimeText)
    requires UniqueUids(docs) && Coherent(tt) && FeedEvent(ev, tt)
    requires i < |docs| && docs[i].uid == ev.uid && ev.uid in WrittenUids(ds)
    requires forall x :: x in ds && x.uid == ev.uid ==> x.payload == PayloadFor(ev, tt)
    requires forall a, b :: a in ds && b in ds && a.uid == b.uid ==> a.payload == b.payload
    ensures !Changed(ApplyWrites(docs, ds)[i], ev, tt)
  {
    ApplyWritesOnce(docs, ds, i);
    var x :| x in ds && x.uid == ev.uid;
    SettledByOneWrite(docs[i], ev, tt);
  }

  /** A stored document whose uid was fetched but not written was not changed. */
  lemma UnwrittenQuiet(docs: seq<Record>, events: seq<Record>, matching: set<string>, i: nat, ev: Record, tt: TimeText)
    requires UniqueUids(docs) && i < |docs| && ev in events
    requires docs[i].uid == ev.uid && ev.uid in matching
    requires ev.uid !in WrittenUids(MatchedChanges(docs, events, matching, tt))
    ensures !Changed(docs[i], ev, tt)
  {
    var m := StoredByUid(DocsWithUids(docs, matching));
    assert docs[i] in DocsWithUids(docs, matching);
    assert ev.uid in m;
    var j :| 0 <= j < |docs| && docs[j] == m[ev.uid];
    assert i == j;
  }

  /** After the writes of a run, the document at index `i` does not differ
      from a fetched event with its uid. */
  lemma QuietAfterWritesAt(docs: seq<Record>, events: seq<Record>, tt: TimeText, i: nat, ev: Record)
    requires UniqueUids(docs) && Coherent(tt) && OneEventPerUid(events)
    requires forall e :: e in events ==> FeedEvent(e, tt)
    requires i < |docs| && ev in events && docs[i].uid == ev.uid
    ensures !Changed(ApplyWrites(docs, MatchedChanges(docs, events, UidsOf(events) * UidsOf(docs), tt))[i], ev, tt)
  {
    var matching := UidsOf(events) * UidsOf(docs);
    var m := StoredByUid(DocsWithUids(docs, matching));
    var ds := Detect(events, m, tt);
    assert ds == MatchedChanges(docs, events, matching, tt);
    DetectedPayloads(events, m, tt);
    if ev.uid in WrittenUids(ds) {
      WrittenSettled(docs, ds, i, ev, tt);
    } else {
      assert docs[i] in docs && ev.uid in UidsOf(events);
      UnwrittenQuiet(docs, events, matching, i, ev, tt);
    }
  }

  /** The writes of a run leave the collection quiet. */
  lemma QuietAfterWrites(docs: seq<Record>, events: seq<Record>, tt: TimeText)
    requires UniqueUids(docs) && Coherent(tt) && OneEventPerUid(events)
    requires forall ev :: ev in events ==> FeedEvent(ev, tt)
    ensures Quiet(ApplyWrites(docs, MatchedChanges(docs, events, UidsOf(events) * UidsOf(docs), tt)), events, tt)
  {
    var docs1 := ApplyWrites(docs, MatchedChanges(docs, events, UidsOf(events) * UidsOf(docs), tt));
    forall d, ev | d in docs1 && ev in events && d.uid == ev.uid ensures !Changed(d, ev, tt) {
      var i :| 0 <= i < |docs1| && docs1[i] == d;
      QuietAfterWritesAt(docs, events, tt, i, ev);
    }
  }

  /** Inserting the new events keeps the collection quiet. */
  lemma QuietAfterInsert(docs: seq<Record>, added: seq<Record>, events: seq<Record>, tt: TimeText)
    requires Quiet(docs, events, tt) && OneEventPerUid(events)
    requires forall e :: e in added ==> e in events && FeedEvent(e, tt)
    ensures Quiet(InsertAll(docs, added).0, events, tt)
  {
    forall d, ev | d in InsertAll(docs, added).0 && ev in events && d.uid == ev.uid ensures !Changed(d, ev, tt) {
      InsertAllMembers(docs, added, d);
      if d !in docs {
        var e :| e in added && DocFromEvent(e) == Success(d);
        InsertedDocUnchanged(e, tt);
      }
    }
  }

  /** After a run, no stored document that is missing from the feed starts
      inside the window, now or at any later clock. */
  lemma NothingLeftToRemove(docs: seq<Record>, supportsUpdate: bool, events: seq<Record>, now: int, later: int, tt: TimeText)
    requires now <= later
    ensures var after := RunOn(docs, supportsUpdate, events, now, tt).docs;
      Vanished(after, UidsOf(after) - UidsOf(events), later, tt) == []
  {
    var fetched := UidsOf(events);
    var all := UidsOf(docs);
    var ds := MatchedChanges(docs, events, fetched * all, tt);
    ApplyWritesKeepsUids(docs, ds);
    var docs1 := if supportsUpdate then ApplyWrites(docs, ds) else docs;
    var removed := Vanished(docs1, all - fetched, now, tt);
    var docs2 := WithoutUids(docs1, UidsOf(removed));
    var added := NewEvents(events, all);
    var after := InsertAll(docs2, added).0;
    assert after == RunOn(docs, supportsUpdate, events, now, tt).docs;
    var left := Vanished(after, UidsOf(after) - fetched, later, tt);
    if left != [] {
      var d := left[0];
      assert d in left;
      InsertAllMembers(docs2, added, d);
      assert d in docs1 && d.uid in all;
      OutsideStaysOutside(d, now, later, tt);
      assert false;
    }
  }

  /** A run over a quiet collection that already stores every fetched uid,
      and keeps nothing vanished inside the window, changes nothing. */
  lemma SettledRunChangesNothing(docs: seq<Record>, events: seq<Record>, now: int, tt: TimeText)
    requires Quiet(docs, events, tt) && UidsOf(events) <= UidsOf(docs)
    requires Vanished(docs, UidsOf(docs) - UidsOf(events), now, tt) == []
    ensures RunOn(docs, true, events, now, tt) == RunResult(docs, [], [], [], None)
  {
    var ds := MatchedChanges(docs, events, UidsOf(events) * UidsOf(docs), tt);
    QuietDetectsNothing(docs, events, UidsOf(events) * UidsOf(docs), tt);
    assert ApplyWrites(docs, ds) == docs;
    var removed: seq<Record> := [];
    assert UidsOf(removed) == {};
    var again := NewEvents(events, UidsOf(docs));
    NewEventsNone(events, UidsOf(docs));
    assert InsertAll(docs, again) == (docs, None);
    assert UpdatesOf(ds) == [];
  }

  /** Idempotence: after a run over a well-formed feed that raised nothing,
      a second run over the same feed at a later clock adds, updates and
      removes nothing, and leaves the collection as it was. */
  lemma ReconcileTwice(docs: seq<Record>, raw: seq<Record>, now: int, later: int, tt: TimeText)
    requires UniqueUids(docs) && Coherent(tt) && now <= later
    requires OneEventPerUid(raw) && forall ev :: ev in raw ==> FeedEvent(ev, tt)
    requires Reconcile(docs, true, raw, now, tt).error.None?
    ensures var o := Reconcile(docs, true, raw, now, tt);
      Reconcile(o.docs, true, raw, later, tt) == RunResult(o.docs, [], [], [], None)
  {
    ReconcileStoresFeed(docs, true, raw, now, tt);
    var events := FilterLocations(raw).value;
    var fetched := UidsOf(events);
    var all := UidsOf(docs);
    var ds := MatchedChanges(docs, events, fetched * all, tt);
    QuietAfterWrites(docs, events, tt);
    var docs1 := ApplyWrites(docs, ds);
    var removed := Vanished(docs1, all - fetched, now, tt);
    var docs2 := WithoutUids(docs1, UidsOf(removed));
    var added := NewEvents(events, all);
    QuietAfterInsert(docs2, added, events, tt);
    var after := InsertAll(docs2, added).0;
    assert after == RunOn(docs, true, events, now, tt).docs;
    NothingLeftToRemove(docs, true, events, now, later, tt);
    SettledRunChangesNothing(after, events, later, tt);
  }
}
