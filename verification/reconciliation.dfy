/**
  One reconciliation run of `fetch_persist_and_send_events`, as a function of
  the stored documents, the fetched feed and the clock: the location filter,
  the detection and writing of changes, the removal of vanished events inside
  the window, and the insertion of new events. The properties the run is
  meant to have are proved about this function; the `EventService` class
  performs it step by step against the collection.
 */
module Reconciliation {
  import opened Wrappers
  import opened Values
  import opened TimeUtils
  import opened Store
  import opened Repository
  import opened Intake
  import opened Updates
  import opened Removal

  /** The collection after a run, the three lists the summary reports, and
      the KeyError that stopped the run, if any. */
  datatype RunResult = RunResult(
    docs: seq<Record>,
    added: seq<Record>,
    removed: seq<Record>,
    updated: seq<UpdateRecord>,
    error: Option<Error>)

  /** The changes found against the stored documents whose uid is in `matching`. */
  function MatchedChanges(docs: seq<Record>, events: seq<Record>, matching: set<string>, tt: TimeText): seq<Detection>
  {
    Detect(events, StoredByUid(DocsWithUids(docs, matching)), tt)
  }

  /** The stored documents whose uid is in `gone` and whose start is in the window. */
  function Vanished(docs: seq<Record>, gone: set<string>, now: int, tt: TimeText): seq<Record>
  {
    InWindow(DocsWithUids(docs, gone), now, tt)
  }

  /** A run over the feed once the location filter has let it through. */
  function RunOn(docs: seq<Record>, supportsUpdate: bool, events: seq<Record>, now: int, tt: TimeText): RunResult
  {
    var fetched := UidsOf(events);
    var all := UidsOf(docs);
    var ds := MatchedChanges(docs, events, fetched * all, tt);
    var docs1 := if supportsUpdate then ApplyWrites(docs, ds) else docs;
    var removed := Vanished(docs1, all - fetched, now, tt);
    var docs2 := WithoutUids(docs1, UidsOf(removed));
    var added := NewEvents(events, all);
    var stored := InsertAll(docs2, added);
    RunResult(stored.0, added, removed, UpdatesOf(ds), stored.1)
  }

  /** A whole run over the fetched feed `raw` at clock `now`. */
  function Reconcile(docs: seq<Record>, supportsUpdate: bool, raw: seq<Record>, now: int, tt: TimeText): (r: RunResult)
    ensures FilterLocations(raw).Failure? ==> r == RunResult(docs, [], [], [], Some(FilterLocations(raw).error))
  {
    match FilterLocations(raw)
    case Failure(e) => RunResult(docs, [], [], [], Some(e))
    case Success(events) => RunOn(docs, supportsUpdate, events, now, tt)
  }

  /** The uids of the reported updates. */
  function UpdatedUids(us: seq<UpdateRecord>): set<string>
  {
    set u | u in us :: u.uid
  }

  /** Detected changes only concern fetched uids that are stored, and are
      reported under the uid they write. */
  lemma MatchedChangesUids(docs: seq<Record>, events: seq<Record>, matching: set<string>, tt: TimeText)
    ensures var ds := MatchedChanges(docs, events, matching, tt);
      WrittenUids(ds) <= matching * UidsOf(docs) * UidsOf(events)
      && UpdatedUids(UpdatesOf(ds)) == WrittenUids(ds)
  {
    var ds := MatchedChanges(docs, events, matching, tt);
    UidsOfDocsWithUids(docs, matching);
    DetectUids(events, StoredByUid(DocsWithUids(docs, matching)), tt);
    forall x | x in WrittenUids(ds) ensures x in UpdatedUids(UpdatesOf(ds)) {
      var k :| 0 <= k < |ds| && ds[k].uid == x;
      assert UpdatesOf(ds)[k] in UpdatesOf(ds);
    }
  }

  /** A run keeps at most one document per uid. */
  lemma ReconcileKeepsUidsUnique(docs: seq<Record>, supportsUpdate: bool, raw: seq<Record>, now: int, tt: TimeText)
    requires UniqueUids(docs)
    ensures UniqueUids(Reconcile(docs, supportsUpdate, raw, now, tt).docs)
  {
    if FilterLocations(raw).Success? {
      var events := FilterLocations(raw).value;
      var fetched := UidsOf(events);
      var all := UidsOf(docs);
      var ds := MatchedChanges(docs, events, fetched * all, tt);
      ApplyWritesKeepsUids(docs, ds);
      var docs1 := if supportsUpdate then ApplyWrites(docs, ds) else docs;
      var removed := Vanished(docs1, all - fetched, now, tt);
      WithoutUidsKeepsUnique(docs1, UidsOf(removed));
      InsertAllKeepsUidsUnique(WithoutUids(docs1, UidsOf(removed)), NewEvents(events, all));
    }
  }

  /** What each list of a run holds, by uid: the added events are the fetched
      ones not stored, the updates concern fetched uids that are stored, the
      removed documents stored uids that vanished from the feed. No uid is
      reported in two lists. */
  lemma ReconcileReports(docs: seq<Record>, supportsUpdate: bool, raw: seq<Record>, now: int, tt: TimeText)
    requires FilterLocations(raw).Success?
    ensures var events := FilterLocations(raw).value;
      var o := Reconcile(docs, supportsUpdate, raw, now, tt);
      && UidsOf(o.added) == UidsOf(events) - UidsOf(docs)
      && UpdatedUids(o.updated) <= UidsOf(events) * UidsOf(docs)
      && UidsOf(o.removed) <= UidsOf(docs) - UidsOf(events)
      && UidsOf(o.added) !! UpdatedUids(o.updated)
      && UidsOf(o.added) !! UidsOf(o.removed)
      && UpdatedUids(o.updated) !! UidsOf(o.removed)
  {
    var events := FilterLocations(raw).value;
    var fetched := UidsOf(events);
    var all := UidsOf(docs);
    var ds := MatchedChanges(docs, events, fetched * all, tt);
    MatchedChangesUids(docs, events, fetched * all, tt);
    ApplyWritesKeepsUids(docs, ds);
    var docs1 := if supportsUpdate then ApplyWrites(docs, ds) else docs;
    UidsOfDocsWithUids(docs1, all - fetched);
  }

  /** Every document a run removes was stored, has vanished from the feed
      and starts inside the removal window. */
  lemma ReconcileRemovesOnlyVanished(docs: seq<Record>, supportsUpdate: bool, raw: seq<Record>, now: int, tt: TimeText)
    requires FilterLocations(raw).Success?
    ensures var events := FilterLocations(raw).value;
      forall d :: d in Reconcile(docs, supportsUpdate, raw, now, tt).removed ==>
        d in docs && d.uid !in UidsOf(events) && StartsInWindow(d, now, tt)
  {
    var events := FilterLocations(raw).value;
    var fetched := UidsOf(events);
    var all := UidsOf(docs);
    var ds := MatchedChanges(docs, events, fetched * all, tt);
    MatchedChangesUids(docs, events, fetched * all, tt);
    var docs1 := if supportsUpdate then ApplyWrites(docs, ds) else docs;
    forall d | d in Vanished(docs1, all - fetched, now, tt) ensures d in docs {
      if supportsUpdate {
        UnwrittenKept(docs, ds, d);
      }
    }
  }

  /** After a run that raised nothing, the stored uids are those stored
      before less the removed ones, plus every fetched one. */
  lemma ReconcileStoresFeed(docs: seq<Record>, supportsUpdate: bool, raw: seq<Record>, now: int, tt: TimeText)
    requires Reconcile(docs, supportsUpdate, raw, now, tt).error.None?
    ensures FilterLocations(raw).Success?
    ensures var o := Reconcile(docs, supportsUpdate, raw, now, tt);
      UidsOf(o.docs) == (UidsOf(docs) - UidsOf(o.removed)) + UidsOf(FilterLocations(raw).value)
  {
    var events := FilterLocations(raw).value;
    var o := Reconcile(docs, supportsUpdate, raw, now, tt);
    assert UidsOf(o.docs) == (UidsOf(docs) - UidsOf(o.removed)) + UidsOf(events) by {
      var fetched := UidsOf(events);
      var all := UidsOf(docs);
      var ds := MatchedChanges(docs, events, fetched * all, tt);
      ApplyWritesKeepsUids(docs, ds);
      var docs1 := if supportsUpdate then ApplyWrites(docs, ds) else docs;
      var removed := Vanished(docs1, all - fetched, now, tt);
      var docs2 := WithoutUids(docs1, UidsOf(removed));
      var added := NewEvents(events, all);
      assert o == RunOn(docs, supportsUpdate, events, now, tt);
      assert o.docs == InsertAll(docs2, added).0 && o.removed == removed;
      assert InsertAll(docs2, added).1.None?;
      UidsOfWithoutUids(docs1, UidsOf(removed));
      InsertAllUids(docs2, added);
      assert UidsOf(removed) <= all - fetched by {
        forall d | d in removed ensures d.uid in all - fetched {
          assert d in DocsWithUids(docs1, all - fetched);
        }
      }
      assert UidsOf(o.docs) == (all - UidsOf(removed)) + (fetched - all);
      KeptPlusFetched(all, UidsOf(removed), fetched);
    }
  }

  /** What stays of the stored uids plus the new ones is what stays plus the fetched ones. */
  lemma KeptPlusFetched(all: set<string>, gone: set<string>, fetched: set<string>)
    requires gone <= all - fetched
    ensures (all - gone) + (fetched - all) == (all - gone) + fetched
  {
  }

  /** Retention: a stored document whose uid vanished from the feed is
      removed exactly when its start is inside the window, and otherwise
      stays stored (given one document per uid, as the run keeps it). */
  lemma ReconcileRetention(docs: seq<Record>, supportsUpdate: bool, raw: seq<Record>, now: int, tt: TimeText, d: Record)
    requires UniqueUids(docs) && FilterLocations(raw).Success?
    requires d in docs && d.uid !in UidsOf(FilterLocations(raw).value)
    ensures var o := Reconcile(docs, supportsUpdate, raw, now, tt);
      && (d in o.removed <==> StartsInWindow(d, now, tt))
      && (d in o.docs <==> !StartsInWindow(d, now, tt))
  {
    var events := FilterLocations(raw).value;
    var fetched := UidsOf(events);
    var all := UidsOf(docs);
    var ds := MatchedChanges(docs, events, fetched * all, tt);
    MatchedChangesUids(docs, events, fetched * all, tt);
    ApplyWritesKeepsUids(docs, ds);
    var docs1 := if supportsUpdate then ApplyWrites(docs, ds) else docs;
    if supportsUpdate {
      UnwrittenKept(docs, ds, d);
    }
    var removed := Vanished(docs1, all - fetched, now, tt);
    RemovalKeepsOthers(docs1, all - fetched, now, tt, d);
    var docs2 := WithoutUids(docs1, UidsOf(removed));
    var added := NewEvents(events, all);
    InsertAllKeepsMembers(docs2, added, d);
  }

  /** Within the removal step: a vanished document leaves the collection
      exactly when its start is in the window. */
  lemma RemovalKeepsOthers(docs: seq<Record>, gone: set<string>, now: int, tt: TimeText, d: Record)
    requires UniqueUids(docs) && d in docs && d.uid in gone
    ensures var removed := Vanished(docs, gone, now, tt);
      && (d in removed <==> StartsInWindow(d, now, tt))
      && (d in WithoutUids(docs, UidsOf(removed)) <==> !StartsInWindow(d, now, tt))
  {
    var removed := Vanished(docs, gone, now, tt);
    if !StartsInWindow(d, now, tt) {
      var j :| 0 <= j < |docs| && docs[j] == d;
      forall x | x in removed ensures x.uid != d.uid {
        var i :| 0 <= i < |docs| && docs[i] == x;
        assert x != d && i != j;
      }
    }
  }

  /** Within the insertion step: a document is stored afterwards exactly when
      it was stored before, if its uid is not among the inserted events'. */
  lemma InsertAllKeepsMembers(docs: seq<Record>, events: seq<Record>, d: Record)
    requires d.uid !in UidsOf(events)
    ensures d in InsertAll(docs, events).0 <==> d in docs
  {
    if d in InsertAll(docs, events).0 {
      InsertAllMembers(docs, events, d);
    }
    if d in docs {
      var r := InsertAll(docs, events).0;
      var k :| 0 <= k < |docs| && docs[k] == d;
      assert r[..|docs|][k] == d;
    }
  }
}
