/**
  The repository gateway: uid lookups, bulk fetch and delete by uid, the
  single-document `$set` update whose failure is swallowed, and the
  insert-if-absent loop that turns fetched events into stored documents.
 */
module Repository {
  import opened Wrappers
  import opened Values
  import opened Store

  /** `existing_matching_uids`: the fetched uids that are stored; no query for no uids. */
  function ExistingMatchingUids(c: Collection, fetched: set<string>): (r: set<string>)
    reads c
    ensures r <= fetched
    ensures forall u :: u in r <==> u in fetched && c.FindOne(u).Some?
  {
    if fetched == {} then {}
    else
      UidsOfDocsWithUids(c.docs, fetched);
      UidsOf(c.Find(fetched)) * fetched
  }

  /** `existing_all_uids`: every stored uid, and only those `find_one` finds. */
  function ExistingAllUids(c: Collection): (r: set<string>)
    reads c
    ensures forall u :: u in r <==> c.FindOne(u).Some?
    ensures forall d :: d in c.docs ==> d.uid in r
  {
    UidsOf(c.docs)
  }

  /** `find_docs_by_uids`: the stored documents listed by uid, each as often as it is stored. */
  function FindDocsByUids(c: Collection, uids: seq<string>): (r: seq<Record>)
    reads c
    ensures uids == [] ==> r == []
    ensures r == c.Find(set u | u in uids)
    ensures forall d :: d in r <==> d in c.docs && d.uid in uids
    ensures forall d: Record :: d.uid in uids ==> multiset(r)[d] == multiset(c.docs)[d]
  {
    if uids == [] then [] else c.Find(set u | u in uids)
  }

  /** `delete_by_uids`: removes exactly the listed documents; nothing for an empty list. */
  method DeleteByUids(c: Collection, uids: seq<string>)
    modifies c
    ensures uids == [] ==> c.docs == old(c.docs)
    ensures uids != [] ==> c.docs == WithoutUids(old(c.docs), set u | u in uids)
    ensures forall d :: d in c.docs <==> d in old(c.docs) && d.uid !in uids
    ensures forall d: Record :: d.uid !in uids ==> multiset(c.docs)[d] == multiset(old(c.docs))[d]
  {
    if uids == [] {
      return;
    }
    WithoutUidsCounts(c.docs, set u | u in uids);
    c.DeleteMany(set u | u in uids);
  }

  /** `update_one`: the `$set` on the first document with the uid; a collection
      without `update_one` raises, which is swallowed into None. */
  method UpdateOne(c: Collection, uid: string, p: Payload) returns (r: Option<bool>)
    modifies c
    ensures c.supportsUpdate ==> c.docs == UpdateFirst(old(c.docs), uid, p) && r == Some(uid in UidsOf(old(c.docs)))
    ensures !c.supportsUpdate ==> c.docs == old(c.docs) && r == None
  {
    if !c.supportsUpdate {
      return None;
    }
    var matched := c.UpdateOne(uid, p);
    r := Some(matched);
  }

  /** The document `insert_events` and `store_events` build from an event:
      `dtstart` becomes `start_time`, `dtend` becomes `end_time`, description
      and location are bound even when absent from the event. `summary`,
      `dtstart` and `dtend` are read with `[]`, so an absent one raises. */
  function DocFromEvent(ev: Record): (r: Result<Record, Error>)
    ensures r.Failure? <==> ev.summary.None? || ev.dtstart.None? || ev.dtend.None?
    ensures r.Success? ==>
      && r.value.uid == ev.uid && r.value.summary == ev.summary
      && r.value.startTime == ev.dtstart && r.value.endTime == ev.dtend
      && r.value.dtstart.None? && r.value.dtend.None?
      && r.value.description == Some(Get(ev.description))
      && r.value.location == Some(Get(ev.location))
  {
    if ev.summary.None? then Failure(KeyError("summary"))
    else if ev.dtstart.None? then Failure(KeyError("dtstart"))
    else if ev.dtend.None? then Failure(KeyError("dtend"))
    else Success(Record(ev.uid, ev.summary, None, None, ev.dtstart, ev.dtend,
                        Some(Get(ev.description)), Some(Get(ev.location))))
  }

  /** The insert-if-absent loop over `events`, from the stored `docs`: the
      documents afterwards, and the KeyError that stopped the loop, if any.
      The stored documents stay in front, untouched. */
  function InsertAll(docs: seq<Record>, events: seq<Record>): (r: (seq<Record>, Option<Error>))
    ensures |docs| <= |r.0| && r.0[..|docs|] == docs
    decreases events
  {
    if events == [] then (docs, None)
    else
      var ev := events[0];
      if ev.uid in UidsOf(docs) then InsertAll(docs, events[1..])
      else
        match DocFromEvent(ev)
        case Failure(e) => (docs, Some(e))
        case Success(doc) =>
          var r := InsertAll(docs + [doc], events[1..]);
          assert r.0[..|docs|] == r.0[..|docs| + 1][..|docs|];
          r
  }

  /** The stored uids are all still stored after the loop. */
  lemma InsertAllKeepsStored(docs: seq<Record>, events: seq<Record>)
    ensures UidsOf(docs) <= UidsOf(InsertAll(docs, events).0)
  {
    var r := InsertAll(docs, events);
    forall u | u in UidsOf(docs) ensures u in UidsOf(r.0) {
      var d :| d in docs && d.uid == u;
      assert d == r.0[..|docs|][IndexOf(docs, d)];
    }
  }

  /** What follows the stored documents are documents built from events
      whose uid was not stored. */
  lemma {:induction false} InsertAllNewDocs(docs: seq<Record>, events: seq<Record>)
    ensures var r := InsertAll(docs, events);
      forall d :: d in r.0[|docs|..] ==>
        d.uid !in UidsOf(docs) && exists e :: e in events && DocFromEvent(e) == Success(d)
    decreases events
  {
    if events != [] {
      var ev := events[0];
      assert forall e :: e in events[1..] ==> e in events;
      if ev.uid in UidsOf(docs) {
        InsertAllNewDocs(docs, events[1..]);
      } else if DocFromEvent(ev).Success? {
        var doc := DocFromEvent(ev).value;
        var r := InsertAll(docs + [doc], events[1..]);
        InsertAllNewDocs(docs + [doc], events[1..]);
        assert r.0[|docs|..] == [doc] + r.0[|docs| + 1..];
        assert UidsOf(docs) <= UidsOf(docs + [doc]);
      }
    }
  }

  /** Without a KeyError, every event's uid is stored after the loop. */
  lemma {:induction false} InsertAllStoresEvents(docs: seq<Record>, events: seq<Record>)
    requires InsertAll(docs, events).1.None?
    ensures UidsOf(events) <= UidsOf(InsertAll(docs, events).0)
    decreases events
  {
    if events != [] {
      var ev := events[0];
      var r := InsertAll(docs, events);
      assert forall e :: e in events ==> e == ev || e in events[1..];
      if ev.uid in UidsOf(docs) {
        InsertAllStoresEvents(docs, events[1..]);
        InsertAllKeepsStored(docs, events[1..]);
      } else {
        var doc := DocFromEvent(ev).value;
        InsertAllStoresEvents(docs + [doc], events[1..]);
        assert doc == r.0[..|docs| + 1][|docs|];
      }
    }
  }

  /** The uids after the loop: the stored ones, some of the events' ones,
      and all of the events' ones when no KeyError stopped the loop. */
  lemma InsertAllUids(docs: seq<Record>, events: seq<Record>)
    ensures var r := InsertAll(docs, events);
      && UidsOf(docs) <= UidsOf(r.0) <= UidsOf(docs) + UidsOf(events)
      && (r.1.None? ==> UidsOf(r.0) == UidsOf(docs) + UidsOf(events))
  {
    var r := InsertAll(docs, events);
    InsertAllKeepsStored(docs, events);
    InsertAllNewDocs(docs, events);
    forall u | u in UidsOf(r.0) ensures u in UidsOf(docs) + UidsOf(events) {
      var k :| 0 <= k < |r.0| && r.0[k].uid == u;
      if k < |docs| {
        assert r.0[k] == r.0[..|docs|][k];
      } else {
        assert r.0[k] in r.0[|docs|..];
      }
    }
    if r.1.None? {
      InsertAllStoresEvents(docs, events);
    }
  }

  /** A document stored after the loop was stored before, or was built from
      an event whose uid was not stored. */
  lemma InsertAllMembers(docs: seq<Record>, events: seq<Record>, d: Record)
    requires d in InsertAll(docs, events).0
    ensures d in docs || (d.uid in UidsOf(events) - UidsOf(docs) && exists e :: e in events && DocFromEvent(e) == Success(d))
  {
    var r := InsertAll(docs, events).0;
    InsertAllNewDocs(docs, events);
    var k :| 0 <= k < |r| && r[k] == d;
    if k < |docs| {
      assert d == r[..|docs|][k];
    } else {
      assert d in r[|docs|..];
      var e :| e in events && DocFromEvent(e) == Success(d);
      assert d.uid == e.uid;
    }
  }

  function IndexOf(docs: seq<Record>, d: Record): (k: nat)
    requires d in docs
    ensures k < |docs| && docs[k] == d
  {
    if docs[0] == d then 0 else 1 + IndexOf(docs[1..], d)
  }

  /** Inserting only absent uids keeps at most one document per uid, even when
      the batch repeats a uid. */
  lemma {:induction false} InsertAllKeepsUidsUnique(docs: seq<Record>, events: seq<Record>)
    requires UniqueUids(docs)
    ensures UniqueUids(InsertAll(docs, events).0)
    decreases events
  {
    if events != [] {
      var ev := events[0];
      if ev.uid in UidsOf(docs) {
        InsertAllKeepsUidsUnique(docs, events[1..]);
      } else if DocFromEvent(ev).Success? {
        var doc := DocFromEvent(ev).value;
        var docs' := docs + [doc];
        forall i, j | 0 <= i < j < |docs'| ensures docs'[i].uid != docs'[j].uid {
          if j == |docs| {
            assert docs'[i] in docs;
          }
        }
        InsertAllKeepsUidsUnique(docs', events[1..]);
      }
    }
  }

  /** `insert_events`: `find_one`, then `insert_one` when nothing was found. */
  method InsertEvents(c: Collection, events: seq<Record>) returns (err: Option<Error>)
    modifies c
    ensures (c.docs, err) == InsertAll(old(c.docs), events)
  {
    var i := 0;
    while i < |events|
      invariant 0 <= i <= |events|
      invariant InsertAll(old(c.docs), events) == InsertAll(c.docs, events[i..])
    {
      var ev := events[i];
      assert events[i..][1..] == events[i + 1..];
      if c.FindOne(ev.uid).None? {
        var doc := DocFromEvent(ev);
        if doc.Failure? {
          return Some(doc.error);
        }
        c.InsertOne(doc.value);
      }
      i := i + 1;
    }
    err := None;
  }
}
