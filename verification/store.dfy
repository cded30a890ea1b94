/**
  The document collection the engine reads and writes: a sequence of stored
  documents in insertion order, with the five operations the code calls on it
  (`find_one`, `find` with a `uid $in` filter, `insert_one`, `delete_many`,
  `update_one` with `$set`). Nothing makes uids unique in the collection
  itself; `UniqueUids` is the invariant the engine is meant to keep.
 */
module Store {
  import opened Wrappers
  import opened Values

  /** The set of uids stored in `docs`. */
  function UidsOf(docs: seq<Record>): set<string>
  {
    set d | d in docs :: d.uid
  }

  /** `[d["uid"] for d in docs]`. */
  function UidList(docs: seq<Record>): (r: seq<string>)
    ensures |r| == |docs| && forall k :: 0 <= k < |docs| ==> r[k] == docs[k].uid
    ensures (set u | u in r) == UidsOf(docs)
  {
    var r := seq(|docs|, k requires 0 <= k < |docs| => docs[k].uid);
    assert forall u :: u in UidsOf(docs) ==> u in r by {
      forall u | u in UidsOf(docs) ensures u in r {
        var k :| 0 <= k < |docs| && docs[k].uid == u;
        assert r[k] == u;
      }
    }
    r
  }

  /** At most one document per uid. */
  ghost predicate UniqueUids(docs: seq<Record>)
  {
    forall i, j :: 0 <= i < j < |docs| ==> docs[i].uid != docs[j].uid
  }

  /** The first document with this uid, in collection order. */
  function FirstWithUid(docs: seq<Record>, uid: string): (r: Option<Record>)
    ensures r.None? <==> uid !in UidsOf(docs)
    ensures r.Some? ==> r.value in docs && r.value.uid == uid
  {
    if docs == [] then None
    else if docs[0].uid == uid then Some(docs[0])
    else
      var r := FirstWithUid(docs[1..], uid);
      assert UidsOf(docs) == {docs[0].uid} + UidsOf(docs[1..]) by {
        assert forall d :: d in docs <==> d == docs[0] || d in docs[1..];
      }
      r
  }

  /** The documents whose uid is in `uids`, in collection order. */
  function DocsWithUids(docs: seq<Record>, uids: set<string>): (r: seq<Record>)
    ensures uids == {} ==> r == []
    ensures forall d :: d in r <==> d in docs && d.uid in uids
    ensures forall d: Record :: d.uid in uids ==> multiset(r)[d] == multiset(docs)[d]
    ensures forall d: Record :: d.uid !in uids ==> multiset(r)[d] == 0
  {
    if docs == [] then []
    else
      var rest := DocsWithUids(docs[..|docs| - 1], uids);
      var last := docs[|docs| - 1];
      assert docs == docs[..|docs| - 1] + [last];
      if last.uid in uids then rest + [last] else rest
  }

  /** The documents whose uid is not in `uids`, in collection order. */
  function WithoutUids(docs: seq<Record>, uids: set<string>): (r: seq<Record>)
    ensures uids == {} ==> r == docs
    ensures forall d :: d in r <==> d in docs && d.uid !in uids
  {
    if docs == [] then []
    else
      var rest := WithoutUids(docs[..|docs| - 1], uids);
      var last := docs[|docs| - 1];
      assert docs == docs[..|docs| - 1] + [last];
      if last.uid !in uids then rest + [last] else rest
  }

  /** Dropping by uid keeps every copy of the other documents. */
  lemma {:induction false} WithoutUidsCounts(docs: seq<Record>, uids: set<string>)
    ensures forall d: Record :: d.uid !in uids ==> multiset(WithoutUids(docs, uids))[d] == multiset(docs)[d]
    ensures forall d: Record :: d.uid in uids ==> multiset(WithoutUids(docs, uids))[d] == 0
  {
    if docs != [] {
      var front := docs[..|docs| - 1];
      WithoutUidsCounts(front, uids);
      assert docs == front + [docs[|docs| - 1]];
    }
  }

  /** Dropping documents keeps at most one document per uid. */
  lemma {:induction false} WithoutUidsKeepsUnique(docs: seq<Record>, uids: set<string>)
    requires UniqueUids(docs)
    ensures UniqueUids(WithoutUids(docs, uids))
  {
    if docs != [] {
      var front := docs[..|docs| - 1];
      var last := docs[|docs| - 1];
      assert UniqueUids(front);
      WithoutUidsKeepsUnique(front, uids);
      var rest := WithoutUids(front, uids);
      if last.uid !in uids {
        forall d | d in rest ensures d.uid != last.uid {
          var i :| 0 <= i < |front| && front[i] == d;
          assert docs[i] == d;
        }
        var r := rest + [last];
        forall i, j | 0 <= i < j < |r| ensures r[i].uid != r[j].uid {
          if j == |rest| {
            assert r[i] in rest;
          }
        }
      }
    }
  }

  lemma UidsOfDocsWithUids(docs: seq<Record>, uids: set<string>)
    ensures UidsOf(DocsWithUids(docs, uids)) == UidsOf(docs) * uids
  {
    var r := DocsWithUids(docs, uids);
    forall u | u in UidsOf(docs) * uids ensures u in UidsOf(r) {
      var d :| d in docs && d.uid == u;
      assert d in r;
    }
  }

  lemma UidsOfWithoutUids(docs: seq<Record>, uids: set<string>)
    ensures UidsOf(WithoutUids(docs, uids)) == UidsOf(docs) - uids
  {
    var r := WithoutUids(docs, uids);
    forall u | u in UidsOf(docs) - uids ensures u in UidsOf(r) {
      var d :| d in docs && d.uid == u;
      assert d in r;
    }
  }

  /** `$set`: every key the payload binds takes the payload's value. */
  function ApplySet(doc: Record, p: Payload): (r: Record)
    ensures r.uid == doc.uid && r.dtstart == doc.dtstart && r.dtend == doc.dtend
    ensures p.IsEmpty() ==> r == doc
  {
    doc.(startTime := if p.startTime.Some? then p.startTime else doc.startTime,
         endTime := if p.endTime.Some? then p.endTime else doc.endTime,
         summary := if p.summary.Some? then p.summary else doc.summary,
         description := if p.description.Some? then p.description else doc.description,
         location := if p.location.Some? then p.location else doc.location)
  }

  /** The index of the first document with this uid. */
  function FirstIndex(docs: seq<Record>, uid: string): (k: nat)
    requires uid in UidsOf(docs)
    ensures k < |docs| && docs[k].uid == uid
    ensures forall i :: 0 <= i < k ==> docs[i].uid != uid
  {
    if docs[0].uid == uid then 0
    else
      assert UidsOf(docs) == {docs[0].uid} + UidsOf(docs[1..]) by {
        assert forall d :: d in docs <==> d == docs[0] || d in docs[1..];
      }
      1 + FirstIndex(docs[1..], uid)
  }

  /** `update_one({"uid": uid}, {"$set": p})`: the first document with the uid
      is updated, every other document is left as it was. */
  function UpdateFirst(docs: seq<Record>, uid: string, p: Payload): (r: seq<Record>)
    ensures |r| == |docs|
    ensures forall i :: 0 <= i < |docs| ==> r[i].uid == docs[i].uid
    ensures uid !in UidsOf(docs) ==> r == docs
    ensures uid in UidsOf(docs) ==>
      var k := FirstIndex(docs, uid);
      r[k] == ApplySet(docs[k], p) && forall i :: 0 <= i < |docs| && i != k ==> r[i] == docs[i]
  {
    if uid !in UidsOf(docs) then docs
    else docs[FirstIndex(docs, uid) := ApplySet(docs[FirstIndex(docs, uid)], p)]
  }

  /** A `$set` that sets nothing changes nothing. */
  lemma UpdateFirstEmpty(docs: seq<Record>, uid: string, p: Payload)
    requires p.IsEmpty()
    ensures UpdateFirst(docs, uid, p) == docs
  {
    var r := UpdateFirst(docs, uid, p);
    assert forall i :: 0 <= i < |docs| ==> r[i] == docs[i];
  }

  lemma UpdateFirstKeepsUids(docs: seq<Record>, uid: string, p: Payload)
    ensures UidsOf(UpdateFirst(docs, uid, p)) == UidsOf(docs)
    ensures UniqueUids(docs) ==> UniqueUids(UpdateFirst(docs, uid, p))
  {
    var r := UpdateFirst(docs, uid, p);
    forall u | u in UidsOf(docs) ensures u in UidsOf(r) {
      var i :| 0 <= i < |docs| && docs[i].uid == u;
      assert r[i] in r;
    }
    forall u | u in UidsOf(r) ensures u in UidsOf(docs) {
      var i :| 0 <= i < |r| && r[i].uid == u;
      assert docs[i] in docs;
    }
  }

  /** A stored collection, as the test doubles of the repository model it. */
  class Collection {
    var docs: seq<Record>
    /** False for a collection that does not implement `update_one`. */
    const supportsUpdate: bool

    constructor (docs: seq<Record>, supportsUpdate: bool)
      ensures this.docs == docs && this.supportsUpdate == supportsUpdate
    {
      this.docs := docs;
      this.supportsUpdate := supportsUpdate;
    }

    /** `find_one({"uid": uid})`. */
    function FindOne(uid: string): (r: Option<Record>)
      reads this
      ensures r.None? <==> uid !in UidsOf(docs)
      ensures r.Some? ==> r.value in docs && r.value.uid == uid
    {
      FirstWithUid(docs, uid)
    }

    /** `find({"uid": {"$in": uids}})`. */
    function Find(uids: set<string>): (r: seq<Record>)
      reads this
      ensures uids == {} ==> r == []
      ensures forall d :: d in r <==> d in docs && d.uid in uids
    {
      DocsWithUids(docs, uids)
    }

    /** `insert_one(doc)`. */
    method InsertOne(doc: Record)
      modifies this
      ensures docs == old(docs) + [doc]
    {
      docs := docs + [doc];
    }

    /** `delete_many({"uid": {"$in": uids}})`. */
    method DeleteMany(uids: set<string>)
      modifies this
      ensures docs == WithoutUids(old(docs), uids)
    {
      docs := WithoutUids(docs, uids);
    }

    /** `update_one({"uid": uid}, {"$set": p})`; the result says whether a document matched. */
    method UpdateOne(uid: string, p: Payload) returns (matched: bool)
      requires supportsUpdate
      modifies this
      ensures docs == UpdateFirst(old(docs), uid, p)
      ensures matched == (uid in UidsOf(old(docs)))
    {
      matched := uid in UidsOf(docs);
      docs := UpdateFirst(docs, uid, p);
    }
  }
}
