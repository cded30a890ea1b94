/**
  The older service of the `app` package: it filters the feed by location,
  keeps the events whose uid is not stored, stores them, and mails their
  details in one "New Events" message. It never updates or removes.
 */
module LegacyEventService {
  import opened Wrappers
  import opened Values
  import opened Text
  import opened Store
  import opened Repository
  import opened Intake
  import opened Render
  import opened Mail

  const DETAILS_INTRO: string := "Event Details:\n\n"
  const SUBJECT_PREFIX: string := "New Events: "
  const SUBJECT_SUFFIX: string := " found"

  /** The block `send_events_email` writes for one event. `summary`, `dtstart`
      and `dtend` are read with `[]`, in that order, so the first of them
      that is absent raises. */
  function EventBlock(e: Record, tt: TimeText): (r: Result<string, Error>)
    ensures r.Failure? <==> e.summary.None? || e.dtstart.None? || e.dtend.None?
    ensures r.Success? ==> r.value == Block([("Summary", e.summary), ("Start Time", e.dtstart),
      ("End Time", e.dtend), ("Description", e.description), ("Location", e.location)], tt)
  {
    if e.summary.None? then Failure(KeyError("summary"))
    else if e.dtstart.None? then Failure(KeyError("dtstart"))
    else if e.dtend.None? then Failure(KeyError("dtend"))
    else Success(Block([("Summary", e.summary), ("Start Time", e.dtstart), ("End Time", e.dtend),
                        ("Description", e.description), ("Location", e.location)], tt))
  }

  /** The blocks of all events, or the KeyError of the first event that raises. */
  function EventBlocks(events: seq<Record>, tt: TimeText): (r: Result<seq<string>, Error>)
    ensures r.Success? <==> forall k :: 0 <= k < |events| ==> EventBlock(events[k], tt).Success?
    ensures r.Success? ==> |r.value| == |events|
    ensures r.Success? ==> forall k :: 0 <= k < |events| ==> r.value[k] == EventBlock(events[k], tt).value
    ensures r.Failure? ==> exists k :: (0 <= k < |events| && EventBlock(events[k], tt) == Failure(r.error) &&
      forall j :: 0 <= j < k ==> EventBlock(events[j], tt).Success?)
  {
    if events == [] then Success([])
    else
      var front := events[..|events| - 1];
      var last := events[|events| - 1];
      assert forall k :: 0 <= k < |front| ==> front[k] == events[k];
      match EventBlocks(front, tt)
      case Failure(e) => Failure(e)
      case Success(bs) =>
        match EventBlock(last, tt)
        case Failure(e) => Failure(e)
        case Success(b) => Success(bs + [b])
  }

  /** Once a prefix raises, the whole list raises the same error. */
  lemma {:induction false} EventBlocksFailure(events: seq<Record>, n: nat, tt: TimeText)
    requires n <= |events| && EventBlocks(events[..n], tt).Failure?
    ensures EventBlocks(events, tt) == EventBlocks(events[..n], tt)
    decreases |events| - n
  {
    if n < |events| {
      assert events[..n + 1][..n] == events[..n];
      EventBlocksFailure(events, n + 1, tt);
    } else {
      assert events[..n] == events;
    }
  }

  /** The subject: the number of events. */
  function NewEventsSubject(n: nat): string
  {
    SUBJECT_PREFIX + NatToString(n) + SUBJECT_SUFFIX
  }

  /** The count read back from a subject line, if it has the shape. */
  function ParseNewEventsSubject(s: string): Option<nat>
  {
    match ReadLiteral(SUBJECT_PREFIX, s)
    case None => None
    case Some(rest) =>
      match ReadNat(rest)
      case None => None
      case Some((n, tail)) => if tail == SUBJECT_SUFFIX then Some(n) else None
  }

  lemma NewEventsSubjectRoundTrip(n: nat)
    ensures ParseNewEventsSubject(NewEventsSubject(n)) == Some(n)
  {
    assert NewEventsSubject(n) == SUBJECT_PREFIX + (NatToString(n) + SUBJECT_SUFFIX);
    ReadLiteralOf(SUBJECT_PREFIX, NatToString(n) + SUBJECT_SUFFIX);
    ReadNatOfString(n, SUBJECT_SUFFIX);
  }

  /** `send_events_email`: nothing for no events, the first KeyError of a
      block, or the one mail with the count and every block. */
  function EventsEmail(recipient: string, events: seq<Record>, tt: TimeText): Result<Option<Email>, Error>
  {
    if events == [] then Success(None)
    else
      match EventBlocks(events, tt)
      case Failure(e) => Failure(e)
      case Success(bs) => Success(Some(Email(recipient, NewEventsSubject(|events|), DETAILS_INTRO + Concat(bs))))
  }

  /** What the mail says: no mail for no events; otherwise the first KeyError,
      or one mail to the recipient whose subject reads back as the number of
      events and whose body holds every event's block. */
  lemma EventsEmailContents(recipient: string, events: seq<Record>, tt: TimeText)
    ensures var r := EventsEmail(recipient, events, tt);
      && (events == [] ==> r == Success(None))
      && (r.Failure? <==> EventBlocks(events, tt).Failure?)
      && (r.Success? && events != [] ==> r.value.Some?)
    ensures var r := EventsEmail(recipient, events, tt);
      r.Success? && events != [] ==>
      && r.value.value.recipient == recipient
      && ParseNewEventsSubject(r.value.value.subject) == Some(|events|)
      && |DETAILS_INTRO| <= |r.value.value.body| && r.value.value.body[..|DETAILS_INTRO|] == DETAILS_INTRO
      && forall k :: 0 <= k < |events| ==> Contains(r.value.value.body, EventBlock(events[k], tt).value)
  {
    if events != [] && EventBlocks(events, tt).Success? {
      var bs := EventBlocks(events, tt).value;
      NewEventsSubjectRoundTrip(|events|);
      var body := DETAILS_INTRO + Concat(bs);
      forall k | 0 <= k < |events| ensures Contains(body, EventBlock(events[k], tt).value) {
        ConcatContains(bs, k);
        ContainsPrepend(DETAILS_INTRO, Concat(bs), bs[k]);
      }
    }
  }

  /** The mails a call sends. */
  function Sent(m: Result<Option<Email>, Error>): seq<Email>
  {
    if m.Success? && m.value.Some? then [m.value.value] else []
  }

  /** One more event appends its block, or raises its KeyError. */
  lemma EventBlocksStep(events: seq<Record>, i: nat, tt: TimeText)
    requires i < |events| && EventBlocks(events[..i], tt).Success?
    ensures EventBlocks(events[..i + 1], tt) ==
      match EventBlock(events[i], tt)
      case Failure(e) => Failure(e)
      case Success(b) => Success(EventBlocks(events[..i], tt).value + [b])
  {
    assert events[..i + 1][..i] == events[..i];
  }

  /** The body loop of `send_events_email`: the intro, then one block per
      event; the first KeyError stops it. */
  method EventDetails(events: seq<Record>, tt: TimeText) returns (body: Result<string, Error>)
    ensures EventBlocks(events, tt).Failure? ==> body == Failure(EventBlocks(events, tt).error)
    ensures EventBlocks(events, tt).Success? ==> body == Success(DETAILS_INTRO + Concat(EventBlocks(events, tt).value))
  {
    var text := DETAILS_INTRO;
    ghost var blocks: seq<string> := [];
    for i := 0 to |events|
      invariant EventBlocks(events[..i], tt) == Success(blocks)
      invariant text == DETAILS_INTRO + Concat(blocks)
    {
      EventBlocksStep(events, i, tt);
      var block := EventBlock(events[i], tt);
      if block.Failure? {
        EventBlocksFailure(events, i + 1, tt);
        return Failure(block.error);
      }
      ConcatSnoc(DETAILS_INTRO, blocks, block.value);
      text := text + block.value;
      blocks := blocks + [block.value];
    }
    assert events[..|events|] == events;
    body := Success(text);
  }

  /** `send_events_email`; a KeyError stops it before any mail. */
  method SendEventsEmail(outbox: Outbox, recipient: string, events: seq<Record>, tt: TimeText) returns (err: Option<Error>)
    modifies outbox
    ensures var m := EventsEmail(recipient, events, tt);
      && (m.Failure? ==> err == Some(m.error))
      && (m.Success? ==> err == None)
      && outbox.sent == old(outbox.sent) + Sent(m)
  {
    if events == [] {
      return None;
    }
    var subject := SUBJECT_PREFIX + NatToString(|events|) + SUBJECT_SUFFIX;
    var body := EventDetails(events, tt);
    if body.Failure? {
      return Some(body.error);
    }
    outbox.SendEmail(recipient, subject, body.value);
    err := None;
  }

  /** The collection after a run of the older service, the events it stored,
      the mails it sent, and what it raised, if anything. */
  datatype LegacyOutcome = LegacyOutcome(docs: seq<Record>, stored: seq<Record>, mails: seq<Email>, error: Option<Error>)

  /** A whole run of the older service over the fetched feed `raw`. */
  function LegacyRun(docs: seq<Record>, raw: seq<Record>, recipient: string, tt: TimeText): LegacyOutcome
  {
    match FilterLocations(raw)
    case Failure(e) => LegacyOutcome(docs, [], [], Some(e))
    case Success(events) =>
      var incoming := NewEvents(events, UidsOf(docs));
      var ins := InsertAll(docs, incoming);
      if ins.1.Some? then LegacyOutcome(ins.0, incoming, [], ins.1)
      else
        var m := EventsEmail(recipient, incoming, tt);
        LegacyOutcome(ins.0, incoming, Sent(m), if m.Failure? then Some(m.error) else None)
  }

  /** A successful run stores every fetched uid, and mails exactly when it
      found new events. */
  lemma LegacyRunStoresFeed(docs: seq<Record>, raw: seq<Record>, recipient: string, tt: TimeText)
    requires LegacyRun(docs, raw, recipient, tt).error.None?
    ensures FilterLocations(raw).Success?
    ensures var o := LegacyRun(docs, raw, recipient, tt);
      && UidsOf(o.docs) == UidsOf(docs) + UidsOf(FilterLocations(raw).value)
      && UidsOf(o.stored) == UidsOf(FilterLocations(raw).value) - UidsOf(docs)
      && (o.mails == [] <==> o.stored == [])
  {
    var events := FilterLocations(raw).value;
    InsertAllUids(docs, NewEvents(events, UidsOf(docs)));
  }

  /** Idempotence: after a run that raised nothing, a second run over the
      same feed stores nothing, mails nothing and leaves the collection as it is. */
  lemma LegacyRunTwice(docs: seq<Record>, raw: seq<Record>, recipient: string, tt: TimeText)
    requires LegacyRun(docs, raw, recipient, tt).error.None?
    ensures var o := LegacyRun(docs, raw, recipient, tt);
      LegacyRun(o.docs, raw, recipient, tt) == LegacyOutcome(o.docs, [], [], None)
  {
    LegacyRunStoresFeed(docs, raw, recipient, tt);
    var o := LegacyRun(docs, raw, recipient, tt);
    var events := FilterLocations(raw).value;
    NewEventsNone(events, UidsOf(o.docs));
  }

  class LegacyEventService {
    const collection: Collection
    const outbox: Outbox
    const recipient: string
    const tt: TimeText

    constructor (collection: Collection, outbox: Outbox, recipient: string, tt: TimeText)
      ensures this.collection == collection && this.outbox == outbox
      ensures this.recipient == recipient && this.tt == tt
    {
      this.collection := collection;
      this.outbox := outbox;
      this.recipient := recipient;
      this.tt := tt;
    }

    /** `fetch_persist_and_send_events` of the older service over the fetched
        feed `raw`: the new events, or what was raised on the way. */
    method FetchPersistAndSendEvents(raw: seq<Record>) returns (r: Result<seq<Record>, Error>)
      modifies collection, outbox
      ensures var o := LegacyRun(old(collection.docs), raw, recipient, tt);
        && collection.docs == o.docs
        && outbox.sent == old(outbox.sent) + o.mails
        && (o.error.None? ==> r == Success(o.stored))
        && (o.error.Some? ==> r == Failure(o.error.value))
    {
      var filtered := FilterLocations(raw);
      if filtered.Failure? {
        return Failure(filtered.error);
      }
      var events := FilterNewEvents(collection, filtered.value);
      var err := InsertEvents(collection, events);
      if err.Some? {
        return Failure(err.value);
      }
      err := SendEventsEmail(outbox, recipient, events, tt);
      if err.Some? {
        return Failure(err.value);
      }
      r := Success(events);
    }
  }
}
