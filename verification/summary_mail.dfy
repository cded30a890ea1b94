/**
  The summary mail of `send_summary`, which both notifiers build the same
  way: the subject with the three counts, then a body made of the greeting
  line and one section per non-empty list. The notifiers differ only in the
  block they write for an update record, so the mail is built here from the
  blocks, and each notifier supplies its own update block.
 */
module SummaryMail {
  import opened Wrappers
  import opened Values
  import opened Text
  import opened Render
  import opened Mail

  /** The body: the greeting line, then the sections of the added, removed
      and updated blocks, in that order. Every block can be found in it. */
  function Body(added: seq<string>, removed: seq<string>, updated: seq<string>): (body: string)
    ensures |INTRO| <= |body| && body[..|INTRO|] == INTRO
    ensures added == [] && removed == [] && updated == [] ==> body == INTRO
    ensures forall k :: 0 <= k < |added| ==> Contains(body, added[k])
    ensures forall k :: 0 <= k < |removed| ==> Contains(body, removed[k])
    ensures forall k :: 0 <= k < |updated| ==> Contains(body, updated[k])
  {
    SectionsContain(INTRO, ADDED_HEADER, added, REMOVED_HEADER, removed, UPDATED_HEADER, updated);
    var body := INTRO + Section(ADDED_HEADER, added) + Section(REMOVED_HEADER, removed) + Section(UPDATED_HEADER, updated);
    assert body[..|INTRO|] == INTRO;
    body
  }

  /** A section as the body holds it: nothing for no blocks; otherwise its
      header first, and each of its blocks in it. */
  ghost predicate SectionOf(header: string, blocks: seq<string>, s: string)
  {
    && (s == "" <==> blocks == [])
    && (blocks != [] ==> |header| <= |s| && s[..|header|] == header)
    && forall k :: 0 <= k < |blocks| ==> Contains(s, blocks[k])
  }

  /** The body is the greeting followed by the added, the removed and the
      updated section, in that order; each section is there exactly when
      its list is non-empty. */
  lemma BodyLayout(added: seq<string>, removed: seq<string>, updated: seq<string>)
    ensures exists s1, s2, s3 ::
      && Body(added, removed, updated) == INTRO + s1 + s2 + s3
      && SectionOf(ADDED_HEADER, added, s1)
      && SectionOf(REMOVED_HEADER, removed, s2)
      && SectionOf(UPDATED_HEADER, updated, s3)
  {
    var s1 := Section(ADDED_HEADER, added);
    var s2 := Section(REMOVED_HEADER, removed);
    var s3 := Section(UPDATED_HEADER, updated);
    forall k | 0 <= k < |added| ensures Contains(s1, added[k]) {
      SectionContains(ADDED_HEADER, added, k);
    }
    forall k | 0 <= k < |removed| ensures Contains(s2, removed[k]) {
      SectionContains(REMOVED_HEADER, removed, k);
    }
    forall k | 0 <= k < |updated| ensures Contains(s3, updated[k]) {
      SectionContains(UPDATED_HEADER, updated, k);
    }
    assert SectionOf(ADDED_HEADER, added, s1);
    assert SectionOf(REMOVED_HEADER, removed, s2);
    assert SectionOf(UPDATED_HEADER, updated, s3);
  }

  /** The message sent to `recipient`, if any: none when all three lists are
      empty; otherwise its subject carries the three counts. */
  function Message(recipient: string, added: seq<string>, removed: seq<string>, updated: seq<string>): (m: Option<Email>)
    ensures m.None? <==> added == [] && removed == [] && updated == []
    ensures m.Some? ==>
      && m.value.recipient == recipient
      && ParseSubject(m.value.subject) == Some((|added|, |removed|, |updated|))
      && m.value.body == Body(added, removed, updated)
  {
    if added == [] && removed == [] && updated == [] then None
    else
      SubjectRoundTrip(|added|, |removed|, |updated|);
      Some(Email(recipient, Subject(|added|, |removed|, |updated|), Body(added, removed, updated)))
  }

  /** The body as `send_summary` builds it, one `+=` at a time. */
  method BuildBody(added: seq<Record>, removed: seq<Record>, updated: seq<UpdateRecord>,
                   updatedBlock: UpdateRecord -> string, tt: TimeText) returns (body: string)
    ensures body == Body(AddedBlocks(added, tt), RemovedBlocks(removed, tt), Blocks(updatedBlock, updated))
  {
    body := AppendSection(INTRO, ADDED_HEADER, added, e => AddedBlock(e, tt));
    assert Blocks(e => AddedBlock(e, tt), added) == AddedBlocks(added, tt);
    body := AppendSection(body, REMOVED_HEADER, removed, e => RemovedBlock(e, tt));
    assert Blocks(e => RemovedBlock(e, tt), removed) == RemovedBlocks(removed, tt);
    body := AppendSection(body, UPDATED_HEADER, updated, updatedBlock);
  }

  /** `send_summary`: one `send_email` of the message when there is one, nothing otherwise. */
  method Send(outbox: Outbox, recipient: string, added: seq<Record>, removed: seq<Record>, updated: seq<UpdateRecord>,
              updatedBlock: UpdateRecord -> string, tt: TimeText)
    modifies outbox
    ensures outbox.sent == old(outbox.sent) + Mails(Message(recipient, AddedBlocks(added, tt), RemovedBlocks(removed, tt), Blocks(updatedBlock, updated)))
  {
    if added == [] && removed == [] && updated == [] {
      return;
    }
    var subject := Subject(|added|, |removed|, |updated|);
    var body := BuildBody(added, removed, updated, updatedBlock, tt);
    outbox.SendEmail(recipient, subject, body);
  }
}
