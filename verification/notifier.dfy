/**
  `send_summary` of the current engine: one message per run listing the
  added, removed and updated events, sent only when at least one of the
  three lists is non-empty. An update block shows the old and new start,
  end, description and location.
 */
module Notifier {
  import opened Wrappers
  import opened Values
  import opened Text
  import opened Render
  import opened Mail
  import opened SummaryMail

  /** The fields of an update block, in the order they are written: the
      summary, the old values, the new values. A missing `old_`/`new_`
      description or location falls back to the record's plain
      `description`/`location`. */
  function UpdatedFields(u: UpdateRecord): seq<(string, Option<Value>)>
  {
    [("Summary", u.summary), ("Old Start", u.oldStart), ("Old End", u.oldEnd),
     ("Old Description", Either(u.oldDescription, u.description)),
     ("Old Location", Either(u.oldLocation, u.location)),
     ("New Start", u.newStart), ("New End", u.newEnd),
     ("New Description", Either(u.newDescription, u.description)),
     ("New Location", Either(u.newLocation, u.location))]
  }

  /** The block for an update record. */
  function UpdatedBlock(u: UpdateRecord, tt: TimeText): string
  {
    Block(UpdatedFields(u), tt)
  }

  function UpdatedBlocks(us: seq<UpdateRecord>, tt: TimeText): (r: seq<string>)
    ensures |r| == |us| && forall i :: 0 <= i < |us| ==> r[i] == UpdatedBlock(us[i], tt)
  {
    seq(|us|, i requires 0 <= i < |us| => UpdatedBlock(us[i], tt))
  }

  /** An update block shows the summary, the old and the new start, end,
      description and location, the last two falling back to the plain keys,
      and ends with the divider. */
  lemma UpdatedBlockLines(u: UpdateRecord, tt: TimeText)
    ensures var b := UpdatedBlock(u, tt);
      && Contains(b, FieldLine(("Summary", u.summary), tt))
      && Contains(b, FieldLine(("Old Start", u.oldStart), tt))
      && Contains(b, FieldLine(("Old End", u.oldEnd), tt))
      && Contains(b, FieldLine(("Old Description", Either(u.oldDescription, u.description)), tt))
      && Contains(b, FieldLine(("Old Location", Either(u.oldLocation, u.location)), tt))
      && Contains(b, FieldLine(("New Start", u.newStart), tt))
      && Contains(b, FieldLine(("New End", u.newEnd), tt))
      && Contains(b, FieldLine(("New Description", Either(u.newDescription, u.description)), tt))
      && Contains(b, FieldLine(("New Location", Either(u.newLocation, u.location)), tt))
    ensures |DIVIDER| <= |UpdatedBlock(u, tt)|
    ensures UpdatedBlock(u, tt)[|UpdatedBlock(u, tt)| - |DIVIDER|..] == DIVIDER
  {
    var fs := UpdatedFields(u);
    BlockHasLines(fs, tt, 0);
    BlockHasLines(fs, tt, 1);
    BlockHasLines(fs, tt, 2);
    BlockHasLines(fs, tt, 3);
    BlockHasLines(fs, tt, 4);
    BlockHasLines(fs, tt, 5);
    BlockHasLines(fs, tt, 6);
    BlockHasLines(fs, tt, 7);
    BlockHasLines(fs, tt, 8);
    BlockEndsWithDivider(fs, tt);
  }

  /** The message `send_summary` sends for the three lists, if any. */
  function Summary(recipient: string, added: seq<Record>, removed: seq<Record>, updated: seq<UpdateRecord>, tt: TimeText): Option<Email>
  {
    Message(recipient, AddedBlocks(added, tt), RemovedBlocks(removed, tt), UpdatedBlocks(updated, tt))
  }

  /** `send_summary`: sends `Summary(...)` when there is one, and nothing otherwise. */
  method SendSummary(outbox: Outbox, recipient: string, added: seq<Record>, removed: seq<Record>, updated: seq<UpdateRecord>, tt: TimeText)
    modifies outbox
    ensures outbox.sent == old(outbox.sent) + Mails(Summary(recipient, added, removed, updated, tt))
  {
    Send(outbox, recipient, added, removed, updated, u => UpdatedBlock(u, tt), tt);
    assert Blocks(u => UpdatedBlock(u, tt), updated) == UpdatedBlocks(updated, tt);
  }
}
