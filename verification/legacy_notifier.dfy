/**
  `send_summary` of the older `app` package: the same message as the
  current notifier, except that an update block shows only the old and new
  start and end.
 */
module LegacyNotifier {
  import opened Wrappers
  import opened Values
  import opened Text
  import opened Render
  import opened Mail
  import opened SummaryMail

  /** The fields of an update block: the summary, the old and the new start and end. */
  function UpdatedFields(u: UpdateRecord): seq<(string, Option<Value>)>
  {
    [("Summary", u.summary), ("Old Start", u.oldStart), ("Old End", u.oldEnd),
     ("New Start", u.newStart), ("New End", u.newEnd)]
  }

  /** The block for an update record. */
  function UpdatedBlock(u: UpdateRecord, tt: TimeText): string
  {
    Block(UpdatedFields(u), tt)
  }

  /** An update block shows the summary and the old and new start and end,
      and ends with the divider. */
  lemma UpdatedBlockLines(u: UpdateRecord, tt: TimeText)
    ensures var b := UpdatedBlock(u, tt);
      && Contains(b, FieldLine(("Summary", u.summary), tt))
      && Contains(b, FieldLine(("Old Start", u.oldStart), tt))
      && Contains(b, FieldLine(("Old End", u.oldEnd), tt))
      && Contains(b, FieldLine(("New Start", u.newStart), tt))
      && Contains(b, FieldLine(("New End", u.newEnd), tt))
    ensures |DIVIDER| <= |UpdatedBlock(u, tt)|
    ensures UpdatedBlock(u, tt)[|UpdatedBlock(u, tt)| - |DIVIDER|..] == DIVIDER
  {
    var fs := UpdatedFields(u);
    BlockHasLines(fs, tt, 0);
    BlockHasLines(fs, tt, 1);
    BlockHasLines(fs, tt, 2);
    BlockHasLines(fs, tt, 3);
    BlockHasLines(fs, tt, 4);
    BlockEndsWithDivider(fs, tt);
  }

  /** The message `send_summary` sends for the three lists, if any. */
  function Summary(recipient: string, added: seq<Record>, removed: seq<Record>, updated: seq<UpdateRecord>, tt: TimeText): Option<Email>
  {
    Message(recipient, AddedBlocks(added, tt), RemovedBlocks(removed, tt), Blocks(u => UpdatedBlock(u, tt), updated))
  }

  /** `send_summary`: sends `Summary(...)` when there is one, and nothing otherwise. */
  method SendSummary(outbox: Outbox, recipient: string, added: seq<Record>, removed: seq<Record>, updated: seq<UpdateRecord>, tt: TimeText)
    modifies outbox
    ensures outbox.sent == old(outbox.sent) + Mails(Summary(recipient, added, removed, updated, tt))
  {
    Send(outbox, recipient, added, removed, updated, u => UpdatedBlock(u, tt), tt);
  }
}
