/**
  The text both notifiers build: the subject line with the three counts,
  the `str()` of the values in an event, the block written for an added
  or a removed event, and the sections that hold the blocks.
 */
module Render {
  import opened Wrappers
  import opened Values
  import opened Text

  /** The first line of a summary, and the headers of its three sections. */
  const INTRO: string := "Events Update:\n\n"
  const ADDED_HEADER: string := "Added Events:\n\n"
  const REMOVED_HEADER: string := "Removed Events:\n\n"
  const UPDATED_HEADER: string := "Updated Events:\n\n"

  /** The line that closes every event block. */
  const DIVIDER: string := "--------------------------\n"

  /** `str(v)` inside an f-string. */
  function Show(v: Value, tt: TimeText): string
  {
    match v
    case Null => "None"
    case Str(s) => s
    case Time(dt) => tt.show(dt)
    case Other(text, _) => text
  }

  /** `d.get(k1, d.get(k2, ...))`: the first key that is present wins. */
  function Either(first: Option<Value>, second: Option<Value>): (r: Option<Value>)
  {
    if first.Some? then first else second
  }

  /** The text of one field in a block: `str()` of its value, "N/A" when the key is absent. */
  function FieldText(field: Option<Value>, tt: TimeText): string
  {
    if field.Some? then Show(field.value, tt) else "N/A"
  }

  /** An event block: one `name: value` line per field, then the divider. */
  function Block(fields: seq<(string, Option<Value>)>, tt: TimeText): string
  {
    Lines(fields, tt) + DIVIDER
  }

  /** The `name: value` lines of the fields, in order. */
  function Lines(fields: seq<(string, Option<Value>)>, tt: TimeText): string
  {
    if fields == [] then ""
    else FieldLine(fields[0], tt) + Lines(fields[1..], tt)
  }

  /** The line a block writes for one field. */
  function FieldLine(field: (string, Option<Value>), tt: TimeText): string
  {
    field.0 + ": " + FieldText(field.1, tt) + "\n"
  }

  /** Every block ends with the divider line. */
  lemma BlockEndsWithDivider(fields: seq<(string, Option<Value>)>, tt: TimeText)
    ensures |DIVIDER| <= |Block(fields, tt)|
    ensures Block(fields, tt)[|Block(fields, tt)| - |DIVIDER|..] == DIVIDER
  {
    var lines := Lines(fields, tt);
    assert (lines + DIVIDER)[|lines|..] == DIVIDER;
  }

  /** The lines of the fields hold the line of each field. */
  lemma {:induction false} LinesHaveLine(fields: seq<(string, Option<Value>)>, tt: TimeText, k: nat)
    requires k < |fields|
    ensures Contains(Lines(fields, tt), FieldLine(fields[k], tt))
    decreases k
  {
    var rest := Lines(fields[1..], tt);
    var line := FieldLine(fields[0], tt);
    if k == 0 {
      assert (line + rest)[0..|line|] == line;
      assert OccursAt(line + rest, line, 0);
    } else {
      assert fields[1..][k - 1] == fields[k];
      LinesHaveLine(fields[1..], tt, k - 1);
      ContainsPrepend(line, rest, FieldLine(fields[k], tt));
    }
  }

  /** A block holds the line of each of its fields, "N/A" for an absent one. */
  lemma BlockHasLines(fields: seq<(string, Option<Value>)>, tt: TimeText, k: nat)
    requires k < |fields|
    ensures Contains(Block(fields, tt), FieldLine(fields[k], tt))
  {
    LinesHaveLine(fields, tt, k);
    ContainsAppend(Lines(fields, tt), DIVIDER, FieldLine(fields[k], tt));
  }

  /** The block for an added event: `dtstart` is preferred to `start_time`,
      `dtend` to `end_time`. */
  function AddedBlock(e: Record, tt: TimeText): string
  {
    Block([("Summary", e.summary), ("Start Time", Either(e.dtstart, e.startTime)),
           ("End Time", Either(e.dtend, e.endTime)), ("Description", e.description),
           ("Location", e.location)], tt)
  }

  /** The block for a removed (stored) event: `start_time` and `end_time` only. */
  function RemovedBlock(e: Record, tt: TimeText): string
  {
    Block([("Summary", e.summary), ("Start Time", e.startTime), ("End Time", e.endTime),
           ("Description", e.description), ("Location", e.location)], tt)
  }

  function AddedBlocks(xs: seq<Record>, tt: TimeText): (r: seq<string>)
    ensures |r| == |xs| && forall i :: 0 <= i < |xs| ==> r[i] == AddedBlock(xs[i], tt)
  {
    seq(|xs|, i requires 0 <= i < |xs| => AddedBlock(xs[i], tt))
  }

  function RemovedBlocks(xs: seq<Record>, tt: TimeText): (r: seq<string>)
    ensures |r| == |xs| && forall i :: 0 <= i < |xs| ==> r[i] == RemovedBlock(xs[i], tt)
  {
    seq(|xs|, i requires 0 <= i < |xs| => RemovedBlock(xs[i], tt))
  }

  /** A section: its header and its blocks, or nothing at all when there are no blocks. */
  function Section(header: string, blocks: seq<string>): (r: string)
    ensures blocks == [] ==> r == ""
    ensures blocks != [] ==> |header| <= |r| && r[..|header|] == header
  {
    if blocks == [] then ""
    else
      var r := header + Concat(blocks);
      assert r[..|header|] == header;
      r
  }

  /** Every block of a section can be found in it. */
  lemma SectionContains(header: string, blocks: seq<string>, k: nat)
    requires k < |blocks|
    ensures Contains(Section(header, blocks), blocks[k])
  {
    ConcatContains(blocks, k);
    ContainsPrepend(header, Concat(blocks), blocks[k]);
  }

  /** Every block of three consecutive sections can be found in the text that holds them. */
  lemma SectionsContain(pre: string, h1: string, b1: seq<string>, h2: string, b2: seq<string>, h3: string, b3: seq<string>)
    ensures var t := pre + Section(h1, b1) + Section(h2, b2) + Section(h3, b3);
      && (forall k :: 0 <= k < |b1| ==> Contains(t, b1[k]))
      && (forall k :: 0 <= k < |b2| ==> Contains(t, b2[k]))
      && (forall k :: 0 <= k < |b3| ==> Contains(t, b3[k]))
  {
    var s1, s2, s3 := Section(h1, b1), Section(h2, b2), Section(h3, b3);
    forall k | 0 <= k < |b1| ensures Contains(pre + s1 + s2 + s3, b1[k]) {
      SectionContains(h1, b1, k);
      ContainsPrepend(pre, s1, b1[k]);
      ContainsAppend(pre + s1, s2, b1[k]);
      ContainsAppend(pre + s1 + s2, s3, b1[k]);
    }
    forall k | 0 <= k < |b2| ensures Contains(pre + s1 + s2 + s3, b2[k]) {
      SectionContains(h2, b2, k);
      ContainsPrepend(pre + s1, s2, b2[k]);
      ContainsAppend(pre + s1 + s2, s3, b2[k]);
    }
    forall k | 0 <= k < |b3| ensures Contains(pre + s1 + s2 + s3, b3[k]) {
      SectionContains(h3, b3, k);
      ContainsPrepend(pre + s1 + s2, s3, b3[k]);
    }
  }

  /** The blocks of a list of events, one per event, in order. */
  function Blocks<T>(render: T -> string, xs: seq<T>): (r: seq<string>)
    ensures |r| == |xs| && forall i :: 0 <= i < |xs| ==> r[i] == render(xs[i])
  {
    seq(|xs|, i requires 0 <= i < |xs| => render(xs[i]))
  }

  /** One `if events:` step of a notifier: the header, then one `+=` per
      event, or nothing at all for no events. */
  method AppendSection<T>(before: string, header: string, xs: seq<T>, render: T -> string) returns (body: string)
    ensures body == before + Section(header, Blocks(render, xs))
  {
    body := before;
    if xs != [] {
      body := body + header;
      ghost var blocks := Blocks(render, xs);
      for i := 0 to |xs|
        invariant body == before + header + Concat(blocks[..i])
      {
        assert blocks[..i + 1] == blocks[..i] + [blocks[i]];
        ConcatSnoc(before + header, blocks[..i], blocks[i]);
        body := body + render(xs[i]);
      }
      assert blocks[..|xs|] == blocks;
    }
  }

  /** The subject line: the three counts, in the order added, removed, updated. */
  function Subject(added: nat, removed: nat, updated: nat): string
  {
    Counted("Events update: ", added, Counted(" added, ", removed, Counted(" removed, ", updated, " updated")))
  }

  /** `lit`, then the number in decimal, then `rest`. */
  function Counted(lit: string, n: nat, rest: string): string
  {
    lit + NatToString(n) + rest
  }

  /** Reads the literal `lit` and then a decimal number from the start of `s`. */
  function ReadCount(lit: string, s: string): Option<(nat, string)>
  {
    match ReadLiteral(lit, s)
    case None => None
    case Some(rest) => ReadNat(rest)
  }

  lemma ReadCountOf(lit: string, n: nat, rest: string)
    requires rest == [] || !IsDigit(rest[0])
    ensures ReadCount(lit, Counted(lit, n, rest)) == Some((n, rest))
  {
    assert Counted(lit, n, rest) == lit + (NatToString(n) + rest);
    ReadLiteralOf(lit, NatToString(n) + rest);
    ReadNatOfString(n, rest);
  }

  /** Reads the three counts back from a subject line. */
  function ParseSubject(s: string): Option<(nat, nat, nat)>
  {
    match ReadCount("Events update: ", s)
    case None => None
    case Some((a, s1)) =>
      match ReadCount(" added, ", s1)
      case None => None
      case Some((r, s2)) =>
        match ReadCount(" removed, ", s2)
        case None => None
        case Some((u, s3)) => if s3 == " updated" then Some((a, r, u)) else None
  }

  /** The subject states the three counts unambiguously. */
  lemma SubjectRoundTrip(added: nat, removed: nat, updated: nat)
    ensures ParseSubject(Subject(added, removed, updated)) == Some((added, removed, updated))
  {
    var s2 := Counted(" removed, ", updated, " updated");
    var s1 := Counted(" added, ", removed, s2);
    ReadCountOf("Events update: ", added, s1);
    ReadCountOf(" added, ", removed, s2);
    ReadCountOf(" removed, ", updated, " updated");
  }

  /** Different counts give different subjects. */
  lemma SubjectInjective(a1: nat, r1: nat, u1: nat, a2: nat, r2: nat, u2: nat)
    requires Subject(a1, r1, u1) == Subject(a2, r2, u2)
    ensures a1 == a2 && r1 == r2 && u1 == u2
  {
    SubjectRoundTrip(a1, r1, u1);
    SubjectRoundTrip(a2, r2, u2);
  }
}
