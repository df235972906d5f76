/**
 * The journal file without its reading loop: which bytes are a journal, of which records, and which
 * appends are written.
 */
module JournalFormat {
  import opened Basics
  import opened Json
  import opened Journal
  import opened JournalFile

  // ----- the bytes of a journal -----------------------------------------------------------------------------

  function Glued(lines: seq<Bytes>): Bytes {
    if lines == [] then [] else lines[0] + Glued(lines[1..])
  }

  /** Bytes up to and including their only newline. */
  predicate IsWholeLine(line: Bytes) {
    line != [] && line[|line| - 1] == NEWLINE && forall i :: 0 <= i < |line| - 1 ==> line[i] != NEWLINE
  }

  /** A whole line of at most 64 kibibytes that reads as a record. */
  predicate LineHolds(c: Codec, line: Bytes, record: Record) {
    IsWholeLine(line) && |line| <= 65_536 && c.decode(line) == Some(record)
  }

  /** One line for each record, `count` records already before them, ten thousand at most. */
  predicate LinesHold(c: Codec, lines: seq<Bytes>, records: seq<Record>, count: nat) {
    && |lines| == |records| && (records == [] || count + |records| <= 10_000)
    && forall i :: 0 <= i < |lines| ==> LineHolds(c, lines[i], records[i])
  }

  lemma {:induction false} LineLengthIs(line: Bytes, rest: Bytes, limit: nat)
    requires IsWholeLine(line) && |line| <= limit
    ensures LineLength(line + rest, limit) == |line|
  {
    assert line == line[..|line| - 1] + [NEWLINE];
    LineLengthOfLine(line[..|line| - 1], rest, limit);
  }

  lemma FirstLineReads(c: Codec, line: Bytes, record: Record, rest: Bytes, count: nat)
    requires LineHolds(c, line, record) && count < 10_000
    ensures Parsed(c, line + rest, count) == Then([record], Parsed(c, rest, count + 1))
  {
    LineLengthIs(line, rest, MAX_JOURNAL_LINE_BYTES + 1);
    assert (line + rest)[..|line|] == line && (line + rest)[|line|..] == rest;
  }

  lemma {:induction false} LinesRead(c: Codec, lines: seq<Bytes>, records: seq<Record>, count: nat)
    requires LinesHold(c, lines, records, count)
    ensures Parsed(c, Glued(lines), count) == Ok(records)
    decreases |lines|
  {
    if lines != [] {
      LinesRead(c, lines[1..], records[1..], count + 1);
      FirstLineReads(c, lines[0], records[0], Glued(lines[1..]), count);
      assert [records[0]] + records[1..] == records;
    }
  }

  lemma HeadHolds(c: Codec, rest: Bytes, count: nat) returns (line: Bytes)
    requires rest != [] && Head(c, rest, count).Some?
    ensures rest == line + rest[Head(c, rest, count).value.length..] && count < 10_000
    ensures LineHolds(c, line, Head(c, rest, count).value.record)
  {
    line := rest[..Head(c, rest, count).value.length];
  }

  lemma {:induction false} ReadHasLines(c: Codec, rest: Bytes, count: nat) returns (lines: seq<Bytes>)
    requires Parsed(c, rest, count).Ok?
    ensures Glued(lines) == rest && LinesHold(c, lines, Parsed(c, rest, count).value, count)
    decreases |rest|
  {
    if rest == [] {
      lines := [];
    } else {
      var h, tail := HeadOf(c, rest, count);
      var first := HeadHolds(c, rest, count);
      var more := ReadHasLines(c, tail, count + 1);
      lines := [first] + more;
      assert lines[1..] == more;
    }
  }

  // A file loads as these records if and only if it is at most 16 mebibytes of whole bounded lines, one for
  // each of at most ten thousand records, in order.
  lemma LoadedIff(c: Codec, content: Bytes, records: seq<Record>)
    ensures Loaded(c, content) == Ok(records)
            <==> |content| <= 16_777_216 && exists lines :: Glued(lines) == content && LinesHold(c, lines, records, 0)
  {
    if Loaded(c, content) == Ok(records) {
      var lines := ReadHasLines(c, content, 0);
    }
    if lines :| Glued(lines) == content && LinesHold(c, lines, records, 0) {
      LinesRead(c, lines, records, 0);
    }
  }

  // ----- which appends are written ----------------------------------------------------------------------------

  function SizeOf(content: Option<Bytes>): nat {
    if content.Some? then |content.value| else 0
  }

  /** The line of the new record can be written within both bounds. */
  predicate Room(c: Codec, content: Option<Bytes>, record: Record) {
    Writable(c, record) && |Line(c, record)| <= 65_536 && SizeOf(content) + |Line(c, record)| <= 16_777_216
  }

  // An append writes a record if and only if the file loads, the journal takes the record, and its line has
  // room; it is then the record that the report asks for.
  lemma AppendIsWrittenIff(c: Codec, content: Option<Bytes>, call: AppendCall, record: Record)
    ensures Planned(c, content, call) == Ok(record)
            <==> RecordsOf(c, content).Ok? && AfterAppend(RecordsOf(c, content).value, call) == RecordsOf(c, content).value + [record]
                 && Room(c, content, record)
  {
    var loaded := RecordsOf(c, content);
    if loaded.Ok? {
      var records := loaded.value;
      AppendIsRefusedIff(records, call);
      assert (records + [record])[|records|] == record;
      assert records != records + [record];
    }
  }
}
