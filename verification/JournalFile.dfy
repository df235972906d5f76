/**
 * The journal as bytes on disk (load_journal and append_journal of journal.py): one line per
 * record, three bounds, a single write per append that may be cut short by a crash.
 */
module JournalFile {
  import opened Basics
  import opened Json
  import opened Journal

  type Byte = x: int | 0 <= x < 256

  type Bytes = seq<Byte>

  const NEWLINE: Byte := 10

  /**
   * Canonical JSON text of a record, and its strict reading, validation included. A record that has no
   * such text, say because its impact is a real number that no float is, is not written.
   */
  datatype Codec = Codec(encode: Record -> Option<Bytes>, decode: Bytes -> Option<Record>)

  predicate Writable(c: Codec, r: Record) {
    c.encode(r).Some?
  }

  function Line(c: Codec, r: Record): Bytes
    requires Writable(c, r)
  {
    c.encode(r).value + [NEWLINE]
  }

  /** What is written holds no newline and reads back. */
  ghost predicate GoodCodec(c: Codec) {
    forall r: Record :: ValidRecord(r) && Writable(c, r) ==>
      NEWLINE !in c.encode(r).value && c.decode(Line(c, r)) == Some(r)
  }

  // ----- codecs there are --------------------------------------------------------------------------

  function FirstIndex(records: seq<Record>, r: Record): (i: nat)
    requires r in records
    ensures i < |records| && records[i] == r
  {
    if records[0] == r then 0 else 1 + FirstIndex(records[1..], r)
  }

  /** A codec for any finite list of records: each is written as its position, in unary. */
  function UnaryCodec(records: seq<Record>): Codec {
    Codec(r => if r in records then Some(seq(FirstIndex(records, r), i => 0 as Byte)) else None,
          (line: Bytes) => if 0 < |line| <= |records| then Some(records[|line| - 1]) else None)
  }

  /** So whatever records a history is to write, some good codec writes them, within the line limit. */
  lemma GoodCodecsExist(records: seq<Record>) returns (c: Codec)
    ensures GoodCodec(c) && forall r :: r in records ==> Writable(c, r) && |Line(c, r)| <= |records|
  {
    c := UnaryCodec(records);
  }

  /** The length of what `readline(limit)` returns: up to a newline, the limit, or the end. */
  function LineLength(rest: Bytes, limit: nat): (n: nat)
    ensures n <= |rest| && n <= limit
    ensures n > 0 ==> forall i :: 0 <= i < n - 1 ==> rest[i] != NEWLINE
    ensures n < |rest| && n < limit ==> n > 0 && rest[n - 1] == NEWLINE
    ensures rest != [] && limit > 0 ==> n > 0
    decreases limit
  {
    if rest == [] || limit == 0 then 0
    else if rest[0] == NEWLINE then 1
    else 1 + LineLength(rest[1..], limit - 1)
  }

  datatype FirstLine = FirstLine(length: nat, record: Record)

  /** The next line and its record when `count` records have been read, if that line is good. */
  function Head(c: Codec, rest: Bytes, count: nat): (h: Option<FirstLine>)
    requires rest != []
    ensures h.Some? ==> 0 < h.value.length <= |rest|
  {
    var n := LineLength(rest, MAX_JOURNAL_LINE_BYTES + 1);
    var raw := rest[..n];
    if n > MAX_JOURNAL_LINE_BYTES || raw[n - 1] != NEWLINE || c.decode(raw).None? || count + 1 > MAX_JOURNAL_RECORDS
    then None else Some(FirstLine(n, c.decode(raw).value))
  }

  /** Reading from some position on when `count` records have been read already. */
  function Parsed(c: Codec, rest: Bytes, count: nat): Result<seq<Record>, InputError>
    decreases |rest|
  {
    if rest == [] then Ok([])
    else
      var h := Head(c, rest, count);
      if h.None? then Err(InputError)
      else Then([h.value.record], Parsed(c, rest[h.value.length..], count + 1))
  }

  /** What was read, followed by what the rest of the file gives. */
  function Then(first: seq<Record>, more: Result<seq<Record>, InputError>): Result<seq<Record>, InputError> {
    if more.Err? then Err(InputError) else Ok(first + more.value)
  }

  lemma ThenThen(a: seq<Record>, b: seq<Record>, more: Result<seq<Record>, InputError>)
    ensures Then(a, Then(b, more)) == Then(a + b, more)
  {
    if more.Ok? {
      assert a + (b + more.value) == (a + b) + more.value;
    }
  }

  function Loaded(c: Codec, content: Bytes): Result<seq<Record>, InputError> {
    if |content| > MAX_JOURNAL_BYTES then Err(InputError) else Parsed(c, content, 0)
  }

  class JournalOnDisk {
    var content: Option<Bytes>

    function Existing(): Bytes
      reads this
    {
      if content.Some? then content.value else []
    }

    /** Strictly revalidates the whole file; a missing file is an empty list only if allowed. */
    method Load(c: Codec, missingOk: bool) returns (r: Result<seq<Record>, InputError>)
      ensures r == if content.None? then (if missingOk then Ok([]) else Err(InputError))
                   else Loaded(c, content.value)
    {
      if content.None? {
        return if missingOk then Ok([]) else Err(InputError);
      }
      var rest := content.value;
      if |rest| > MAX_JOURNAL_BYTES {
        return Err(InputError);
      }
      var records: seq<Record> := [];
      NothingThen(Parsed(c, rest, 0));
      while rest != []
        invariant Loaded(c, content.value) == Then(records, Parsed(c, rest, |records|))
        decreases |rest|
      {
        var n := LineLength(rest, MAX_JOURNAL_LINE_BYTES + 1);
        var raw := rest[..n];
        if n > MAX_JOURNAL_LINE_BYTES {
          return Err(InputError);
        }
        if raw[n - 1] != NEWLINE {
          return Err(InputError);
        }
        var value := c.decode(raw);
        if value.None? {
          return Err(InputError);
        }
        ThenThen(records, [value.value], Parsed(c, rest[n..], |records| + 1));
        records := records + [value.value];
        if |records| > MAX_JOURNAL_RECORDS {
          return Err(InputError);
        }
        rest := rest[n..];
      }
      assert records + [] == records;
      return Ok(records);
    }

    /**
     * One append. `written` is how many bytes of the line reach the file before a crash or a short
     * write, and `synced` whether fsync and close succeed; only a whole, synced line is a success.
     */
    method Append(c: Codec, call: AppendCall, written: nat, synced: bool) returns (r: Result<Record, InputError>)
      modifies this
      ensures match Planned(c, old(content), call)
              case Err(_) => r.Err? && content == old(content)
              case Ok(record) =>
                content == Some(old(Existing()) + Reached(Line(c, record), written))
                && r == if written >= |Line(c, record)| && synced then Ok(record) else Err(InputError)
    {
      var loaded := Load(c, true);
      if loaded.Err? {
        return Err(InputError);
      }
      var records := loaded.value;
      var entry := JournalEntryFromReport(records, call.report, call.stage, call.at, call.window);
      if entry.Err? {
        return Err(InputError);
      }
      if HasEvent(records, entry.value.eventId) {
        return Err(InputError);
      }
      if !Writable(c, entry.value) {
        return Err(InputError);
      }
      var line := Line(c, entry.value);
      if |line| > MAX_JOURNAL_LINE_BYTES {
        return Err(InputError);
      }
      if |Existing()| + |line| > MAX_JOURNAL_BYTES {
        return Err(InputError);
      }
      if |records| >= MAX_JOURNAL_RECORDS {
        return Err(InputError);
      }
      content := Some(Existing() + Reached(line, written));
      if written < |line| || !synced {
        return Err(InputError);
      }
      return entry;
    }
  }

  function Reached(line: Bytes, written: nat): Bytes {
    if written < |line| then line[..written] else line
  }

  /** The record an append is about to write, after every check it makes. */
  function Planned(c: Codec, content: Option<Bytes>, call: AppendCall): (r: Result<Record, InputError>)
    ensures r.Ok? ==> Writable(c, r.value)
  {
    var existing := if content.Some? then content.value else [];
    var loaded := if content.Some? then Loaded(c, content.value) else Ok([]);
    if loaded.Err? then Err(InputError)
    else
      var after := Appended(loaded.value, call.report, call.stage, call.at, call.window);
      if after.Err? then Err(InputError)
      else
        var record := after.value[|loaded.value|];
        if !Writable(c, record) then Err(InputError)
        else if |Line(c, record)| > MAX_JOURNAL_LINE_BYTES then Err(InputError)
        else if |existing| + |Line(c, record)| > MAX_JOURNAL_BYTES then Err(InputError)
        else Ok(record)
  }

  // ----- crash safety -----------------------------------------------------------------------------

  lemma {:induction false} LineLengthOfLine(text: Bytes, rest: Bytes, limit: nat)
    requires NEWLINE !in text && |text| < limit
    ensures LineLength(text + [NEWLINE] + rest, limit) == |text| + 1
  {
    var all := text + [NEWLINE] + rest;
    if text != [] {
      assert all[0] == text[0];
      assert all[1..] == text[1..] + [NEWLINE] + rest;
      LineLengthOfLine(text[1..], rest, limit - 1);
    }
  }

  lemma {:induction false} LineLengthUnchanged(rest: Bytes, more: Bytes, limit: nat)
    requires rest != [] && 0 < limit && rest[LineLength(rest, limit) - 1] == NEWLINE
    ensures LineLength(rest + more, limit) == LineLength(rest, limit)
    decreases limit
  {
    if rest[0] != NEWLINE {
      assert (rest + more)[1..] == rest[1..] + more;
      LineLengthUnchanged(rest[1..], more, limit - 1);
    }
  }

  /** What loads from a file that is followed by more bytes. */
  lemma {:induction false} ParsedThen(c: Codec, rest: Bytes, more: Bytes, count: nat)
    returns (first: seq<Record>, total: nat, after: Result<seq<Record>, InputError>)
    requires Parsed(c, rest, count).Ok?
    ensures Parsed(c, rest, count) == Ok(first) && total == count + |first|
    ensures Parsed(c, more, total) == after
    ensures Parsed(c, rest + more, count) == Then(first, after)
    decreases |rest|
  {
    if rest == [] {
      assert rest + more == more;
      first, total, after := [], count, Parsed(c, more, count);
      NothingThen(after);
    } else {
      var h, tail := HeadOf(c, rest, count);
      var records;
      records, total, after := ParsedThen(c, tail, more, count + 1);
      HeadThen(c, rest, more, count, h, tail, Then(records, after));
      ThenThen([h.record], records, after);
      first := [h.record] + records;
    }
  }

  lemma HeadOf(c: Codec, rest: Bytes, count: nat) returns (h: FirstLine, tail: Bytes)
    requires rest != [] && Parsed(c, rest, count).Ok?
    ensures Head(c, rest, count) == Some(h) && tail == rest[h.length..]
    ensures Parsed(c, tail, count + 1).Ok?
    ensures Parsed(c, rest, count) == Ok([h.record] + Parsed(c, tail, count + 1).value)
  {
    h := Head(c, rest, count).value;
    tail := rest[h.length..];
  }

  lemma HeadThen(c: Codec, rest: Bytes, more: Bytes, count: nat, h: FirstLine, tail: Bytes,
                 next: Result<seq<Record>, InputError>)
    requires rest != [] && Head(c, rest, count) == Some(h) && tail == rest[h.length..]
    requires Parsed(c, tail + more, count + 1) == next
    ensures Parsed(c, rest + more, count) == Then([h.record], next)
  {
    HeadUnchanged(c, rest, more, count);
    assert (rest + more)[h.length..] == tail + more;
  }

  lemma HeadUnchanged(c: Codec, rest: Bytes, more: Bytes, count: nat)
    requires rest != [] && Head(c, rest, count).Some?
    ensures Head(c, rest + more, count) == Head(c, rest, count)
  {
    LineLengthUnchanged(rest, more, MAX_JOURNAL_LINE_BYTES + 1);
    var n := LineLength(rest, MAX_JOURNAL_LINE_BYTES + 1);
    assert (rest + more)[..n] == rest[..n];
  }

  lemma NothingThen(more: Result<seq<Record>, InputError>)
    ensures Then([], more) == more
  {
    if more.Ok? {
      assert [] + more.value == more.value;
    } else {
      assert more.error == InputError;
    }
  }

  lemma ParsedLine(c: Codec, record: Record, n: nat, count: nat)
    requires GoodCodec(c) && ValidRecord(record) && Writable(c, record) && |Line(c, record)| <= MAX_JOURNAL_LINE_BYTES
    requires n <= |Line(c, record)| && count < MAX_JOURNAL_RECORDS
    ensures Parsed(c, Line(c, record)[..n], count) ==
            if n == 0 then Ok([]) else if n == |Line(c, record)| then Ok([record]) else Err(InputError)
  {
    var line := Line(c, record);
    if n == |line| {
      assert line[..n] == line == c.encode(record).value + [NEWLINE] + [];
      LineLengthOfLine(c.encode(record).value, [], MAX_JOURNAL_LINE_BYTES + 1);
      assert line[|line|..] == [];
      assert Parsed(c, line, count) == Then([record], Parsed(c, [], count + 1));
      assert [record] + [] == [record];
    } else if n > 0 {
      var torn := line[..n];
      var m := LineLength(torn, MAX_JOURNAL_LINE_BYTES + 1);
      assert torn[m - 1] == c.encode(record).value[m - 1];
    }
  }

  /**
   * Whatever prefix of the line reaches the file, the next load gives the old records, the old
   * records plus the new one, or a refusal, and each exactly when nothing, everything, or
   * anything in between was written.
   */
  lemma TornAppend(c: Codec, content: Bytes, call: AppendCall, written: nat)
    requires GoodCodec(c) && Planned(c, Some(content), call).Ok?
    ensures var record := Planned(c, Some(content), call).value;
            var records := Loaded(c, content).value;
            Loaded(c, content + Reached(Line(c, record), written)) ==
            if written == 0 then Ok(records)
            else if written >= |Line(c, record)| then Ok(records + [record])
            else Err(InputError)
  {
    var record := Planned(c, Some(content), call).value;
    var records := Loaded(c, content).value;
    var n := if written < |Line(c, record)| then written else |Line(c, record)|;
    var reached := Reached(Line(c, record), written);
    assert reached == Line(c, record)[..n];
    ParsedLine(c, record, n, |records|);
    var first, total, after := ParsedThen(c, content, reached, 0);
    assert records + [] == records;
  }

  /** The same for the first append, which creates the file. */
  lemma TornFirstAppend(c: Codec, call: AppendCall, written: nat)
    requires GoodCodec(c) && Planned(c, None, call).Ok?
    ensures var record := Planned(c, None, call).value;
            Loaded(c, Reached(Line(c, record), written)) ==
            if written == 0 then Ok([])
            else if written >= |Line(c, record)| then Ok([record])
            else Err(InputError)
  {
    assert Planned(c, Some([]), call) == Planned(c, None, call);
    TornAppend(c, [], call, written);
    var record := Planned(c, None, call).value;
    assert [] + Reached(Line(c, record), written) == Reached(Line(c, record), written);
    assert [] + [record] == [record];
  }

  /** One append attempt as a step on the file. */
  datatype Attempt = Attempt(call: AppendCall, written: nat)

  function AfterAttempt(c: Codec, content: Option<Bytes>, a: Attempt): Option<Bytes> {
    var planned := Planned(c, content, a.call);
    if planned.Err? then content
    else Some((if content.Some? then content.value else []) + Reached(Line(c, planned.value), a.written))
  }

  function AfterAttempts(c: Codec, content: Option<Bytes>, attempts: seq<Attempt>): Option<Bytes> {
    if attempts == [] then content
    else AfterAttempt(c, AfterAttempts(c, content, attempts[..|attempts| - 1]), attempts[|attempts| - 1])
  }

  /** A file that does not load refuses every later append and is never touched again. */
  lemma {:induction false} RefusedForever(c: Codec, content: Bytes, attempts: seq<Attempt>, next: AppendCall)
    requires Loaded(c, content).Err?
    ensures AfterAttempts(c, Some(content), attempts) == Some(content)
    ensures Planned(c, AfterAttempts(c, Some(content), attempts), next).Err?
  {
    if attempts != [] {
      RefusedForever(c, content, attempts[..|attempts| - 1], attempts[|attempts| - 1].call);
    }
  }

  /** After a torn line the journal keeps refusing: torn stays torn. */
  lemma TornStaysTorn(c: Codec, content: Bytes, call: AppendCall, written: nat, attempts: seq<Attempt>, next: AppendCall)
    requires GoodCodec(c) && Planned(c, Some(content), call).Ok?
    requires 0 < written < |Line(c, Planned(c, Some(content), call).value)|
    ensures var torn := content + Reached(Line(c, Planned(c, Some(content), call).value), written);
            AfterAttempts(c, Some(torn), attempts) == Some(torn)
            && Planned(c, AfterAttempts(c, Some(torn), attempts), next).Err?
  {
    TornAppend(c, content, call, written);
    RefusedForever(c, content + Reached(Line(c, Planned(c, Some(content), call).value), written), attempts, next);
  }

  /** The records of a file, none while it does not exist. */
  function RecordsOf(c: Codec, content: Option<Bytes>): Result<seq<Record>, InputError> {
    if content.Some? then Loaded(c, content.value) else Ok([])
  }

  /** Bytes refine records: a completed append is the record-level append, within all bounds. */
  lemma CompletedAppend(c: Codec, content: Option<Bytes>, call: AppendCall)
    requires GoodCodec(c) && Planned(c, content, call).Ok?
    ensures var record := Planned(c, content, call).value;
            var after := AfterAttempt(c, content, Attempt(call, |Line(c, record)|));
            var before := RecordsOf(c, content);
            && before.Ok?
            && RecordsOf(c, after) == Appended(before.value, call.report, call.stage, call.at, call.window)
            && RecordsOf(c, after) == Ok(before.value + [record])
            && |after.value| <= MAX_JOURNAL_BYTES && |before.value| + 1 <= MAX_JOURNAL_RECORDS
  {
    var record := Planned(c, content, call).value;
    if content.Some? {
      TornAppend(c, content.value, call, |Line(c, record)|);
    } else {
      TornFirstAppend(c, call, |Line(c, record)|);
      assert [] + Line(c, record) == Line(c, record);
      assert [] + [record] == [record];
    }
  }

  /** The calls whose line was written completely, in order. */
  function Completed(c: Codec, attempts: seq<Attempt>): seq<AppendCall> {
    if attempts == [] then []
    else
      var before, a := AfterAttempts(c, None, attempts[..|attempts| - 1]), attempts[|attempts| - 1];
      var planned := Planned(c, before, a.call);
      Completed(c, attempts[..|attempts| - 1])
      + if planned.Ok? && a.written >= |Line(c, planned.value)| then [a.call] else []
  }

  /**
   * A whole history of appends, torn or complete: the file loads as the record-level run of exactly
   * the calls that were written completely, or some line was torn and nothing loads any more.
   */
  lemma {:induction false} HistoryIsARunOrRefused(c: Codec, attempts: seq<Attempt>)
    requires GoodCodec(c)
    ensures var records := RecordsOf(c, AfterAttempts(c, None, attempts));
            records.Err? || records == Ok(Run(Completed(c, attempts)))
  {
    if attempts != [] {
      var before := AfterAttempts(c, None, attempts[..|attempts| - 1]);
      var a := attempts[|attempts| - 1];
      HistoryIsARunOrRefused(c, attempts[..|attempts| - 1]);
      if RecordsOf(c, before).Err? {
        RefusedForever(c, before.value, [a], a.call);
        assert [a][..0] == [];
        assert AfterAttempts(c, before, [a]) == AfterAttempt(c, before, a);
      } else {
        HistoryStep(c, before, Completed(c, attempts[..|attempts| - 1]), a);
      }
    }
  }

  lemma HistoryStep(c: Codec, before: Option<Bytes>, calls: seq<AppendCall>, a: Attempt)
    requires GoodCodec(c) && RecordsOf(c, before) == Ok(Run(calls))
    ensures var after, planned := RecordsOf(c, AfterAttempt(c, before, a)), Planned(c, before, a.call);
            after.Err? || after == Ok(Run(calls + if planned.Ok? && a.written >= |Line(c, planned.value)| then [a.call] else []))
  {
    var planned := Planned(c, before, a.call);
    assert calls + [] == calls;
    if planned.Ok? {
      assert (calls + [a.call])[..|calls|] == calls;
      assert Run(calls + [a.call]) == Run(calls) + [planned.value];
      if before.Some? {
        TornAppend(c, before.value, a.call, a.written);
      } else {
        TornFirstAppend(c, a.call, a.written);
        assert [] + Reached(Line(c, planned.value), a.written) == Reached(Line(c, planned.value), a.written);
        assert Run(calls) == [] && [] + [planned.value] == [planned.value];
      }
    }
  }
}
