/**
Reading back a log that may be cut (internal/evidence/partial.go). Whether a text is valid
JSON is a parameter.
*/
module PartialRead {
  import opened Common
  import opened Framing

  const MAX_LINE: nat := 1024 * 1024
  const BUFFER_SIZE: nat := 64 * 1024

  /** The record in a line, if it has one. */
  type Clean = seq<Byte> -> Option<seq<Byte>>

  datatype Trouble = OverRead | OverLine | Invalid | TooMany | ReadError

  datatype Reading = Reading(records: seq<seq<Byte>>, partial: bool, trouble: Option<Trouble>)

  predicate TooLong(consumed: nat, line: nat) {
    consumed + line > MAX_BYTES || line > MAX_LINE
  }

  /**
  Which quota stops a line that is too long. The limits are checked after every buffer of the line,
  the one on the whole reading first; the one on the line fails in the seventeenth.
  */
  function Excess(consumed: nat, line: nat): Trouble {
    var seen := if line < MAX_LINE + BUFFER_SIZE then line else MAX_LINE + BUFFER_SIZE;
    if consumed + seen > MAX_BYTES then OverRead else OverLine
  }

  /** The length of the next line with its newline, or of what is left without one. */
  function Span(rest: seq<Byte>): (n: nat)
    ensures n <= |rest|
  {
    if LineEnd(rest) < |rest| then LineEnd(rest) + 1 else |rest|
  }

  /** What is read from here on, after `consumed` bytes and `count` records. */
  function ReadFrom(rest: seq<Byte>, consumed: nat, count: nat, clean: Clean, eof: bool): Reading
    decreases |rest|
  {
    if TooLong(consumed, Span(rest)) then Reading([], true, Some(Excess(consumed, Span(rest))))
    else if LineEnd(rest) == |rest| then
      if eof then Reading([], rest != [], None) else Reading([], true, Some(ReadError))
    else match clean(rest[..Span(rest)])
      case None => Reading([], true, Some(Invalid))
      case Some(record) =>
        if count + 1 > MAX_EVENTS then Reading([record], true, Some(TooMany))
        else Prepended([record], ReadFrom(rest[Span(rest)..], consumed + Span(rest), count + 1, clean, eof))
  }

  function Prepended(records: seq<seq<Byte>>, r: Reading): Reading {
    r.(records := records + r.records)
  }

  /** One turn of the outer loop, on top of the records already read. */
  lemma ReadStep(records: seq<seq<Byte>>, rest: seq<Byte>, consumed: nat, clean: Clean, eof: bool)
    ensures Prepended(records, ReadFrom(rest, consumed, |records|, clean, eof)) ==
            if TooLong(consumed, Span(rest)) then Reading(records, true, Some(Excess(consumed, Span(rest))))
            else if LineEnd(rest) == |rest| then
              if eof then Reading(records, rest != [], None) else Reading(records, true, Some(ReadError))
            else match clean(rest[..Span(rest)])
              case None => Reading(records, true, Some(Invalid))
              case Some(record) =>
                if |records| + 1 > MAX_EVENTS then Reading(records + [record], true, Some(TooMany))
                else Prepended(records + [record],
                    ReadFrom(rest[Span(rest)..], consumed + Span(rest), |records| + 1, clean, eof))
  {
    assert records + [] == records;
    if !TooLong(consumed, Span(rest)) && LineEnd(rest) < |rest| && clean(rest[..Span(rest)]).Some? {
      PrependedSnoc(records, clean(rest[..Span(rest)]).value,
          ReadFrom(rest[Span(rest)..], consumed + Span(rest), |records| + 1, clean, eof));
    }
  }

  lemma PrependedSnoc(records: seq<seq<Byte>>, record: seq<Byte>, r: Reading)
    ensures Prepended(records, Prepended([record], r)) == Prepended(records + [record], r)
    ensures Prepended([], r) == r
  {
    assert records + ([record] + r.records) == (records + [record]) + r.records;
    assert [] + r.records == r.records;
  }

  /** After `full` buffers and one more part, which is also a full buffer unless the line ends. */
  lemma ExcessAt(consumed: nat, full: nat, part: nat, span: nat, last: bool)
    requires !TooLong(consumed, full * BUFFER_SIZE) && part <= BUFFER_SIZE && full * BUFFER_SIZE + part <= span
    requires if last then span == full * BUFFER_SIZE + part else part == BUFFER_SIZE
    ensures TooLong(consumed, full * BUFFER_SIZE + part) ==>
              TooLong(consumed, span) &&
                  (Excess(consumed, span) == OverRead <==> consumed + full * BUFFER_SIZE + part > MAX_BYTES)
  {
  }

  /** The inner loop: the fragments of one line, all but the last as long as the buffer. */
  method ReadOneLine(br: Reader, consumed: nat) returns (line: seq<Byte>, ended: bool, over: Option<Trouble>)
    requires br.Valid() && br.size == BUFFER_SIZE && consumed <= MAX_BYTES
    modifies br
    ensures br.Valid()
    ensures over ==
            if TooLong(consumed, Span(old(br.Rest()))) then Some(Excess(consumed, Span(old(br.Rest()))))
            else None
    ensures over.None? ==> var rest := old(br.Rest());
                           && (ended <==> LineEnd(rest) == |rest|)
                           && line == rest[..Span(rest)] && br.Rest() == rest[Span(rest)..]
  {
    ghost var all, full := br.Rest(), 0;
    line, ended, over := [], false, None;
    while true
      invariant br.Valid() && OneLine(line) && all == line + br.Rest() && !TooLong(consumed, |line|)
      invariant |line| == full * BUFFER_SIZE && full >= 0
      decreases |br.Rest()|
    {
      var part, status := br.ReadSlice();
      LineLength(all, line, part, status, br.Rest());
      ExcessAt(consumed, full, |part|, Span(all), status != BufferFull);
      if consumed + |line| + |part| > MAX_BYTES { return line, false, Some(OverRead); }
      if |line| + |part| > MAX_LINE { return line, false, Some(OverLine); }
      line, full := line + part, full + 1;
      if status == Ended { return line, true, None; }
      if status == Found { return line, false, None; }
    }
  }

  lemma LineLength(all: seq<Byte>, out: seq<Byte>, part: seq<Byte>, status: Status, rest: seq<Byte>)
    requires OneLine(out) && Slice(part, status, rest) && all == out + (part + rest)
    ensures all == (out + part) + rest
    ensures status == BufferFull ==> OneLine(out + part)
    ensures Span(all) >= |out + part|
    ensures status != BufferFull ==>
              && Span(all) == |out + part| && all[..Span(all)] == out + part && all[Span(all)..] == rest
              && (status == Ended <==> LineEnd(all) == |all|)
  {
    assert all == (out + part) + rest;
    LineContinues(all, out, part, status, rest);
    if status == BufferFull {
      assert forall i :: 0 <= i < |out| + |part| ==> all[i] == (out + part)[i] != NEWLINE;
    }
  }

  /** One turn: the next record, or how the reading ends. */
  method ReadRecord(br: Reader, records: seq<seq<Byte>>, consumed: nat, clean: Clean)
    returns (line: nat, last: Option<Reading>, record: seq<Byte>)
    requires br.Valid() && br.size == BUFFER_SIZE && consumed <= MAX_BYTES
    modifies br
    ensures br.Valid()
    ensures var goal := Prepended(records, ReadFrom(old(br.Rest()), consumed, |records|, clean, br.eof));
            match last
            case Some(r) => r == goal
            case None =>
              && consumed + line <= MAX_BYTES && |records| + 1 <= MAX_EVENTS && |br.Rest()| < |old(br.Rest())|
              && goal == Prepended(records + [record],
                  ReadFrom(br.Rest(), consumed + line, |records| + 1, clean, br.eof))
  {
    ReadStep(records, br.Rest(), consumed, clean, br.eof);
    var text, ended, over := ReadOneLine(br, consumed);
    line, record := |text|, [];
    if over.Some? { return line, Some(Reading(records, true, over)), []; }
    if ended { return line,
        Some(if br.eof then Reading(records, |text| > 0, None) else Reading(records, true, Some(ReadError))), []; }
    var cleaned := clean(text);
    if cleaned.None? { return line, Some(Reading(records, true, Some(Invalid))), []; }
    record := cleaned.value;
    if |records| + 1 > MAX_EVENTS { return line, Some(Reading(records + [record], true, Some(TooMany))), record; }
    last := None;
  }

  method ReadPartial(file: seq<Byte>, valid: seq<Byte> -> bool, eof: bool) returns (r: Reading)
    ensures r == ReadFrom(if |file| > MAX_BYTES + 1 then file[..MAX_BYTES + 1] else file, 0, 0, Cleaning(valid), eof)
  {
    var limited := if |file| > MAX_BYTES + 1 then file[..MAX_BYTES + 1] else file;
    r := ReadRecords(limited, Cleaning(valid), eof);
  }

  method ReadRecords(limited: seq<Byte>, clean: Clean, eof: bool) returns (r: Reading)
    ensures r == ReadFrom(limited, 0, 0, clean, eof)
  {
    var br := new Reader(BUFFER_SIZE, limited, eof);
    var records: seq<seq<Byte>>, consumed: nat := [], 0;
    ghost var goal := ReadFrom(limited, 0, 0, clean, eof);
    PrependedSnoc([], [], goal);
    while true
      invariant br.Valid() && fresh(br) && consumed <= MAX_BYTES && |records| <= MAX_EVENTS
      invariant goal == Prepended(records, ReadFrom(br.Rest(), consumed, |records|, clean, eof))
      decreases |br.Rest()|
    {
      var line, last, record := ReadRecord(br, records, consumed, clean);
      if last.Some? { return last.value; }
      consumed, records := consumed + line, records + [record];
    }
  }

  // ---- Trimming ----------------------------------------------------------------------------

  /** unicode.IsSpace on the UTF-8 encodings of one, two and three bytes. */
  predicate Space1(a: Byte) {
    9 <= a <= 13 || a == 32
  }

  predicate Space2(a: Byte, b: Byte) {
    a == 0xC2 && (b == 0x85 || b == 0xA0)
  }

  predicate Space3(a: Byte, b: Byte, c: Byte) {
    || (a == 0xE1 && b == 0x9A && c == 0x80)
    || (a == 0xE2 && b == 0x80 && (0x80 <= c <= 0x8A || c == 0xA8 || c == 0xA9 || c == 0xAF))
    || (a == 0xE2 && b == 0x81 && c == 0x9F)
    || (a == 0xE3 && b == 0x80 && c == 0x80)
  }

  /** How many bytes of white space a text starts with, and ends with, at most one character. */
  function Leading(s: seq<Byte>): (n: nat)
    ensures n <= |s|
  {
    if |s| >= 1 && Space1(s[0]) then 1
    else if |s| >= 2 && Space2(s[0], s[1]) then 2
    else if |s| >= 3 && Space3(s[0], s[1], s[2]) then 3 else 0
  }

  function Trailing(s: seq<Byte>): (n: nat)
    ensures n <= |s|
  {
    var k := |s|;
    if k >= 1 && Space1(s[k - 1]) then 1
    else if k >= 2 && Space2(s[k - 2], s[k - 1]) then 2
    else if k >= 3 && Space3(s[k - 3], s[k - 2], s[k - 1]) then 3 else 0
  }

  function TrimLeft(s: seq<Byte>): seq<Byte> {
    if Leading(s) == 0 then s else TrimLeft(s[Leading(s)..])
  }

  function TrimRight(s: seq<Byte>): seq<Byte> {
    if Trailing(s) == 0 then s else TrimRight(s[..|s| - Trailing(s)])
  }

  /** bytes.TrimSpace, then json.Valid. */
  function Cleaning(valid: seq<Byte> -> bool): Clean {
    (line: seq<Byte>) => var text := TrimRight(TrimLeft(line)); if valid(text) then Some(text) else None
  }

  /** A JSON object on one line, as json.Marshal writes the recorder's events and records. */
  predicate IsObject(record: seq<Byte>, valid: seq<Byte> -> bool) {
    && |record| >= 2 && record[0] == 0x7B && record[|record| - 1] == 0x7D
    && OneLine(record) && |record| + 1 <= MAX_LINE && valid(record)
  }

  lemma ObjectsAreRecords(record: seq<Byte>, valid: seq<Byte> -> bool)
    requires IsObject(record, valid)
    ensures IsRecord(record, Cleaning(valid))
  {
    var line := Framed(record);
    assert Leading(line) == 0 && Trailing(line) == 1;
    assert line[..|line| - 1] == record && Trailing(record) == 0;
    assert TrimLeft(line) == line && TrimRight(line) == TrimRight(record) == record;
    assert Cleaning(valid)(line) == Some(record);
  }

  // ---- A cut log ------------------------------------------------------------------------

  /** Records as the recorder writes them: one line each, read back from that line as they are. */
  predicate Recorded(records: seq<seq<Byte>>, clean: Clean) {
    forall i :: 0 <= i < |records| ==> IsRecord(records[i], clean)
  }

  predicate IsRecord(record: seq<Byte>, clean: Clean) {
    OneLine(record) && |record| + 1 <= MAX_LINE && clean(Framed(record)) == Some(record)
  }

  lemma SpanOfFramed(record: seq<Byte>, rest: seq<Byte>)
    requires OneLine(record)
    ensures var all := Framed(record) + rest;
            && LineEnd(all) == |record| && Span(all) == |record| + 1
            && all[..Span(all)] == Framed(record) && all[Span(all)..] == rest
  {
    var all := Framed(record) + rest;
    assert all[..|record|] == record;
    LineEndIs(all, |record|);
  }

  lemma ReadFromFramed(record: seq<Byte>, rest: seq<Byte>, consumed: nat, count: nat, clean: Clean)
    requires IsRecord(record, clean)
    requires consumed + |record| + 1 <= MAX_BYTES && count < MAX_EVENTS
    ensures ReadFrom(Framed(record) + rest, consumed, count, clean, true) ==
            Prepended([record], ReadFrom(rest, consumed + |record| + 1, count + 1, clean, true))
  {
    SpanOfFramed(record, rest);
  }

  lemma ReadFromCut(part: seq<Byte>, consumed: nat, count: nat, clean: Clean)
    requires OneLine(part) && !TooLong(consumed, |part|)
    ensures ReadFrom(part, consumed, count, clean, true) == Reading([], part != [], None)
  {
    assert part[..|part|] == part;
    LineEndIs(part, |part|);
  }

  /** The whole records; partial exactly if the cut falls inside one. */
  function CutLog(records: seq<seq<Byte>>, cut: nat): Reading {
    var whole := records[..WholeFrames(records, cut)];
    Reading(whole, cut != |Encode(whole)|, None)
  }

  lemma CutLogCons(records: seq<seq<Byte>>, cut: nat)
    requires records != [] && |records[0]| < cut <= |Encode(records)|
    ensures CutLog(records, cut) == Prepended([records[0]], CutLog(records[1..], cut - |records[0]| - 1))
  {
    var k := WholeFrames(records[1..], cut - |records[0]| - 1);
    EncodePrefix(records, k + 1);
    TakeCons(records, k);
  }

  /** All that reading a cut log needs of the reader: it takes whole records, and stops in a cut one. */
  type ReadsFrom = (seq<Byte>, nat, nat) -> Reading

  ghost predicate TakesRecords(read: ReadsFrom, clean: Clean) {
    forall record: seq<Byte>, rest: seq<Byte>, consumed: nat, count: nat ::
      IsRecord(record, clean) && consumed + |record| + 1 <= MAX_BYTES && count < MAX_EVENTS ==>
        read(Framed(record) + rest, consumed, count) ==
            Prepended([record], read(rest, consumed + |record| + 1, count + 1))
  }

  ghost predicate StopsWhenCut(read: ReadsFrom) {
    forall part: seq<Byte>, consumed: nat, count: nat :: OneLine(part) && !TooLong(consumed, |part|) ==>
      read(part, consumed, count) == Reading([], part != [], None)
  }

  function Reads(clean: Clean): ReadsFrom {
    (rest: seq<Byte>, consumed: nat, count: nat) => ReadFrom(rest, consumed, count, clean, true)
  }

  lemma ReadsRecords(clean: Clean)
    ensures TakesRecords(Reads(clean), clean) && StopsWhenCut(Reads(clean))
  {
    forall record: seq<Byte>, rest: seq<Byte>, consumed: nat, count: nat |
        IsRecord(record, clean) && consumed + |record| + 1 <= MAX_BYTES && count < MAX_EVENTS
      ensures ReadFrom(Framed(record) + rest, consumed, count, clean, true) ==
              Prepended([record], ReadFrom(rest, consumed + |record| + 1, count + 1, clean, true))
    {
      ReadFromFramed(record, rest, consumed, count, clean);
    }
    forall part: seq<Byte>, consumed: nat, count: nat | OneLine(part) && !TooLong(consumed, |part|)
      ensures ReadFrom(part, consumed, count, clean, true) == Reading([], part != [], None)
    {
      ReadFromCut(part, consumed, count, clean);
    }
  }

  lemma {:induction false} CutAfter(
    records: seq<seq<Byte>>, cut: nat, consumed: nat, count: nat, clean: Clean, read: ReadsFrom)
    requires Recorded(records, clean) && cut <= |Encode(records)|
    requires consumed + cut <= MAX_BYTES && count + |records| <= MAX_EVENTS
    requires TakesRecords(read, clean) && StopsWhenCut(read)
    ensures read(Encode(records)[..cut], consumed, count) == CutLog(records, cut)
    decreases |records|
  {
    if records == [] {
      assert Encode(records)[..cut] == [];
    } else {
      assert IsRecord(records[0], clean);
      if cut <= |records[0]| {
        assert Encode(records)[..cut] == records[0][..cut];
      } else {
        var rest := cut - |records[0]| - 1;
        CutAfter(records[1..], rest, consumed + |records[0]| + 1, count + 1, clean, read);
        CutCons(records, cut);
        CutLogCons(records, cut);
      }
    }
  }

  /**
  A log cut at any byte is read back as exactly its complete records, in order, without an
  error, and is called partial exactly if the cut falls inside a record.
  */
  lemma CutLogIsReadBack(records: seq<seq<Byte>>, cut: nat, valid: seq<Byte> -> bool)
    requires forall i :: 0 <= i < |records| ==> IsObject(records[i], valid)
    requires |records| <= MAX_EVENTS && cut <= |Encode(records)| && cut <= MAX_BYTES
    ensures var r := ReadFrom(Encode(records)[..cut], 0, 0, Cleaning(valid), true);
            var k := WholeFrames(records, cut);
            && r == Reading(records[..k], cut != |Encode(records[..k])|, None)
            && |Encode(records[..k])| <= cut && (k < |records| ==> cut < |Encode(records[..k + 1])|)
  {
    var clean := Cleaning(valid);
    forall i | 0 <= i < |records| ensures IsRecord(records[i], clean) { ObjectsAreRecords(records[i], valid); }
    ReadsRecords(clean);
    CutAfter(records, cut, 0, 0, clean, Reads(clean));
    WholeFramesEnd(records, cut);
  }
}
