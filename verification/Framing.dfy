/**
Line framing (internal/protocol/protocol.go:180-221) over a buffered reader whose buffer
size and refill sizes are arbitrary, and a writer that may write any part of what it is
given.
*/
module Framing {
  import opened Common

  const NEWLINE: Byte := 10
  const MAX_FRAME: nat := 1024 * 1024

  /** The stream itself ends at end of file, or with another error such as a cut connection. */
  datatype Error = QuotaExceeded | UnexpectedEnd | End(eof: bool)

  /** How one slice ends. */
  datatype Status = Found | BufferFull | Ended

  predicate OneLine(s: seq<Byte>) {
    forall i :: 0 <= i < |s| ==> s[i] != NEWLINE
  }

  /** The position of the first newline, or the length. */
  function LineEnd(s: seq<Byte>): (n: nat)
    ensures n <= |s| && OneLine(s[..n])
    ensures n < |s| ==> s[n] == NEWLINE
  {
    if s == [] || s[0] == NEWLINE then 0
    else
      var n := LineEnd(s[1..]);
      assert s[..n + 1] == [s[0]] + s[1..][..n];
      n + 1
  }

  lemma LineEndIs(s: seq<Byte>, n: nat)
    requires n <= |s| && (forall i :: 0 <= i < n ==> s[i] != NEWLINE) && (n < |s| ==> s[n] == NEWLINE)
    ensures LineEnd(s) == n
  {
    var m := LineEnd(s);
    assert forall i :: 0 <= i < m ==> s[..m][i] == s[i];
  }

  /** What one ReadLine makes of the unread bytes, however they are buffered. */
  function LineOf(rest: seq<Byte>, limit: nat, eof: bool): Result<seq<Byte>, Error> {
    var n := LineEnd(rest);
    if n < |rest| then (if n + 1 <= limit then Ok(rest[..n]) else Err(QuotaExceeded))
    else if n > limit then Err(QuotaExceeded)
    else if eof && n > 0 then Err(UnexpectedEnd)
    else Err(End(eof))
  }

  /** A bufio.Reader: `buffer` is read ahead, `source` has not arrived yet. */
  class Reader {
    const size: nat
    const eof: bool
    var buffer: seq<Byte>
    var source: seq<Byte>

    constructor (size: nat, source: seq<Byte>, eof: bool)
      requires size > 0
      ensures Valid() && Rest() == source && this.size == size && this.eof == eof
    {
      this.size, this.eof, this.source, buffer := size, eof, source, [];
    }

    predicate Valid()
      reads this
    {
      size > 0 && |buffer| <= size
    }

    function Rest(): seq<Byte>
      reads this
    {
      buffer + source
    }

    /** ReadSlice('\n'): refills, by any amount, until a newline, a full buffer or the end. */
    method ReadSlice() returns (part: seq<Byte>, status: Status)
      requires Valid()
      modifies this
      ensures Valid() && old(Rest()) == part + Rest()
      ensures status == Found ==> part != [] && part[|part| - 1] == NEWLINE && OneLine(part[..|part| - 1])
      ensures status == BufferFull ==> part != [] && OneLine(part) && |part| == size
      ensures status == Ended ==> OneLine(part) && Rest() == []
      ensures |part| <= size
    {
      while true
        invariant Valid() && Rest() == old(Rest())
        decreases |source|
      {
        var n := LineEnd(buffer);
        if n < |buffer| {
          TakeLine(buffer, n, source);
          part, buffer := buffer[..n + 1], buffer[n + 1..];
          return part, Found;
        }
        if |buffer| >= size {
          part, buffer := buffer, [];
          return part, BufferFull;
        }
        if source == [] {
          part, buffer := buffer, [];
          return part, Ended;
        }
        var k: nat :| 1 <= k <= |source| && |buffer| + k <= size;
        assert source == source[..k] + source[k..];
        buffer, source := buffer + source[..k], source[k..];
      }
    }

    method ReadLine(limit: nat) returns (r: Result<seq<Byte>, Error>)
      requires Valid()
      modifies this
      ensures Valid() && r == LineOf(old(Rest()), limit, eof)
      ensures r.Ok? ==> old(Rest()) == r.value + [NEWLINE] + Rest()
    {
      ghost var all := Rest();
      var out: seq<Byte> := [];
      while true
        invariant Valid() && OneLine(out) && all == out + Rest() && |out| <= limit
        decreases |Rest()|
      {
        var part, status := ReadSlice();
        LineAfter(all, out, part, status, Rest(), limit, eof);
        if |out| + |part| > limit { return Err(QuotaExceeded); }
        out := out + part;
        if status == Found { return Ok(out[..|out| - 1]); }
        if status == Ended { return if eof && |out| > 0 then Err(UnexpectedEnd) else Err(End(eof)); }
      }
    }
  }

  function Prepend(lines: seq<seq<Byte>>, r: (seq<seq<Byte>>, Error)): (seq<seq<Byte>>, Error) {
    (lines + r.0, r.1)
  }

  lemma ReadAllStep(lines: seq<seq<Byte>>, rest: seq<Byte>, limit: nat, eof: bool)
    ensures match LineOf(rest, limit, eof)
            case Ok(line) => Prepend(lines, ReadAll(rest, limit, eof)) ==
                Prepend(lines + [line], ReadAll(rest[|line| + 1..], limit, eof))
            case Err(e) => Prepend(lines, ReadAll(rest, limit, eof)) == (lines, e)
  {
    match LineOf(rest, limit, eof) {
      case Ok(line) =>
        Regroup(lines, [line], ReadAll(rest[|line| + 1..], limit, eof).0);
      case Err(e) => assert lines + [] == lines;
    }
  }

  lemma Regroup<T>(a: seq<T>, b: seq<T>, c: seq<T>)
    ensures a + (b + c) == (a + b) + c
  {
  }

  /** The connection's reading loop: one line after another, until the first error. */
  method ReadFrames(r: Reader, limit: nat) returns (lines: seq<seq<Byte>>, e: Error)
    requires r.Valid()
    modifies r
    ensures (lines, e) == ReadAll(old(r.Rest()), limit, r.eof)
  {
    lines := [];
    assert [] + ReadAll(r.Rest(), limit, r.eof).0 == ReadAll(r.Rest(), limit, r.eof).0;
    while true
      invariant r.Valid() && ReadAll(old(r.Rest()), limit, r.eof) == Prepend(lines, ReadAll(r.Rest(), limit, r.eof))
      decreases |r.Rest()|
    {
      ghost var before := r.Rest();
      ReadAllStep(lines, before, limit, r.eof);
      var line := r.ReadLine(limit);
      match line {
        case Err(error) => return lines, error;
        case Ok(text) =>
          assert r.Rest() == before[|text| + 1..];
          lines := lines + [text];
      }
    }
  }

  lemma TakeLine(buffer: seq<Byte>, n: nat, source: seq<Byte>)
    requires n < |buffer| && OneLine(buffer[..n])
    ensures buffer[..n + 1] + (buffer[n + 1..] + source) == buffer + source
    ensures OneLine(buffer[..n + 1][..n])
  {
    assert buffer[..n + 1][..n] == buffer[..n];
  }

  predicate Slice(part: seq<Byte>, status: Status, rest: seq<Byte>) {
    match status
    case Found => part != [] && part[|part| - 1] == NEWLINE && OneLine(part[..|part| - 1])
    case BufferFull => part != [] && OneLine(part)
    case Ended => OneLine(part) && rest == []
  }

  lemma LineContinues(all: seq<Byte>, out: seq<Byte>, part: seq<Byte>, status: Status, rest: seq<Byte>)
    requires OneLine(out) && Slice(part, status, rest) && all == (out + part) + rest
    ensures status == Found ==> LineEnd(all) == |out| + |part| - 1
    ensures status == Ended ==> LineEnd(all) == |all| == |out| + |part|
  {
    if status == Found {
      var n := |part| - 1;
      assert forall i :: 0 <= i < n ==> part[i] == part[..n][i];
      LineEndIs(all, |out| + n);
    } else if status == Ended {
      LineEndIs(all, |all|);
    }
  }

  /** What the line is, once a slice over the limit, with a newline, or at the end is read. */
  lemma LineAfter(
    all: seq<Byte>, out: seq<Byte>, part: seq<Byte>, status: Status, rest: seq<Byte>, limit: nat, eof: bool)
    requires OneLine(out) && Slice(part, status, rest) && all == out + (part + rest)
    ensures all == (out + part) + rest
    ensures status == BufferFull ==> OneLine(out + part)
    ensures |out + part| > limit ==> LineOf(all, limit, eof) == Err(QuotaExceeded)
    ensures |out + part| <= limit && status == Found ==>
              var line := (out + part)[..|out + part| - 1];
              LineOf(all, limit, eof) == Ok(line) && all == line + [NEWLINE] + rest
    ensures |out + part| <= limit && status == Ended ==>
              LineOf(all, limit, eof) == if eof && |out + part| > 0 then Err(UnexpectedEnd) else Err(End(eof))
  {
    assert all == (out + part) + rest;
    LineContinues(all, out, part, status, rest);
    if status == Found {
      assert all[..|out| + |part| - 1] == (out + part)[..|out| + |part| - 1];
    } else if status == BufferFull {
      assert forall i :: 0 <= i < |out| + |part| ==> all[i] == (out + part)[i] != NEWLINE;
    }
  }

  // ---- Writing ------------------------------------------------------------------------

  function Framed(frame: seq<Byte>): seq<Byte> {
    frame + [NEWLINE]
  }

  function Encode(frames: seq<seq<Byte>>): seq<Byte> {
    if frames == [] then [] else Framed(frames[0]) + Encode(frames[1..])
  }

  /** What one Write does: how much of its argument it stores, and whether it reports an error. */
  datatype Chunk = Chunk(n: nat, failed: bool)

  /** What the next write stores of `size` bytes; a connection with no writes left stores nothing and fails. */
  function Stored(size: nat, chunks: seq<Chunk>): (n: nat)
    ensures n <= size
  {
    if chunks == [] then 0 else if chunks[0].n < size then chunks[0].n else size
  }

  predicate Fails(chunks: seq<Chunk>) {
    chunks == [] || chunks[0].failed
  }

  /** How much of `size` bytes the writes store, one after another, and whether that is all. */
  function Delivered(size: nat, chunks: seq<Chunk>): (r: (nat, bool))
    ensures r.0 <= size && (r.1 ==> r.0 == size)
  {
    var n := Stored(size, chunks);
    if size == 0 then (0, true)
    else if Fails(chunks) || n == 0 then (n, false)
    else (n + Delivered(size - n, chunks[1..]).0, Delivered(size - n, chunks[1..]).1)
  }

  /** `chunks` is what the connection will do to the writes to come; then it is gone. */
  class Writer {
    var sent: seq<Byte>
    var chunks: seq<Chunk>

    constructor (chunks: seq<Chunk>)
      ensures sent == [] && this.chunks == chunks
    {
      sent, this.chunks := [], chunks;
    }

    method Write(b: seq<Byte>) returns (n: nat, ok: bool)
      modifies this
      ensures n == Stored(|b|, old(chunks)) && (ok <==> !Fails(old(chunks)))
      ensures ok ==> chunks == old(chunks)[1..]
      ensures sent == old(sent) + b[..n]
    {
      if chunks == [] {
        assert b[..0] == [];
        return 0, false;
      }
      n, ok := if chunks[0].n < |b| then chunks[0].n else |b|, !chunks[0].failed;
      chunks, sent := chunks[1..], sent + b[..n];
    }

    /** WriteFrame: what the connection stores of the frame, and success exactly if that is all of it. */
    method WriteFrame(frame: seq<Byte>) returns (ok: bool)
      modifies this
      ensures |frame| + 1 > MAX_FRAME ==> !ok && sent == old(sent)
      ensures |frame| + 1 <= MAX_FRAME ==>
                var (n, all) := Delivered(|frame| + 1, old(chunks));
                ok == all && sent == old(sent) + Framed(frame)[..n]
      ensures ok ==> |frame| + 1 <= MAX_FRAME && sent == old(sent) + Framed(frame)
    {
      if |frame| + 1 > MAX_FRAME { return false; }
      var b := frame + [NEWLINE];
      assert b[..|b|] == b;
      ok := WriteAll(b);
    }

    /** The loop of WriteFrame. */
    method WriteAll(whole: seq<Byte>) returns (ok: bool)
      modifies this
      ensures ok == Delivered(|whole|, old(chunks)).1
      ensures sent == old(sent) + whole[..Delivered(|whole|, old(chunks)).0]
    {
      var b := whole;
      ghost var at, goal := 0, Delivered(|whole|, chunks);
      while |b| > 0
        invariant at <= |whole| && b == whole[at..] && sent == old(sent) + whole[..at]
        invariant goal == (at + Delivered(|b|, chunks).0, Delivered(|b|, chunks).1)
      {
        ghost var n0 := Stored(|b|, chunks);
        Advance(old(sent), whole, at, n0);
        var n, good := Write(b);
        if !good || n == 0 { return false; }
        b := b[n..];
        at := at + n;
      }
      return true;
    }
  }

  lemma Advance(sent: seq<Byte>, whole: seq<Byte>, at: nat, n: nat)
    requires at + n <= |whole|
    ensures sent + whole[..at] + whole[at..][..n] == sent + whole[..at + n]
    ensures whole[at..][n..] == whole[at + n..]
  {
  }

  /** Frame after frame: the stream is their encoding, or that encoding cut somewhere. */
  method WriteFrames(w: Writer, frames: seq<seq<Byte>>) returns (ok: bool)
    requires w.sent == []
    modifies w
    ensures ok ==> w.sent == Encode(frames)
    ensures !ok ==> w.sent <= Encode(frames)
    ensures ok ==> forall i :: 0 <= i < |frames| ==> |frames[i]| + 1 <= MAX_FRAME
  {
    assert frames[..0] == [];
    for i := 0 to |frames|
      invariant w.sent == Encode(frames[..i])
      invariant forall j :: 0 <= j < i ==> |frames[j]| + 1 <= MAX_FRAME
    {
      EncodeSnoc(frames, i);
      ok := w.WriteFrame(frames[i]);
      if !ok { return; }
    }
    assert frames[..|frames|] == frames;
    return true;
  }

  lemma {:induction false} EncodeSnoc(frames: seq<seq<Byte>>, i: nat)
    requires i < |frames|
    ensures Encode(frames[..i + 1]) == Encode(frames[..i]) + Framed(frames[i])
    ensures Encode(frames[..i + 1]) <= Encode(frames)
  {
    EncodePrefix(frames, i + 1);
    if i == 0 {
      assert frames[..0] == [];
    } else {
      EncodePrefix(frames, i);
      EncodeSnoc(frames[1..], i - 1);
    }
  }

  // ---- Round trip ----------------------------------------------------------------------

  /** Every line ReadLine returns until its first error, and that error. */
  function ReadAll(rest: seq<Byte>, limit: nat, eof: bool): (seq<seq<Byte>>, Error) {
    match LineOf(rest, limit, eof)
    case Err(e) => ([], e)
    case Ok(line) =>
      var (lines, e) := ReadAll(rest[|line| + 1..], limit, eof);
      ([line] + lines, e)
  }

  predicate Writable(frames: seq<seq<Byte>>) {
    forall i :: 0 <= i < |frames| ==> OneLine(frames[i]) && |frames[i]| + 1 <= MAX_FRAME
  }

  lemma LineOfFramed(frame: seq<Byte>, rest: seq<Byte>, eof: bool)
    requires OneLine(frame) && |frame| + 1 <= MAX_FRAME
    ensures LineOf(Framed(frame) + rest, MAX_FRAME, eof) == Ok(frame)
    ensures (Framed(frame) + rest)[|frame| + 1..] == rest
  {
    var all := Framed(frame) + rest;
    assert all[..|frame|] == frame;
    LineEndIs(all, |frame|);
  }

  lemma ReadAllFramed(frame: seq<Byte>, rest: seq<Byte>, eof: bool)
    requires OneLine(frame) && |frame| + 1 <= MAX_FRAME
    ensures ReadAll(Framed(frame) + rest, MAX_FRAME, eof) ==
            ([frame] + ReadAll(rest, MAX_FRAME, eof).0, ReadAll(rest, MAX_FRAME, eof).1)
  {
    LineOfFramed(frame, rest, eof);
  }

  /** Written frames are read back as the same list, and the bytes after them are untouched. */
  lemma {:induction false} FramesReadBack(frames: seq<seq<Byte>>, rest: seq<Byte>, eof: bool)
    requires Writable(frames)
    ensures ReadAll(Encode(frames) + rest, MAX_FRAME, eof) ==
            (frames + ReadAll(rest, MAX_FRAME, eof).0, ReadAll(rest, MAX_FRAME, eof).1)
  {
    if frames == [] {
      assert Encode(frames) + rest == rest;
      assert frames + ReadAll(rest, MAX_FRAME, eof).0 == ReadAll(rest, MAX_FRAME, eof).0;
    } else {
      EncodeCons(frames, rest);
      ReadAllFramed(frames[0], Encode(frames[1..]) + rest, eof);
      FramesReadBack(frames[1..], rest, eof);
      Cons(frames, ReadAll(rest, MAX_FRAME, eof).0);
    }
  }

  lemma TakeCons<T>(s: seq<T>, k: nat)
    requires k < |s|
    ensures s[..k + 1] == [s[0]] + s[1..][..k]
  {
  }

  lemma EncodeCons(frames: seq<seq<Byte>>, rest: seq<Byte>)
    requires frames != []
    ensures Encode(frames) + rest == Framed(frames[0]) + (Encode(frames[1..]) + rest)
  {
  }

  lemma Cons<T>(s: seq<T>, t: seq<T>)
    requires s != []
    ensures [s[0]] + (s[1..] + t) == s + t
  {
  }

  /** How many frames are whole in the first `cut` bytes of their encoding. */
  function WholeFrames(frames: seq<seq<Byte>>, cut: nat): (k: nat)
    ensures k <= |frames|
  {
    if frames == [] || cut <= |frames[0]| then 0 else 1 + WholeFrames(frames[1..], cut - |frames[0]| - 1)
  }

  lemma EncodePrefix(frames: seq<seq<Byte>>, k: nat)
    requires 1 <= k <= |frames|
    ensures Encode(frames[..k]) == Framed(frames[0]) + Encode(frames[1..][..k - 1])
  {
    assert frames[..k][1..] == frames[1..][..k - 1];
  }

  /** ... which are the ones that end at or before the cut. */
  lemma {:induction false} WholeFramesEnd(frames: seq<seq<Byte>>, cut: nat)
    requires cut <= |Encode(frames)|
    ensures var k := WholeFrames(frames, cut);
            |Encode(frames[..k])| <= cut && (k < |frames| ==> cut < |Encode(frames[..k + 1])|)
  {
    if frames == [] {
    } else if cut <= |frames[0]| {
      EncodePrefix(frames, 1);
    } else {
      var rest := cut - |frames[0]| - 1;
      var k := WholeFrames(frames[1..], rest);
      WholeFramesEnd(frames[1..], rest);
      EncodePrefix(frames, k + 1);
      if k + 1 < |frames| { EncodePrefix(frames, k + 2); }
    }
  }

  lemma ReadAllCut(part: seq<Byte>)
    requires OneLine(part) && |part| <= MAX_FRAME
    ensures ReadAll(part, MAX_FRAME, true) == ([], if part == [] then End(true) else UnexpectedEnd)
  {
    assert part[..|part|] == part;
    LineEndIs(part, |part|);
  }

  lemma CutCons(frames: seq<seq<Byte>>, cut: nat)
    requires frames != [] && |frames[0]| < cut <= |Encode(frames)|
    ensures Encode(frames)[..cut] == Framed(frames[0]) + Encode(frames[1..])[..cut - |frames[0]| - 1]
  {
  }

  /** The whole frames, and an error that tells a cut frame from a clean end. */
  function CutReading(frames: seq<seq<Byte>>, cut: nat): (seq<seq<Byte>>, Error) {
    var whole := frames[..WholeFrames(frames, cut)];
    (whole, if cut == |Encode(whole)| then End(true) else UnexpectedEnd)
  }

  lemma CutReadingCons(frames: seq<seq<Byte>>, cut: nat)
    requires frames != [] && |frames[0]| < cut <= |Encode(frames)|
    ensures CutReading(frames, cut) == Prepend([frames[0]], CutReading(frames[1..], cut - |frames[0]| - 1))
  {
    var k := WholeFrames(frames[1..], cut - |frames[0]| - 1);
    EncodePrefix(frames, k + 1);
    TakeCons(frames, k);
  }

  /** A stream cut anywhere yields exactly the whole frames before the cut. */
  lemma {:induction false} CutFrameIsNeverYielded(frames: seq<seq<Byte>>, cut: nat)
    requires Writable(frames) && cut <= |Encode(frames)|
    ensures ReadAll(Encode(frames)[..cut], MAX_FRAME, true) == CutReading(frames, cut)
  {
    if frames == [] {
      ReadAllCut([]);
    } else if cut <= |frames[0]| {
      assert Encode(frames)[..cut] == frames[0][..cut];
      ReadAllCut(frames[0][..cut]);
    } else {
      var rest := cut - |frames[0]| - 1;
      CutCons(frames, cut);
      ReadAllFramed(frames[0], Encode(frames[1..])[..rest], true);
      CutFrameIsNeverYielded(frames[1..], rest);
      CutReadingCons(frames, cut);
    }
  }
}
