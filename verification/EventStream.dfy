/** The reference parse of an event stream: lines and data buffers as sections 9.2.5 and 9.2.6 of
    the WHATWG HTML Living Standard define them, over a whole stream. */
module EventStreamReference {
  import opened Common

  newtype Byte = x: int | 0 <= x < 256
  type Bytes = seq<Byte>

  const LF: Byte := 10
  const CR: Byte := 13
  const SPACE: Byte := 32
  const COLON: Byte := 58
  const BOM: Bytes := [0xEF, 0xBB, 0xBF]
  const DATA: Bytes := [100, 97, 116, 97]

  predicate IsBreak(b: Byte) {
    b == LF || b == CR
  }

  /** The first line break, or the length when there is none. */
  function FirstBreak(s: Bytes): (i: nat)
    ensures i <= |s| && (i < |s| ==> IsBreak(s[i]))
  {
    if s == [] || IsBreak(s[0]) then 0 else 1 + FirstBreak(s[1..])
  }

  lemma {:induction false} NoEarlierBreak(s: Bytes, k: nat)
    requires k < FirstBreak(s)
    ensures !IsBreak(s[k])
  {
    if k > 0 {
      NoEarlierBreak(s[1..], k - 1);
    }
  }

  /** A CR takes an LF after it along. */
  function BreakLength(s: Bytes, i: nat): nat {
    if i + 1 < |s| && s[i] == CR && s[i + 1] == LF then 2 else 1
  }

  /** CR, LF and CRLF each end one line; an unterminated last line counts unless it is empty. */
  function Lines(s: Bytes): seq<Bytes>
    decreases |s|
  {
    if s == [] then []
    else
      var i := FirstBreak(s);
      if i == |s| then [s]
      else [s[..i]] + Lines(s[i + BreakLength(s, i)..])
  }

  function StripPrefix(s: Bytes, prefix: Bytes): Bytes {
    if prefix <= s then s[|prefix|..] else s
  }

  /** The lines of each event that a blank line ends; acc holds the lines of the one in progress. */
  function Blocks(lines: seq<Bytes>, acc: seq<Bytes>): seq<seq<Bytes>> {
    if lines == [] then []
    else if lines[0] == [] then [acc] + Blocks(lines[1..], [])
    else Blocks(lines[1..], acc + [lines[0]])
  }

  function Find(s: Bytes, b: Byte): (i: nat)
    ensures i <= |s| && (i < |s| ==> s[i] == b)
  {
    if s == [] || s[0] == b then 0 else 1 + Find(s[1..], b)
  }

  /** What a line adds to the data buffer. */
  function DataOf(line: Bytes): Bytes {
    var i := Find(line, COLON);
    if line[..i] != DATA then []
    else StripPrefix(if i < |line| then line[i + 1..] else [], [SPACE]) + [LF]
  }

  function Frame(block: seq<Bytes>): Bytes {
    if block == [] then [] else Frame(block[..|block| - 1]) + DataOf(block[|block| - 1])
  }

  function FirstMatch(blocks: seq<seq<Bytes>>, matches: Bytes -> bool): Option<Bytes> {
    if blocks == [] then None
    else if matches(Frame(blocks[0])) then Some(Frame(blocks[0]))
    else FirstMatch(blocks[1..], matches)
  }

  /** The data of the first event that answers the call. */
  function FirstFrame(s: Bytes, matches: Bytes -> bool): Option<Bytes> {
    FirstMatch(Blocks(Lines(StripPrefix(s, BOM)), []), matches)
  }
}

/** The incremental reader of readMCPResponse in src/internal/daemonapi/mcp.go. */
module EventStreamReader {
  import opened Common
  import opened EventStreamReference

  /** The scanner's split function: how far to advance, the line released if any, and skipLF. */
  datatype Cut = Cut(advance: nat, token: Option<Bytes>, skipLF: bool)

  function Split(data: Bytes, atEOF: bool, skipLF: bool): (c: Cut)
    ensures c.advance <= |data|
    ensures c.token.Some? ==> c.advance > 0
  {
    var offset := if skipLF && data != [] && data[0] == LF then 1 else 0;
    var line := data[offset..];
    var i := FirstBreak(line);
    if i < |line| then Cut(offset + i + 1, Some(line[..i]), line[i] == CR)
    else if atEOF && line != [] then Cut(|data|, Some(line), skipLF)
    else Cut(0, None, skipLF)
  }

  /** The lines still to come from s when the break before it was a CR. */
  function Rest(s: Bytes, skipLF: bool): seq<Bytes> {
    Lines(if skipLF && s != [] && s[0] == LF then s[1..] else s)
  }

  function Concat(chunks: seq<Bytes>): Bytes {
    if chunks == [] then [] else Concat(chunks[..|chunks| - 1]) + chunks[|chunks| - 1]
  }

  lemma {:induction false} LineCut(line: Bytes, later: Bytes)
    requires FirstBreak(line) < |line|
    ensures var i := FirstBreak(line);
            Lines(line[..i + 1] + later) == [line[..i]] + Rest(later, line[i] == CR)
  {
    var i := FirstBreak(line);
    var a := line[..i + 1];
    BreakAtEnd(line, i + 1);
    FirstLine(a, later);
    assert a[..i] == line[..i] && a[i] == line[i];
  }

  /** The first line of a stream that begins with a whole line, its one break byte included. */
  lemma {:induction false} FirstLine(a: Bytes, later: Bytes)
    requires a != [] && FirstBreak(a) == |a| - 1
    ensures Lines(a + later) == [a[..|a| - 1]] + Rest(later, a[|a| - 1] == CR)
  {
    var s, i := a + later, |a| - 1;
    BreakInPrefix(a, later);
    CutAt(a, later);
    LinesUnfold(s, BreakLength(s, i));
  }

  lemma {:induction false} CutAt(a: Bytes, later: Bytes)
    requires a != []
    ensures var s, i := a + later, |a| - 1;
            s[..i] == a[..i] && s[i + BreakLength(s, i)..] == if a[i] == CR && later != [] && later[0] == LF then later[1..] else later
  {
    var s, i := a + later, |a| - 1;
    assert s[i] == a[i] && s[i + 1..] == later;
    assert later != [] ==> s[i + 1] == later[0];
  }

  /** A released line is the next line of the stream, whatever follows the bytes it was cut from. */
  lemma {:induction false} SplitReleasesNextLine(data: Bytes, later: Bytes, skipLF: bool)
    requires Split(data, false, skipLF).token.Some?
    ensures var c := Split(data, false, skipLF);
            Rest(data[..c.advance] + later, skipLF) == [c.token.value] + Rest(later, c.skipLF)
  {
    if skipLF && data[0] == LF {
      SkipsTheFeed(data, later);
    } else {
      assert data[0..] == data;
      KeepsTheFirst(data, later, skipLF);
    }
  }

  lemma {:induction false} KeepsTheFirst(data: Bytes, later: Bytes, skipLF: bool)
    requires FirstBreak(data) < |data| && !(skipLF && data[0] == LF)
    ensures var i := FirstBreak(data);
            Rest(data[..i + 1] + later, skipLF) == [data[..i]] + Rest(later, data[i] == CR)
  {
    var s := data[..FirstBreak(data) + 1] + later;
    assert s[0] == data[0];
    assert Rest(s, skipLF) == Lines(s);
    LineCut(data, later);
  }

  lemma {:induction false} SkipsTheFeed(data: Bytes, later: Bytes)
    requires data != [] && data[0] == LF && FirstBreak(data[1..]) < |data[1..]|
    ensures var i := FirstBreak(data[1..]);
            Rest(data[..i + 2] + later, true) == [data[1..][..i]] + Rest(later, data[1..][i] == CR)
  {
    var i := FirstBreak(data[1..]);
    var s := data[..i + 2] + later;
    assert s[0] == LF && s[1..] == data[1..][..i + 1] + later;
    assert Rest(s, true) == Lines(data[1..][..i + 1] + later);
    LineCut(data[1..], later);
  }

  lemma {:induction false} BreakInPrefix(s: Bytes, later: Bytes)
    requires FirstBreak(s) < |s|
    ensures FirstBreak(s + later) == FirstBreak(s)
  {
    if !IsBreak(s[0]) {
      BreakInPrefix(s[1..], later);
      assert (s + later)[1..] == s[1..] + later;
    }
  }

  /** When the reader asks for more bytes, no terminated line is held back: a CR has released its
      line without the byte after it. */
  lemma {:induction false} BlockedHoldsNoLine(data: Bytes, skipLF: bool)
    requires Split(data, false, skipLF).token.None?
    ensures CR !in data && (forall i :: 0 <= i < |data| && data[i] == LF ==> skipLF && i == 0)
    ensures Rest(data, skipLF) == [] || (|Rest(data, skipLF)| == 1 && Rest(data, skipLF)[0] != [])
  {
    var offset := if skipLF && data != [] && data[0] == LF then 1 else 0;
    var line := data[offset..];
    forall k | offset <= k < |data| ensures !IsBreak(data[k]) {
      NoEarlierBreak(line, k - offset);
      assert data[k] == line[k - offset];
    }
  }

  /** The lines of the event still in progress. */
  function Open(lines: seq<Bytes>, acc: seq<Bytes>): seq<Bytes> {
    if lines == [] then acc
    else if lines[0] == [] then Open(lines[1..], [])
    else Open(lines[1..], acc + [lines[0]])
  }

  lemma {:induction false} BlocksConcat(a: seq<Bytes>, b: seq<Bytes>, acc: seq<Bytes>)
    ensures Blocks(a + b, acc) == Blocks(a, acc) + Blocks(b, Open(a, acc))
    ensures Open(a + b, acc) == Open(b, Open(a, acc))
  {
    if a == [] {
      assert a + b == b;
    } else {
      assert (a + b)[1..] == a[1..] + b;
      BlocksConcat(a[1..], b, if a[0] == [] then [] else acc + [a[0]]);
    }
  }

  lemma {:induction false} FirstMatchConcat(a: seq<seq<Bytes>>, b: seq<seq<Bytes>>, matches: Bytes -> bool)
    ensures FirstMatch(a + b, matches) == if FirstMatch(a, matches).Some? then FirstMatch(a, matches) else FirstMatch(b, matches)
  {
    if a == [] {
      assert a + b == b;
    } else {
      assert (a + b)[1..] == a[1..] + b;
      FirstMatchConcat(a[1..], b, matches);
    }
  }

  /** The reader strips the mark from its first line; the standard, from the stream. */
  function StripFirst(lines: seq<Bytes>): seq<Bytes> {
    if lines == [] then [] else [StripPrefix(lines[0], BOM)] + lines[1..]
  }

  function Search(lines: seq<Bytes>, matches: Bytes -> bool): Option<Bytes> {
    FirstMatch(Blocks(lines, []), matches)
  }

  lemma {:induction false} PrefixTransitive(a: Bytes, b: Bytes, c: Bytes)
    ensures a <= b && b <= c ==> a <= c
  {
    if a <= b && b <= c {
      assert forall i :: 0 <= i < |a| ==> a[i] == b[i] == c[i];
    }
  }

  lemma {:induction false} BreakAfterMark(t: Bytes)
    ensures FirstBreak(BOM + t) == 3 + FirstBreak(t)
  {
    var s := BOM + t;
    assert s[0] == 0xEF && s[1] == 0xBB && s[2] == 0xBF;
    assert s[1..][1..] == s[2..] && s[2..][1..] == t && s[1..][0] == s[1] && s[2..][0] == s[2];
    assert FirstBreak(s[2..]) == 1 + FirstBreak(t);
    assert FirstBreak(s[1..]) == 1 + FirstBreak(s[2..]);
  }

  lemma {:induction false} MarkIsInFirstLine(s: Bytes, matches: Bytes -> bool)
    requires !matches([])
    ensures FirstFrame(s, matches) == Search(StripFirst(Lines(s)), matches)
  {
    if BOM <= s {
      var t := s[3..];
      assert s == BOM + t;
      if t == [] {
        MarkAlone(matches);
      } else {
        MarkThenLine(t);
      }
    } else if s != [] {
      PrefixTransitive(BOM, Lines(s)[0], s);
      assert StripFirst(Lines(s)) == Lines(s);
    }
  }

  /** A stream that is only the mark has one line, which is blank without it. */
  lemma {:induction false} MarkAlone(matches: Bytes -> bool)
    requires !matches([])
    ensures FirstFrame(BOM, matches) == Search(StripFirst(Lines(BOM)), matches)
  {
    BreakAfterMark([]);
    assert BOM + [] == BOM;
    assert StripFirst(Lines(BOM)) == [[]];
    assert Blocks([[]], []) == [[]] + Blocks([], []);
    assert FirstMatch([[]], matches) == FirstMatch([[]][1..], matches);
  }

  lemma {:induction false} MarkThenLine(t: Bytes)
    requires t != []
    ensures StripFirst(Lines(BOM + t)) == Lines(t)
  {
    var s, i := BOM + t, FirstBreak(t);
    BreakAfterMark(t);
    if i < |t| {
      var n := BreakLength(t, i);
      assert BreakLength(s, 3 + i) == n;
      LinesUnfold(s, n);
      LinesUnfold(t, n);
      assert s[..3 + i] == BOM + t[..i] && s[3 + i + n..] == t[i + n..];
    } else {
      assert Lines(s) == [s] && Lines(t) == [t];
    }
  }

  /** The bytes consumed so far yield exactly the lines released, whatever comes next. */
  ghost predicate Consumed(bytes: Bytes, raw: seq<Bytes>, skipLF: bool) {
    forall later: Bytes :: ConsumedBefore(bytes, raw, skipLF, later)
  }

  ghost predicate ConsumedBefore(bytes: Bytes, raw: seq<Bytes>, skipLF: bool, later: Bytes) {
    Lines(bytes + later) == raw + Rest(later, skipLF)
  }

  lemma {:induction false} ConsumedStep(bytes: Bytes, raw: seq<Bytes>, skipLF: bool, data: Bytes)
    requires Consumed(bytes, raw, skipLF) && Split(data, false, skipLF).token.Some?
    ensures var c := Split(data, false, skipLF);
            Consumed(bytes + data[..c.advance], raw + [c.token.value], c.skipLF)
  {
    var c := Split(data, false, skipLF);
    var used := data[..c.advance];
    forall later: Bytes ensures ConsumedBefore(bytes + used, raw + [c.token.value], c.skipLF, later) {
      SplitReleasesNextLine(data, later, skipLF);
      ConsumedAppend(bytes, raw, skipLF, used, c.token.value, c.skipLF, later);
    }
  }

  lemma {:induction false} ConsumedAppend(bytes: Bytes, raw: seq<Bytes>, skipLF: bool, used: Bytes, line: Bytes, skipLF': bool, later: Bytes)
    requires Consumed(bytes, raw, skipLF)
    requires Rest(used + later, skipLF) == [line] + Rest(later, skipLF')
    ensures ConsumedBefore(bytes + used, raw + [line], skipLF', later)
  {
    assert (bytes + used) + later == bytes + (used + later);
    assert ConsumedBefore(bytes, raw, skipLF, used + later);
  }

  lemma {:induction false} BreakAtEnd(s: Bytes, n: nat)
    requires FirstBreak(s) < |s| && n == FirstBreak(s) + 1
    ensures FirstBreak(s[..n]) == FirstBreak(s)
  {
    if !IsBreak(s[0]) {
      BreakAtEnd(s[1..], n - 1);
      assert s[..n][1..] == s[1..][..n - 1];
    }
  }

  lemma {:induction false} ConcatStep(chunks: seq<Bytes>, k: nat)
    requires k < |chunks|
    ensures Concat(chunks[..k + 1]) == Concat(chunks[..k]) + chunks[k]
  {
    assert chunks[..k + 1][..k] == chunks[..k];
  }

  /** A further line extends the event in progress, and ends it when blank. */
  lemma {:induction false} SearchStep(raw: seq<Bytes>, line: Bytes, matches: Bytes -> bool)
    requires Search(StripFirst(raw), matches).None?
    ensures var l := if raw == [] then StripPrefix(line, BOM) else line;
            var open := Open(StripFirst(raw), []);
            && Open(StripFirst(raw + [line]), []) == (if l == [] then [] else open + [l])
            && Search(StripFirst(raw + [line]), matches) == (if l == [] && matches(Frame(open)) then Some(Frame(open)) else None)
  {
    var l := if raw == [] then StripPrefix(line, BOM) else line;
    var lines, open := StripFirst(raw), Open(StripFirst(raw), []);
    assert StripFirst(raw + [line]) == lines + [l];
    BlocksConcat(lines, [l], []);
    FirstMatchConcat(Blocks(lines, []), Blocks([l], open), matches);
    assert [l][1..] == [];
    assert Blocks([l], open) == if l == [] then [open] else [];
    assert [open][1..] == [];
  }

  lemma {:induction false} FrameStep(open: seq<Bytes>, line: Bytes)
    ensures Frame(open + [line]) == Frame(open) + DataOf(line)
  {
    assert (open + [line])[..|open|] == open;
  }

  /** An event once found stays the first, and an unfinished line ends no event. */
  lemma {:induction false} FoundStays(raw: seq<Bytes>, later: seq<Bytes>, matches: Bytes -> bool)
    requires raw != [] && Search(StripFirst(raw), matches).Some?
    ensures Search(StripFirst(raw + later), matches) == Search(StripFirst(raw), matches)
  {
    assert StripFirst(raw + later) == StripFirst(raw) + later;
    FoundInPrefix(StripFirst(raw), later, matches);
  }

  lemma {:induction false} FoundInPrefix(lines: seq<Bytes>, later: seq<Bytes>, matches: Bytes -> bool)
    requires Search(lines, matches).Some?
    ensures Search(lines + later, matches) == Search(lines, matches)
  {
    BlocksConcat(lines, later, []);
    FirstMatchConcat(Blocks(lines, []), Blocks(later, Open(lines, [])), matches);
  }

  lemma {:induction false} PartialLineEndsNothing(raw: seq<Bytes>, rest: seq<Bytes>, matches: Bytes -> bool)
    requires !matches([]) && Search(StripFirst(raw), matches).None?
    requires rest == [] || (|rest| == 1 && rest[0] != [])
    ensures Search(StripFirst(raw + rest), matches).None?
  {
    if rest == [] {
      assert raw + rest == raw;
    } else {
      assert rest == [rest[0]];
      SearchStep(raw, rest[0], matches);
    }
  }

  lemma {:induction false} Regroup(raw: seq<Bytes>, line: Bytes, later: seq<Bytes>)
    ensures raw + ([line] + later) == (raw + [line]) + later
  {
  }

  lemma {:induction false} SplitWhole(data: Bytes, skipLF: bool)
    requires Split(data, false, skipLF).token.Some?
    ensures var c := Split(data, false, skipLF);
            Rest(data, skipLF) == [c.token.value] + Rest(data[c.advance..], c.skipLF)
  {
    var n := Split(data, false, skipLF).advance;
    SplitReleasesNextLine(data, data[n..], skipLF);
    assert data[..n] + data[n..] == data;
  }

  lemma {:induction false} ReleaseAtEnd(raw: seq<Bytes>, data: Bytes, skipLF: bool, atEOF: bool)
    requires Split(data, atEOF, skipLF).token.Some?
    ensures var c := Split(data, atEOF, skipLF);
            raw + Rest(data, skipLF) == (raw + [c.token.value]) + Rest(data[c.advance..], c.skipLF)
  {
    var c := Split(data, atEOF, skipLF);
    if Split(data, false, skipLF).token.Some? {
      SplitWhole(data, skipLF);
    } else {
      LastLine(data, skipLF);
    }
    Regroup(raw, c.token.value, Rest(data[c.advance..], c.skipLF));
  }

  lemma {:induction false} LastLine(data: Bytes, skipLF: bool)
    requires Split(data, false, skipLF).token.None? && Split(data, true, skipLF).token.Some?
    ensures var c := Split(data, true, skipLF);
            Rest(data, skipLF) == [c.token.value] + Rest(data[c.advance..], c.skipLF)
  {
  }

  /** The reader holds what the stream read so far has not released. */
  ghost predicate Held(stream: Bytes, used: Bytes, raw: seq<Bytes>, data: Bytes, skipLF: bool, atEOF: bool) {
    && Lines(stream) == raw + Rest(data, skipLF)
    && (!atEOF ==> Consumed(used, raw, skipLF) && stream == used + data)
  }

  /** What holds before a line is released holds after it. */
  lemma {:induction false} ReleaseStep(stream: Bytes, used: Bytes, raw: seq<Bytes>, data: Bytes, skipLF: bool, atEOF: bool)
    requires Split(data, atEOF, skipLF).token.Some? && Held(stream, used, raw, data, skipLF, atEOF)
    ensures var c := Split(data, atEOF, skipLF);
            Held(stream, used + data[..c.advance], raw + [c.token.value], data[c.advance..], c.skipLF, atEOF)
  {
    ReleaseAtEnd(raw, data, skipLF, atEOF);
    if !atEOF {
      ConsumedStep(used, raw, skipLF, data);
      Divided(used, data, Split(data, false, skipLF).advance);
    }
  }

  lemma {:induction false} Divided(used: Bytes, data: Bytes, n: nat)
    requires n <= |data|
    ensures used + data == (used + data[..n]) + data[n..]
  {
  }

  /** What holds before a chunk is read holds after it. */
  lemma {:induction false} FillStep(stream: Bytes, used: Bytes, raw: seq<Bytes>, data: Bytes, skipLF: bool, chunk: Bytes)
    requires Held(stream, used, raw, data, skipLF, false)
    ensures Held(stream + chunk, used, raw, data + chunk, skipLF, false)
  {
    Associative(used, data, chunk);
    ConsumedAt(used, raw, skipLF, stream + chunk, data + chunk);
  }

  lemma {:induction false} FoundIsFirstFrame(stream: Bytes, raw: seq<Bytes>, later: seq<Bytes>, matches: Bytes -> bool)
    requires !matches([]) && raw != [] && Search(StripFirst(raw), matches).Some? && Lines(stream) == raw + later
    ensures FirstFrame(stream, matches) == Search(StripFirst(raw), matches)
  {
    FoundStays(raw, later, matches);
    MarkIsInFirstLine(stream, matches);
  }

  lemma {:induction false} BlockedHasNoFrame(stream: Bytes, raw: seq<Bytes>, data: Bytes, skipLF: bool, matches: Bytes -> bool)
    requires !matches([]) && Search(StripFirst(raw), matches).None?
    requires Split(data, false, skipLF).token.None? && Lines(stream) == raw + Rest(data, skipLF)
    ensures FirstFrame(stream, matches).None?
  {
    BlockedHoldsNoLine(data, skipLF);
    PartialLineEndsNothing(raw, Rest(data, skipLF), matches);
    MarkIsInFirstLine(stream, matches);
  }

  /** What n chunks hold is the released lines and at most one line without its end. */
  ghost predicate Pending(chunks: seq<Bytes>, n: nat, raw: seq<Bytes>)
    requires n <= |chunks|
  {
    exists tail: seq<Bytes> :: Lines(Concat(chunks[..n])) == raw + tail && (tail == [] || (|tail| == 1 && tail[0] != []))
  }

  ghost predicate AllPending(chunks: seq<Bytes>, n: nat, m: nat, raw: seq<Bytes>)
    requires n <= m <= |chunks|
  {
    forall k :: n <= k < m ==> Pending(chunks, k, raw)
  }

  lemma {:induction false} PendingExtends(chunks: seq<Bytes>, n: nat, m: nat, raw: seq<Bytes>)
    requires n <= m < |chunks| && AllPending(chunks, n, m, raw) && Pending(chunks, m, raw)
    ensures AllPending(chunks, n, m + 1, raw)
  {
  }

  /** The line scanner over the reads of a limited body. */
  class Scanner {
    const chunks: seq<Bytes>
    var taken: nat          // chunks read
    var total: nat          // bytes read
    var buffer: Bytes
    var skipLF: bool
    var atEOF: bool
    ghost var raw: seq<Bytes>   // the lines released so far
    ghost var used: Bytes       // the bytes they came from

    ghost predicate Valid()
      reads this
    {
      && taken <= |chunks| && total == |Concat(chunks[..taken])|
      && (atEOF ==> taken == |chunks|)
      && Held(Concat(chunks[..taken]), used, raw, buffer, skipLF, atEOF)
    }

    constructor (chunks: seq<Bytes>)
      ensures Valid() && this.chunks == chunks && taken == 0 && raw == []
    {
      this.chunks := chunks;
      taken, total, buffer, skipLF, atEOF := 0, 0, [], false, false;
      raw, used := [], [];
      new;
      NothingConsumed();
      assert chunks[..0] == [];
    }

    lemma {:induction false} Blocked()
      requires Valid() && Split(buffer, false, skipLF).token.None?
      ensures Pending(chunks, taken, raw)
    {
      BlockedHoldsNoLine(buffer, skipLF);
      assert Lines(Concat(chunks[..taken])) == raw + Rest(buffer, skipLF);
    }

    /** Reads one more chunk, or the end of the body. */
    method Fill()
      requires Valid() && !atEOF && Split(buffer, false, skipLF).token.None?
      modifies this
      ensures Valid() && raw == old(raw) && Pending(chunks, old(taken), raw)
      ensures old(taken) < |chunks| ==> taken == old(taken) + 1 && !atEOF
      ensures old(taken) == |chunks| ==> taken == old(taken) && atEOF
    {
      Blocked();
      if taken == |chunks| {
        atEOF := true;
      } else {
        ConcatStep(chunks, taken);
        FillStep(Concat(chunks[..taken]), used, raw, buffer, skipLF, chunks[taken]);
        buffer, total, taken := buffer + chunks[taken], total + |chunks[taken]|, taken + 1;
      }
    }

    /** An answer among the released lines is the answer of all that was read. */
    lemma {:induction false} Released(matches: Bytes -> bool)
      requires Valid() && raw != [] && !matches([]) && Search(StripFirst(raw), matches).Some?
      ensures FirstFrame(Concat(chunks[..taken]), matches) == Search(StripFirst(raw), matches)
      ensures total == |Concat(chunks[..taken])|
    {
      FoundIsFirstFrame(Concat(chunks[..taken]), raw, Rest(buffer, skipLF), matches);
    }

    /** Takes the line that the split function found in the buffer. */
    method Take() returns (line: Bytes)
      requires Valid() && Split(buffer, atEOF, skipLF).token.Some?
      modifies this
      ensures Valid() && raw == old(raw) + [line] && taken == old(taken) && atEOF == old(atEOF)
      ensures |buffer| < |old(buffer)|
    {
      var c := Split(buffer, atEOF, skipLF);
      ReleaseStep(Concat(chunks[..taken]), used, raw, buffer, skipLF, atEOF);
      raw, used := raw + [c.token.value], used + buffer[..c.advance];
      buffer, skipLF := buffer[c.advance..], c.skipLF;
      line := c.token.value;
    }

    /** Reads until the split function finds a line or the body ends. */
    method FillUntilReady()
      requires Valid()
      modifies this
      ensures Valid() && raw == old(raw) && old(taken) <= taken
      ensures AllPending(chunks, old(taken), taken, raw)
      ensures Split(buffer, atEOF, skipLF).token.Some? || atEOF
      ensures taken == old(taken) ==> (atEOF && !old(atEOF)) || (atEOF == old(atEOF) && buffer == old(buffer))
    {
      ghost var start, lines := taken, raw;
      while Split(buffer, atEOF, skipLF).token.None? && !atEOF
        invariant Valid() && raw == lines && start <= taken
        invariant AllPending(chunks, start, taken, lines)
        invariant taken == start ==> (atEOF && !old(atEOF)) || (atEOF == old(atEOF) && buffer == old(buffer))
        decreases |chunks| - taken, !atEOF
      {
        ghost var before := taken;
        Fill();
        if taken != before {
          PendingExtends(chunks, start, before, lines);
        }
      }
    }

    /** The next line, or none at the end; no line is waited for beyond the chunk that ends it. */
    method Scan() returns (token: Option<Bytes>)
      requires Valid()
      modifies this
      ensures Valid() && old(taken) <= taken
      ensures token.Some? ==> raw == old(raw) + [token.value]
      ensures token.None? ==> raw == old(raw) && taken == |chunks| && Pending(chunks, taken, raw)
      ensures AllPending(chunks, old(taken), taken, old(raw))
      ensures token.Some? && taken == old(taken) ==> (atEOF && !old(atEOF)) || (atEOF == old(atEOF) && |buffer| < |old(buffer)|)
    {
      FillUntilReady();
      if Split(buffer, atEOF, skipLF).token.Some? {
        var line := Take();
        return Some(line);
      }
      Blocked();
      token := None;
    }
  }

  /** No fewer than n chunks hold an answer. */
  ghost predicate Unanswered(chunks: seq<Bytes>, n: nat, matches: Bytes -> bool)
    requires n <= |chunks|
  {
    forall k :: 0 <= k < n ==> FirstFrame(Concat(chunks[..k]), matches).None?
  }

  lemma {:induction false} PendingHasNoFrame(chunks: seq<Bytes>, k: nat, raw: seq<Bytes>, matches: Bytes -> bool)
    requires k <= |chunks| && Pending(chunks, k, raw)
    requires !matches([]) && Search(StripFirst(raw), matches).None?
    ensures FirstFrame(Concat(chunks[..k]), matches).None?
  {
    var tail :| Lines(Concat(chunks[..k])) == raw + tail && (tail == [] || (|tail| == 1 && tail[0] != []));
    PartialLineEndsNothing(raw, tail, matches);
    MarkIsInFirstLine(Concat(chunks[..k]), matches);
  }

  lemma {:induction false} StillUnanswered(chunks: seq<Bytes>, n: nat, m: nat, raw: seq<Bytes>, matches: Bytes -> bool)
    requires n <= m <= |chunks| && Unanswered(chunks, n, matches)
    requires AllPending(chunks, n, m, raw)
    requires !matches([]) && Search(StripFirst(raw), matches).None?
    ensures Unanswered(chunks, m, matches)
  {
    forall k | n <= k < m ensures FirstFrame(Concat(chunks[..k]), matches).None? {
      PendingHasNoFrame(chunks, k, raw, matches);
    }
  }

  /** Reads until an event answers the call. The chunks are what successive reads of the limited
      body return; reading more than budget bytes is an error, as is a stream that ends first.
      taken counts the chunks read. The result is the reference parse of what was read, and the
      reader stops at the earliest chunk after which the reference parse has an answer. */
  method ReadResponse(chunks: seq<Bytes>, matches: Bytes -> bool, budget: nat) returns (r: Option<Bytes>, taken: nat)
    requires !matches([])
    requires |Concat(chunks)| <= budget + 1
    ensures taken <= |chunks| && Unanswered(chunks, taken, matches)
    ensures r.Some? ==> r == FirstFrame(Concat(chunks[..taken]), matches) && |Concat(chunks[..taken])| <= budget
    ensures r.None? ==> FirstFrame(Concat(chunks), matches).None? || |Concat(chunks[..taken])| > budget
  {
    var scanner := new Scanner(chunks);
    var first, frame: Bytes := true, [];
    while true
      invariant scanner.Valid() && scanner.chunks == chunks && fresh(scanner)
      invariant Unanswered(chunks, scanner.taken, matches)
      invariant Search(StripFirst(scanner.raw), matches).None?
      invariant frame == Frame(Open(StripFirst(scanner.raw), [])) && (first <==> scanner.raw == [])
      decreases |chunks| - scanner.taken, !scanner.atEOF, |scanner.buffer|
    {
      ghost var raw, before := scanner.raw, scanner.taken;
      var token := scanner.Scan();
      taken := scanner.taken;
      StillUnanswered(chunks, before, taken, raw, matches);
      if token.None? {
        PendingHasNoFrame(chunks, taken, raw, matches);
        assert chunks[..taken] == chunks;
        return None, taken;
      }
      var line := if first then StripPrefix(token.value, BOM) else token.value;
      SearchStep(raw, token.value, matches);
      FrameStep(Open(StripFirst(raw), []), line);
      first := false;
      if line != [] {
        frame := frame + DataOf(line);
      } else if matches(frame) {
        scanner.Released(matches);
        if scanner.total > budget {
          return None, taken;
        }
        return Some(frame), taken;
      } else {
        frame := [];
      }
    }
  }

  /** Cuts data until nothing more is released. */
  lemma {:induction false} Drain(used: Bytes, raw: seq<Bytes>, skipLF: bool, data: Bytes)
      returns (used': Bytes, raw': seq<Bytes>, skipLF': bool, data': Bytes)
    requires Consumed(used, raw, skipLF)
    ensures Consumed(used', raw', skipLF') && used' + data' == used + data && Split(data', false, skipLF').token.None?
    decreases |data|
  {
    var c := Split(data, false, skipLF);
    if c.token.None? {
      return used, raw, skipLF, data;
    }
    ConsumedStep(used, raw, skipLF, data);
    assert (used + data[..c.advance]) + data[c.advance..] == used + data;
    used', raw', skipLF', data' := Drain(used + data[..c.advance], raw + [c.token.value], c.skipLF, data[c.advance..]);
  }

  lemma {:induction false} SameFrame(s: Bytes, t: Bytes, raw: seq<Bytes>, data: Bytes, skipLF: bool, later: seq<Bytes>, matches: Bytes -> bool)
    requires !matches([]) && Split(data, false, skipLF).token.None?
    requires Lines(s) == raw + Rest(data, skipLF) && Lines(t) == raw + later
    ensures FirstFrame(s, matches).Some? ==> FirstFrame(t, matches) == FirstFrame(s, matches)
  {
    if Search(StripFirst(raw), matches).None? {
      BlockedHasNoFrame(s, raw, data, skipLF, matches);
    } else {
      FoundIsFirstFrame(s, raw, Rest(data, skipLF), matches);
      FoundIsFirstFrame(t, raw, later, matches);
    }
  }

  lemma {:induction false} ConsumedAt(bytes: Bytes, raw: seq<Bytes>, skipLF: bool, s: Bytes, later: Bytes)
    requires Consumed(bytes, raw, skipLF) && s == bytes + later
    ensures Lines(s) == raw + Rest(later, skipLF)
  {
    assert ConsumedBefore(bytes, raw, skipLF, later);
  }

  lemma {:induction false} Associative(a: Bytes, b: Bytes, c: Bytes)
    ensures (a + b) + c == a + (b + c)
  {
  }

  lemma {:induction false} NothingConsumed()
    ensures Consumed([], [], false)
  {
    forall t: Bytes ensures ConsumedBefore([], [], false, t) {
      assert [] + t == t;
    }
  }

  /** An answer found in a prefix is the answer of the whole stream, so within the budget the result
      depends on the bytes alone and not on how reads divide them. */
  lemma {:induction false} AnswerIsStable(s: Bytes, later: Bytes, matches: Bytes -> bool)
    requires !matches([]) && FirstFrame(s, matches).Some?
    ensures FirstFrame(s + later, matches) == FirstFrame(s, matches)
  {
    NothingConsumed();
    var used, raw, skipLF, data := Drain([], [], false, s);
    Associative(used, data, later);
    ConsumedAt(used, raw, skipLF, s, data);
    ConsumedAt(used, raw, skipLF, s + later, data + later);
    SameFrame(s, s + later, raw, data, skipLF, Rest(data + later, skipLF), matches);
  }

  lemma {:induction false} LinesUnfold(s: Bytes, n: nat)
    requires FirstBreak(s) < |s|
    requires n == BreakLength(s, FirstBreak(s))
    ensures Lines(s) == [s[..FirstBreak(s)]] + Lines(s[FirstBreak(s) + n..])
  {
  }
}
