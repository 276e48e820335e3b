/**
 The transcript file of a session (crates/dwo-agent-service/src/repository.rs, append_transcript_event and
 load_transcript): one JSON record a line, appended; a last line that an interrupted write left behind is
 read if it is whole and cut off if it is not.
 */
module Transcript {
  import opened Common
  import opened Text

  type Bytes = seq<byte>

  const NEWLINE: byte := 10

  /** u8::is_ascii_whitespace */
  predicate IsBlank(b: byte) {
    b == 32 || b == 9 || b == 10 || b == 12 || b == 13
  }

  /** The JSON serializer and parser of one record. */
  datatype Codec<!E> = Codec(enc: E -> Bytes, dec: Bytes -> Option<E>)

  predicate Tight(s: Bytes) {
    s != [] && !IsBlank(s[0]) && !IsBlank(s[|s| - 1])
  }

  /**
   What is assumed of it: a record is written without raw newlines (section 7 of RFC 8259) or white space
   around it, reads back, and, being a JSON object, no text that parses is the beginning of another.
   */
  ghost predicate Lawful<E(!new)>(c: Codec<E>) {
    && (forall e :: Tight(c.enc(e)) && NEWLINE !in c.enc(e) && c.dec(c.enc(e)) == Some(e))
    && (forall x, y :: x <= y && Tight(x) && Tight(y) && c.dec(x).Some? && c.dec(y).Some? ==> x == y)
  }

  /** Such codecs exist; this one writes a truth value as one letter. */
  lemma LawfulCodecsExist()
    ensures exists c: Codec<bool> :: Lawful(c)
  {
    var c := Codec((b: bool) => [if b then 116 as byte else 102],
                   (s: Bytes) => if s == [116] then Some(true) else if s == [102] then Some(false) else None);
    assert Lawful(c);
  }

  // ---------------------------------------------------------------- trim_ascii

  function TrimFront(s: Bytes): (r: Bytes)
    ensures |r| <= |s|
    ensures r != [] ==> !IsBlank(r[0])
  {
    if s != [] && IsBlank(s[0]) then TrimFront(s[1..]) else s
  }

  function TrimBack(s: Bytes): (r: Bytes)
    ensures r <= s
    ensures r != [] ==> !IsBlank(r[|r| - 1])
  {
    if s != [] && IsBlank(s[|s| - 1]) then TrimBack(s[..|s| - 1]) else s
  }

  function TrimAscii(s: Bytes): (r: Bytes)
    ensures r == [] || Tight(r)
  {
    TrimBack(TrimFront(s))
  }

  lemma TightStays(s: Bytes)
    requires Tight(s)
    ensures TrimAscii(s) == s
  {
  }

  lemma {:induction false} TrimFrontAppend(s: Bytes, t: Bytes)
    ensures TrimFront(s + t) == if TrimFront(s) == [] then TrimFront(t) else TrimFront(s) + t
  {
    if s == [] {
      assert s + t == t;
    } else {
      assert (s + t)[1..] == s[1..] + t;
      if IsBlank(s[0]) {
        TrimFrontAppend(s[1..], t);
      }
    }
  }

  /** A tight text after anything: trimming leaves it, and what is left of the rest before it. */
  lemma TrimBeforeTight(s: Bytes, t: Bytes)
    requires Tight(t)
    ensures TrimAscii(s + t) == TrimFront(s) + t && (TrimFront(s) == [] <==> TrimAscii(s) == [])
  {
    TrimFrontAppend(s, t);
    TrimBackIsEmpty(TrimFront(s));
    var r := TrimFront(s) + t;
    assert r[|r| - 1] == t[|t| - 1];
    if TrimFront(s) == [] {
      assert r == t;
    }
  }

  lemma TrimBackIsEmpty(s: Bytes)
    requires s == [] || !IsBlank(s[0])
    ensures TrimBack(s) == [] <==> s == []
  {
    if s != [] {
      TrimBackStops(s);
    }
  }

  lemma {:induction false} TrimBackStops(s: Bytes)
    requires s != [] && !IsBlank(s[0])
    ensures TrimBack(s) != []
    decreases |s|
  {
    if IsBlank(s[|s| - 1]) {
      TrimBackStops(s[..|s| - 1]);
    }
  }

  /** trim_ascii */
  method StripBlanks(bytes: Bytes) returns (value: Bytes)
    ensures value == TrimAscii(bytes)
  {
    value := bytes;
    while value != [] && IsBlank(value[0])
      invariant TrimFront(value) == TrimFront(bytes)
      decreases |value|
    {
      value := value[1..];
    }
    while value != [] && IsBlank(value[|value| - 1])
      invariant TrimBack(value) == TrimAscii(bytes)
      decreases |value|
    {
      value := value[..|value| - 1];
    }
  }

  // ---------------------------------------------------------------- what a file holds

  /** The records as they are written. */
  function Encoding<E>(c: Codec<E>, events: seq<E>): Bytes {
    if events == [] then []
    else Encoding(c, events[..|events| - 1]) + c.enc(events[|events| - 1]) + [NEWLINE]
  }

  /** Length of the part that ends with the last newline. */
  function CompleteLength(bytes: Bytes): (n: nat)
    ensures n <= |bytes|
    ensures n > 0 ==> bytes[n - 1] == NEWLINE
    ensures NEWLINE !in bytes[n..]
  {
    if bytes == [] then 0
    else if bytes[|bytes| - 1] == NEWLINE then |bytes|
    else
      var n := CompleteLength(bytes[..|bytes| - 1]);
      assert bytes[n..] == bytes[..|bytes| - 1][n..] + [bytes[|bytes| - 1]];
      n
  }

  predicate EndsLine(bytes: Bytes) {
    bytes == [] || bytes[|bytes| - 1] == NEWLINE
  }

  lemma {:induction false} CompleteLengthOf(head: Bytes, tail: Bytes)
    requires EndsLine(head) && NEWLINE !in tail
    ensures CompleteLength(head + tail) == |head|
    ensures (head + tail)[..|head|] == head && (head + tail)[|head|..] == tail
    decreases |tail|
  {
    if tail == [] {
      assert head + tail == head;
    } else {
      assert (head + tail)[..|head + tail| - 1] == head + tail[..|tail| - 1];
      CompleteLengthOf(head, tail[..|tail| - 1]);
    }
  }

  /** One more line read: blank lines are skipped, a line that is no record fails the whole file. */
  function ReadLine<E>(c: Codec<E>, read: Option<seq<E>>, line: Bytes): Option<seq<E>> {
    var text := TrimAscii(line);
    if read.None? || text == [] then read
    else if c.dec(text).Some? then Some(read.value + [c.dec(text).value])
    else None
  }

  function ReadLines<E>(c: Codec<E>, lines: seq<Bytes>): Option<seq<E>> {
    if lines == [] then Some([])
    else ReadLine(c, ReadLines(c, lines[..|lines| - 1]), lines[|lines| - 1])
  }

  /** The records of the complete part of a file. */
  function ReadComplete<E>(c: Codec<E>, head: Bytes): Option<seq<E>> {
    ReadLines(c, SplitOn(head, NEWLINE))
  }

  datatype Loaded<+E> = Unreadable | Loaded(events: seq<E>, file: Bytes)

  /** load_transcript: the records, and what the file holds afterwards. */
  function Load<E>(c: Codec<E>, file: Bytes): Loaded<E> {
    var n := CompleteLength(file);
    var read := ReadComplete(c, file[..n]);
    var tail := TrimAscii(file[n..]);
    if read.None? then Unreadable
    else if tail == [] then Loaded(read.value, file)
    else if c.dec(tail).Some? then Loaded(read.value + [c.dec(tail).value], file)
    else Loaded(read.value, file[..n])
  }

  function Appended<E>(c: Codec<E>, file: Bytes, e: E): Bytes {
    file + (c.enc(e) + [NEWLINE])
  }

  // ---------------------------------------------------------------- reading line by line

  lemma ReadLinesLast<E>(c: Codec<E>, lines: seq<Bytes>, line: Bytes)
    ensures ReadLines(c, lines + [line]) == ReadLine(c, ReadLines(c, lines), line)
  {
    assert (lines + [line])[..|lines|] == lines;
  }

  /** A newline at the end adds an empty piece, which reads as nothing. */
  lemma ReadEndedLine<E>(c: Codec<E>, text: Bytes)
    ensures ReadComplete(c, text + [NEWLINE]) == ReadComplete(c, text)
  {
    SplitConcat(text, [], NEWLINE);
    assert text + [NEWLINE] + [] == text + [NEWLINE];
    ReadLinesLast(c, SplitOn(text, NEWLINE), []);
  }

  /** One more line after a complete part is read after it. */
  lemma ReadOneMore<E>(c: Codec<E>, head: Bytes, line: Bytes)
    requires EndsLine(head) && NEWLINE !in line
    ensures ReadComplete(c, head + line + [NEWLINE]) == ReadLine(c, ReadComplete(c, head), line)
  {
    ReadEndedLine(c, head + line);
    SplitSingle(line, NEWLINE);
    if head == [] {
      assert head + line == line;
      ReadLinesLast(c, [], line);
      ReadLinesLast(c, [], []);
      assert [] + [line] == [line];
    } else {
      var text := head[..|head| - 1];
      assert head == text + [NEWLINE];
      SplitConcat(text, line, NEWLINE);
      ReadLinesLast(c, SplitOn(text, NEWLINE), line);
      ReadEndedLine(c, text);
    }
  }

  lemma NothingToRead<E>(c: Codec<E>)
    ensures ReadComplete(c, []) == Some([])
  {
    var none: seq<Bytes>, blank: Bytes := [], [];
    SplitSingle(blank, NEWLINE);
    ReadLinesLast(c, none, blank);
    assert none + [blank] == [blank];
  }

  lemma {:induction false} EncodingReads<E(!new)>(c: Codec<E>, events: seq<E>)
    requires Lawful(c)
    ensures EndsLine(Encoding(c, events)) && ReadComplete(c, Encoding(c, events)) == Some(events)
  {
    if events == [] {
      NothingToRead(c);
    } else {
      var front, e := events[..|events| - 1], events[|events| - 1];
      EncodingReads(c, front);
      ReadOneMore(c, Encoding(c, front), c.enc(e));
      TightStays(c.enc(e));
      assert front + [e] == events;
    }
  }

  // ---------------------------------------------------------------- what loading gives

  lemma {:induction false} TrimmedPrefix(p: Bytes, text: Bytes)
    requires p <= text && Tight(text)
    ensures TrimAscii(p) <= p && (TrimAscii(p) == [] <==> p == [])
  {
    TrimBackIsEmpty(p);
    assert TrimFront(p) == p;
  }

  /**
   A file that holds n records and the beginning of one more: all n are read, the last only when its JSON
   is complete. When it is not, the file is cut back to exactly the encoding of what was read.
   */
  lemma {:induction false} TornTailIsRepaired<E(!new)>(c: Codec<E>, events: seq<E>, e: E, p: Bytes)
    requires Lawful(c) && p <= c.enc(e)
    ensures Load(c, Encoding(c, events) + p)
            == if p == c.enc(e) then Loaded(events + [e], Encoding(c, events) + p)
               else Loaded(events, Encoding(c, events))
  {
    var head := Encoding(c, events);
    EncodingReads(c, events);
    CompleteLengthOf(head, p);
    TrimmedPrefix(p, c.enc(e));
    if p == c.enc(e) {
      TightStays(p);
    } else if p == [] {
      assert head + p == head;
    } else {
      assert TrimAscii(p) <= c.enc(e) && TrimAscii(p) != c.enc(e);
    }
  }

  /** What was appended is what is loaded, and loading leaves the file alone. */
  lemma LoadsWhatWasAppended<E(!new)>(c: Codec<E>, events: seq<E>)
    requires Lawful(c)
    ensures Load(c, Encoding(c, events)) == Loaded(events, Encoding(c, events))
  {
    EncodingReads(c, events);
    CompleteLengthOf(Encoding(c, events), []);
    assert Encoding(c, events) + [] == Encoding(c, events);
  }

  lemma {:induction false} BlankLeavesNothing(s: Bytes)
    ensures TrimAscii(s) == [] <==> forall b :: b in s ==> IsBlank(b)
  {
    if s != [] && IsBlank(s[0]) {
      BlankLeavesNothing(s[1..]);
      assert s == [s[0]] + s[1..];
    } else {
      TrimBackIsEmpty(s);
      assert s != [] ==> s[0] in s;
    }
  }

  /**
   A line that holds no record is skipped exactly when there is nothing in it but tabs, form feeds, carriage
   returns and spaces; any other makes the whole file unreadable.
   */
  lemma {:induction false} ForeignLines<E(!new)>(c: Codec<E>, events: seq<E>, line: Bytes)
    requires Lawful(c) && NEWLINE !in line
    requires TrimAscii(line) == [] || c.dec(TrimAscii(line)).None?
    ensures var file := Encoding(c, events) + line + [NEWLINE];
            Load(c, file) == if forall b :: b in line ==> b == 9 || b == 12 || b == 13 || b == 32
                             then Loaded(events, file) else Unreadable
  {
    var file := Encoding(c, events) + line + [NEWLINE];
    EncodingReads(c, events);
    ReadOneMore(c, Encoding(c, events), line);
    BlankLeavesNothing(line);
    assert file[..|file|] == file && file[|file|..] == [];
  }

  lemma AppendIsEncoding<E>(c: Codec<E>, events: seq<E>, e: E)
    ensures Appended(c, Encoding(c, events), e) == Encoding(c, events + [e])
  {
    assert (events + [e])[..|events|] == events;
    Assoc(Encoding(c, events), c.enc(e), [NEWLINE]);
  }

  /**
   After a crash in the middle of a write, loading and appending go on as if the torn record had never
   been begun.
   */
  lemma {:induction false} RepairThenAppend<E(!new)>(c: Codec<E>, events: seq<E>, torn: E, p: Bytes, e: E)
    requires Lawful(c) && p < c.enc(torn)
    ensures var repaired := Load(c, Encoding(c, events) + p);
            && repaired.Loaded?
            && Load(c, Appended(c, repaired.file, e))
               == Loaded(events + [e], Appended(c, repaired.file, e))
  {
    TornTailIsRepaired(c, events, torn, p);
    AppendIsEncoding(c, events, e);
    LoadsWhatWasAppended(c, events + [e]);
  }

  /** No unterminated record is left at the end of a file. */
  predicate Terminated(file: Bytes) {
    TrimAscii(file[CompleteLength(file)..]) == []
  }

  /**
   For any file that can be read at all: what is appended after a load is read by the next load, in its
   place, exactly when the load left no unterminated record behind. A complete record without its newline
   is read but not terminated, and the next append runs into it: the file can no longer be read.
   */
  lemma {:induction false} LoadAppendLoad<E(!new)>(c: Codec<E>, file: Bytes, e: E)
    requires Lawful(c) && Load(c, file).Loaded?
    ensures var first := Load(c, file);
            Load(c, Appended(c, first.file, e))
            == if Terminated(first.file) then Loaded(first.events + [e], Appended(c, first.file, e))
               else Unreadable
  {
    var n := CompleteLength(file);
    var head := file[..n];
    var first := Load(c, file);
    assert file == head + file[n..];
    CompleteLengthOf(head, file[n..]);
    var tail := if first.file == file then file[n..] else [];
    assert first.file == head + tail;
    CompleteLengthOf(head, tail);
    AppendAfter(c, head, tail, e);
  }

  lemma AppendAfter<E(!new)>(c: Codec<E>, head: Bytes, tail: Bytes, e: E)
    requires Lawful(c) && EndsLine(head) && NEWLINE !in tail && ReadComplete(c, head).Some?
    requires TrimAscii(tail) == [] || c.dec(TrimAscii(tail)).Some?
    ensures var file := Appended(c, head + tail, e);
            Load(c, file)
            == if TrimAscii(tail) == [] then Loaded(ReadComplete(c, head).value + [e], file) else Unreadable
  {
    var file := Appended(c, head + tail, e);
    var line := tail + c.enc(e);
    assert file == head + line + [NEWLINE];
    ReadOneMore(c, head, line);
    TrimBeforeTight(tail, c.enc(e));
    assert EndsLine(file) && file + [] == file;
    CompleteLengthOf(file, []);
    if TrimAscii(tail) == [] {
      assert [] + c.enc(e) == c.enc(e);
    } else {
      RunsIntoTheTail(c, tail, e);
    }
  }

  lemma RunsIntoTheTail<E(!new)>(c: Codec<E>, tail: Bytes, e: E)
    requires Lawful(c) && TrimAscii(tail) != [] && c.dec(TrimAscii(tail)).Some?
    ensures c.dec(TrimFront(tail) + c.enc(e)).None?
  {
    var x, y := TrimAscii(tail), TrimFront(tail) + c.enc(e);
    assert x <= TrimFront(tail) <= y;
    assert y[|y| - 1] == c.enc(e)[|c.enc(e)| - 1];
    assert Tight(y) && |x| < |y|;
  }

  // ---------------------------------------------------------------- the code

  /** One transcript file on disk. */
  class File<E> {
    const codec: Codec<E>
    var bytes: Bytes

    constructor (codec: Codec<E>)
      ensures this.codec == codec && bytes == []
    {
      this.codec := codec;
      bytes := [];
    }

    /** append_transcript_event */
    method Append(event: E)
      modifies this
      ensures bytes == Appended(codec, old(bytes), event)
    {
      var line := codec.enc(event);
      line := line + [NEWLINE];
      bytes := bytes + line;
    }

    /** rposition of the newline, plus one. */
    method LastLineEnd() returns (n: nat)
      ensures n == CompleteLength(bytes)
    {
      n := |bytes|;
      assert bytes[..n] == bytes;
      while n > 0 && bytes[n - 1] != NEWLINE
        invariant n <= |bytes| && CompleteLength(bytes[..n]) == CompleteLength(bytes)
      {
        assert bytes[..n][..n - 1] == bytes[..n - 1];
        n := n - 1;
      }
    }

    method ParseLines(lines: seq<Bytes>) returns (read: Option<seq<E>>)
      ensures read == ReadLines(codec, lines)
    {
      var events: seq<E> := [];
      for i := 0 to |lines|
        invariant ReadLines(codec, lines[..i]) == Some(events)
      {
        var line := StripBlanks(lines[i]);
        assert lines[..i + 1] == lines[..i] + [lines[i]];
        ReadLinesLast(codec, lines[..i], lines[i]);
        if line != [] {
          var event := codec.dec(line);
          if event.None? {
            ReadingFails(codec, lines, i + 1);
            return None;
          }
          events := events + [event.value];
        }
      }
      assert lines[..|lines|] == lines;
      return Some(events);
    }

    /** load_transcript */
    method LoadEvents() returns (loaded: Option<seq<E>>)
      modifies this
      ensures var result := Load(codec, old(bytes));
              match result
              case Unreadable => loaded.None? && bytes == old(bytes)
              case Loaded(events, file) => loaded == Some(events) && bytes == file
    {
      var completeLength := LastLineEnd();
      loaded := ParseLines(SplitOn(bytes[..completeLength], NEWLINE));
      if loaded.None? {
        return;
      }
      var tail := StripBlanks(bytes[completeLength..]);
      if tail != [] {
        var event := codec.dec(tail);
        if event.Some? {
          loaded := Some(loaded.value + [event.value]);
        } else {
          bytes := bytes[..completeLength];
        }
      }
    }
  }

  lemma {:induction false} ReadingFails<E>(c: Codec<E>, lines: seq<Bytes>, n: nat)
    requires n <= |lines| && ReadLines(c, lines[..n]).None?
    ensures ReadLines(c, lines).None?
    decreases |lines|
  {
    if n < |lines| {
      assert lines[..|lines| - 1][..n] == lines[..n];
      ReadingFails(c, lines[..|lines| - 1], n);
    } else {
      assert lines[..n] == lines;
    }
  }
}
