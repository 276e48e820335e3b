/**
 Code fences in outgoing messages: closing and reopening a fenced block that a message split cuts in
 two (crates/dwo-channels/src/markdown.rs), and fencing a text so that nothing inside can close the
 fence (crates/dwo-channels/src/render.rs, `fenced`). Compare section 4.5 of CommonMark 0.31.2.
 */
module Fences {
  import opened Common
  import opened Text

  datatype Marker = Marker(ch: char, len: nat, lang: string)

  function SpacesTrimmed(line: string): (r: string)
    ensures |r| <= |line|
  {
    if line != "" && line[0] == ' ' then SpacesTrimmed(line[1..]) else line
  }

  /** How many of the first characters are `ch`. */
  function RunOf(s: string, ch: char): (n: nat)
    ensures n <= |s|
    ensures forall i :: 0 <= i < n ==> s[i] == ch
    ensures n < |s| ==> s[n] != ch
  {
    if s != "" && s[0] == ch then 1 + RunOf(s[1..], ch) else 0
  }

  function ParseFenceOpen(line: string): Option<Marker> {
    var trimmed := SpacesTrimmed(line);
    if |line| - |trimmed| > 3 || trimmed == "" then None
    else
      var ch := trimmed[0];
      if ch != '`' && ch != '~' then None
      else
        var len := RunOf(trimmed, ch);
        var rest := trimmed[len..];
        if len < 3 || ch in rest then None else Some(Marker(ch, len, Trim(rest)))
  }

  predicate IsFenceClose(line: string, m: Marker) {
    var trimmed := Trim(line);
    trimmed != "" && RunOf(trimmed, m.ch) >= m.len && RunOf(trimmed, m.ch) == |trimmed|
  }

  function FenceLine(m: Marker): string {
    Repeat(m.ch, m.len) + m.lang
  }

  // ---------------------------------------------------------------- the line scanner

  function ScanLine(open: Option<Marker>, line: string): Option<Marker> {
    if open.Some? then if IsFenceClose(line, open.value) then None else open
    else ParseFenceOpen(line)
  }

  function ScanLines(open: Option<Marker>, lines: seq<string>): Option<Marker>
    decreases lines
  {
    if lines == [] then open else ScanLines(ScanLine(open, lines[0]), lines[1..])
  }

  function Scan(open: Option<Marker>, text: string): Option<Marker> {
    ScanLines(open, Lines(text))
  }

  /** What must stand before a chunk that begins inside a fence. */
  function Reopen(open: Option<Marker>): string {
    if open.Some? then FenceLine(open.value) + "\n" else ""
  }

  predicate EndsLine(s: string) {
    s != "" && s[|s| - 1] == '\n'
  }

  /** What must stand after a text that ends inside a fence. */
  function Close(open: Option<Marker>, text: string): string {
    if open.None? then ""
    else (if EndsLine(text) then "" else "\n") + Repeat(open.value.ch, open.value.len)
  }

  /** balance_fences: the text sent, and the state for the next chunk. */
  function Balance(chunk: string, open: Option<Marker>): (string, Option<Marker>) {
    var open' := Scan(open, chunk);
    var body := Reopen(open) + chunk;
    (body + Close(open', body), open')
  }

  // ---------------------------------------------------------------- markers

  /** What ParseFenceOpen yields from a line: reopening with it must give it back. */
  predicate Genuine(m: Marker) {
    && (m.ch == '`' || m.ch == '~')
    && m.len >= 3
    && m.ch !in m.lang && '\n' !in m.lang && Trimmed(m.lang)
  }

  predicate GenuineState(open: Option<Marker>) {
    open.Some? ==> Genuine(open.value)
  }

  lemma {:induction false} SpacesTrimmedIsSuffix(line: string)
    ensures SpacesTrimmed(line) == line[|line| - |SpacesTrimmed(line)|..]
  {
    if line != "" && line[0] == ' ' {
      SpacesTrimmedIsSuffix(line[1..]);
    }
  }

  lemma OpeningsAreGenuine(line: string)
    requires '\n' !in line
    ensures GenuineState(ParseFenceOpen(line))
  {
    var trimmed := SpacesTrimmed(line);
    SpacesTrimmedIsSuffix(line);
    if ParseFenceOpen(line).Some? {
      var rest := trimmed[RunOf(trimmed, trimmed[0])..];
      var a, b := TrimSplits(rest);
      assert forall c :: c in Trim(rest) ==> c in rest;
      assert forall c :: c in rest ==> c in line;
    }
  }

  lemma {:induction false} RunOfRepeat(ch: char, n: nat, rest: string)
    requires rest == "" || rest[0] != ch
    ensures RunOf(Repeat(ch, n) + rest, ch) == n
    decreases n
  {
    if n == 0 {
      assert Repeat(ch, n) + rest == rest;
    } else {
      RunOfRepeat(ch, n - 1, rest);
      assert (Repeat(ch, n) + rest)[1..] == Repeat(ch, n - 1) + rest;
    }
  }

  lemma ReopeningGivesItBack(m: Marker)
    requires Genuine(m)
    ensures '\n' !in FenceLine(m) && ParseFenceOpen(FenceLine(m)) == Some(m)
  {
    var line := FenceLine(m);
    assert line[0] == m.ch;
    assert m.lang == "" || m.lang[0] != m.ch by {
      if m.lang != "" {
        assert m.lang[0] in m.lang;
      }
    }
    RunOfRepeat(m.ch, m.len, m.lang);
    assert line[m.len..] == m.lang;
    TrimmedStays(m.lang);
  }

  lemma ClosingCloses(m: Marker)
    requires Genuine(m)
    ensures '\n' !in Repeat(m.ch, m.len) && IsFenceClose(Repeat(m.ch, m.len), m)
  {
    var fence := Repeat(m.ch, m.len);
    assert Trimmed(fence);
    TrimmedStays(fence);
    RunOfRepeat(m.ch, m.len, "");
    assert fence + "" == fence;
  }

  // ---------------------------------------------------------------- which lines open and close

  /** Up to three spaces, three or more of a fence character, and a rest without it, trimmed for the language. */
  ghost predicate OpensAs(line: string, m: Marker, indent: nat, rest: string) {
    && line == Repeat(' ', indent) + Repeat(m.ch, m.len) + rest && indent <= 3
    && (m.ch == '`' || m.ch == '~') && m.len >= 3 && m.ch !in rest && m.lang == Trim(rest)
  }

  lemma {:induction false} SpacesOff(n: nat, text: string)
    requires text == "" || text[0] != ' '
    ensures SpacesTrimmed(Repeat(' ', n) + text) == text
    decreases n
  {
    if n == 0 {
      assert Repeat(' ', n) + text == text;
    } else {
      SpacesOff(n - 1, text);
      assert (Repeat(' ', n) + text)[1..] == Repeat(' ', n - 1) + text;
    }
  }

  lemma {:induction false} SpacesBefore(line: string)
    ensures line == Repeat(' ', |line| - |SpacesTrimmed(line)|) + SpacesTrimmed(line)
  {
    if line != "" && line[0] == ' ' {
      SpacesBefore(line[1..]);
      var n := |line[1..]| - |SpacesTrimmed(line[1..])|;
      assert line == [' '] + (Repeat(' ', n) + SpacesTrimmed(line)) && [' '] + Repeat(' ', n) == Repeat(' ', n + 1);
    } else {
      assert Repeat(' ', 0) + line == line;
    }
  }

  lemma {:induction false} RunThenRest(s: string, ch: char)
    ensures s == Repeat(ch, RunOf(s, ch)) + s[RunOf(s, ch)..]
  {
    var n := RunOf(s, ch);
    assert s[..n] == Repeat(ch, n);
    assert s == s[..n] + s[n..];
  }

  lemma {:induction false} ReadsAsOpening(line: string, m: Marker) returns (indent: nat, rest: string)
    requires ParseFenceOpen(line) == Some(m)
    ensures OpensAs(line, m, indent, rest)
  {
    var trimmed := SpacesTrimmed(line);
    indent, rest := |line| - |trimmed|, trimmed[RunOf(trimmed, m.ch)..];
    SpacesBefore(line);
    RunThenRest(trimmed, m.ch);
    Assoc(Repeat(' ', indent), Repeat(m.ch, m.len), rest);
  }

  lemma {:induction false} ParsesAsOpening(line: string, m: Marker, indent: nat, rest: string)
    requires OpensAs(line, m, indent, rest)
    ensures ParseFenceOpen(line) == Some(m)
  {
    var text := Repeat(m.ch, m.len) + rest;
    Assoc(Repeat(' ', indent), Repeat(m.ch, m.len), rest);
    assert text[0] == m.ch;
    SpacesOff(indent, text);
    RunOfRepeat(m.ch, m.len, rest);
    assert text[m.len..] == rest;
  }

  /** A line opens a fence exactly if it reads as that fence's opening. */
  lemma {:induction false} OpeningsAreTheseLines(line: string, m: Marker)
    ensures ParseFenceOpen(line) == Some(m) <==> exists indent, rest :: OpensAs(line, m, indent, rest)
  {
    if ParseFenceOpen(line) == Some(m) {
      var indent, rest := ReadsAsOpening(line, m);
    }
    if indent, rest :| OpensAs(line, m, indent, rest) {
      ParsesAsOpening(line, m, indent, rest);
    }
  }

  /** White space, at least as many of the fence's character as opened it, and white space. */
  ghost predicate ClosesAs(line: string, m: Marker, before: string, count: nat, after: string) {
    && line == before + Repeat(m.ch, count) + after && count >= m.len && count > 0
    && forall c :: c in before + after ==> IsSpace(c)
  }

  lemma {:induction false} TrimmedOff(before: string, text: string, after: string)
    requires text != "" && Trimmed(text) && forall c :: c in before + after ==> IsSpace(c)
    ensures Trim(before + text + after) == text
    decreases |before| + |after|
  {
    if before != "" {
      assert before[0] in before + after;
      assert (before + text + after)[1..] == before[1..] + text + after;
      assert forall c :: c in before[1..] + after ==> c in before + after;
      TrimmedOff(before[1..], text, after);
    } else if after != "" {
      var whole := text + after;
      assert before + text + after == whole && whole[0] == text[0] && TrimStart(whole) == whole;
      assert after[|after| - 1] in before + after && whole[..|whole| - 1] == text + after[..|after| - 1];
      assert forall c :: c in before + after[..|after| - 1] ==> c in before + after;
      TrimmedOff(before, text, after[..|after| - 1]);
      assert before + text + after[..|after| - 1] == text + after[..|after| - 1];
      assert TrimStart(text + after[..|after| - 1]) == text + after[..|after| - 1];
    } else {
      assert before + text + after == text;
      TrimmedStays(text);
    }
  }

  /** A line closes a fence exactly if it holds nothing but its character, often enough, and white space around it. */
  lemma {:induction false} ClosingsAreTheseLines(line: string, m: Marker)
    requires Genuine(m)
    ensures IsFenceClose(line, m) <==> exists before, count, after :: ClosesAs(line, m, before, count, after)
  {
    if IsFenceClose(line, m) {
      var before, after := TrimSplits(line);
      var core := Trim(line);
      assert core == Repeat(m.ch, |core|);
      assert ClosesAs(line, m, before, |core|, after);
    }
    if before, count, after :| ClosesAs(line, m, before, count, after) {
      var core := Repeat(m.ch, count);
      TrimmedOff(before, core, after);
      RunOfRepeat(m.ch, count, "");
      assert core + "" == core;
    }
  }

  // ---------------------------------------------------------------- scanning concatenations

  lemma {:induction false} ScanLinesAppend(open: Option<Marker>, a: seq<string>, b: seq<string>)
    ensures ScanLines(open, a + b) == ScanLines(ScanLines(open, a), b)
    decreases |a|
  {
    if a == [] {
      assert a + b == b;
    } else {
      assert (a + b)[1..] == a[1..] + b;
      ScanLinesAppend(ScanLine(open, a[0]), a[1..], b);
    }
  }

  lemma ScanConcat(open: Option<Marker>, a: string, b: string)
    ensures Scan(open, a + "\n" + b) == Scan(Scan(open, a), b)
  {
    SplitConcat(a, b, '\n');
    ScanLinesAppend(open, Lines(a), Lines(b));
  }

  lemma ScanSingle(open: Option<Marker>, line: string)
    requires '\n' !in line
    ensures Scan(open, line) == ScanLine(open, line)
  {
    SplitSingle(line, '\n');
    assert [line][1..] == [];
    assert ScanLines(open, [line]) == ScanLines(ScanLine(open, line), []);
  }

  lemma ScanEmpty(open: Option<Marker>)
    ensures Scan(open, "") == open
  {
    ScanSingle(open, "");
  }

  /** A cut that falls just after a newline, or before everything, does not disturb the scan. */
  lemma ScanAtLineCut(open: Option<Marker>, a: string, b: string)
    requires a == "" || EndsLine(a)
    ensures Scan(open, a + b) == Scan(Scan(open, a), b)
  {
    if a == "" {
      ScanEmpty(open);
      assert a + b == b;
    } else {
      var front := a[..|a| - 1];
      assert a == front + "\n" + "";
      assert a + b == front + "\n" + b;
      ScanConcat(open, front, "");
      ScanEmpty(Scan(open, front));
      ScanConcat(open, front, b);
    }
  }

  /**
   When a cut inside a line l1 + l2 does not show, from the state before the line: outside a fence, the
   whole line must open what its second half opens, or what its first half opens and the second does not
   close again; inside one, the whole must close it as the second half does, unless the first half closes
   it already, and then the second must open again just what the whole leaves open.
   */
  predicate Harmless(s: Option<Marker>, l1: string, l2: string) {
    match s
    case None =>
      var first, whole := ParseFenceOpen(l1), ParseFenceOpen(l1 + l2);
      if first.None? then whole == ParseFenceOpen(l2)
      else if IsFenceClose(l2, first.value) then whole.None?
      else whole == first
    case Some(m) =>
      var whole := IsFenceClose(l1 + l2, m);
      if !IsFenceClose(l1, m) then whole <==> IsFenceClose(l2, m)
      else if whole then ParseFenceOpen(l2).None?
      else ParseFenceOpen(l2) == s
  }

  /** A cut inside a line leaves the scan as it is exactly when it is harmless. */
  lemma CutInsideALine(open: Option<Marker>, a: string, l1: string, l2: string)
    requires a == "" || EndsLine(a)
    requires '\n' !in l1 && '\n' !in l2
    ensures Scan(Scan(open, a + l1), l2) == Scan(open, a + (l1 + l2)) <==> Harmless(Scan(open, a), l1, l2)
  {
    var s := Scan(open, a);
    ScanAtLineCut(open, a, l1);
    ScanAtLineCut(open, a, l1 + l2);
    ScanSingle(s, l1);
    ScanSingle(ScanLine(s, l1), l2);
    ScanSingle(s, l1 + l2);
  }

  lemma {:induction false} ScanLinesGenuine(open: Option<Marker>, lines: seq<string>)
    requires GenuineState(open) && forall line :: line in lines ==> '\n' !in line
    ensures GenuineState(ScanLines(open, lines))
    decreases lines
  {
    if lines != [] {
      OpeningsAreGenuine(lines[0]);
      assert forall line :: line in lines[1..] ==> line in lines;
      ScanLinesGenuine(ScanLine(open, lines[0]), lines[1..]);
    }
  }

  // ---------------------------------------------------------------- balanced chunks

  lemma ReopenScans(open: Option<Marker>, chunk: string)
    requires GenuineState(open)
    ensures Scan(None, Reopen(open) + chunk) == Scan(open, chunk)
  {
    if open.Some? {
      ReopeningGivesItBack(open.value);
      ScanConcat(None, FenceLine(open.value), chunk);
      ScanSingle(None, FenceLine(open.value));
    } else {
      assert Reopen(open) + chunk == chunk;
    }
  }

  lemma CloseCloses(open: Option<Marker>, text: string)
    requires GenuineState(open) && Scan(None, text) == open
    ensures Scan(None, text + Close(open, text)).None?
  {
    if open.Some? {
      var fence := Repeat(open.value.ch, open.value.len);
      ClosingCloses(open.value);
      ScanSingle(open, fence);
      if EndsLine(text) {
        ScanAtLineCut(None, text, fence);
        assert text + Close(open, text) == text + fence;
      } else {
        ScanConcat(None, text, fence);
        assert text + Close(open, text) == text + "\n" + fence;
      }
    } else {
      assert text + Close(open, text) == text;
    }
  }

  /**
   Every balanced chunk stands alone: it is the chunk with something before and after it, and scanned
   on its own it ends outside any fence. The state handed on is again one that can be reopened.
   */
  lemma {:induction false} BalancedChunksStandAlone(chunk: string, open: Option<Marker>)
    requires GenuineState(open)
    ensures var (out, open') := Balance(chunk, open);
            && out == Reopen(open) + chunk + Close(open', Reopen(open) + chunk)
            && Scan(None, out).None?
            && GenuineState(open')
  {
    LinesHaveNoBreaks(chunk);
    ScanLinesGenuine(open, Lines(chunk));
    ReopenScans(open, chunk);
    CloseCloses(Scan(open, chunk), Reopen(open) + chunk);
  }

  /** The state threaded through the chunks of one message. */
  function Thread(chunks: seq<string>): Option<Marker> {
    if chunks == [] then None else Balance(chunks[|chunks| - 1], Thread(chunks[..|chunks| - 1])).1
  }

  /** Where the last line of a text begins. */
  function LastLineAt(text: string): (n: nat)
    ensures n <= |text| && (n > 0 ==> text[n - 1] == '\n') && '\n' !in text[n..]
  {
    if text == "" then 0
    else if EndsLine(text) then |text|
    else
      var n := LastLineAt(text[..|text| - 1]);
      assert text[n..] == text[..|text| - 1][n..] + [text[|text| - 1]];
      n
  }

  /** Where the first line of a text ends. */
  function FirstLineEnd(text: string): (n: nat)
    ensures n <= |text| && '\n' !in text[..n] && (n < |text| ==> text[n] == '\n')
  {
    if text == "" || text[0] == '\n' then 0
    else
      var n := FirstLineEnd(text[1..]);
      assert text[..n + 1] == [text[0]] + text[1..][..n];
      n + 1
  }

  /** The cut before chunk k, looked at in the line it falls into. */
  predicate CutIsHarmless(chunks: seq<string>, k: nat)
    requires k < |chunks|
  {
    var before := Concat(chunks[..k]);
    var n := LastLineAt(before);
    Harmless(Scan(None, before[..n]), before[n..], chunks[k][..FirstLineEnd(chunks[k])])
  }

  /** After its first line, chunk k is in the state that the whole text is in there. */
  predicate InStep(chunks: seq<string>, k: nat)
    requires k < |chunks|
  {
    var line := chunks[k][..FirstLineEnd(chunks[k])];
    Scan(Thread(chunks[..k]), line) == Scan(None, Concat(chunks[..k]) + line)
  }

  lemma {:induction false} CutDecidesTheStep(chunks: seq<string>, k: nat)
    requires k < |chunks| && Thread(chunks[..k]) == Scan(None, Concat(chunks[..k]))
    ensures InStep(chunks, k) <==> CutIsHarmless(chunks, k)
  {
    var before := Concat(chunks[..k]);
    var n := LastLineAt(before);
    var a, l1, l2 := before[..n], before[n..], chunks[k][..FirstLineEnd(chunks[k])];
    assert before == a + l1;
    Assoc(a, l1, l2);
    CutInsideALine(None, a, l1, l2);
  }

  /** Two scans that agree after the first line of a text agree after all of it. */
  lemma {:induction false} StepCarriesOn(s: Option<Marker>, before: string, c: string)
    requires Scan(s, c[..FirstLineEnd(c)]) == Scan(None, before + c[..FirstLineEnd(c)])
    ensures Scan(s, c) == Scan(None, before + c)
  {
    var n := FirstLineEnd(c);
    if n < |c| {
      assert c == c[..n] + "\n" + c[n + 1..];
      RestCarriesOn(s, before, c[..n], c[n + 1..]);
    } else {
      assert c == c[..n];
    }
  }

  lemma {:induction false} RestCarriesOn(s: Option<Marker>, before: string, line: string, rest: string)
    requires Scan(s, line) == Scan(None, before + line)
    ensures Scan(s, line + "\n" + rest) == Scan(None, before + (line + "\n" + rest))
  {
    ScanConcat(s, line, rest);
    ScanConcat(None, before + line, rest);
    assert before + (line + "\n" + rest) == before + line + "\n" + rest;
  }

  lemma {:induction false} ThreadMore(chunks: seq<string>, k: nat)
    requires k < |chunks|
    ensures Thread(chunks[..k + 1]) == Scan(Thread(chunks[..k]), chunks[k])
    ensures Concat(chunks[..k + 1]) == Concat(chunks[..k]) + chunks[k]
  {
    assert chunks[..k + 1][..k] == chunks[..k];
  }

  lemma {:induction false} InStepSoFar(chunks: seq<string>, n: nat)
    requires n <= |chunks| && (n > 0 ==> InStep(chunks, n - 1))
    ensures Thread(chunks[..n]) == Scan(None, Concat(chunks[..n]))
  {
    if n == 0 {
      ScanEmpty(None);
    } else {
      StepCarriesOn(Thread(chunks[..n - 1]), Concat(chunks[..n - 1]), chunks[n - 1]);
      ThreadMore(chunks, n - 1);
    }
  }

  lemma {:induction false} HarmlessSoFar(chunks: seq<string>, n: nat)
    requires n <= |chunks| && forall k :: 0 <= k < n ==> CutIsHarmless(chunks, k)
    ensures Thread(chunks[..n]) == Scan(None, Concat(chunks[..n]))
  {
    if n == 0 {
      ScanEmpty(None);
    } else {
      HarmlessSoFar(chunks, n - 1);
      CutDecidesTheStep(chunks, n - 1);
      StepCarriesOn(Thread(chunks[..n - 1]), Concat(chunks[..n - 1]), chunks[n - 1]);
      ThreadMore(chunks, n - 1);
    }
  }

  /**
   Wherever a text is cut: the state handed from chunk to chunk is in step with the whole text after every
   cut exactly when every cut is harmless, and is then one scan of the whole text.
   */
  lemma {:induction false} InStepIffEveryCutIsHarmless(chunks: seq<string>)
    ensures (forall k :: 0 <= k < |chunks| ==> InStep(chunks, k))
            <==> (forall k :: 0 <= k < |chunks| ==> CutIsHarmless(chunks, k))
    ensures (forall k :: 0 <= k < |chunks| ==> CutIsHarmless(chunks, k))
            ==> Thread(chunks) == Scan(None, Concat(chunks))
  {
    if forall k :: 0 <= k < |chunks| ==> CutIsHarmless(chunks, k) {
      forall k | 0 <= k < |chunks| ensures InStep(chunks, k) {
        HarmlessSoFar(chunks, k);
        CutDecidesTheStep(chunks, k);
      }
      HarmlessSoFar(chunks, |chunks|);
      assert chunks[..|chunks|] == chunks;
    }
    if forall k :: 0 <= k < |chunks| ==> InStep(chunks, k) {
      forall k | 0 <= k < |chunks| ensures CutIsHarmless(chunks, k) {
        InStepSoFar(chunks, k);
        CutDecidesTheStep(chunks, k);
      }
    }
  }

  /** A cut after a newline is harmless, whatever comes before and after it. */
  lemma CutAfterNewline(chunks: seq<string>, k: nat)
    requires k < |chunks| && (Concat(chunks[..k]) == "" || EndsLine(Concat(chunks[..k])))
    ensures CutIsHarmless(chunks, k)
  {
    var before := Concat(chunks[..k]);
    var line := chunks[k][..FirstLineEnd(chunks[k])];
    assert before[LastLineAt(before)..] == "";
    assert "" + line == line;
    assert ParseFenceOpen("").None?;
  }

  /** When every cut falls just after a newline, the threaded state is one scan of the whole text. */
  lemma {:induction false} ThreadIsOneScan(chunks: seq<string>)
    requires forall k :: 0 <= k < |chunks| - 1 ==> EndsLine(chunks[k])
    ensures Thread(chunks) == Scan(None, Concat(chunks))
  {
    forall k | 0 <= k < |chunks| ensures CutIsHarmless(chunks, k) {
      if k > 0 {
        ThreadMore(chunks, k - 1);
        assert EndsLine(Concat(chunks[..k]));
      }
      CutAfterNewline(chunks, k);
    }
    InStepIffEveryCutIsHarmless(chunks);
  }

  // ---------------------------------------------------------------- a fence nothing can close

  /** Length of the run of backticks the text ends with, and of its longest run. */
  function Runs(content: string): (nat, nat) {
    if content == "" then (0, 0)
    else
      var (current, longest) := Runs(content[..|content| - 1]);
      if content[|content| - 1] == '`' then (current + 1, Max(longest, current + 1)) else (0, longest)
  }

  predicate TicksAt(content: string, at: nat, n: nat) {
    at + n <= |content| && forall i :: at <= i < at + n ==> content[i] == '`'
  }

  lemma {:induction false} TrailingRunBounds(content: string, n: nat)
    requires n <= |content| && TicksAt(content, |content| - n, n)
    ensures n <= Runs(content).0 <= Runs(content).1
    decreases |content|
  {
    if content != "" {
      TrailingRunBounds(content[..|content| - 1], if n > 0 then n - 1 else 0);
    }
  }

  /** No run of backticks in the content is longer than the longest run counted. */
  lemma {:induction false} LongestRunBounds(content: string, at: nat, n: nat)
    requires TicksAt(content, at, n)
    ensures n <= Runs(content).1
    decreases |content|
  {
    if at + n == |content| {
      TrailingRunBounds(content, n);
    } else {
      LongestRunBounds(content[..|content| - 1], at, n);
    }
  }

  /** And there is a run as long as that. */
  lemma {:induction false} LongestRunOccurs(content: string) returns (at: nat)
    ensures at + Runs(content).1 <= |content| && TicksAt(content, at, Runs(content).1)
    ensures Runs(content).0 <= |content| && TicksAt(content, |content| - Runs(content).0, Runs(content).0)
  {
    at := 0;
    if content != "" {
      var front := content[..|content| - 1];
      at := LongestRunOccurs(front);
      if Runs(content).1 != Runs(front).1 {
        at := |content| - Runs(content).0;
      }
    }
  }

  function FenceLength(content: string): nat {
    Max(Runs(content).1 + 1, 3)
  }

  function Fenced(content: string): string {
    var fence := Repeat('`', FenceLength(content));
    fence + "\n" + content + "\n" + fence
  }

  /** The fence is three long, or the content has a run only one shorter. */
  lemma {:induction false} FencesAreNoLonger(content: string) returns (at: nat)
    ensures FenceLength(content) >= 3
    ensures FenceLength(content) > 3 ==> TicksAt(content, at, FenceLength(content) - 1)
  {
    at := LongestRunOccurs(content);
  }

  /** No line of the content closes the fence around it. */
  lemma NoLineCloses(content: string, k: nat)
    requires k < |Lines(content)|
    ensures !IsFenceClose(Lines(content)[k], Marker('`', FenceLength(content), ""))
  {
    var line := Lines(content)[k];
    var trimmed := Trim(line);
    var at := LineOccurs(content, k);
    var a, b := TrimSplits(line);
    var n := RunOf(trimmed, '`');
    if n == |trimmed| {
      forall i | at + |a| <= i < at + |a| + n ensures content[i] == '`' {
        assert content[i] == line[i - at] == trimmed[i - at - |a|];
      }
      LongestRunBounds(content, at + |a|, n);
    }
  }

  lemma {:induction false} StaysOpen(m: Marker, lines: seq<string>)
    requires forall k :: 0 <= k < |lines| ==> !IsFenceClose(lines[k], m)
    ensures ScanLines(Some(m), lines) == Some(m)
  {
    if lines != [] {
      StaysOpen(m, lines[1..]);
    }
  }

  /**
   Whatever the content, its fence cannot be closed from inside: from the opening line on, the scanner
   is in the same block after every line of the content.
   */
  lemma {:induction false} ContentIsOneBlock(content: string, n: nat)
    requires n <= |Lines(content)|
    ensures var m := Marker('`', FenceLength(content), "");
            && Scan(None, Repeat('`', m.len)) == Some(m)
            && ScanLines(Some(m), Lines(content)[..n]) == Some(m)
  {
    var m := Marker('`', FenceLength(content), "");
    var fence := Repeat('`', m.len);
    ReopeningGivesItBack(m);
    assert FenceLine(m) == fence;
    ScanSingle(None, fence);
    forall k | 0 <= k < n ensures !IsFenceClose(Lines(content)[..n][k], m) {
      NoLineCloses(content, k);
    }
    StaysOpen(m, Lines(content)[..n]);
  }

  lemma FencedScansClosed(content: string)
    ensures Scan(None, Fenced(content)) == None
  {
    var m := Marker('`', FenceLength(content), "");
    var fence := Repeat('`', m.len);
    ContentIsOneBlock(content, |Lines(content)|);
    assert Lines(content)[..|Lines(content)|] == Lines(content);
    ScanConcat(None, fence + "\n" + content, fence);
    ScanConcat(None, fence, content);
    ClosingCloses(m);
    ScanSingle(Some(m), fence);
  }

  /** A fenced text passes through balancing unchanged and leaves nothing open. */
  lemma {:induction false} FencedIsBalanced(content: string)
    ensures Balance(Fenced(content), None) == (Fenced(content), None)
  {
    FencedScansClosed(content);
    var whole := Fenced(content);
    assert "" + whole == whole == whole + "";
  }

  // ---------------------------------------------------------------- the code

  class FenceState {
    var open: Option<Marker>

    constructor ()
      ensures open.None?
    {
      open := None;
    }

    /** The loop over the lines of a chunk: copies them, and moves the state over each. */
    method CopyLines(chunk: string) returns (copy: string)
      modifies this
      ensures copy == chunk && open == Scan(old(open), chunk)
    {
      copy := "";
      var lines := Lines(chunk);
      ghost var rest := lines;
      var i := 0;
      JoinLines(chunk);
      while i < |lines|
        invariant 0 <= i <= |lines| && rest == lines[i..]
        invariant ScanLines(open, rest) == Scan(old(open), chunk)
        invariant i == 0 ==> copy == ""
        invariant i > 0 ==> copy + Tail(rest) == chunk
      {
        var line := lines[i];
        ghost var sofar := copy;
        FirstLine(open, rest);
        if i > 0 {
          copy := copy + "\n";
        }
        if open.Some? {
          if IsFenceClose(line, open.value) {
            open := None;
          }
        } else {
          open := ParseFenceOpen(line);
        }
        copy := copy + line;
        rest := rest[1..];
        CopyGrows(sofar, line, Tail(rest), i > 0, chunk);
        i := i + 1;
      }
      assert rest == [];
    }

    /** balance_fences */
    method BalanceFences(chunk: string) returns (out: string)
      modifies this
      ensures (out, open) == Balance(chunk, old(open))
    {
      out := "";
      if open.Some? {
        out := out + FenceLine(open.value);
        out := out + "\n";
      }
      assert out == Reopen(old(open));
      var copy := CopyLines(chunk);
      out := out + copy;
      ghost var body := out;
      if open.Some? {
        if !EndsLine(out) {
          out := out + "\n";
        }
        out := out + Repeat(open.value.ch, open.value.len);
      }
      assert out == body + Close(open, body);
    }
  }

  /** The lines still to come, each with the newline before it. */
  function Tail(lines: seq<string>): string {
    if lines == [] then "" else "\n" + Join(lines)
  }

  lemma CopyGrows(copy: string, line: string, after: string, later: bool, chunk: string)
    requires later ==> copy + ("\n" + (line + after)) == chunk
    requires !later ==> copy == "" && line + after == chunk
    ensures (if later then copy + "\n" else copy) + line + after == chunk
  {
    assert copy + ("\n" + (line + after)) == copy + "\n" + line + after;
    assert "" + line == line;
  }

  lemma FirstLine(open: Option<Marker>, lines: seq<string>)
    requires lines != []
    ensures Join(lines) == lines[0] + Tail(lines[1..])
    ensures ScanLines(open, lines) == ScanLines(ScanLine(open, lines[0]), lines[1..])
  {
    if |lines| == 1 {
      assert lines[0] + Tail(lines[1..]) == lines[0];
    } else {
      assert lines[0] + "\n" + Join(lines[1..]) == lines[0] + ("\n" + Join(lines[1..]));
    }
  }

  /** fenced */
  method MakeFenced(content: string) returns (r: string)
    ensures r == Fenced(content)
  {
    var longestRun, currentRun := 0, 0;
    for i := 0 to |content|
      invariant Runs(content[..i]) == (currentRun, longestRun)
    {
      assert content[..i + 1][..i] == content[..i];
      if content[i] == '`' {
        currentRun := currentRun + 1;
        longestRun := Max(longestRun, currentRun);
      } else {
        currentRun := 0;
      }
    }
    assert content[..|content|] == content;
    var fence := Repeat('`', Max(longestRun + 1, 3));
    r := fence + "\n" + content + "\n" + fence;
  }
}
