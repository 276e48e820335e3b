/**
 Cutting long texts into messages: split_message (crates/dwo-channels/src/render.rs), which keeps every
 character, and the Weixin variant (crates/dwo-channels/src/weixin.rs), which trims each message; and
 the loop that splits, balances the code fences of each chunk and sends it.
 */
module Splitting {
  import opened Common
  import opened Text
  import Fences

  // ---------------------------------------------------------------- where to cut

  predicate BlankLineAt(s: string, i: int) {
    0 <= i && i + 2 <= |s| && s[i] == '\n' && s[i + 1] == '\n'
  }

  /** rfind("\n\n") */
  function LastBlankLine(s: string): (r: Option<nat>)
    ensures r.Some? ==> BlankLineAt(s, r.value)
    ensures forall i :: BlankLineAt(s, i) ==> r.Some? && i <= r.value
  {
    if |s| < 2 then None
    else if BlankLineAt(s, |s| - 2) then Some(|s| - 2)
    else
      var front := s[..|s| - 1];
      assert forall i :: BlankLineAt(s, i) ==> BlankLineAt(front, i);
      LastBlankLine(front)
  }

  function Cut(s: string, max: nat): nat
    requires 1 <= max < |s|
  {
    var last := LastBlankLine(s[..max]);
    if last.Some? && last.value + 2 >= max / 2 then last.value + 2 else max
  }

  /** A place just after a blank line that leaves the chunk at least half full. */
  predicate Preferred(s: string, max: nat, at: int) {
    max / 2 <= at <= max && BlankLineAt(s, at - 2)
  }

  /** The cut is at the last preferred place, or at the limit when there is none. */
  ghost predicate BestCut(s: string, max: nat, at: nat) {
    && (Preferred(s, max, at) || at == max)
    && (forall q :: Preferred(s, max, q) ==> Preferred(s, max, at) && q <= at)
  }

  lemma CutIsBest(s: string, max: nat)
    requires 1 <= max < |s|
    ensures BestCut(s, max, Cut(s, max)) && 1 <= Cut(s, max) <= max && max / 2 <= Cut(s, max)
  {
    var window := s[..max];
    forall q | Preferred(s, max, q)
      ensures Preferred(s, max, Cut(s, max)) && q <= Cut(s, max)
    {
      assert BlankLineAt(window, q - 2);
    }
  }

  // ---------------------------------------------------------------- split_message

  function Split(text: string, max: nat): (chunks: seq<string>)
    requires max >= 1
    decreases |text|
  {
    if |text| <= max then (if text == "" then [] else [text])
    else
      CutIsBest(text, max);
      [text[..Cut(text, max)]] + Split(text[Cut(text, max)..], max)
  }

  /** The chunks are the text, cut up. */
  lemma {:induction false} SplitLosesNothing(text: string, max: nat)
    requires max >= 1
    ensures Concat(Split(text, max)) == text
    decreases |text|
  {
    if |text| <= max {
      if text != "" {
        ConcatFirst(text, []);
        assert [text] + [] == [text];
      }
    } else {
      CutIsBest(text, max);
      var at := Cut(text, max);
      SplitLosesNothing(text[at..], max);
      assert text == text[..at] + text[at..];
      ConcatFirst(text[..at], Split(text[at..], max));
    }
  }

  /** Every chunk fits, none is empty, and only the last may be less than half full. */
  lemma {:induction false} ChunkSizes(text: string, max: nat, k: nat)
    requires max >= 1 && k < |Split(text, max)|
    ensures 1 <= |Split(text, max)[k]| <= max
    ensures k < |Split(text, max)| - 1 ==> |Split(text, max)[k]| >= max / 2
    decreases |text|
  {
    if |text| > max {
      CutIsBest(text, max);
      if k > 0 {
        ChunkSizes(text[Cut(text, max)..], max, k - 1);
      }
    }
  }

  lemma OneMore(n: int, size: int)
    ensures n * size == (n - 1) * size + size
  {
  }

  /** So a text never takes more chunks than half-full ones would. */
  lemma {:induction false} FewChunks(text: string, max: nat)
    requires max >= 1
    ensures text != "" ==> Split(text, max) != []
    ensures text != "" ==> (|Split(text, max)| - 1) * Max(max / 2, 1) < |text|
    decreases |text|
  {
    if |text| > max {
      CutIsBest(text, max);
      var rest := text[Cut(text, max)..];
      FewChunks(rest, max);
      OneMore(|Split(rest, max)|, Max(max / 2, 1));
      assert |Split(text, max)| - 1 == |Split(rest, max)|;
    }
  }

  /** The text that is still to be split when the k-th chunk is cut off. */
  function Remaining(text: string, max: nat, k: nat): string
    requires max >= 1 && k < |Split(text, max)|
    decreases k
  {
    if k == 0 then text else CutIsBest(text, max); Remaining(text[Cut(text, max)..], max, k - 1)
  }

  /** Each chunk but the last ends at the best cut of what was left. */
  lemma {:induction false} ChunksEndAtTheBestCut(text: string, max: nat, k: nat)
    requires max >= 1 && k < |Split(text, max)|
    ensures var chunk, rest := Split(text, max)[k], Remaining(text, max, k);
            && chunk <= rest
            && (k == |Split(text, max)| - 1 ==> chunk == rest)
            && (k < |Split(text, max)| - 1 ==> |rest| > max && BestCut(rest, max, |chunk|))
    decreases k
  {
    if |text| > max {
      CutIsBest(text, max);
      FewChunks(text[Cut(text, max)..], max);
      if k > 0 {
        ChunksEndAtTheBestCut(text[Cut(text, max)..], max, k - 1);
      }
    }
  }

  /** split_message */
  method SplitMessage(text: string, maxChars: nat) returns (chunks: seq<string>)
    ensures chunks == Split(text, Max(maxChars, 1))
  {
    var max := Max(maxChars, 1);
    var remaining := text;
    chunks := [];
    while |remaining| > max
      invariant chunks + Split(remaining, max) == Split(text, max)
      decreases |remaining|
    {
      CutIsBest(remaining, max);
      var boundary := max;
      var last := LastBlankLine(remaining[..max]);
      if last.Some? && last.value + 2 >= max / 2 {
        boundary := last.value + 2;
      }
      Assoc(chunks, [remaining[..boundary]], Split(remaining[boundary..], max));
      chunks := chunks + [remaining[..boundary]];
      remaining := remaining[boundary..];
    }
    if remaining != "" {
      chunks := chunks + [remaining];
    }
  }

  // ---------------------------------------------------------------- the Weixin variant

  const WEIXIN_TEXT_CHUNK_CHARS: nat := 4000

  /** What is left to split always starts and ends with a visible character. */
  lemma RemainderIsTrimmed(remaining: string, at: nat)
    requires Trimmed(remaining) && 1 <= at < |remaining|
    ensures TrimStart(remaining[at..]) != "" && Trimmed(TrimStart(remaining[at..]))
    ensures |TrimStart(remaining[at..])| <= |remaining| - at
    ensures Trim(remaining[..at]) != ""
  {
    var tail, head := remaining[at..], remaining[..at];
    var a := TrimStartSplits(tail);
    assert tail[|tail| - 1] in a + TrimStart(tail) && tail[|tail| - 1] !in a;
    var b, c := TrimSplits(head);
    assert head[0] in b + Trim(head) + c && head[0] !in b + c;
  }

  function TrimmingSplit(remaining: string, max: nat): (chunks: seq<string>)
    requires max >= 1 && Trimmed(remaining)
    decreases |remaining|
  {
    if |remaining| <= max then (if remaining == "" then [] else [remaining])
    else
      CutIsBest(remaining, max);
      var at := Cut(remaining, max);
      RemainderIsTrimmed(remaining, at);
      [Trim(remaining[..at])] + TrimmingSplit(TrimStart(remaining[at..]), max)
  }

  lemma TrimmingStep(remaining: string, max: nat)
    requires max >= 1 && Trimmed(remaining) && |remaining| > max
    ensures var at := Cut(remaining, max);
            && at <= |remaining|
            && Trim(remaining[..at]) != ""
            && Trimmed(TrimStart(remaining[at..])) && |TrimStart(remaining[at..])| < |remaining|
            && TrimmingSplit(remaining, max)
               == [Trim(remaining[..at])] + TrimmingSplit(TrimStart(remaining[at..]), max)
  {
    CutIsBest(remaining, max);
    RemainderIsTrimmed(remaining, Cut(remaining, max));
  }

  lemma {:induction false} VisibleInParts(s: string, at: nat)
    requires at <= |s|
    ensures Visible(s) == Visible(Trim(s[..at])) + Visible(TrimStart(s[at..]))
  {
    var a, b := s[..at], s[at..];
    assert s == a + b;
    TrimKeepsTheVisible(a);
    TrimKeepsTheVisible(b);
    VisibleConcat(a, b);
  }

  /** Every visible character is sent, in order, and none is added. */
  lemma {:induction false} TrimmingKeepsTheVisible(remaining: string, max: nat)
    requires max >= 1 && Trimmed(remaining)
    ensures Visible(Concat(TrimmingSplit(remaining, max))) == Visible(remaining)
    decreases |remaining|
  {
    if |remaining| <= max {
      if remaining != "" {
        ConcatFirst(remaining, []);
        assert [remaining] + [] == [remaining] && remaining + "" == remaining;
      }
    } else {
      TrimmingStep(remaining, max);
      var at := Cut(remaining, max);
      var chunk, rest := Trim(remaining[..at]), TrimStart(remaining[at..]);
      TrimmingKeepsTheVisible(rest, max);
      ConcatFirst(chunk, TrimmingSplit(rest, max));
      VisibleConcat(chunk, Concat(TrimmingSplit(rest, max)));
      VisibleInParts(remaining, at);
    }
  }

  /** Every message sent is trimmed, within the limit, and not empty. */
  lemma {:induction false} TrimmedChunks(remaining: string, max: nat, k: nat)
    requires max >= 1 && Trimmed(remaining) && k < |TrimmingSplit(remaining, max)|
    ensures var chunk := TrimmingSplit(remaining, max)[k]; Trimmed(chunk) && 1 <= |chunk| <= max
    decreases |remaining|
  {
    if |remaining| > max {
      CutIsBest(remaining, max);
      var at := Cut(remaining, max);
      RemainderIsTrimmed(remaining, at);
      var a, b := TrimSplits(remaining[..at]);
      if k > 0 {
        TrimmedChunks(TrimStart(remaining[at..]), max, k - 1);
      }
    }
  }

  /** Each message uses up half the limit of the text, so their number is bounded as before. */
  lemma {:induction false} FewTrimmedChunks(remaining: string, max: nat)
    requires max >= 1 && Trimmed(remaining) && remaining != ""
    ensures TrimmingSplit(remaining, max) != []
    ensures (|TrimmingSplit(remaining, max)| - 1) * Max(max / 2, 1) < |remaining|
    decreases |remaining|
  {
    if |remaining| > max {
      CutIsBest(remaining, max);
      var at := Cut(remaining, max);
      RemainderIsTrimmed(remaining, at);
      var rest := TrimStart(remaining[at..]);
      FewTrimmedChunks(rest, max);
      OneMore(|TrimmingSplit(rest, max)|, Max(max / 2, 1));
      assert |TrimmingSplit(remaining, max)| - 1 == |TrimmingSplit(rest, max)|;
    }
  }

  /**
   split_logical_message of the Weixin channel. The test for an empty chunk never skips anything: a
   remainder starts with a visible character, and so does what is cut from it.
   */
  method SplitLogicalMessage(text: string) returns (chunks: seq<string>)
    ensures Trimmed(Trim(text)) && chunks == TrimmingSplit(Trim(text), WEIXIN_TEXT_CHUNK_CHARS)
  {
    var max := WEIXIN_TEXT_CHUNK_CHARS;
    var remaining := Trim(text);
    ghost var a, b := TrimSplits(text);
    chunks := [];
    while |remaining| > max
      invariant Trimmed(remaining)
      invariant chunks + TrimmingSplit(remaining, max) == TrimmingSplit(Trim(text), max)
      decreases |remaining|
    {
      TrimmingStep(remaining, max);
      var boundary := max;
      var last := LastBlankLine(remaining[..max]);
      if last.Some? && last.value + 2 >= max / 2 {
        boundary := last.value + 2;
      }
      var chunk := Trim(remaining[..boundary]);
      Assoc(chunks, [chunk], TrimmingSplit(TrimStart(remaining[boundary..]), max));
      if chunk != "" {
        chunks := chunks + [chunk];
      }
      remaining := TrimStart(remaining[boundary..]);
    }
    if remaining != "" {
      chunks := chunks + [remaining];
    }
  }

  /** For any text, what the Weixin channel sends has the text's visible characters, in order. */
  lemma LogicalMessageIsKept(text: string, max: nat)
    requires max >= 1
    ensures Trimmed(Trim(text)) && Visible(Concat(TrimmingSplit(Trim(text), max))) == Visible(text)
  {
    var a, b := TrimSplits(text);
    TrimmingKeepsTheVisible(Trim(text), max);
    TrimKeepsTheVisible(text);
  }

  // ---------------------------------------------------------------- split, balance, send

  /** The first n values of f. */
  function Table<T>(n: nat, f: nat -> T): (values: seq<T>)
    ensures |values| == n
  {
    if n == 0 then [] else Table(n - 1, f) + [f(n - 1)]
  }

  lemma {:induction false} TableAt<T>(n: nat, f: nat -> T, k: nat)
    requires k < n
    ensures Table(n, f)[k] == f(k)
  {
    if k < n - 1 {
      TableAt(n - 1, f, k);
    }
  }

  /** What is sent for chunk k: it is balanced from the state the chunks before it left. */
  function Sender(chunks: seq<string>): nat -> string {
    (k: nat) => if k < |chunks| then Fences.Balance(chunks[k], Fences.Thread(chunks[..k])).0 else ""
  }

  function AllSent(chunks: seq<string>): (sent: seq<string>)
    ensures |sent| == |chunks|
  {
    Table(|chunks|, Sender(chunks))
  }

  lemma {:induction false} ThreadIsGenuine(chunks: seq<string>)
    ensures Fences.GenuineState(Fences.Thread(chunks))
  {
    if chunks != [] {
      ThreadIsGenuine(chunks[..|chunks| - 1]);
      Fences.BalancedChunksStandAlone(chunks[|chunks| - 1], Fences.Thread(chunks[..|chunks| - 1]));
    }
  }

  lemma FencesTakeRoom(before: Option<Fences.Marker>, chunk: string, after: Option<Fences.Marker>)
    requires Fences.GenuineState(before) && Fences.GenuineState(after)
    ensures var body := Fences.Reopen(before) + chunk;
            |body + Fences.Close(after, body)| > |chunk| <==> before.Some? || after.Some?
  {
  }

  /**
   Every message sent holds its chunk, whole and in one piece, and a client that renders it on its own
   sees every fence closed. A chunk that fills the limit makes a message over the limit exactly when a
   fence is open at either end of it.
   */
  lemma {:induction false} SentChunksStandAlone(chunks: seq<string>, k: nat, max: nat)
    requires k < |chunks|
    ensures var before, after := Fences.Thread(chunks[..k]), Fences.Thread(chunks[..k + 1]);
            var body := Fences.Reopen(before) + chunks[k];
            && AllSent(chunks)[k] == body + Fences.Close(after, body)
            && Fences.Scan(None, AllSent(chunks)[k]).None?
            && (|chunks[k]| == max ==> (|AllSent(chunks)[k]| > max <==> before.Some? || after.Some?))
  {
    var before, after := Fences.Thread(chunks[..k]), Fences.Thread(chunks[..k + 1]);
    ThreadIsGenuine(chunks[..k]);
    ThreadIsGenuine(chunks[..k + 1]);
    assert chunks[..k + 1][..k] == chunks[..k];
    assert AllSent(chunks)[k] == Fences.Balance(chunks[k], before).0 by {
      TableAt(|chunks|, Sender(chunks), k);
    }
    Fences.BalancedChunksStandAlone(chunks[k], before);
    FencesTakeRoom(before, chunks[k], after);
  }

  /** A text in which every window has a preferred place is cut only after newlines. */
  predicate NeverCutHard(text: string, max: nat)
    requires max >= 1
    decreases |text|
  {
    |text| <= max
    || (BlankLineAt(text, Cut(text, max) - 2)
        && (CutIsBest(text, max); NeverCutHard(text[Cut(text, max)..], max)))
  }

  lemma {:induction false} SoftCutsEndLines(text: string, max: nat, k: nat)
    requires max >= 1 && NeverCutHard(text, max) && k < |Split(text, max)| - 1
    ensures Fences.EndsLine(Split(text, max)[k])
    decreases |text|
  {
    CutIsBest(text, max);
    if k > 0 {
      SoftCutsEndLines(text[Cut(text, max)..], max, k - 1);
    }
  }

  /** Then the fences seen while sending are those of the whole text. */
  lemma {:induction false} SoftCutsKeepTheFences(text: string, max: nat)
    requires max >= 1 && NeverCutHard(text, max)
    ensures Fences.Thread(Split(text, max)) == Fences.Scan(None, text)
  {
    forall k | 0 <= k < |Split(text, max)| - 1 ensures Fences.EndsLine(Split(text, max)[k]) {
      SoftCutsEndLines(text, max, k);
    }
    Fences.ThreadIsOneScan(Split(text, max));
    SplitLosesNothing(text, max);
  }

  /**
   And in general: while sending, the fences are in step with the whole text after every cut exactly when
   each cut that falls inside a line is harmless there.
   */
  lemma {:induction false} SendingInStep(text: string, max: nat)
    requires max >= 1
    ensures var chunks := Split(text, max);
            && ((forall k :: 0 <= k < |chunks| ==> Fences.InStep(chunks, k))
                <==> (forall k :: 0 <= k < |chunks| ==> Fences.CutIsHarmless(chunks, k)))
            && ((forall k :: 0 <= k < |chunks| ==> Fences.CutIsHarmless(chunks, k))
                ==> Fences.Thread(chunks) == Fences.Scan(None, text))
  {
    Fences.InStepIffEveryCutIsHarmless(Split(text, max));
    SplitLosesNothing(text, max);
  }

  lemma {:induction false} CutHard(first: string, second: string, max: nat)
    requires |first| == max >= 1 && 1 <= |second| <= max
    requires forall i :: !BlankLineAt(first, i)
    ensures Split(first + second, max) == [first, second]
    ensures Fences.Thread([first, second]) == Fences.Scan(Fences.Scan(None, first), second)
  {
    var text := first + second;
    assert text[..max] == first && text[max..] == second;
    var chunks := [first, second];
    assert chunks[..1] == [first] && [first][..0] == [];
    assert Fences.Thread([]) == None && Fences.Thread([first]) == Fences.Scan(None, first);
  }

  lemma {:induction false} PlainLine(n: nat)
    ensures '\n' !in Repeat('x', n) && Fences.Scan(None, Repeat('x', n)).None?
  {
    Fences.ScanSingle(None, Repeat('x', n));
  }

  lemma {:induction false} ThreeTicks()
    ensures Fences.ParseFenceOpen("```") == Some(Fences.Marker('`', 3, ""))
    ensures Fences.ParseFenceOpen("``").None? && Fences.ParseFenceOpen("`").None?
  {
    assert Fences.SpacesTrimmed("```") == "```" && Fences.RunOf("```", '`') == 3 && "```"[3..] == "";
    assert Fences.RunOf("``", '`') <= 2 && Fences.RunOf("`", '`') <= 1;
  }

  /** For every limit of three or more there is a text that is cut inside its opening fence, and the fence is lost. */
  lemma {:induction false} HardCutsCanLoseAFence(max: nat) returns (text: string)
    requires max >= 3
    ensures Fences.Thread(Split(text, max)).None? && Fences.Scan(None, text).Some?
  {
    var plain := Repeat('x', max - 3);
    var first := plain + "\n" + "``";
    text := first + "`";
    CutHard(first, "`", max);
    PlainLine(max - 3);
    ThreeTicks();
    Fences.ScanConcat(None, plain, "``");
    Fences.ScanSingle(None, "``");
    Fences.ScanSingle(None, "`");
    Fences.ScanConcat(None, plain, "```");
    Fences.ScanSingle(None, "```");
    assert text == plain + "\n" + "```";
  }

  /** And one that is cut inside an ordinary line, and a fence is seen that is not there. */
  lemma {:induction false} HardCutsCanMakeAFence(max: nat) returns (text: string)
    requires max >= 3
    ensures Fences.Thread(Split(text, max)).Some? && Fences.Scan(None, text).None?
  {
    var plain := Repeat('x', max);
    text := plain + "```";
    CutHard(plain, "```", max);
    PlainLine(max);
    ThreeTicks();
    Fences.ScanSingle(None, "```");
    Fences.ScanSingle(None, text);
    assert text[0] == 'x';
  }

  lemma {:induction false} SendStep(chunks: seq<string>, i: nat)
    requires i < |chunks|
    ensures Fences.Balance(chunks[i], Fences.Thread(chunks[..i]))
            == (Sender(chunks)(i), Fences.Thread(chunks[..i + 1]))
  {
    Fences.ThreadMore(chunks, i);
  }

  /** send_chunks: the messages a channel sends for one text. */
  method SendChunks(text: string, max: nat) returns (sent: seq<string>)
    requires max >= 1
    ensures sent == AllSent(Split(text, max))
  {
    var fence := new Fences.FenceState();
    var chunks := SplitMessage(text, max);
    sent := [];
    for i := 0 to |chunks|
      invariant sent == Table(i, Sender(chunks)) && fence.open == Fences.Thread(chunks[..i])
    {
      SendStep(chunks, i);
      var balanced := fence.BalanceFences(chunks[i]);
      sent := sent + [balanced];
    }
  }
}
