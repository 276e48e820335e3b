/** The string functions of the source's standard library that the text algorithms rely on. */
module Text {
  import opened Common

  /** char::is_whitespace, the White_Space property of Unicode. */
  predicate IsSpace(c: char) {
    var n := c as int;
    9 <= n <= 13 || n == 0x20 || n == 0x85 || n == 0xA0 || n == 0x1680 || 0x2000 <= n <= 0x200A
    || n == 0x2028 || n == 0x2029 || n == 0x202F || n == 0x205F || n == 0x3000
  }

  function TrimStart(s: string): string {
    if s != "" && IsSpace(s[0]) then TrimStart(s[1..]) else s
  }

  function TrimEnd(s: string): string {
    if s != "" && IsSpace(s[|s| - 1]) then TrimEnd(s[..|s| - 1]) else s
  }

  function Trim(s: string): string {
    TrimEnd(TrimStart(s))
  }

  predicate Trimmed(s: string) {
    s != "" ==> !IsSpace(s[0]) && !IsSpace(s[|s| - 1])
  }

  lemma {:induction false} TrimStartSplits(s: string) returns (a: string)
    ensures s == a + TrimStart(s) && (forall c :: c in a ==> IsSpace(c))
    ensures TrimStart(s) != "" ==> !IsSpace(TrimStart(s)[0])
    ensures |a| == |s| - |TrimStart(s)|
  {
    if s != "" && IsSpace(s[0]) {
      a := TrimStartSplits(s[1..]);
      assert s == [s[0]] + s[1..];
      a := [s[0]] + a;
    } else {
      a := "";
    }
  }

  lemma {:induction false} TrimEndSplits(s: string) returns (b: string)
    ensures s == TrimEnd(s) + b && (forall c :: c in b ==> IsSpace(c))
    ensures TrimEnd(s) != "" ==> !IsSpace(TrimEnd(s)[|TrimEnd(s)| - 1])
    ensures |b| == |s| - |TrimEnd(s)|
  {
    if s != "" && IsSpace(s[|s| - 1]) {
      b := TrimEndSplits(s[..|s| - 1]);
      assert s == s[..|s| - 1] + [s[|s| - 1]];
      b := b + [s[|s| - 1]];
    } else {
      b := "";
    }
  }

  /** Trimming takes white space, and only white space, off both ends. */
  lemma TrimSplits(s: string) returns (a: string, b: string)
    ensures s == a + Trim(s) + b && Trimmed(Trim(s))
    ensures forall c :: c in a + b ==> IsSpace(c)
  {
    a := TrimStartSplits(s);
    b := TrimEndSplits(TrimStart(s));
    Assoc(a, Trim(s), b);
    assert Trimmed(Trim(s)) by {
      if Trim(s) != "" {
        assert TrimStart(s)[0] == Trim(s)[0];
      }
    }
  }

  lemma TrimmedStays(s: string)
    requires Trimmed(s)
    ensures TrimStart(s) == s && TrimEnd(s) == s && Trim(s) == s
  {
  }

  function Repeat(c: char, n: nat): (s: string)
    ensures |s| == n && forall i :: 0 <= i < n ==> s[i] == c
  {
    seq(n, _ => c)
  }

  /** `split` on a separator: the pieces between its occurrences. */
  function SplitOn<T(==)>(s: seq<T>, sep: T): (pieces: seq<seq<T>>)
    ensures pieces != []
  {
    if s == [] then [[]]
    else if s[0] == sep then [[]] + SplitOn(s[1..], sep)
    else
      var rest := SplitOn(s[1..], sep);
      [[s[0]] + rest[0]] + rest[1..]
  }

  lemma {:induction false} SplitConcat<T>(a: seq<T>, b: seq<T>, sep: T)
    ensures SplitOn(a + [sep] + b, sep) == SplitOn(a, sep) + SplitOn(b, sep)
  {
    var whole := a + [sep] + b;
    if a == [] {
      assert whole[1..] == b;
    } else {
      assert whole[0] == a[0] && whole[1..] == a[1..] + [sep] + b;
      SplitConcat(a[1..], b, sep);
    }
  }

  lemma {:induction false} SplitSingle<T>(s: seq<T>, sep: T)
    requires sep !in s
    ensures SplitOn(s, sep) == [s]
  {
    if s != [] {
      SplitSingle(s[1..], sep);
      assert s == [s[0]] + s[1..];
    }
  }

  function Lines(text: string): (lines: seq<string>)
    ensures lines != []
  {
    SplitOn(text, '\n')
  }

  function Join(lines: seq<string>): string
    requires lines != []
  {
    if |lines| == 1 then lines[0] else lines[0] + "\n" + Join(lines[1..])
  }

  lemma {:induction false} LinesHaveNoBreaks(text: string)
    ensures forall line :: line in Lines(text) ==> '\n' !in line
  {
    if text != "" {
      LinesHaveNoBreaks(text[1..]);
      var rest := Lines(text[1..]);
      assert rest[0] in rest;
      assert forall line :: line in rest[1..] ==> line in rest;
    }
  }

  lemma {:induction false} JoinLines(text: string)
    ensures Join(Lines(text)) == text
  {
    if text != "" {
      JoinLines(text[1..]);
      var rest := Lines(text[1..]);
      assert text == [text[0]] + text[1..];
      assert text[0] != '\n' && |rest| > 1 ==> Lines(text)[1..] == rest[1..];
    }
  }

  /** Every line of a text occurs in it. */
  lemma {:induction false} LineOccurs(text: string, k: nat) returns (at: nat)
    requires k < |Lines(text)|
    ensures at + |Lines(text)[k]| <= |text|
    ensures forall i :: 0 <= i < |Lines(text)[k]| ==> text[at + i] == Lines(text)[k][i]
    ensures k == 0 ==> at == 0
  {
    if text == "" {
      at := 0;
    } else if text[0] == '\n' {
      if k == 0 {
        at := 0;
      } else {
        at := LineOccurs(text[1..], k - 1);
        at := at + 1;
      }
    } else {
      at := LineOccurs(text[1..], k);
      if k > 0 {
        at := at + 1;
      }
    }
  }

  function Concat(chunks: seq<string>): string {
    if chunks == [] then "" else Concat(chunks[..|chunks| - 1]) + chunks[|chunks| - 1]
  }

  lemma {:induction false} ConcatFirst(first: string, chunks: seq<string>)
    ensures Concat([first] + chunks) == first + Concat(chunks)
    decreases |chunks|
  {
    var all := [first] + chunks;
    if chunks == [] {
      assert all[..|all| - 1] == [];
    } else {
      var front := chunks[..|chunks| - 1];
      ConcatFirst(first, front);
      assert all[..|all| - 1] == [first] + front;
      Assoc(first, Concat(front), chunks[|chunks| - 1]);
    }
  }

  /** The characters of a text that are not white space, in order. */
  function Visible(s: string): string {
    if s == "" then "" else (if IsSpace(s[0]) then "" else [s[0]]) + Visible(s[1..])
  }

  lemma {:induction false} VisibleConcat(a: string, b: string)
    ensures Visible(a + b) == Visible(a) + Visible(b)
  {
    if a == "" {
      assert a + b == b;
    } else {
      VisibleConcat(a[1..], b);
      var head := if IsSpace(a[0]) then "" else [a[0]];
      assert (a + b)[1..] == a[1..] + b;
      Assoc(head, Visible(a[1..]), Visible(b));
    }
  }

  lemma {:induction false} BlankHasNothingVisible(s: string)
    requires forall c :: c in s ==> IsSpace(c)
    ensures Visible(s) == ""
  {
    if s != "" {
      assert s[0] in s;
      assert forall c :: c in s[1..] ==> c in s;
      BlankHasNothingVisible(s[1..]);
    }
  }

  lemma TrimKeepsTheVisible(s: string)
    ensures Visible(Trim(s)) == Visible(s) == Visible(TrimStart(s))
  {
    var a, b := TrimSplits(s);
    VisibleConcat(a + Trim(s), b);
    VisibleConcat(a, Trim(s));
    BlankHasNothingVisible(a);
    BlankHasNothingVisible(b);
    var c := TrimStartSplits(s);
    VisibleConcat(c, TrimStart(s));
    BlankHasNothingVisible(c);
  }
}
