/** Splitting a long text into Discord messages. */
module BridgeText {

  predicate IsSpace(c: char) {
    var u := c as int;
    9 <= u <= 13 || 28 <= u <= 32 || u == 0x85 || u == 0xA0 || u == 0x1680 || 0x2000 <= u <= 0x200A ||
    u == 0x2028 || u == 0x2029 || u == 0x202F || u == 0x205F || u == 0x3000
  }

  predicate Blank(s: string) {
    forall i :: 0 <= i < |s| ==> IsSpace(s[i])
  }

  /** Starts and ends with a character that is not whitespace. */
  predicate Trimmed(s: string) {
    s != [] && !IsSpace(s[0]) && !IsSpace(s[|s| - 1])
  }

  function LeadingBlanks(s: string): (n: nat)
    ensures n <= |s| && Blank(s[..n]) && (n < |s| ==> !IsSpace(s[n]))
  {
    if s == [] || !IsSpace(s[0]) then 0 else 1 + LeadingBlanks(s[1..])
  }

  function InkLength(s: string): (n: nat)
    ensures n <= |s| && Blank(s[n..]) && (n > 0 ==> !IsSpace(s[n - 1]))
  {
    if s == [] then 0
    else if IsSpace(s[|s| - 1]) then
      var n := InkLength(s[..|s| - 1]);
      assert s[n..] == s[..|s| - 1][n..] + [s[|s| - 1]];
      n
    else |s|
  }

  function LStrip(s: string): string { s[LeadingBlanks(s)..] }

  function RStrip(s: string): string { s[..InkLength(s)] }

  function Strip(s: string): string { LStrip(RStrip(s)) }

  /** `rfind`: the last index of `c`, or -1. */
  function RFind(s: string, c: char): (i: int)
    ensures -1 <= i < |s| && (i >= 0 ==> s[i] == c) && (forall j :: i < j < |s| ==> s[j] != c)
  {
    if s == [] then -1 else if s[|s| - 1] == c then |s| - 1 else RFind(s[..|s| - 1], c)
  }

  function SplitAt(window: string): (k: nat)
    requires window != []
    ensures 1 <= k <= |window|
  {
    if RFind(window, '\n') > 0 then RFind(window, '\n')
    else if RFind(window, ' ') > 0 then RFind(window, ' ')
    else |window|
  }

  /** The chunks of a text that is trimmed. */
  function ChunksOf(text: string, limit: nat): seq<string>
    requires limit >= 1
    decreases |text|
  {
    if text == [] then []
    else if |text| <= limit then [text]
    else
      var k := SplitAt(text[..limit]);
      [RStrip(text[..k])] + ChunksOf(LStrip(text[k..]), limit)
  }

  /** The whitespace dropped after each chunk. */
  function GapsOf(text: string, limit: nat): seq<string>
    requires limit >= 1
    decreases |text|
  {
    if text == [] then []
    else if |text| <= limit then [""]
    else
      var k := SplitAt(text[..limit]);
      [text[InkLength(text[..k])..k + LeadingBlanks(text[k..])]] + GapsOf(LStrip(text[k..]), limit)
  }

  function Weave(chunks: seq<string>, gaps: seq<string>): string
    requires |gaps| == |chunks|
  {
    if chunks == [] then "" else chunks[0] + gaps[0] + Weave(chunks[1..], gaps[1..])
  }

  method SplitDiscordMessage(content: string, limit: nat) returns (chunks: seq<string>)
    requires limit >= 1
    ensures chunks == ChunksOf(Strip(content), limit)
  {
    hide ChunksOf, Strip, LStrip, RStrip, SplitAt;
    var text := Strip(content);
    StripTrims(content);
    if text == [] {
      ChunksEnd(text, limit);
      return [];
    }
    chunks := [];
    var remaining := text;
    while |remaining| > limit
      invariant Trimmed(remaining)
      invariant ChunksOf(text, limit) == chunks + ChunksOf(remaining, limit)
      decreases |remaining|
    {
      var splitAt := SplitPoint(remaining, limit);
      var chunk := RStrip(remaining[..splitAt]);
      FirstChunkHasInk(remaining, splitAt);
      assert chunk != [];
      RestIsTrimmed(remaining, splitAt);
      var rest := LStrip(remaining[splitAt..]);
      ChunksStep(remaining, limit);
      Regroup(chunks, chunk, ChunksOf(rest, limit));
      chunks := chunks + [chunk];
      remaining := rest;
    }
    ChunksEnd(remaining, limit);
    chunks := chunks + [remaining];
  }

  method SplitPoint(remaining: string, limit: nat) returns (splitAt: int)
    requires 1 <= limit < |remaining|
    ensures splitAt == SplitAt(remaining[..limit])
  {
    var window := remaining[..limit];
    splitAt := RFind(window, '\n');
    if splitAt <= 0 {
      splitAt := RFind(window, ' ');
    }
    if splitAt <= 0 {
      splitAt := limit;
    }
  }

  // ------------------------------------------------------------------- lemmas

  lemma ChunksStep(text: string, limit: nat)
    requires 1 <= limit < |text|
    ensures var k := SplitAt(text[..limit]);
            ChunksOf(text, limit) == [RStrip(text[..k])] + ChunksOf(LStrip(text[k..]), limit)
  {
    hide RStrip, LStrip, RFind;
  }

  lemma ChunksEnd(text: string, limit: nat)
    requires |text| <= limit && limit >= 1
    ensures ChunksOf(text, limit) == if text == [] then [] else [text]
  {
  }

  lemma Regroup(done: seq<string>, next: string, rest: seq<string>)
    ensures done + ([next] + rest) == (done + [next]) + rest
  {
  }

  lemma StripTrims(s: string)
    ensures Strip(s) == [] || Trimmed(Strip(s))
  {
    var r := RStrip(s);
    if r != [] {
      assert !IsSpace(r[|r| - 1]);
      assert LeadingBlanks(r) < |r|;
    }
  }

  /** The branch that falls back to a hard cut on an empty chunk is never taken. */
  lemma FirstChunkHasInk(text: string, k: nat)
    requires Trimmed(text) && 1 <= k <= |text|
    ensures RStrip(text[..k]) != [] && RStrip(text[..k])[0] == text[0] && Trimmed(RStrip(text[..k]))
  {
    assert text[..k][0] == text[0];
  }

  lemma RestIsTrimmed(text: string, k: nat)
    requires Trimmed(text) && k < |text|
    ensures Trimmed(LStrip(text[k..])) && |LStrip(text[k..])| <= |text| - k
  {
    var tail := text[k..];
    assert tail[|tail| - 1] == text[|text| - 1];
    assert LeadingBlanks(tail) < |tail|;
  }

  /** Every chunk has 1 to `limit` characters and starts and ends with ink. */
  lemma {:induction false} ChunksFit(text: string, limit: nat)
    requires limit >= 1 && (text == [] || Trimmed(text))
    ensures forall c :: c in ChunksOf(text, limit) ==> 1 <= |c| <= limit && Trimmed(c)
    decreases |text|
  {
    if |text| > limit {
      var k := SplitAt(text[..limit]);
      FirstChunkHasInk(text, k);
      RestIsTrimmed(text, k);
      ChunksFit(LStrip(text[k..]), limit);
    }
  }

  lemma ThreeParts(text: string, a: nat, b: nat)
    requires a <= b <= |text|
    ensures text == text[..a] + text[a..b] + text[b..]
  {
  }

  lemma BlankJoin(s: string, t: string)
    requires Blank(s) && Blank(t)
    ensures Blank(s + t)
  {
  }

  lemma GapIsBlank(text: string, k: nat)
    requires k <= |text|
    ensures var a, b := InkLength(text[..k]), k + LeadingBlanks(text[k..]);
            a <= b <= |text| && Blank(text[a..b]) && text == text[..a] + text[a..b] + text[b..]
  {
    var a, b := InkLength(text[..k]), k + LeadingBlanks(text[k..]);
    assert text[..k][a..] == text[a..k] && text[k..][..b - k] == text[k..b];
    BlankJoin(text[a..k], text[k..b]);
    assert text[a..k] + text[k..b] == text[a..b];
    ThreeParts(text, a, b);
  }

  /** The text is its chunks, in order, joined by runs of whitespace. */
  lemma {:induction false} ChunksRejoin(text: string, limit: nat)
    requires limit >= 1 && (text == [] || Trimmed(text))
    ensures |GapsOf(text, limit)| == |ChunksOf(text, limit)|
    ensures forall g :: g in GapsOf(text, limit) ==> Blank(g)
    ensures Weave(ChunksOf(text, limit), GapsOf(text, limit)) == text
    decreases |text|
  {
    if text == [] {
    } else if |text| <= limit {
      assert Weave([text], [""]) == text + "" + Weave([], []);
    } else {
      var k := SplitAt(text[..limit]);
      var a, b := InkLength(text[..k]), k + LeadingBlanks(text[k..]);
      GapIsBlank(text, k);
      RestIsTrimmed(text, k);
      RestStarts(text, k);
      ChunksRejoin(text[b..], limit);
      WeaveCons(text[..a], text[a..b], ChunksOf(text[b..], limit), GapsOf(text[b..], limit));
    }
  }

  lemma RestStarts(text: string, k: nat)
    requires k <= |text|
    ensures LStrip(text[k..]) == text[k + LeadingBlanks(text[k..])..]
    ensures RStrip(text[..k]) == text[..InkLength(text[..k])]
  {
  }

  lemma WeaveCons(chunk: string, gap: string, chunks: seq<string>, gaps: seq<string>)
    requires |gaps| == |chunks|
    ensures Weave([chunk] + chunks, [gap] + gaps) == chunk + gap + Weave(chunks, gaps)
  {
    assert ([chunk] + chunks)[1..] == chunks && ([gap] + gaps)[1..] == gaps;
  }

  /** The characters of a text that are not whitespace, in order. */
  function Ink(s: string): string {
    if s == [] then [] else (if IsSpace(s[0]) then [] else [s[0]]) + Ink(s[1..])
  }

  function Concat(chunks: seq<string>): string {
    if chunks == [] then [] else chunks[0] + Concat(chunks[1..])
  }

  lemma {:induction false} InkOfConcat(a: string, b: string)
    ensures Ink(a + b) == Ink(a) + Ink(b)
    decreases |a|
  {
    if a == [] {
      assert a + b == b;
    } else {
      assert (a + b)[1..] == a[1..] + b;
      InkOfConcat(a[1..], b);
    }
  }

  lemma {:induction false} BlankHasNoInk(s: string)
    requires Blank(s)
    ensures Ink(s) == []
    decreases |s|
  {
    if s != [] {
      BlankHasNoInk(s[1..]);
    }
  }

  lemma {:induction false} InkOfWeave(chunks: seq<string>, gaps: seq<string>)
    requires |gaps| == |chunks| && forall g :: g in gaps ==> Blank(g)
    ensures Ink(Weave(chunks, gaps)) == Ink(Concat(chunks))
    decreases |chunks|
  {
    if chunks != [] {
      InkOfWeave(chunks[1..], gaps[1..]);
      BlankHasNoInk(gaps[0]);
      InkOfConcat(chunks[0] + gaps[0], Weave(chunks[1..], gaps[1..]));
      InkOfConcat(chunks[0], gaps[0]);
      InkOfConcat(chunks[0], Concat(chunks[1..]));
    }
  }

  lemma InkOfStrip(s: string)
    ensures Ink(Strip(s)) == Ink(s)
  {
    var r := RStrip(s);
    assert s == r + s[|r|..];
    InkOfConcat(r, s[|r|..]);
    BlankHasNoInk(s[|r|..]);
    var n := LeadingBlanks(r);
    assert r == r[..n] + Strip(s);
    InkOfConcat(r[..n], Strip(s));
    BlankHasNoInk(r[..n]);
  }

  /** No character of the content is lost, repeated or moved, except whitespace. */
  lemma SplitKeepsTheInk(content: string, limit: nat)
    requires limit >= 1
    ensures Ink(Concat(ChunksOf(Strip(content), limit))) == Ink(content)
  {
    StripTrims(content);
    ChunksRejoin(Strip(content), limit);
    InkOfWeave(ChunksOf(Strip(content), limit), GapsOf(Strip(content), limit));
    InkOfStrip(content);
  }

  predicate HasBreak(s: string) {
    exists i :: 0 < i < |s| && (s[i] == '\n' || s[i] == ' ')
  }

  lemma SoftBreaksDropBlanks(text: string, limit: nat)
    requires 1 <= limit < |text|
    ensures var k := SplitAt(text[..limit]);
            if k < limit then LeadingBlanks(text[k..]) > 0 else !HasBreak(text[..limit])
  {
    var window := text[..limit];
    var k := SplitAt(window);
    if k < limit {
      assert text[k..][0] == window[k];
    } else {
      forall j | 0 < j < |window|
        ensures window[j] != '\n' && window[j] != ' '
      {
        assert RFind(window, '\n') <= 0 && RFind(window, ' ') <= 0;
      }
    }
  }

  lemma FirstCut(text: string, limit: nat)
    requires 1 <= limit < |text|
    requires var k := SplitAt(text[..limit]);
             |text[InkLength(text[..k])..k + LeadingBlanks(text[k..])]| == 0
    ensures RStrip(text[..SplitAt(text[..limit])]) == text[..limit] && !HasBreak(text[..limit])
  {
    SoftBreaksDropBlanks(text, limit);
  }

  /** A word is cut only where it must be: when no whitespace is dropped between
      two chunks, the first is full and offers no place to break. */
  predicate CutsOnlyWhenFull(chunks: seq<string>, gaps: seq<string>, limit: nat)
    requires |gaps| == |chunks|
  {
    forall i :: 0 <= i < |chunks| - 1 && |gaps[i]| == 0 ==> |chunks[i]| == limit && !HasBreak(chunks[i])
  }

  lemma CutsCons(chunk: string, gap: string, chunks: seq<string>, gaps: seq<string>, limit: nat)
    requires |gaps| == |chunks| && CutsOnlyWhenFull(chunks, gaps, limit)
    requires |gap| == 0 ==> |chunk| == limit && !HasBreak(chunk)
    ensures CutsOnlyWhenFull([chunk] + chunks, [gap] + gaps, limit)
  {
    var cs, gs := [chunk] + chunks, [gap] + gaps;
    forall i | 0 <= i < |cs| - 1 && |gs[i]| == 0
      ensures |cs[i]| == limit && !HasBreak(cs[i])
    {
      if i > 0 {
        assert cs[i] == chunks[i - 1] && gs[i] == gaps[i - 1];
      }
    }
  }

  lemma GapsStep(text: string, limit: nat)
    requires 1 <= limit < |text|
    ensures var k := SplitAt(text[..limit]);
            GapsOf(text, limit) == [text[InkLength(text[..k])..k + LeadingBlanks(text[k..])]] +
                                   GapsOf(LStrip(text[k..]), limit)
  {
    hide RStrip, LStrip, RFind, InkLength, LeadingBlanks;
  }

  lemma LastChunkHasNoCut(text: string, limit: nat)
    requires |text| <= limit && limit >= 1
    ensures |GapsOf(text, limit)| == |ChunksOf(text, limit)|
    ensures CutsOnlyWhenFull(ChunksOf(text, limit), GapsOf(text, limit), limit)
  {
  }

  lemma {:induction false} WordsAreCutOnlyWhenFull(text: string, limit: nat)
    requires limit >= 1 && (text == [] || Trimmed(text))
    ensures |GapsOf(text, limit)| == |ChunksOf(text, limit)|
    ensures CutsOnlyWhenFull(ChunksOf(text, limit), GapsOf(text, limit), limit)
    decreases |text|
  {
    hide ChunksOf, GapsOf, InkLength, LeadingBlanks, SplitAt, CutsOnlyWhenFull;
    if |text| <= limit {
      LastChunkHasNoCut(text, limit);
    } else {
      var k := SplitAt(text[..limit]);
      var a, b := InkLength(text[..k]), k + LeadingBlanks(text[k..]);
      RestIsTrimmed(text, k);
      RestStarts(text, k);
      ChunksStep(text, limit);
      GapsStep(text, limit);
      WordsAreCutOnlyWhenFull(text[b..], limit);
      if |text[a..b]| == 0 {
        FirstCut(text, limit);
      }
      CutsCons(text[..a], text[a..b], ChunksOf(text[b..], limit), GapsOf(text[b..], limit), limit);
    }
  }
}
