/**
 The fence around client-supplied context cannot be forged: the marker word occurs in a rendered block
 exactly twice, once in its opener and once in its closer.
 */
module ContextFence {
  import opened Messages
  import opened RenderUntrustedContext

  // ---- Neutralised text ----------------------------------------------------------------------------

  lemma NoSpaceInside(k: nat)
    requires k < 24
    ensures SENTINEL[k] != ' ' && SENTINEL[k] != '\n'
  {
  }

  lemma NeutralisedHasNone(rest: string, i: nat)
    requires i < 24
    ensures !MarkerAt(NEUTRALISED + rest, i)
  {
    var text := NEUTRALISED + rest;
    if MarkerAt(text, i) {
      var gap: nat := if i <= 9 then 9 else if i <= 16 then 16 else i;
      assert text[i + (gap - i)] == NEUTRALISED[gap];
      assert Fold(text[i + (gap - i)]) == SENTINEL[gap - i];
      NoSpaceInside(gap - i);
    }
  }

  /** Whether a character was kept, but for its casing, or is a hyphen made a space. */
  predicate KeptAs(c: char, c': char) {
    Fold(c') == Fold(c) || (c == '-' && c' == ' ')
  }

  ghost predicate Keeps(text: string, out: string) {
    |out| == |text| && forall k :: 0 <= k < |text| ==> KeptAs(text[k], out[k])
  }

  lemma KeepsJoined(a: string, a': string, b: string, b': string)
    requires Keeps(a, a') && Keeps(b, b')
    ensures Keeps(a + b, a' + b')
  {
  }

  lemma SpelledAlike(k: nat)
    requires k < 24
    ensures Fold(NEUTRALISED[k]) == SENTINEL[k] || (SENTINEL[k] == '-' && NEUTRALISED[k] == ' ')
  {
  }

  lemma OnlyAHyphenIsOne(c: char)
    ensures Fold(c) == '-' ==> c == '-'
  {
  }

  lemma NeutralisedMarker(text: string)
    requires MarkerAt(text, 0)
    ensures Keeps(text[..24], NEUTRALISED)
  {
    forall k | 0 <= k < 24 ensures KeptAs(text[..24][k], NEUTRALISED[k]) {
      assert Fold(text[0 + k]) == SENTINEL[k];
      SpelledAlike(k);
      OnlyAHyphenIsOne(text[k]);
    }
  }

  /** Neutralising changes hyphens to spaces and nothing else but casing. */
  lemma {:induction false} NeutraliseKeepsTheText(text: string)
    ensures Keeps(text, Neutralise(text))
  {
    if |text| >= 24 {
      if MarkerAt(text, 0) {
        NeutraliseKeepsTheText(text[24..]);
        NeutralisedMarker(text);
        KeepsJoined(text[..24], NEUTRALISED, text[24..], Neutralise(text[24..]));
        assert text[..24] + text[24..] == text;
      } else {
        NeutraliseKeepsTheText(text[1..]);
        KeepsJoined([text[0]], [text[0]], text[1..], Neutralise(text[1..]));
        assert [text[0]] + text[1..] == text;
      }
    }
  }

  /** How many characters the walk passes at once: a marker whole, or one. */
  function Step(text: string): (n: nat)
    ensures n == 24 || n == 1
  {
    if MarkerAt(text, 0) then 24 else 1
  }

  lemma NoneInAStep(text: string, i: nat)
    requires |text| >= 24 && i < Step(text)
    ensures !MarkerAt(Neutralise(text), i)
  {
    if MarkerAt(text, 0) {
      NeutralisedHasNone(Neutralise(text[24..]), i);
    } else {
      NoneAppears(text);
    }
  }

  lemma NonePastAStep(text: string, i: nat)
    requires |text| >= 24 && Step(text) <= i && !MarkerAt(Neutralise(text[Step(text)..]), i - Step(text))
    ensures !MarkerAt(Neutralise(text), i)
  {
    if MarkerAt(text, 0) {
      NonePast(NEUTRALISED, Neutralise(text[24..]), i);
    } else {
      NonePast([text[0]], Neutralise(text[1..]), i);
    }
  }

  lemma NonePast(before: string, rest: string, i: int)
    requires |before| <= i && !MarkerAt(rest, i - |before|)
    ensures !MarkerAt(before + rest, i)
  {
    Shift(before, rest, i);
  }

  /** No occurrence survives neutralising, and none is made by it. */
  lemma {:induction false} NothingSurvives(text: string, i: nat)
    ensures !MarkerAt(Neutralise(text), i)
  {
    if |text| >= 24 {
      if i < Step(text) {
        NoneInAStep(text, i);
      } else {
        NothingSurvives(text[Step(text)..], i - Step(text));
        NonePastAStep(text, i);
      }
    }
  }

  lemma Shift(a: string, b: string, i: int)
    requires i >= |a|
    ensures MarkerAt(a + b, i) <==> MarkerAt(b, i - |a|)
  {
  }

  /** Text that does not start with the marker does not start with it neutralised. */
  lemma NoneAppears(text: string)
    ensures MarkerAt(Neutralise(text), 0) ==> MarkerAt(text, 0)
  {
    NeutraliseKeepsTheText(text);
    var out := Neutralise(text);
    if MarkerAt(out, 0) {
      forall k | 0 <= k < 24 ensures Fold(text[0 + k]) == SENTINEL[k] {
        assert Fold(out[0 + k]) == SENTINEL[k];
        NoSpaceInside(k);
        assert out[k] != ' ';
      }
    }
  }

  lemma MarkerInTail(text: string, n: nat, i: int)
    requires n <= |text|
    ensures MarkerAt(text[n..], i) ==> MarkerAt(text, i + n)
  {
    if MarkerAt(text[n..], i) {
      forall k | 0 <= k < 24 ensures Fold(text[(i + n) + k]) == SENTINEL[k] {
        assert text[n..][i + k] == text[(i + n) + k];
      }
    }
  }

  /** Whether no occurrence of the marker holds the `k`-th character. */
  ghost predicate Outside(text: string, k: int) {
    forall i :: k - 24 < i <= k ==> !MarkerAt(text, i)
  }

  lemma OutsideInTail(text: string, n: nat, k: nat)
    requires n <= |text| && Outside(text, k)
    ensures Outside(text[n..], k - n)
  {
    forall i | k - n - 24 < i <= k - n ensures !MarkerAt(text[n..], i) {
      MarkerInTail(text, n, i);
    }
  }

  lemma NeutralisedPastAStep(text: string, k: nat)
    requires 24 <= |text| && Step(text) <= k < |text|
    ensures k < |Neutralise(text)| && k - Step(text) < |Neutralise(text[Step(text)..])|
    ensures Neutralise(text)[k] == Neutralise(text[Step(text)..])[k - Step(text)]
  {
    NeutraliseKeepsTheText(text);
    NeutraliseKeepsTheText(text[Step(text)..]);
  }

  lemma FirstIsLeftAlone(text: string, k: nat)
    requires k < |text| && Outside(text, k) && (|text| < 24 || k < Step(text))
    ensures k < |Neutralise(text)| && Neutralise(text)[k] == text[k]
  {
    assert 24 <= |text| && MarkerAt(text, 0) ==> k - 24 < 0 <= k;
  }

  /** A character outside every occurrence of the marker is left alone. */
  lemma {:induction false} TheRestIsLeftAlone(text: string, k: nat)
    requires k < |text| && Outside(text, k)
    ensures k < |Neutralise(text)| && Neutralise(text)[k] == text[k]
  {
    var n := Step(text);
    if |text| < 24 || k < n {
      FirstIsLeftAlone(text, k);
    } else {
      OutsideInTail(text, n, k);
      TheRestIsLeftAlone(text[n..], k - n);
      NeutralisedPastAStep(text, k);
    }
  }

  // ---- Putting a block together -----------------------------------------------------------------------

  /** No part of the marker, in any casing. */
  predicate Foreign(c: char) {
    c in "\n <>/:[]" || '0' <= c <= '9'
  }

  lemma ForeignEndsIt(text: string, i: int, j: nat)
    requires j < |text| && Foreign(text[j]) && i <= j < i + 24
    ensures !MarkerAt(text, i)
  {
    if MarkerAt(text, i) {
      assert Fold(text[i + (j - i)]) == SENTINEL[j - i];
      ForeignIsNot(text[j], j - i);
    }
  }

  lemma ForeignIsNot(c: char, k: nat)
    requires Foreign(c) && k < 24
    ensures Fold(c) != SENTINEL[k]
  {
  }

  lemma MarkerInLeft(a: string, b: string, i: int)
    requires i + 24 <= |a|
    ensures MarkerAt(a + b, i) <==> MarkerAt(a, i)
  {
    if i >= 0 {
      forall k | 0 <= k < 24 ensures Fold((a + b)[i + k]) == SENTINEL[k] <==> Fold(a[i + k]) == SENTINEL[k] {
      }
    }
  }

  /** At a seam with a foreign character on one side, the parts keep the markers they had. */
  lemma Seam(a: string, b: string, i: int)
    requires (a != "" && Foreign(a[|a| - 1])) || (b != "" && Foreign(b[0]))
    ensures MarkerAt(a + b, i) <==> MarkerAt(a, i) || (i >= |a| && MarkerAt(b, i - |a|))
  {
    if i >= |a| {
      Shift(a, b, i);
    } else if i + 24 <= |a| {
      MarkerInLeft(a, b, i);
    } else if a != "" && Foreign(a[|a| - 1]) {
      ForeignEndsIt(a + b, i, |a| - 1);
    } else {
      ForeignEndsIt(a + b, i, |a|);
    }
  }

  lemma JoinFree(a: string, b: string)
    requires MarkerFree(a) && MarkerFree(b)
    requires (a != "" && Foreign(a[|a| - 1])) || (b != "" && Foreign(b[0]))
    ensures MarkerFree(a + b)
  {
    forall i ensures !MarkerAt(a + b, i) {
      Seam(a, b, i);
    }
  }

  lemma {:induction false} SpacedFree(words: seq<string>)
    requires forall k :: 0 <= k < |words| ==> MarkerFree(words[k])
    ensures MarkerFree(Spaced(words))
  {
    if |words| > 1 {
      SpacedFree(words[1..]);
      JoinFree(words[0], " ");
      JoinFree(words[0] + " ", Spaced(words[1..]));
    }
  }

  /** A word shorter than the marker cannot hold it. */
  lemma ShortWordsFree(words: seq<string>)
    requires forall k :: 0 <= k < |words| ==> |words[k]| < 24
    ensures MarkerFree(Spaced(words))
  {
    SpacedFree(words);
  }

  lemma LineFree(a: string, b: string)
    requires MarkerFree(a) && MarkerFree(b)
    ensures MarkerFree(a + "\n" + b)
  {
    JoinFree(a, "\n");
    JoinFree(a + "\n", b);
  }

  lemma WordsAreShort(line: nat)
    ensures forall k :: 0 <= k < |PreambleWords(line)| ==> |PreambleWords(line)[k]| < 24
  {
  }

  lemma {:induction false} PreambleFree(lines: nat)
    ensures MarkerFree(PreambleLines(lines))
  {
    if lines == 1 {
      WordsAreShort(0);
      ShortWordsFree(PreambleWords(0));
    } else if lines > 1 {
      PreambleFree(lines - 1);
      WordsAreShort(lines - 1);
      ShortWordsFree(PreambleWords(lines - 1));
      LineFree(PreambleLines(lines - 1), Spaced(PreambleWords(lines - 1)));
    }
  }

  lemma ClosingFree()
    ensures MarkerFree(Spaced(ClosingWords()))
  {
    ShortWordsFree(ClosingWords());
  }

  lemma {:induction false} DigitsFree(n: nat)
    ensures MarkerFree(Digits(n)) && forall k :: 0 <= k < |Digits(n)| ==> '0' <= Digits(n)[k] <= '9'
  {
    if n >= 10 {
      DigitsFree(n / 10);
    }
    forall i ensures !MarkerAt(Digits(n), i) {
      if 0 <= i < |Digits(n)| {
        ForeignEndsIt(Digits(n), i, i);
      }
    }
  }

  lemma TruncationLineFree(maxChars: nat)
    ensures MarkerFree(TruncationLine(maxChars))
  {
    var before := "[truncated: client context is capped at ";
    DigitsFree(maxChars);
    forall i ensures !MarkerAt(before, i) {
      if 0 <= i <= 11 {
        ForeignEndsIt(before, i, 11);
      } else if 11 < i <= 18 {
        ForeignEndsIt(before, i, 18);
      }
    }
    JoinFree(before, Digits(maxChars));
    JoinFree(before + Digits(maxChars), " characters]");
  }

  lemma HeadedFree(s: Section)
    requires MarkerFree(s.caption) && MarkerFree(s.value)
    ensures MarkerFree(Headed(s))
  {
    JoinFree("description: ", s.caption);
    JoinFree("description: " + s.caption, "\nvalue:\n");
    JoinFree("description: " + s.caption + "\nvalue:\n", s.value);
  }

  lemma CappedFree(text: string, n: nat)
    requires MarkerFree(text)
    ensures MarkerFree(Capped(text, n))
  {
    if |text| > n {
      forall i ensures !MarkerAt(text[..n], i) {
        assert text == text[..n] + text[n..];
        if i + 24 <= n {
          MarkerInLeft(text[..n], text[n..], i);
        }
      }
    }
  }

  lemma NeutralFree(text: string)
    ensures MarkerFree(Neutralise(text))
  {
    forall i ensures !MarkerAt(Neutralise(text), i) {
      if i >= 0 {
        NothingSurvives(text, i);
      }
    }
  }

  ghost predicate EntryFree(s: Section) {
    MarkerFree(s.caption) && MarkerFree(s.value)
  }

  lemma EntriesFree(items: seq<Item>, k: nat)
    requires k < |items|
    ensures EntryFree(Entries(items)[k])
  {
    NeutralFree(Strip(items[k].value));
    NeutralFree(Strip(Collapse(items[k].caption, false)));
    CappedFree(Neutralise(Strip(Collapse(items[k].caption, false))), MAX_LABEL_CHARS);
  }

  lemma {:induction false} SectionsFree(entries: seq<Section>, n: nat, maxChars: int)
    requires n <= |entries| && forall k :: 0 <= k < |entries| ==> EntryFree(entries[k])
    ensures forall k :: 0 <= k < |Sections(entries, n, maxChars)| ==>
            MarkerFree(Headed(Sections(entries, n, maxChars)[k]))
  {
    if n > 0 {
      SectionsFree(entries, n - 1, maxChars);
      if Shows(entries, n - 1, maxChars) {
        CutFree(entries, n - 1, maxChars);
      }
    }
  }

  lemma CutFree(entries: seq<Section>, n: nat, maxChars: int)
    requires n < |entries| && Shows(entries, n, maxChars) && EntryFree(entries[n])
    ensures MarkerFree(Headed(Cut(entries, n, maxChars)))
  {
    CappedFree(entries[n].value, maxChars - |AllText(entries, n)|);
    HeadedFree(Cut(entries, n, maxChars));
  }

  lemma {:induction false} JoinedFree(texts: seq<string>)
    requires forall k :: 0 <= k < |texts| ==> MarkerFree(texts[k])
    ensures MarkerFree(Joined(texts))
  {
    if |texts| > 1 {
      JoinedFree(texts[1..]);
      JoinFree(texts[0], "\n\n");
      JoinFree(texts[0] + "\n\n", Joined(texts[1..]));
    }
  }

  lemma BodyFree(texts: seq<string>, truncated: bool, maxChars: int)
    requires truncated ==> maxChars >= 0
    requires forall k :: 0 <= k < |texts| ==> MarkerFree(texts[k])
    ensures MarkerFree(Body(texts, truncated, maxChars))
  {
    JoinedFree(texts);
    if truncated {
      TruncationLineFree(maxChars);
      JoinFree(Joined(texts), "\n\n");
      JoinFree(Joined(texts) + "\n\n", TruncationLine(maxChars));
    }
  }

  lemma InsideFree(body: string)
    requires MarkerFree(body)
    ensures MarkerFree(Inside(body))
  {
    PreambleFree(PREAMBLE_LINES);
    ClosingFree();
    EnclosedFree(PreambleLines(PREAMBLE_LINES), body, Spaced(ClosingWords()));
  }

  lemma EnclosedFree(before: string, body: string, after: string)
    requires MarkerFree(before) && MarkerFree(body) && MarkerFree(after)
    ensures MarkerFree("\n" + before + "\n\n" + body + "\n\n" + after + "\n")
  {
    JoinFree("\n", before);
    JoinFree("\n" + before, "\n\n");
    JoinFree("\n" + before + "\n\n", body);
    JoinFree("\n" + before + "\n\n" + body, "\n\n");
    JoinFree("\n" + before + "\n\n" + body + "\n\n", after);
    JoinFree("\n" + before + "\n\n" + body + "\n\n" + after, "\n");
  }

  lemma MarkerIsItself(k: nat)
    requires k < 24
    ensures Fold(SENTINEL[k]) == SENTINEL[k]
  {
  }

  lemma MarkerBetween(before: string, after: string)
    ensures MarkerAt(before + SENTINEL + after, |before|)
  {
    var text := before + SENTINEL + after;
    forall k | 0 <= k < 24 ensures Fold(text[|before| + k]) == SENTINEL[k] {
      assert text[|before| + k] == SENTINEL[k];
      MarkerIsItself(k);
    }
  }

  lemma OpenerHasOne(i: int)
    ensures MarkerAt(OPEN_MARKER, i) <==> i == 1
  {
    MarkerBetween("<", ">");
    if i == 0 {
      ForeignEndsIt(OPEN_MARKER, i, 0);
    } else if i == 2 {
      ForeignEndsIt(OPEN_MARKER, i, 25);
    }
  }

  lemma CloserHasOne(i: int)
    ensures MarkerAt(CLOSE_MARKER, i) <==> i == 2
  {
    MarkerBetween("</", ">");
    if 0 <= i < 2 {
      ForeignEndsIt(CLOSE_MARKER, i, i);
    } else if i == 3 {
      ForeignEndsIt(CLOSE_MARKER, i, 26);
    }
  }

  /** Around text that is free of the marker, the fence shows it where its two ends are and nowhere else. */
  lemma FencedHasTwo(inside: string, i: int)
    requires MarkerFree(inside) && inside != "" && inside[0] == '\n' && inside[|inside| - 1] == '\n'
    ensures var block := OPEN_MARKER + inside + CLOSE_MARKER;
            MarkerAt(block, i) <==> i == 1 || i == |block| - 25
  {
    Seam(OPEN_MARKER, inside, i);
    Seam(OPEN_MARKER + inside, CLOSE_MARKER, i);
    OpenerHasOne(i);
    CloserHasOne(i - |OPEN_MARKER + inside|);
  }

  lemma InsideEnds(body: string)
    ensures Inside(body) != "" && Inside(body)[0] == '\n' && Inside(body)[|Inside(body)| - 1] == '\n'
  {
  }

  /** A marker-bearing block: the word once in the opener it starts with, once in the closer it ends with. */
  ghost predicate WellFenced(block: string) {
    && |block| >= |OPEN_MARKER| + |CLOSE_MARKER|
    && block[..|OPEN_MARKER|] == OPEN_MARKER && block[|block| - |CLOSE_MARKER|..] == CLOSE_MARKER
    && forall i :: MarkerAt(block, i) <==> i == 1 || i == |block| - 25
  }

  lemma FenceHasEnds(inside: string)
    ensures var block := OPEN_MARKER + inside + CLOSE_MARKER;
            && |block| >= |OPEN_MARKER| + |CLOSE_MARKER|
            && block[..|OPEN_MARKER|] == OPEN_MARKER && block[|block| - |CLOSE_MARKER|..] == CLOSE_MARKER
  {
  }

  lemma FencedIsWell(inside: string)
    requires MarkerFree(inside) && inside != "" && inside[0] == '\n' && inside[|inside| - 1] == '\n'
    ensures WellFenced(OPEN_MARKER + inside + CLOSE_MARKER)
  {
    FenceHasEnds(inside);
    var block := OPEN_MARKER + inside + CLOSE_MARKER;
    forall i ensures MarkerAt(block, i) <==> i == 1 || i == |block| - 25 {
      FencedHasTwo(inside, i);
    }
  }

  lemma FenceAround(body: string)
    requires MarkerFree(body)
    ensures WellFenced(Fenced(body))
  {
    InsideFree(body);
    InsideEnds(body);
    FencedIsWell(Inside(body));
  }

  /**
   The fence holds: whatever the labels and values say, a rendered block has the marker word, in any casing,
   exactly twice: in the opener it starts with and in the closer it ends with.
   */
  lemma TheFenceHolds(items: seq<Item>, maxChars: int)
    requires Rendered(items, maxChars).Some?
    ensures WellFenced(Rendered(items, maxChars).value)
  {
    var entries := Entries(items);
    forall k | 0 <= k < |entries| ensures EntryFree(entries[k]) {
      EntriesFree(items, k);
    }
    BlockHolds(entries, maxChars);
  }

  lemma BlockHolds(entries: seq<Section>, maxChars: int)
    requires BlockOf(entries, maxChars).Some? && forall k :: 0 <= k < |entries| ==> EntryFree(entries[k])
    ensures WellFenced(BlockOf(entries, maxChars).value)
  {
    var all := AllText(entries, |entries|);
    var sections := Sections(entries, |entries|, maxChars);
    SectionsFree(entries, |entries|, maxChars);
    BodyFree(Texts(sections), |all| > maxChars, maxChars);
    FenceAround(Body(Texts(sections), |all| > maxChars, maxChars));
  }

  // ---- Labels -------------------------------------------------------------------------------------------

  ghost predicate OneLine(text: string) {
    forall k :: 0 <= k < |text| && IsSpace(text[k]) ==> text[k] == ' '
  }

  lemma {:induction false} CollapsedIsOneLine(text: string, inRun: bool)
    ensures OneLine(Collapse(text, inRun))
    ensures inRun && Collapse(text, inRun) != "" ==> !IsSpace(Collapse(text, inRun)[0])
    ensures forall k :: 0 < k < |Collapse(text, inRun)| && Collapse(text, inRun)[k] == ' ' ==>
            !IsSpace(Collapse(text, inRun)[k - 1])
  {
    if text != "" {
      CollapsedIsOneLine(text[1..], IsSpace(text[0]));
    }
  }

  /** The characters that are not whitespace. */
  function Ink(text: string): string {
    if text == "" then "" else (if IsSpace(text[0]) then "" else [text[0]]) + Ink(text[1..])
  }

  lemma {:induction false} CollapseKeepsTheInk(text: string, inRun: bool)
    ensures Ink(Collapse(text, inRun)) == Ink(text)
  {
    if text != "" {
      CollapseKeepsTheInk(text[1..], IsSpace(text[0]));
      var rest := Collapse(text[1..], IsSpace(text[0]));
      if IsSpace(text[0]) && inRun {
        assert "" + rest == rest && "" + Ink(text[1..]) == Ink(text[1..]);
      } else {
        assert Collapse(text, inRun)[1..] == rest;
      }
    }
  }

  /** Stripping takes a run of whitespace off each end and nothing between. */
  lemma {:induction false} StripLeftDrops(text: string) returns (n: nat)
    ensures n <= |text| && StripLeft(text) == text[n..] && forall k :: 0 <= k < n ==> IsSpace(text[k])
    ensures StripLeft(text) != "" ==> !IsSpace(StripLeft(text)[0])
  {
    n := 0;
    if text != "" && IsSpace(text[0]) {
      n := StripLeftDrops(text[1..]);
      n := n + 1;
    }
  }

  lemma {:induction false} StripRightDrops(text: string) returns (n: nat)
    ensures n <= |text| && StripRight(text) == text[..n] && forall k :: n <= k < |text| ==> IsSpace(text[k])
    ensures StripRight(text) != "" ==> !IsSpace(StripRight(text)[|StripRight(text)| - 1])
  {
    n := |text|;
    if text != "" && IsSpace(text[|text| - 1]) {
      n := StripRightDrops(text[..|text| - 1]);
    }
  }

  /** A value is dropped exactly when it is all whitespace. */
  lemma BlankIsAllWhitespace(item: Item)
    ensures Value(item) == "" <==> forall k :: 0 <= k < |item.value| ==> IsSpace(item.value[k])
  {
    NeutraliseKeepsTheText(Strip(item.value));
    var n := StripLeftDrops(item.value);
    var m := StripRightDrops(StripLeft(item.value));
    if Value(item) != "" {
      assert !IsSpace(item.value[n]);
    }
  }

  lemma NeutralIsOneLine(text: string)
    requires OneLine(text)
    ensures OneLine(Neutralise(text))
  {
    NeutraliseKeepsTheText(text);
    var out := Neutralise(text);
    forall k | 0 <= k < |out| && IsSpace(out[k]) ensures out[k] == ' ' {
      assert Fold(out[k]) == Fold(text[k]) || (text[k] == '-' && out[k] == ' ');
    }
  }

  /** A label is one line of at most 120 characters, without the marker: it can open no section of its own. */
  lemma LabelIsOneShortLine(caption: string)
    ensures OneLine(Label(caption)) && '\n' !in Label(caption)
    ensures |Label(caption)| <= MAX_LABEL_CHARS && MarkerFree(Label(caption))
  {
    var collapsed := Collapse(caption, false);
    CollapsedIsOneLine(caption, false);
    var n := StripLeftDrops(collapsed);
    var m := StripRightDrops(StripLeft(collapsed));
    var stripped := Strip(collapsed);
    assert OneLine(stripped) by {
      forall k | 0 <= k < |stripped| && IsSpace(stripped[k]) ensures stripped[k] == ' ' {
        assert stripped[k] == collapsed[n + k];
      }
    }
    NeutralIsOneLine(stripped);
    NeutralFree(stripped);
    CappedFree(Neutralise(stripped), MAX_LABEL_CHARS);
    assert '\n' !in Label(caption) by {
      assert IsSpace('\n');
    }
  }
}
