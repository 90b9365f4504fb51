/**
 The rendered block read as text: where each item's label and value stand in it, which characters of the item they
 are, and that the values read back from there are the first of all the values given, up to the budget.
 */
module ContextSpelledOut {
  import opened Messages
  import opened RenderUntrustedContext
  import opened ContextFence

  // ---- Texts in texts -----------------------------------------------------------------------------

  /** Whether `text` stands in `block` from `at` on. */
  predicate StandsAt(block: string, at: nat, text: string) {
    at + |text| <= |block| && block[at..at + |text|] == text
  }

  lemma StandsWithin(block: string, at: nat, before: string, text: string, after: string)
    requires StandsAt(block, at, before + text + after)
    ensures StandsAt(block, at + |before|, text)
  {
    var whole := before + text + after;
    forall k | 0 <= k < |text| ensures block[at + |before| + k] == text[k] {
      assert block[at..at + |whole|][|before| + k] == whole[|before| + k];
    }
  }

  lemma StandsInside(block: string, at: nat, text: string, from: nat, part: string)
    requires StandsAt(block, at, text) && StandsAt(text, from, part)
    ensures StandsAt(block, at + from, part)
  {
    forall k | 0 <= k < |part| ensures block[at + from + k] == part[k] {
      assert block[at..at + |text|][from + k] == text[from..from + |part|][k];
    }
  }

  // ---- Characters ---------------------------------------------------------------------------------

  /** Whether `c` is the letter `s` when casing is ignored. */
  predicate SameLetter(c: char, s: char) {
    || c == s
    || ('a' <= s <= 'z' && c as int + 32 == s as int)
    || (s == 's' && c == '\U{017F}')
    || (s == 'i' && (c == '\U{0130}' || c == '\U{0131}'))
  }

  lemma FoldsToTheLetter(c: char, k: nat)
    requires k < 24
    ensures Fold(c) == SENTINEL[k] <==> SameLetter(c, SENTINEL[k])
  {
  }

  /** The marker stands where its letters do, casing ignored. */
  lemma MarkerByItsLetters(text: string, i: nat)
    ensures MarkerAt(text, i)
            <==> i + 24 <= |text| && forall k :: 0 <= k < 24 ==> SameLetter(text[i + k], "untrusted-client-context"[k])
  {
    if i + 24 <= |text| {
      forall k: nat | k < 24 ensures Fold(text[i + k]) == SENTINEL[k] <==> SameLetter(text[i + k], SENTINEL[k]) {
        FoldsToTheLetter(text[i + k], k);
      }
    }
  }

  /** The whitespace characters, one by one. */
  lemma TheSpaces(c: char)
    ensures IsSpace(c)
            <==> c in "\t\n\U{B}\U{C}\r\U{1C}\U{1D}\U{1E}\U{1F} \U{85}\U{A0}\U{1680}"
                 || c in "\U{2000}\U{2001}\U{2002}\U{2003}\U{2004}\U{2005}\U{2006}\U{2007}\U{2008}\U{2009}\U{200A}"
                 || c in "\U{2028}\U{2029}\U{202F}\U{205F}\U{3000}"
  {
  }

  // ---- Neutralised text ---------------------------------------------------------------------------

  /** Two occurrences of the marker never overlap. */
  lemma MarkersStandApart(text: string, i: nat, j: nat)
    requires MarkerAt(text, i) && MarkerAt(text, j) && i < j
    ensures i + 24 <= j
  {
    if j < i + 24 {
      var d := j - i;
      assert Fold(text[j + 0]) == SENTINEL[0] && Fold(text[i + d]) == SENTINEL[d];
      if d + 1 < 24 {
        assert Fold(text[j + 1]) == SENTINEL[1] && Fold(text[i + (d + 1)]) == SENTINEL[d + 1];
      }
      NoBorder(d);
    }
  }

  lemma NoBorder(d: nat)
    requires 0 < d < 24
    ensures SENTINEL[d] != SENTINEL[0] || (d + 1 < 24 && SENTINEL[d + 1] != SENTINEL[1])
  {
  }

  /** Whether the walk that neutralises `text` stops at `i` to rewrite. */
  predicate Stops(text: string, i: nat) {
    && |text| >= 24
    && if i == 0 then MarkerAt(text, 0) else Step(text) <= i && Stops(text[Step(text)..], i - Step(text))
  }

  lemma StandsPast(before: string, text: string, at: nat, part: string)
    requires StandsAt(text, at, part)
    ensures StandsAt(before + text, |before| + at, part)
  {
    assert before + text == before + text + "";
    StandsWithin(before + text, 0, before, text, "");
    StandsInside(before + text, |before|, text, at, part);
  }

  lemma StandsFirst(text: string, after: string)
    ensures StandsAt(text + after, 0, text)
  {
  }

  lemma {:induction false} StopsRewrite(text: string, i: nat)
    requires Stops(text, i)
    ensures StandsAt(Neutralise(text), i, NEUTRALISED)
  {
    if MarkerAt(text, 0) {
      if i == 0 {
        StandsFirst(NEUTRALISED, Neutralise(text[24..]));
      } else {
        StopsRewrite(text[24..], i - 24);
        StandsPast(NEUTRALISED, Neutralise(text[24..]), i - 24, NEUTRALISED);
      }
    } else {
      StopsRewrite(text[1..], i - 1);
      StandsPast([text[0]], Neutralise(text[1..]), i - 1, NEUTRALISED);
    }
  }

  lemma TailHasMarker(text: string, n: nat, i: nat)
    requires n <= i && MarkerAt(text, i)
    ensures MarkerAt(text[n..], i - n)
  {
    forall k | 0 <= k < 24 ensures Fold(text[n..][(i - n) + k]) == SENTINEL[k] {
      assert text[n..][(i - n) + k] == text[i + k];
    }
  }

  /** A marker further on is past the step the walk takes, whole. */
  lemma MarkerPastAStep(text: string, i: nat)
    requires MarkerAt(text, i) && i > 0
    ensures Step(text) <= i && MarkerAt(text[Step(text)..], i - Step(text))
  {
    if MarkerAt(text, 0) {
      MarkersStandApart(text, 0, i);
    }
    TailHasMarker(text, Step(text), i);
  }

  /** It stops at every occurrence of the marker. */
  lemma {:induction false} StopsAtMarkers(text: string, i: nat)
    requires MarkerAt(text, i)
    ensures Stops(text, i)
  {
    if i > 0 {
      MarkerPastAStep(text, i);
      StopsAtMarkers(text[Step(text)..], i - Step(text));
    }
  }

  /** Whether `out` is `text` with every occurrence of the marker, and nothing else, rewritten. */
  ghost predicate IsDefused(text: string, out: string) {
    && |out| == |text|
    && (forall i: nat :: MarkerAt(text, i) ==> StandsAt(out, i, "untrusted client context"))
    && forall k :: 0 <= k < |text| && Outside(text, k) ==> out[k] == text[k]
  }

  lemma NeutralisedIsDefused(text: string)
    ensures IsDefused(text, Neutralise(text))
  {
    NeutraliseKeepsTheText(text);
    forall i: nat | MarkerAt(text, i) ensures StandsAt(Neutralise(text), i, "untrusted client context") {
      StopsAtMarkers(text, i);
      StopsRewrite(text, i);
    }
    forall k | 0 <= k < |text| && Outside(text, k) ensures Neutralise(text)[k] == text[k] {
      TheRestIsLeftAlone(text, k);
    }
  }

  // ---- Values and labels --------------------------------------------------------------------------

  /** Whether `text[lo..hi]` is `text` without the whitespace at its ends, and only that. */
  ghost predicate IsTrimmed(text: string, lo: nat, hi: nat) {
    && lo <= hi <= |text|
    && (forall k :: 0 <= k < lo || hi <= k < |text| ==> IsSpace(text[k]))
    && (lo < hi ==> !IsSpace(text[lo]) && !IsSpace(text[hi - 1]))
  }

  lemma StripTrims(text: string) returns (lo: nat, hi: nat)
    ensures IsTrimmed(text, lo, hi) && Strip(text) == text[lo..hi]
  {
    lo := StripLeftDrops(text);
    var left := StripLeft(text);
    var n := StripRightDrops(left);
    hi := lo + n;
    assert left == text[lo..];
    forall k | hi <= k < |text| ensures IsSpace(text[k]) {
      assert left[k - lo] == text[k];
    }
    assert Strip(text) == left[..n] == text[lo..hi];
    if n > 0 {
      assert left[0] == text[lo] && left[n - 1] == text[hi - 1] && Strip(text)[n - 1] == text[hi - 1];
    }
  }

  /** An item's value is its text without the whitespace at its ends, its markers rewritten. */
  lemma ValueSpelledOut(item: Item) returns (lo: nat, hi: nat)
    ensures IsTrimmed(item.value, lo, hi) && IsDefused(item.value[lo..hi], Value(item))
  {
    lo, hi := StripTrims(item.value);
    NeutralisedIsDefused(item.value[lo..hi]);
  }

  /** Whether the `k`-th character goes on a run of whitespace: one that the text may come in the middle of. */
  predicate GoesOn(text: string, k: nat, inRun: bool)
    requires k < |text|
  {
    IsSpace(text[k]) && if k == 0 then inRun else IsSpace(text[k - 1])
  }

  /** Whether `out` is what stands at `places`, whitespace made a space. */
  ghost predicate IsReadAt(text: string, out: string, places: seq<nat>) {
    && |places| == |out|
    && (forall k :: 0 <= k < |places| ==> places[k] < |text| && out[k] == Inked(text[places[k]]))
    && forall k :: 0 <= k < |places| - 1 ==> places[k] < places[k + 1]
  }

  function Inked(c: char): char {
    if IsSpace(c) then ' ' else c
  }

  /** Whether `places` are those where no run goes on. */
  ghost predicate StartRuns(text: string, inRun: bool, places: seq<nat>) {
    forall i: nat :: i < |text| ==> (i in places <==> !GoesOn(text, i, inRun))
  }

  function OneUp(places: seq<nat>): (up: seq<nat>)
    ensures |up| == |places| && forall k :: 0 <= k < |places| ==> up[k] == places[k] + 1
  {
    seq(|places|, k requires 0 <= k < |places| => places[k] + 1)
  }

  lemma InOneUp(places: seq<nat>, i: nat)
    ensures i in OneUp(places) <==> i > 0 && i - 1 in places
  {
    if i > 0 && i - 1 in places {
      var k :| 0 <= k < |places| && places[k] == i - 1;
      assert OneUp(places)[k] == i;
    }
  }

  lemma RunsOneUp(text: string, inRun: bool, places: seq<nat>)
    requires text != "" && StartRuns(text[1..], IsSpace(text[0]), places)
    ensures StartRuns(text, inRun, if GoesOn(text, 0, inRun) then OneUp(places) else [0] + OneUp(places))
  {
    var places' := if GoesOn(text, 0, inRun) then OneUp(places) else [0] + OneUp(places);
    forall i: nat | i < |text| ensures i in places' <==> !GoesOn(text, i, inRun) {
      InOneUp(places, i);
      if i > 0 {
        assert GoesOn(text[1..], i - 1, IsSpace(text[0])) <==> GoesOn(text, i, inRun);
      }
    }
  }

  lemma ReadOneUp(text: string, out: string, places: seq<nat>)
    requires text != "" && IsReadAt(text[1..], out, places)
    ensures IsReadAt(text, out, OneUp(places)) && IsReadAt(text, [Inked(text[0])] + out, [0] + OneUp(places))
  {
  }

  /** Collapsing leaves the first character of each run of whitespace, as a space, and every other character. */
  lemma {:induction false} CollapseLeavesRunStarts(text: string, inRun: bool) returns (places: seq<nat>)
    ensures IsReadAt(text, Collapse(text, inRun), places) && StartRuns(text, inRun, places)
  {
    if text == "" {
      places := [];
    } else {
      places := CollapseLeavesRunStarts(text[1..], IsSpace(text[0]));
      var rest := Collapse(text[1..], IsSpace(text[0]));
      ReadOneUp(text, rest, places);
      RunsOneUp(text, inRun, places);
      assert "" + rest == rest;
      places := if GoesOn(text, 0, inRun) then OneUp(places) else [0] + OneUp(places);
    }
  }

  /**
   A label is its caption with each run of whitespace one space, none at the ends, its markers rewritten, cut to 120.
   */
  lemma LabelSpelledOut(caption: string) returns (line: string, places: seq<nat>, lo: nat, hi: nat, defused: string)
    ensures IsReadAt(caption, line, places) && StartRuns(caption, false, places)
    ensures IsTrimmed(line, lo, hi) && IsDefused(line[lo..hi], defused)
    ensures Label(caption) == defused[..if |defused| < 120 then |defused| else 120]
  {
    line := Collapse(caption, false);
    places := CollapseLeavesRunStarts(caption, false);
    lo, hi := StripTrims(line);
    NeutralisedIsDefused(line[lo..hi]);
    defused := Neutralise(line[lo..hi]);
  }

  // ---- The number in the truncation line ----------------------------------------------------------

  /** The number a text of digits reads as. */
  function ReadAs(text: string): int {
    if text == "" then 0 else 10 * ReadAs(text[..|text| - 1]) + (text[|text| - 1] as int - '0' as int)
  }

  /** The digits of a number read as that number, without a zero in front. */
  lemma {:induction false} DigitsReadAs(n: nat)
    ensures Digits(n) != "" && ReadAs(Digits(n)) == n
    ensures Digits(n)[0] == '0' ==> n == 0
  {
    if n < 10 {
      assert Digits(n)[..0] == "";
    } else {
      DigitsReadAs(n / 10);
      assert Digits(n)[..|Digits(n)| - 1] == Digits(n / 10);
    }
  }

  // ---- The block as text --------------------------------------------------------------------------

  /** The values of the first `n` items, end to end. */
  function ValuesTo(items: seq<Item>, n: nat): string
    requires n <= |items|
  {
    if n == 0 then "" else ValuesTo(items, n - 1) + Value(items[n - 1])
  }

  /** Texts end to end, the first `k` of them. */
  function EndToEnd(texts: seq<string>, k: nat): string
    requires k <= |texts|
  {
    if k == 0 then "" else EndToEnd(texts, k - 1) + texts[k - 1]
  }

  /** Whether a section stands from `at` on: what it is headed by, a label, what goes between, and a value. */
  predicate SectionAt(block: string, at: nat, label_: string, value: string) {
    && StandsAt(block, at, "description: ")
    && StandsAt(block, at + 13, label_)
    && StandsAt(block, at + 13 + |label_|, "\nvalue:\n")
    && StandsAt(block, at + 21 + |label_|, value)
  }

  lemma HeadedIsASection(block: string, at: nat, s: Section)
    requires StandsAt(block, at, Headed(s))
    ensures SectionAt(block, at, s.caption, s.value)
  {
    var h, v := "description: ", "\nvalue:\n";
    assert Headed(s) == "" + h + (s.caption + v + s.value);
    StandsWithin(block, at, "", h, s.caption + v + s.value);
    assert Headed(s) == h + s.caption + (v + s.value);
    StandsWithin(block, at, h, s.caption, v + s.value);
    assert Headed(s) == (h + s.caption) + v + s.value;
    StandsWithin(block, at, h + s.caption, v, s.value);
    assert Headed(s) == (h + s.caption + v) + s.value + "";
    StandsWithin(block, at, h + s.caption + v, s.value, "");
  }

  /** Whether item `i` is shown: it has a value, and the values before it leave room for some of it. */
  predicate IsShown(items: seq<Item>, i: nat, maxChars: int)
    requires i < |items|
  {
    Value(items[i]) != "" && |ValuesTo(items, i)| < maxChars
  }

  /** What is shown of it: its value, or as much as there is room for. */
  function ShownOf(items: seq<Item>, i: nat, maxChars: int): string
    requires i < |items| && IsShown(items, i, maxChars)
  {
    var room := maxChars - |ValuesTo(items, i)|;
    if |Value(items[i])| <= room then Value(items[i]) else Value(items[i])[..room]
  }

  lemma {:induction false} SameText(entries: seq<Section>, items: seq<Item>, n: nat)
    requires n <= |items| == |entries| && forall k :: 0 <= k < |items| ==> entries[k].value == Value(items[k])
    ensures AllText(entries, n) == ValuesTo(items, n)
  {
    if n > 0 {
      SameText(entries, items, n - 1);
    }
  }

  lemma SameValues(items: seq<Item>, n: nat)
    requires n <= |items|
    ensures AllText(Entries(items), n) == ValuesTo(items, n)
  {
    SameText(Entries(items), items, n);
  }

  /** The section an item is shown as. */
  function SectionOf(items: seq<Item>, i: nat, maxChars: int): Section
    requires i < |items| && IsShown(items, i, maxChars)
  {
    Section(Label(items[i].caption), ShownOf(items, i, maxChars))
  }

  /** Which of the first `n` entries are shown. */
  function PlacesTo(entries: seq<Section>, n: nat, maxChars: int): (places: seq<nat>)
    requires n <= |entries|
    ensures forall k :: 0 <= k < |places| ==> places[k] < n && Shows(entries, places[k], maxChars)
  {
    if n == 0 then []
    else if Shows(entries, n - 1, maxChars) then PlacesTo(entries, n - 1, maxChars) + [n - 1]
    else PlacesTo(entries, n - 1, maxChars)
  }

  ghost predicate GoesUp(places: seq<nat>) {
    forall j, k :: 0 <= j < k < |places| ==> places[j] < places[k]
  }

  lemma {:induction false} PlacesGoUp(entries: seq<Section>, n: nat, maxChars: int)
    requires n <= |entries|
    ensures GoesUp(PlacesTo(entries, n, maxChars))
  {
    if n > 0 {
      PlacesGoUp(entries, n - 1, maxChars);
    }
  }

  lemma {:induction false} NoPlaceIsMissing(entries: seq<Section>, n: nat, maxChars: int, i: nat)
    requires i < n <= |entries| && Shows(entries, i, maxChars)
    ensures i in PlacesTo(entries, n, maxChars)
  {
    if i < n - 1 {
      NoPlaceIsMissing(entries, n - 1, maxChars, i);
    }
  }

  lemma {:induction false} SectionsAreCuts(entries: seq<Section>, n: nat, maxChars: int)
    requires n <= |entries|
    ensures var places, sections := PlacesTo(entries, n, maxChars), Sections(entries, n, maxChars);
            |places| == |sections| && forall k :: 0 <= k < |places| ==> sections[k] == Cut(entries, places[k], maxChars)
  {
    if n > 0 {
      SectionsAreCuts(entries, n - 1, maxChars);
    }
  }

  lemma EntryIsShown(items: seq<Item>, i: nat, maxChars: int)
    requires i < |items|
    ensures Shows(Entries(items), i, maxChars) <==> IsShown(items, i, maxChars)
    ensures IsShown(items, i, maxChars) ==> Cut(Entries(items), i, maxChars) == SectionOf(items, i, maxChars)
  {
    SameValues(items, i);
  }

  /** Whether `sections` are those of the items at `places`. */
  ghost predicate AreSections(items: seq<Item>, maxChars: int, places: seq<nat>, sections: seq<Section>) {
    && |places| == |sections|
    && forall k :: 0 <= k < |places| ==>
         && places[k] < |items| && IsShown(items, places[k], maxChars)
         && sections[k] == SectionOf(items, places[k], maxChars)
  }

  lemma SectionsShow(items: seq<Item>, maxChars: int)
    ensures AreSections(items, maxChars, PlacesTo(Entries(items), |items|, maxChars),
                        Sections(Entries(items), |items|, maxChars))
  {
    var places := PlacesTo(Entries(items), |items|, maxChars);
    SectionsAreCuts(Entries(items), |items|, maxChars);
    forall k | 0 <= k < |places|
      ensures IsShown(items, places[k], maxChars)
      ensures Sections(Entries(items), |items|, maxChars)[k] == SectionOf(items, places[k], maxChars)
    {
      EntryIsShown(items, places[k], maxChars);
    }
  }

  lemma {:induction false} NextOffset(texts: seq<string>, k: nat)
    requires k < |texts|
    ensures Offset(texts, k + 1) == Offset(texts, k) + |texts[k]| + 2
  {
    if k > 0 {
      NextOffset(texts[1..], k - 1);
    }
  }

  /** What a block opens and closes with. */
  function Head(): string {
    OPEN_MARKER + "\n" + PreambleLines(PREAMBLE_LINES) + "\n\n"
  }

  function Foot(): string {
    "\n\n" + Spaced(ClosingWords()) + "\n" + CLOSE_MARKER
  }

  lemma Between(open: string, before: string, body: string, after: string, close: string)
    ensures open + ("\n" + before + "\n\n" + body + "\n\n" + after + "\n") + close
            == (open + "\n" + before + "\n\n") + body + ("\n\n" + after + "\n" + close)
  {
  }

  lemma FencedIsBetween(body: string)
    ensures Fenced(body) == Head() + body + Foot()
  {
    Between(OPEN_MARKER, PreambleLines(PREAMBLE_LINES), body, Spaced(ClosingWords()), CLOSE_MARKER);
  }

  /** What a body adds to its sections. */
  function More(truncated: bool, maxChars: nat): string {
    if truncated then "\n\n" + ("[truncated: client context is capped at " + Digits(maxChars) + " characters]") else ""
  }

  /** What follows the last section: a line that says so when something was cut, and the foot. */
  function After(items: seq<Item>, maxChars: nat): string {
    More(|ValuesTo(items, |items|)| > maxChars, maxChars) + Foot()
  }

  lemma BodyIsJoined(texts: seq<string>, truncated: bool, maxChars: nat)
    ensures Body(texts, truncated, maxChars) == Joined(texts) + More(truncated, maxChars)
  {
    if truncated {
      assert "\n\n" + TruncationLine(maxChars) == More(true, maxChars);
      Shuffled("", Joined(texts), "\n\n", TruncationLine(maxChars), "");
    }
  }

  lemma Shuffled(a: string, b: string, c: string, d: string, e: string)
    ensures a + (b + c + d) + e == a + b + ((c + d) + e)
    ensures b + c + d == b + (c + d)
  {
  }

  lemma Regrouped(a: string, b: string, c: string, d: string)
    ensures a + (b + c) + d == a + b + (c + d)
  {
  }

  lemma BlockIsBetween(items: seq<Item>, maxChars: nat)
    requires Rendered(items, maxChars).Some?
    ensures Rendered(items, maxChars).value
            == Head() + Joined(Texts(Sections(Entries(items), |items|, maxChars))) + After(items, maxChars)
  {
    var texts := Texts(Sections(Entries(items), |items|, maxChars));
    var truncated := |ValuesTo(items, |items|)| > maxChars;
    SameValues(items, |items|);
    BodyIsJoined(texts, truncated, maxChars);
    FencedIsBetween(Body(texts, truncated, maxChars));
    Regrouped(Head(), Joined(texts), More(truncated, maxChars), Foot());
  }

  /** Where the sections of `texts` stand when they are joined after a head. */
  function Starts(head: nat, texts: seq<string>): (starts: seq<nat>)
    ensures |starts| == |texts|
  {
    seq(|texts|, k requires 0 <= k < |texts| => head + Offset(texts, k))
  }

  lemma TextStands(texts: seq<string>, k: nat)
    requires k < |texts|
    ensures StandsAt(Joined(texts), Offset(texts, k), texts[k])
    ensures k < |texts| - 1 ==> StandsAt(Joined(texts), Offset(texts, k) + |texts[k]|, "\n\n")
    ensures k == |texts| - 1 ==> Offset(texts, k) + |texts[k]| == |Joined(texts)|
  {
    JoinedLaysOut(texts, k);
  }

  lemma StandsAfter(block: string, head: string, middle: string, after: string, from: nat, part: string)
    requires block == head + middle + after && StandsAt(middle, from, part)
    ensures StandsAt(block, |head| + from, part)
  {
    StandsWithin(block, 0, head, middle, after);
    StandsInside(block, |head|, middle, from, part);
  }

  lemma JoinedStandsAt(block: string, head: string, texts: seq<string>, after: string, k: nat)
    requires block == head + Joined(texts) + after && k < |texts|
    ensures StandsAt(block, Starts(|head|, texts)[k], texts[k])
  {
    TextStands(texts, k);
    StandsAfter(block, head, Joined(texts), after, Offset(texts, k), texts[k]);
  }

  /** The joined texts stand one after the other, a blank line between one and the next. */
  lemma JoinedGoesOn(block: string, head: string, texts: seq<string>, after: string, k: nat)
    requires block == head + Joined(texts) + after && k < |texts| - 1
    ensures var end := Starts(|head|, texts)[k] + |texts[k]|;
            Starts(|head|, texts)[k + 1] == end + 2 && StandsAt(block, end, "\n\n")
  {
    TextStands(texts, k);
    NextOffset(texts, k);
    StandsAfter(block, head, Joined(texts), after, Offset(texts, k) + |texts[k]|, "\n\n");
  }

  lemma JoinedEnds(block: string, head: string, texts: seq<string>, after: string)
    requires block == head + Joined(texts) + after && texts != []
    ensures var end := Starts(|head|, texts)[|texts| - 1] + |texts[|texts| - 1]|;
            end <= |block| && block[end..] == after
  {
    TextStands(texts, |texts| - 1);
    assert |head| + |Joined(texts)| == Starts(|head|, texts)[|texts| - 1] + |texts[|texts| - 1]|;
  }

  lemma {:induction false} ToldEndToEnd(sections: seq<Section>, values: seq<string>, k: nat)
    requires k <= |sections| == |values| && forall i :: 0 <= i < |values| ==> values[i] == sections[i].value
    ensures EndToEnd(values, k) == ToldTo(sections, k)
  {
    if k > 0 {
      ToldEndToEnd(sections, values, k - 1);
    }
  }

  /** Whether the sections of the items at `places` stand in `block`, a blank line apart and `after` after the last. */
  ghost predicate SectionsStand(items: seq<Item>, block: string, places: seq<nat>, starts: seq<nat>,
                                values: seq<string>, after: string)
  {
    && |starts| == |values| == |places|
    && forall k: nat :: k < |places| ==> SectionStandsAt(items, block, places, starts, values, after, k)
  }

  ghost predicate SectionStandsAt(items: seq<Item>, block: string, places: seq<nat>, starts: seq<nat>,
                                  values: seq<string>, after: string, k: nat)
    requires k < |places| == |starts| == |values|
  {
    && places[k] < |items|
    && var label_ := Label(items[places[k]].caption);
       var end := starts[k] + 21 + |label_| + |values[k]|;
       && SectionAt(block, starts[k], label_, values[k])
       && if k == |places| - 1 then block[end..] == after
          else StandsAt(block, end, "\n\n") && starts[k + 1] == end + 2
  }

  /** Whether `places` are, in order, those of all the items shown, and `values` what is shown of each. */
  ghost predicate AllShown(items: seq<Item>, maxChars: int, places: seq<nat>, values: seq<string>) {
    && |values| == |places|
    && (forall k :: 0 <= k < |places| ==>
          && places[k] < |items| && IsShown(items, places[k], maxChars)
          && values[k] == ShownOf(items, places[k], maxChars))
    && GoesUp(places)
    && forall i: nat :: i < |items| && IsShown(items, i, maxChars) ==> i in places
  }

  function ValuesOf(sections: seq<Section>): (values: seq<string>)
    ensures |values| == |sections| && forall k :: 0 <= k < |values| ==> values[k] == sections[k].value
  {
    seq(|sections|, k requires 0 <= k < |sections| => sections[k].value)
  }

  lemma SectionStands(items: seq<Item>, block: string, head: string, places: seq<nat>, sections: seq<Section>,
                      after: string, maxChars: int, k: nat)
    requires block == head + Joined(Texts(sections)) + after && AreSections(items, maxChars, places, sections)
    requires k < |places|
    ensures SectionStandsAt(items, block, places, Starts(|head|, Texts(sections)), ValuesOf(sections), after, k)
  {
    var texts := Texts(sections);
    SectionEnds(sections[k]);
    JoinedStandsAt(block, head, texts, after, k);
    HeadedIsASection(block, Starts(|head|, texts)[k], sections[k]);
    if k == |places| - 1 {
      JoinedEnds(block, head, texts, after);
    } else {
      JoinedGoesOn(block, head, texts, after, k);
    }
  }

  lemma SectionEnds(s: Section)
    ensures |Headed(s)| == 21 + |s.caption| + |s.value|
  {
  }

  lemma AllSectionsStand(items: seq<Item>, block: string, head: string, places: seq<nat>, sections: seq<Section>,
                         after: string, maxChars: int)
    requires block == head + Joined(Texts(sections)) + after && AreSections(items, maxChars, places, sections)
    ensures SectionsStand(items, block, places, Starts(|head|, Texts(sections)), ValuesOf(sections), after)
  {
    forall k: nat | k < |places|
      ensures SectionStandsAt(items, block, places, Starts(|head|, Texts(sections)), ValuesOf(sections), after, k)
    {
      SectionStands(items, block, head, places, sections, after, maxChars, k);
    }
  }

  lemma HeadStands(block: string, head: string, body: string, after: string)
    requires block == head + body + after
    ensures StandsAt(block, 0, head)
  {
    assert block[0..|head|] == head;
  }

  lemma ReadBack(items: seq<Item>, maxChars: nat)
    ensures var values := ValuesOf(Sections(Entries(items), |items|, maxChars));
            var all := ValuesTo(items, |items|);
            EndToEnd(values, |values|) == if |all| <= maxChars then all else all[..maxChars]
  {
    var sections := Sections(Entries(items), |items|, maxChars);
    ToldIsTheBeginning(Entries(items), |items|, maxChars);
    ToldEndToEnd(sections, ValuesOf(sections), |sections|);
    SameValues(items, |items|);
  }

  lemma EveryShownIsThere(items: seq<Item>, maxChars: int)
    ensures AllShown(items, maxChars, PlacesTo(Entries(items), |items|, maxChars),
                     ValuesOf(Sections(Entries(items), |items|, maxChars)))
  {
    PlacesGoUp(Entries(items), |items|, maxChars);
    SectionsShow(items, maxChars);
    forall i: nat | i < |items| && IsShown(items, i, maxChars)
      ensures i in PlacesTo(Entries(items), |items|, maxChars)
    {
      EntryIsShown(items, i, maxChars);
      NoPlaceIsMissing(Entries(items), |items|, maxChars, i);
    }
  }

  lemma BlockStands(items: seq<Item>, maxChars: nat)
    requires Rendered(items, maxChars).Some?
    ensures var block, sections := Rendered(items, maxChars).value, Sections(Entries(items), |items|, maxChars);
            && SectionsStand(items, block, PlacesTo(Entries(items), |items|, maxChars),
                             Starts(|Head()|, Texts(sections)), ValuesOf(sections), After(items, maxChars))
            && StandsAt(block, 0, Head())
  {
    var block, sections := Rendered(items, maxChars).value, Sections(Entries(items), |items|, maxChars);
    SectionsShow(items, maxChars);
    BlockIsBetween(items, maxChars);
    AllSectionsStand(items, block, Head(), PlacesTo(Entries(items), |items|, maxChars), sections,
                     After(items, maxChars), maxChars);
    HeadStands(block, Head(), Joined(Texts(sections)), After(items, maxChars));
  }

  lemma FirstStart(items: seq<Item>, maxChars: nat)
    requires Rendered(items, maxChars).Some?
    ensures var sections := Sections(Entries(items), |items|, maxChars);
            sections != [] && Starts(|Head()|, Texts(sections))[0] == |Head()|
  {
    SomethingIsShown(Entries(items), |items|, maxChars);
  }

  /**
   A block is its head; then for each item shown, in order and a blank line apart, a section with the item's label and
   what is shown of its value; then what follows. What is shown, read back from there end to end, is the first
   `maxChars` characters of all the values.
   */
  lemma BlockSpelledOut(items: seq<Item>, maxChars: nat)
    returns (places: seq<nat>, starts: seq<nat>, values: seq<string>)
    requires Rendered(items, maxChars).Some?
    ensures AllShown(items, maxChars, places, values) && places != []
    ensures var block := Rendered(items, maxChars).value;
            && SectionsStand(items, block, places, starts, values, After(items, maxChars))
            && starts[0] == |Head()| && StandsAt(block, 0, Head())
    ensures var all := ValuesTo(items, |items|);
            EndToEnd(values, |values|) == if |all| <= maxChars then all else all[..maxChars]
  {
    var sections := Sections(Entries(items), |items|, maxChars);
    places := PlacesTo(Entries(items), |items|, maxChars);
    starts := Starts(|Head()|, Texts(sections));
    values := ValuesOf(sections);
    EveryShownIsThere(items, maxChars);
    BlockStands(items, maxChars);
    FirstStart(items, maxChars);
    ReadBack(items, maxChars);
  }
}
