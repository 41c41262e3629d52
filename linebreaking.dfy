/**
 * Line breaking for labels (`LabelStyleRenderer.SplitLines`): the text is cut at each
 * '\n' and every segment is packed greedily, one character or one space-separated word
 * at a time, into lines that fit a width budget.
 *
 * The packing is specified by `Groups`, which says which words end up on which line;
 * `PackSegment` is the loop of the renderer and is proved to produce exactly the lines
 * of those groups. Widths are running sums of advances, as the renderer keeps them.
 */
module LineBreaking {
  import opened Wrappers
  import opened TextSplit

  /** A laid-out line: its text, its recorded width and (later) its baseline. */
  datatype Line = Line(value: string, width: real, baseline: real)

  /** The two ways `SplitLines` is called: per character (separator "") or per word (separator " "). */
  datatype SplitMode = Characters | Words

  function Separator(mode: SplitMode): (sep: string)
    ensures mode == Characters <==> sep == ""
  {
    match mode
    case Characters => ""
    case Words => " "
  }

  /** The units a segment is packed in: its characters, or its `Split(" ")` pieces. */
  function WordsOf(segment: string, mode: SplitMode): seq<string>
  {
    match mode
    case Characters => Chars(segment)
    case Words => Split(segment, ' ')
  }

  /**
   * The advance added after each unit: the measured space in word mode; in character
   * mode the renderer overwrites its captured space width with 0 before packing.
   */
  function SpaceWidth(mode: SplitMode, measure: string -> real): (sw: real)
    ensures mode == Characters ==> sw == 0.0
    ensures mode == Words ==> sw == measure(" ")
  {
    if mode == Characters then 0.0 else measure(" ")
  }

  /** The running width of a line holding the units `g`: each advance plus a separator advance. */
  function GroupWidth(g: seq<string>, measure: string -> real, spaceWidth: real): real
    decreases |g|
  {
    if g == [] then 0.0
    else GroupWidth(g[..|g| - 1], measure, spaceWidth) + measure(g[|g| - 1]) + spaceWidth
  }

  /** Sum of the advances of the units alone. */
  function Advances(g: seq<string>, measure: string -> real): real
    decreases |g|
  {
    if g == [] then 0.0 else Advances(g[..|g| - 1], measure) + measure(g[|g| - 1])
  }

  /** A line's width is the sum of its units' advances plus one separator advance per unit. */
  lemma {:induction false} GroupWidthIsAdvancesPlusSeparators(g: seq<string>, measure: string -> real, spaceWidth: real)
    ensures GroupWidth(g, measure, spaceWidth) == Advances(g, measure) + (|g| as real) * spaceWidth
    decreases |g|
  {
    if g != [] {
      GroupWidthIsAdvancesPlusSeparators(g[..|g| - 1], measure, spaceWidth);
    }
  }

  /**
   * Greedy packing: `done` are the finished lines and `cur` the line being filled. A unit
   * starts a new line exactly when the current width plus its advance exceeds the budget.
   */
  function Groups(words: seq<string>, measure: string -> real, spaceWidth: real, maxWidth: real,
                  cur: seq<string>, done: seq<seq<string>>): (gs: seq<seq<string>>)
    ensures |gs| >= |done| + 1
    ensures gs[..|done|] == done
    decreases |words|
  {
    if words == [] then done + [cur]
    else if GroupWidth(cur, measure, spaceWidth) + measure(words[0]) > maxWidth then
      var gs := Groups(words[1..], measure, spaceWidth, maxWidth, [words[0]], done + [cur]);
      assert gs[..|done|] == gs[..|done + [cur]|][..|done|];
      gs
    else
      Groups(words[1..], measure, spaceWidth, maxWidth, cur + [words[0]], done)
  }

  /** The lines (as units) that greedy packing of `words` produces. */
  function Packed(words: seq<string>, measure: string -> real, spaceWidth: real, maxWidth: real): seq<seq<string>>
  {
    Groups(words, measure, spaceWidth, maxWidth, [], [])
  }

  function LineOf(g: seq<string>, measure: string -> real, spaceWidth: real, sep: string): Line
  {
    Line(Spelled(g, sep), GroupWidth(g, measure, spaceWidth), 0.0)
  }

  function LinesOf(gs: seq<seq<string>>, measure: string -> real, spaceWidth: real, sep: string): (ls: seq<Line>)
    ensures |ls| == |gs|
  {
    seq(|gs|, i requires 0 <= i < |gs| => LineOf(gs[i], measure, spaceWidth, sep))
  }

  /** The lines one '\n'-free segment yields. */
  function SegmentLines(segment: string, mode: SplitMode, measure: string -> real, maxWidth: real): seq<Line>
  {
    var sw := SpaceWidth(mode, measure);
    LinesOf(Packed(WordsOf(segment, mode), measure, sw, maxWidth), measure, sw, Separator(mode))
  }

  /** The lines of several segments, segment after segment. */
  function AllSegmentLines(segments: seq<string>, mode: SplitMode, measure: string -> real, maxWidth: real): seq<Line>
    decreases |segments|
  {
    if segments == [] then []
    else AllSegmentLines(segments[..|segments| - 1], mode, measure, maxWidth)
         + SegmentLines(segments[|segments| - 1], mode, measure, maxWidth)
  }

  /** What `SplitLines` returns: nothing for a null text, else the lines of each segment in order. */
  function SplitLinesOf(text: Option<string>, mode: SplitMode, measure: string -> real, maxWidth: real): seq<Line>
  {
    match text
    case None => []
    case Some(t) => AllSegmentLines(Split(t, '\n'), mode, measure, maxWidth)
  }

  // ---------------------------------------------------------------------------------
  // The loops

  /** The per-segment loop: a string builder and a running width, flushed on overflow. */
  method PackSegment(words: seq<string>, measure: string -> real, spaceWidth: real, sep: string, maxWidth: real)
    returns (result: seq<Line>)
    ensures result == LinesOf(Packed(words, measure, spaceWidth, maxWidth), measure, spaceWidth, sep)
  {
    result := [];
    var lineResult := "";
    var width := 0.0;
    ghost var cur: seq<string> := [];
    ghost var done: seq<seq<string>> := [];
    for i := 0 to |words|
      invariant lineResult == Spelled(cur, sep)
      invariant width == GroupWidth(cur, measure, spaceWidth)
      invariant result == LinesOf(done, measure, spaceWidth, sep)
      invariant Groups(words[i..], measure, spaceWidth, maxWidth, cur, done) == Packed(words, measure, spaceWidth, maxWidth)
    {
      var word := words[i];
      var wordWidth := measure(word);
      var wordWithSpaceWidth := wordWidth + spaceWidth;
      var wordWithSpace := word + sep;
      assert words[i..][1..] == words[i + 1..];
      if width + wordWidth > maxWidth {
        result := result + [Line(lineResult, width, 0.0)];
        lineResult := wordWithSpace;
        width := wordWithSpaceWidth;
        done := done + [cur];
        cur := [word];
        assert [word][..0] == [];
      } else {
        lineResult := lineResult + wordWithSpace;
        width := width + wordWithSpaceWidth;
        assert (cur + [word])[..|cur|] == cur;
        cur := cur + [word];
      }
    }
    assert words[|words|..] == [];
    result := result + [Line(lineResult, width, 0.0)];
  }

  /**
   * `SplitLines`: measures the space once, splits at '\n' and packs each segment. The
   * captured space width is overwritten with 0 in character mode, as the renderer does.
   */
  method SplitLines(text: Option<string>, measure: string -> real, maxWidth: real, mode: SplitMode)
    returns (lines: array<Line>)
    ensures fresh(lines)
    ensures lines[..] == SplitLinesOf(text, mode, measure, maxWidth)
  {
    if text.None? {
      lines := new Line[0];
      return;
    }
    var spaceWidth := measure(" ");
    var segments := Split(text.value, '\n');
    var all: seq<Line> := [];
    for k := 0 to |segments|
      invariant mode == Words ==> spaceWidth == measure(" ")
      invariant all == AllSegmentLines(segments[..k], mode, measure, maxWidth)
    {
      var words: seq<string>;
      if mode == Characters {
        words := Chars(segments[k]);
        spaceWidth := 0.0;
      } else {
        words := Split(segments[k], ' ');
      }
      var result := PackSegment(words, measure, spaceWidth, Separator(mode), maxWidth);
      assert segments[..k + 1][..k] == segments[..k];
      all := all + result;
    }
    assert segments[..|segments|] == segments;
    lines := new Line[|all|](i requires 0 <= i < |all| => all[i]);
  }

  // ---------------------------------------------------------------------------------
  // Properties of the packing

  function Flatten(gs: seq<seq<string>>): seq<string>
    decreases |gs|
  {
    if gs == [] then [] else Flatten(gs[..|gs| - 1]) + gs[|gs| - 1]
  }

  lemma FlattenSnoc(gs: seq<seq<string>>, g: seq<string>)
    ensures Flatten(gs + [g]) == Flatten(gs) + g
  {
    assert (gs + [g])[..|gs|] == gs;
  }

  /** Packing neither drops, duplicates nor reorders units. */
  lemma {:induction false} GroupsKeepWords(words: seq<string>, measure: string -> real, spaceWidth: real, maxWidth: real,
                                           cur: seq<string>, done: seq<seq<string>>)
    ensures Flatten(Groups(words, measure, spaceWidth, maxWidth, cur, done)) == Flatten(done) + cur + words
    decreases |words|
  {
    if words == [] {
      FlattenSnoc(done, cur);
    } else {
      var w := words[0];
      assert words == [w] + words[1..];
      if GroupWidth(cur, measure, spaceWidth) + measure(w) > maxWidth {
        GroupsKeepWords(words[1..], measure, spaceWidth, maxWidth, [w], done + [cur]);
        FlattenSnoc(done, cur);
      } else {
        GroupsKeepWords(words[1..], measure, spaceWidth, maxWidth, cur + [w], done);
      }
    }
  }

  lemma PackedKeepsWords(words: seq<string>, measure: string -> real, spaceWidth: real, maxWidth: real)
    ensures Flatten(Packed(words, measure, spaceWidth, maxWidth)) == words
  {
    GroupsKeepWords(words, measure, spaceWidth, maxWidth, [], []);
  }

  /** Every line after the first starts with a unit that did not fit on the line before (strictly). */
  predicate BreaksForced(gs: seq<seq<string>>, measure: string -> real, spaceWidth: real, maxWidth: real)
  {
    forall k :: 1 <= k < |gs| ==>
      gs[k] != [] && GroupWidth(gs[k - 1], measure, spaceWidth) + measure(gs[k][0]) > maxWidth
  }

  /**
   * Every unit that was appended to a line fitted: the width before it plus its advance is
   * within the budget (equality fits). The first unit of a later line is exempt: it was
   * placed there because it overflowed the previous one.
   */
  predicate WordsFit(gs: seq<seq<string>>, measure: string -> real, spaceWidth: real, maxWidth: real)
  {
    forall k, j :: 0 <= k < |gs| && 0 <= j < |gs[k]| && (k == 0 || j > 0) ==>
      GroupWidth(gs[k][..j], measure, spaceWidth) + measure(gs[k][j]) <= maxWidth
  }

  predicate Greedy(gs: seq<seq<string>>, measure: string -> real, spaceWidth: real, maxWidth: real)
  {
    BreaksForced(gs, measure, spaceWidth, maxWidth) && WordsFit(gs, measure, spaceWidth, maxWidth)
  }

  lemma BreakKeepsGreedy(done: seq<seq<string>>, cur: seq<string>, w: string,
                         measure: string -> real, spaceWidth: real, maxWidth: real)
    requires Greedy(done + [cur], measure, spaceWidth, maxWidth)
    requires GroupWidth(cur, measure, spaceWidth) + measure(w) > maxWidth
    ensures Greedy(done + [cur] + [[w]], measure, spaceWidth, maxWidth)
  {
    var gs := done + [cur];
    var gs' := gs + [[w]];
    assert forall k :: 0 <= k < |gs| ==> gs'[k] == gs[k];
    forall k, j | 0 <= k < |gs'| && 0 <= j < |gs'[k]| && (k == 0 || j > 0)
      ensures GroupWidth(gs'[k][..j], measure, spaceWidth) + measure(gs'[k][j]) <= maxWidth
    {
      assert k < |gs|;
      assert gs'[k] == gs[k];
    }
  }

  lemma ExtendKeepsGreedy(done: seq<seq<string>>, cur: seq<string>, w: string,
                          measure: string -> real, spaceWidth: real, maxWidth: real)
    requires Greedy(done + [cur], measure, spaceWidth, maxWidth)
    requires done != [] ==> cur != []
    requires GroupWidth(cur, measure, spaceWidth) + measure(w) <= maxWidth
    ensures Greedy(done + [cur + [w]], measure, spaceWidth, maxWidth)
  {
    var gs := done + [cur];
    var gs' := done + [cur + [w]];
    forall k | 1 <= k < |gs'|
      ensures gs'[k] != [] && GroupWidth(gs'[k - 1], measure, spaceWidth) + measure(gs'[k][0]) > maxWidth
    {
      assert gs'[k - 1] == gs[k - 1];
      if k < |done| {
        assert gs'[k] == gs[k];
      } else {
        assert gs[k] == cur;
        assert gs'[k][0] == cur[0];
      }
    }
    forall k, j | 0 <= k < |gs'| && 0 <= j < |gs'[k]| && (k == 0 || j > 0)
      ensures GroupWidth(gs'[k][..j], measure, spaceWidth) + measure(gs'[k][j]) <= maxWidth
    {
      if k < |done| {
        assert gs'[k] == gs[k];
      } else if j < |cur| {
        assert gs'[k][..j] == cur[..j] == gs[k][..j];
        assert gs'[k][j] == gs[k][j];
      } else {
        assert gs'[k][..j] == cur;
      }
    }
  }

  lemma {:induction false} GroupsAreGreedy(words: seq<string>, measure: string -> real, spaceWidth: real, maxWidth: real,
                                           cur: seq<string>, done: seq<seq<string>>)
    requires Greedy(done + [cur], measure, spaceWidth, maxWidth)
    requires done != [] ==> cur != []
    ensures Greedy(Groups(words, measure, spaceWidth, maxWidth, cur, done), measure, spaceWidth, maxWidth)
    decreases |words|
  {
    if words != [] {
      var w := words[0];
      if GroupWidth(cur, measure, spaceWidth) + measure(w) > maxWidth {
        BreakKeepsGreedy(done, cur, w, measure, spaceWidth, maxWidth);
        assert done + [cur] + [[w]] == (done + [cur]) + [[w]];
        GroupsAreGreedy(words[1..], measure, spaceWidth, maxWidth, [w], done + [cur]);
      } else {
        ExtendKeepsGreedy(done, cur, w, measure, spaceWidth, maxWidth);
        GroupsAreGreedy(words[1..], measure, spaceWidth, maxWidth, cur + [w], done);
      }
    }
  }

  /** The packing is greedy: it breaks exactly where the next unit would overflow. */
  lemma PackedIsGreedy(words: seq<string>, measure: string -> real, spaceWidth: real, maxWidth: real)
    ensures Greedy(Packed(words, measure, spaceWidth, maxWidth), measure, spaceWidth, maxWidth)
  {
    var none: seq<seq<string>> := [];
    var empty: seq<string> := [];
    assert none + [empty] == [empty];
    GroupsAreGreedy(words, measure, spaceWidth, maxWidth, [], []);
  }

  /** The first line is empty exactly when there are no units or the first one already overflows. */
  lemma PackedFirstLine(words: seq<string>, measure: string -> real, spaceWidth: real, maxWidth: real)
    ensures var gs := Packed(words, measure, spaceWidth, maxWidth);
            gs[0] == [] <==> (words == [] || measure(words[0]) > maxWidth)
  {
    var gs := Packed(words, measure, spaceWidth, maxWidth);
    PackedKeepsWords(words, measure, spaceWidth, maxWidth);
    PackedIsGreedy(words, measure, spaceWidth, maxWidth);
    if words != [] {
      var w := words[0];
      if measure(w) > maxWidth {
        assert GroupWidth([], measure, spaceWidth) + measure(w) > maxWidth;
        var none: seq<seq<string>> := [];
        var empty: seq<string> := [];
        assert none + [empty] == [[]];
        var rest := Groups(words[1..], measure, spaceWidth, maxWidth, [w], [[]]);
        assert gs == rest;
        assert rest[..1] == [[]];
        assert gs[0] == [];
      } else {
        var empty: seq<string> := [];
        assert empty + [w] == [w];
        var rest := Groups(words[1..], measure, spaceWidth, maxWidth, [w], []);
        assert gs == rest;
        // an empty first line would be followed by one starting with the first unit
        FirstNonEmptyLine(gs, words);
      }
    } else {
      assert gs == [[]];
    }
  }

  /** When the first line is empty, the second line starts with the first unit. */
  lemma FirstNonEmptyLine(gs: seq<seq<string>>, words: seq<string>)
    requires Flatten(gs) == words && words != [] && |gs| >= 1
    requires forall k :: 1 <= k < |gs| ==> gs[k] != []
    ensures gs[0] == [] ==> |gs| > 1 && gs[1][0] == words[0]
  {
    if gs[0] != [] {
      return;
    }
    FlattenFront(gs);
    assert Flatten(gs[1..]) == words;
    assert gs[1..] != [];
    FlattenFront(gs[1..]);
    assert gs[1..][0] == gs[1];
  }

  lemma {:induction false} FlattenFront(gs: seq<seq<string>>)
    requires gs != []
    ensures Flatten(gs) == gs[0] + Flatten(gs[1..])
    decreases |gs|
  {
    if |gs| > 1 {
      var init := gs[..|gs| - 1];
      var rest := gs[1..];
      FlattenFront(init);
      assert init[0] == gs[0];
      assert rest[..|rest| - 1] == init[1..];
      assert rest[|rest| - 1] == gs[|gs| - 1];
      calc {
        Flatten(gs);
        Flatten(init) + gs[|gs| - 1];
        gs[0] + Flatten(init[1..]) + gs[|gs| - 1];
        gs[0] + (Flatten(rest[..|rest| - 1]) + rest[|rest| - 1]);
        gs[0] + Flatten(rest);
      }
    } else {
      assert gs[1..] == [];
      assert gs[..0] == [];
    }
  }

  // ---------------------------------------------------------------------------------
  // Properties of the lines

  /** The lines of a segment spell its units, each followed by the separator. */
  function Values(ls: seq<Line>): string
    decreases |ls|
  {
    if ls == [] then "" else Values(ls[..|ls| - 1]) + ls[|ls| - 1].value
  }

  lemma {:induction false} ValuesOfLines(gs: seq<seq<string>>, measure: string -> real, spaceWidth: real, sep: string)
    ensures Values(LinesOf(gs, measure, spaceWidth, sep)) == Spelled(Flatten(gs), sep)
    decreases |gs|
  {
    if gs != [] {
      var init := gs[..|gs| - 1];
      assert LinesOf(gs, measure, spaceWidth, sep)[..|gs| - 1] == LinesOf(init, measure, spaceWidth, sep);
      ValuesOfLines(init, measure, spaceWidth, sep);
      SpelledAppend(Flatten(init), gs[|gs| - 1], sep);
    }
  }

  /** In character mode a segment's lines concatenate back to the segment. */
  lemma CharacterLinesSpellSegment(segment: string, measure: string -> real, maxWidth: real)
    ensures Values(SegmentLines(segment, Characters, measure, maxWidth)) == segment
  {
    var words := WordsOf(segment, Characters);
    PackedKeepsWords(words, measure, 0.0, maxWidth);
    ValuesOfLines(Packed(words, measure, 0.0, maxWidth), measure, 0.0, "");
    SpelledChars(segment);
  }

  /** In word mode a segment's lines concatenate to the segment followed by one space. */
  lemma WordLinesSpellSegment(segment: string, measure: string -> real, maxWidth: real)
    ensures Values(SegmentLines(segment, Words, measure, maxWidth)) == segment + " "
  {
    var words := WordsOf(segment, Words);
    var sw := SpaceWidth(Words, measure);
    PackedKeepsWords(words, measure, sw, maxWidth);
    ValuesOfLines(Packed(words, measure, sw, maxWidth), measure, sw, " ");
    SpelledWords(segment);
  }

  /** Each segment yields at least one line, so there are at least as many lines as segments. */
  lemma {:induction false} EverySegmentYieldsALine(segments: seq<string>, mode: SplitMode, measure: string -> real, maxWidth: real)
    ensures |AllSegmentLines(segments, mode, measure, maxWidth)| >= |segments|
    decreases |segments|
  {
    if segments != [] {
      EverySegmentYieldsALine(segments[..|segments| - 1], mode, measure, maxWidth);
    }
  }

  /** Null text yields no lines; text without '\n' yields exactly the lines of its one segment. */
  lemma SplitLinesCases(text: Option<string>, mode: SplitMode, measure: string -> real, maxWidth: real)
    ensures text.None? ==> SplitLinesOf(text, mode, measure, maxWidth) == []
    ensures text.Some? ==> |SplitLinesOf(text, mode, measure, maxWidth)| >= 1
    ensures text.Some? && '\n' !in text.value ==>
      SplitLinesOf(text, mode, measure, maxWidth) == SegmentLines(text.value, mode, measure, maxWidth)
  {
    if text.Some? {
      EverySegmentYieldsALine(Split(text.value, '\n'), mode, measure, maxWidth);
      if '\n' !in text.value {
        SplitWithoutSeparator(text.value, '\n');
        assert [text.value][..0] == [];
      }
    }
  }
}
