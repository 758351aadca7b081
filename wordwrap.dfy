/** `drawMultilineText`: greedy word wrap of a title onto canvas lines.
    The font metrics call `ctx.measureText(s).width` is the parameter `measure`. */
module WordWrap {
  import opened Canvas
  import opened Text

  /** The lines (as runs of words) that greedy wrapping gives `words`: each word in turn is
      placed after the lines of the words before it. With no words at all there is one
      empty line. */
  function Wrap(words: seq<string>, measure: string -> real, maxWidth: real): (lines: seq<seq<string>>)
    ensures |lines| >= 1
    decreases |words|
  {
    if words == [] then [[]]
    else Place(Wrap(words[..|words| - 1], measure, maxWidth), words[|words| - 1], measure, maxWidth, |words| == 1)
  }

  /** One turn of the loop on the lines built so far: a word that would make the current
      line wider than `maxWidth` opens a new line, except the very first word, which always
      goes on the first line; any other word is appended to the current line. */
  function Place(lines: seq<seq<string>>, w: string, measure: string -> real, maxWidth: real, first: bool): (placed: seq<seq<string>>)
    requires |lines| >= 1
    ensures |lines| <= |placed| <= |lines| + 1
    ensures placed[..|lines| - 1] == lines[..|lines| - 1]
    ensures var last := placed[|placed| - 1]; last != [] && last[|last| - 1] == w
  {
    var current := lines[|lines| - 1];
    if measure(LineText(current) + w + " ") > maxWidth && !first then lines + [[w]]
    else lines[..|lines| - 1] + [current + [w]]
  }

  /** What greedy wrapping means, stated on the result alone: the lines hold the words in
      order, no line is without a word (unless there are no words), every word that follows
      another word on its line kept the line within `maxWidth`, and every line after the first
      was opened because its first word did not fit on the line before. */
  ghost predicate IsGreedy(words: seq<string>, measure: string -> real, maxWidth: real, lines: seq<seq<string>>)
  {
    && |lines| >= 1
    && Flatten(lines) == words
    && (words == [] ==> |lines| == 1)
    && (words != [] ==> forall i :: 0 <= i < |lines| ==> lines[i] != [])
    && (forall i :: 0 <= i < |lines| ==> KeptWithin(lines[i], measure, maxWidth))
    && (forall i, j :: 0 <= i && j == i + 1 && j < |lines| ==> OpenedAfter(lines[i], lines[j], measure, maxWidth))
  }

  /** Line `next` was opened because its first word did not fit after line `before`. */
  ghost predicate OpenedAfter(before: seq<string>, next: seq<string>, measure: string -> real, maxWidth: real)
  {
    next != [] && measure(LineText(before) + next[0] + " ") > maxWidth
  }

  /** Every word after the first of `line` was added without making the line wider than
      `maxWidth`: each prefix of two or more words fits. */
  ghost predicate KeptWithin(line: seq<string>, measure: string -> real, maxWidth: real)
  {
    forall j :: 2 <= j <= |line| ==> measure(LineText(line[..j])) <= maxWidth
  }

  /** Opening a new line for word `w` keeps a wrapping greedy when `w` does not fit. */
  lemma GreedyOpenLine(words: seq<string>, measure: string -> real, maxWidth: real, lines: seq<seq<string>>, w: string)
    requires IsGreedy(words, measure, maxWidth, lines) && words != []
    requires measure(LineText(lines[|lines| - 1]) + w + " ") > maxWidth
    ensures IsGreedy(words + [w], measure, maxWidth, lines + [[w]])
  {
    var lines' := lines + [[w]];
    assert lines'[..|lines|] == lines;
    assert KeptWithin([w], measure, maxWidth);
    forall i, j | 0 <= i && j == i + 1 && j < |lines'|
      ensures OpenedAfter(lines'[i], lines'[j], measure, maxWidth)
    {
      if j < |lines| {
        assert OpenedAfter(lines[i], lines[j], measure, maxWidth);
      }
    }
  }

  /** The first word goes on the first line, whatever its width. */
  lemma GreedyFirstWord(measure: string -> real, maxWidth: real, w: string)
    ensures IsGreedy([w], measure, maxWidth, [[w]])
  {
    assert [[w]][..0] == [];
    assert [w][..0] == [];
  }

  /** Putting word `w` on the current line keeps a wrapping greedy when `w` fits there. */
  lemma GreedyExtendLine(words: seq<string>, measure: string -> real, maxWidth: real, lines: seq<seq<string>>, w: string)
    requires IsGreedy(words, measure, maxWidth, lines) && words != []
    requires measure(LineText(lines[|lines| - 1]) + w + " ") <= maxWidth
    ensures IsGreedy(words + [w], measure, maxWidth, lines[..|lines| - 1] + [lines[|lines| - 1] + [w]])
  {
    var others, current := lines[..|lines| - 1], lines[|lines| - 1];
    assert lines == others + [current];
    FlattenSnoc(others, current);
    FlattenSnoc(others, current + [w]);
    assert Flatten(others) + (current + [w]) == words + [w];
    ExtendAllKept(lines, w, measure, maxWidth);
    ExtendOpened(lines, w, measure, maxWidth);
  }

  /** Adding a word that fits (or a first word) to the last line: every line still kept
      within `maxWidth`, and every line holds a word. */
  lemma ExtendAllKept(lines: seq<seq<string>>, w: string, measure: string -> real, maxWidth: real)
    requires |lines| >= 1
    requires forall i :: 0 <= i < |lines| ==> KeptWithin(lines[i], measure, maxWidth)
    requires forall i :: 0 <= i < |lines| - 1 ==> lines[i] != []
    requires lines[|lines| - 1] == [] || measure(LineText(lines[|lines| - 1]) + w + " ") <= maxWidth
    ensures var lines' := lines[..|lines| - 1] + [lines[|lines| - 1] + [w]];
      forall i :: 0 <= i < |lines'| ==> KeptWithin(lines'[i], measure, maxWidth) && lines'[i] != []
  {
    var others, current := lines[..|lines| - 1], lines[|lines| - 1];
    var lines' := others + [current + [w]];
    ExtendKept(current, w, measure, maxWidth);
    forall i | 0 <= i < |lines'|
      ensures KeptWithin(lines'[i], measure, maxWidth) && lines'[i] != []
    {
      if i < |others| {
        assert lines'[i] == lines[i];
      }
    }
  }

  /** Adding a word to the last line leaves every line break where it was: the lines
      before the last, and the first word of every line, stay as they are. */
  lemma ExtendOpened(lines: seq<seq<string>>, w: string, measure: string -> real, maxWidth: real)
    requires |lines| >= 1
    requires forall i, j :: 0 <= i && j == i + 1 && j < |lines| ==> OpenedAfter(lines[i], lines[j], measure, maxWidth)
    ensures var lines' := lines[..|lines| - 1] + [lines[|lines| - 1] + [w]];
      forall i, j :: 0 <= i && j == i + 1 && j < |lines'| ==> OpenedAfter(lines'[i], lines'[j], measure, maxWidth)
  {
    var lines' := lines[..|lines| - 1] + [lines[|lines| - 1] + [w]];
    forall i, j | 0 <= i && j == i + 1 && j < |lines'|
      ensures OpenedAfter(lines'[i], lines'[j], measure, maxWidth)
    {
      assert lines'[i] == lines[i];
      assert OpenedAfter(lines[i], lines[j], measure, maxWidth);
      assert lines'[j][0] == lines[j][0];
    }
  }

  /** A line that kept within `maxWidth` still does with a word added that fits after it
      (or with a first word). */
  lemma ExtendKept(current: seq<string>, w: string, measure: string -> real, maxWidth: real)
    requires KeptWithin(current, measure, maxWidth)
    requires current == [] || measure(LineText(current) + w + " ") <= maxWidth
    ensures KeptWithin(current + [w], measure, maxWidth)
  {
    var line := current + [w];
    assert line[..|current|] == current;
    forall j | 2 <= j <= |line|
      ensures measure(LineText(line[..j])) <= maxWidth
    {
      if j == |line| {
        assert line[..j] == line;
      } else {
        assert line[..j] == current[..j];
      }
    }
  }

  /** `Wrap` is a greedy wrapping. */
  lemma {:induction false} WrapIsGreedy(words: seq<string>, measure: string -> real, maxWidth: real)
    ensures IsGreedy(words, measure, maxWidth, Wrap(words, measure, maxWidth))
    decreases |words|
  {
    if words != [] {
      var front, w := words[..|words| - 1], words[|words| - 1];
      var prev := Wrap(front, measure, maxWidth);
      WrapIsGreedy(front, measure, maxWidth);
      assert words == front + [w];
      if |words| == 1 {
        assert front == [] && words == [w];
        PlaceExtends(prev, w, measure, maxWidth, true);
        assert [] + [w] == [w];
        GreedyFirstWord(measure, maxWidth, w);
      } else if measure(LineText(prev[|prev| - 1]) + w + " ") > maxWidth {
        PlaceOpens(prev, w, measure, maxWidth, false);
        GreedyOpenLine(front, measure, maxWidth, prev, w);
      } else {
        PlaceExtends(prev, w, measure, maxWidth, false);
        GreedyExtendLine(front, measure, maxWidth, prev, w);
      }
    }
  }

  /** The last word of the words spread over lines ends the last line, when that is not empty. */
  lemma GreedyLastWord(words: seq<string>, lines: seq<seq<string>>)
    requires |lines| >= 1 && Flatten(lines) == words && lines[|lines| - 1] != []
    ensures var others, current := lines[..|lines| - 1], lines[|lines| - 1];
      && words != []
      && current[|current| - 1] == words[|words| - 1]
      && words[..|words| - 1] == Flatten(others) + current[..|current| - 1]
  {
    var others, current := lines[..|lines| - 1], lines[|lines| - 1];
    var shorter, last := current[..|current| - 1], current[|current| - 1];
    assert current == shorter + [last];
    var rest := Flatten(others) + shorter;
    assert words == rest + [last];
    assert words[..|words| - 1] == rest;
  }

  /** A last line holding only the last word was opened because that word did not fit;
      the lines before it wrap the other words greedily, and placing the word after them
      gives `lines` back. */
  lemma GreedyDropLine(words: seq<string>, measure: string -> real, maxWidth: real, lines: seq<seq<string>>)
    requires IsGreedy(words, measure, maxWidth, lines) && words != []
    requires |lines| > 1 && |lines[|lines| - 1]| == 1
    ensures var others := lines[..|lines| - 1];
      && IsGreedy(words[..|words| - 1], measure, maxWidth, others)
      && lines == Place(others, words[|words| - 1], measure, maxWidth, |words| == 1)
  {
    var others, current := lines[..|lines| - 1], lines[|lines| - 1];
    var w := words[|words| - 1];
    GreedyLastWord(words, lines);
    assert current[..0] == [];
    assert Flatten(others) + [] == Flatten(others);
    assert words[..|words| - 1] == Flatten(others);
    assert others[0] == lines[0];
    FlattenKeepsFirst(others);
    forall i | 0 <= i < |others|
      ensures KeptWithin(others[i], measure, maxWidth) && others[i] != []
    {
      assert others[i] == lines[i];
    }
    forall i, j | 0 <= i && j == i + 1 && j < |others|
      ensures OpenedAfter(others[i], others[j], measure, maxWidth)
    {
      assert others[i] == lines[i] && others[j] == lines[j];
      assert OpenedAfter(lines[i], lines[j], measure, maxWidth);
    }
    assert OpenedAfter(lines[|others| - 1], lines[|others|], measure, maxWidth);
    ShortenLast(lines);
    assert [] + [w] == [w];
    PlaceOpens(others, w, measure, maxWidth, |words| == 1);
  }

  /** A single line holding a single word: the word was the first, placed on the empty line. */
  lemma GreedyDropOnly(words: seq<string>, measure: string -> real, maxWidth: real, lines: seq<seq<string>>)
    requires IsGreedy(words, measure, maxWidth, lines) && words != []
    requires |lines| == 1 && |lines[0]| == 1
    ensures IsGreedy(words[..|words| - 1], measure, maxWidth, [[]])
    ensures lines == Place([[]], words[|words| - 1], measure, maxWidth, |words| == 1)
  {
    var w := words[|words| - 1];
    GreedyLastWord(words, lines);
    assert lines[..0] == [];
    assert lines[0] == [w];
    assert lines == [lines[0]];
    assert words == Flatten([]) + lines[0];
    assert words[..|words| - 1] == [];
    assert Flatten([[]]) == Flatten([]) + [];
    PlaceExtends([[]], w, measure, maxWidth, true);
    assert lines == [[] + [w]];
  }

  /** The lines of a greedy wrapping with a word less on the last one: all but the last are
      unchanged, so every line still kept within `maxWidth` and is non-empty. */
  lemma DropWordKept(measure: string -> real, maxWidth: real, lines: seq<seq<string>>)
    requires |lines| >= 1 && |lines[|lines| - 1]| >= 2
    requires forall i :: 0 <= i < |lines| ==> KeptWithin(lines[i], measure, maxWidth) && lines[i] != []
    ensures var current := lines[|lines| - 1];
      var lines' := lines[..|lines| - 1] + [current[..|current| - 1]];
      forall i :: 0 <= i < |lines'| ==> KeptWithin(lines'[i], measure, maxWidth) && lines'[i] != []
  {
    var others, current := lines[..|lines| - 1], lines[|lines| - 1];
    var shorter := current[..|current| - 1];
    var lines' := others + [shorter];
    forall i | 0 <= i < |lines'|
      ensures KeptWithin(lines'[i], measure, maxWidth) && lines'[i] != []
    {
      if i < |others| {
        assert lines'[i] == lines[i];
      } else {
        assert KeptWithin(current, measure, maxWidth);
        forall j | 2 <= j <= |shorter|
          ensures measure(LineText(shorter[..j])) <= maxWidth
        {
          assert shorter[..j] == current[..j];
        }
      }
    }
  }

  /** The same lines still open where they did: a break depends only on the line before it
      and the first word after it, and neither changes. */
  lemma DropWordOpened(measure: string -> real, maxWidth: real, lines: seq<seq<string>>)
    requires |lines| >= 1 && |lines[|lines| - 1]| >= 2
    requires forall i, j :: 0 <= i && j == i + 1 && j < |lines| ==> OpenedAfter(lines[i], lines[j], measure, maxWidth)
    ensures var current := lines[|lines| - 1];
      var lines' := lines[..|lines| - 1] + [current[..|current| - 1]];
      forall i, j :: 0 <= i && j == i + 1 && j < |lines'| ==> OpenedAfter(lines'[i], lines'[j], measure, maxWidth)
  {
    var others, current := lines[..|lines| - 1], lines[|lines| - 1];
    var lines' := others + [current[..|current| - 1]];
    forall i, j | 0 <= i && j == i + 1 && j < |lines'|
      ensures OpenedAfter(lines'[i], lines'[j], measure, maxWidth)
    {
      assert lines'[i] == lines[i];
      assert lines'[j][0] == lines[j][0];
      assert OpenedAfter(lines[i], lines[j], measure, maxWidth);
    }
  }

  /** A last word that shares its line with others fitted there; taking it off leaves a
      greedy wrapping of the other words, and placing it again gives `lines` back. */
  lemma GreedyDropWord(words: seq<string>, measure: string -> real, maxWidth: real, lines: seq<seq<string>>)
    requires IsGreedy(words, measure, maxWidth, lines) && words != []
    requires |lines[|lines| - 1]| >= 2
    ensures var others, current := lines[..|lines| - 1], lines[|lines| - 1];
      var shorter := current[..|current| - 1];
      && IsGreedy(words[..|words| - 1], measure, maxWidth, others + [shorter])
      && lines == Place(others + [shorter], words[|words| - 1], measure, maxWidth, |words| == 1)
  {
    var others, current := lines[..|lines| - 1], lines[|lines| - 1];
    var shorter := current[..|current| - 1];
    var lines' := others + [shorter];
    GreedyLastWord(words, lines);
    ShortenLast(lines);
    FlattenSnoc(others, shorter);
    DropWordKept(measure, maxWidth, lines);
    DropWordOpened(measure, maxWidth, lines);
    LastWordFits(current, measure, maxWidth);
    PlaceExtends(lines', words[|words| - 1], measure, maxWidth, |words| == 1);
  }

  /** Taking the last word off the last line, and putting it back. */
  lemma ShortenLast(lines: seq<seq<string>>)
    requires |lines| >= 1 && lines[|lines| - 1] != []
    ensures var others, current := lines[..|lines| - 1], lines[|lines| - 1];
      var shorter := current[..|current| - 1];
      var lines' := others + [shorter];
      && lines'[..|lines'| - 1] == others
      && lines'[|lines'| - 1] == shorter
      && lines == others + [shorter + [current[|current| - 1]]]
  {
    var others, current := lines[..|lines| - 1], lines[|lines| - 1];
    var shorter := current[..|current| - 1];
    var lines' := others + [shorter];
    assert lines'[..|others|] == others;
    assert current == shorter + [current[|current| - 1]];
    assert lines == others + [current];
  }

  /** The words of lines with one more line at the end. */
  lemma FlattenSnoc(lines: seq<seq<string>>, line: seq<string>)
    ensures Flatten(lines + [line]) == Flatten(lines) + line
  {
    assert (lines + [line])[..|lines|] == lines;
  }

  /** The last word of a line that kept within `maxWidth` fitted after the words before it. */
  lemma LastWordFits(line: seq<string>, measure: string -> real, maxWidth: real)
    requires |line| >= 2 && KeptWithin(line, measure, maxWidth)
    ensures measure(LineText(line[..|line| - 1]) + line[|line| - 1] + " ") <= maxWidth
  {
    assert line[..|line|] == line;
  }

  /** Taking the last word off a greedy wrapping leaves a greedy wrapping `before` of the
      other words, and placing the word after `before` gives `lines` back. */
  lemma GreedyDropLast(words: seq<string>, measure: string -> real, maxWidth: real, lines: seq<seq<string>>)
    returns (before: seq<seq<string>>)
    requires IsGreedy(words, measure, maxWidth, lines) && words != []
    ensures IsGreedy(words[..|words| - 1], measure, maxWidth, before)
    ensures lines == Place(before, words[|words| - 1], measure, maxWidth, |words| == 1)
  {
    var current := lines[|lines| - 1];
    if |current| >= 2 {
      GreedyDropWord(words, measure, maxWidth, lines);
      before := lines[..|lines| - 1] + [current[..|current| - 1]];
    } else if |lines| > 1 {
      GreedyDropLine(words, measure, maxWidth, lines);
      before := lines[..|lines| - 1];
    } else {
      GreedyDropOnly(words, measure, maxWidth, lines);
      before := [[]];
    }
  }

  /** A greedy wrapping is unique, so it is the one `Wrap` computes. */
  lemma {:induction false} GreedyIsWrap(words: seq<string>, measure: string -> real, maxWidth: real, lines: seq<seq<string>>)
    requires IsGreedy(words, measure, maxWidth, lines)
    ensures lines == Wrap(words, measure, maxWidth)
    decreases |words|
  {
    if words == [] {
      assert lines[..0] == [];
      assert lines == [lines[0]];
    } else {
      var before := GreedyDropLast(words, measure, maxWidth, lines);
      GreedyIsWrap(words[..|words| - 1], measure, maxWidth, before);
    }
  }

  /** The first line of a run of non-empty lines starts the flattened words. */
  lemma {:induction false} FlattenKeepsFirst(lines: seq<seq<string>>)
    requires |lines| >= 1 && lines[0] != []
    ensures Flatten(lines) != [] && Flatten(lines)[0] == lines[0][0]
    decreases |lines|
  {
    if |lines| > 1 {
      FlattenKeepsFirst(lines[..|lines| - 1]);
    } else {
      assert lines[..0] == [];
    }
  }

  /** Non-empty lines hold at least one word each. */
  lemma {:induction false} FlattenLength(lines: seq<seq<string>>)
    requires forall i :: 0 <= i < |lines| ==> lines[i] != []
    ensures |Flatten(lines)| >= |lines|
    decreases |lines|
  {
    if lines != [] {
      FlattenLength(lines[..|lines| - 1]);
    }
  }

  /** Line count: at least one line, at most one per word, and each line holds a word. */
  lemma LineCountBounds(words: seq<string>, measure: string -> real, maxWidth: real)
    requires |words| >= 1
    ensures var lines := Wrap(words, measure, maxWidth);
      && 1 <= |lines| <= |words|
      && forall i :: 0 <= i < |lines| ==> lines[i] != []
  {
    var lines := Wrap(words, measure, maxWidth);
    WrapIsGreedy(words, measure, maxWidth);
    FlattenLength(lines);
  }

  /** A line that holds two or more words fits within `maxWidth`; only a single word too
      wide for any line can leave a line wider than that. */
  lemma FullLinesFit(words: seq<string>, measure: string -> real, maxWidth: real, i: nat)
    requires i < |Wrap(words, measure, maxWidth)|
    requires |Wrap(words, measure, maxWidth)[i]| >= 2
    ensures measure(LineText(Wrap(words, measure, maxWidth)[i])) <= maxWidth
  {
    var lines := Wrap(words, measure, maxWidth);
    WrapIsGreedy(words, measure, maxWidth);
    assert KeptWithin(lines[i], measure, maxWidth);
    assert lines[i][..|lines[i]|] == lines[i];
  }

  /** The baseline of line `k` of a block whose first line is at `y`: one `lineHeight` further
      down per line break. */
  function LineY(y: real, k: nat, lineHeight: real): (baseline: real)
    ensures lineHeight >= 0.0 ==> baseline >= y
    ensures lineHeight > 0.0 && k > 0 ==> baseline > y
  {
    if k == 0 then y else LineY(y, k - 1, lineHeight) + lineHeight
  }

  /** The baselines advance by exactly `lineHeight`: line `k` is at `y + k * lineHeight`. */
  lemma {:induction false} LineYIsLinear(y: real, k: nat, lineHeight: real)
    ensures LineY(y, k, lineHeight) == y + k as real * lineHeight
  {
    if k > 0 {
      LineYIsLinear(y, k - 1, lineHeight);
      assert k as real * lineHeight == (k - 1) as real * lineHeight + lineHeight;
    }
  }

  /** The height of a block of `lineCount` lines: the offset of the baseline one line below
      the last. */
  function BlockHeight(lineCount: nat, lineHeight: real): (h: real)
    ensures lineHeight >= 0.0 ==> h >= 0.0
    ensures lineHeight > 0.0 && lineCount > 0 ==> h > 0.0
  {
    LineY(0.0, lineCount, lineHeight)
  }

  /** A block of `lineCount` lines is `lineCount * lineHeight` high. */
  lemma BlockHeightIsProduct(lineCount: nat, lineHeight: real)
    ensures BlockHeight(lineCount, lineHeight) == lineCount as real * lineHeight
  {
    LineYIsLinear(0.0, lineCount, lineHeight);
  }

  /** The `fillText` calls that draw `lines` one `lineHeight` apart, the first at `y`. */
  function LineCalls(lines: seq<seq<string>>, x: real, y: real, lineHeight: real): (calls: seq<DrawCall>)
    ensures |calls| == |lines|
  {
    if lines == [] then []
    else LineCalls(lines[..|lines| - 1], x, y, lineHeight)
         + [FillText(LineText(lines[|lines| - 1]), x, LineY(y, |lines| - 1, lineHeight))]
  }

  /** The k-th line is drawn on its own call, at `y + k * lineHeight`. */
  lemma {:induction false} LineCallsAt(lines: seq<seq<string>>, x: real, y: real, lineHeight: real, k: nat)
    requires k < |lines|
    ensures LineCalls(lines, x, y, lineHeight)[k] == FillText(LineText(lines[k]), x, LineY(y, k, lineHeight))
    decreases |lines|
  {
    var front := lines[..|lines| - 1];
    var calls := LineCalls(lines, x, y, lineHeight);
    assert calls[..|front|] == LineCalls(front, x, y, lineHeight);
    if k < |front| {
      LineCallsAt(front, x, y, lineHeight, k);
      assert front[k] == lines[k];
      assert calls[k] == calls[..|front|][k];
    }
  }

  /** The text a draw log spells out: its `fillText` strings, concatenated in order. */
  function Spelled(calls: seq<DrawCall>): (text: string)
  {
    if calls == [] then ""
    else
      var last := calls[|calls| - 1];
      Spelled(calls[..|calls| - 1]) + (if last.FillText? then last.text else "")
  }

  /** Drawing lines spells their words, each followed by a space. */
  lemma {:induction false} SpelledLineCalls(lines: seq<seq<string>>, x: real, y: real, lineHeight: real)
    ensures Spelled(LineCalls(lines, x, y, lineHeight)) == LineText(Flatten(lines))
    decreases |lines|
  {
    if lines != [] {
      var front := lines[..|lines| - 1];
      var calls := LineCalls(lines, x, y, lineHeight);
      SpelledLineCalls(front, x, y, lineHeight);
      assert calls[..|calls| - 1] == LineCalls(front, x, y, lineHeight);
      LineTextAppend(Flatten(front), lines[|lines| - 1]);
    }
  }

  /** No word of the text is lost, repeated or reordered: the wrapped lines spell the
      text back, with one trailing space. */
  lemma WrapSpellsText(text: string, measure: string -> real, maxWidth: real, x: real, y: real, lineHeight: real)
    ensures Spelled(LineCalls(Wrap(Split(text), measure, maxWidth), x, y, lineHeight)) == text + " "
  {
    var words := Split(text);
    WrapIsGreedy(words, measure, maxWidth);
    SpelledLineCalls(Wrap(words, measure, maxWidth), x, y, lineHeight);
    LineTextIsJoin(words);
  }

  /** The variables of `drawMultilineText`'s loop: the calls made so far, the line being
      built, the number of line breaks and the baseline of the line being built. */
  datatype LoopState = LoopState(drawn: seq<DrawCall>, line: string, lineCount: nat, currentY: real)

  /** The loop's variables once `lines` have been built: every line but the last has been
      drawn, the last is still being built. */
  function StateOf(lines: seq<seq<string>>, x: real, y: real, lineHeight: real): (s: LoopState)
    requires |lines| >= 1
  {
    LoopState(LineCalls(lines[..|lines| - 1], x, y, lineHeight), LineText(lines[|lines| - 1]),
              |lines| - 1, LineY(y, |lines| - 1, lineHeight))
  }

  /** The loop's variables after its first `n` words, read off the wrap of those words. */
  function After(words: seq<string>, n: nat, measure: string -> real, maxWidth: real, x: real, y: real, lineHeight: real): (s: LoopState)
    requires n <= |words|
  {
    StateOf(Wrap(words[..n], measure, maxWidth), x, y, lineHeight)
  }

  /** Before any word: nothing drawn, an empty line, no break, the baseline at `y`. */
  lemma LoopStart(words: seq<string>, measure: string -> real, maxWidth: real, x: real, y: real, lineHeight: real)
    ensures After(words, 0, measure, maxWidth, x, y, lineHeight) == LoopState([], "", 0, y)
  {
    assert words[..0] == [];
  }

  /** A turn of the loop where word `n` is not the first and does not fit: the pending line
      is drawn, and a new line starts with the word one `lineHeight` lower. */
  lemma LoopBreak(words: seq<string>, n: nat, measure: string -> real, maxWidth: real, x: real, y: real, lineHeight: real)
    requires n < |words| && n > 0
    requires measure(After(words, n, measure, maxWidth, x, y, lineHeight).line + words[n] + " ") > maxWidth
    ensures var s := After(words, n, measure, maxWidth, x, y, lineHeight);
      After(words, n + 1, measure, maxWidth, x, y, lineHeight)
        == LoopState(s.drawn + [FillText(s.line, x, s.currentY)], words[n] + " ", s.lineCount + 1, s.currentY + lineHeight)
  {
    var lines, w := Wrap(words[..n], measure, maxWidth), words[n];
    assert After(words, n, measure, maxWidth, x, y, lineHeight) == StateOf(lines, x, y, lineHeight);
    WrapStep(words, measure, maxWidth, n);
    PlaceOpens(lines, w, measure, maxWidth, n == 0);
    assert After(words, n + 1, measure, maxWidth, x, y, lineHeight) == StateOf(lines + [[w]], x, y, lineHeight);
    BreakStep(lines, w, x, y, lineHeight);
  }

  /** A turn of the loop where word `n` fits, or is the first word: it is appended to the
      pending line and nothing is drawn. */
  lemma LoopAppend(words: seq<string>, n: nat, measure: string -> real, maxWidth: real, x: real, y: real, lineHeight: real)
    requires n < |words|
    requires n == 0 || measure(After(words, n, measure, maxWidth, x, y, lineHeight).line + words[n] + " ") <= maxWidth
    ensures var s := After(words, n, measure, maxWidth, x, y, lineHeight);
      After(words, n + 1, measure, maxWidth, x, y, lineHeight) == s.(line := s.line + words[n] + " ")
  {
    var lines, w := Wrap(words[..n], measure, maxWidth), words[n];
    assert After(words, n, measure, maxWidth, x, y, lineHeight) == StateOf(lines, x, y, lineHeight);
    WrapStep(words, measure, maxWidth, n);
    PlaceExtends(lines, w, measure, maxWidth, n == 0);
    assert After(words, n + 1, measure, maxWidth, x, y, lineHeight)
      == StateOf(lines[..|lines| - 1] + [lines[|lines| - 1] + [w]], x, y, lineHeight);
    AppendStep(lines, w, x, y, lineHeight);
  }

  /** One step of `Wrap`: the lines of `words[..n + 1]` place word `n` after those of `words[..n]`. */
  lemma WrapStep(words: seq<string>, measure: string -> real, maxWidth: real, n: nat)
    requires n < |words|
    ensures Wrap(words[..n + 1], measure, maxWidth) == Place(Wrap(words[..n], measure, maxWidth), words[n], measure, maxWidth, n == 0)
  {
    assert words[..n + 1][..n] == words[..n];
  }

  /** A word that does not fit, and is not the first, opens a new line. */
  lemma PlaceOpens(lines: seq<seq<string>>, w: string, measure: string -> real, maxWidth: real, first: bool)
    requires |lines| >= 1 && !first
    requires measure(LineText(lines[|lines| - 1]) + w + " ") > maxWidth
    ensures Place(lines, w, measure, maxWidth, first) == lines + [[w]]
  {
  }

  /** A word that fits, or the first word, goes on the current line. */
  lemma PlaceExtends(lines: seq<seq<string>>, w: string, measure: string -> real, maxWidth: real, first: bool)
    requires |lines| >= 1
    requires first || measure(LineText(lines[|lines| - 1]) + w + " ") <= maxWidth
    ensures Place(lines, w, measure, maxWidth, first) == lines[..|lines| - 1] + [lines[|lines| - 1] + [w]]
  {
  }

  /** Opening a new line: the pending line joins the drawn ones, and the new line is `w`. */
  lemma BreakStep(lines: seq<seq<string>>, w: string, x: real, y: real, lineHeight: real)
    requires |lines| >= 1
    ensures var s := StateOf(lines, x, y, lineHeight);
      StateOf(lines + [[w]], x, y, lineHeight)
        == LoopState(s.drawn + [FillText(s.line, x, s.currentY)], w + " ", s.lineCount + 1, s.currentY + lineHeight)
  {
    var lines' := lines + [[w]];
    assert lines'[..|lines'| - 1] == lines;
    assert lines[..|lines|] == lines;
    assert [w][..0] == [];
    assert LineText([w]) == LineText([]) + w + " ";
  }

  /** Appending to the current line: the drawn lines stay as they are. */
  lemma AppendStep(lines: seq<seq<string>>, w: string, x: real, y: real, lineHeight: real)
    requires |lines| >= 1
    ensures var s := StateOf(lines, x, y, lineHeight);
      StateOf(lines[..|lines| - 1] + [lines[|lines| - 1] + [w]], x, y, lineHeight) == s.(line := s.line + w + " ")
  {
    var current := lines[|lines| - 1];
    var lines' := lines[..|lines| - 1] + [current + [w]];
    assert lines'[..|lines'| - 1] == lines[..|lines| - 1];
    assert (current + [w])[..|current|] == current;
  }

  /** One turn of the loop on its variables, for the word `w`; `first` says whether `w` is
      the first word. */
  function Turn(s: LoopState, w: string, first: bool, measure: string -> real, maxWidth: real, x: real, lineHeight: real): (next: LoopState)
    ensures next.lineCount == s.lineCount || next.lineCount == s.lineCount + 1
  {
    var testLine := s.line + w + " ";
    if measure(testLine) > maxWidth && !first then
      LoopState(s.drawn + [FillText(s.line, x, s.currentY)], w + " ", s.lineCount + 1, s.currentY + lineHeight)
    else
      s.(line := testLine)
  }

  /** The loop's variables after `n` turns, the turns taken one by one. */
  function Run(words: seq<string>, n: nat, measure: string -> real, maxWidth: real, x: real, y: real, lineHeight: real): (s: LoopState)
    requires n <= |words|
    ensures s.lineCount <= n
  {
    if n == 0 then LoopState([], "", 0, y)
    else Turn(Run(words, n - 1, measure, maxWidth, x, y, lineHeight), words[n - 1], n == 1, measure, maxWidth, x, lineHeight)
  }

  /** Taking the turns one by one leaves the loop's variables where the wrap of the words
      so far puts them. */
  lemma {:induction false} RunIsAfter(words: seq<string>, n: nat, measure: string -> real, maxWidth: real, x: real, y: real, lineHeight: real)
    requires n <= |words|
    ensures Run(words, n, measure, maxWidth, x, y, lineHeight) == After(words, n, measure, maxWidth, x, y, lineHeight)
    decreases n
  {
    if n == 0 {
      LoopStart(words, measure, maxWidth, x, y, lineHeight);
    } else {
      var m := n - 1;
      var before := Run(words, m, measure, maxWidth, x, y, lineHeight);
      assert Run(words, n, measure, maxWidth, x, y, lineHeight)
        == Turn(before, words[m], m == 0, measure, maxWidth, x, lineHeight);
      RunIsAfter(words, m, measure, maxWidth, x, y, lineHeight);
      RunStep(words, m, measure, maxWidth, x, y, lineHeight);
      assert m + 1 == n;
    }
  }

  /** A turn from where the wrap of the first `n` words puts the variables leads to where
      the wrap of the first `n + 1` words puts them. */
  lemma RunStep(words: seq<string>, n: nat, measure: string -> real, maxWidth: real, x: real, y: real, lineHeight: real)
    requires n < |words|
    ensures Turn(After(words, n, measure, maxWidth, x, y, lineHeight), words[n], n == 0, measure, maxWidth, x, lineHeight)
      == After(words, n + 1, measure, maxWidth, x, y, lineHeight)
  {
    var s := After(words, n, measure, maxWidth, x, y, lineHeight);
    if measure(s.line + words[n] + " ") > maxWidth && n > 0 {
      LoopBreak(words, n, measure, maxWidth, x, y, lineHeight);
    } else {
      LoopAppend(words, n, measure, maxWidth, x, y, lineHeight);
    }
  }

  /** After the last word, drawing the pending line completes the calls for all lines. */
  lemma LoopEnd(words: seq<string>, measure: string -> real, maxWidth: real, x: real, y: real, lineHeight: real)
    ensures var s := After(words, |words|, measure, maxWidth, x, y, lineHeight);
      && s.drawn + [FillText(s.line, x, s.currentY)] == LineCalls(Wrap(words, measure, maxWidth), x, y, lineHeight)
      && s.lineCount + 1 == |Wrap(words, measure, maxWidth)|
  {
    var lines := Wrap(words, measure, maxWidth);
    assert words[..|words|] == words;
    assert After(words, |words|, measure, maxWidth, x, y, lineHeight)
      == LoopState(LineCalls(lines[..|lines| - 1], x, y, lineHeight), LineText(lines[|lines| - 1]),
                   |lines| - 1, LineY(y, |lines| - 1, lineHeight));
  }

  /** `drawMultilineText`: wraps `text` at `maxWidth`, draws each line centred on `x` one
      `lineHeight` below the previous one starting at `y`, and returns the height of the
      block, the number of lines times `lineHeight`. */
  method DrawMultilineText(text: string, x: real, y: real, maxWidth: real, lineHeight: real, measure: string -> real)
    returns (calls: seq<DrawCall>, blockHeight: real)
    ensures calls == LineCalls(Wrap(Split(text), measure, maxWidth), x, y, lineHeight)
    ensures 1 <= |calls| <= |Split(text)|
    ensures blockHeight == BlockHeight(|calls|, lineHeight)
    ensures Spelled(calls) == text + " "
    ensures forall k :: 0 <= k < |calls| ==> calls[k].FillText? && calls[k].x == x && calls[k].y == LineY(y, k, lineHeight)
  {
    var lineCount;
    calls, lineCount := FillLines(text, x, y, maxWidth, lineHeight, measure);
    blockHeight := lineCount as real * lineHeight;
    BlockHeightIsProduct(lineCount, lineHeight);
    DrawnLines(text, measure, maxWidth, x, y, lineHeight);
  }

  /** The loop of `drawMultilineText`: it builds each line word by word, emits a line with
      `fillText` whenever the next word does not fit (never before the first word), and
      emits the last line after the loop. It returns the calls and the number of lines. */
  method FillLines(text: string, x: real, y: real, maxWidth: real, lineHeight: real, measure: string -> real)
    returns (calls: seq<DrawCall>, lineCount: nat)
    ensures lineCount == |calls|
    ensures calls == LineCalls(Wrap(Split(text), measure, maxWidth), x, y, lineHeight)
  {
    var words := Split(text);
    var line := "";
    var currentY := y;
    lineCount := 0;
    calls := [];
    for n := 0 to |words|
      invariant LoopState(calls, line, lineCount, currentY) == Run(words, n, measure, maxWidth, x, y, lineHeight)
    {
      var testLine := line + words[n] + " ";
      var testWidth := measure(testLine);
      if testWidth > maxWidth && n > 0 {
        calls := calls + [FillText(line, x, currentY)];
        line := words[n] + " ";
        currentY := currentY + lineHeight;
        lineCount := lineCount + 1;
      } else {
        line := testLine;
      }
    }
    RunIsAfter(words, |words|, measure, maxWidth, x, y, lineHeight);
    LoopEnd(words, measure, maxWidth, x, y, lineHeight);
    calls := calls + [FillText(line, x, currentY)];
    lineCount := lineCount + 1;
  }

  /** What the calls that draw a wrapped text say: one call per line, at least one line and
      at most one per word, the words spelled back in order, and the k-th baseline at `LineY`. */
  lemma DrawnLines(text: string, measure: string -> real, maxWidth: real, x: real, y: real, lineHeight: real)
    ensures var calls := LineCalls(Wrap(Split(text), measure, maxWidth), x, y, lineHeight);
      && 1 <= |calls| <= |Split(text)|
      && Spelled(calls) == text + " "
      && forall k :: 0 <= k < |calls| ==> calls[k].FillText? && calls[k].x == x && calls[k].y == LineY(y, k, lineHeight)
  {
    var lines := Wrap(Split(text), measure, maxWidth);
    LineCountBounds(Split(text), measure, maxWidth);
    WrapSpellsText(text, measure, maxWidth, x, y, lineHeight);
    forall k | 0 <= k < |lines|
      ensures LineCalls(lines, x, y, lineHeight)[k].FillText?
      ensures LineCalls(lines, x, y, lineHeight)[k].x == x
      ensures LineCalls(lines, x, y, lineHeight)[k].y == LineY(y, k, lineHeight)
    {
      LineCallsAt(lines, x, y, lineHeight, k);
    }
  }
}
