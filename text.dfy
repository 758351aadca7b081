/** Strings as the word-wrap loop sees them: `String.prototype.split(' ')`, its inverse,
    and the text a line accumulates (every word followed by one space). */
module Text {

  /** The inverse of `Split`: the words separated by single spaces. */
  function Join(words: seq<string>): (s: string)
  {
    if |words| == 0 then ""
    else if |words| == 1 then words[0]
    else words[0] + " " + Join(words[1..])
  }

  /** `s.split(' ')`: the maximal space-free pieces between the spaces of `s`, empty pieces
      included, so there is always at least one (an empty `s` gives `[""]`). */
  function Split(s: string): (words: seq<string>)
    ensures |words| >= 1
    ensures forall i :: 0 <= i < |words| ==> ' ' !in words[i]
    ensures Join(words) == s
  {
    if s == [] then [""]
    else
      var rest := Split(s[1..]);
      if s[0] == ' ' then
        assert ([""] + rest)[1..] == rest;
        assert s == " " + s[1..];
        [""] + rest
      else
        var r := [[s[0]] + rest[0]] + rest[1..];
        assert s == [s[0]] + s[1..];
        assert |rest| > 1 ==> r[1..] == rest[1..] && Join(rest) == rest[0] + " " + Join(rest[1..]);
        r
  }

  /** The string `drawMultilineText` builds for a line holding `words`:
      `words[0] + ' ' + words[1] + ' ' + ...`, each word followed by one space. */
  function LineText(words: seq<string>): (line: string)
    ensures words == [] <==> line == ""
    ensures words != [] ==> line[|line| - 1] == ' '
  {
    if words == [] then "" else LineText(words[..|words| - 1]) + words[|words| - 1] + " "
  }

  /** The words of consecutive lines, in order. */
  function Flatten(lines: seq<seq<string>>): (words: seq<string>)
  {
    if lines == [] then [] else Flatten(lines[..|lines| - 1]) + lines[|lines| - 1]
  }

  /** Building the text of two word runs one after the other gives the two texts one after the other. */
  lemma {:induction false} LineTextAppend(a: seq<string>, b: seq<string>)
    ensures LineText(a + b) == LineText(a) + LineText(b)
    decreases |b|
  {
    if b != [] {
      var b' := b[..|b| - 1];
      assert (a + b)[..|a + b| - 1] == a + b';
      assert (a + b)[|a + b| - 1] == b[|b| - 1];
      LineTextAppend(a, b');
    } else {
      assert a + b == a;
    }
  }

  /** The text of a line is its words joined by spaces, plus the trailing space. */
  lemma {:induction false} LineTextIsJoin(words: seq<string>)
    requires |words| >= 1
    ensures LineText(words) == Join(words) + " "
    decreases |words|
  {
    if |words| == 1 {
      assert words[..0] == [];
    } else {
      var rest := words[1..];
      assert words == [words[0]] + rest;
      LineTextAppend([words[0]], rest);
      assert [words[0]][..0] == [];
      LineTextIsJoin(rest);
    }
  }

  /** Splitting a space-free prefix onto the front of some text glues it to the first piece. */
  lemma {:induction false} SplitSpaceFreePrefix(a: string, rest: string)
    requires ' ' !in a
    ensures Split(a + rest) == [a + Split(rest)[0]] + Split(rest)[1..]
    decreases |a|
  {
    if a != [] {
      var s, r, tail := a + rest, Split(rest), Split(a[1..] + rest);
      assert s[0] == a[0] && a[0] != ' ';
      assert s[1..] == a[1..] + rest;
      SplitSpaceFreePrefix(a[1..], rest);
      assert tail[0] == a[1..] + r[0] && tail[1..] == r[1..];
      assert Split(s) == [[a[0]] + tail[0]] + tail[1..];
      assert [a[0]] + (a[1..] + r[0]) == a + r[0];
    } else {
      var r := Split(rest);
      assert a + rest == rest && a + r[0] == r[0];
      assert r == [r[0]] + r[1..];
    }
  }

  /** `Split` undoes `Join` on space-free words: the two are inverse on each side. */
  lemma {:induction false} SplitJoin(words: seq<string>)
    requires |words| >= 1
    requires forall i :: 0 <= i < |words| ==> ' ' !in words[i]
    ensures Split(Join(words)) == words
    decreases |words|
  {
    if |words| == 1 {
      SplitSpaceFreePrefix(words[0], "");
      assert words[0] + "" == words[0];
    } else {
      var w, rest := words[0], words[1..];
      var tail := Join(rest);
      var spaced := " " + tail;
      assert Join(words) == w + spaced;
      SplitJoin(rest);
      assert spaced[0] == ' ' && spaced[1..] == tail;
      assert Split(spaced) == [""] + rest;
      SplitSpaceFreePrefix(w, spaced);
      assert Split(w + spaced) == [w + ""] + rest;
      assert w + "" == w;
      assert words == [w] + rest;
    }
  }
}
