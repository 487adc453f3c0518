/** Greedy word-wrap of the school name into title lines (app.py:37-48).
    The text measure is any function from strings to integers: nothing here
    assumes that it is additive or monotone. */
module Wrap {
  import opened PyText

  /** The trial line `f"{line} {word}".strip()` of app.py:42 for a line
      that has no whitespace at its ends and a word: the word alone when the
      line is empty, else the line, one space and the word. */
  function TrialLine(line: string, word: string): (r: string)
    ensures Trimmed(line) && IsWord(word) ==> Trimmed(r) && r != ""
  {
    if line == "" then word else line + " " + word
  }

  /** What app.py:42 computes is indeed the trial line. */
  lemma TrialLineIsStrip(line: string, word: string)
    requires Trimmed(line) && IsWord(word)
    ensures Strip(line + " " + word) == TrialLine(line, word)
  {
    var s := line + " " + word;
    if line == "" {
      assert s == " " + word;
      LStripSpace(word);
      LStripUnchanged(word);
      RStripUnchanged(word);
    } else {
      assert s[0] == line[0] && s[|s| - 1] == word[|word| - 1];
      LStripUnchanged(s);
      RStripUnchanged(s);
    }
  }

  /** The lines still to come when `line` is the line being built and
      `words` are the words not yet placed: each word is tried on the end of
      the current line; if the trial line measures at most `maxWidth` it
      becomes the current line, otherwise the current line is committed and
      the word starts the next one. The last line is always committed. */
  function WrapFrom(words: seq<string>, line: string, measure: string -> int, maxWidth: int): (lines: seq<string>)
    ensures 1 <= |lines| <= |words| + 1
    decreases |words|
  {
    if words == [] then [line]
    else
      var testLine := TrialLine(line, words[0]);
      if measure(testLine) <= maxWidth then WrapFrom(words[1..], testLine, measure, maxWidth)
      else [line] + WrapFrom(words[1..], words[0], measure, maxWidth)
  }

  /** The wrapped lines of `words`, starting from an empty line. */
  function WrapLines(words: seq<string>, measure: string -> int, maxWidth: int): seq<string> {
    WrapFrom(words, "", measure, maxWidth)
  }

  /** The title lines of a school name: its `split()` words, wrapped. */
  function SchoolLines(schoolName: string, measure: string -> int, maxWidth: int): seq<string> {
    WrapLines(Split(schoolName), measure, maxWidth)
  }

  /** The first word of a trimmed line. */
  function FirstWord(line: string): string {
    line[..WordLength(line)]
  }

  /** `line` is `prefix`, or `prefix` followed by a space and more words. */
  predicate StartsWithLine(line: string, prefix: string) {
    line == prefix || (|line| > |prefix| && line[..|prefix| + 1] == prefix + " ")
  }

  /** Every line after the first, and the first unless it is `line`
      itself, measures at most `maxWidth` or is exactly one of `words`. */
  predicate LinesFit(r: seq<string>, line: string, words: seq<string>, measure: string -> int, maxWidth: int) {
    forall i :: 0 <= i < |r| ==> (i == 0 && r[i] == line) || measure(r[i]) <= maxWidth || r[i] in words
  }

  lemma {:induction false} WrapFromFits(words: seq<string>, line: string, measure: string -> int, maxWidth: int)
    ensures LinesFit(WrapFrom(words, line, measure, maxWidth), line, words, measure, maxWidth)
    decreases |words|
  {
    var r := WrapFrom(words, line, measure, maxWidth);
    if words != [] {
      var w := words[0];
      var testLine := TrialLine(line, w);
      if measure(testLine) <= maxWidth {
        WrapFromFits(words[1..], testLine, measure, maxWidth);
        assert r == WrapFrom(words[1..], testLine, measure, maxWidth);
        forall i | 0 <= i < |r| ensures (i == 0 && r[i] == line) || measure(r[i]) <= maxWidth || r[i] in words {
          if r[i] in words[1..] { assert r[i] in words; }
        }
      } else {
        var r' := WrapFrom(words[1..], w, measure, maxWidth);
        WrapFromFits(words[1..], w, measure, maxWidth);
        assert r == [line] + r';
        forall i | 0 <= i < |r| ensures (i == 0 && r[i] == line) || measure(r[i]) <= maxWidth || r[i] in words {
          if i > 0 {
            assert r[i] == r'[i - 1];
            if r[i] in words[1..] { assert r[i] in words; }
          }
        }
      }
    }
  }

  /** The only line that can be empty is the first, and it is empty exactly
      when the current line is empty and the first word alone does not fit
      (or there are no words at all). */
  predicate EmptyOnlyFirst(r: seq<string>, line: string, words: seq<string>, measure: string -> int, maxWidth: int) {
    forall i :: 0 <= i < |r| ==>
      (r[i] == "" <==> i == 0 && line == "" && (words == [] || measure(words[0]) > maxWidth))
  }

  lemma {:induction false} WrapFromEmptyLines(words: seq<string>, line: string, measure: string -> int, maxWidth: int)
    requires AllWords(words) && Trimmed(line)
    ensures EmptyOnlyFirst(WrapFrom(words, line, measure, maxWidth), line, words, measure, maxWidth)
    decreases |words|
  {
    var r := WrapFrom(words, line, measure, maxWidth);
    if words != [] {
      var w := words[0];
      AllWordsTail(words);
      var testLine := TrialLine(line, w);
      assert testLine != "";
      assert line == "" ==> testLine == w;
      if measure(testLine) <= maxWidth {
        WrapFromEmptyLines(words[1..], testLine, measure, maxWidth);
        assert r == WrapFrom(words[1..], testLine, measure, maxWidth);
        forall i | 0 <= i < |r|
          ensures r[i] == "" <==> i == 0 && line == "" && (words == [] || measure(words[0]) > maxWidth)
        {
          assert r[i] != "";
        }
      } else {
        var r' := WrapFrom(words[1..], w, measure, maxWidth);
        WrapFromEmptyLines(words[1..], w, measure, maxWidth);
        assert r == [line] + r';
        forall i | 0 <= i < |r|
          ensures r[i] == "" <==> i == 0 && line == "" && (words == [] || measure(words[0]) > maxWidth)
        {
          if i > 0 { assert r[i] == r'[i - 1]; }
        }
      }
    }
  }

  /** Joining the non-empty lines gives the current line followed by the
      remaining words: no word is lost, duplicated or moved. */
  lemma {:induction false} WrapFromKeepsWords(words: seq<string>, line: string, measure: string -> int, maxWidth: int)
    requires AllWords(words) && Trimmed(line)
    ensures JoinWords(NonEmpty(WrapFrom(words, line, measure, maxWidth))) == JoinWords(NonEmpty([line]) + words)
    decreases |words|
  {
    if words != [] {
      var w := words[0];
      AllWordsTail(words);
      assert words == [w] + words[1..];
      var testLine := TrialLine(line, w);
      if measure(testLine) <= maxWidth {
        WrapFromKeepsWords(words[1..], testLine, measure, maxWidth);
        JoinTrialLine(line, w, words[1..]);
      } else {
        WrapFromKeepsWords(words[1..], w, measure, maxWidth);
        assert NonEmpty([w]) == [w];
        JoinAfterLine(line, WrapFrom(words[1..], w, measure, maxWidth), words);
      }
    }
  }

  /** Words joined after the trial line are the words joined after the line
      and the word it was tried with. */
  lemma JoinTrialLine(line: string, w: string, words: seq<string>)
    requires Trimmed(line) && IsWord(w)
    ensures JoinWords(NonEmpty([TrialLine(line, w)]) + words) == JoinWords(NonEmpty([line]) + ([w] + words))
  {
    if line == "" {
      JoinTrialFirst(w, words);
    } else {
      JoinTrialNext(line, w, words);
    }
  }

  /** `JoinTrialLine` when the line is still empty. */
  lemma JoinTrialFirst(w: string, words: seq<string>)
    requires IsWord(w)
    ensures JoinWords(NonEmpty([TrialLine("", w)]) + words) == JoinWords(NonEmpty([""]) + ([w] + words))
  {
    assert NonEmpty([w]) == [w];
    assert NonEmpty([""]) + ([w] + words) == [w] + words;
  }

  /** `JoinTrialLine` when the line already holds words. */
  lemma JoinTrialNext(line: string, w: string, words: seq<string>)
    requires line != "" && IsWord(w)
    ensures JoinWords(NonEmpty([TrialLine(line, w)]) + words) == JoinWords(NonEmpty([line]) + ([w] + words))
  {
    assert NonEmpty([TrialLine(line, w)]) == [TrialLine(line, w)];
    assert NonEmpty([line]) + ([w] + words) == [line, w] + words;
    JoinWordsSpaced(line, w, words);
  }

  /** A committed line in front of lines that join to the words joins in
      front of the words. */
  lemma JoinAfterLine(line: string, rest: seq<string>, words: seq<string>)
    requires AllWords(words) && words != []
    requires JoinWords(NonEmpty(rest)) == JoinWords(words)
    ensures JoinWords(NonEmpty([line] + rest)) == JoinWords(NonEmpty([line]) + words)
  {
    NonEmptyCons(line, rest);
    if line == "" {
      assert NonEmpty([line]) == [];
      assert NonEmpty([line]) + NonEmpty(rest) == NonEmpty(rest);
      assert NonEmpty([line]) + words == words;
    } else {
      assert NonEmpty([line]) == [line];
      var tail := NonEmpty(rest);
      JoinWordsNonEmpty(words);
      assert tail != [];
      assert ([line] + tail)[1..] == tail;
      assert JoinWords([line] + tail) == line + " " + JoinWords(tail);
      assert ([line] + words)[1..] == words;
      assert JoinWords([line] + words) == line + " " + JoinWords(words);
    }
  }

  lemma NonEmptyCons(line: string, rest: seq<string>)
    ensures NonEmpty([line] + rest) == NonEmpty([line]) + NonEmpty(rest)
  {
    assert ([line] + rest)[1..] == rest;
  }

  /** " ".join(["a b"] + rest) == " ".join(["a", "b"] + rest). */
  lemma JoinWordsSpaced(a: string, b: string, rest: seq<string>)
    ensures JoinWords([a + " " + b] + rest) == JoinWords([a, b] + rest)
  {
    if rest != [] {
      assert ([a + " " + b] + rest)[1..] == rest;
      assert ([a, b] + rest)[1..] == [b] + rest;
      assert ([b] + rest)[1..] == rest;
    } else {
      assert [a, b][1..] == [b];
    }
  }

  /** The first line of `WrapFrom(words, line)` begins with `line`. */
  lemma {:induction false} WrapFromStartsWithLine(words: seq<string>, line: string, measure: string -> int, maxWidth: int)
    requires AllWords(words) && Trimmed(line) && line != ""
    ensures StartsWithLine(WrapFrom(words, line, measure, maxWidth)[0], line)
    decreases |words|
  {
    if words != [] {
      var w := words[0];
      AllWordsTail(words);
      var testLine := TrialLine(line, w);
      if measure(testLine) <= maxWidth {
        WrapFromStartsWithLine(words[1..], testLine, measure, maxWidth);
        var first := WrapFrom(words[1..], testLine, measure, maxWidth)[0];
        assert testLine == line + " " + w;
        if first != testLine {
          assert first[..|testLine| + 1] == testLine + " ";
          assert first[..|line| + 1] == first[..|testLine| + 1][..|line| + 1];
          assert (testLine + " ")[..|line| + 1] == line + " ";
        }
      }
    }
  }

  /** The first word of a line that begins with the word `w` is `w`. */
  lemma FirstWordOf(line: string, w: string)
    requires IsWord(w) && StartsWithLine(line, w)
    ensures FirstWord(line) == w
  {
    var n := WordLength(line);
    if line != w {
      assert line[|w|] == ' ';
    }
    assert n == |w|;
  }

  /** Every line break is forced: the line after each break begins with a
      word that would have made the previous line too wide. */
  predicate BreaksForced(r: seq<string>, measure: string -> int, maxWidth: int) {
    forall i :: 0 <= i < |r| - 1 ==> measure(TrialLine(r[i], FirstWord(r[i + 1]))) > maxWidth
  }

  lemma {:induction false} WrapFromBreaks(words: seq<string>, line: string, measure: string -> int, maxWidth: int)
    requires AllWords(words) && Trimmed(line)
    ensures BreaksForced(WrapFrom(words, line, measure, maxWidth), measure, maxWidth)
    decreases |words|
  {
    if words != [] {
      var w := words[0];
      AllWordsTail(words);
      var testLine := TrialLine(line, w);
      var r := WrapFrom(words, line, measure, maxWidth);
      if measure(testLine) <= maxWidth {
        WrapFromBreaks(words[1..], testLine, measure, maxWidth);
        assert r == WrapFrom(words[1..], testLine, measure, maxWidth);
      } else {
        WrapFromBreaks(words[1..], w, measure, maxWidth);
        WrapFromStartsWithLine(words[1..], w, measure, maxWidth);
        var r' := WrapFrom(words[1..], w, measure, maxWidth);
        assert r == [line] + r';
        FirstWordOf(r'[0], w);
        forall i | 0 <= i < |r| - 1
          ensures measure(TrialLine(r[i], FirstWord(r[i + 1]))) > maxWidth
        {
          if i > 0 {
            assert r[i] == r'[i - 1] && r[i + 1] == r'[i];
          } else {
            assert r[0] == line && r[1] == r'[0];
          }
        }
      }
    }
  }

  /** Every non-empty line measures at most `maxWidth`, or is a single word
      that did not fit on any line and was left whole. */
  lemma WrapLinesFit(words: seq<string>, measure: string -> int, maxWidth: int)
    ensures var r := WrapLines(words, measure, maxWidth);
      forall i :: 0 <= i < |r| && r[i] != "" ==> measure(r[i]) <= maxWidth || r[i] in words
  {
    WrapFromFits(words, "", measure, maxWidth);
  }

  /** The wrap never yields no lines; it yields `[""]` for no words; and the
      only empty line is the first, exactly when the first word alone is too
      wide. */
  lemma WrapEmptyLines(words: seq<string>, measure: string -> int, maxWidth: int)
    requires AllWords(words)
    ensures var r := WrapLines(words, measure, maxWidth);
      && |r| >= 1
      && (words == [] ==> r == [""])
      && forall i :: 0 <= i < |r| ==>
           (r[i] == "" <==> i == 0 && (words == [] || measure(words[0]) > maxWidth))
  {
    WrapFromEmptyLines(words, "", measure, maxWidth);
  }

  /** Joining the non-empty lines with single spaces gives back exactly the
      words joined with single spaces, and splitting that gives the words. */
  lemma WrapKeepsWords(words: seq<string>, measure: string -> int, maxWidth: int)
    requires AllWords(words)
    ensures JoinWords(NonEmpty(WrapLines(words, measure, maxWidth))) == JoinWords(words)
    ensures Split(JoinWords(NonEmpty(WrapLines(words, measure, maxWidth)))) == words
  {
    WrapFromKeepsWords(words, "", measure, maxWidth);
    assert NonEmpty([""]) + words == words;
    SplitJoinWords(words);
  }

  /** Each line break is forced by the width. */
  lemma WrapBreaks(words: seq<string>, measure: string -> int, maxWidth: int)
    requires AllWords(words)
    ensures BreaksForced(WrapLines(words, measure, maxWidth), measure, maxWidth)
  {
    WrapFromBreaks(words, "", measure, maxWidth);
  }

  /** What app.py:39-48 promises about the title lines of any school name:
      there is at least one; a name with no words gives `[""]`; the only
      empty line is the first, exactly when the first word alone is too wide;
      every other line fits or is a single word left whole; every break is
      forced by the width; and the words of the non-empty lines, joined and
      split again, are the words of the name. */
  lemma SchoolLinesProperties(schoolName: string, measure: string -> int, maxWidth: int)
    ensures WrapGuarantees(SchoolLines(schoolName, measure, maxWidth), Split(schoolName), measure, maxWidth)
  {
    WrapProperties(Split(schoolName), measure, maxWidth);
  }

  /** What the wrap promises about the lines it makes of `words`. */
  predicate WrapGuarantees(lines: seq<string>, words: seq<string>, measure: string -> int, maxWidth: int) {
    && |lines| >= 1
    && (words == [] ==> lines == [""])
    && (forall i :: 0 <= i < |lines| ==>
          (lines[i] == "" <==> i == 0 && (words == [] || measure(words[0]) > maxWidth)))
    && (forall i :: 0 <= i < |lines| && lines[i] != "" ==> measure(lines[i]) <= maxWidth || lines[i] in words)
    && BreaksForced(lines, measure, maxWidth)
    && Split(JoinWords(NonEmpty(lines))) == words
  }

  /** The wrap of any words has all its guarantees. */
  lemma WrapProperties(words: seq<string>, measure: string -> int, maxWidth: int)
    requires AllWords(words)
    ensures WrapGuarantees(WrapLines(words, measure, maxWidth), words, measure, maxWidth)
  {
    WrapLinesFit(words, measure, maxWidth);
    WrapEmptyLines(words, measure, maxWidth);
    WrapKeepsWords(words, measure, maxWidth);
    WrapBreaks(words, measure, maxWidth);
  }

  /** app.py:38-48: `split()` the name, then wrap its words. */
  method WrapSchoolName(schoolName: string, measure: string -> int, maxWidth: int) returns (schoolLines: seq<string>)
    ensures schoolLines == SchoolLines(schoolName, measure, maxWidth)
    ensures |schoolLines| >= 1
  {
    var words := Split(schoolName);
    schoolLines := WrapWords(words, measure, maxWidth);
  }

  /** The wrap loop of app.py:40-48: try each word on the end of the
      current line; commit the line when the trial line is too wide, and
      commit the last line after the loop. */
  method WrapWords(words: seq<string>, measure: string -> int, maxWidth: int) returns (schoolLines: seq<string>)
    requires AllWords(words)
    ensures schoolLines == WrapLines(words, measure, maxWidth)
  {
    schoolLines := [];
    var line := "";
    for i := 0 to |words|
      invariant Trimmed(line)
      invariant schoolLines + WrapFrom(words[i..], line, measure, maxWidth) == WrapLines(words, measure, maxWidth)
    {
      var word := words[i];
      var testLine := JoinStripped(line, word);
      if measure(testLine) <= maxWidth {
        WrapLoopFits(words, i, schoolLines, line, measure, maxWidth, WrapLines(words, measure, maxWidth));
        line := testLine;
      } else {
        WrapLoopBreaks(words, i, schoolLines, line, measure, maxWidth, WrapLines(words, measure, maxWidth));
        schoolLines := schoolLines + [line];
        line := word;
      }
    }
    assert words[|words|..] == [];
    schoolLines := schoolLines + [line];
  }

  /** `f"{line} {word}".strip()` (app.py:42), for a trimmed line and a
      word: the trial line. */
  method JoinStripped(line: string, word: string) returns (testLine: string)
    requires Trimmed(line) && IsWord(word)
    ensures testLine == TrialLine(line, word)
  {
    testLine := Strip(line + " " + word);
    TrialLineIsStrip(line, word);
  }

  /** A turn of the wrap loop whose trial line fits keeps its invariant:
      the trial line becomes the current line. */
  lemma WrapLoopFits(words: seq<string>, i: int, committed: seq<string>, line: string, measure: string -> int, maxWidth: int, whole: seq<string>)
    requires AllWords(words) && 0 <= i < |words| && Trimmed(line)
    requires committed + WrapFrom(words[i..], line, measure, maxWidth) == whole
    requires measure(TrialLine(line, words[i])) <= maxWidth
    ensures Trimmed(TrialLine(line, words[i]))
    ensures committed + WrapFrom(words[i + 1..], TrialLine(line, words[i]), measure, maxWidth) == whole
  {
    assert IsWord(words[i]);
    assert words[i..][0] == words[i] && words[i..][1..] == words[i + 1..];
    WrapFromStep(words[i..], line, measure, maxWidth);
  }

  /** A turn of the wrap loop whose trial line is too wide keeps its
      invariant: the current line is committed and the word starts the
      next one. */
  lemma WrapLoopBreaks(words: seq<string>, i: int, committed: seq<string>, line: string, measure: string -> int, maxWidth: int, whole: seq<string>)
    requires AllWords(words) && 0 <= i < |words| && Trimmed(line)
    requires committed + WrapFrom(words[i..], line, measure, maxWidth) == whole
    requires measure(TrialLine(line, words[i])) > maxWidth
    ensures Trimmed(words[i])
    ensures (committed + [line]) + WrapFrom(words[i + 1..], words[i], measure, maxWidth) == whole
  {
    assert IsWord(words[i]);
    assert words[i..][0] == words[i] && words[i..][1..] == words[i + 1..];
    WrapFromStep(words[i..], line, measure, maxWidth);
    var rest := WrapFrom(words[i + 1..], words[i], measure, maxWidth);
    assert (committed + [line]) + rest == committed + ([line] + rest);
  }

  /** One step of the wrap: the first word either joins the current line
      or, when the trial line is too wide, starts the next one. */
  lemma WrapFromStep(words: seq<string>, line: string, measure: string -> int, maxWidth: int)
    requires words != []
    ensures var testLine := TrialLine(line, words[0]);
      WrapFrom(words, line, measure, maxWidth) ==
        if measure(testLine) <= maxWidth then WrapFrom(words[1..], testLine, measure, maxWidth)
        else [line] + WrapFrom(words[1..], words[0], measure, maxWidth)
  {
  }
}
