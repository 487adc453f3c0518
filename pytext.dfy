/** The few pieces of Python's `str` that the card composer relies on:
    `isspace`, `strip`, `split()` with no separator, and `" ".join`. */
module PyText {

  /** `c.isspace()`: the code points Python treats as whitespace, which are
      exactly the separators of `split()` and what `strip()` removes. */
  predicate IsSpace(c: char) {
    var n := c as int;
    (0x09 <= n <= 0x0D) || (0x1C <= n <= 0x20) || n == 0x85 || n == 0xA0 ||
    n == 0x1680 || (0x2000 <= n <= 0x200A) || n == 0x2028 || n == 0x2029 ||
    n == 0x202F || n == 0x205F || n == 0x3000
  }

  /** A word as `split()` produces it: non-empty, with no whitespace in it. */
  predicate IsWord(w: string) {
    w != [] && forall k :: 0 <= k < |w| ==> !IsSpace(w[k])
  }

  predicate AllWords(ws: seq<string>) {
    forall i :: 0 <= i < |ws| ==> IsWord(ws[i])
  }

  /** No whitespace at either end, as every result of `strip()` is. */
  predicate Trimmed(s: string) {
    s == [] || (!IsSpace(s[0]) && !IsSpace(s[|s| - 1]))
  }

  /** `s.lstrip()`: drops the longest whitespace prefix. */
  function LStrip(s: string): (r: string)
    ensures |r| <= |s| && r == s[|s| - |r|..]
    ensures r == [] || !IsSpace(r[0])
    ensures forall k :: 0 <= k < |s| - |r| ==> IsSpace(s[k])
  {
    if s != [] && IsSpace(s[0]) then
      var r := LStrip(s[1..]);
      LStripStep(s, r);
      r
    else s
  }

  /** The step of `lstrip()` past a leading whitespace character. */
  lemma LStripStep(s: string, r: string)
    requires s != [] && IsSpace(s[0])
    requires |r| <= |s[1..]| && r == s[1..][|s[1..]| - |r|..]
    requires forall k :: 0 <= k < |s[1..]| - |r| ==> IsSpace(s[1..][k])
    ensures r == s[|s| - |r|..]
    ensures forall k :: 0 <= k < |s| - |r| ==> IsSpace(s[k])
  {
    forall k | 0 < k < |s| - |r| ensures IsSpace(s[k]) {
      assert s[k] == s[1..][k - 1];
    }
  }

  /** `s.rstrip()`: drops the longest whitespace suffix. */
  function RStrip(s: string): (r: string)
    ensures |r| <= |s| && r == s[..|r|]
    ensures r == [] || !IsSpace(r[|r| - 1])
    ensures forall k :: |r| <= k < |s| ==> IsSpace(s[k])
  {
    if s != [] && IsSpace(s[|s| - 1]) then
      var r := RStrip(s[..|s| - 1]);
      RStripStep(s, s[..|s| - 1], r);
      r
    else s
  }

  /** The step of `rstrip()` past a trailing whitespace character. */
  lemma RStripStep(s: string, p: string, r: string)
    requires s != [] && IsSpace(s[|s| - 1]) && p == s[..|s| - 1]
    requires |r| <= |p| && r == p[..|r|]
    requires forall k :: |r| <= k < |p| ==> IsSpace(p[k])
    ensures r == s[..|r|]
    ensures forall k :: |r| <= k < |s| ==> IsSpace(s[k])
  {
    forall k | |r| <= k < |s| - 1 ensures IsSpace(s[k]) {
      assert s[k] == p[k];
    }
  }

  /** `r` is a contiguous part of `s` and everything of `s` before and
      after it is whitespace. */
  predicate CutFrom(s: string, r: string) {
    exists i {:trigger s[i..]} ::
      (0 <= i <= |s| - |r| && r == s[i..i + |r|]
       && (forall k :: 0 <= k < i ==> IsSpace(s[k]))
       && (forall k :: i + |r| <= k < |s| ==> IsSpace(s[k])))
  }

  /** `s.strip()`: the input with its leading and its trailing whitespace
      cut off, so no whitespace at either end; a string that already has
      none comes back unchanged. */
  function Strip(s: string): (r: string)
    ensures |r| <= |s| && Trimmed(r)
    ensures Trimmed(s) ==> r == s
    ensures CutFrom(s, r)
  {
    var t := LStrip(s);
    var r := RStrip(t);
    StripCut(s, t, r);
    r
  }

  /** What `rstrip()` keeps of what `lstrip()` keeps of `s` is a trimmed,
      whitespace-bordered slice of `s`, and all of `s` when `s` is trimmed. */
  lemma StripCut(s: string, t: string, r: string)
    requires |t| <= |s| && t == s[|s| - |t|..] && (t == [] || !IsSpace(t[0]))
    requires forall k :: 0 <= k < |s| - |t| ==> IsSpace(s[k])
    requires |r| <= |t| && r == t[..|r|] && (r == [] || !IsSpace(r[|r| - 1]))
    requires forall k :: |r| <= k < |t| ==> IsSpace(t[k])
    ensures |r| <= |s| && Trimmed(r) && (Trimmed(s) ==> r == s) && CutFrom(s, r)
  {
    if r != [] {
      assert r[0] == t[0];
    }
    if Trimmed(s) && s != [] {
      assert |t| == |s|;
      assert t == s;
      assert |r| == |t|;
    }
    var i := |s| - |t|;
    forall k | i + |r| <= k < |s| ensures IsSpace(s[k]) {
      assert s[k] == t[k - i];
    }
    assert r == s[i..i + |r|];
    CutAt(s, r, i);
  }

  /** `CutFrom` from its witness. */
  lemma CutAt(s: string, r: string, i: nat)
    requires i <= |s| - |r| && r == s[i..i + |r|]
    requires forall k :: 0 <= k < i ==> IsSpace(s[k])
    requires forall k :: i + |r| <= k < |s| ==> IsSpace(s[k])
    ensures CutFrom(s, r)
  {
    assert r == s[i..][..|r|];
  }

  /** The length of the run of non-whitespace characters that starts `t`. */
  function WordLength(t: string): (n: nat)
    ensures n <= |t|
    ensures forall k :: 0 <= k < n ==> !IsSpace(t[k])
    ensures n < |t| ==> IsSpace(t[n])
  {
    if t == [] || IsSpace(t[0]) then 0 else 1 + WordLength(t[1..])
  }

  /** `s.split()`: the maximal runs of non-whitespace characters, in order. */
  function Split(s: string): (words: seq<string>)
    ensures AllWords(words)
    decreases |s|
  {
    var t := LStrip(s);
    if t == [] then []
    else
      var n := WordLength(t);
      var rest := Split(t[n..]);
      FirstRunIsWord(t);
      AllWordsCons(t[..n], rest);
      [t[..n]] + rest
  }

  /** The run of non-whitespace that starts a string not starting with
      whitespace is a word. */
  lemma FirstRunIsWord(t: string)
    requires t != [] && !IsSpace(t[0])
    ensures IsWord(t[..WordLength(t)])
  {
    var n := WordLength(t);
    forall k | 0 <= k < n ensures !IsSpace(t[..n][k]) {
      assert t[..n][k] == t[k];
    }
  }

  lemma AllWordsTail(words: seq<string>)
    requires AllWords(words) && words != []
    ensures AllWords(words[1..])
  {
    forall i | 0 <= i < |words[1..]| ensures IsWord(words[1..][i]) { assert words[1..][i] == words[i + 1]; }
  }

  lemma AllWordsCons(w: string, ws: seq<string>)
    requires IsWord(w) && AllWords(ws)
    ensures AllWords([w] + ws)
  {
    forall i | 0 <= i < |[w] + ws| ensures IsWord(([w] + ws)[i]) {
      if i > 0 { assert ([w] + ws)[i] == ws[i - 1]; }
    }
  }

  /** `" ".join(ws)`. */
  function JoinWords(ws: seq<string>): string {
    if ws == [] then ""
    else if |ws| == 1 then ws[0]
    else ws[0] + " " + JoinWords(ws[1..])
  }

  /** The non-empty strings of `lines`, in order. */
  function NonEmpty(lines: seq<string>): (r: seq<string>)
    ensures forall i :: 0 <= i < |r| ==> r[i] != ""
    ensures forall i :: 0 <= i < |lines| && lines[i] != "" ==> lines[i] in r
    ensures forall l :: l in r ==> l in lines
  {
    if lines == [] then []
    else (if lines[0] == "" then [] else [lines[0]]) + NonEmpty(lines[1..])
  }

  /** `lstrip()` leaves a string that starts with no whitespace unchanged. */
  lemma LStripUnchanged(s: string)
    requires s == [] || !IsSpace(s[0])
    ensures LStrip(s) == s
  {
  }

  /** `rstrip()` leaves a string that ends with no whitespace unchanged. */
  lemma RStripUnchanged(s: string)
    requires s == [] || !IsSpace(s[|s| - 1])
    ensures RStrip(s) == s
  {
  }

  /** `lstrip()` drops a leading space. */
  lemma LStripSpace(s: string)
    ensures LStrip(" " + s) == LStrip(s)
  {
    LStripSpaceFirst(' ', s);
  }

  lemma JoinWordsNonEmpty(ws: seq<string>)
    requires AllWords(ws) && ws != []
    ensures JoinWords(ws) != [] && !IsSpace(JoinWords(ws)[0])
  {
    if |ws| > 1 {
      assert JoinWords(ws) == ws[0] + (" " + JoinWords(ws[1..]));
    }
  }

  /** `split()` ignores a leading whitespace character. */
  lemma SplitSpaceFirst(c: char, rest: string)
    requires IsSpace(c)
    ensures Split([c] + rest) == Split(rest)
  {
    LStripSpaceFirst(c, rest);
    SplitSameStrip([c] + rest, rest);
  }

  /** `lstrip()` passes over a leading whitespace character. */
  lemma LStripSpaceFirst(c: char, rest: string)
    requires IsSpace(c)
    ensures LStrip([c] + rest) == LStrip(rest)
  {
    ConsTail(c, rest);
    LStripDrop([c] + rest);
  }

  /** One step of `lstrip()`. */
  lemma LStripDrop(s: string)
    requires s != [] && IsSpace(s[0])
    ensures LStrip(s) == LStrip(s[1..])
  {
  }

  /** How `[c] + rest` starts, and what follows its first character. */
  lemma ConsTail(c: char, rest: string)
    ensures ([c] + rest)[0] == c && ([c] + rest)[1..] == rest
  {
  }

  /** `split()` depends only on what `lstrip()` leaves. */
  lemma SplitSameStrip(x: string, y: string)
    requires LStrip(x) == LStrip(y)
    ensures Split(x) == Split(y)
  {
  }

  /** A word followed by a whitespace character splits off as the first
      word. */
  lemma SplitRunThenSpace(a: string, c: char, rest: string)
    requires IsWord(a) && IsSpace(c)
    ensures Split(a + [c] + rest) == [a] + Split(rest)
  {
    var s := a + [c] + rest;
    ConcatParts(a, c, rest);
    LStripUnchanged(s);
    WordLengthRun(a, c, rest);
    SplitAtFirstRun(s);
    SplitSpaceFirst(c, rest);
  }

  /** The pieces of `a + [c] + rest` are where they were put. */
  lemma ConcatParts(a: string, c: char, rest: string)
    ensures var s := a + [c] + rest;
      && s != [] && (a != [] ==> s[0] == a[0])
      && s[..|a|] == a && s[|a|..] == [c] + rest
  {
  }

  /** The first run of `a + [c] + rest` is `a` when `a` is a word and `c`
      whitespace. */
  lemma WordLengthRun(a: string, c: char, rest: string)
    requires IsWord(a) && IsSpace(c)
    ensures WordLength(a + [c] + rest) == |a|
  {
    var s := a + [c] + rest;
    var n := WordLength(s);
    assert s[|a|] == c;
  }

  /** One step of `split()` on a string that starts with a word. */
  lemma SplitAtFirstRun(s: string)
    requires LStrip(s) == s && s != []
    ensures Split(s) == [s[..WordLength(s)]] + Split(s[WordLength(s)..])
  {
  }

  /** A word followed by a space splits off as the first word. */
  lemma SplitWordThenSpace(a: string, rest: string)
    requires IsWord(a)
    ensures Split(a + " " + rest) == [a] + Split(rest)
  {
    assert a + " " + rest == a + [' '] + rest;
    SplitRunThenSpace(a, ' ', rest);
  }

  /** A single word splits into itself. */
  lemma SplitWord(a: string)
    requires IsWord(a)
    ensures Split(a) == [a]
  {
    assert LStrip(a) == a;
    var n := WordLength(a);
    assert n == |a|;
    assert a[n..] == [] && a[..n] == a;
  }

  /** The inductive step of `SplitJoinWords`: a first word joined in front
      of the rest splits off again. */
  lemma SplitJoinWordsStep(ws: seq<string>)
    requires |ws| >= 2 && IsWord(ws[0])
    requires Split(JoinWords(ws[1..])) == ws[1..]
    ensures Split(JoinWords(ws)) == ws
  {
    var rest := JoinWords(ws[1..]);
    assert JoinWords(ws) == ws[0] + " " + rest;
    SplitWordThenSpace(ws[0], rest);
    assert ws == [ws[0]] + ws[1..];
  }

  /** Splitting what `" ".join` made gives the words back: joining loses,
      duplicates and reorders nothing. */
  lemma {:induction false} SplitJoinWords(ws: seq<string>)
    requires AllWords(ws)
    ensures Split(JoinWords(ws)) == ws
  {
    if ws == [] {
      assert JoinWords(ws) == "";
    } else if |ws| == 1 {
      assert JoinWords(ws) == ws[0];
      SplitWord(ws[0]);
    } else {
      AllWordsTail(ws);
      SplitJoinWords(ws[1..]);
      SplitJoinWordsStep(ws);
    }
  }

  /** The pieces of `ws` run together, `"".join(ws)`. */
  function Flatten(ws: seq<string>): string {
    if ws == [] then "" else ws[0] + Flatten(ws[1..])
  }

  /** The characters of `s` that are not whitespace, in order. */
  function NonSpace(s: string): string {
    if s == [] then "" else (if IsSpace(s[0]) then "" else [s[0]]) + NonSpace(s[1..])
  }

  /** How `a + b` starts, and what follows its first character. */
  lemma AppendTail(a: string, b: string)
    requires a != []
    ensures (a + b)[0] == a[0] && (a + b)[1..] == a[1..] + b
  {
  }

  lemma {:induction false} NonSpaceAppend(a: string, b: string)
    ensures NonSpace(a + b) == NonSpace(a) + NonSpace(b)
  {
    if a == [] {
      assert a + b == b;
    } else {
      AppendTail(a, b);
      NonSpaceAppend(a[1..], b);
    }
  }

  /** `lstrip()` drops only whitespace. */
  lemma {:induction false} NonSpaceLStrip(s: string)
    ensures NonSpace(LStrip(s)) == NonSpace(s)
  {
    if s != [] && IsSpace(s[0]) {
      NonSpaceLStrip(s[1..]);
    }
  }

  /** A run without whitespace keeps all its characters. */
  lemma {:induction false} NonSpaceRun(w: string)
    requires forall k :: 0 <= k < |w| ==> !IsSpace(w[k])
    ensures NonSpace(w) == w
  {
    if w != [] {
      NonSpaceRun(w[1..]);
      assert w == [w[0]] + w[1..];
    }
  }

  /** `split()` takes the first run of the stripped input, then splits
      what follows it. */
  lemma SplitFirst(s: string)
    requires LStrip(s) != []
    ensures var t := LStrip(s);
      Split(s) == [t[..WordLength(t)]] + Split(t[WordLength(t)..])
  {
  }

  lemma FlattenCons(w: string, ws: seq<string>)
    ensures Flatten([w] + ws) == w + Flatten(ws)
  {
    assert ([w] + ws)[1..] == ws;
  }

  /** The characters of the stripped input that are not whitespace are its
      first run followed by those of the rest. */
  lemma NonSpaceFirst(s: string)
    requires LStrip(s) != []
    ensures var t := LStrip(s);
      NonSpace(s) == t[..WordLength(t)] + NonSpace(t[WordLength(t)..])
  {
    var t := LStrip(s);
    var n := WordLength(t);
    NonSpaceLStrip(s);
    FirstRunIsWord(t);
    NonSpaceRun(t[..n]);
    NonSpaceCut(t, n);
  }

  /** A string is its two halves put back together. */
  lemma TakeDrop(t: string, n: nat)
    requires n <= |t|
    ensures t[..n] + t[n..] == t
  {
  }

  /** Cutting a string in two cuts its non-whitespace characters in two. */
  lemma NonSpaceCut(t: string, n: nat)
    requires n <= |t|
    ensures NonSpace(t) == NonSpace(t[..n]) + NonSpace(t[n..])
  {
    TakeDrop(t, n);
    NonSpaceAppend(t[..n], t[n..]);
  }

  /** The pieces `split()` yields, run together, are exactly the characters
      of the input that are not whitespace, in order: no character is lost,
      duplicated or moved. */
  lemma {:induction false} SplitKeepsChars(s: string)
    ensures Flatten(Split(s)) == NonSpace(s)
    decreases |s|
  {
    var t := LStrip(s);
    if t == [] {
      NonSpaceLStrip(s);
    } else {
      var n := WordLength(t);
      SplitKeepsChars(t[n..]);
      SplitFirst(s);
      FlattenCons(t[..n], Split(t[n..]));
      NonSpaceFirst(s);
    }
  }

  /** `split()` as CPython computes it: scan left to right, growing the
      current run on a non-whitespace character and ending it, if it is not
      empty, on a whitespace character or at the end of the input. */
  function ScanWords(s: string, run: string): seq<string>
    decreases |s|
  {
    if s == [] then (if run == [] then [] else [run])
    else if IsSpace(s[0]) then (if run == [] then [] else [run]) + ScanWords(s[1..], [])
    else ScanWords(s[1..], run + [s[0]])
  }

  /** The scan, started inside a run, splits the run and the rest of the
      input as one string. */
  lemma {:induction false} ScanIsSplit(s: string, run: string)
    requires forall k :: 0 <= k < |run| ==> !IsSpace(run[k])
    ensures ScanWords(s, run) == Split(run + s)
    decreases |s|
  {
    if s == [] {
      assert run + s == run;
      if run != [] { SplitWord(run); }
    } else if IsSpace(s[0]) {
      ScanIsSplit(s[1..], []);
      ScanSpace(s, run);
    } else {
      ScanIsSplit(s[1..], run + [s[0]]);
      PeelFirst(run, s);
    }
  }

  /** The scan step at a whitespace character ends the run. */
  lemma ScanSpace(s: string, run: string)
    requires s != [] && IsSpace(s[0])
    requires forall k :: 0 <= k < |run| ==> !IsSpace(run[k])
    requires ScanWords(s[1..], []) == Split([] + s[1..])
    ensures ScanWords(s, run) == Split(run + s)
  {
    assert [] + s[1..] == s[1..];
    PeelFirst(run, s);
    if run == [] {
      assert run + [s[0]] == [s[0]];
      SplitSpaceFirst(s[0], s[1..]);
    } else {
      SplitRunThenSpace(run, s[0], s[1..]);
    }
  }

  /** The first character of `s`, moved to the end of what precedes it. */
  lemma PeelFirst(run: string, s: string)
    requires s != []
    ensures run + s == run + [s[0]] + s[1..]
  {
    assert s == [s[0]] + s[1..];
  }

  /** `split()` yields exactly the maximal whitespace-free runs of the
      input, each ended by whitespace or by the end of the input. */
  lemma SplitIsScan(s: string)
    ensures Split(s) == ScanWords(s, [])
  {
    ScanIsSplit(s, []);
    assert [] + s == s;
  }

  /** The scan across a whitespace character: what it yields before the
      character and what it yields after it, one after the other. */
  lemma {:induction false} ScanAtSpace(a: string, c: char, b: string, run: string)
    requires IsSpace(c)
    ensures ScanWords(a + [c] + b, run) == ScanWords(a, run) + ScanWords(b, [])
    decreases |a|
  {
    ConsParts(a, c, b);
    if a != [] {
      ScanAtSpace(a[1..], c, b, if IsSpace(a[0]) then [] else run + [a[0]]);
      if IsSpace(a[0]) {
        assert ScanWords(a + [c] + b, run)
            == (if run == [] then [] else [run]) + ScanWords(a[1..] + [c] + b, []);
      }
    }
  }

  /** How `a + [c] + b` starts, and what follows its first character. */
  lemma ConsParts(a: string, c: char, b: string)
    ensures var s := a + [c] + b;
      && s != [] && s[0] == (if a == [] then c else a[0])
      && s[1..] == (if a == [] then b else a[1..] + [c] + b)
  {
    if a != [] {
      assert (a + [c] + b)[1..] == a[1..] + [c] + b;
    }
  }

  /** Whitespace separates the pieces of `split()`: cutting the input at a
      whitespace character cuts the list of pieces there, so no piece runs
      across whitespace. `SplitGlued` states the converse. */
  lemma SplitAtSpace(a: string, c: char, b: string)
    requires IsSpace(c)
    ensures Split(a + [c] + b) == Split(a) + Split(b)
  {
    SplitIsScan(a + [c] + b);
    SplitIsScan(a);
    SplitIsScan(b);
    ScanAtSpace(a, c, b, []);
  }

  /** `xs` and `ys` run together: the last piece of `xs` and the first piece
      of `ys` become one piece. */
  function Glue(xs: seq<string>, ys: seq<string>): (r: seq<string>)
    requires xs != [] && ys != []
    ensures |r| == |xs| + |ys| - 1
  {
    xs[..|xs| - 1] + [xs[|xs| - 1] + ys[0]] + ys[1..]
  }

  /** Only whitespace separates the pieces of `split()`: joining two strings
      with no whitespace where they meet runs the last piece of the first
      and the first piece of the second together into one, so the pieces
      are the maximal runs. */
  lemma {:induction false} SplitGlued(a: string, b: string)
    requires a != [] && !IsSpace(a[|a| - 1])
    requires b != [] && !IsSpace(b[0])
    ensures Split(a) != [] && Split(b) != []
    ensures Split(a + b) == Glue(Split(a), Split(b))
    ensures |Split(a + b)| == |Split(a)| + |Split(b)| - 1
    decreases |a|, 1
  {
    var t := LStrip(a);
    assert t[|t| - 1] == a[|a| - 1];
    LStripAppend(a, b);
    LStripUnchanged(t);
    LStripUnchanged(t + b);
    SplitSameStrip(a, t);
    SplitSameStrip(a + b, t + b);
    GlueStripped(t, b);
  }

  /** `SplitGlued` for a first string that starts with a word. */
  lemma {:induction false} GlueStripped(t: string, b: string)
    requires t != [] && !IsSpace(t[0]) && !IsSpace(t[|t| - 1])
    requires b != [] && !IsSpace(b[0])
    ensures Split(t) != [] && Split(b) != []
    ensures Split(t + b) == Glue(Split(t), Split(b))
    decreases |t|, 0
  {
    var n := WordLength(t);
    if n < |t| {
      LastOfSuffix(t, n);
      SplitGlued(t[n..], b);
      GlueShort(t, b, n);
    } else {
      GlueLong(t, b);
    }
  }

  /** The first word of `t` ends inside `t`: it stays a piece of its own. */
  lemma GlueShort(t: string, b: string, n: nat)
    requires t != [] && !IsSpace(t[0]) && n == WordLength(t) && n < |t|
    requires Split(t[n..]) != [] && Split(b) != []
    requires Split(t[n..] + b) == Glue(Split(t[n..]), Split(b))
    ensures Split(t) != []
    ensures Split(t + b) == Glue(Split(t), Split(b))
  {
    SplitAtRun(t, n, t[..n], t[n..]);
    RunEndsInside(t, b, n);
    SliceAppendShort(t, b, n);
    assert (t + b)[0] == t[0];
    SplitAtRun(t + b, n, t[..n], t[n..] + b);
    GlueCons(t[..n], Split(t[n..]), Split(b));
  }

  /** `t` is a single word: it runs into the first word of `b`. */
  lemma GlueLong(t: string, b: string)
    requires t != [] && WordLength(t) == |t|
    requires b != [] && !IsSpace(b[0])
    ensures Split(t) == [t] && Split(b) != []
    ensures Split(t + b) == Glue(Split(t), Split(b))
  {
    var m := WordLength(b);
    FirstRunIsWord(t);
    assert t[..|t|] == t;
    SplitWord(t);
    LStripUnchanged(b);
    SplitAtFirstRun(b);
    SplitWordThenRun(t, b);
    GlueSingle(t, b[..m], Split(b[m..]));
  }

  /** A word run into a string that starts with a word: the two words are
      one piece. */
  lemma SplitWordThenRun(t: string, b: string)
    requires IsWord(t) && b != [] && !IsSpace(b[0])
    ensures Split(t + b) == [t + b[..WordLength(b)]] + Split(b[WordLength(b)..])
  {
    var m := WordLength(b);
    RunsJoin(t, b, m);
    SliceAppendLong(t, b, m);
    assert (t + b)[0] == t[0];
    SplitAtRun(t + b, |t| + m, t + b[..m], b[m..]);
  }

  /** One step of `split()` on a string that starts with a word, for given
      names of that word and of what follows it. */
  lemma SplitAtRun(s: string, n: nat, w: string, rest: string)
    requires s != [] && !IsSpace(s[0]) && n == WordLength(s)
    requires n <= |s| && w == s[..n] && rest == s[n..]
    ensures Split(s) == [w] + Split(rest)
  {
    LStripUnchanged(s);
    SplitAtFirstRun(s);
  }

  /** The first run of `t + b`, for a word `t`, is `t` and the first run
      of `b`. */
  lemma RunsJoin(t: string, b: string, m: nat)
    requires IsWord(t) && m == WordLength(b)
    ensures WordLength(t + b) == |t| + m
  {
    forall k | 0 <= k < |t| + m ensures !IsSpace((t + b)[k]) {
      if k < |t| { assert (t + b)[k] == t[k]; } else { assert (t + b)[k] == b[k - |t|]; }
    }
    if |t| + m < |t + b| {
      assert (t + b)[|t| + m] == b[m];
    }
    WordLengthUnique(t + b, |t| + m);
  }

  /** `lstrip()` of a string with something left after stripping is not
      affected by what is appended. */
  lemma {:induction false} LStripAppend(a: string, b: string)
    requires a != [] && !IsSpace(a[|a| - 1])
    ensures LStrip(a) != [] && LStrip(a + b) == LStrip(a) + b
    decreases |a|
  {
    AppendTail(a, b);
    if IsSpace(a[0]) {
      LastOfSuffix(a, 1);
      LStripAppend(a[1..], b);
    }
  }

  /** A non-empty suffix ends where the whole string ends. */
  lemma LastOfSuffix(t: string, n: nat)
    requires n < |t|
    ensures t[n..] != [] && t[n..][|t[n..]| - 1] == t[|t| - 1]
  {
  }

  /** A first run that ends inside `t` is also the first run of `t + b`. */
  lemma RunEndsInside(t: string, b: string, n: nat)
    requires n == WordLength(t) && n < |t|
    ensures WordLength(t + b) == n
  {
    forall k | 0 <= k < n ensures !IsSpace((t + b)[k]) {
      assert (t + b)[k] == t[k];
    }
    assert (t + b)[n] == t[n];
    WordLengthUnique(t + b, n);
  }

  /** The length of the first run, read off the characters. */
  lemma WordLengthUnique(s: string, m: nat)
    requires m <= |s|
    requires forall k :: 0 <= k < m ==> !IsSpace(s[k])
    requires m < |s| ==> IsSpace(s[m])
    ensures WordLength(s) == m
  {
  }

  /** Cutting `t + b` inside `t`. */
  lemma SliceAppendShort(t: string, b: string, n: nat)
    requires n <= |t|
    ensures (t + b)[..n] == t[..n] && (t + b)[n..] == t[n..] + b
  {
  }

  /** Cutting `t + b` inside `b`. */
  lemma SliceAppendLong(t: string, b: string, m: nat)
    requires m <= |b|
    ensures (t + b)[..|t| + m] == t + b[..m] && (t + b)[|t| + m..] == b[m..]
  {
  }

  /** Gluing a single piece onto the front of another. */
  lemma GlueSingle(w: string, v: string, ys: seq<string>)
    ensures Glue([w], [v] + ys) == [w + v] + ys
  {
    assert ([v] + ys)[1..] == ys;
  }

  /** Gluing after a common first piece. */
  lemma GlueCons(w: string, xs: seq<string>, ys: seq<string>)
    requires xs != [] && ys != []
    ensures Glue([w] + xs, ys) == [w] + Glue(xs, ys)
  {
    assert ([w] + xs)[..|[w] + xs| - 1] == [w] + xs[..|xs| - 1];
  }
}
