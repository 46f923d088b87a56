/**
 What a Kernelfile says, with the words as they are written: which lines set what
 (`ParseKernelfile`, `step.go`).  The layout of a line is told without the parser.
 */
module LineMeaning {
  import opened Wrappers
  import opened Text
  import opened Specs
  import opened Kernelfile

  // ---- a line ----

  /** A run of white space that starts with a blank. */
  predicate Gap(s: string) {
    s != "" && Blank(s[0]) && Spaces(s)
  }

  predicate OneWord(s: string) {
    s != "" && !Space(s[0]) && forall i :: 0 <= i < |s| ==> !Blank(s[i])
  }

  /** The first "#" of the line, if there is one, does not start a comment. */
  ghost predicate NoComment(line: string) {
    '#' in line ==> exists a, b :: line == a + "#" + b && '#' !in a && a != "" && !Blank(a[|a| - 1])
  }

  /** What stands behind `body`: nothing, or a comment that starts with the first "#" of the line. */
  ghost predicate Commented(body: string, comment: string) {
    if comment == "" then NoComment(body)
    else comment[0] == '#' && '#' !in body && (body == "" || Blank(body[|body| - 1]))
  }

  ghost predicate Lays(word: string, val: string, pad: string, gap: string, rest: string, comment: string) {
    Spaces(pad) && OneWord(word) && Gap(gap) && Trimmed(val) && Spaces(rest)
    && Commented(pad + (word + gap + val) + rest, comment)
  }

  /** The line sets `word` to `val`. */
  ghost predicate Says(line: string, word: string, val: string) {
    exists pad, gap, rest, comment {:trigger Lays(word, val, pad, gap, rest, comment)} ::
      Lays(word, val, pad, gap, rest, comment) && line == pad + (word + gap + val) + rest + comment
  }

  /** The line is empty but for white space and a comment. */
  ghost predicate SaysNothing(line: string) {
    exists body, comment :: line == body + comment && Spaces(body) && Commented(body, comment)
  }

  lemma CommentDropped(body: string, comment: string)
    requires Commented(body, comment)
    ensures DropComment(body + comment) == body
  {
    var line := body + comment;
    if comment == "" {
      assert line == body;
      if '#' in body {
        var a, b :| body == a + "#" + b && '#' !in a && a != "" && !Blank(a[|a| - 1]);
        IndexHere(a, '#', b);
      }
    } else {
      assert comment == "#" + comment[1..];
      assert line == body + "#" + comment[1..];
      IndexHere(body, '#', comment[1..]);
      assert line[..|body|] == body;
    }
  }

  lemma CommentFound(line: string)
    ensures DropComment(line) <= line
    ensures Commented(DropComment(line), line[|DropComment(line)|..])
  {
    var i, body := IndexOf(line, '#'), DropComment(line);
    if i < |line| {
      var a, b := line[..i], line[i + 1..];
      assert line == a + "#" + b;
      assert '#' !in a;
      assert i > 0 ==> a[|a| - 1] == line[i - 1];
      if body == line {
        assert line[|line|..] == "";
        assert NoComment(line);
      }
    } else {
      assert '#' !in line && line[|line|..] == "";
    }
  }

  lemma HashStands()
    ensures !Space('#') && forall c :: Blank(c) ==> Space(c) && c != '#'
  {
  }

  lemma WordEnds(word: string, gap: string, val: string)
    requires OneWord(word) && Gap(gap)
    ensures RunEnd(word + gap + val, Blank) == |word|
  {
    hide Space;
    assert word + gap + val == word + (gap + val);
    RunEndFirst(word, gap + val, Blank);
    assert RunEnd(word, Blank) == |word|;
  }

  lemma CoreRead(word: string, gap: string, val: string)
    requires OneWord(word) && Gap(gap) && Trimmed(val)
    ensures var t := word + gap + val;
      && Trimmed(t) && RunEnd(t, Blank) == |word| < |t| && t[..|word|] == word && TrimSpace(t[|word| + 1..]) == val
  {
    hide Space, TrimSpace, RunEnd;
    var t := word + gap + val;
    WordEnds(word, gap, val);
    assert t[|word| + 1..] == gap[1..] + val + "";
    TrimPadded(gap[1..], val, "");
    assert t[|t| - 1] == val[|val| - 1];
  }

  lemma SaysRead(line: string, word: string, val: string)
    requires Says(line, word, val)
    ensures ReadLine(line) == Setting(word, val)
  {
    hide Space, TrimSpace, DropComment, RunEnd, Commented, OneWord, Gap, Blank;
    var pad, gap, rest, comment :|
      Lays(word, val, pad, gap, rest, comment) && line == pad + (word + gap + val) + rest + comment;
    var t := word + gap + val;
    CommentDropped(pad + t + rest, comment);
    CoreRead(word, gap, val);
    TrimPadded(pad, t, rest);
  }

  /** What `TrimSpace` takes off. */
  lemma Padding(s: string) returns (pad: string, rest: string)
    ensures s == pad + TrimSpace(s) + rest && Spaces(pad) && Spaces(rest)
    ensures TrimSpace(s) == "" || Trimmed(TrimSpace(s))
  {
    hide Space, TrimLeft, TrimRight;
    var l := TrimLeft(s);
    var t := TrimRight(l);
    assert TrimSpace(s) == t;
    pad, rest := s[..|s| - |l|], l[|t|..];
    assert s == pad + l && l == t + rest;
    assert t != "" ==> t[0] == l[0];
  }

  lemma WordSplit(t: string, i: nat)
    requires Trimmed(t) && i == RunEnd(t, Blank) < |t|
    ensures OneWord(t[..i]) && Blank(t[i])
  {
    hide Space;
    HashStands();
  }

  lemma CoreSplit(t: string, i: nat, val: string) returns (gap: string)
    requires Trimmed(t) && i == RunEnd(t, Blank) < |t| && val == TrimSpace(t[i + 1..]) && val != ""
    ensures t == t[..i] + gap + val && OneWord(t[..i]) && Gap(gap) && Trimmed(val)
  {
    hide Space, TrimSpace, RunEnd, OneWord, Blank;
    HashStands();
    WordSplit(t, i);
    var back := t[i + 1..];
    var white, none := Padding(back);
    assert !Space(back[|back| - 1]) by { assert back[|back| - 1] == t[|t| - 1]; }
    assert none == "";
    gap := [t[i]] + white;
    assert back == white + val;
    assert t == t[..i] + ([t[i]] + back);
  }

  lemma ReadSays(line: string, word: string, val: string)
    requires ReadLine(line) == Setting(word, val)
    ensures Says(line, word, val)
  {
    hide Space, TrimSpace, DropComment, RunEnd, Commented, Blank, OneWord, Gap, Trimmed;
    CommentFound(line);
    var body := DropComment(line);
    var comment, t := line[|body|..], TrimSpace(body);
    var pad, rest := Padding(body);
    var gap := CoreSplit(t, RunEnd(t, Blank), val);
    assert body == pad + (word + gap + val) + rest;
    assert line == pad + (word + gap + val) + rest + comment;
    assert Lays(word, val, pad, gap, rest, comment);
  }

  /** A line is read as a setting exactly when it is laid out as one. */
  lemma ReadIff(line: string, word: string, val: string)
    ensures ReadLine(line) == Setting(word, val) <==> Says(line, word, val)
  {
    if Says(line, word, val) { SaysRead(line, word, val); }
    if ReadLine(line) == Setting(word, val) { ReadSays(line, word, val); }
  }

  /** It is read over exactly when there is nothing on it; what is neither spoils the file. */
  lemma NothingIff(line: string)
    ensures ReadLine(line) == Nothing <==> SaysNothing(line)
  {
    hide Space, TrimSpace, DropComment, RunEnd, Commented;
    if SaysNothing(line) {
      var body, comment :| line == body + comment && Spaces(body) && Commented(body, comment);
      CommentDropped(body, comment);
      TrimPadded(body, "", "");
      assert body + "" + "" == body;
    }
    if ReadLine(line) == Nothing {
      CommentFound(line);
      var body := DropComment(line);
      var pad, rest := Padding(body);
      assert line == body + line[|body|..] && Spaces(body);
    }
  }

  lemma CommentLeaves(word: string, gap: string, val: string, blank: char, comment: string)
    requires OneWord(word) && '#' !in word && Gap(gap) && Trimmed(val) && '#' !in val && Blank(blank)
    ensures Says(word + gap + val + [blank] + "#" + comment, word, val)
  {
    hide Space, Says, TrimSpace;
    HashStands();
    var line, body := word + gap + val + [blank] + "#" + comment, "" + (word + gap + val) + [blank];
    assert '#' !in gap;
    assert '#' !in body && body[|body| - 1] == blank;
    assert line == body + ("#" + comment);
    assert Lays(word, val, "", gap, [blank], "#" + comment);
    LaidSays(line, word, val, "", gap, [blank], "#" + comment);
  }

  lemma LaidSays(line: string, word: string, val: string, pad: string, gap: string, rest: string, comment: string)
    requires Lays(word, val, pad, gap, rest, comment) && line == pad + (word + gap + val) + rest + comment
    ensures Says(line, word, val)
  {
    hide Lays;
  }

  lemma GapPlain(gap: string)
    requires Gap(gap)
    ensures '#' !in gap
  {
    HashStands();
  }

  /** A "#" that no blank precedes starts no comment. */
  lemma NoCommentHere(line: string, a: string, b: string)
    requires line == a + "#" + b && '#' !in a && a != "" && !Blank(a[|a| - 1])
    ensures NoComment(line)
  {
  }

  lemma CommentStays(word: string, gap: string, val: string, blank: char, comment: string)
    requires OneWord(word) && '#' !in word && Gap(gap) && Trimmed(val) && '#' in val && Blank(blank) && Trimmed("#" + comment)
    requires val[0] != '#' && forall i :: 0 < i < |val| && val[i] == '#' ==> !Blank(val[i - 1])
    ensures Says(word + gap + val + [blank] + "#" + comment, word, val + [blank] + "#" + comment)
  {
    hide Space, Says, TrimSpace, IndexOf, OneWord, Gap, NoComment, Blank;
    HashStands();
    var line, whole := word + gap + val + [blank] + "#" + comment, val + [blank] + "#" + comment;
    GapPlain(gap);
    var i := IndexOf(val, '#');
    var a, b := word + gap + val[..i], val[i + 1..] + [blank] + "#" + comment;
    assert val == val[..i] + "#" + val[i + 1..];
    assert line == a + "#" + b;
    assert '#' !in val[..i];
    assert a[|a| - 1] == val[i - 1];
    NoCommentHere(line, a, b);
    assert Trimmed(whole) by { assert whole[0] == val[0] && whole[|whole| - 1] == ("#" + comment)[|comment|]; }
    assert "" + (word + gap + whole) + "" == line && line + "" == line;
    assert Lays(word, whole, "", gap, "", "");
    LaidSays(line, word, whole, "", gap, "", "");
  }

  /**
   Only the first "#" is looked at: behind a value that holds one a comment is no
   comment.  The value is read without it exactly if it holds no "#".
   */
  lemma CommentIff(word: string, gap: string, val: string, blank: char, comment: string)
    requires OneWord(word) && '#' !in word && Gap(gap) && Trimmed(val) && Blank(blank) && Trimmed("#" + comment)
    requires val[0] != '#'
    requires forall i :: 0 < i < |val| && val[i] == '#' ==> !Blank(val[i - 1])
    ensures Says(word + gap + val + [blank] + "#" + comment, word, val) <==> '#' !in val
    ensures '#' in val ==> Says(word + gap + val + [blank] + "#" + comment, word, val + [blank] + "#" + comment)
  {
    hide Says, ReadLine, Trimmed, Blank;
    var line := word + gap + val + [blank] + "#" + comment;
    if '#' !in val {
      CommentLeaves(word, gap, val, blank, comment);
    } else {
      CommentStays(word, gap, val, blank, comment);
      SaysRead(line, word, val + [blank] + "#" + comment);
      if Says(line, word, val) { SaysRead(line, word, val); }
    }
  }
}
