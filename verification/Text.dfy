/**
 The parts of Go's `strings` package the identity strings and the parsers use.
 A string here is a sequence of characters; the code's strings are UTF-8, and
 every character these functions look for is one of its own.
 */
module Text {

  predicate HasPrefix(s: string, p: string) {
    p <= s
  }

  predicate HasSuffix(s: string, p: string) {
    |p| <= |s| && s[|s| - |p|..] == p
  }

  predicate Contains(s: string, p: string) {
    exists i :: 0 <= i <= |s| && p <= s[i..]
  }

  /** `unicode.IsSpace`. */
  predicate Space(c: char) {
    var n := c as int;
    9 <= n <= 13 || n == 0x20 || n == 0x85 || n == 0xA0 || n == 0x1680 || 0x2000 <= n <= 0x200A
    || n == 0x2028 || n == 0x2029 || n == 0x202F || n == 0x205F || n == 0x3000
  }

  function TrimLeft(s: string): (r: string)
    ensures r == [] || !Space(r[0])
    ensures |r| <= |s| && s[|s| - |r|..] == r && forall i :: 0 <= i < |s| - |r| ==> Space(s[i])
  {
    if s != [] && Space(s[0]) then TrimLeft(s[1..]) else s
  }

  function TrimRight(s: string): (r: string)
    ensures r == [] || !Space(r[|r| - 1])
    ensures r <= s && forall i :: |r| <= i < |s| ==> Space(s[i])
  {
    if s != [] && Space(s[|s| - 1]) then TrimRight(s[..|s| - 1]) else s
  }

  function TrimSpace(s: string): string {
    TrimRight(TrimLeft(s))
  }

  /** Where `c` first occurs, or the length. */
  function IndexOf(s: string, c: char): (i: nat)
    ensures i <= |s| && (forall j :: 0 <= j < i ==> s[j] != c) && (i < |s| ==> s[i] == c)
  {
    if s == [] || s[0] == c then 0 else 1 + IndexOf(s[1..], c)
  }

  /** `strings.Cut` at the first `c`: everything and nothing when there is none. */
  function Cut(s: string, c: char): (string, string) {
    var i := IndexOf(s, c);
    if i < |s| then (s[..i], s[i + 1..]) else (s, "")
  }

  function Split(s: string, c: char): (r: seq<string>)
    ensures |r| > 0
    decreases |s|
  {
    var i := IndexOf(s, c);
    if i < |s| then [s[..i]] + Split(s[i + 1..], c) else [s]
  }

  function Join(parts: seq<string>, c: char): string {
    if parts == [] then ""
    else if |parts| == 1 then parts[0]
    else parts[0] + [c] + Join(parts[1..], c)
  }

  function RunEnd(s: string, stop: char -> bool): (n: nat)
    ensures n <= |s| && (n < |s| ==> stop(s[n])) && forall i :: 0 <= i < n ==> !stop(s[i])
  {
    if s == [] || stop(s[0]) then 0 else 1 + RunEnd(s[1..], stop)
  }

  /** `strings.FieldsFunc`: the maximal runs without a separator. */
  function FieldsFunc(s: string, sep: char -> bool): (r: seq<string>)
    ensures forall i :: 0 <= i < |r| ==> r[i] != "" && forall c :: c in r[i] ==> !sep(c)
    decreases |s|
  {
    if s == [] then []
    else if sep(s[0]) then FieldsFunc(s[1..], sep)
    else
      var n := RunEnd(s, sep);
      [s[..n]] + FieldsFunc(s[n..], sep)
  }

  function Fields(s: string): seq<string> {
    FieldsFunc(s, Space)
  }

  lemma IndexHere(a: string, c: char, b: string)
    requires c !in a
    ensures IndexOf(a + [c] + b, c) == |a|
  {
    var s := a + [c] + b;
    assert forall j :: 0 <= j < |a| ==> s[j] == a[j];
    assert s[|a|] == c;
  }

  lemma CutHere(a: string, c: char, b: string)
    requires c !in a
    ensures Cut(a + [c] + b, c) == (a, b)
  {
    IndexHere(a, c, b);
    var s := a + [c] + b;
    assert s[..|a|] == a && s[|a| + 1..] == b;
  }

  lemma SplitHere(a: string, c: char, b: string)
    requires c !in a
    ensures Split(a + [c] + b, c) == [a] + Split(b, c)
  {
    IndexHere(a, c, b);
    var s := a + [c] + b;
    assert s[..|a|] == a && s[|a| + 1..] == b;
  }

  /** Text before a separator it does not hold is read back from the whole. */
  lemma CutApart(a: string, c: char, b: string, a': string, b': string)
    requires c !in a && c !in a' && a + [c] + b == a' + [c] + b'
    ensures a == a' && b == b'
  {
    CutHere(a, c, b);
    CutHere(a', c, b');
  }

  lemma SameTail(a: string, b: string, a': string, b': string)
    requires a + b == a' + b' && |b| == |b'|
    ensures a == a' && b == b'
  {
    var s := a + b;
    assert a == s[..|a|] && b == s[|a|..];
    assert a' == s[..|a'|] && b' == s[|a'|..];
  }

  lemma TrimNone(s: string)
    requires s != [] && !Space(s[0]) && !Space(s[|s| - 1])
    ensures TrimSpace(s) == s
  {
  }

  predicate Spaces(s: string) {
    forall i :: 0 <= i < |s| ==> Space(s[i])
  }

  /** Neither end is white space. */
  predicate Trimmed(s: string) {
    s != "" && !Space(s[0]) && !Space(s[|s| - 1])
  }

  lemma {:induction false} TrimLeftPadded(pad: string, s: string)
    requires Spaces(pad) && (s == "" || !Space(s[0]))
    ensures TrimLeft(pad + s) == s
  {
    if pad == "" {
      assert pad + s == s;
    } else {
      assert (pad + s)[1..] == pad[1..] + s;
      TrimLeftPadded(pad[1..], s);
    }
  }

  lemma {:induction false} TrimRightPadded(s: string, pad: string)
    requires Spaces(pad) && (s == "" || !Space(s[|s| - 1]))
    ensures TrimRight(s + pad) == s
  {
    if pad == "" {
      assert s + pad == s;
    } else {
      var n := |pad| - 1;
      assert (s + pad)[..|s + pad| - 1] == s + pad[..n] && (s + pad)[|s + pad| - 1] == pad[n];
      TrimRightPadded(s, pad[..n]);
    }
  }

  /** `TrimSpace` takes off what is white at the ends, and nothing else. */
  lemma TrimPadded(a: string, s: string, b: string)
    requires Spaces(a) && Spaces(b) && (s == "" || Trimmed(s))
    ensures TrimSpace(a + s + b) == s
  {
    if s == "" {
      assert a + s + b == (a + b) + "" && Spaces(a + b);
      TrimLeftPadded(a + b, "");
    } else {
      assert a + s + b == a + (s + b);
      TrimLeftPadded(a, s + b);
      TrimRightPadded(s, b);
    }
  }

  /** A separator ends one field and starts another; with the next two, this is all `FieldsFunc` is. */
  lemma {:induction false} FieldsCut(a: string, c: char, b: string, sep: char -> bool)
    requires sep(c)
    ensures FieldsFunc(a + [c] + b, sep) == FieldsFunc(a, sep) + FieldsFunc(b, sep)
    decreases |a|
  {
    var s := a + [c] + b;
    if a == "" {
      assert s[0] == c && s[1..] == b;
    } else if sep(a[0]) {
      assert s[0] == a[0] && s[1..] == a[1..] + [c] + b;
      FieldsCut(a[1..], c, b, sep);
    } else {
      var n := RunEnd(a, sep);
      RunEndFirst(a, [c] + b, sep);
      assert a + ([c] + b) == s;
      if n == |a| {
        assert s[..n] == a && s[n..] == [c] + b && a[n..] == "" && a[..n] == a;
        assert ([c] + b)[1..] == b;
      } else {
        assert s[..n] == a[..n] && s[n..] == a[n..] + [c] + b;
        FieldsCut(a[n..], c, b, sep);
      }
    }
  }

  lemma {:induction false} RunEndFirst(a: string, b: string, stop: char -> bool)
    requires b != "" && stop(b[0])
    ensures RunEnd(a + b, stop) == RunEnd(a, stop)
  {
    if a == "" {
      assert a + b == b;
    } else if !stop(a[0]) {
      assert (a + b)[1..] == a[1..] + b;
      RunEndFirst(a[1..], b, stop);
    }
  }

  lemma FieldsOne(a: string, sep: char -> bool)
    requires forall c :: c in a ==> !sep(c)
    ensures FieldsFunc(a, sep) == if a == "" then [] else [a]
  {
    if a != "" {
      assert forall i :: 0 <= i < |a| ==> a[i] in a;
      assert RunEnd(a, sep) == |a| && a[..|a|] == a;
    }
  }

  predicate Tokens(xs: seq<string>, c: char) {
    forall i :: 0 <= i < |xs| ==> xs[i] != "" && c !in xs[i]
  }

  /** The separator shows in the join exactly when there is more than one token. */
  lemma JoinShape(xs: seq<string>, c: char)
    requires Tokens(xs, c)
    ensures Join(xs, c) == "" <==> xs == []
    ensures c in Join(xs, c) <==> |xs| > 1
  {
    if |xs| > 1 { assert Join(xs, c)[|xs[0]|] == c; }
  }

  /** Joined tokens that do not hold the separator are read back from the join. */
  lemma {:induction false} JoinApart(xs: seq<string>, ys: seq<string>, c: char)
    requires Tokens(xs, c) && Tokens(ys, c) && Join(xs, c) == Join(ys, c)
    ensures xs == ys
  {
    JoinShape(xs, c);
    JoinShape(ys, c);
    if |xs| > 1 {
      CutApart(xs[0], c, Join(xs[1..], c), ys[0], Join(ys[1..], c));
      JoinApart(xs[1..], ys[1..], c);
    }
  }

  lemma {:induction false} JoinHolds(xs: seq<string>, sep: char, c: char)
    requires c != sep && forall x :: x in xs ==> c !in x
    ensures c !in Join(xs, sep)
  {
    if |xs| > 0 {
      assert xs[0] in xs;
      if |xs| > 1 { JoinHolds(xs[1..], sep, c); }
    }
  }
}
