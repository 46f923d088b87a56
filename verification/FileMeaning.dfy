/**
 What one line more makes of a Kernelfile, word by word (`ParseKernelfile`,
 `step.go`).  With the empty file this says what every file means, since the order
 of the lines does not matter.
 */
module FileMeaning {
  import opened Wrappers
  import opened Text
  import opened Specs
  import opened Kernelfile
  import opened LineMeaning

  /** No line sets the word. */
  ghost predicate Unset(lines: seq<string>, word: string) {
    forall k, val {:trigger Says(lines[k], word, val)} :: 0 <= k < |lines| ==> !Says(lines[k], word, val)
  }

  lemma {:induction false} SetInGather(lines: seq<string>, k: Key)
    requires Gather(lines).Some?
    ensures k in Gather(lines).value <==>
      exists i :: 0 <= i < |lines| && ReadLine(lines[i]).Setting? && ReadLine(lines[i]).word == Word(k)
  {
    hide ReadLine, ValueOk, Word;
    if lines != [] {
      var n := |lines| - 1;
      var before, read := lines[..n], ReadLine(lines[n]);
      SetInGather(before, k);
      KeyOfWord(k);
      assert forall i :: 0 <= i < n ==> before[i] == lines[i];
    }
  }

  lemma KeyOfWord(k: Key)
    ensures KeyOf(Word(k)) == Some(k)
  {
  }

  lemma UnsetIff(lines: seq<string>, k: Key)
    requires Gather(lines).Some?
    ensures k !in Gather(lines).value <==> Unset(lines, Word(k))
  {
    hide ReadLine, Gather, Says, Word;
    SetInGather(lines, k);
    if k in Gather(lines).value {
      var i :| 0 <= i < |lines| && ReadLine(lines[i]).Setting? && ReadLine(lines[i]).word == Word(k);
      ReadSays(lines[i], Word(k), ReadLine(lines[i]).val);
    }
    forall i, val | 0 <= i < |lines| && Says(lines[i], Word(k), val) ensures k in Gather(lines).value {
      SaysRead(lines[i], Word(k), val);
    }
  }

  /** A line between others is one line more for what is gathered. */
  lemma GatherMore(a: seq<string>, line: string, b: seq<string>)
    ensures Gather(a + [line] + b) == AddLine(Gather(a + b), ReadLine(line))
  {
    hide ReadLine, AddLine, Gather;
    ReadLast(a, line, b);
    GatherStep(a + b, line);
  }

  /** The marked line apart, nothing is taken off. */
  predicate NoMarks(a: seq<string>, line: string, b: seq<string>) {
    NoMark(a + b) && NoMark([line])
  }

  lemma NoneMarked(a: seq<string>, line: string, b: seq<string>)
    requires NoMarks(a, line, b)
    ensures Unmarked(a + b) == a + b && Unmarked(a + [line] + b) == a + [line] + b
  {
    if a != [] { assert (a + b)[0] == a[0] && (a + [line] + b)[0] == a[0]; }
  }

  /** A file that is spoilt stays so, and so does one with a line that is neither a setting nor nothing. */
  lemma SpoiltStays(a: seq<string>, line: string, b: seq<string>, s: Spec)
    requires NoMarks(a, line, b)
    ensures Parsed(a + b, false, s) == None ==> Parsed(a + [line] + b, false, s) == None
    ensures SaysNothing(line) ==> Parsed(a + [line] + b, false, s) == Parsed(a + b, false, s)
    ensures !SaysNothing(line) && (forall word, val :: !Says(line, word, val)) ==> Parsed(a + [line] + b, false, s) == None
  {
    hide ReadLine, Gather, Settled, Says, SaysNothing, Unmarked;
    NoneMarked(a, line, b);
    GatherMore(a, line, b);
    NothingIff(line);
    match ReadLine(line)
    case Setting(word, val) => ReadSays(line, word, val);
    case _ =>
  }

  /** One line more, up to what a new key makes of the settings. */
  lemma OneKey(a: seq<string>, line: string, b: seq<string>, s: Spec, k: Key, val: string)
    requires NoMarks(a, line, b) && Says(line, Word(k), val) && Unset(a + b, Word(k))
    requires Parsed(a + b, false, s).Some?
    ensures Gather(a + b).Some? && k !in Gather(a + b).value
    ensures Parsed(a + b, false, s) == Some(Settled(s, Gather(a + b).value))
    ensures Parsed(a + [line] + b, false, s) == if ValueOk(k, val) then Some(Settled(s, Gather(a + b).value[k := val])) else None
  {
    hide ReadLine, Gather, Settled, Says, Unmarked, Unset, Word, ValueOk;
    NoneMarked(a, line, b);
    GatherMore(a, line, b);
    SaysRead(line, Word(k), val);
    KeyOfWord(k);
    UnsetIff(a + b, k);
  }

  lemma SettledMore(s: Spec, m: Settings, k: Key, val: string)
    requires k !in m
    ensures Settled(s, m[k := val]) == SettleWith(WithKey(Filled(s, m), k, val), m.Keys + {k})
    ensures Settled(s, m) == SettleWith(Filled(s, m), m.Keys)
  {
    hide Filled, WithKey;
    SetOne(s, m, k, val);
  }

  /** `Settled` by the keys alone. */
  function SettleWith(t: Spec, ks: set<Key>): Spec {
    t.(sourceURL := if Kernel in ks && SourceUrl !in ks then SourceURLFor(t.kernelVersion) else t.sourceURL,
       sourceSHA256 := if (Kernel in ks || SourceUrl in ks) && Sha256 !in ks then "" else t.sourceSHA256)
  }

  lemma SettledApart(t: Spec, ks: set<Key>, k: Key, val: string)
    requires k != Kernel && k != SourceUrl && k != Sha256
    ensures SettleWith(WithKey(t, k, val), ks + {k}) == WithKey(SettleWith(t, ks), k, val)
  {
    hide SourceURLFor, FieldsFunc;
    assert Kernel in ks + {k} <==> Kernel in ks;
    assert SourceUrl in ks + {k} <==> SourceUrl in ks;
    assert Sha256 in ks + {k} <==> Sha256 in ks;
  }

  /** A key that is not for the source changes its own field. */
  lemma PlainKey(a: seq<string>, line: string, b: seq<string>, s: Spec, k: Key, val: string)
    requires NoMarks(a, line, b) && Says(line, Word(k), val) && Unset(a + b, Word(k)) && Parsed(a + b, false, s).Some?
    requires k != Kernel && k != SourceUrl && k != Sha256
    ensures Parsed(a + [line] + b, false, s) == if ValueOk(k, val) then Some(WithKey(Parsed(a + b, false, s).value, k, val)) else None
  {
    hide Parsed, Says, Unset, Gather, Filled, NoMarks, Settled, SettleWith, WithKey, Word, ValueOk;
    OneKey(a, line, b, s, k, val);
    SettledMore(s, Gather(a + b).value, k, val);
    SettledApart(Filled(s, Gather(a + b).value), Gather(a + b).value.Keys, k, val);
  }

  /**
   The words that say no more than their own field: each sets that one, and leaves
   every other as it was.
   */
  lemma FieldsMean(a: seq<string>, line: string, b: seq<string>, s: Spec, word: string, val: string)
    requires NoMarks(a, line, b) && Says(line, word, val) && Unset(a + b, word) && Parsed(a + b, false, s).Some?
    ensures var t, r := Parsed(a + b, false, s).value, Parsed(a + [line] + b, false, s);
      && (word == "EPOCH" ==> r == Some(t.(sourceDateEpoch := val)))
      && (word == "CONFIG" ==> r == Some(t.(configName := val)))
      && (word == "EXPECT" ==> r == Some(t.(expectName := val)))
      && (word == "BASE_MAKE" ==> r == Some(t.(baseMake := val)))
      && (word == "ARCH" ==> r == Some(t.(arch := val)))
      && (word == "CROSS_COMPILE" ==> r == Some(t.(crossCompile := val)))
      && (word == "PROXY_CA" ==> r == Some(t.(proxyCAFile := val)))
      && (word == "BASE" ==> r == Some(t.(base := val)))
  {
    hide Parsed, Says, Unset, Gather, NoMarks;
    match word
    case "EPOCH" => PlainKey(a, line, b, s, Epoch, val);
    case "CONFIG" => PlainKey(a, line, b, s, Config, val);
    case "EXPECT" => PlainKey(a, line, b, s, Expect, val);
    case "BASE_MAKE" => PlainKey(a, line, b, s, BaseMake, val);
    case "ARCH" => PlainKey(a, line, b, s, Arch, val);
    case "CROSS_COMPILE" => PlainKey(a, line, b, s, CrossCompile, val);
    case "PROXY_CA" => PlainKey(a, line, b, s, ProxyCa, val);
    case "BASE" => PlainKey(a, line, b, s, Base, val);
    case _ =>
  }

  /** The words with values of their own, and the targets between blanks and commas. */
  lemma ChoicesMean(a: seq<string>, line: string, b: seq<string>, s: Spec, word: string, val: string)
    requires NoMarks(a, line, b) && Says(line, word, val) && Unset(a + b, word) && Parsed(a + b, false, s).Some?
    ensures var t, r := Parsed(a + b, false, s).value, Parsed(a + [line] + b, false, s);
      && (word == "PATCHES" ==>
            r == if val == "on" then Some(t.(applyPatches := true)) else if val == "off" then Some(t.(applyPatches := false)) else None)
      && (word == "TOOLCHAIN" ==>
            r == if val == "ready" then Some(t.(toolchainReady := true)) else if val == "apt" then Some(t.(toolchainReady := false)) else None)
      && (word == "TARGETS" ==>
            var xs := FieldsFunc(val, c => c == ' ' || c == '\t' || c == ',');
            r == if xs == [] then None else Some(t.(targets := xs)))
  {
    hide Parsed, Says, Unset, Gather, NoMarks, FieldsFunc;
    match word
    case "PATCHES" => PlainKey(a, line, b, s, Patches, val);
    case "TOOLCHAIN" => PlainKey(a, line, b, s, Toolchain, val);
    case "TARGETS" =>
      PlainKey(a, line, b, s, Targets, val);
      SameSeparators(val);
    case _ =>
  }

  lemma {:induction false} SameRunEnd(s: string, p: char -> bool, q: char -> bool)
    requires forall c :: p(c) <==> q(c)
    ensures RunEnd(s, p) == RunEnd(s, q)
  {
    if s != "" { SameRunEnd(s[1..], p, q); }
  }

  lemma {:induction false} SameFields(s: string, p: char -> bool, q: char -> bool)
    requires forall c :: p(c) <==> q(c)
    ensures FieldsFunc(s, p) == FieldsFunc(s, q)
    decreases |s|
  {
    if s != "" {
      if p(s[0]) {
        SameFields(s[1..], p, q);
      } else {
        SameRunEnd(s, p, q);
        SameFields(s[RunEnd(s, p)..], p, q);
      }
    }
  }

  lemma SameSeparators(val: string)
    ensures FieldsFunc(val, Separator) == FieldsFunc(val, c => c == ' ' || c == '\t' || c == ',')
  {
    SameFields(val, Separator, c => c == ' ' || c == '\t' || c == ',');
  }

  /**
   The words for the source: a version brings its own address unless one is given,
   and version and address drop the pin unless one is given.
   */
  lemma SourceMeans(a: seq<string>, line: string, b: seq<string>, s: Spec, word: string, val: string)
    requires NoMarks(a, line, b) && Says(line, word, val) && Unset(a + b, word) && Parsed(a + b, false, s).Some?
    ensures var t, r := Parsed(a + b, false, s).value, Parsed(a + [line] + b, false, s);
      && (word == "KERNEL" ==>
            r == Some(t.(kernelVersion := val,
                         sourceURL := if Unset(a + b, "SOURCE_URL") then SourceURLFor(val) else t.sourceURL,
                         sourceSHA256 := if Unset(a + b, "SHA256") then "" else t.sourceSHA256)))
      && (word == "SOURCE_URL" ==>
            r == Some(t.(sourceURL := val, sourceSHA256 := if Unset(a + b, "SHA256") then "" else t.sourceSHA256)))
      && (word == "SHA256" ==> r == Some(t.(sourceSHA256 := val)))
  {
    hide Parsed, Says, Unset, Gather, Filled, NoMarks, SourceURLFor, Settled;
    var k := KeyOf(word);
    if k in {Some(Kernel), Some(SourceUrl), Some(Sha256)} {
      OneKey(a, line, b, s, k.value, val);
      SettledMore(s, Gather(a + b).value, k.value, val);
      UnsetIff(a + b, SourceUrl);
      UnsetIff(a + b, Sha256);
    }
  }

  /** Fourteen words; another spoils the file, as a word given twice does. */
  lemma OnlyTheseWords(a: seq<string>, line: string, b: seq<string>, s: Spec, word: string, val: string)
    requires NoMarks(a, line, b) && Says(line, word, val)
    requires !Unset(a + b, word)
      || word !in ["KERNEL", "SOURCE_URL", "SHA256", "EPOCH", "CONFIG", "EXPECT", "BASE_MAKE", "PATCHES", "ARCH",
                   "CROSS_COMPILE", "TARGETS", "PROXY_CA", "BASE", "TOOLCHAIN"]
    ensures Parsed(a + [line] + b, false, s) == None
  {
    hide ReadLine, Gather, Settled, Says, Unmarked, Unset, ValueOk;
    NoneMarked(a, line, b);
    GatherMore(a, line, b);
    SaysRead(line, word, val);
    if KeyOf(word).Some? && Gather(a + b).Some? { UnsetIff(a + b, KeyOf(word).value); }
  }

  /** A file with nothing on it changes nothing, one that cannot be read to its end is refused, and an editor's mark is no part of it. */
  lemma FileEdges(x: string, rest: seq<string>, broken: bool, s: Spec)
    requires NoMark([x])
    ensures Parsed([], false, s) == Some(s) && Parsed(rest, true, s) == None
    ensures Parsed([[BYTE_ORDER_MARK] + x] + rest, broken, s) == Parsed([x] + rest, broken, s)
  {
    FilledNone(s);
    assert ([BYTE_ORDER_MARK] + x)[1..] == x;
    assert Unmarked([[BYTE_ORDER_MARK] + x] + rest) == [x] + rest == Unmarked([x] + rest);
  }

  /** Where a version comes from when no address is given. */
  lemma AddressOf(major: string, rest: string)
    requires '.' !in major
    ensures var v := major + "." + rest;
      SourceURLFor(v) ==
        if Contains(v, "-rc") then "https://git.kernel.org/torvalds/t/linux-" + v + ".tar.gz"
        else "https://cdn.kernel.org/pub/linux/kernel/v" + major + ".x/linux-" + v + ".tar.gz"
  {
    hide Contains;
    CutHere(major, '.', rest);
  }
}
