/**
 * The `concepting` tool: it tallies how often each class, method and member
 * name occurs (`by_text`) and how often each word of those names occurs
 * (`by_word`), then lists each tally as rows sorted by count, highest first.
 * A tally is a map from a key to its count; an absent key counts as zero.
 */
module Concepting {
  import opened Strings
  import opened CocoStruct
  import opened Sorting
  import Rendering

  /** `ConceptOpts::to_parse_option`: whatever the command line says, every flag is off and there is no suffix. */
  function ToParseOption(): (o: ParseOption)
    ensures !o.mergeMethodName && !o.fieldOnly && !o.withoutParent
    ensures !o.withoutImplSuffix && !o.inlineIdSuffix && o.withoutSuffix == ""
    ensures o == DefaultOption()
  {
    ParseOption(false, false, false, false, false, "")
  }

  // ---------------------------------------------------------------------------
  // Tallies

  /** The count a tally holds for `k`, zero when `k` is absent (`entry(k).or_insert(0)`). */
  function Count(m: map<string, nat>, k: string): nat {
    if k in m then m[k] else 0
  }

  /** The tally `m` after counting each element of `s` once, in order. */
  function Tally(m: map<string, nat>, s: seq<string>): map<string, nat>
    decreases |s|
  {
    if |s| == 0 then m
    else
      var before := Tally(m, s[..|s| - 1]);
      var k := s[|s| - 1];
      before[k := Count(before, k) + 1]
  }

  lemma TallySnoc(m: map<string, nat>, s: seq<string>, k: string)
    ensures Tally(m, s + [k]) == Tally(m, s)[k := Count(Tally(m, s), k) + 1]
  {
    assert (s + [k])[..|s|] == s;
  }

  /** Counting `a` and then `b` is counting `a + b`. */
  lemma {:induction false} TallyConcat(m: map<string, nat>, a: seq<string>, b: seq<string>)
    ensures Tally(Tally(m, a), b) == Tally(m, a + b)
    decreases |b|
  {
    if |b| > 0 {
      var n := |b| - 1;
      assert b == b[..n] + [b[n]];
      assert a + b == (a + b[..n]) + [b[n]];
      calc {
        Tally(Tally(m, a), b);
        == { TallySnoc(Tally(m, a), b[..n], b[n]); }
        Tally(Tally(m, a), b[..n])[b[n] := Count(Tally(Tally(m, a), b[..n]), b[n]) + 1];
        == { TallyConcat(m, a, b[..n]); }
        Tally(m, a + b[..n])[b[n] := Count(Tally(m, a + b[..n]), b[n]) + 1];
        == { TallySnoc(m, a + b[..n], b[n]); }
        Tally(m, a + b);
      }
    } else {
      assert a + b == a;
    }
  }

  /** Each key's count grows by the number of times it occurs in `s`. */
  lemma {:induction false} TallyCounts(m: map<string, nat>, s: seq<string>, k: string)
    ensures Count(Tally(m, s), k) == Count(m, k) + multiset(s)[k]
    decreases |s|
  {
    if |s| > 0 {
      var n := |s| - 1;
      TallyCounts(m, s[..n], k);
      assert s == s[..n] + [s[n]];
      assert multiset(s) == multiset(s[..n]) + multiset{s[n]};
    }
  }

  /** A tally holds exactly the keys it started with and the keys it counted. */
  lemma {:induction false} TallyKeys(m: map<string, nat>, s: seq<string>, k: string)
    ensures k in Tally(m, s) <==> k in m || k in s
    decreases |s|
  {
    if |s| > 0 {
      var n := |s| - 1;
      TallyKeys(m, s[..n], k);
      assert s == s[..n] + [s[n]];
    }
  }

  /** A key of a tally, the one `Total` sums first. */
  ghost function ChosenKey(m: map<string, nat>): (k: string)
    requires m != map[]
    ensures k in m
  {
    var k :| k in m; k
  }

  /** The sum of all counts of a tally. */
  ghost function Total(m: map<string, nat>): nat
    decreases |m.Keys|
  {
    if m == map[] then 0
    else
      var k := ChosenKey(m);
      assert m.Keys - {k} == (m - {k}).Keys;
      m[k] + Total(m - {k})
  }

  /** The sum does not depend on which key is taken first. */
  lemma {:induction false} TotalRemove(m: map<string, nat>, k: string)
    requires k in m
    ensures Total(m) == m[k] + Total(m - {k})
    decreases |m.Keys|
  {
    var j := ChosenKey(m);
    if j != k {
      assert (m - {j}).Keys == m.Keys - {j};
      assert (m - {k}).Keys == m.Keys - {k};
      TotalRemove(m - {j}, k);
      TotalRemove(m - {k}, j);
      assert m - {j} - {k} == m - {k} - {j};
    }
  }

  /** Raising one count by one raises the sum by one. */
  lemma TotalBump(m: map<string, nat>, k: string)
    ensures Total(m[k := Count(m, k) + 1]) == Total(m) + 1
  {
    var bumped := m[k := Count(m, k) + 1];
    TotalRemove(bumped, k);
    if k in m {
      TotalRemove(m, k);
      assert bumped - {k} == m - {k};
    } else {
      assert bumped - {k} == m;
    }
  }

  /** Counting a sequence raises the sum by its length. */
  lemma {:induction false} TotalTally(m: map<string, nat>, s: seq<string>)
    ensures Total(Tally(m, s)) == Total(m) + |s|
    decreases |s|
  {
    if |s| > 0 {
      var n := |s| - 1;
      TotalTally(m, s[..n]);
      TotalBump(Tally(m, s[..n]), s[n]);
    }
  }

  /** `count_text`: the count of `v` goes up by one, an absent `v` counting as zero; every other count stays. */
  method CountText(m: map<string, nat>, v: string) returns (m': map<string, nat>)
    ensures m'.Keys == m.Keys + {v}
    ensures m'[v] == Count(m, v) + 1
    ensures forall k :: k in m && k != v ==> m'[k] == m[k]
  {
    var counter := if v in m then m[v] else 0;
    counter := counter + 1;
    m' := m[v := counter];
  }

  // ---------------------------------------------------------------------------
  // Words

  /** The words of `words` whose lower-case form is in neither stop list, in order. */
  function Kept(words: seq<string>, stopWords: set<string>, techStopWords: set<string>): seq<string>
    decreases |words|
  {
    if |words| == 0 then []
    else
      var w := words[|words| - 1];
      Kept(words[..|words| - 1], stopWords, techStopWords)
        + (if Lower(w) in stopWords || Lower(w) in techStopWords then [] else [w])
  }

  lemma KeptStep(words: seq<string>, stopWords: set<string>, techStopWords: set<string>, i: nat)
    requires i < |words|
    ensures Kept(words[..i + 1], stopWords, techStopWords) == Kept(words[..i], stopWords, techStopWords)
      + (if Lower(words[i]) in stopWords || Lower(words[i]) in techStopWords then [] else [words[i]])
  {
    assert words[..i + 1][..i] == words[..i];
  }

  /** A kept word occurs as often as in the input unless its lower-case form is a stop word; then it is gone. */
  lemma {:induction false} KeptCounts(words: seq<string>, stopWords: set<string>, techStopWords: set<string>, w: string)
    ensures multiset(Kept(words, stopWords, techStopWords))[w]
      == (if Lower(w) in stopWords || Lower(w) in techStopWords then 0 else multiset(words)[w])
    decreases |words|
  {
    if |words| > 0 {
      var n := |words| - 1;
      KeptCounts(words[..n], stopWords, techStopWords, w);
      assert words == words[..n] + [words[n]];
      assert multiset(words) == multiset(words[..n]) + multiset{words[n]};
    }
  }

  /**
   * `count_words`, with `segment` and the two stop-word lists given: each
   * segment of `v` is counted once unless its lower-case form is a stop word.
   */
  method CountWords(m: map<string, nat>, v: string, segment: string -> seq<string>,
                    stopWords: set<string>, techStopWords: set<string>)
    returns (m': map<string, nat>)
    ensures m' == Tally(m, Kept(segment(v), stopWords, techStopWords))
  {
    m' := m;
    var words := segment(v);
    for i := 0 to |words|
      invariant m' == Tally(m, Kept(words[..i], stopWords, techStopWords))
    {
      var word := words[i];
      var lower := Lower(word);
      ghost var kept := Kept(words[..i], stopWords, techStopWords);
      KeptStep(words, stopWords, techStopWords, i);
      if lower in stopWords {
        assert Kept(words[..i + 1], stopWords, techStopWords) == kept;
        continue;
      }
      if lower in techStopWords {
        assert Kept(words[..i + 1], stopWords, techStopWords) == kept;
        continue;
      }
      assert Kept(words[..i + 1], stopWords, techStopWords) == kept + [word];
      TallySnoc(m, kept, word);
      var counter := if word in m' then m'[word] else 0;
      counter := counter + 1;
      m' := m'[word := counter];
    }
    assert words[..|words|] == words;
  }

  /** What one call of `count_words` does to each count: the word's unstopped occurrences among the segments are added. */
  lemma CountWordsCounts(m: map<string, nat>, v: string, segment: string -> seq<string>,
                         stopWords: set<string>, techStopWords: set<string>, w: string)
    ensures Count(Tally(m, Kept(segment(v), stopWords, techStopWords)), w)
      == Count(m, w) + (if Lower(w) in stopWords || Lower(w) in techStopWords then 0 else multiset(segment(v))[w])
  {
    TallyCounts(m, Kept(segment(v), stopWords, techStopWords), w);
    KeptCounts(segment(v), stopWords, techStopWords, w);
  }

  // ---------------------------------------------------------------------------
  // Names

  /** The names of a class's methods, in order. */
  function MethodNames(c: ClassInfo): (names: seq<string>)
    ensures |names| == |c.methods|
    ensures forall j :: 0 <= j < |c.methods| ==> names[j] == c.methods[j].name
  {
    seq(|c.methods|, j requires 0 <= j < |c.methods| => c.methods[j].name)
  }

  /** The names of a class's members, in order. */
  function MemberNames(c: ClassInfo): (names: seq<string>)
    ensures |names| == |c.members|
    ensures forall j :: 0 <= j < |c.members| ==> names[j] == c.members[j].name
  {
    seq(|c.members|, j requires 0 <= j < |c.members| => c.members[j].name)
  }

  /** The names one class contributes: its own, then its methods', then its members'. */
  function ClassNames(c: ClassInfo): seq<string> {
    [c.name] + MethodNames(c) + MemberNames(c)
  }

  /** The names of all classes, in the order `class_to_identify_map` counts them. */
  function AllNames(classes: seq<ClassInfo>): seq<string>
    decreases |classes|
  {
    if |classes| == 0 then []
    else AllNames(classes[..|classes| - 1]) + ClassNames(classes[|classes| - 1])
  }

  lemma AllNamesStep(classes: seq<ClassInfo>, i: nat)
    requires i < |classes|
    ensures AllNames(classes[..i + 1]) == AllNames(classes[..i]) + ClassNames(classes[i])
  {
    assert classes[..i + 1][..i] == classes[..i];
  }

  /** The kept words of all the names, in order. */
  function Words(names: seq<string>, segment: string -> seq<string>, stopWords: set<string>, techStopWords: set<string>): seq<string>
    decreases |names|
  {
    if |names| == 0 then []
    else
      Words(names[..|names| - 1], segment, stopWords, techStopWords)
        + Kept(segment(names[|names| - 1]), stopWords, techStopWords)
  }

  lemma WordsSnoc(names: seq<string>, v: string, segment: string -> seq<string>, stopWords: set<string>, techStopWords: set<string>)
    ensures Words(names + [v], segment, stopWords, techStopWords)
      == Words(names, segment, stopWords, techStopWords) + Kept(segment(v), stopWords, techStopWords)
  {
    assert (names + [v])[..|names|] == names;
  }

  /** The number of methods of all classes. */
  function MethodTotal(classes: seq<ClassInfo>): nat
    decreases |classes|
  {
    if |classes| == 0 then 0
    else MethodTotal(classes[..|classes| - 1]) + |classes[|classes| - 1].methods|
  }

  /** The number of members of all classes. */
  function MemberTotal(classes: seq<ClassInfo>): nat
    decreases |classes|
  {
    if |classes| == 0 then 0
    else MemberTotal(classes[..|classes| - 1]) + |classes[|classes| - 1].members|
  }

  lemma MethodTotalStep(classes: seq<ClassInfo>, i: nat)
    requires i < |classes|
    ensures MethodTotal(classes[..i + 1]) == MethodTotal(classes[..i]) + |classes[i].methods|
  {
    assert classes[..i + 1][..i] == classes[..i];
  }

  /** Counting `names` took the word tally from `byWord` to `byWord'` and the text tally from `byText` to `byText'`. */
  ghost predicate Counted(names: seq<string>, segment: string -> seq<string>, stopWords: set<string>, techStopWords: set<string>,
                          byWord: map<string, nat>, byText: map<string, nat>, byWord': map<string, nat>, byText': map<string, nat>)
  {
    && byText' == Tally(byText, names)
    && byWord' == Tally(byWord, Words(names, segment, stopWords, techStopWords))
  }

  /** The words of `a + b` are the words of `a`, then those of `b`. */
  lemma {:induction false} WordsConcat(a: seq<string>, b: seq<string>, segment: string -> seq<string>,
                                       stopWords: set<string>, techStopWords: set<string>)
    ensures Words(a + b, segment, stopWords, techStopWords)
      == Words(a, segment, stopWords, techStopWords) + Words(b, segment, stopWords, techStopWords)
    decreases |b|
  {
    if |b| > 0 {
      var n := |b| - 1;
      WordsConcat(a, b[..n], segment, stopWords, techStopWords);
      assert b == b[..n] + [b[n]];
      assert a + b == (a + b[..n]) + [b[n]];
      WordsSnoc(a + b[..n], b[n], segment, stopWords, techStopWords);
      WordsSnoc(b[..n], b[n], segment, stopWords, techStopWords);
    } else {
      assert a + b == a;
    }
  }

  /** Counting `a`, then `b`, is counting `a + b`. */
  lemma CountedConcat(a: seq<string>, b: seq<string>, segment: string -> seq<string>, stopWords: set<string>, techStopWords: set<string>,
                      w0: map<string, nat>, t0: map<string, nat>, w1: map<string, nat>, t1: map<string, nat>,
                      w2: map<string, nat>, t2: map<string, nat>)
    requires Counted(a, segment, stopWords, techStopWords, w0, t0, w1, t1)
    requires Counted(b, segment, stopWords, techStopWords, w1, t1, w2, t2)
    ensures Counted(a + b, segment, stopWords, techStopWords, w0, t0, w2, t2)
  {
    TallyConcat(t0, a, b);
    WordsConcat(a, b, segment, stopWords, techStopWords);
    TallyConcat(w0, Words(a, segment, stopWords, techStopWords), Words(b, segment, stopWords, techStopWords));
  }

  /** One name counted in both tallies, as the three loops of `class_to_identify_map` each do. */
  method CountName(v: string, byWord: map<string, nat>, byText: map<string, nat>,
                   segment: string -> seq<string>, stopWords: set<string>, techStopWords: set<string>)
    returns (byWord': map<string, nat>, byText': map<string, nat>)
    ensures Counted([v], segment, stopWords, techStopWords, byWord, byText, byWord', byText')
  {
    byWord' := CountWords(byWord, v, segment, stopWords, techStopWords);
    byText' := CountText(byText, v);
    TallySnoc(byText, [], v);
    assert Words([v], segment, stopWords, techStopWords) == Kept(segment(v), stopWords, techStopWords) by {
      WordsSnoc([], v, segment, stopWords, techStopWords);
      assert [] + [v] == [v];
    }
  }

  /** One of the inner loops of `class_to_identify_map`: each name of a class's methods, or of its members, counted in turn. */
  method CountNames(names: seq<string>, byWord: map<string, nat>, byText: map<string, nat>,
                    segment: string -> seq<string>, stopWords: set<string>, techStopWords: set<string>)
    returns (byWord': map<string, nat>, byText': map<string, nat>)
    ensures Counted(names, segment, stopWords, techStopWords, byWord, byText, byWord', byText')
  {
    byWord', byText' := byWord, byText;
    for j := 0 to |names|
      invariant Counted(names[..j], segment, stopWords, techStopWords, byWord, byText, byWord', byText')
    {
      var nextWord, nextText := CountName(names[j], byWord', byText', segment, stopWords, techStopWords);
      CountedConcat(names[..j], [names[j]], segment, stopWords, techStopWords, byWord, byText, byWord', byText', nextWord, nextText);
      assert names[..j] + [names[j]] == names[..j + 1];
      byWord', byText' := nextWord, nextText;
    }
    assert names[..|names|] == names;
  }

  /** The body of the class loop of `class_to_identify_map`: the class name, then the method names, then the member names. */
  method CountClass(clazz: ClassInfo, byWord: map<string, nat>, byText: map<string, nat>,
                    segment: string -> seq<string>, stopWords: set<string>, techStopWords: set<string>)
    returns (byWord': map<string, nat>, byText': map<string, nat>)
    ensures Counted(ClassNames(clazz), segment, stopWords, techStopWords, byWord, byText, byWord', byText')
  {
    var methodNames, memberNames := MethodNames(clazz), MemberNames(clazz);
    var w1, t1 := CountName(clazz.name, byWord, byText, segment, stopWords, techStopWords);
    var w2, t2 := CountNames(methodNames, w1, t1, segment, stopWords, techStopWords);
    byWord', byText' := CountNames(memberNames, w2, t2, segment, stopWords, techStopWords);
    CountedConcat([clazz.name], methodNames, segment, stopWords, techStopWords, byWord, byText, w1, t1, w2, t2);
    CountedConcat([clazz.name] + methodNames, memberNames, segment, stopWords, techStopWords, byWord, byText, w2, t2, byWord', byText');
  }

  /**
   * `class_to_identify_map`, with `segment` and the stop-word lists given:
   * every class name, then its method names, then its member names are
   * counted as words and as whole texts. The number of methods, which the
   * source only logs, is returned.
   */
  method ClassToIdentifyMap(classes: seq<ClassInfo>, segment: string -> seq<string>,
                            stopWords: set<string>, techStopWords: set<string>)
    returns (byWord: map<string, nat>, byText: map<string, nat>, methodsCounts: nat)
    ensures byText == Tally(map[], AllNames(classes))
    ensures byWord == Tally(map[], Words(AllNames(classes), segment, stopWords, techStopWords))
    ensures methodsCounts == MethodTotal(classes)
  {
    byWord := map[];
    byText := map[];

    methodsCounts := 0;
    for i := 0 to |classes|
      invariant Counted(AllNames(classes[..i]), segment, stopWords, techStopWords, map[], map[], byWord, byText)
      invariant methodsCounts == MethodTotal(classes[..i])
    {
      var clazz := classes[i];
      AllNamesStep(classes, i);
      MethodTotalStep(classes, i);
      methodsCounts := methodsCounts + |clazz.methods|;
      var nextWord, nextText := CountClass(clazz, byWord, byText, segment, stopWords, techStopWords);
      CountedConcat(AllNames(classes[..i]), ClassNames(clazz), segment, stopWords, techStopWords,
                    map[], map[], byWord, byText, nextWord, nextText);
      byWord, byText := nextWord, nextText;
    }
    assert classes[..|classes|] == classes;
  }

  // ---------------------------------------------------------------------------
  // Properties of the name tally

  /** Every class, method and member contributes exactly one name. */
  lemma {:induction false} AllNamesLength(classes: seq<ClassInfo>)
    ensures |AllNames(classes)| == |classes| + MethodTotal(classes) + MemberTotal(classes)
    decreases |classes|
  {
    if |classes| > 0 {
      AllNamesLength(classes[..|classes| - 1]);
    }
  }

  /** A name is counted exactly when it is the name of some class, or of a method or member of it. */
  lemma {:induction false} AllNamesMembers(classes: seq<ClassInfo>, k: string)
    ensures k in AllNames(classes) <==> exists i :: 0 <= i < |classes| && k in ClassNames(classes[i])
    decreases |classes|
  {
    if |classes| > 0 {
      var n := |classes| - 1;
      AllNamesMembers(classes[..n], k);
      if k in AllNames(classes[..n]) {
        var i :| 0 <= i < n && k in ClassNames(classes[..n][i]);
        assert classes[i] == classes[..n][i];
      }
      if exists i :: 0 <= i < |classes| && k in ClassNames(classes[i]) {
        var i :| 0 <= i < |classes| && k in ClassNames(classes[i]);
        if i < n {
          assert classes[..n][i] == classes[i];
        }
      }
    }
  }

  /** A class's names are its own, those of its methods and those of its members. */
  lemma ClassNamesMembers(c: ClassInfo, k: string)
    ensures k in ClassNames(c) <==>
      || k == c.name
      || (exists j :: 0 <= j < |c.methods| && c.methods[j].name == k)
      || (exists j :: 0 <= j < |c.members| && c.members[j].name == k)
  {
    if k in MethodNames(c) {
      var j :| 0 <= j < |c.methods| && MethodNames(c)[j] == k;
    }
    if k in MemberNames(c) {
      var j :| 0 <= j < |c.members| && MemberNames(c)[j] == k;
    }
  }

  /**
   * The text tally of `class_to_identify_map`: its keys are exactly the
   * class, method and member names, each count is the number of times the
   * name occurs, and the counts add up to the number of classes plus all
   * their methods and members.
   */
  lemma ByTextTally(classes: seq<ClassInfo>, k: string)
    ensures k in Tally(map[], AllNames(classes)) <==> exists i :: 0 <= i < |classes| && k in ClassNames(classes[i])
    ensures Count(Tally(map[], AllNames(classes)), k) == multiset(AllNames(classes))[k]
    ensures Total(Tally(map[], AllNames(classes))) == |classes| + MethodTotal(classes) + MemberTotal(classes)
  {
    TallyKeys(map[], AllNames(classes), k);
    AllNamesMembers(classes, k);
    TallyCounts(map[], AllNames(classes), k);
    TotalTally(map[], AllNames(classes));
    AllNamesLength(classes);
  }

  /**
   * The word tally of `class_to_identify_map` counts each kept segment of every
   * name once: a word's counter is its number of occurrences among the kept
   * segments, and the counters add up to the number of kept segments.
   */
  lemma ByWordCounts(classes: seq<ClassInfo>, segment: string -> seq<string>,
                     stopWords: set<string>, techStopWords: set<string>, w: string)
    ensures var words := Words(AllNames(classes), segment, stopWords, techStopWords);
      && Count(Tally(map[], words), w) == multiset(words)[w]
      && Total(Tally(map[], words)) == |words|
  {
    var words := Words(AllNames(classes), segment, stopWords, techStopWords);
    TallyCounts(map[], words, w);
    TotalTally(map[], words);
  }

  /** A stop word (in either list, compared in lower case) never becomes a key of the word tally. */
  lemma ByWordTally(classes: seq<ClassInfo>, segment: string -> seq<string>,
                    stopWords: set<string>, techStopWords: set<string>, w: string)
    requires Lower(w) in stopWords || Lower(w) in techStopWords
    ensures w !in Tally(map[], Words(AllNames(classes), segment, stopWords, techStopWords))
  {
    var words := Words(AllNames(classes), segment, stopWords, techStopWords);
    StopWordsNeverKept(AllNames(classes), segment, stopWords, techStopWords, w);
    TallyKeys(map[], words, w);
  }

  lemma {:induction false} StopWordsNeverKept(names: seq<string>, segment: string -> seq<string>,
                                              stopWords: set<string>, techStopWords: set<string>, w: string)
    requires Lower(w) in stopWords || Lower(w) in techStopWords
    ensures w !in Words(names, segment, stopWords, techStopWords)
    decreases |names|
  {
    if |names| > 0 {
      var n := |names| - 1;
      StopWordsNeverKept(names[..n], segment, stopWords, techStopWords, w);
      KeptCounts(segment(names[n]), stopWords, techStopWords, w);
    }
  }

  /** A class `Demo` with one method `Demo`, twice. */
  function TwiceDemo(): seq<ClassInfo> {
    var c := NewClass("Demo").(methods := [NewMethod("Demo", "", [], "")]);
    [c, c]
  }

  lemma TwiceDemoNames()
    ensures AllNames(TwiceDemo()) == ["Demo", "Demo", "Demo", "Demo"]
  {
    var classes := TwiceDemo();
    assert ClassNames(classes[0]) == ["Demo", "Demo"];
    AllNamesStep(classes, 0);
    AllNamesStep(classes, 1);
    assert classes[..0] == [] && classes[..2] == classes;
  }

  /** Counting one key `n` times from nothing gives that key the count `n` and nothing else. */
  lemma {:induction false} TallyOfOneKey(s: seq<string>, k: string)
    requires forall i :: 0 <= i < |s| ==> s[i] == k
    ensures |s| > 0 ==> Tally(map[], s) == map[k := |s|]
    decreases |s|
  {
    if |s| > 1 {
      TallyOfOneKey(s[..|s| - 1], k);
    }
  }

  /** The text `Demo`, named four times over two classes, is counted four times, and nothing else is counted. */
  lemma RepeatedNames()
    ensures Tally(map[], AllNames(TwiceDemo())) == map["Demo" := 4]
  {
    TwiceDemoNames();
    TallyOfOneKey(["Demo", "Demo", "Demo", "Demo"], "Demo");
  }

  // ---------------------------------------------------------------------------
  // Rows of `map_to_csv`

  /** `b.1.cmp(a.1)`: a row goes before another when its count is not lower. */
  function ByCountDesc(): ((string, nat), (string, nat)) -> bool {
    (a: (string, nat), b: (string, nat)) => a.1 >= b.1
  }

  lemma ByCountDescIsTotalPreorder()
    ensures TotalPreorder(ByCountDesc())
  {
  }

  /** The rows of a tally in the order its keys were walked. */
  ghost function Rows(m: map<string, nat>, order: seq<string>): (rows: seq<(string, nat)>)
    requires forall i :: 0 <= i < |order| ==> order[i] in m
    ensures |rows| == |order|
  {
    seq(|order|, i requires 0 <= i < |order| && order[i] in m => (order[i], m[order[i]]))
  }

  /**
   * The row order of `map_to_csv`: the tally's entries are collected in the
   * order the map is walked, then stably sorted by count, highest first.
   */
  method SortRows(word: map<string, nat>) returns (rows: seq<(string, nat)>, ghost order: seq<string>)
    ensures Rendering.Enumerates(order, word.Keys)
    ensures forall i, j :: 0 <= i < j < |rows| ==> rows[i].1 >= rows[j].1
    ensures |rows| == |word|
    ensures forall r :: r in rows <==> r.0 in word && r.1 == word[r.0]
    ensures forall i, j :: 0 <= i < j < |rows| ==> rows[i].0 != rows[j].0
    ensures forall p :: Equivalents(rows, p, ByCountDesc()) == Equivalents(Rows(word, order), p, ByCountDesc())
  {
    var hashVec: seq<(string, nat)> := [];
    var rest := word.Keys;
    order := [];
    while rest != {}
      invariant rest <= word.Keys
      invariant forall t :: t in order <==> t in word && t !in rest
      invariant forall i, j :: 0 <= i < j < |order| ==> order[i] != order[j]
      invariant |hashVec| == |order|
      invariant forall i :: 0 <= i < |order| ==> hashVec[i] == (order[i], word[order[i]])
      decreases rest
    {
      var key :| key in rest;
      assert key !in order;
      hashVec := hashVec + [(key, word[key])];
      order := order + [key];
      rest := rest - {key};
    }
    Rendering.EnumeratesSize(order, word.Keys);
    assert hashVec == Rows(word, order);

    rows := SortBy(hashVec, ByCountDesc());
    SortByPermutes(hashVec, ByCountDesc());
    ByCountDescIsTotalPreorder();
    SortBySorted(hashVec, ByCountDesc());
    forall p ensures Equivalents(rows, p, ByCountDesc()) == Equivalents(Rows(word, order), p, ByCountDesc()) {
      SortByStable(hashVec, p, ByCountDesc());
    }
    RowsOfWalk(word, order, rows);
  }

  /** A permutation of the walked rows holds each entry of the tally once. */
  lemma RowsOfWalk(word: map<string, nat>, order: seq<string>, rows: seq<(string, nat)>)
    requires Rendering.Enumerates(order, word.Keys)
    requires multiset(rows) == multiset(Rows(word, order))
    ensures forall r :: r in rows <==> r.0 in word && r.1 == word[r.0]
    ensures forall i, j :: 0 <= i < j < |rows| ==> rows[i].0 != rows[j].0
  {
    var walked := Rows(word, order);
    forall r ensures r in rows <==> r.0 in word && r.1 == word[r.0] {
      assert r in rows <==> r in multiset(rows);
      assert r in walked <==> r in multiset(walked);
      if r.0 in word && r.1 == word[r.0] {
        var i :| 0 <= i < |order| && order[i] == r.0;
        assert walked[i] == r;
      }
    }
    forall i, j | 0 <= i < j < |rows| ensures rows[i].0 != rows[j].0 {
      if rows[i].0 == rows[j].0 {
        assert rows[i] in multiset(rows) && rows[i] == rows[j];
        var ms := multiset(rows);
        assert rows == rows[..i] + [rows[i]] + rows[i + 1..j] + [rows[j]] + rows[j + 1..];
        assert ms[rows[i]] >= 2;
        // the walked rows hold every key once
        DistinctWalk(word, order, rows[i]);
      }
    }
  }

  /** Each entry of the tally occurs at most once among the walked rows. */
  lemma DistinctWalk(word: map<string, nat>, order: seq<string>, r: (string, nat))
    requires Rendering.Enumerates(order, word.Keys)
    ensures multiset(Rows(word, order))[r] <= 1
  {
    DistinctKeysOnce(Rows(word, order), r);
  }

  lemma {:induction false} DistinctKeysOnce(rows: seq<(string, nat)>, r: (string, nat))
    requires forall i, j :: 0 <= i < j < |rows| ==> rows[i].0 != rows[j].0
    ensures multiset(rows)[r] <= 1
    decreases |rows|
  {
    if |rows| > 0 {
      var n := |rows| - 1;
      DistinctKeysOnce(rows[..n], r);
      assert rows == rows[..n] + [rows[n]];
      if rows[n] == r {
        forall i | 0 <= i < n ensures rows[..n][i] != r {
          assert rows[i].0 != rows[n].0;
        }
        assert r !in rows[..n];
      }
    }
  }
}
