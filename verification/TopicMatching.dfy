/** Topic levels, filter validation, decorator stripping and filter matching.
  Strings are the source's strings; `/` separates levels. */
module TopicMatching {

  type Path = seq<string>

  // ----- Splitting a topic into levels -----

  /** Python's `s.split("/")`: one level more than there are separators. */
  function Split(s: string): (r: Path)
    ensures |r| >= 1
  {
    if s == "" then [""]
    else
      var rest := Split(s[1..]);
      if s[0] == '/' then [""] + rest else [[s[0]] + rest[0]] + rest[1..]
  }

  function Join(levels: Path): string
    requires levels != []
  {
    if |levels| == 1 then levels[0] else levels[0] + "/" + Join(levels[1..])
  }

  lemma {:induction false} JoinSplit(s: string)
    ensures Join(Split(s)) == s
  {
    if s != "" {
      JoinSplit(s[1..]);
      var rest := Split(s[1..]);
      if s[0] == '/' {
        assert ([""] + rest)[1..] == rest;
      } else {
        var r := [[s[0]] + rest[0]] + rest[1..];
        assert r[1..] == rest[1..];
      }
    }
  }

  predicate NoSeparator(levels: Path) {
    forall i :: 0 <= i < |levels| ==> '/' !in levels[i]
  }

  lemma {:induction false} SplitHasNoSeparator(s: string)
    ensures NoSeparator(Split(s))
  {
    if s != "" { SplitHasNoSeparator(s[1..]); }
  }

  lemma {:induction false} SplitLevel(s: string)
    requires '/' !in s
    ensures Split(s) == [s]
  {
    if s != "" {
      assert forall c :: c in s[1..] ==> c in s;
      SplitLevel(s[1..]);
      assert s[0] in s && s == [s[0]] + s[1..];
    }
  }

  lemma {:induction false} SplitConcat(a: string, b: string)
    ensures Split(a + "/" + b) == Split(a) + Split(b)
  {
    var s := a + "/" + b;
    if a == "" {
      assert s == "/" + b;
      assert s[1..] == b;
    } else {
      assert s[0] == a[0] && s[1..] == a[1..] + "/" + b;
      SplitConcat(a[1..], b);
    }
  }

  lemma {:induction false} SplitJoin(levels: Path)
    requires levels != [] && NoSeparator(levels)
    ensures Split(Join(levels)) == levels
  {
    SplitLevel(levels[0]);
    if |levels| > 1 {
      SplitJoin(levels[1..]);
      SplitConcat(levels[0], Join(levels[1..]));
    } else {
      assert levels == [levels[0]];
    }
  }

  lemma SplitInjective(a: string, b: string)
    requires Split(a) == Split(b)
    ensures a == b
  {
    JoinSplit(a);
    JoinSplit(b);
  }

  // ----- Matching -----

  predicate StartsWithDollar(s: string) { s != "" && s[0] == '$' }

  lemma DollarIsInFirstLevel(s: string)
    ensures StartsWithDollar(s) <==> StartsWithDollar(Split(s)[0])
  {
    if s != "" && s[0] != '/' {
      assert Split(s)[0] == [s[0]] + Split(s[1..])[0];
    }
  }

  predicate MatchParts(f: Path, t: Path) {
    if f == [] then t == []
    else if f[0] == "#" then true
    else if t == [] then false
    else if f[0] != "+" && f[0] != t[0] then false
    else MatchParts(f[1..], t[1..])
  }

  predicate TopicMatches(actualFilter: string, topic: string) {
    StartsWithDollar(topic) == StartsWithDollar(actualFilter) && MatchParts(Split(actualFilter), Split(topic))
  }

  /** How far from literal one level is: literal before `+` before `#`. */
  function SegmentRank(level: string): int {
    if level == "#" then 2 else if level == "+" then 1 else 0
  }

  function Ranks(path: Path): (r: seq<int>)
    ensures |r| == |path|
    ensures forall i :: 0 <= i < |path| ==> r[i] == SegmentRank(path[i])
  {
    seq(|path|, i requires 0 <= i < |path| => SegmentRank(path[i]))
  }

  predicate HashOnlyLast(path: Path) {
    forall i :: 0 <= i < |path| && path[i] == "#" ==> i == |path| - 1
  }

  /** Two filters that both match one topic and have the same ranks are the same filter. */
  lemma {:induction false} MatchAndRanksDetermineFilter(f: Path, g: Path, t: Path)
    requires HashOnlyLast(f) && HashOnlyLast(g)
    requires MatchParts(f, t) && MatchParts(g, t)
    requires Ranks(f) == Ranks(g)
    ensures f == g
  {
    assert |f| == |Ranks(f)| == |g|;
    if f != [] {
      assert Ranks(f)[0] == Ranks(g)[0];
      if f[0] == "#" {
        assert |f| == 1;
        assert f == ["#"] && g == ["#"];
      } else {
        assert f[0] == g[0];
        RanksTail(f);
        RanksTail(g);
        HashOnlyLastTail(f);
        HashOnlyLastTail(g);
        MatchAndRanksDetermineFilter(f[1..], g[1..], t[1..]);
        assert f == [f[0]] + f[1..] && g == [g[0]] + g[1..];
      }
    }
  }

  lemma RanksTail(f: Path)
    requires f != []
    ensures Ranks(f)[1..] == Ranks(f[1..])
  {}

  lemma HashOnlyLastTail(f: Path)
    requires f != [] && HashOnlyLast(f)
    ensures HashOnlyLast(f[1..])
  {
    forall i | 0 <= i < |f[1..]| && f[1..][i] == "#"
      ensures i == |f[1..]| - 1
    {
      assert f[i + 1] == "#";
    }
  }

  /** `MatchParts` said level by level, for filters with `#` only at the end. */
  predicate MatchesByLevel(f: Path, t: Path) {
    if f != [] && f[|f| - 1] == "#" then
      && |f| - 1 <= |t|
      && forall i :: 0 <= i < |f| - 1 ==> f[i] == "+" || f[i] == t[i]
    else
      && |f| == |t|
      && forall i :: 0 <= i < |f| ==> f[i] == "+" || f[i] == t[i]
  }

  lemma {:induction false} MatchPartsIsByLevel(f: Path, t: Path)
    requires HashOnlyLast(f)
    ensures MatchParts(f, t) <==> MatchesByLevel(f, t)
  {
    if f != [] && f[0] != "#" && t != [] {
      HashOnlyLastTail(f);
      MatchPartsIsByLevel(f[1..], t[1..]);
      if MatchesByLevel(f, t) {
        assert forall i :: 0 <= i < |f[1..]| ==> f[1..][i] == f[i + 1];
        assert forall i :: 0 <= i < |t[1..]| ==> t[1..][i] == t[i + 1];
        assert MatchesByLevel(f[1..], t[1..]);
        assert f[0] == "+" || f[0] == t[0];
      }
      if MatchParts(f, t) {
        assert MatchesByLevel(f[1..], t[1..]);
        forall i | 0 <= i < |f| && !(i == |f| - 1 && f[i] == "#")
          ensures f[i] == "+" || (i < |t| && f[i] == t[i])
        {
          if i > 0 { assert f[1..][i - 1] == f[i]; }
        }
      }
    }
  }

  // ----- Filter validation -----

  function IndexOf(s: string, c: char): (i: nat)
    requires c in s
    ensures i < |s| && s[i] == c && forall j :: 0 <= j < i ==> s[j] != c
  {
    if s[0] == c then 0 else IndexOf(s[1..], c) + 1
  }

  /** The string scan of validate_subscribe_topic: true when it raises nothing. */
  predicate ValidSubscribeTopic(topic: string) {
    && topic != ""
    && '$' !in topic[1..]
    && ('#' in topic ==>
          var idx := IndexOf(topic, '#');
          idx == |topic| - 1 && (idx > 0 ==> topic[idx - 1] == '/'))
    && forall level :: level in Split(topic) && '+' in level ==> level == "+"
  }

  /** Section 4.7.1 of MQTT Version 5.0: wildcards fill a level, and `#` is the last level. */
  predicate WildcardsFillLevels(path: Path) {
    && (forall i :: 0 <= i < |path| && '#' in path[i] ==> path[i] == "#" && i == |path| - 1)
    && (forall i :: 0 <= i < |path| && '+' in path[i] ==> path[i] == "+")
  }

  lemma {:induction false} CharInSomeLevel(s: string, c: char)
    requires c != '/'
    ensures c in s <==> exists i :: 0 <= i < |Split(s)| && c in Split(s)[i]
  {
    if s != "" {
      CharInSomeLevel(s[1..], c);
      var rest := Split(s[1..]);
      var r := Split(s);
      assert c in s <==> s[0] == c || c in s[1..];
      if s[0] == '/' {
        assert forall i :: 0 <= i < |rest| ==> r[i + 1] == rest[i];
      } else {
        assert r[0] == [s[0]] + rest[0];
        assert forall i :: 1 <= i < |rest| ==> r[i] == rest[i];
      }
    }
  }

  /** A string whose only `#` is its last character, alone on its level, and the converse. */
  lemma {:induction false} HashPlacement(s: string)
    ensures (forall i :: 0 <= i < |Split(s)| && '#' in Split(s)[i] ==> Split(s)[i] == "#" && i == |Split(s)| - 1)
       <==> ('#' in s ==> IndexOf(s, '#') == |s| - 1 && (|s| > 1 ==> s[|s| - 2] == '/'))
  {
    CharInSomeLevel(s, '#');
    var r := Split(s);
    if '#' in s {
      var idx := IndexOf(s, '#');
      var a, b := s[..idx], s[idx + 1..];
      assert s == a + "#" + b;
      if idx > 0 && s[idx - 1] == '/' {
        // the level that holds `#` starts right after a separator
        var a' := s[..idx - 1];
        assert s == a' + "/" + ("#" + b);
        SplitConcat(a', "#" + b);
        HashHeadsLevel(b);
        CharInSomeLevel(a', '#');
        assert r == Split(a') + Split("#" + b);
        assert r[|Split(a')|] == Split("#" + b)[0];
        assert '#' in r[|Split(a')|];
        if b == "" {
          assert r == Split(a') + ["#"];
        }
      } else if idx == 0 {
        assert s == "#" + b;
        HashHeadsLevel(b);
        assert r[0] == "#" + Split(b)[0];
        assert '#' in r[0];
      } else {
        HashAfterOther(a, b);
        var i :| 0 <= i < |r| && '#' in r[i] && r[i] != "#";
      }
    }
  }

  lemma HashHeadsLevel(b: string)
    ensures Split("#" + b) == ["#" + Split(b)[0]] + Split(b)[1..]
    ensures (Split("#" + b)[0] == "#" && |Split("#" + b)| == 1) <==> b == ""
  {
    assert ("#" + b)[1..] == b;
    JoinSplit(b);
  }

  lemma {:induction false} HashAfterOther(a: string, b: string)
    requires a != "" && a[|a| - 1] != '/'
    ensures exists i :: 0 <= i < |Split(a + "#" + b)| && '#' in Split(a + "#" + b)[i] && Split(a + "#" + b)[i] != "#"
  {
    var s := a + "#" + b;
    assert s[0] == a[0] && s[1..] == a[1..] + "#" + b;
    var rest := Split(s[1..]);
    if |a| == 1 {
      assert a[1..] == "";
      assert s[1..] == "#" + b;
      HashHeadsLevel(b);
      assert Split(s)[0] == [a[0]] + rest[0];
      assert '#' in Split(s)[0] && |Split(s)[0]| >= 2;
    } else {
      HashAfterOther(a[1..], b);
      var i :| 0 <= i < |rest| && '#' in rest[i] && rest[i] != "#";
      if s[0] == '/' {
        assert Split(s)[i + 1] == rest[i];
      } else if i > 0 {
        assert Split(s)[i] == rest[i];
      } else {
        assert Split(s)[0] == [s[0]] + rest[0];
        assert |rest[0]| > 0;
        assert '#' in Split(s)[0] && |Split(s)[0]| >= 2;
      }
    }
  }

  /** The validator accepts exactly the non-empty filters whose wildcards fill whole levels, `#`
    only last, and whose only `$` may be the first character. */
  lemma ValidatorIsLevelRule(topic: string)
    ensures ValidSubscribeTopic(topic)
       <==> topic != "" && '$' !in topic[1..] && WildcardsFillLevels(Split(topic))
  {
    HashPlacement(topic);
    var r := Split(topic);
    assert (forall level :: level in r && '+' in level ==> level == "+")
      <==> (forall i :: 0 <= i < |r| && '+' in r[i] ==> r[i] == "+");
  }

  // ----- Decorators the broker strips -----

  predicate StartsWith(s: string, prefix: string) { |prefix| <= |s| && s[..|prefix|] == prefix }

  function FirstStripped(filter: string, prefixes: seq<string>): string {
    if prefixes == [] then filter
    else if StartsWith(filter, prefixes[0] + "/") then
      AfterSeparator(filter)
    else FirstStripped(filter, prefixes[1..])
  }

  /** `filter.split("/", 1)[1]`, or the whole string when it has no separator. */
  function AfterSeparator(s: string): string {
    if '/' in s then s[IndexOf(s, '/') + 1..] else s
  }

  const SHARE := "$share/"

  function SharedFilterToActual(filter: string, prefixes: seq<string>): string {
    if StartsWith(filter, SHARE) && '/' in filter[|SHARE|..] then
      AfterSeparator(filter[|SHARE|..])
    else FirstStripped(filter, prefixes)
  }

  /** `shorter` is `longer` without some leading levels. */
  ghost predicate DropsLevels(shorter: string, longer: string) {
    exists head :: longer == head + "/" + shorter
  }

  lemma AfterSeparatorDropsLevels(s: string)
    requires '/' in s
    ensures DropsLevels(AfterSeparator(s), s)
  {
    var i := IndexOf(s, '/');
    assert s == s[..i] + "/" + s[i + 1..];
  }

  lemma {:induction false} FirstStrippedDropsLevels(filter: string, prefixes: seq<string>)
    ensures FirstStripped(filter, prefixes) == filter || DropsLevels(FirstStripped(filter, prefixes), filter)
  {
    if prefixes != [] {
      if StartsWith(filter, prefixes[0] + "/") {
        assert filter[|prefixes[0]|] == (filter[..|prefixes[0]| + 1])[|prefixes[0]|] == '/';
        AfterSeparatorDropsLevels(filter);
      } else {
        FirstStrippedDropsLevels(filter, prefixes[1..]);
      }
    }
  }

  lemma ActualFilterDropsLevels(filter: string, prefixes: seq<string>)
    ensures SharedFilterToActual(filter, prefixes) == filter
         || DropsLevels(SharedFilterToActual(filter, prefixes), filter)
  {
    if StartsWith(filter, SHARE) && '/' in filter[|SHARE|..] {
      var tail := filter[|SHARE|..];
      AfterSeparatorDropsLevels(tail);
      var head :| tail == head + "/" + AfterSeparator(tail);
      assert filter == (SHARE + head) + "/" + AfterSeparator(tail);
    } else {
      FirstStrippedDropsLevels(filter, prefixes);
    }
  }

  lemma SuffixHasNoDollar(head: string, rest: string)
    requires '$' !in (head + "/" + rest)[1..]
    ensures '$' !in rest
  {
    var whole := head + "/" + rest;
    assert rest == whole[|head| + 1..] == whole[1..][|head|..];
  }

  lemma SuffixWildcardsFillLevels(front: Path, back: Path)
    requires WildcardsFillLevels(front + back) && back != []
    ensures WildcardsFillLevels(back)
  {
    assert forall i :: 0 <= i < |back| ==> back[i] == (front + back)[|front| + i];
  }

  lemma DroppedLevelsStayValid(head: string, rest: string)
    requires ValidSubscribeTopic(head + "/" + rest) && rest != ""
    ensures ValidSubscribeTopic(rest) && !StartsWithDollar(rest)
  {
    ValidatorIsLevelRule(head + "/" + rest);
    SplitConcat(head, rest);
    SuffixWildcardsFillLevels(Split(head), Split(rest));
    SuffixHasNoDollar(head, rest);
    assert rest[0] in rest;
    ValidatorIsLevelRule(rest);
  }

  /** Stripping a validated filter leaves a validated filter, or nothing at all. */
  lemma StrippedFilterStaysValid(filter: string, prefixes: seq<string>)
    requires ValidSubscribeTopic(filter)
    ensures var actual := SharedFilterToActual(filter, prefixes);
      && (actual == "" || ValidSubscribeTopic(actual))
      && (actual != filter ==> !StartsWithDollar(actual))
  {
    var actual := SharedFilterToActual(filter, prefixes);
    ActualFilterDropsLevels(filter, prefixes);
    if actual != filter && actual != "" {
      var head :| filter == head + "/" + actual;
      DroppedLevelsStayValid(head, actual);
    }
  }

  /** A shared subscription matches what its filter matches (section 4.8.2 of MQTT Version 5.0). */
  lemma SharedSubscriptionMatchesItsFilter(group: string, filter: string, prefixes: seq<string>)
    requires '/' !in group
    ensures SharedFilterToActual(SHARE + group + "/" + filter, prefixes) == filter
  {
    var whole := SHARE + group + "/" + filter;
    var tail := whole[|SHARE|..];
    assert tail == group + "/" + filter;
    assert tail[|group|] == '/';
    var i := IndexOf(tail, '/');
    assert forall j :: 0 <= j < |group| ==> tail[j] in group;
    assert i == |group|;
  }

  /** The string the index files an entry under: the stripped filter, or the raw one when that is empty. */
  function TreeFilter(filter: string, actual: string): string {
    if actual != "" then actual else filter
  }

  lemma ValidatedTreeFilter(filter: string, prefixes: seq<string>)
    requires ValidSubscribeTopic(filter)
    ensures HashOnlyLast(Split(TreeFilter(filter, SharedFilterToActual(filter, prefixes))))
  {
    StrippedFilterStaysValid(filter, prefixes);
    var tree := TreeFilter(filter, SharedFilterToActual(filter, prefixes));
    ValidatorIsLevelRule(tree);
    var r := Split(tree);
    forall i | 0 <= i < |r| && r[i] == "#" ensures i == |r| - 1 {
      assert '#' in r[i];
    }
  }
}
