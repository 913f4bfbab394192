/** The match of a topic against the standard: which registrations it returns, level by level and by the
  first character, and in which order, by the first level at which two filters differ. */
module MatchMeaning {
  import opened Prelude
  import opened TopicMatching
  import opened Ordering
  import opened IndexSpec

  /** Sections 4.7.1 and 4.7.2 of MQTT Version 5.0: a registration is in the match of a topic exactly when
    its actual filter agrees with the topic level by level, and begins with `$` exactly when it does. */
  lemma MatchIsByTheStandard(regs: seq<Item>, topic: string, x: Item)
    requires AllHashOnlyLast(regs)
    ensures var filter := if x.1.actualFilter != "" then x.1.actualFilter else x.0;
      x in LinearMatch(regs, topic) <==>
        && x in regs && MatchesByLevel(Split(filter), Split(topic))
        && ((filter != "" && filter[0] == '$') <==> (topic != "" && topic[0] == '$'))
  {
    LinearMatchMeaning(regs, topic, x, []);
    assert x in LinearMatch(regs, topic) <==> x in multiset(LinearMatch(regs, topic));
    assert x in regs <==> x in multiset(regs);
    if x in regs { MatchPartsIsByLevel(PathOf(x), Split(topic)); }
  }

  /** A filter that begins with a wildcard level never sees a topic that begins with `$`. */
  lemma WildcardsDoNotReachDollarTopics(regs: seq<Item>, topic: string, x: Item)
    requires AllHashOnlyLast(regs) && topic != "" && topic[0] == '$' && x in LinearMatch(regs, topic)
    ensures Split(ActualFilter(x))[0] != "#" && Split(ActualFilter(x))[0] != "+"
  {
    MatchIsByTheStandard(regs, topic, x);
    DollarIsInFirstLevel(ActualFilter(x));
  }

  /** At the first level where they differ, `f` ends, or is literal where `g` has a wildcard, or has `+`
    where `g` has `#`. */
  ghost predicate NarrowerAt(f: Path, g: Path, k: nat) {
    && k <= |f| && k < |g| && (forall i :: 0 <= i < k ==> f[i] == g[i])
    && (k < |f| ==> (f[k] != "+" && f[k] != "#" && (g[k] == "+" || g[k] == "#")) || (f[k] == "+" && g[k] == "#"))
  }

  ghost predicate Narrower(f: Path, g: Path) { exists k: nat :: NarrowerAt(f, g, k) }

  lemma {:induction false} NarrowerRanksFirst(f: Path, g: Path, k: nat)
    requires NarrowerAt(f, g, k)
    ensures LexLe(Ranks(f), Ranks(g)) && Ranks(f) != Ranks(g)
    decreases k
  {
    if k > 0 {
      RanksTail(f);
      RanksTail(g);
      NarrowerRanksFirst(f[1..], g[1..], k - 1);
      assert Ranks(f)[0] == Ranks(g)[0];
    } else if f != [] {
      assert Ranks(f)[0] < Ranks(g)[0];
    } else {
      assert Ranks(f) == [];
    }
  }

  /** A match never puts a filter behind one that is wider. */
  lemma NarrowerFiltersFirst(regs: seq<Item>, topic: string, i: nat, j: nat)
    requires i < j < |LinearMatch(regs, topic)|
    ensures !Narrower(PathOf(LinearMatch(regs, topic)[j]), PathOf(LinearMatch(regs, topic)[i]))
  {
    var found := LinearMatch(regs, topic);
    var f, g := PathOf(found[j]), PathOf(found[i]);
    LinearMatchMeaning(regs, topic, found[i], []);
    if Narrower(f, g) {
      var k: nat :| NarrowerAt(f, g, k);
      NarrowerRanksFirst(f, g, k);
      SortedPair(found, i, j);
      LexAntisymmetric(Ranks(f), Ranks(g));
    }
  }

  lemma SortedPair(s: seq<Item>, i: nat, j: nat)
    requires SortedBy(s, Specificity) && i < j < |s|
    ensures LexLe(Specificity(s[i]), Specificity(s[j]))
  {}

  /** Two filters that match one topic are the same, or one is narrower: the order leaves nothing open
    but the order of registration. */
  lemma {:induction false} MatchingFiltersCompare(f: Path, g: Path, t: Path) returns (k: nat)
    requires HashOnlyLast(f) && HashOnlyLast(g) && MatchesByLevel(f, t) && MatchesByLevel(g, t)
    ensures f == g || NarrowerAt(f, g, k) || NarrowerAt(g, f, k)
  {
    MatchPartsIsByLevel(f, t);
    MatchPartsIsByLevel(g, t);
    k := FirstDifference(f, g, t);
  }

  lemma {:induction false} FirstDifference(f: Path, g: Path, t: Path) returns (k: nat)
    requires HashOnlyLast(f) && HashOnlyLast(g) && MatchParts(f, t) && MatchParts(g, t)
    ensures f == g || NarrowerAt(f, g, k) || NarrowerAt(g, f, k)
    decreases |f|
  {
    k := 0;
    if f != [] && g != [] && f[0] == g[0] && f[0] != "#" {
      HashOnlyLastTail(f);
      HashOnlyLastTail(g);
      var rest := FirstDifference(f[1..], g[1..], t[1..]);
      k := rest + 1;
      assert f == [f[0]] + f[1..] && g == [g[0]] + g[1..];
    } else if f != [] && g != [] && f[0] == g[0] {
      assert |f| == 1 && |g| == 1;
    }
  }

  // ----- Registering -----

  /** The last of `items` with the filter of `x`. */
  ghost predicate LastOfItsFilter(items: seq<Item>, x: Item) {
    exists i :: 0 <= i < |items| && items[i] == x && forall j :: i < j < |items| ==> items[j].0 != x.0
  }

  /** After adding, the filter has its new entry, behind all others, and whatever is picked by `others` is as before. */
  lemma AddMeaning(regs: seq<Item>, item: Item, others: Item -> bool)
    requires forall x: Item :: others(x) ==> x.0 != item.0
    ensures var after := AddItem(regs, item);
      && after[|after| - 1] == item && item !in after[..|after| - 1]
      && (forall x :: x in after <==> x == item || (x in regs && x.0 != item.0))
      && Filter(after, others) == Filter(regs, others)
  {
    var kept := RemoveFilter(regs, item.0);
    RemoveMeaning(regs, item.0, others);
    FilterConcat(kept, [item], others);
    assert [item][1..] == [];
  }

  /** After removing, the filter has no entry, and whatever is picked by `others` is as before. */
  lemma RemoveMeaning(regs: seq<Item>, filter: string, others: Item -> bool)
    requires forall x: Item :: others(x) ==> x.0 != filter
    ensures forall x :: x in RemoveFilter(regs, filter) <==> x in regs && x.0 != filter
    ensures Filter(RemoveFilter(regs, filter), others) == Filter(regs, others)
  {
    forall x ensures x in RemoveFilter(regs, filter) <==> x in regs && x.0 != filter {
      FilterKeeps(regs, NotFilter(filter), x);
    }
    FilterFilter(regs, NotFilter(filter), others);
    FilterCongruence(regs, Both(NotFilter(filter), others), others);
  }

  /** After adding several, each of their filters has the last of its new entries. */
  lemma {:induction false} AddManyMeaning(regs: seq<Item>, items: seq<Item>, x: Item)
    ensures x in AddAll(regs, items) <==>
      LastOfItsFilter(items, x) || (x in regs && forall i :: 0 <= i < |items| ==> items[i].0 != x.0)
  {
    hide LastOfItsFilter, AddItem;
    if items == [] {
      NoneLast(x);
    } else {
      var before, last := items[..|items| - 1], items[|items| - 1];
      AddManyMeaning(regs, before, x);
      AddMeaning(AddAll(regs, before), last, y => false);
      LastBefore(before, last, x);
      assert items == before + [last];
    }
  }

  lemma NoneLast(x: Item)
    ensures !LastOfItsFilter([], x)
  {}

  lemma LastBefore(before: seq<Item>, last: Item, x: Item)
    ensures LastOfItsFilter(before + [last], x) <==> x == last || (LastOfItsFilter(before, x) && x.0 != last.0)
  {
    var items := before + [last];
    assert items[|before|] == last;
    if LastOfItsFilter(before, x) && x.0 != last.0 {
      var i :| 0 <= i < |before| && before[i] == x && forall j :: i < j < |before| ==> before[j].0 != x.0;
      assert items[i] == x;
    }
    if LastOfItsFilter(items, x) && x != last {
      var i :| 0 <= i < |items| && items[i] == x && forall j :: i < j < |items| ==> items[j].0 != x.0;
      assert i < |before| && before[i] == x && items[|before|].0 != x.0;
      assert forall j :: i < j < |before| ==> before[j] == items[j];
    }
  }

  // ----- Decorated filters -----

  /** `$share/<group>/<rest>`. */
  ghost predicate IsShared(filter: string) { exists group, rest :: '/' !in group && filter == SHARE + group + "/" + rest }

  ghost predicate IsDecorated(filter: string, prefixes: seq<string>) {
    exists i :: 0 <= i < |prefixes| && StartsWith(filter, prefixes[i] + "/")
  }

  /** The actual filter of a shared subscription is what follows its group, that of a filter with one of the prefixes
    what follows its first level; any other filter is its own. */
  lemma StrippingMeaning(filter: string, prefixes: seq<string>)
    ensures var actual := SharedFilterToActual(filter, prefixes);
      if IsShared(filter) then exists group :: '/' !in group && filter == SHARE + group + "/" + actual
      else if IsDecorated(filter, prefixes) then exists head :: '/' !in head && filter == head + "/" + actual
      else actual == filter
  {
    if IsShared(filter) { SharedHasGroup(filter); }
    if StartsWith(filter, SHARE) && '/' in filter[|SHARE|..] {
      var tail := filter[|SHARE|..];
      CutAtFirst(tail);
      var group := tail[..IndexOf(tail, '/')];
      assert filter == SHARE + group + "/" + AfterSeparator(tail);
      assert IsShared(filter);
    } else {
      FirstStrippedMeaning(filter, prefixes);
    }
  }

  lemma SharedHasGroup(filter: string)
    requires IsShared(filter)
    ensures StartsWith(filter, SHARE) && '/' in filter[|SHARE|..]
  {
    var group, rest :| '/' !in group && filter == SHARE + group + "/" + rest;
    assert filter[|SHARE|..] == group + "/" + rest;
    assert (group + "/" + rest)[|group|] == '/';
  }

  lemma CutAtFirst(s: string)
    requires '/' in s
    ensures '/' !in s[..IndexOf(s, '/')] && s == s[..IndexOf(s, '/')] + "/" + AfterSeparator(s)
  {}

  lemma {:induction false} FirstStrippedMeaning(filter: string, prefixes: seq<string>)
    ensures if IsDecorated(filter, prefixes) then exists head :: '/' !in head && filter == head + "/" + FirstStripped(filter, prefixes)
            else FirstStripped(filter, prefixes) == filter
  {
    if prefixes != [] {
      if StartsWith(filter, prefixes[0] + "/") {
        assert filter[|prefixes[0]|] == (prefixes[0] + "/")[|prefixes[0]|] == '/';
        CutAtFirst(filter);
      } else {
        FirstStrippedMeaning(filter, prefixes[1..]);
        assert IsDecorated(filter, prefixes) <==> IsDecorated(filter, prefixes[1..]) by {
          if IsDecorated(filter, prefixes) {
            var i :| 0 <= i < |prefixes| && StartsWith(filter, prefixes[i] + "/");
            assert prefixes[1..][i - 1] == prefixes[i];
          }
        }
      }
    }
  }
}
