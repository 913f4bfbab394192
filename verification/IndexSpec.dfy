/** What the subscription index means: an ordered list of registrations, searched by linear scan,
  and the search the trie performs, both as functions of that list. */
module IndexSpec {
  import opened Prelude
  import opened TopicMatching
  import opened Ordering

  datatype SubscriptionEntry = SubscriptionEntry(
    queue: nat, autoAck: bool, actualFilter: string, identifier: Option<int>)

  /** A raw filter with its entry. */
  type Item = (string, SubscriptionEntry)

  function ActualFilter(item: Item): string { TreeFilter(item.0, item.1.actualFilter) }

  /** The trie path the item is stored under. */
  function PathOf(item: Item): Path { Split(ActualFilter(item)) }

  function Specificity(item: Item): seq<int> { Ranks(PathOf(item)) }

  predicate Matches(item: Item, topic: string) { TopicMatches(ActualFilter(item), topic) }

  predicate DistinctFilters(regs: seq<Item>) {
    forall i, j :: 0 <= i < j < |regs| ==> regs[i].0 != regs[j].0
  }

  predicate AllHashOnlyLast(regs: seq<Item>) {
    forall x :: x in regs ==> HashOnlyLast(PathOf(x))
  }

  function NotFilter(filter: string): Item -> bool { (x: Item) => x.0 != filter }

  function AtPath(p: Path): Item -> bool { (x: Item) => PathOf(x) == p }

  function OnTopic(topic: string): Item -> bool { (x: Item) => Matches(x, topic) }

  function BelowPath(p: Path, t: Path): Item -> bool { (x: Item) => Below(x, p, t) }

  // ----- Registering and removing -----

  function RemoveFilter(regs: seq<Item>, filter: string): seq<Item> {
    Filter(regs, NotFilter(filter))
  }

  function AddItem(regs: seq<Item>, item: Item): seq<Item> {
    RemoveFilter(regs, item.0) + [item]
  }

  predicate HasFilter(regs: seq<Item>, filter: string) {
    exists i :: 0 <= i < |regs| && regs[i].0 == filter
  }

  lemma {:induction false} RemoveKeepsDistinct(regs: seq<Item>, filter: string)
    requires DistinctFilters(regs)
    ensures DistinctFilters(RemoveFilter(regs, filter))
    ensures !HasFilter(RemoveFilter(regs, filter), filter)
  {
    if regs != [] {
      RemoveKeepsDistinct(regs[1..], filter);
      var rest := RemoveFilter(regs[1..], filter);
      forall x | x in rest ensures x.0 != regs[0].0 {
        assert x in regs[1..];
      }
    }
  }

  lemma AddKeepsDistinct(regs: seq<Item>, item: Item)
    requires DistinctFilters(regs)
    ensures DistinctFilters(AddItem(regs, item))
  {
    RemoveKeepsDistinct(regs, item.0);
  }

  /** Removing a freshly added filter gives the registrations back, order included. */
  lemma RemoveUndoesAdd(regs: seq<Item>, item: Item)
    requires !HasFilter(regs, item.0)
    ensures RemoveFilter(AddItem(regs, item), item.0) == regs
  {
    FilterAll(regs, NotFilter(item.0));
    FilterConcat(regs, [item], NotFilter(item.0));
  }

  lemma RemoveMissing(regs: seq<Item>, filter: string)
    requires !HasFilter(regs, filter)
    ensures RemoveFilter(regs, filter) == regs
  {
    FilterAll(regs, NotFilter(filter));
  }

  function AddAll(regs: seq<Item>, items: seq<Item>): seq<Item> {
    if items == [] then regs
    else AddItem(AddAll(regs, items[..|items| - 1]), items[|items| - 1])
  }

  // ----- Linear scan -----

  /** Every registration whose filter matches, in registration order. */
  function Scan(regs: seq<Item>, topic: string): seq<Item> {
    Filter(regs, OnTopic(topic))
  }

  function LinearMatch(regs: seq<Item>, topic: string): seq<Item> {
    StableSort(Scan(regs, topic), Specificity)
  }

  // ----- The search of the trie -----

  function IsWildcard(level: string): bool { level == "+" || level == "#" }

  /** The entry list of the trie node at `p`. */
  function At(regs: seq<Item>, p: Path): seq<Item> {
    Filter(regs, AtPath(p))
  }

  /** What `_collect` gathers below the node at `p` for the remaining levels `t`, in order. */
  function Collect(regs: seq<Item>, p: Path, t: Path): seq<Item>
    decreases |t|
  {
    At(regs, p + ["#"]) +
    if t == [] then At(regs, p)
    else (if IsWildcard(t[0]) then [] else Collect(regs, p + [t[0]], t[1..]))
         + Collect(regs, p + ["+"], t[1..])
  }

  function TrieMatch(regs: seq<Item>, topic: string): seq<Item> {
    StableSort(Filter(Collect(regs, [], Split(topic)), OnTopic(topic)), Specificity)
  }

  // ----- The trie search finds what the scan finds -----

  predicate Below(x: Item, p: Path, t: Path) {
    p <= PathOf(x) && MatchParts(PathOf(x)[|p|..], t)
  }

  ghost predicate BranchOf(x: Item, p: Path, t: Path) {
    Below(x, p, t) <==>
      || PathOf(x) == p + ["#"]
      || (t == [] && PathOf(x) == p)
      || (t != [] && !IsWildcard(t[0]) && Below(x, p + [t[0]], t[1..]))
      || (t != [] && Below(x, p + ["+"], t[1..]))
  }

  /** Which branch of the trie search reaches an item, seen from the node at `p`. */
  lemma BelowByBranch(x: Item, p: Path, t: Path)
    requires HashOnlyLast(PathOf(x)) && "#" !in p
    ensures BranchOf(x, p, t)
  {
    var path := PathOf(x);
    if p <= path {
      var s := path[|p|..];
      assert path == p + s;
      if s != [] {
        var q := p + [s[0]];
        assert q <= path && path[|q|..] == s[1..];
        if s[0] == "#" {
          assert path[|p|] == "#";
          assert s == ["#"];
        }
      }
    }
    if path == p + ["#"] {
      assert p <= path && path[|p|..] == ["#"];
    }
    if t != [] {
      if p + [t[0]] <= path {
        assert path[|p|..][0] == t[0];
        assert path[|p|..][1..] == path[|p + [t[0]]|..];
      }
      if p + ["+"] <= path {
        assert path[|p|..][0] == "+";
        assert path[|p|..][1..] == path[|p + ["+"]|..];
      }
    }
  }

  function Ranked(p: Item -> bool, k: seq<int>): Item -> bool { Both(p, HasKey(Specificity, k)) }

  lemma RankBelow(x: Item, p: Path, level: string, t: Path)
    requires Below(x, p + [level], t)
    ensures |Specificity(x)| > |p| && Specificity(x)[|p|] == SegmentRank(level)
  {
    assert PathOf(x)[|p|] == (p + [level])[|p|];
  }

  lemma RankedAt(x: Item, p: Path, k: seq<int>)
    requires Ranked(AtPath(p), k)(x)
    ensures PathOf(x) == p && Specificity(x) == k && |k| == |p|
  {
    assert AtPath(p)(x) && HasKey(Specificity, k)(x);
  }

  /** The node and its `#` child hold the items of different specificities. */
  lemma NodeBranches(regs: seq<Item>, p: Path, k: seq<int>)
    requires AllHashOnlyLast(regs) && "#" !in p
    ensures Filter(regs, Ranked(AtPath(p + ["#"]), k)) + Filter(regs, Ranked(AtPath(p), k))
         == Filter(regs, Ranked(BelowPath(p, []), k))
  {
    var hash, here := Ranked(AtPath(p + ["#"]), k), Ranked(AtPath(p), k);
    forall x | x in regs ensures BranchOf(x, p, []) { BelowByBranch(x, p, []); }
    forall x: Item | hash(x) ensures |k| == |p| + 1 { RankedAt(x, p + ["#"], k); }
    forall x: Item | here(x) ensures |k| == |p| { RankedAt(x, p, k); }
    FilterEither(regs, hash, here);
    FilterCongruence(regs, Either(hash, here), Ranked(BelowPath(p, []), k));
  }

  /** So do the `#` child, the literal child and the `+` child. */
  lemma ChildBranches(regs: seq<Item>, p: Path, t: Path, k: seq<int>)
    requires AllHashOnlyLast(regs) && "#" !in p && t != []
    ensures
      var literal := if IsWildcard(t[0]) then [] else Filter(regs, Ranked(BelowPath(p + [t[0]], t[1..]), k));
      Filter(regs, Ranked(AtPath(p + ["#"]), k)) + (literal + Filter(regs, Ranked(BelowPath(p + ["+"], t[1..]), k)))
      == Filter(regs, Ranked(BelowPath(p, t), k))
  {
    var hash, target := Ranked(AtPath(p + ["#"]), k), Ranked(BelowPath(p, t), k);
    var literal := Ranked(BelowPath(p + [t[0]], t[1..]), k);
    var plus := Ranked(BelowPath(p + ["+"], t[1..]), k);
    forall x | x in regs ensures BranchOf(x, p, t) { BelowByBranch(x, p, t); }
    forall x: Item | hash(x) ensures |k| > |p| && k[|p|] == 2 {
      RankedAt(x, p + ["#"], k);
      assert PathOf(x)[|p|] == "#";
    }
    forall x: Item | plus(x) ensures |k| > |p| && k[|p|] == 1 { RankBelow(x, p, "+", t[1..]); }
    if IsWildcard(t[0]) {
      FilterEither(regs, hash, plus);
      FilterCongruence(regs, Either(hash, plus), target);
    } else {
      forall x: Item | literal(x) ensures |k| > |p| && k[|p|] == 0 { RankBelow(x, p, t[0], t[1..]); }
      FilterEither(regs, literal, plus);
      FilterEither(regs, hash, Either(literal, plus));
      FilterCongruence(regs, Either(hash, Either(literal, plus)), target);
    }
  }

  /** At one specificity, the trie search gathers the matching registrations in registration order. */
  lemma {:induction false} CollectPerSpecificity(regs: seq<Item>, p: Path, t: Path, k: seq<int>)
    requires AllHashOnlyLast(regs) && "#" !in p
    ensures WithKey(Collect(regs, p, t), Specificity, k) == Filter(regs, Ranked(BelowPath(p, t), k))
    decreases |t|
  {
    var key := HasKey(Specificity, k);
    FilterFilter(regs, AtPath(p + ["#"]), key);
    if t == [] {
      FilterFilter(regs, AtPath(p), key);
      FilterConcat(At(regs, p + ["#"]), At(regs, p), key);
      NodeBranches(regs, p, k);
    } else {
      var literalPart := if IsWildcard(t[0]) then [] else Collect(regs, p + [t[0]], t[1..]);
      var plusPart := Collect(regs, p + ["+"], t[1..]);
      CollectPerSpecificity(regs, p + ["+"], t[1..], k);
      if !IsWildcard(t[0]) { CollectPerSpecificity(regs, p + [t[0]], t[1..], k); }
      FilterConcat(literalPart, plusPart, key);
      FilterConcat(At(regs, p + ["#"]), literalPart + plusPart, key);
      ChildBranches(regs, p, t, k);
    }
  }

  lemma MatchesIsBelowRoot(x: Item, topic: string)
    ensures Matches(x, topic) ==> Below(x, [], Split(topic))
  {
    assert PathOf(x)[0..] == PathOf(x);
  }

  /** The trie search returns exactly the linear scan, stably sorted by specificity. */
  lemma TrieFindsTheScan(regs: seq<Item>, topic: string)
    requires AllHashOnlyLast(regs)
    ensures TrieMatch(regs, topic) == LinearMatch(regs, topic)
  {
    var t := Split(topic);
    var found, scan := Collect(regs, [], t), Scan(regs, topic);
    var filtered := Filter(found, OnTopic(topic));
    forall k ensures WithKey(filtered, Specificity, k) == WithKey(scan, Specificity, k) {
      var key := HasKey(Specificity, k);
      CollectPerSpecificity(regs, [], t, k);
      FilterFilter(found, OnTopic(topic), key);
      FilterFilter(found, key, OnTopic(topic));
      FilterCongruence(found, Both(OnTopic(topic), key), Both(key, OnTopic(topic)));
      FilterFilter(regs, Ranked(BelowPath([], t), k), OnTopic(topic));
      FilterFilter(regs, OnTopic(topic), key);
      forall x | x in regs ensures Both(Ranked(BelowPath([], t), k), OnTopic(topic))(x) == Both(OnTopic(topic), key)(x) {
        MatchesIsBelowRoot(x, topic);
      }
      FilterCongruence(regs, Both(Ranked(BelowPath([], t), k), OnTopic(topic)), Both(OnTopic(topic), key));
    }
    SamePerKeySortsAlike(filtered, scan, Specificity);
  }

  // ----- The condition under which they agree -----

  lemma {:induction false} CollectedIsWellFormed(regs: seq<Item>, p: Path, t: Path, x: Item)
    requires "#" !in p && x in Collect(regs, p, t)
    ensures HashOnlyLast(PathOf(x))
    decreases |t|
  {
    if x in At(regs, p + ["#"]) {
      assert PathOf(x) == p + ["#"];
      assert forall i :: 0 <= i < |p| ==> PathOf(x)[i] == p[i];
    } else if t == [] {
      assert x in At(regs, p);
    } else if x in Collect(regs, p + ["+"], t[1..]) {
      CollectedIsWellFormed(regs, p + ["+"], t[1..], x);
    } else {
      CollectedIsWellFormed(regs, p + [t[0]], t[1..], x);
    }
  }

  /** A topic that follows the filter up to its first `#`. */
  function TopicUpToHash(f: Path): Path {
    if f == [] || f[0] == "#" then []
    else [if f[0] == "+" then "a" else f[0]] + TopicUpToHash(f[1..])
  }

  lemma {:induction false} TopicUpToHashMatches(f: Path, more: Path)
    requires "#" in f && NoSeparator(f)
    ensures MatchParts(f, TopicUpToHash(f) + more) && NoSeparator(TopicUpToHash(f))
  {
    if f[0] != "#" {
      assert NoSeparator(f[1..]) by {
        forall i | 0 <= i < |f[1..]| ensures '/' !in f[1..][i] { assert f[1..][i] == f[i + 1]; }
      }
      assert f == [f[0]] + f[1..];
      TopicUpToHashMatches(f[1..], more);
      var t := TopicUpToHash(f) + more;
      assert t[1..] == TopicUpToHash(f[1..]) + more;
    }
  }

  lemma MisplacedHashIsMissed(regs: seq<Item>, x: Item)
    requires x in regs && !HashOnlyLast(PathOf(x))
    ensures exists topic :: TrieMatch(regs, topic) != LinearMatch(regs, topic)
  {
    var f := PathOf(x);
    SplitHasNoSeparator(ActualFilter(x));
    var levels := TopicUpToHash(f) + ["a"];
    TopicUpToHashMatches(f, ["a"]);
    var topic := Join(levels);
    SplitJoin(levels);
    DollarIsInFirstLevel(topic);
    DollarIsInFirstLevel(ActualFilter(x));
    assert levels[0] == f[0] || (levels[0] == "a" && IsWildcard(f[0]));
    assert Matches(x, topic);
    FilterKeeps(regs, OnTopic(topic), x);
    StableSortProperties(Scan(regs, topic), Specificity, []);
    assert x in multiset(LinearMatch(regs, topic));
    var found := Collect(regs, [], Split(topic));
    if x in found { CollectedIsWellFormed(regs, [], Split(topic), x); }
    FilterKeeps(found, OnTopic(topic), x);
    StableSortProperties(Filter(found, OnTopic(topic)), Specificity, []);
    assert x !in multiset(TrieMatch(regs, topic));
  }

  /** The trie agrees with the linear scan on every topic exactly when no registered filter
    has a `#` before its last level. */
  lemma TrieIsScanExactlyWhenHashIsLast(regs: seq<Item>)
    ensures AllHashOnlyLast(regs) <==> forall topic :: TrieMatch(regs, topic) == LinearMatch(regs, topic)
  {
    if AllHashOnlyLast(regs) {
      forall topic ensures TrieMatch(regs, topic) == LinearMatch(regs, topic) {
        TrieFindsTheScan(regs, topic);
      }
    } else {
      var x :| x in regs && !HashOnlyLast(PathOf(x));
      MisplacedHashIsMissed(regs, x);
    }
  }

  /** What a match is: every matching registration as often as it is registered, the more specific
    filters first, and registration order among equally specific ones. */
  lemma LinearMatchMeaning(regs: seq<Item>, topic: string, x: Item, k: seq<int>)
    ensures multiset(LinearMatch(regs, topic))[x] == if Matches(x, topic) then multiset(regs)[x] else 0
    ensures SortedBy(LinearMatch(regs, topic), Specificity)
    ensures WithKey(LinearMatch(regs, topic), Specificity, k) == Filter(regs, Ranked(OnTopic(topic), k))
  {
    FilterCount(regs, OnTopic(topic), x);
    StableSortProperties(Scan(regs, topic), Specificity, k);
    FilterFilter(regs, OnTopic(topic), HasKey(Specificity, k));
  }

  // ----- Choosing one recipient -----

  datatype Selection = Selection(recipient: Option<Item>, identifierMissing: bool, tiedFilters: seq<string>)

  function FilterNames(items: seq<Item>): (r: seq<string>)
    ensures |r| == |items|
  {
    seq(|items|, i requires 0 <= i < |items| => items[i].0)
  }

  function BestKey(items: seq<Item>): (k: seq<int>)
    requires items != []
  {
    var first := Specificity(items[0]);
    if |items| == 1 then first
    else
      var rest := BestKey(items[1..]);
      if LexLe(first, rest) then first else rest
  }

  lemma {:induction false} BestKeyIsLeast(items: seq<Item>)
    requires items != []
    ensures exists i :: 0 <= i < |items| && Specificity(items[i]) == BestKey(items)
    ensures forall i :: 0 <= i < |items| ==> LexLe(BestKey(items), Specificity(items[i]))
  {
    LexLeReflexive(Specificity(items[0]));
    if |items| > 1 {
      var first, rest := Specificity(items[0]), BestKey(items[1..]);
      BestKeyIsLeast(items[1..]);
      var j :| 0 <= j < |items[1..]| && Specificity(items[1..][j]) == rest;
      assert Specificity(items[j + 1]) == rest;
      LexTotal(first, rest);
      forall i | 0 <= i < |items| ensures LexLe(BestKey(items), Specificity(items[i])) {
        if i > 0 {
          assert items[i] == items[1..][i - 1];
          if LexLe(first, rest) { LexTransitive(first, rest, Specificity(items[i])); }
        }
      }
    }
  }

  function SelectFrom(candidates: seq<Item>): Selection {
    if candidates == [] then Selection(None, false, [])
    else
      var winners := WithKey(candidates, Specificity, BestKey(candidates));
      Selection(if winners == [] then None else Some(winners[0]), false,
                if |winners| > 1 then FilterNames(winners) else [])
  }

  function SelectItem(regs: seq<Item>, topic: string): Selection { SelectFrom(LinearMatch(regs, topic)) }

  function HasIdentifier(id: int): Item -> bool { (x: Item) => x.1.identifier == Some(id) }

  function Identified(regs: seq<Item>, id: int): seq<Item> { Filter(regs, HasIdentifier(id)) }

  function SelectByIdentifier(regs: seq<Item>, topic: string, id: int): Selection {
    var identified := Identified(regs, id);
    if identified != [] then
      var matching := Filter(identified, OnTopic(topic));
      SelectFrom(if matching != [] then matching else identified)
    else
      SelectItem(regs, topic).(identifierMissing := true)
  }

  lemma {:induction false} WithKeyFirst(items: seq<Item>, k: seq<int>)
    ensures WithKey(items, Specificity, k) == [] ==> forall i :: 0 <= i < |items| ==> Specificity(items[i]) != k
    ensures WithKey(items, Specificity, k) != [] ==>
      exists i :: 0 <= i < |items| && items[i] == WithKey(items, Specificity, k)[0] && Specificity(items[i]) == k
               && forall j :: 0 <= j < i ==> Specificity(items[j]) != k
  {
    if items != [] && Specificity(items[0]) != k {
      WithKeyFirst(items[1..], k);
      if WithKey(items[1..], Specificity, k) != [] {
        var i :| 0 <= i < |items[1..]| && items[1..][i] == WithKey(items[1..], Specificity, k)[0]
                 && Specificity(items[1..][i]) == k
                 && forall j :: 0 <= j < i ==> Specificity(items[1..][j]) != k;
        assert items[i + 1] == items[1..][i];
        forall j | 0 <= j < i + 1 ensures Specificity(items[j]) != k {
          if j > 0 { assert items[j] == items[1..][j - 1]; }
        }
      } else {
        forall i | 0 <= i < |items| ensures Specificity(items[i]) != k {
          if i > 0 { assert items[i] == items[1..][i - 1]; }
        }
      }
    }
  }

  /** `x` is the first among the most specific of `items`. */
  ghost predicate FirstMostSpecific(items: seq<Item>, x: Item) {
    exists i :: 0 <= i < |items| && items[i] == x
      && (forall j :: 0 <= j < |items| ==> LexLe(Specificity(x), Specificity(items[j])))
      && (forall j :: 0 <= j < i ==> Specificity(items[j]) != Specificity(x))
  }

  lemma SelectFromIsFirstMostSpecific(items: seq<Item>)
    ensures items == [] <==> SelectFrom(items).recipient == None
    ensures items != [] ==> FirstMostSpecific(items, SelectFrom(items).recipient.value)
    ensures items != [] ==> Specificity(SelectFrom(items).recipient.value) == BestKey(items)
  {
    if items != [] {
      BestKeyIsLeast(items);
      WithKeyFirst(items, BestKey(items));
    }
  }

  lemma {:induction false} SameElementsSameBestKey(a: seq<Item>, b: seq<Item>)
    requires a != [] && multiset(a) == multiset(b)
    ensures b != [] && BestKey(a) == BestKey(b)
  {
    assert a[0] in multiset(b);
    BestKeyIsLeast(a);
    BestKeyIsLeast(b);
    var i :| 0 <= i < |a| && Specificity(a[i]) == BestKey(a);
    var j :| 0 <= j < |b| && Specificity(b[j]) == BestKey(b);
    assert a[i] in multiset(b) && b[j] in multiset(a);
    assert a[i] in b && b[j] in a;
    LexAntisymmetric(BestKey(a), BestKey(b));
  }

  /** Sorting first does not change the choice: it is made in registration order. */
  lemma SelectionIgnoresSorting(items: seq<Item>)
    ensures SelectFrom(StableSort(items, Specificity)) == SelectFrom(items)
  {
    if items == [] {
    } else {
      var sorted := StableSort(items, Specificity);
      StableSortProperties(items, Specificity, BestKey(items));
      SameElementsSameBestKey(items, sorted);
    }
  }

  function SameFilter(x: Item): Item -> bool { (y: Item) => ActualFilter(y) == ActualFilter(x) }

  /** Equally specific matches carry the same actual filter. */
  lemma TiesShareTheFilter(x: Item, y: Item, topic: string)
    requires HashOnlyLast(PathOf(x)) && HashOnlyLast(PathOf(y))
    requires Matches(x, topic) && Matches(y, topic)
    ensures Specificity(x) == Specificity(y) <==> ActualFilter(x) == ActualFilter(y)
  {
    if Specificity(x) == Specificity(y) {
      MatchAndRanksDetermineFilter(PathOf(x), PathOf(y), Split(topic));
      SplitInjective(ActualFilter(x), ActualFilter(y));
    }
  }

  /** Selection by topic: the earliest registered among the most specific matches, and the reported
    ties are exactly the registrations with that same actual filter, in registration order. */
  lemma SelectMeaning(regs: seq<Item>, topic: string)
    requires AllHashOnlyLast(regs)
    ensures var s := SelectItem(regs, topic);
      && (s.recipient == None <==> forall x :: x in regs ==> !Matches(x, topic))
      && (s.recipient.Some? ==>
            && FirstMostSpecific(Scan(regs, topic), s.recipient.value)
            && var same := Filter(regs, SameFilter(s.recipient.value));
               s.tiedFilters == if |same| > 1 then FilterNames(same) else [])
  {
    hide Filter, StableSort, FirstMostSpecific;
    var scan := Scan(regs, topic);
    SelectionIgnoresSorting(scan);
    SelectFromIsFirstMostSpecific(scan);
    if scan == [] {
      forall x | x in regs ensures !Matches(x, topic) { FilterKeeps(regs, OnTopic(topic), x); }
    } else {
      var x, k := SelectFrom(scan).recipient.value, BestKey(scan);
      assert x in scan;
      FilterFilter(regs, OnTopic(topic), HasKey(Specificity, k));
      forall y | y in regs ensures Both(OnTopic(topic), HasKey(Specificity, k))(y) == SameFilter(x)(y) {
        if Matches(y, topic) { TiesShareTheFilter(x, y, topic); }
      }
      FilterCongruence(regs, Both(OnTopic(topic), HasKey(Specificity, k)), SameFilter(x));
    }
  }

  /** Selection by identifier: the first among the most specific of its matching registrations, or of all its
    registrations when none matches, with the ties among those; without any, the selection by topic, marked as such. */
  lemma SelectByIdentifierMeaning(regs: seq<Item>, topic: string, id: int)
    ensures var s := SelectByIdentifier(regs, topic, id);
      var known := exists x :: x in regs && x.1.identifier == Some(id);
      var matched := exists x :: x in regs && x.1.identifier == Some(id) && Matches(x, topic);
      && s.identifierMissing == !known
      && (!known ==> s.recipient == SelectItem(regs, topic).recipient && s.tiedFilters == SelectItem(regs, topic).tiedFilters)
      && (known ==>
            && s.recipient.Some? && s.recipient.value in regs && s.recipient.value.1.identifier == Some(id)
            && (matched ==> Matches(s.recipient.value, topic))
            && var candidates := Filter(regs, if matched then Both(HasIdentifier(id), OnTopic(topic)) else HasIdentifier(id));
            && FirstMostSpecific(candidates, s.recipient.value)
            && var same := Filter(candidates, HasKey(Specificity, Specificity(s.recipient.value)));
               s.tiedFilters == if |same| > 1 then FilterNames(same) else [])
  {
    hide FirstMostSpecific, BestKey;
    var identified := Identified(regs, id);
    var matching := Filter(identified, OnTopic(topic));
    FilterFilter(regs, HasIdentifier(id), OnTopic(topic));
    forall x ensures x in identified <==> x in regs && x.1.identifier == Some(id) {
      FilterKeeps(regs, HasIdentifier(id), x);
    }
    forall x ensures x in matching <==> x in identified && Matches(x, topic) {
      FilterKeeps(identified, OnTopic(topic), x);
    }
    if identified != [] { assert identified[0] in identified; }
    if matching != [] { assert matching[0] in matching; }
    SelectFromIsFirstMostSpecific(matching);
    SelectFromIsFirstMostSpecific(identified);
    ChosenIsCandidate(matching);
    ChosenIsCandidate(identified);
  }

  lemma ChosenIsCandidate(items: seq<Item>)
    ensures items != [] ==> SelectFrom(items).recipient.Some? && SelectFrom(items).recipient.value in items
  {
    SelectFromIsFirstMostSpecific(items);
  }
}
