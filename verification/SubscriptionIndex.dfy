/** The mutable subscription index: a trie of nodes, a filter map and an identifier table.
  Its abstract value is `registered`, the registrations in order. */
module SubscriptionIndexes {
  import opened Prelude
  import opened TopicMatching
  import opened IndexSpec
  import opened Ordering

  function Lookup(children: map<string, Node>, wildcardChildren: map<string, Node>, level: string): Option<Node> {
    if IsWildcard(level) then
      if level in wildcardChildren then Some(wildcardChildren[level]) else None
    else
      if level in children then Some(children[level]) else None
  }

  class Node {
    var children: map<string, Node>
    var wildcardChildren: map<string, Node>
    var entries: seq<Item>
    /** Where in the trie the node was made. */
    ghost const path: Path

    constructor (ghost path: Path)
      ensures children == map[] && wildcardChildren == map[] && entries == [] && this.path == path
      ensures forall l :: Lookup(children, wildcardChildren, l) == None
    {
      children, wildcardChildren, entries := map[], map[], [];
      this.path := path;
    }

    function Child(level: string): Option<Node>
      reads this
    {
      Lookup(children, wildcardChildren, level)
    }

    /** `mapping[level] = child` in the mapping that `level` belongs to. */
    method SetChild(level: string, child: Node)
      modifies `children, `wildcardChildren
      ensures forall l :: Lookup(children, wildcardChildren, l)
                       == if l == level then Some(child) else Lookup(old(children), old(wildcardChildren), l)
      ensures old(KeysByKind()) ==> KeysByKind()
    {
      if IsWildcard(level) {
        wildcardChildren := wildcardChildren[level := child];
      } else {
        children := children[level := child];
      }
    }

    /** `mapping.pop(level)`. */
    method PopChild(level: string)
      modifies `children, `wildcardChildren
      ensures forall l :: Lookup(children, wildcardChildren, l)
                       == if l == level then None else Lookup(old(children), old(wildcardChildren), l)
      ensures old(KeysByKind()) ==> KeysByKind()
    {
      if IsWildcard(level) {
        wildcardChildren := wildcardChildren - {level};
      } else {
        children := children - {level};
      }
    }

    predicate IsEmpty()
      reads this
    {
      children == map[] && wildcardChildren == map[] && entries == []
    }

    ghost predicate KeysByKind()
      reads this
    {
      && (forall level :: level in children ==> !IsWildcard(level))
      && (forall level :: level in wildcardChildren ==> IsWildcard(level))
    }
  }

  predicate Begins(p: Path, q: Path) { p <= q }

  lemma SameChildSameParent(p: Path, q: Path, a: string, b: string)
    ensures p + [a] == q + [b] ==> p == q && a == b
  {
    if p + [a] == q + [b] {
      assert p == (p + [a])[..|p|] && q == (q + [b])[..|q|];
      assert (p + [a])[|p|] == (q + [b])[|q|];
    }
  }

  lemma OpenOneMore(regs: seq<Item>, p: Path, level: string)
    ensures forall r :: Begins(r, p + [level]) <==> Begins(r, p) || r == p + [level]
  {
    forall r ensures Begins(r, p + [level]) <==> Begins(r, p) || r == p + [level] {
      if Begins(r, p + [level]) && |r| == |p| + 1 { assert r == p + [level]; }
    }
  }

  /** `p` leads to a registration: the trie needs a node there. */
  ghost predicate Live(regs: seq<Item>, p: Path) {
    p == [] || exists x :: x in regs && p <= PathOf(x)
  }

  lemma LivePrefix(regs: seq<Item>, p: Path, level: string)
    requires Live(regs, p + [level])
    ensures Live(regs, p)
  {
    var x :| x in regs && p + [level] <= PathOf(x);
    assert p <= PathOf(x);
  }

  lemma NotLiveHoldsNothing(regs: seq<Item>, p: Path)
    requires !Live(regs, p)
    ensures At(regs, p) == []
  {
    FilterNone(regs, AtPath(p));
  }

  function CollectLiteral(regs: seq<Item>, p: Path, level: string, t: Path): seq<Item> {
    if IsWildcard(level) then [] else Collect(regs, p + [level], t)
  }

  lemma CollectUnfolds(regs: seq<Item>, p: Path, t: Path)
    ensures t == [] ==> Collect(regs, p, t) == At(regs, p + ["#"]) + At(regs, p)
    ensures t != [] ==>
      Collect(regs, p, t)
      == At(regs, p + ["#"]) + CollectLiteral(regs, p, t[0], t[1..]) + Collect(regs, p + ["+"], t[1..])
  {
    hide At;
    if t != [] {
      var hash, literal, plus := At(regs, p + ["#"]), CollectLiteral(regs, p, t[0], t[1..]), Collect(regs, p + ["+"], t[1..]);
      assert Collect(regs, p, t) == hash + (literal + plus);
      assert hash + (literal + plus) == hash + literal + plus;
    }
  }

  lemma {:induction false} NotLiveCollectsNothing(regs: seq<Item>, p: Path, t: Path)
    requires !Live(regs, p)
    ensures Collect(regs, p, t) == []
    decreases |t|
  {
    if Live(regs, p + ["#"]) { LivePrefix(regs, p, "#"); }
    NotLiveHoldsNothing(regs, p + ["#"]);
    if t == [] {
      NotLiveHoldsNothing(regs, p);
    } else {
      if Live(regs, p + ["+"]) { LivePrefix(regs, p, "+"); }
      NotLiveCollectsNothing(regs, p + ["+"], t[1..]);
      if !IsWildcard(t[0]) {
        if Live(regs, p + [t[0]]) { LivePrefix(regs, p, t[0]); }
        NotLiveCollectsNothing(regs, p + [t[0]], t[1..]);
      }
    }
  }

  /** `paths` are the live paths of `regs` and the beginnings of `open`. */
  ghost predicate PathsAre(paths: set<Path>, regs: seq<Item>, open: Path) {
    forall p :: p in paths <==> Live(regs, p) || Begins(p, open)
  }

  ghost predicate EntriesAre(entries: map<string, SubscriptionEntry>, regs: seq<Item>) {
    && (forall f :: f in entries <==> HasFilter(regs, f))
    && (forall f :: f in entries ==> (f, entries[f]) in regs)
  }

  ghost predicate IdentifiersAre(byIdentifier: map<int, seq<Item>>, regs: seq<Item>) {
    && (forall id :: id in byIdentifier <==> Identified(regs, id) != [])
    && (forall id :: id in byIdentifier ==> byIdentifier[id] == Identified(regs, id))
  }

  class SubscriptionIndex {
    var root: Node
    var entries: map<string, SubscriptionEntry>
    var byIdentifier: map<int, seq<Item>>
    var responseObservers: set<string>
    /** Where each trie path's node is. */
    ghost var nodes: map<Path, Node>
    /** The registrations, oldest first. */
    ghost var registered: seq<Item>

    // ----- Invariant -----

    ghost predicate Shape()
      reads `root, `nodes, nodes.Values
    {
      && [] in nodes && nodes[[]] == root
      && (forall p :: p in nodes ==> nodes[p].path == p && nodes[p].KeysByKind())
      && (forall p, level {:trigger Lookup(nodes[p].children, nodes[p].wildcardChildren, level)} :: p in nodes ==>
            Lookup(nodes[p].children, nodes[p].wildcardChildren, level)
            == if p + [level] in nodes then Some(nodes[p + [level]]) else None)
    }

    ghost predicate ContentsAre(regs: seq<Item>)
      reads `nodes, nodes.Values
    {
      forall p :: p in nodes ==> nodes[p].entries == At(regs, p)
    }

    /** The trie, the filter map and the identifier table are all determined by the registrations;
      in particular every trie node but the root has a registration in its subtree. */
    ghost predicate Valid()
      reads this, nodes.Values
    {
      Shape() && PathsAre(nodes.Keys, registered, []) && ContentsAre(registered) && DistinctFilters(registered)
      && EntriesAre(entries, registered) && IdentifiersAre(byIdentifier, registered)
    }

    constructor ()
      ensures Valid() && registered == [] && responseObservers == {}
      ensures fresh(nodes.Values)
    {
      hide Live, At, HasFilter, Identified, DistinctFilters, PathsAre, EntriesAre, IdentifiersAre;
      NothingRegistered();
      var node := new Node([]);
      root := node;
      entries, byIdentifier, responseObservers := map[], map[], {};
      nodes, registered := map[[] := node], [];
      new;
      assert nodes.Keys == {[]};
    }

    // ----- Queries on the filter map -----

    method Contains(filter: string) returns (r: bool)
      requires Valid()
      ensures r == HasFilter(registered, filter)
    {
      r := filter in entries;
    }

    method Get(filter: string) returns (r: Option<SubscriptionEntry>)
      requires Valid()
      ensures match r
        case Some(e) => (filter, e) in registered
        case None => !HasFilter(registered, filter)
    {
      r := if filter in entries then Some(entries[filter]) else None;
    }

    // ----- Adding -----

    /** Hangs a new, empty node under `node`. */
    method Attach(node: Node, level: string, ghost p: Path)
      returns (child: Node)
      requires Shape() && p in nodes && nodes[p] == node
      requires p + [level] !in nodes && forall l :: p + [level] + [l] !in nodes
      modifies this`nodes, node`children, node`wildcardChildren
      ensures Shape() && nodes == old(nodes)[p + [level] := child]
      ensures fresh(child) && child.entries == []
    {
      hide Lookup, IsWildcard;
      ghost var q := p + [level];
      child := new Node(q);
      node.SetChild(level, child);
      nodes := nodes[q := child];
      forall r, l | r in nodes
        ensures Lookup(nodes[r].children, nodes[r].wildcardChildren, l) == if r + [l] in nodes then Some(nodes[r + [l]]) else None
      {
        SameChildSameParent(r, p, l, level);
        if r != q {
          assert nodes[r].path == r && node.path == p;
          assert old(Lookup(nodes[r].children, nodes[r].wildcardChildren, l))
              == if r + [l] in old(nodes) then Some(old(nodes)[r + [l]]) else None;
        } else {
          assert q + [l] != q;
        }
      }
    }

    /** One round of the descent in `add`: the child for `level`, created when missing. */
    method Descend(node: Node, level: string, ghost p: Path)
      returns (child: Node)
      requires Shape() && PathsAre(nodes.Keys, registered, p) && ContentsAre(registered)
      requires p in nodes && nodes[p] == node
      modifies this`nodes, node`children, node`wildcardChildren
      ensures Shape() && PathsAre(nodes.Keys, registered, p + [level]) && ContentsAre(registered)
      ensures p + [level] in nodes && nodes[p + [level]] == child
      ensures nodes == old(nodes)[p + [level] := child]
      ensures child in old(nodes.Values) || fresh(child)
    {
      OpenOneMore(registered, p, level);
      if node.Child(level).Some? {
        child := node.Child(level).value;
      } else {
        forall l ensures p + [level] + [l] !in nodes {
          if Live(registered, p + [level] + [l]) { LivePrefix(registered, p + [level], l); }
        }
        child := Attach(node, level, p);
        NotLiveHoldsNothing(registered, p + [level]);
      }
    }

    lemma RootIsFirst()
      requires Shape()
      ensures [] in nodes && nodes[[]] == root
    {}

    /** Walks from the root down the levels of a filter, creating missing nodes. */
    method Walk(parts: Path) returns (node: Node)
      requires Shape() && PathsAre(nodes.Keys, registered, []) && ContentsAre(registered)
      modifies this`nodes, nodes.Values
      ensures Shape() && PathsAre(nodes.Keys, registered, parts) && ContentsAre(registered)
      ensures parts in nodes && nodes[parts] == node
      ensures fresh(nodes.Values - old(nodes.Values))
    {
      hide Live, At, Shape, ContentsAre, PathsAre;
      RootIsFirst();
      node := root;
      var i := 0;
      while i < |parts|
        invariant 0 <= i <= |parts|
        invariant Shape() && PathsAre(nodes.Keys, registered, parts[..i]) && ContentsAre(registered)
        invariant parts[..i] in nodes && nodes[parts[..i]] == node
        invariant fresh(nodes.Values - old(nodes.Values))
      {
        assert parts[..i] + [parts[i]] == parts[..i + 1];
        node := Descend(node, parts[i], parts[..i]);
        i := i + 1;
      }
      assert parts[..i] == parts;
    }

    /** The trie part of `add`: the entry goes last on the node its filter leads to. */
    method Insert(item: Item)
      requires Shape() && PathsAre(nodes.Keys, registered, []) && ContentsAre(registered)
      modifies this`nodes, this`registered, nodes.Values
      ensures Shape() && PathsAre(nodes.Keys, registered, []) && ContentsAre(registered)
      ensures registered == old(registered) + [item]
      ensures fresh(nodes.Values - old(nodes.Values))
    {
      hide At, Live, Shape, PathsAre, ContentsAre;
      var node := Walk(PathOf(item));
      Append(item, node);
    }

    /** Puts the item last on the node its filter leads to. */
    method Append(item: Item, node: Node)
      requires Shape() && PathsAre(nodes.Keys, registered, PathOf(item)) && ContentsAre(registered)
      requires PathOf(item) in nodes && nodes[PathOf(item)] == node
      modifies this`registered, node`entries
      ensures Shape() && PathsAre(nodes.Keys, registered, []) && ContentsAre(registered)
      ensures registered == old(registered) + [item]
    {
      hide At, Live, Lookup;
      AppendedPaths(registered, item);
      node.entries := node.entries + [item];
      registered := registered + [item];
      forall p ensures Begins(p, []) ==> Begins(p, PathOf(item)) {}
    }

    /** Registers `entry` under `filter`, replacing an earlier registration of that filter. */
    method Add(filter: string, entry: SubscriptionEntry)
      requires Valid()
      modifies this, nodes.Values
      ensures Valid() && fresh(nodes.Values - old(nodes.Values))
      ensures registered == AddItem(old(registered), (filter, entry))
      ensures responseObservers == old(responseObservers)
    {
      hide Live, At, HasFilter, Identified, DistinctFilters, PathsAre, EntriesAre, IdentifiersAre, Shape, ContentsAre;
      ghost var before := registered;
      if filter in entries {
        var _ := Remove(filter);
      } else {
        FoundEntry(entries, before, filter);
        RemoveMissing(before, filter);
      }
      AddKeepsDistinct(before, (filter, entry));
      ghost var without := registered;
      assert !HasFilter(without, filter) by { RemoveKeepsDistinct(before, filter); }
      Insert((filter, entry));
      AppendedEntries(entries, without, (filter, entry));
      AppendedIdentifiers(byIdentifier, without, (filter, entry));
      ghost var identified := WithIdentified(byIdentifier, (filter, entry));
      entries := entries[filter := entry];
      if entry.identifier.Some? {
        var id := entry.identifier.value;
        byIdentifier := byIdentifier[id := (if id in byIdentifier then byIdentifier[id] else []) + [(filter, entry)]];
      }
      assert byIdentifier == identified;
    }

    /** Takes the item off the node its filter leads to. */
    method DropItem(item: Item, node: Node)
      requires Shape() && PathsAre(nodes.Keys, registered, []) && ContentsAre(registered)
      requires DistinctFilters(registered) && item in registered
      requires PathOf(item) in nodes && nodes[PathOf(item)] == node
      modifies node`entries
      ensures Shape() && PathsAre(nodes.Keys, RemoveFilter(registered, item.0), PathOf(item))
      ensures ContentsAre(RemoveFilter(registered, item.0))
    {
      hide Live, At, HasFilter, DistinctFilters, PathsAre, Filter, PathOf, Lookup;
      RemovedContents(registered, item);
      ClosingPaths(nodes.Keys, registered, item);
      node.entries := Filter(node.entries, NotItem(item));
    }

    lemma ChildIsThere(p: Path, level: string)
      requires Shape() && p in nodes && p + [level] in nodes
      ensures nodes[p].Child(level) == Some(nodes[p + [level]])
    {
      assert Lookup(nodes[p].children, nodes[p].wildcardChildren, level) == Some(nodes[p + [level]]);
    }

    /** `_remove_entry`: drops the entry at the end of `rest` and prunes empty nodes on the way back. */
    method RemoveEntry(rest: Path, item: Item, node: Node, ghost p: Path, ghost after: seq<Item>)
      requires Shape() && PathsAre(nodes.Keys, registered, []) && ContentsAre(registered)
      requires DistinctFilters(registered) && item in registered && PathOf(item) == p + rest
      requires after == RemoveFilter(registered, item.0)
      requires p in nodes && nodes[p] == node
      modifies this`nodes, nodes.Values
      ensures Shape() && PathsAre(nodes.Keys, after, p) && ContentsAre(after)
      ensures forall r :: r in nodes ==> r in old(nodes) && nodes[r] == old(nodes)[r]
      ensures nodes.Values <= old(nodes.Values)
      decreases |rest|
    {
      hide Live, At, HasFilter, DistinctFilters, PathsAre, Filter, PathOf, Begins, Shape, Lookup, RemoveFilter;
      if rest == [] {
        assert p + rest == p;
        DropItem(item, node);
      } else {
        var level := rest[0];
        ghost var q := p + [level];
        assert p + rest == q + rest[1..];
        AncestorIsThere(nodes.Keys, registered, item, q, rest[1..]);
        ChildIsThere(p, level);
        var child := node.Child(level).value;
        RemoveEntry(rest[1..], item, child, q, after);
        OpenPathIsThere(nodes.Keys, after, q);
        if child.IsEmpty() {
          EmptyNodeIsDead(q, after);
          ClosePath(nodes.Keys, after, p, level);
          Detach(node, child, level, p);
        } else {
          KeptNodeIsLive(q, after);
          KeepPath(nodes.Keys, after, p, level);
        }
      }
    }

    /** An empty node leads to no registration. */
    lemma EmptyNodeIsDead(q: Path, after: seq<Item>)
      requires Shape() && PathsAre(nodes.Keys, after, q) && ContentsAre(after)
      requires q in nodes && nodes[q].IsEmpty() && q != []
      ensures !Live(after, q)
      ensures forall l :: q + [l] !in nodes
    {
      hide DistinctFilters;
      forall l ensures q + [l] !in nodes {
        assert Lookup(nodes[q].children, nodes[q].wildcardChildren, l) == None;
      }
      if Live(after, q) {
        var x :| x in after && q <= PathOf(x);
        if q == PathOf(x) {
          ItsNodeHoldsIt(after, x);
        } else {
          LongerIsLive(after, q, x);
        }
      }
    }

    lemma KeptNodeIsLive(q: Path, after: seq<Item>)
      requires Shape() && PathsAre(nodes.Keys, after, q) && ContentsAre(after)
      requires q in nodes && !nodes[q].IsEmpty()
      ensures Live(after, q)
    {
      hide DistinctFilters, PathOf;
      var node := nodes[q];
      if node.entries != [] {
        var x := At(after, q)[0];
        assert x in At(after, q);
        assert q <= PathOf(x);
      } else {
        var l := SomeChild(node);
        assert Lookup(nodes[q].children, nodes[q].wildcardChildren, l).Some?;
        assert q + [l] in nodes;
        assert !Begins(q + [l], q);
        LivePrefix(after, q, l);
      }
    }

    lemma SomeChild(node: Node) returns (level: string)
      requires node.KeysByKind() && (node.children != map[] || node.wildcardChildren != map[])
      ensures node.Child(level).Some?
    {
      if node.children != map[] {
        level :| level in node.children;
      } else {
        level :| level in node.wildcardChildren;
      }
    }

    /** Takes a childless node off its parent. */
    method Detach(node: Node, child: Node, level: string, ghost p: Path)
      requires Shape() && p in nodes && nodes[p] == node
      requires p + [level] in nodes && nodes[p + [level]] == child
      requires forall l :: p + [level] + [l] !in nodes
      modifies this`nodes, node`children, node`wildcardChildren
      ensures Shape() && nodes == old(nodes) - {p + [level]}
    {
      hide Lookup, IsWildcard;
      ghost var q := p + [level];
      node.PopChild(level);
      nodes := nodes - {q};
      forall r, l | r in nodes
        ensures Lookup(nodes[r].children, nodes[r].wildcardChildren, l) == if r + [l] in nodes then Some(nodes[r + [l]]) else None
      {
        SameChildSameParent(r, p, l, level);
        assert old(Lookup(nodes[r].children, nodes[r].wildcardChildren, l))
            == if r + [l] in old(nodes) then Some(old(nodes)[r + [l]]) else None;
      }
    }

    /** Removes the registration of `filter` and returns it, if there is one. */
    method Remove(filter: string) returns (removed: Option<SubscriptionEntry>)
      requires Valid()
      modifies this, nodes.Values
      ensures Valid() && nodes.Values <= old(nodes.Values)
      ensures registered == RemoveFilter(old(registered), filter)
      ensures responseObservers == old(responseObservers)
      ensures match removed
        case Some(e) => (filter, e) in old(registered)
        case None => !HasFilter(old(registered), filter)
    {
      hide Live, At, HasFilter, Identified, DistinctFilters, PathsAre, EntriesAre, IdentifiersAre, Shape, ContentsAre,
           Filter;
      FoundEntry(entries, registered, filter);
      if filter !in entries {
        RemoveMissing(registered, filter);
        return None;
      }
      var entry := entries[filter];
      ghost var before, after := registered, RemoveFilter(registered, filter);
      assert [] + PathOf((filter, entry)) == PathOf((filter, entry));
      RemoveKeepsDistinct(before, filter);
      RemovedEntries(entries, before, (filter, entry));
      RemovedIdentifiers(byIdentifier, before, (filter, entry));
      FoundEntry(entries, before, filter);
      RootIsFirst();
      RemoveEntry(PathOf((filter, entry)), (filter, entry), root, [], after);
      registered := after;
      ghost var remaining := WithoutIdentified(byIdentifier, (filter, entry));
      entries := entries - {filter};
      if entry.identifier.Some? {
        var id := entry.identifier.value;
        var identified := Filter(byIdentifier[id], NotFilter(filter));
        byIdentifier := if identified == [] then byIdentifier - {id} else byIdentifier[id := identified];
      }
      assert byIdentifier == remaining;
      removed := Some(entry);
    }

    method Clear()
      requires Valid()
      modifies this
      ensures Valid() && registered == [] && responseObservers == {}
      ensures fresh(nodes.Values)
    {
      hide Lookup;
      hide Live, At, HasFilter, Identified, DistinctFilters, PathsAre, EntriesAre, IdentifiersAre;
      NothingRegistered();
      var node := new Node([]);
      root := node;
      entries, byIdentifier, responseObservers := map[], map[], {};
      nodes, registered := map[[] := node], [];
      assert nodes.Keys == {[]};
    }

    method AddMany(items: seq<Item>)
      requires Valid()
      modifies this, nodes.Values
      ensures Valid() && fresh(nodes.Values - old(nodes.Values))
      ensures registered == AddAll(old(registered), items)
      ensures responseObservers == old(responseObservers)
    {
      hide Filter, RemoveFilter, Shape, PathsAre, ContentsAre, EntriesAre, IdentifiersAre, DistinctFilters;
      for i := 0 to |items|
        invariant Valid() && fresh(nodes.Values - old(nodes.Values))
        invariant registered == AddAll(old(registered), items[..i])
        invariant responseObservers == old(responseObservers)
      {
        Add(items[i].0, items[i].1);
        assert items[..i + 1][..i] == items[..i];
      }
      assert items[..|items|] == items;
    }

    // ----- Searching -----

    lemma ChildOrNothing(p: Path, level: string)
      requires Shape() && PathsAre(nodes.Keys, registered, []) && p in nodes
      ensures match nodes[p].Child(level)
        case Some(child) => p + [level] in nodes && nodes[p + [level]] == child
        case None => !Live(registered, p + [level])
    {
      hide Live, IsWildcard;
      assert Lookup(nodes[p].children, nodes[p].wildcardChildren, level)
          == if p + [level] in nodes then Some(nodes[p + [level]]) else None;
    }

    lemma NodeHolds(p: Path)
      requires ContentsAre(registered) && p in nodes
      ensures nodes[p].entries == At(registered, p)
    {}

    /** `_collect`: appends what the trie finds below `node` for the levels from `idx` on. */
    method CollectInto(node: Node, parts: Path, collected: seq<Item>, idx: nat, ghost p: Path)
      returns (r: seq<Item>)
      requires Shape() && PathsAre(nodes.Keys, registered, []) && ContentsAre(registered)
      requires p in nodes && nodes[p] == node && idx <= |parts|
      ensures r == collected + Collect(registered, p, parts[idx..])
      decreases |parts| - idx
    {
      hide Shape, PathsAre, ContentsAre, Live, At, Collect;
      r := collected;
      CollectUnfolds(registered, p, parts[idx..]);
      ChildOrNothing(p, "#");
      ChildOrNothing(p, "+");
      NodeHolds(p);
      if "#" in node.wildcardChildren {
        NodeHolds(p + ["#"]);
        r := r + node.wildcardChildren["#"].entries;
      } else {
        NotLiveHoldsNothing(registered, p + ["#"]);
      }
      ghost var hash := At(registered, p + ["#"]);
      assert r == collected + hash;
      if idx == |parts| {
        r := r + node.entries;
        return;
      }
      var part := parts[idx];
      ghost var t := parts[idx + 1..];
      assert parts[idx..][1..] == t;
      ChildOrNothing(p, part);
      ghost var literal := CollectLiteral(registered, p, part, t);
      if part in node.children {
        PlainChildIsLiteral(node, part);
        r := CollectInto(node.children[part], parts, r, idx + 1, p + [part]);
      } else if !IsWildcard(part) {
        NotLiveCollectsNothing(registered, p + [part], t);
      }
      assert r == collected + hash + literal;
      if "+" in node.wildcardChildren {
        r := CollectInto(node.wildcardChildren["+"], parts, r, idx + 1, p + ["+"]);
      } else {
        NotLiveCollectsNothing(registered, p + ["+"], t);
      }
      assert r == collected + hash + literal + Collect(registered, p + ["+"], t);
    }

    lemma PlainChildIsLiteral(node: Node, level: string)
      requires Shape() && node in nodes.Values && level in node.children
      ensures !IsWildcard(level)
    {}

    /** Every registration that matches `topic`, most specific first; when `#` is only ever a last
      level this is the linear scan. */
    method Match(topic: string) returns (r: seq<Item>)
      requires Valid()
      ensures r == TrieMatch(registered, topic)
      ensures AllHashOnlyLast(registered) ==> r == LinearMatch(registered, topic)
    {
      var matches := CollectInto(root, Split(topic), [], 0, []);
      var filtered := Filter(matches, OnTopic(topic));
      r := StableSort(filtered, Specificity);
      assert Split(topic)[0..] == Split(topic);
      assert [] + Collect(registered, [], Split(topic)) == Collect(registered, [], Split(topic));
      if AllHashOnlyLast(registered) { TrieFindsTheScan(registered, topic); }
    }

    method ByIdentifier(id: int) returns (r: seq<Item>)
      requires Valid()
      ensures r == Identified(registered, id)
    {
      r := if id in byIdentifier then byIdentifier[id] else [];
    }

    method Select(topic: string) returns (s: Selection)
      requires Valid()
      ensures s == SelectFrom(TrieMatch(registered, topic))
      ensures AllHashOnlyLast(registered) ==> s == SelectItem(registered, topic)
    {
      var matches := Match(topic);
      s := SelectFrom(matches);
    }

    method SelectWithIdentifier(topic: string, id: int) returns (s: Selection)
      requires Valid()
      ensures Identified(registered, id) != [] || AllHashOnlyLast(registered) ==> s == SelectByIdentifier(registered, topic, id)
      ensures Identified(registered, id) == [] ==>
        s == SelectFrom(TrieMatch(registered, topic)).(identifierMissing := true)
    {
      var identified := ByIdentifier(id);
      if identified != [] {
        var matching := Filter(identified, OnTopic(topic));
        s := SelectFrom(if matching != [] then matching else identified);
      } else {
        var fallback := Select(topic);
        s := Selection(fallback.recipient, true, fallback.tiedFilters);
      }
    }

    // ----- Response observers -----

    method AddResponseObserver(topic: string) returns (first: bool)
      modifies this`responseObservers
      ensures first == (topic !in old(responseObservers))
      ensures responseObservers == old(responseObservers) + {topic}
    {
      first := topic !in responseObservers;
      responseObservers := responseObservers + {topic};
    }

    method RemoveResponseObserver(topic: string) returns (was: bool)
      modifies this`responseObservers
      ensures was == (topic in old(responseObservers))
      ensures responseObservers == old(responseObservers) - {topic}
    {
      was := topic in responseObservers;
      responseObservers := responseObservers - {topic};
    }
  }

  // ----- Facts about registrations used by the class -----

  function NotItem(item: Item): Item -> bool { (x: Item) => !(x.0 == item.0 && x.1 == item.1) }

  lemma AppendedPaths(regs: seq<Item>, item: Item)
    ensures forall p :: Live(regs + [item], p) <==> Live(regs, p) || Begins(p, PathOf(item))
    ensures forall p :: At(regs + [item], p) == At(regs, p) + if p == PathOf(item) then [item] else []
  {
    forall p ensures Live(regs + [item], p) <==> Live(regs, p) || Begins(p, PathOf(item)) {
      if Begins(p, PathOf(item)) { assert item in regs + [item]; }
      if x :| x in regs && p <= PathOf(x) { assert x in regs + [item]; }
    }
    forall p ensures At(regs + [item], p) == At(regs, p) + if p == PathOf(item) then [item] else [] {
      FilterConcat(regs, [item], AtPath(p));
    }
  }

  lemma AppendedTables(regs: seq<Item>, item: Item)
    ensures forall id :: Identified(regs + [item], id)
                      == Identified(regs, id) + if item.1.identifier == Some(id) then [item] else []
    ensures forall f :: HasFilter(regs + [item], f) <==> HasFilter(regs, f) || f == item.0
  {
    forall id ensures Identified(regs + [item], id)
                   == Identified(regs, id) + if item.1.identifier == Some(id) then [item] else []
    {
      FilterConcat(regs, [item], HasIdentifier(id));
    }
    forall f ensures HasFilter(regs + [item], f) <==> HasFilter(regs, f) || f == item.0 {
      if HasFilter(regs, f) {
        var i :| 0 <= i < |regs| && regs[i].0 == f;
        assert (regs + [item])[i].0 == f;
      }
      if f == item.0 { assert (regs + [item])[|regs|].0 == f; }
    }
  }

  lemma OnlyOneItemPerFilter(regs: seq<Item>, x: Item, y: Item)
    requires DistinctFilters(regs) && x in regs && y in regs && x.0 == y.0
    ensures x == y
  {}

  lemma RemovedIsNotItem(regs: seq<Item>, item: Item)
    requires DistinctFilters(regs) && item in regs
    ensures RemoveFilter(regs, item.0) == Filter(regs, NotItem(item))
  {
    forall x | x in regs ensures NotFilter(item.0)(x) == NotItem(item)(x) {
      if x.0 == item.0 { OnlyOneItemPerFilter(regs, x, item); }
    }
    FilterCongruence(regs, NotFilter(item.0), NotItem(item));
  }

  lemma RemovedContents(regs: seq<Item>, item: Item)
    requires DistinctFilters(regs) && item in regs
    ensures forall p :: At(RemoveFilter(regs, item.0), p)
                     == if p == PathOf(item) then Filter(At(regs, p), NotItem(item)) else At(regs, p)
  {
    RemovedIsNotItem(regs, item);
    forall p ensures At(RemoveFilter(regs, item.0), p)
                  == if p == PathOf(item) then Filter(At(regs, p), NotItem(item)) else At(regs, p)
    {
      FilterFilter(regs, NotItem(item), AtPath(p));
      FilterFilter(regs, AtPath(p), NotItem(item));
      FilterCongruence(regs, Both(NotItem(item), AtPath(p)), Both(AtPath(p), NotItem(item)));
      if p != PathOf(item) { FilterAll(At(regs, p), NotItem(item)); }
    }
  }

  lemma RemovedPaths(regs: seq<Item>, item: Item)
    requires DistinctFilters(regs) && item in regs
    ensures forall p :: Live(regs, p) <==> Live(RemoveFilter(regs, item.0), p) || Begins(p, PathOf(item))
  {
    forall p ensures Live(regs, p) <==> Live(RemoveFilter(regs, item.0), p) || Begins(p, PathOf(item)) {
      if x :| x in regs && p <= PathOf(x) {
        FilterKeeps(regs, NotFilter(item.0), x);
        if x.0 == item.0 { OnlyOneItemPerFilter(regs, x, item); }
      }
      if x :| x in RemoveFilter(regs, item.0) && p <= PathOf(x) { assert x in regs; }
    }
  }

  lemma RemovedTables(regs: seq<Item>, item: Item)
    requires DistinctFilters(regs) && item in regs
    ensures forall f :: HasFilter(RemoveFilter(regs, item.0), f) <==> HasFilter(regs, f) && f != item.0
    ensures forall x :: x in RemoveFilter(regs, item.0) <==> x in regs && x.0 != item.0
    ensures forall id :: Identified(RemoveFilter(regs, item.0), id)
                      == if item.1.identifier == Some(id) then Filter(Identified(regs, id), NotFilter(item.0))
                         else Identified(regs, id)
  {
    var after := RemoveFilter(regs, item.0);
    forall x ensures x in after <==> x in regs && x.0 != item.0 {
      FilterKeeps(regs, NotFilter(item.0), x);
    }
    forall f ensures HasFilter(after, f) <==> HasFilter(regs, f) && f != item.0 {
      if HasFilter(regs, f) && f != item.0 {
        var i :| 0 <= i < |regs| && regs[i].0 == f;
        assert regs[i] in after;
        var j :| 0 <= j < |after| && after[j] == regs[i];
      }
      if HasFilter(after, f) {
        var i :| 0 <= i < |after| && after[i].0 == f;
        assert after[i] in regs;
        var j :| 0 <= j < |regs| && regs[j] == after[i];
      }
    }
    forall id ensures Identified(after, id)
                   == if item.1.identifier == Some(id) then Filter(Identified(regs, id), NotFilter(item.0))
                      else Identified(regs, id)
    {
      FilterFilter(regs, NotFilter(item.0), HasIdentifier(id));
      FilterFilter(regs, HasIdentifier(id), NotFilter(item.0));
      FilterCongruence(regs, Both(NotFilter(item.0), HasIdentifier(id)), Both(HasIdentifier(id), NotFilter(item.0)));
      if item.1.identifier != Some(id) {
        forall x | x in Identified(regs, id) ensures x.0 != item.0 {
          if x.0 == item.0 { OnlyOneItemPerFilter(regs, x, item); }
        }
        FilterAll(Identified(regs, id), NotFilter(item.0));
      }
    }
  }

  lemma NothingRegistered()
    ensures PathsAre({[]}, [], []) && EntriesAre(map[], []) && IdentifiersAre(map[], []) && DistinctFilters([])
    ensures forall p :: At([], p) == []
  {}

  lemma FoundEntry(entries: map<string, SubscriptionEntry>, regs: seq<Item>, filter: string)
    requires EntriesAre(entries, regs)
    ensures filter in entries <==> HasFilter(regs, filter)
    ensures filter in entries ==> (filter, entries[filter]) in regs
  {}

  lemma AppendedEntries(entries: map<string, SubscriptionEntry>, regs: seq<Item>, item: Item)
    requires EntriesAre(entries, regs) && !HasFilter(regs, item.0)
    ensures EntriesAre(entries[item.0 := item.1], regs + [item])
  {
    hide HasFilter;
    AppendedTables(regs, item);
  }

  function WithIdentified(byIdentifier: map<int, seq<Item>>, item: Item): map<int, seq<Item>> {
    if item.1.identifier.None? then byIdentifier
    else
      var id := item.1.identifier.value;
      byIdentifier[id := (if id in byIdentifier then byIdentifier[id] else []) + [item]]
  }

  lemma AppendedIdentifiers(byIdentifier: map<int, seq<Item>>, regs: seq<Item>, item: Item)
    requires IdentifiersAre(byIdentifier, regs)
    ensures IdentifiersAre(WithIdentified(byIdentifier, item), regs + [item])
  {
    hide HasFilter, Identified;
    AppendedTables(regs, item);
  }

  function WithoutIdentified(byIdentifier: map<int, seq<Item>>, item: Item): map<int, seq<Item>> {
    if item.1.identifier.None? || item.1.identifier.value !in byIdentifier then byIdentifier
    else
      var id := item.1.identifier.value;
      var identified := Filter(byIdentifier[id], NotFilter(item.0));
      if identified == [] then byIdentifier - {id} else byIdentifier[id := identified]
  }

  lemma RemovedEntries(entries: map<string, SubscriptionEntry>, regs: seq<Item>, item: Item)
    requires EntriesAre(entries, regs) && DistinctFilters(regs) && item in regs
    ensures EntriesAre(entries - {item.0}, RemoveFilter(regs, item.0))
  {
    hide HasFilter;
    RemovedTables(regs, item);
  }

  lemma ItsIdentifierIsKnown(regs: seq<Item>, item: Item)
    requires item in regs && item.1.identifier.Some?
    ensures item in Identified(regs, item.1.identifier.value)
  {
    FilterKeeps(regs, HasIdentifier(item.1.identifier.value), item);
  }

  lemma RemovedIdentifiers(byIdentifier: map<int, seq<Item>>, regs: seq<Item>, item: Item)
    requires IdentifiersAre(byIdentifier, regs) && DistinctFilters(regs) && item in regs
    ensures IdentifiersAre(WithoutIdentified(byIdentifier, item), RemoveFilter(regs, item.0))
    ensures item.1.identifier.Some? ==> item.1.identifier.value in byIdentifier
  {
    hide HasFilter, Identified, RemoveFilter, DistinctFilters;
    RemovedTables(regs, item);
    if item.1.identifier.Some? { ItsIdentifierIsKnown(regs, item); }
  }

  lemma ClosingPaths(paths: set<Path>, regs: seq<Item>, item: Item)
    requires PathsAre(paths, regs, []) && DistinctFilters(regs) && item in regs
    ensures PathsAre(paths, RemoveFilter(regs, item.0), PathOf(item))
  {
    hide Live;
    RemovedPaths(regs, item);
    assert Live(regs, []) by { LiveRoot(regs); }
  }

  lemma LiveRoot(regs: seq<Item>)
    ensures Live(regs, [])
  {}

  lemma ItsNodeHoldsIt(regs: seq<Item>, x: Item)
    requires x in regs
    ensures At(regs, PathOf(x)) != []
  {
    FilterKeeps(regs, AtPath(PathOf(x)), x);
  }

  lemma LongerIsLive(regs: seq<Item>, q: Path, x: Item)
    requires x in regs && q < PathOf(x)
    ensures Live(regs, q + [PathOf(x)[|q|]])
  {
    assert q + [PathOf(x)[|q|]] <= PathOf(x);
  }

  lemma OpenPathIsThere(paths: set<Path>, regs: seq<Item>, q: Path)
    requires PathsAre(paths, regs, q)
    ensures forall p :: p <= q ==> p in paths
  {
    forall p | p <= q ensures p in paths { assert Begins(p, q); }
  }

  lemma AncestorIsThere(paths: set<Path>, regs: seq<Item>, item: Item, q: Path, rest: Path)
    requires PathsAre(paths, regs, []) && item in regs && PathOf(item) == q + rest
    ensures q in paths
  {
    assert q <= PathOf(item);
    assert Live(regs, q);
  }

  lemma ClosePath(paths: set<Path>, regs: seq<Item>, p: Path, level: string)
    requires PathsAre(paths, regs, p + [level]) && !Live(regs, p + [level])
    ensures PathsAre(paths - {p + [level]}, regs, p)
  {
    hide Live;
    OpenOneMore(regs, p, level);
    assert !Begins(p + [level], p);
  }

  lemma KeepPath(paths: set<Path>, regs: seq<Item>, p: Path, level: string)
    requires PathsAre(paths, regs, p + [level]) && Live(regs, p + [level])
    ensures PathsAre(paths, regs, p)
  {
    hide Live;
    OpenOneMore(regs, p, level);
  }
}
