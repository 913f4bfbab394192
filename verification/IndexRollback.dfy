/** Rolling a failed `subscribe` back while other calls change the index for other filters. */
module IndexRollback {
  import opened Prelude
  import opened IndexSpec

  datatype Change = Register(item: Item) | Unregister(filter: string)

  function Changed(c: Change): string {
    match c
    case Register(item) => item.0
    case Unregister(filter) => filter
  }

  function Apply(regs: seq<Item>, changes: seq<Change>): seq<Item> {
    if changes == [] then regs
    else
      var before := Apply(regs, changes[..|changes| - 1]);
      match changes[|changes| - 1]
      case Register(item) => AddItem(before, item)
      case Unregister(filter) => RemoveFilter(before, filter)
  }

  /** `for f in new_entries: subscriptions.remove(f)`. */
  function RemoveEach(regs: seq<Item>, filters: seq<string>): seq<Item> {
    if filters == [] then regs
    else RemoveFilter(RemoveEach(regs, filters[..|filters| - 1]), filters[|filters| - 1])
  }

  function Outside(filters: set<string>): Item -> bool { (x: Item) => x.0 !in filters }

  function Without(regs: seq<Item>, filters: set<string>): seq<Item> { Filter(regs, Outside(filters)) }

  lemma WithoutAfterRemove(regs: seq<Item>, filters: set<string>, f: string)
    ensures Without(RemoveFilter(regs, f), filters) == RemoveFilter(Without(regs, filters), f)
  {
    FilterFilter(regs, NotFilter(f), Outside(filters));
    FilterFilter(regs, Outside(filters), NotFilter(f));
    FilterCongruence(regs, Both(NotFilter(f), Outside(filters)), Both(Outside(filters), NotFilter(f)));
  }

  lemma WithoutAfterAdd(regs: seq<Item>, filters: set<string>, item: Item)
    ensures Without(AddItem(regs, item), filters)
         == if item.0 in filters then Without(regs, filters) else AddItem(Without(regs, filters), item)
  {
    var kept := RemoveFilter(regs, item.0);
    FilterConcat(kept, [item], Outside(filters));
    assert [item][1..] == [];
    WithoutAfterRemove(regs, filters, item.0);
    if item.0 in filters {
      forall x | x in Without(regs, filters) ensures x.0 != item.0 {
        FilterKeeps(regs, Outside(filters), x);
      }
      FilterAll(Without(regs, filters), NotFilter(item.0));
    }
  }

  lemma {:induction false} WithoutAfterAddAll(regs: seq<Item>, filters: set<string>, items: seq<Item>)
    requires forall x :: x in items ==> x.0 in filters
    ensures Without(AddAll(regs, items), filters) == Without(regs, filters)
  {
    if items != [] {
      WithoutAfterAddAll(regs, filters, items[..|items| - 1]);
      WithoutAfterAdd(AddAll(regs, items[..|items| - 1]), filters, items[|items| - 1]);
    }
  }

  lemma {:induction false} WithoutAfterChanges(regs: seq<Item>, filters: set<string>, changes: seq<Change>)
    requires forall c :: c in changes ==> Changed(c) !in filters
    ensures Without(Apply(regs, changes), filters) == Apply(Without(regs, filters), changes)
  {
    if changes != [] {
      var earlier, last := changes[..|changes| - 1], changes[|changes| - 1];
      assert last in changes;
      WithoutAfterChanges(regs, filters, earlier);
      match last
      case Register(item) => WithoutAfterAdd(Apply(regs, earlier), filters, item);
      case Unregister(filter) => WithoutAfterRemove(Apply(regs, earlier), filters, filter);
    }
  }

  lemma {:induction false} RemoveEachIsWithout(regs: seq<Item>, filters: seq<string>)
    ensures RemoveEach(regs, filters) == Without(regs, set f | f in filters)
  {
    if filters == [] {
      FilterAll(regs, Outside(set f | f in filters));
    } else {
      var earlier, last := filters[..|filters| - 1], filters[|filters| - 1];
      RemoveEachIsWithout(regs, earlier);
      FilterFilter(regs, Outside(set f | f in earlier), NotFilter(last));
      assert filters == earlier + [last];
      FilterCongruence(regs, Both(Outside(set f | f in earlier), NotFilter(last)), Outside(set f | f in filters));
    }
  }

  /** A `subscribe` that adds new filters and fails leaves no trace: whatever other calls did to other
    filters in the meantime, the registrations and their order are as if it had never been. */
  lemma FailedSubscribeLeavesNoTrace(regs: seq<Item>, items: seq<Item>, filters: seq<string>, changes: seq<Change>)
    requires forall f :: f in filters <==> exists x :: x in items && x.0 == f
    requires forall f :: f in filters ==> !HasFilter(regs, f)
    requires forall c :: c in changes ==> Changed(c) !in filters
    ensures RemoveEach(Apply(AddAll(regs, items), changes), filters) == Apply(regs, changes)
  {
    var new_ := set f | f in filters;
    RemoveEachIsWithout(Apply(AddAll(regs, items), changes), filters);
    WithoutAfterChanges(AddAll(regs, items), new_, changes);
    WithoutAfterAddAll(regs, new_, items);
    forall x | x in regs ensures x.0 !in new_ {
      var i :| 0 <= i < |regs| && regs[i] == x;
      assert x.0 in filters ==> HasFilter(regs, x.0);
    }
    FilterAll(regs, Outside(new_));
  }
}
