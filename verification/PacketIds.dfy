/** The pool of 16-bit packet identifiers (section 2.2.1 of MQTT Version 5.0). */
module PacketIds {
  import opened Prelude

  const MAX_ID := 65535

  datatype Pool = Pool(next: int, inUse: set<int>)

  /** The search position is in range and no free identifier lies below it. */
  ghost predicate PoolOk(p: Pool) {
    && 1 <= p.next <= MAX_ID
    && (forall i :: i in p.inUse ==> 1 <= i <= MAX_ID)
    && (forall i :: 1 <= i < p.next ==> i in p.inUse)
  }

  /** The least identifier from `i` on that is free, or one past the last when none is. */
  function LeastFrom(inUse: set<int>, i: int): (r: int)
    requires 1 <= i <= MAX_ID + 1
    ensures i <= r <= MAX_ID + 1
    ensures forall j :: i <= j < r ==> j in inUse
    ensures r <= MAX_ID ==> r !in inUse
    decreases MAX_ID + 1 - i
  {
    if i == MAX_ID + 1 || i !in inUse then i else LeastFrom(inUse, i + 1)
  }

  function LeastFree(inUse: set<int>): int { LeastFrom(inUse, 1) }

  function AcquireFrom(p: Pool): Pool {
    var id := LeastFree(p.inUse);
    Pool(id % MAX_ID + 1, p.inUse + {id})
  }

  function ReleaseTo(p: Pool, pid: int): Pool {
    Pool(if p.next <= pid then p.next else pid, p.inUse - {pid})
  }

  ghost function Upto(n: nat): (s: set<int>)
    ensures forall i :: i in s <==> 1 <= i <= n
    ensures |s| == n
  {
    if n == 0 then {} else Upto(n - 1) + {n}
  }

  lemma SubsetSize(a: set<int>, b: set<int>)
    requires a <= b
    ensures |a| <= |b| && (|a| == |b| ==> a == b)
  {
    assert b == a + (b - a) && a !! (b - a);
    assert |b| == |a| + |b - a|;
  }

  /** The pool runs out exactly when all identifiers are in use. */
  lemma FullPoolHasNoFreeId(p: Pool)
    requires PoolOk(p)
    ensures |p.inUse| >= MAX_ID <==> LeastFree(p.inUse) == MAX_ID + 1
    ensures p.next <= LeastFree(p.inUse)
  {
    assert |Upto(MAX_ID)| == MAX_ID;
    if LeastFree(p.inUse) == MAX_ID + 1 {
      SubsetSize(Upto(MAX_ID), p.inUse);
    } else {
      assert LeastFree(p.inUse) in Upto(MAX_ID) && LeastFree(p.inUse) !in p.inUse;
      SubsetSize(p.inUse, Upto(MAX_ID));
    }
  }

  lemma AcquireKeepsPool(p: Pool)
    requires PoolOk(p) && LeastFree(p.inUse) <= MAX_ID
    ensures PoolOk(AcquireFrom(p))
  {}

  /** Releasing keeps the search position sound exactly for positive identifiers: a release of 0
    or less would hand that number out next. */
  lemma ReleaseKeepsPoolExactlyWhenPositive(p: Pool, pid: int)
    requires PoolOk(p)
    ensures PoolOk(ReleaseTo(p, pid)) <==> pid >= 1
    ensures pid < 1 ==> ReleaseTo(p, pid).next == pid && pid !in ReleaseTo(p, pid).inUse
  {}

  /** A released identifier that is the least free one is the next to be acquired. */
  lemma ReleaseAllowsReuse(p: Pool)
    requires PoolOk(p) && LeastFree(p.inUse) <= MAX_ID
    ensures var id := LeastFree(p.inUse);
      && ReleaseTo(AcquireFrom(p), id).inUse == p.inUse
      && LeastFree(ReleaseTo(AcquireFrom(p), id).inUse) == id
  {
    var id := LeastFree(p.inUse);
    assert id !in p.inUse;
    assert p.inUse + {id} - {id} == p.inUse;
  }

  class PacketIdPool {
    var next: int
    var inUse: set<int>

    function View(): Pool
      reads this
    {
      Pool(next, inUse)
    }

    ghost predicate Valid()
      reads this
    {
      PoolOk(View())
    }

    constructor ()
      ensures Valid() && View() == Pool(1, {})
    {
      next, inUse := 1, {};
    }

    /** Returns the least free identifier; fails exactly when all 65535 are in use. */
    method Acquire() returns (r: Result<int, string>)
      requires Valid()
      modifies this
      ensures Valid()
      ensures old(|inUse|) >= MAX_ID ==> r.Err? && View() == old(View())
      ensures old(|inUse|) < MAX_ID ==>
        r == Ok(LeastFree(old(inUse))) && r.value <= MAX_ID && View() == AcquireFrom(old(View()))
    {
      FullPoolHasNoFreeId(View());
      if |inUse| >= MAX_ID {
        return Err("All 65535 packet IDs are in use");
      }
      ghost var least := LeastFree(inUse);
      while next in inUse
        invariant inUse == old(inUse)
        invariant 1 <= next <= least <= MAX_ID
        decreases MAX_ID + 1 - next
      {
        next := next % MAX_ID + 1;
      }
      var pid := next;
      inUse := inUse + {pid};
      next := pid % MAX_ID + 1;
      r := Ok(pid);
    }

    method Release(pid: int)
      requires Valid()
      modifies this
      ensures View() == ReleaseTo(old(View()), pid)
      ensures Valid() <==> pid >= 1
    {
      inUse := inUse - {pid};
      next := if next <= pid then next else pid;
    }
  }
}
