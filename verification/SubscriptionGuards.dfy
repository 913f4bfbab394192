/** The ordered lock table that serialises changes of ownership of overlapping topic filters. */
module SubscriptionGuards {
  import opened Prelude
  import opened Ordering

  type Task = int

  /** A guard: how many tasks are inside `hold` with its filter, and which of them has its lock. */
  datatype GuardState = GuardState(users: int, holder: Option<Task>)

  /** A task inside `hold`: its filters in order, and how many of their locks it has. */
  datatype Hold = Hold(filters: seq<string>, acquired: nat)

  datatype Table = Table(guards: map<string, GuardState>, holds: map<Task, Hold>)

  const NoTasks := Table(map[], map[])

  // ----- The order of filters -----

  function Codes(s: string): (r: seq<int>)
    ensures |r| == |s| && forall i :: 0 <= i < |s| ==> r[i] == s[i] as int
  {
    seq(|s|, i requires 0 <= i < |s| => s[i] as int)
  }

  predicate Before(a: string, b: string) { a != b && LexLe(Codes(a), Codes(b)) }

  lemma BeforeIsTotal(a: string, b: string)
    ensures Before(a, b) || Before(b, a) || a == b
  {
    LexTotal(Codes(a), Codes(b));
  }

  lemma BeforeIsTransitive(a: string, b: string, c: string)
    requires Before(a, b) && Before(b, c)
    ensures Before(a, c)
  {
    LexTransitive(Codes(a), Codes(b), Codes(c));
    if a == c { BeforeIsAsymmetric(a, b); }
  }

  lemma BeforeIsAsymmetric(a: string, b: string)
    requires Before(a, b)
    ensures !Before(b, a)
  {
    if LexLe(Codes(b), Codes(a)) {
      LexAntisymmetric(Codes(a), Codes(b));
      CodesAreInjective(a, b);
    }
  }

  lemma CodesAreInjective(a: string, b: string)
    requires Codes(a) == Codes(b)
    ensures a == b
  {
    forall i | 0 <= i < |a| ensures a[i] == b[i] {
      assert Codes(a)[i] == Codes(b)[i];
    }
  }

  predicate Ascending(s: seq<string>) { forall i, j :: 0 <= i < j < |s| ==> Before(s[i], s[j]) }

  function InsertDistinct(x: string, s: seq<string>): seq<string> {
    if s == [] || Before(x, s[0]) then [x] + s
    else if x == s[0] then s
    else [s[0]] + InsertDistinct(x, s[1..])
  }

  /** `sorted(set(filters))`. */
  function SortedSet(filters: seq<string>): seq<string> {
    if filters == [] then [] else InsertDistinct(filters[0], SortedSet(filters[1..]))
  }

  lemma {:induction false} InsertDistinctProperties(x: string, s: seq<string>)
    requires Ascending(s)
    ensures Ascending(InsertDistinct(x, s))
    ensures forall y :: y in InsertDistinct(x, s) <==> y == x || y in s
  {
    var r := InsertDistinct(x, s);
    if s == [] {
    } else if Before(x, s[0]) {
      forall j | 0 < j < |s| ensures Before(x, s[j]) {
        BeforeIsTransitive(x, s[0], s[j]);
      }
      assert Ascending(r);
    } else if x != s[0] {
      var rest := InsertDistinct(x, s[1..]);
      InsertDistinctProperties(x, s[1..]);
      BeforeIsTotal(x, s[0]);
      assert s == [s[0]] + s[1..];
      forall j | 0 <= j < |rest| ensures Before(s[0], rest[j]) {
        assert rest[j] in rest;
        if rest[j] != x {
          var k :| 0 <= k < |s[1..]| && s[1..][k] == rest[j];
          assert s[k + 1] == rest[j];
        }
      }
      assert r == [s[0]] + rest;
      assert forall i, j :: 0 < i < j < |r| ==> r[i] == rest[i - 1] && r[j] == rest[j - 1];
    }
  }

  lemma {:induction false} SortedSetProperties(filters: seq<string>)
    ensures Ascending(SortedSet(filters))
    ensures forall f :: f in SortedSet(filters) <==> f in filters
  {
    if filters != [] {
      SortedSetProperties(filters[1..]);
      InsertDistinctProperties(filters[0], SortedSet(filters[1..]));
      assert filters == [filters[0]] + filters[1..];
    }
  }

  /** Every task lists the same filters in the same order, however it was asked for them. */
  lemma {:induction false} AscendingIsDetermined(a: seq<string>, b: seq<string>)
    requires Ascending(a) && Ascending(b) && forall f :: f in a <==> f in b
    ensures a == b
  {
    assert forall i :: 0 <= i < |b| ==> b[i] in a;
    assert forall i :: 0 <= i < |a| ==> a[i] in b;
    if a != [] {
      var i :| 0 <= i < |b| && b[i] == a[0];
      var j :| 0 <= j < |a| && a[j] == b[0];
      if i > 0 && j > 0 { BeforeIsAsymmetric(a[0], b[0]); }
      assert a[0] == b[0];
      forall f ensures f in a[1..] <==> f in b[1..] {
        RestWithoutHead(a, f);
        RestWithoutHead(b, f);
      }
      AscendingIsDetermined(a[1..], b[1..]);
      assert a == [a[0]] + a[1..] && b == [b[0]] + b[1..];
    }
  }

  lemma RestWithoutHead(s: seq<string>, f: string)
    requires Ascending(s) && s != []
    ensures f in s[1..] <==> f in s && f != s[0]
  {
    assert s == [s[0]] + s[1..];
  }

  // ----- The table -----

  datatype Event =
    | Enter(task: Task, filters: seq<string>)
    | Acquire(task: Task)
    /** Normal exit, or an exception or cancellation at any point inside. */
    | Leave(task: Task)

  function Joined(guards: map<string, GuardState>, filters: seq<string>): map<string, GuardState> {
    map f | f in guards.Keys + (set x | x in filters) ::
      if f !in guards then GuardState(1, None)
      else if f in filters then guards[f].(users := guards[f].users + 1)
      else guards[f]
  }

  function Departed(guards: map<string, GuardState>, hold: Hold): map<string, GuardState>
    requires hold.acquired <= |hold.filters|
  {
    map f | f in guards && !(f in hold.filters && guards[f].users == 1) ::
      GuardState(if f in hold.filters then guards[f].users - 1 else guards[f].users,
                 if f in hold.filters[..hold.acquired] then None else guards[f].holder)
  }

  /** Some lock is still to be acquired. */
  predicate Waiting(table: Table, t: Task) {
    t in table.holds && table.holds[t].acquired < |table.holds[t].filters|
  }

  function Awaited(table: Table, t: Task): string
    requires Waiting(table, t)
  {
    table.holds[t].filters[table.holds[t].acquired]
  }

  /** The body of the `async with` runs. */
  predicate Inside(table: Table, t: Task) {
    t in table.holds && table.holds[t].acquired >= |table.holds[t].filters|
  }

  predicate Locked(table: Table, f: string) { f in table.guards && table.guards[f].holder.Some? }

  predicate Blocked(table: Table, t: Task) { Waiting(table, t) && Locked(table, Awaited(table, t)) }

  function Step(table: Table, e: Event): Table {
    match e
    case Enter(t, filters) =>
      if t in table.holds then table
      else
        var sorted := SortedSet(filters);
        Table(Joined(table.guards, sorted), table.holds[t := Hold(sorted, 0)])
    case Acquire(t) =>
      if !Waiting(table, t) || Blocked(table, t) || Awaited(table, t) !in table.guards then table
      else
        var f := Awaited(table, t);
        Table(table.guards[f := table.guards[f].(holder := Some(t))],
              table.holds[t := table.holds[t].(acquired := table.holds[t].acquired + 1)])
    case Leave(t) =>
      if t !in table.holds || table.holds[t].acquired > |table.holds[t].filters| then table
      else Table(Departed(table.guards, table.holds[t]), table.holds - {t})
  }

  function Run(table: Table, events: seq<Event>): Table
    decreases |events|
  {
    if events == [] then table else Run(Step(table, events[0]), events[1..])
  }

  // ----- What every reachable table keeps -----

  predicate Uses(holds: map<Task, Hold>, t: Task, f: string) { t in holds && f in holds[t].filters }

  function Users(holds: map<Task, Hold>, f: string): set<Task> { set t | t in holds && Uses(holds, t, f) }

  predicate Has(holds: map<Task, Hold>, t: Task, f: string) {
    t in holds && holds[t].acquired <= |holds[t].filters| && f in holds[t].filters[..holds[t].acquired]
  }

  ghost predicate HoldsOk(holds: map<Task, Hold>) {
    forall t :: t in holds ==> Ascending(holds[t].filters) && holds[t].acquired <= |holds[t].filters|
  }

  /** The table has exactly the guards somebody uses, and counts their users. */
  ghost predicate UsersOk(table: Table) {
    && (forall f :: f in table.guards <==> exists t :: Uses(table.holds, t, f))
    && (forall f :: f in table.guards ==> table.guards[f].users == |Users(table.holds, f)|)
  }

  /** A lock is held by the one task that acquired it. */
  ghost predicate LocksOk(table: Table) {
    forall f, t :: f in table.guards ==> (table.guards[f].holder == Some(t) <==> Has(table.holds, t, f))
  }

  ghost predicate TableOk(table: Table) { HoldsOk(table.holds) && UsersOk(table) && LocksOk(table) }

  lemma JoinKeepsUsers(table: Table, t: Task, filters: seq<string>)
    requires UsersOk(table) && t !in table.holds
    ensures UsersOk(Table(Joined(table.guards, filters), table.holds[t := Hold(filters, 0)]))
  {
    var after := Table(Joined(table.guards, filters), table.holds[t := Hold(filters, 0)]);
    forall f
      ensures f in after.guards <==> exists u :: Uses(after.holds, u, f)
      ensures f in after.guards ==> after.guards[f].users == |Users(after.holds, f)|
    {
      NewUser(table.holds, t, filters, f);
      if f !in table.guards { assert Users(table.holds, f) == {}; }
    }
  }

  lemma NewUser(holds: map<Task, Hold>, t: Task, filters: seq<string>, f: string)
    requires t !in holds
    ensures var after := holds[t := Hold(filters, 0)];
      && Users(after, f) == Users(holds, f) + (if f in filters then {t} else {})
      && ((exists u :: Uses(after, u, f)) <==> f in filters || exists u :: Uses(holds, u, f))
  {
    var after := holds[t := Hold(filters, 0)];
    assert Uses(after, t, f) <==> f in filters;
    assert forall u :: u != t ==> (Uses(after, u, f) <==> Uses(holds, u, f));
  }

  lemma JoinKeepsLocks(table: Table, t: Task, filters: seq<string>)
    requires UsersOk(table) && LocksOk(table) && t !in table.holds
    ensures LocksOk(Table(Joined(table.guards, filters), table.holds[t := Hold(filters, 0)]))
  {
    hide Users;
    var after := Table(Joined(table.guards, filters), table.holds[t := Hold(filters, 0)]);
    forall f, u | f in after.guards
      ensures after.guards[f].holder == Some(u) <==> Has(after.holds, u, f)
    {
      assert u != t ==> (Has(after.holds, u, f) <==> Has(table.holds, u, f));
      assert Has(table.holds, u, f) ==> Uses(table.holds, u, f);
    }
  }

  lemma EnterKeeps(table: Table, t: Task, filters: seq<string>)
    requires TableOk(table)
    ensures TableOk(Step(table, Enter(t, filters)))
  {
    hide UsersOk, LocksOk, Ascending, Joined;
    if t !in table.holds {
      SortedSetProperties(filters);
      JoinKeepsUsers(table, t, SortedSet(filters));
      JoinKeepsLocks(table, t, SortedSet(filters));
    }
  }

  lemma AcquireKeeps(table: Table, t: Task)
    requires TableOk(table)
    ensures TableOk(Step(table, Acquire(t)))
  {
    hide Ascending;
    if Waiting(table, t) && !Blocked(table, t) {
      var f := Awaited(table, t);
      assert Uses(table.holds, t, f);
      var after := Step(table, Acquire(t));
      var filters, k := table.holds[t].filters, table.holds[t].acquired;
      assert filters[..k + 1] == filters[..k] + [f];
      forall g ensures Users(after.holds, g) == Users(table.holds, g) {}
      forall u, g ensures Uses(after.holds, u, g) <==> Uses(table.holds, u, g) {}
      forall u, g ensures Has(after.holds, u, g) <==> Has(table.holds, u, g) || (u == t && g == f) {}
    }
  }

  lemma DepartureKeepsUsers(table: Table, t: Task)
    requires HoldsOk(table.holds) && UsersOk(table) && t in table.holds
    ensures UsersOk(Table(Departed(table.guards, table.holds[t]), table.holds - {t}))
  {
    hide Ascending;
    var after := Table(Departed(table.guards, table.holds[t]), table.holds - {t});
    forall f
      ensures f in after.guards <==> exists u :: Uses(after.holds, u, f)
      ensures f in after.guards ==> after.guards[f].users == |Users(after.holds, f)|
    {
      FormerUser(table.holds, t, f);
    }
  }

  lemma FormerUser(holds: map<Task, Hold>, t: Task, f: string)
    requires t in holds
    ensures Users(holds - {t}, f) == Users(holds, f) - {t}
    ensures |Users(holds - {t}, f)| == |Users(holds, f)| - if f in holds[t].filters then 1 else 0
    ensures (exists u :: Uses(holds - {t}, u, f)) <==> |Users(holds - {t}, f)| != 0
    ensures (exists u :: Uses(holds, u, f)) <==> |Users(holds, f)| != 0
  {
    var left := holds - {t};
    assert forall u :: u != t ==> (Uses(left, u, f) <==> Uses(holds, u, f));
    assert Users(left, f) == Users(holds, f) - {t};
    assert t in Users(holds, f) <==> f in holds[t].filters;
    UsersExist(left, f);
    UsersExist(holds, f);
  }

  lemma UsersExist(holds: map<Task, Hold>, f: string)
    ensures (exists u :: Uses(holds, u, f)) <==> |Users(holds, f)| != 0
  {
    if u :| Uses(holds, u, f) { assert u in Users(holds, f); }
    if |Users(holds, f)| != 0 {
      var u :| u in Users(holds, f);
      assert Uses(holds, u, f);
    }
  }

  lemma DepartureKeepsLocks(table: Table, t: Task)
    requires HoldsOk(table.holds) && LocksOk(table) && t in table.holds
    ensures LocksOk(Table(Departed(table.guards, table.holds[t]), table.holds - {t}))
  {
    hide Ascending;
    var after := Table(Departed(table.guards, table.holds[t]), table.holds - {t});
    forall f, u | f in after.guards
      ensures after.guards[f].holder == Some(u) <==> Has(after.holds, u, f)
    {
      assert u != t ==> (Has(after.holds, u, f) <==> Has(table.holds, u, f));
      assert table.guards[f].holder == Some(t) <==> Has(table.holds, t, f);
      assert Has(table.holds, t, f) <==> f in table.holds[t].filters[..table.holds[t].acquired];
    }
  }

  lemma LeaveKeeps(table: Table, t: Task)
    requires TableOk(table)
    ensures TableOk(Step(table, Leave(t)))
  {
    hide UsersOk, LocksOk, Ascending, Departed;
    if t in table.holds {
      DepartureKeepsUsers(table, t);
      DepartureKeepsLocks(table, t);
    }
  }

  lemma StepKeeps(table: Table, e: Event)
    requires TableOk(table)
    ensures TableOk(Step(table, e))
  {
    match e
    case Enter(t, filters) => EnterKeeps(table, t, filters);
    case Acquire(t) => AcquireKeeps(table, t);
    case Leave(t) => LeaveKeeps(table, t);
  }

  lemma {:induction false} ReachableTablesAreOk(table: Table, events: seq<Event>)
    requires TableOk(table)
    ensures TableOk(Run(table, events))
    decreases |events|
  {
    if events != [] {
      StepKeeps(table, events[0]);
      ReachableTablesAreOk(Step(table, events[0]), events[1..]);
    }
  }

  lemma NoTasksIsOk()
    ensures TableOk(NoTasks)
  {
    assert forall f, t :: !Uses(NoTasks.holds, t, f);
  }

  // ----- Main results -----

  /** No two tasks are inside with a common filter, whatever was cancelled when. */
  lemma OverlappingHoldersExclude(events: seq<Event>, t: Task, u: Task, f: string)
    requires var table := Run(NoTasks, events);
      Inside(table, t) && Inside(table, u) && Uses(table.holds, t, f) && Uses(table.holds, u, f)
    ensures t == u
  {
    NoTasksIsOk();
    ReachableTablesAreOk(NoTasks, events);
    var table := Run(NoTasks, events);
    forall x | x == t || x == u ensures Has(table.holds, x, f) {
      var filters := table.holds[x].filters;
      assert filters[..table.holds[x].acquired] == filters;
    }
    assert table.guards[f].holder == Some(t) && table.guards[f].holder == Some(u);
  }

  /** Who enters is listed with each of its filters once, in order, and has none of their locks; who acquires gets the
    next lock exactly when nobody has it; who leaves is gone. Nobody else's hold changes. */
  lemma HoldsMeaning(table: Table, t: Task, filters: seq<string>)
    requires TableOk(table)
    ensures t !in table.holds ==>
      var after := Step(table, Enter(t, filters)).holds;
      && t in after && after - {t} == table.holds && after[t].acquired == 0 && Ascending(after[t].filters)
      && forall f :: f in after[t].filters <==> f in filters
    ensures Waiting(table, t) ==>
      Step(table, Acquire(t)).holds
      == if exists u :: Has(table.holds, u, Awaited(table, t)) then table.holds
         else table.holds[t := Hold(table.holds[t].filters, table.holds[t].acquired + 1)]
    ensures Step(table, Leave(t)).holds == table.holds - {t}
  {
    hide Ascending, Joined, Departed, Has;
    if t !in table.holds {
      SortedSetProperties(filters);
      assert table.holds[t := Hold(SortedSet(filters), 0)] - {t} == table.holds;
      assert table.holds - {t} == table.holds;
    }
    if Waiting(table, t) {
      var f := Awaited(table, t);
      assert Uses(table.holds, t, f);
      if table.guards[f].holder.Some? { assert Has(table.holds, table.guards[f].holder.value, f); }
    }
  }

  /** The table holds exactly the guards in use with their exact number of users; with no task it is empty. */
  lemma TableIsExact(events: seq<Event>, f: string)
    ensures var table := Run(NoTasks, events);
      && (f in table.guards <==> Users(table.holds, f) != {})
      && (f in table.guards ==> table.guards[f].users == |Users(table.holds, f)| && table.guards[f].users > 0)
      && (table.holds == map[] ==> table.guards == map[])
  {
    NoTasksIsOk();
    ReachableTablesAreOk(NoTasks, events);
    var table := Run(NoTasks, events);
    if f in table.guards {
      var t :| Uses(table.holds, t, f);
      assert t in Users(table.holds, f);
    } else {
      assert forall t :: !Uses(table.holds, t, f);
    }
    if table.holds == map[] {
      assert forall g :: g !in table.guards;
    }
  }

  /** A waiting task has only locks of filters that come before the one it waits for. */
  lemma WaitingTaskHasOnlyEarlierLocks(table: Table, t: Task, f: string)
    requires TableOk(table) && Waiting(table, t)
    requires f in table.guards && table.guards[f].holder == Some(t)
    ensures Before(f, Awaited(table, t))
  {
    assert Has(table.holds, t, f);
    var filters, k := table.holds[t].filters, table.holds[t].acquired;
    var i :| 0 <= i < k && filters[..k][i] == f;
    assert filters[i] == f;
  }

  ghost function Later(table: Table, f: string): set<string> { set g | g in table.guards && Before(f, g) }

  lemma LaterShrinks(table: Table, f: string, g: string)
    requires Before(f, g) && g in table.guards
    ensures |Later(table, g)| < |Later(table, f)|
  {
    assert g in Later(table, f) && g !in Later(table, g);
    forall h | h in Later(table, g) ensures h in Later(table, f) {
      BeforeIsTransitive(f, g, h);
    }
    Smaller(Later(table, g), Later(table, f));
  }

  lemma {:induction false} Smaller<T>(a: set<T>, b: set<T>)
    requires a < b
    ensures |a| < |b|
  {
    var x :| x in b && x !in a;
    assert |b| == |b - {x}| + 1;
    AtMost(a, b - {x});
  }

  lemma {:induction false} AtMost<T>(a: set<T>, b: set<T>)
    requires a <= b
    ensures |a| <= |b|
  {
    if a != {} {
      var x :| x in a;
      AtMost(a - {x}, b - {x});
    }
  }

  /** The chain from a task to the holder of the lock it waits for, to the holder that one waits for, … */
  predicate WaitsFor(table: Table, chain: seq<Task>) {
    forall i :: 0 <= i < |chain| - 1 ==>
      && Blocked(table, chain[i])
      && table.guards[Awaited(table, chain[i])].holder == Some(chain[i + 1])
  }

  /** No deadlock: every chain of waiting tasks ends at one that can go on. */
  lemma {:induction false} WaitingEndsAtARunnableTask(table: Table, t: Task) returns (chain: seq<Task>)
    requires TableOk(table) && t in table.holds
    ensures chain != [] && chain[0] == t && WaitsFor(table, chain)
    ensures var last := chain[|chain| - 1]; last in table.holds && !Blocked(table, last)
    decreases if Blocked(table, t) then 1 + |Later(table, Awaited(table, t))| else 0
  {
    chain := [t];
    if Blocked(table, t) {
      var f := Awaited(table, t);
      var u := table.guards[f].holder.value;
      assert Has(table.holds, u, f);
      if Blocked(table, u) {
        WaitingTaskHasOnlyEarlierLocks(table, u, f);
        LaterShrinks(table, f, Awaited(table, u));
      }
      var rest := WaitingEndsAtARunnableTask(table, u);
      chain := [t] + rest;
      assert forall i :: 1 <= i < |chain| ==> chain[i] == rest[i - 1];
    }
  }

  function FreeLocks(table: Table): set<string> { set f | f in table.guards && table.guards[f].holder.None? }

  /** Acquiring one lock, or leaving the body after acquiring all of them. */
  predicate GoesOn(table: Table, e: Event) {
    match e
    case Enter(_, _) => false
    case Acquire(t) => Waiting(table, t)
    case Leave(t) => Inside(table, t)
  }

  predicate AllGoOn(table: Table, events: seq<Event>)
    decreases |events|
  {
    events == [] || (GoesOn(table, events[0]) && AllGoOn(Step(table, events[0]), events[1..]))
  }

  lemma GoingOnIsProgress(table: Table, t: Task) returns (e: Event)
    requires TableOk(table) && t in table.holds && !Blocked(table, t)
    ensures GoesOn(table, e)
    ensures var after := Step(table, e);
      |after.holds| < |table.holds|
      || (|after.holds| == |table.holds| && |FreeLocks(after)| < |FreeLocks(table)|)
  {
    hide Ascending, Departed;
    if Waiting(table, t) {
      e := Acquire(t);
      var after, f := Step(table, e), Awaited(table, t);
      assert Uses(table.holds, t, f);
      assert after.holds.Keys == table.holds.Keys;
      assert |after.holds| == |after.holds.Keys| && |table.holds| == |table.holds.Keys|;
      assert f in FreeLocks(table) && FreeLocks(after) == FreeLocks(table) - {f};
    } else {
      e := Leave(t);
      var after := Step(table, e);
      assert after.holds.Keys == table.holds.Keys - {t};
      assert |after.holds| == |after.holds.Keys| && |table.holds| == |table.holds.Keys|;
    }
  }

  /** From every table all tasks can still get all their locks and leave, with nobody cancelled. */
  lemma {:induction false} EveryTaskCanFinish(table: Table) returns (events: seq<Event>)
    requires TableOk(table)
    ensures AllGoOn(table, events) && Run(table, events) == NoTasks
    decreases |table.holds|, |FreeLocks(table)|
  {
    hide TableOk, Step, FreeLocks, WaitsFor, Blocked, GoesOn;
    events := [];
    if forall t :: t !in table.holds {
      assert table.holds == map[];
      NoHoldsNoGuards(table);
    } else {
      var t :| t in table.holds;
      var chain := WaitingEndsAtARunnableTask(table, t);
      var e := GoingOnIsProgress(table, chain[|chain| - 1]);
      StepKeeps(table, e);
      var rest := EveryTaskCanFinish(Step(table, e));
      events := [e] + rest;
      assert events[1..] == rest;
    }
  }

  lemma NoHoldsNoGuards(table: Table)
    requires TableOk(table) && table.holds == map[]
    ensures table == NoTasks
  {
    assert forall f :: f !in table.guards;
  }

  // ----- The table as the object the protocol uses -----

  class SubscriptionGuard {
    var users: int
    /** Who has the lock. */
    var holder: Option<Task>

    constructor ()
      ensures users == 0 && holder == None
    {
      users, holder := 0, None;
    }
  }

  type Entries = seq<(string, SubscriptionGuard)>

  function Filters(entries: Entries): (r: seq<string>)
    ensures |r| == |entries| && forall i :: 0 <= i < |r| ==> r[i] == entries[i].0
  {
    seq(|entries|, i requires 0 <= i < |entries| => entries[i].0)
  }

  function Unlocked(guards: map<string, GuardState>, filters: seq<string>): map<string, GuardState> {
    map f | f in guards :: if f in filters then guards[f].(holder := None) else guards[f]
  }

  function Released(guards: map<string, GuardState>, filters: seq<string>): map<string, GuardState> {
    map f | f in guards && !(f in filters && guards[f].users == 1) ::
      if f in filters then guards[f].(users := guards[f].users - 1) else guards[f]
  }

  lemma DepartureIsUnlockThenRelease(guards: map<string, GuardState>, hold: Hold)
    requires hold.acquired <= |hold.filters|
    ensures Departed(guards, hold) == Released(Unlocked(guards, hold.filters[..hold.acquired]), hold.filters)
  {}

  lemma OneMoreJoined(guards: map<string, GuardState>, filters: seq<string>, f: string)
    requires f !in filters
    ensures Joined(Joined(guards, filters), [f]) == Joined(guards, filters + [f])
  {}

  lemma OneMoreReleased(guards: map<string, GuardState>, filters: seq<string>, f: string)
    requires f !in filters
    ensures Released(Released(guards, filters), [f]) == Released(guards, filters + [f])
  {}

  lemma OneMoreUnlocked(guards: map<string, GuardState>, f: string, filters: seq<string>)
    ensures Unlocked(Unlocked(guards, filters), [f]) == Unlocked(guards, [f] + filters)
  {}

  lemma UnlockedNone(guards: map<string, GuardState>)
    ensures Unlocked(guards, []) == guards
  {}

  lemma JoinedNone(guards: map<string, GuardState>)
    ensures Joined(guards, []) == guards
  {}

  lemma ReleasedNone(guards: map<string, GuardState>)
    ensures Released(guards, []) == guards
  {}

  lemma HoldInTable(table: Table, t: Task)
    requires TableOk(table) && t in table.holds
    ensures Ascending(table.holds[t].filters) && table.holds[t].acquired <= |table.holds[t].filters|
  {}

  lemma UsedFiltersAreGuarded(table: Table, t: Task)
    requires TableOk(table) && t in table.holds
    ensures forall f :: f in table.holds[t].filters ==> f in table.guards
  {
    assert forall f :: f in table.holds[t].filters ==> Uses(table.holds, t, f);
  }

  lemma AscendingIsDistinct(s: seq<string>, i: nat)
    requires Ascending(s) && i < |s|
    ensures s[i] !in s[..i] && s[..i + 1] == s[..i] + [s[i]]
  {}

  class Guards {
    var guards: map<string, SubscriptionGuard>
    /** The local variables `entries` and `acquired` of every task inside `hold`. */
    var entries: map<Task, Entries>
    var acquired: map<Task, nat>

    ghost function States(): (r: map<string, GuardState>)
      reads this`guards, guards.Values
      ensures r.Keys == guards.Keys
    {
      map f | f in guards :: GuardState(guards[f].users, guards[f].holder)
    }

    ghost function View(): Table
      reads this, guards.Values
      requires entries.Keys == acquired.Keys
    {
      Table(States(), map t | t in entries :: Hold(Filters(entries[t]), acquired[t]))
    }

    ghost predicate NoAlias()
      reads this`guards
    {
      forall f, g :: f in guards && g in guards && f != g ==> guards[f] != guards[g]
    }

    /** The entries name the guards that are in the table. */
    ghost predicate Current(mine: Entries)
      reads this`guards
    {
      forall i :: 0 <= i < |mine| ==> mine[i].0 in guards && guards[mine[i].0] == mine[i].1
    }

    /** All tasks that use a filter share the one guard of the table, and no two filters do. */
    ghost predicate Valid()
      reads this, guards.Values
    {
      && entries.Keys == acquired.Keys && NoAlias()
      && (forall t :: t in entries ==> Current(entries[t]))
      && TableOk(View())
    }

    constructor ()
      ensures Valid() && View() == NoTasks
    {
      guards, entries, acquired := map[], map[], map[];
      new;
      NoTasksIsOk();
      assert View() == NoTasks;
    }

    /** `hold` up to its first `await`. */
    method Enter(t: Task, filters: seq<string>)
      requires Valid() && t !in entries
      modifies this, guards.Values
      ensures Valid() && View() == Step(old(View()), Event.Enter(t, filters))
    {
      hide TableOk, SortedSet, Ascending, Joined, States;
      StepKeeps(View(), Event.Enter(t, filters));
      SortedSetProperties(filters);
      var mine := Join(SortedSet(filters));
      entries, acquired := entries[t := mine], acquired[t := 0];
      assert View().holds == old(View()).holds[t := Hold(SortedSet(filters), 0)];
    }

    method Join(filters: seq<string>) returns (mine: Entries)
      requires Ascending(filters) && NoAlias()
      modifies this`guards, guards.Values
      ensures NoAlias() && Current(mine) && Filters(mine) == filters
      ensures forall f :: f in old(guards) ==> f in guards && guards[f] == old(guards)[f]
      ensures States() == Joined(old(States()), filters)
    {
      hide Ascending, Joined, NoAlias, States;
      mine := [];
      JoinedNone(States());
      for i := 0 to |filters|
        invariant Filters(mine) == filters[..i] && Current(mine) && NoAlias()
        invariant forall f :: f in old(guards) ==> f in guards && guards[f] == old(guards)[f]
        invariant forall f :: f in guards ==> guards[f] in old(guards.Values) || fresh(guards[f])
        invariant States() == Joined(old(States()), filters[..i])
      {
        AscendingIsDistinct(filters, i);
        OneMoreJoined(old(States()), filters[..i], filters[i]);
        var guard := JoinOne(filters[i]);
        mine := mine + [(filters[i], guard)];
      }
      assert filters[..|filters|] == filters;
    }

    method JoinOne(filter: string) returns (guard: SubscriptionGuard)
      requires NoAlias()
      modifies this`guards, guards.Values
      ensures NoAlias() && filter in guards && guards[filter] == guard
      ensures forall f :: f in old(guards) ==> f in guards && guards[f] == old(guards)[f]
      ensures forall f :: f in guards && f !in old(guards) ==> fresh(guards[f])
      ensures States() == Joined(old(States()), [filter])
    {
      if filter !in guards {
        var made := new SubscriptionGuard();
        guards := guards[filter := made];
      }
      guard := guards[filter];
      guard.users := guard.users + 1;
    }

    /** The next `await guard.lock.acquire()` succeeds. */
    method Acquire(t: Task)
      requires Valid() && t in entries && acquired[t] < |entries[t]|
      requires entries[t][acquired[t]].1.holder.None?
      modifies this, guards.Values
      ensures Valid() && View() == Step(old(View()), Event.Acquire(t))
    {
      hide TableOk, Ascending;
      StepKeeps(View(), Event.Acquire(t));
      var guard := entries[t][acquired[t]].1;
      guard.holder := Some(t);
      acquired := acquired[t := acquired[t] + 1];
      ghost var before, f := old(View()), entries[t][old(acquired)[t]].0;
      assert View().guards == before.guards[f := before.guards[f].(holder := Some(t))];
      assert View().holds == before.holds[t := before.holds[t].(acquired := before.holds[t].acquired + 1)];
    }

    /** The `finally` block, on a normal exit, an exception or a cancellation at any `await`. */
    method Leave(t: Task)
      requires Valid() && t in entries
      modifies this, guards.Values
      ensures Valid() && View() == Step(old(View()), Event.Leave(t))
    {
      hide TableOk, Ascending, Departed, States;
      StepKeeps(View(), Event.Leave(t));
      HoldInTable(View(), t);
      Depart(entries[t], acquired[t]);
      entries, acquired := entries - {t}, acquired - {t};
      assert View().holds == old(View()).holds - {t};
      forall u | u in entries ensures Current(entries[u]) {
        UsedFiltersAreGuarded(View(), u);
        assert forall i :: 0 <= i < |entries[u]| ==> Filters(entries[u])[i] in View().guards;
      }
    }

    /** Unlocks what was acquired, then gives up every use. */
    method Depart(mine: Entries, count: nat)
      requires count <= |mine| && NoAlias() && Current(mine) && Ascending(Filters(mine))
      modifies this`guards, guards.Values
      ensures States() == Departed(old(States()), Hold(Filters(mine), count))
      ensures forall f :: f in guards ==> f in old(guards) && guards[f] == old(guards)[f]
    {
      hide Ascending, Released, Unlocked, Departed, States;
      DepartureIsUnlockThenRelease(States(), Hold(Filters(mine), count));
      Unlock(mine, count);
      Release(mine);
    }

    method Unlock(mine: Entries, count: nat)
      requires count <= |mine| && NoAlias() && Current(mine)
      modifies guards.Values
      ensures States() == Unlocked(old(States()), Filters(mine)[..count])
    {
      hide NoAlias, Current, Unlocked, States;
      var i := count;
      UnlockedNone(States());
      assert Filters(mine)[count..count] == [];
      while i > 0
        invariant 0 <= i <= count
        invariant States() == Unlocked(old(States()), Filters(mine)[i..count])
      {
        i := i - 1;
        UnlockOne(mine, i);
        assert Filters(mine)[i..count] == [mine[i].0] + Filters(mine)[i + 1..count];
        OneMoreUnlocked(old(States()), mine[i].0, Filters(mine)[i + 1..count]);
      }
      assert Filters(mine)[0..count] == Filters(mine)[..count];
    }

    method UnlockOne(mine: Entries, i: nat)
      requires i < |mine| && NoAlias() && Current(mine)
      modifies guards.Values
      ensures States() == Unlocked(old(States()), [mine[i].0])
    {
      mine[i].1.holder := None;
    }

    method Release(mine: Entries)
      requires NoAlias() && Current(mine) && Ascending(Filters(mine))
      modifies this`guards, guards.Values
      ensures States() == Released(old(States()), Filters(mine))
      ensures forall f :: f in guards ==> f in old(guards) && guards[f] == old(guards)[f]
    {
      hide Ascending, Released;
      ReleasedNone(States());
      for i := 0 to |mine|
        invariant forall f :: f in guards ==> f in old(guards) && guards[f] == old(guards)[f]
        invariant forall k :: i <= k < |mine| ==> mine[k].0 in guards
        invariant NoAlias()
        invariant States() == Released(old(States()), Filters(mine)[..i])
      {
        AscendingIsDistinct(Filters(mine), i);
        OneMoreReleased(old(States()), Filters(mine)[..i], mine[i].0);
        forall k | i < k < |mine| ensures mine[k].0 != mine[i].0 {
          AscendingIsDistinct(Filters(mine), k);
          assert Filters(mine)[..k][i] == mine[i].0;
        }
        ReleaseOne(mine[i].0, mine[i].1);
      }
      assert Filters(mine)[..|mine|] == Filters(mine);
    }

    method ReleaseOne(filter: string, guard: SubscriptionGuard)
      requires NoAlias() && filter in guards && guards[filter] == guard
      modifies this`guards, guards.Values
      ensures States() == Released(old(States()), [filter])
      ensures forall f :: f in guards ==> f in old(guards) && guards[f] == old(guards)[f]
      ensures forall f :: f in old(guards) && f != filter ==> f in guards
    {
      guard.users := guard.users - 1;
      if guard.users == 0 {
        guards := guards - {filter};
      }
    }
  }
}
