/** The planner of lib/cli/scale.js: for every selected application, stop the
    highest-numbered processes beyond its configured instance count, then
    start every missing instance number below that count. */
module ScalePlanner {
  import opened Common
  import opened DaemonInfo

  /** `{name: 'stop', args: [{id}]}` and `{name: 'start', args: [app, {number}]}`. */
  datatype Action = Stop(id: nat) | Start(app: string, number: nat)

  /** The processes of application `name`, in their listed order. */
  function OfApp(processes: seq<ProcessInfo>, name: string): (r: seq<ProcessInfo>)
    ensures forall p :: p in r <==> p in processes && p.appName == name
    ensures forall i :: 0 <= i < |r| ==> r[i].appName == name
    ensures |r| <= |processes|
  {
    if |processes| == 0 then []
    else (if processes[0].appName == name then [processes[0]] else []) + OfApp(processes[1..], name)
  }

  // ---------------------------------------------------------------------
  // Sorting by instance number
  // ---------------------------------------------------------------------

  predicate SortedByNumber(s: seq<ProcessInfo>) {
    forall i, j :: 0 <= i < j < |s| ==> s[i].number <= s[j].number
  }

  /** Insert `x` after every element whose number is not greater, so that
      processes with equal numbers keep their relative order. */
  function Insert(x: ProcessInfo, s: seq<ProcessInfo>): (r: seq<ProcessInfo>)
    ensures |r| == |s| + 1
    ensures multiset(r) == multiset(s) + multiset{x}
  {
    if |s| == 0 || x.number < s[0].number then [x] + s
    else
      assert s == [s[0]] + s[1..];
      [s[0]] + Insert(x, s[1..])
  }

  /** Every process of `s` has a number of at least `b`. */
  predicate AtLeast(s: seq<ProcessInfo>, b: int) {
    forall i :: 0 <= i < |s| ==> b <= s[i].number
  }

  lemma {:induction false} InsertKeepsBound(x: ProcessInfo, s: seq<ProcessInfo>, b: int)
    requires AtLeast(s, b) && b <= x.number
    ensures AtLeast(Insert(x, s), b)
    decreases |s|
  {
    if |s| > 0 && x.number >= s[0].number {
      InsertKeepsBound(x, s[1..], b);
    }
  }

  /** A sorted list stays sorted behind a head no greater than any of its numbers. */
  lemma ConsKeepsSorted(head: ProcessInfo, rest: seq<ProcessInfo>)
    requires SortedByNumber(rest) && AtLeast(rest, head.number)
    ensures SortedByNumber([head] + rest)
  {
  }

  lemma {:induction false} InsertKeepsSorted(x: ProcessInfo, s: seq<ProcessInfo>)
    requires SortedByNumber(s)
    ensures SortedByNumber(Insert(x, s))
    decreases |s|
  {
    if |s| == 0 || x.number < s[0].number {
      ConsKeepsSorted(x, s);
    } else {
      InsertKeepsSorted(x, s[1..]);
      InsertKeepsBound(x, s[1..], s[0].number);
      ConsKeepsSorted(s[0], Insert(x, s[1..]));
    }
  }

  /** A stable sort by ascending instance number, as `Array.prototype.sort`
      performs it with the comparator `a.number - b.number`. */
  function Sort(s: seq<ProcessInfo>): (r: seq<ProcessInfo>)
    ensures SortedByNumber(r)
    ensures multiset(r) == multiset(s)
    ensures |r| == |s|
  {
    if |s| == 0 then []
    else
      assert s == s[..|s| - 1] + [s[|s| - 1]];
      InsertKeepsSorted(s[|s| - 1], Sort(s[..|s| - 1]));
      Insert(s[|s| - 1], Sort(s[..|s| - 1]))
  }

  /** The processes of `s` with instance number `v`, in order. */
  function WithNumber(s: seq<ProcessInfo>, v: int): seq<ProcessInfo> {
    if |s| == 0 then [] else (if s[0].number == v then [s[0]] else []) + WithNumber(s[1..], v)
  }

  lemma {:induction false} WithNumberAppend(a: seq<ProcessInfo>, b: seq<ProcessInfo>, v: int)
    ensures WithNumber(a + b, v) == WithNumber(a, v) + WithNumber(b, v)
    decreases |a|
  {
    if |a| == 0 {
      assert a + b == b;
    } else {
      assert (a + b)[1..] == a[1..] + b;
      WithNumberAppend(a[1..], b, v);
    }
  }

  lemma WithNumberOfOne(x: ProcessInfo, v: int)
    ensures WithNumber([x], v) == (if x.number == v then [x] else [])
  {
    assert [x][1..] == [];
  }

  /** No process of `s` has a number below `b`. */
  lemma {:induction false} NoneBelow(s: seq<ProcessInfo>, b: int, v: int)
    requires AtLeast(s, b) && v < b
    ensures WithNumber(s, v) == []
    decreases |s|
  {
    if |s| > 0 {
      NoneBelow(s[1..], b, v);
    }
  }

  /** Inserting into a sorted list puts `x` behind every process with its number. */
  lemma {:induction false} InsertIsStable(x: ProcessInfo, s: seq<ProcessInfo>, v: int)
    requires SortedByNumber(s)
    ensures WithNumber(Insert(x, s), v) == WithNumber(s, v) + (if x.number == v then [x] else [])
    decreases |s|
  {
    WithNumberOfOne(x, v);
    if |s| == 0 || x.number < s[0].number {
      InsertInFront(x, s, v);
    } else {
      var head, tail := s[0], s[1..];
      assert Insert(x, s) == [head] + Insert(x, tail);
      assert s == [head] + tail;
      assert SortedByNumber(tail);
      InsertIsStable(x, tail, v);
      BehindHead(head, Insert(x, tail), tail, if x.number == v then [x] else [], v);
    }
  }

  /** A common head keeps a relation between the filtered tails. */
  lemma BehindHead(head: ProcessInfo, a: seq<ProcessInfo>, b: seq<ProcessInfo>, extra: seq<ProcessInfo>, v: int)
    requires WithNumber(a, v) == WithNumber(b, v) + extra
    ensures WithNumber([head] + a, v) == WithNumber([head] + b, v) + extra
  {
    WithNumberAppend([head], a, v);
    WithNumberAppend([head], b, v);
  }

  lemma InsertInFront(x: ProcessInfo, s: seq<ProcessInfo>, v: int)
    requires SortedByNumber(s) && (|s| == 0 || x.number < s[0].number)
    requires WithNumber([x], v) == (if x.number == v then [x] else [])
    ensures WithNumber(Insert(x, s), v) == WithNumber(s, v) + (if x.number == v then [x] else [])
  {
    assert Insert(x, s) == [x] + s;
    WithNumberAppend([x], s, v);
    if x.number == v && |s| > 0 {
      NoneBelow(s, s[0].number, v);
    }
  }

  /** Sorting a list sorts its front and inserts its last process. */
  lemma SortStep(s: seq<ProcessInfo>)
    requires |s| > 0
    ensures Sort(s) == Insert(s[|s| - 1], Sort(s[..|s| - 1]))
  {
  }

  /** The sort is stable: the processes sharing an instance number keep the
      order they were listed in. */
  lemma {:induction false} SortIsStable(s: seq<ProcessInfo>, v: int)
    ensures WithNumber(Sort(s), v) == WithNumber(s, v)
    decreases |s|
  {
    if |s| > 0 {
      var init, last := s[..|s| - 1], s[|s| - 1];
      assert s == init + [last];
      SortStep(s);
      SortIsStable(init, v);
      InsertIsStable(last, Sort(init), v);
      WithNumberAppend(init, [last], v);
      WithNumberOfOne(last, v);
    }
  }

  /** The processes scaling considers for `app`: its `running` processes
      followed by its `new` ones, sorted by instance number. */
  function Considered(sel: Selection, app: AppInfo): (r: seq<ProcessInfo>)
    ensures SortedByNumber(r)
    ensures multiset(r) == multiset(OfApp(sel.running, app.name)) + multiset(OfApp(sel.incoming, app.name))
  {
    Sort(OfApp(sel.running, app.name) + OfApp(sel.incoming, app.name))
  }

  // ---------------------------------------------------------------------
  // The plan
  // ---------------------------------------------------------------------

  /** Stop actions for all but the first `instances` of `sorted`, the last
      one first. */
  function Stops(sorted: seq<ProcessInfo>, instances: nat): (a: seq<Action>)
    ensures |a| == Max(0, |sorted| - instances)
    ensures forall k :: 0 <= k < |a| ==> a[k] == Stop(sorted[|sorted| - 1 - k].id)
  {
    seq(Max(0, |sorted| - instances), k requires 0 <= k < Max(0, |sorted| - instances) => Stop(sorted[|sorted| - 1 - k].id))
  }

  /** Some considered process already has instance number `i`. */
  predicate Occupied(processes: seq<ProcessInfo>, i: int) {
    exists p :: p in processes && p.number == i
  }

  /** Start actions for every number below `n` that no process has, in
      ascending order. */
  function Starts(name: string, processes: seq<ProcessInfo>, n: nat): (a: seq<Action>)
    ensures |a| <= n
  {
    if n == 0 then []
    else Starts(name, processes, n - 1) + (if Occupied(processes, n - 1) then [] else [Start(name, n - 1)])
  }

  /** The starts are exactly the free numbers below `n`, for the
      application, each once and ascending. */
  lemma {:induction false} StartsAreTheFreeNumbers(name: string, processes: seq<ProcessInfo>, n: nat)
    ensures var a := Starts(name, processes, n);
            && (forall i: nat :: Start(name, i) in a <==> i < n && !Occupied(processes, i))
            && (forall k :: 0 <= k < |a| ==> a[k].Start? && a[k].app == name && a[k].number < n)
            && (forall k, l :: 0 <= k < l < |a| ==> a[k].number < a[l].number)
    decreases n
  {
    if n > 0 {
      StartsAreTheFreeNumbers(name, processes, n - 1);
      var prefix := Starts(name, processes, n - 1);
      var last := if Occupied(processes, n - 1) then [] else [Start(name, n - 1)];
      assert forall i: nat :: Start(name, i) in prefix + last <==> Start(name, i) in prefix || Start(name, i) in last;
    }
  }

  /** The actions for one application: the stops come first, and every
      start is of the application and below its instance count. */
  function PlanApp(app: AppInfo, considered: seq<ProcessInfo>): (plan: seq<Action>)
    ensures |plan| >= Max(0, |considered| - app.instances)
    ensures forall k :: 0 <= k < |plan| ==> (plan[k].Stop? <==> k < Max(0, |considered| - app.instances))
    ensures forall k :: 0 <= k < |plan| && plan[k].Start? ==> plan[k].app == app.name && plan[k].number < app.instances
  {
    StartsAreTheFreeNumbers(app.name, considered, app.instances);
    Stops(considered, app.instances) + Starts(app.name, considered, app.instances)
  }

  /** `a` is an action for `app`: a stop of one of its considered processes,
      or a start of one of its instance numbers. */
  predicate ForApp(sel: Selection, app: AppInfo, a: Action) {
    match a
    case Stop(id) => exists p :: p in Considered(sel, app) && p.id == id
    case Start(name, n) => name == app.name && n < app.instances
  }

  /** `a` is an action for one of `apps`. */
  predicate ForSome(sel: Selection, apps: seq<AppInfo>, a: Action) {
    exists j :: 0 <= j < |apps| && ForApp(sel, apps[j], a)
  }

  /** Every action of the plan for one application is for that application. */
  lemma PlanAppIsForApp(sel: Selection, app: AppInfo)
    ensures forall k :: 0 <= k < |PlanApp(app, Considered(sel, app))| ==> ForApp(sel, app, PlanApp(app, Considered(sel, app))[k])
  {
    var considered := Considered(sel, app);
    var plan := PlanApp(app, considered);
    forall k | 0 <= k < |plan|
      ensures ForApp(sel, app, plan[k])
    {
      if plan[k].Stop? {
        assert plan[k] == Stops(considered, app.instances)[k];
        assert considered[|considered| - 1 - k] in considered;
      }
    }
  }

  /** An action for one of the later applications is for one of them all. */
  lemma ForLaterIsForSome(sel: Selection, apps: seq<AppInfo>, a: Action)
    requires |apps| > 0 && ForSome(sel, apps[1..], a)
    ensures ForSome(sel, apps, a)
  {
    var j :| 0 <= j < |apps| - 1 && ForApp(sel, apps[1..][j], a);
    assert apps[1..][j] == apps[j + 1];
  }

  /** The actions for the applications `apps`, in order; each is for one of them. */
  function PlanApps(sel: Selection, apps: seq<AppInfo>): (plan: seq<Action>)
    ensures forall k :: 0 <= k < |plan| ==> ForSome(sel, apps, plan[k])
    decreases |apps|
  {
    if |apps| == 0 then []
    else
      var head := PlanApp(apps[0], Considered(sel, apps[0]));
      var rest := PlanApps(sel, apps[1..]);
      PlanAppIsForApp(sel, apps[0]);
      forall a | a in rest
        ensures ForSome(sel, apps, a)
      {
        var k :| 0 <= k < |rest| && rest[k] == a;
        ForLaterIsForSome(sel, apps, a);
      }
      head + rest
  }

  /** The plan for a whole selection: every action stops a considered
      process of a selected application or starts one of its instance numbers. */
  function Plan(sel: Selection): (plan: seq<Action>)
    ensures forall k :: 0 <= k < |plan| ==> ForSome(sel, sel.applications, plan[k])
  {
    PlanApps(sel, sel.applications)
  }

  // ---------------------------------------------------------------------
  // Properties
  // ---------------------------------------------------------------------

  /** For one application: exactly `max(0, count - instances)` stops, of the
      considered processes with the highest numbers, highest first; a start
      for exactly the free numbers below `instances`, ascending; and every
      stop before every start. */
  lemma PlanAppShape(app: AppInfo, sel: Selection)
    ensures var considered := Considered(sel, app);
            var plan := PlanApp(app, considered);
            var stops := Max(0, |considered| - app.instances);
            && (forall k :: 0 <= k < |plan| ==> (plan[k].Stop? <==> k < stops))
            && (forall k :: 0 <= k < stops ==> plan[k] == Stop(considered[|considered| - 1 - k].id))
            && (forall j, m :: 0 <= j < |considered| - stops <= m < |considered| ==>
                  considered[j].number <= considered[m].number)
            && (forall i: nat :: Start(app.name, i) in plan <==> i < app.instances && !Occupied(considered, i))
  {
    var considered := Considered(sel, app);
    var plan := PlanApp(app, considered);
    var stops := Max(0, |considered| - app.instances);
    StartsAreTheFreeNumbers(app.name, considered, app.instances);
    assert plan[..stops] == Stops(considered, app.instances);
    assert plan[stops..] == Starts(app.name, considered, app.instances);
    forall i: nat
      ensures Start(app.name, i) in plan <==> Start(app.name, i) in Starts(app.name, considered, app.instances)
    {
    }
  }

  /** Only processes of the application, from either generation, are
      considered, and each of them is. */
  lemma ConsideredAreTheApplications(sel: Selection, app: AppInfo, p: ProcessInfo)
    ensures p in Considered(sel, app) <==> (p in sel.running || p in sel.incoming) && p.appName == app.name
  {
    var c := Considered(sel, app);
    assert p in c <==> p in multiset(c);
  }

  /** A number held by a process that is being stopped is not started again:
      the free numbers are computed before any stop. */
  lemma StoppedNumbersAreNotRestarted(app: AppInfo, sel: Selection, k: nat)
    requires var considered := Considered(sel, app);
             k < |considered| && k >= app.instances && considered[k].number >= 0
    ensures Start(app.name, Considered(sel, app)[k].number as nat) !in PlanApp(app, Considered(sel, app))
  {
    var considered := Considered(sel, app);
    PlanAppShape(app, sel);
    assert considered[k] in considered;
  }

  /** Applications are planned in the order they are selected. */
  lemma {:induction false} PlanAppsAppend(sel: Selection, apps: seq<AppInfo>, app: AppInfo)
    ensures PlanApps(sel, apps + [app]) == PlanApps(sel, apps) + PlanApp(app, Considered(sel, app))
    decreases |apps|
  {
    if |apps| == 0 {
      assert apps + [app] == [app];
      assert PlanApps(sel, [app]) == PlanApp(app, Considered(sel, app)) + PlanApps(sel, []);
    } else {
      assert (apps + [app])[0] == apps[0];
      assert (apps + [app])[1..] == apps[1..] + [app];
      PlanAppsAppend(sel, apps[1..], app);
    }
  }

  /** One more application extends the plan of the applications before it. */
  lemma PlanAppsStep(sel: Selection, apps: seq<AppInfo>, k: nat)
    requires k < |apps|
    ensures PlanApps(sel, apps[..k + 1]) == PlanApps(sel, apps[..k]) + PlanApp(apps[k], Considered(sel, apps[k]))
  {
    var before, app := apps[..k], apps[k];
    assert apps[..k + 1] == before + [app];
    PlanAppsAppend(sel, before, app);
  }

  // ---------------------------------------------------------------------
  // The loops as written
  // ---------------------------------------------------------------------

  /** The first loop of the source: count down from the number of
      considered processes while it exceeds `instances`, stopping the
      process at that position. */
  method StopsInPlace(running: seq<ProcessInfo>, max: nat) returns (actions: seq<Action>)
    ensures actions == Stops(running, max)
  {
    actions := [];
    var number := |running|;
    while number > max
      invariant number <= |running|
      invariant number >= max || number == |running|
      invariant actions == Stops(running, max)[..|running| - number]
    {
      assert Stops(running, max)[..|running| - number + 1] == actions + [Stop(running[number - 1].id)];
      actions := actions + [Stop(running[number - 1].id)];
      number := number - 1;
    }
    assert Stops(running, max)[..|running| - number] == Stops(running, max);
  }

  /** The second loop of the source: walk `i` up to `instances`, starting
      every number no considered process has. */
  method StartsInPlace(name: string, running: seq<ProcessInfo>, max: nat) returns (actions: seq<Action>)
    ensures actions == Starts(name, running, max)
  {
    actions := [];
    var i := 0;
    while i < max
      invariant 0 <= i <= max
      invariant actions == Starts(name, running, i)
    {
      if exists p :: p in running && p.number == i {
        i := i + 1;
        continue;
      }
      actions := actions + [Start(name, i)];
      i := i + 1;
    }
  }

  /** The body of the source's loop over applications: both loops, stops first. */
  method PlanAppInPlace(app: AppInfo, running: seq<ProcessInfo>) returns (actions: seq<Action>)
    ensures actions == PlanApp(app, running)
  {
    var stops := StopsInPlace(running, app.instances);
    var starts := StartsInPlace(app.name, running, app.instances);
    actions := stops + starts;
  }

  /** The whole planner: for each selected application in order, the actions
      for its considered processes. */
  method PlanInPlace(sel: Selection) returns (actions: seq<Action>)
    ensures actions == Plan(sel)
  {
    actions := [];
    var k := 0;
    while k < |sel.applications|
      invariant 0 <= k <= |sel.applications|
      invariant actions == PlanApps(sel, sel.applications[..k])
    {
      var app := sel.applications[k];
      var running := Considered(sel, app);
      var planned := PlanAppInPlace(app, running);
      PlanAppsStep(sel, sel.applications, k);
      actions := actions + planned;
      k := k + 1;
    }
    assert sel.applications[..k] == sel.applications;
  }
}
