/** Properties of the logger across its handlers: the invariant every handler
    keeps, who may make a logging process current, that buffers are never
    dropped, and that `flushAll` delivers every owed line exactly once. */
module LogRouterProofs {
  import opened Common
  import opened Application
  import opened LogBuffer
  import opened LogRouter
  import Supervision

  /** What can happen to a logger: a process whose output is logged is added
      or removed, one of those processes emits an event, or one of the
      logger's own logging processes exits or moves. */
  datatype Input =
    | Added(p: Supervision.Process)
    | Removed(p: Supervision.Process, spawned: Option<nat>)
    | ProcessEvent(p: Supervision.Process, e: Supervision.Event, now: int, spawned: Option<nat>)
    | LoggerExited(process: nat)
    | LoggerMoved(process: nat, gen: Generation)

  function Apply(r: Router, i: Input): Step
    requires AllValid(r.logs)
  {
    match i
    case Added(p) => Step(AddProcess(r, p), [])
    case Removed(p, spawned) => RemoveProcess(r, p, spawned)
    case ProcessEvent(p, e, now, spawned) => OnProcessEvent(r, p, e, now, spawned)
    case LoggerExited(process) => OnLoggerExit(r, process)
    case LoggerMoved(process, gen) => OnLoggerMove(r, process, gen)
  }

  /** A move into `running` comes from a logging process that is still
      owned. The exit handler stops owning an exited logging process but
      leaves its move listener attached, so this premise is an assumption
      about the generations: an exited logging process is never moved into
      `running` again. `ExitedLoggerMovedIntoRunning` shows what it rules out. */
  predicate Enabled(r: Router, i: Input) {
    i.LoggerMoved? && i.gen.name == "running" ==> i.process in r.processes
  }

  // ---------------------------------------------------------------------
  // The invariant
  // ---------------------------------------------------------------------

  lemma FlushKeepsInv(r: Router, appName: string, spawned: Option<nat>)
    requires Inv(r)
    ensures Inv(Flush(r, appName, spawned).router)
    ensures Flush(r, appName, spawned).router.current == r.current
  {
    FlushKeepsValid(r, appName, spawned);
  }

  lemma PushKeepsInv(r: Router, p: Supervision.Process, kind: string, text: string, now: int, extra: Extra)
    requires Inv(r)
    ensures Inv(Push(r, p, kind, text, now, extra).router)
    ensures Push(r, p, kind, text, now, extra).router.current == r.current
  {
  }

  lemma LogKeepsInv(r: Router, p: Supervision.Process, kind: string, text: string, now: int, extra: Extra, spawned: Option<nat>)
    requires Inv(r)
    ensures Inv(Log(r, p, kind, text, now, extra, spawned).router)
    ensures Log(r, p, kind, text, now, extra, spawned).router.current == r.current
  {
    var pushed := Push(r, p, kind, text, now, extra);
    PushKeepsInv(r, p, kind, text, now, extra);
    FlushKeepsInv(pushed.router, p.app.name, spawned);
  }

  lemma ProcessEventKeepsInv(r: Router, p: Supervision.Process, e: Supervision.Event, now: int, spawned: Option<nat>)
    requires Inv(r)
    ensures Inv(OnProcessEvent(r, p, e, now, spawned).router)
    ensures OnProcessEvent(r, p, e, now, spawned).router.current == r.current
  {
    if e.Output? {
      var pushed := Push(r, p, e.stream, e.chunk, now, TruncatedField(None));
      PushKeepsInv(r, p, e.stream, e.chunk, now, TruncatedField(None));
      FlushKeepsInv(pushed.router, p.app.name, spawned);
    } else if e.Exited? {
      var logged := Log(r, p, "exit", ExitText(e.code, e.exitSignal), now, NoExtra, spawned);
      LogKeepsInv(r, p, "exit", ExitText(e.code, e.exitSignal), now, NoExtra, spawned);
      FlushKeepsInv(logged.router, p.app.name, spawned);
    } else if EventLog(e).Some? {
      LogKeepsInv(r, p, EventLog(e).value.0, EventLog(e).value.1, now, NoExtra, spawned);
    }
  }

  lemma CreateLogsKeepsInv(r: Router, app: App)
    requires Inv(r)
    ensures Inv(CreateLogsForApp(r, app))
  {
    var next := CreateLogsForApp(r, app);
    if IndexOf(r.logs, app.name).None? {
      assert Names(next.logs) == Names(r.logs) + [app.name];
    } else {
      assert Names(next.logs) == Names(r.logs);
    }
  }

  /** `flush` for every buffer, with a current logging process, touches
      neither the owned processes nor the current one. */
  lemma {:induction false} FlushEachKeepsOwners(r: Router, names: seq<string>)
    requires AllValid(r.logs) && r.current.Some?
    ensures FlushEach(r, names).router.processes == r.processes
    ensures FlushEach(r, names).router.current == r.current
    ensures Names(FlushEach(r, names).router.logs) == Names(r.logs)
    decreases |names|
  {
    if |names| > 0 {
      var first := Flush(r, names[0], None);
      FlushKeepsValid(r, names[0], None);
      FlushEachKeepsOwners(first.router, names[1..]);
    }
  }

  lemma MoveKeepsInv(r: Router, process: nat, gen: Generation)
    requires Inv(r) && (gen.name == "running" ==> process in r.processes)
    ensures Inv(OnLoggerMove(r, process, gen).router)
  {
    if gen.name == "running" {
      FlushEachKeepsOwners(r.(current := Some(process)), Names(r.logs));
    }
  }

  lemma ExitKeepsInv(r: Router, process: nat)
    requires Inv(r)
    ensures Inv(OnLoggerExit(r, process).router)
  {
    RemoveKeepsDistinct(r.processes, process);
  }

  /** Every handler keeps the logger's invariant. */
  lemma StepKeepsInv(r: Router, i: Input)
    requires Inv(r) && Enabled(r, i)
    ensures Inv(Apply(r, i).router)
  {
    match i
    case Added(p) => CreateLogsKeepsInv(r, p.app);
    case Removed(p, spawned) => FlushKeepsInv(r, p.app.name, spawned);
    case ProcessEvent(p, e, now, spawned) => ProcessEventKeepsInv(r, p, e, now, spawned);
    case LoggerExited(process) => ExitKeepsInv(r, process);
    case LoggerMoved(process, gen) => MoveKeepsInv(r, process, gen);
  }

  /** Without that premise the invariant fails: a logging process that has
      exited and is then moved into `running` becomes current although the
      logger no longer owns it. */
  lemma ExitedLoggerMovedIntoRunning(r: Router, process: nat, gen: Generation)
    requires Inv(r) && gen.name == "running"
    ensures var exited := OnLoggerExit(r, process).router;
            && AllValid(exited.logs)
            && process !in exited.processes
            && OnLoggerMove(exited, process, gen).router.current == Some(process)
            && !Inv(OnLoggerMove(exited, process, gen).router)
  {
    ExitKeepsInv(r, process);
    var exited := OnLoggerExit(r, process).router;
    FlushEachKeepsOwners(exited.(current := Some(process)), Names(exited.logs));
  }

  // ---------------------------------------------------------------------
  // The current logging process
  // ---------------------------------------------------------------------

  /** A logging process becomes current only by moving into `running`; the
      current one is dropped only by its own exit or its own move into
      `marked` or `old`. */
  lemma CurrentChangesOnlyByLoggerEvents(r: Router, i: Input)
    requires Inv(r)
    ensures var next := Apply(r, i).router;
            && (next.current.Some? && next.current != r.current ==>
                  i.LoggerMoved? && i.gen.name == "running" && next.current == Some(i.process))
            && (r.current.Some? && next.current.None? ==>
                  || (i.LoggerExited? && i.process == r.current.value)
                  || (i.LoggerMoved? && (i.gen.name == "marked" || i.gen.name == "old") && i.process == r.current.value))
  {
    match i
    case Added(p) =>
    case Removed(p, spawned) => FlushKeepsInv(r, p.app.name, spawned);
    case ProcessEvent(p, e, now, spawned) => ProcessEventKeepsInv(r, p, e, now, spawned);
    case LoggerExited(process) =>
    case LoggerMoved(process, gen) =>
      if gen.name == "running" {
        FlushEachKeepsOwners(r.(current := Some(process)), Names(r.logs));
      }
  }

  // ---------------------------------------------------------------------
  // Buffers are never dropped
  // ---------------------------------------------------------------------

  /** No handler removes a buffer or reorders them; a new one only goes last. */
  lemma BuffersAreNeverDropped(r: Router, i: Input)
    requires Inv(r)
    ensures var next := Apply(r, i).router;
            |next.logs| >= |r.logs| && Names(next.logs)[..|r.logs|] == Names(r.logs)
  {
    var next := Apply(r, i).router;
    match i
    case Added(p) => CreateLogsExtends(r, p.app);
    case Removed(p, spawned) => FlushKeepsValid(r, p.app.name, spawned);
    case ProcessEvent(p, e, now, spawned) => EventKeepsNames(r, p, e, now, spawned);
    case LoggerExited(process) =>
    case LoggerMoved(process, gen) =>
      if gen.name == "running" {
        FlushEachKeepsOwners(r.(current := Some(process)), Names(r.logs));
      }
  }

  lemma CreateLogsExtends(r: Router, app: App)
    ensures var next := CreateLogsForApp(r, app);
            |next.logs| >= |r.logs| && Names(next.logs)[..|r.logs|] == Names(r.logs)
  {
    var next := CreateLogsForApp(r, app);
    if IndexOf(r.logs, app.name).None? {
      assert Names(next.logs) == Names(r.logs) + [app.name];
    } else {
      assert Names(next.logs) == Names(r.logs);
    }
  }

  lemma EventKeepsNames(r: Router, p: Supervision.Process, e: Supervision.Event, now: int, spawned: Option<nat>)
    requires AllValid(r.logs)
    ensures Names(OnProcessEvent(r, p, e, now, spawned).router.logs) == Names(r.logs)
  {
    if e.Output? {
      var pushed := Push(r, p, e.stream, e.chunk, now, TruncatedField(None));
      FlushKeepsValid(pushed.router, p.app.name, spawned);
    } else if e.Exited? {
      var pushed := Push(r, p, "exit", ExitText(e.code, e.exitSignal), now, NoExtra);
      FlushKeepsValid(pushed.router, p.app.name, spawned);
      var logged := Log(r, p, "exit", ExitText(e.code, e.exitSignal), now, NoExtra, spawned);
      FlushKeepsValid(logged.router, p.app.name, spawned);
    } else if EventLog(e).Some? {
      var pushed := Push(r, p, EventLog(e).value.0, EventLog(e).value.1, now, NoExtra);
      FlushKeepsValid(pushed.router, p.app.name, spawned);
    }
  }

  /** Hence, once the logger holds a buffer, `_checkInactive` never stops
      its logging processes nor announces inactivity again. */
  lemma NeverInactiveOnceBuffered(r: Router, i: Input)
    requires Inv(r) && |r.logs| > 0
    ensures CheckInactive(Apply(r, i).router) == []
  {
    BuffersAreNeverDropped(r, i);
  }

  // ---------------------------------------------------------------------
  // flushAll
  // ---------------------------------------------------------------------

  function DeliveredAll(logs: seq<Logs>): (d: seq<Logs>)
    ensures |d| == |logs|
    ensures forall i :: 0 <= i < |logs| ==> d[i] == Delivered(logs[i])
  {
    seq(|logs|, i requires 0 <= i < |logs| => Delivered(logs[i]))
  }

  /** Every owed line of every buffer, buffer by buffer in creation order. */
  function Backlog(logs: seq<Logs>): seq<LineData>
    requires AllValid(logs)
  {
    if |logs| == 0 then [] else Owed(logs[0]) + Backlog(logs[1..])
  }

  lemma DeliveriesAppend(to: nat, a: seq<LineData>, b: seq<LineData>)
    ensures Deliveries(to, a + b) == Deliveries(to, a) + Deliveries(to, b)
  {
  }

  /** Flushing the `j`-th buffer by name reaches exactly that buffer. */
  lemma FlushOneDelivers(r: Router, j: nat)
    requires r.current.Some? && Distinct(Names(r.logs)) && AllValid(r.logs) && j < |r.logs|
    ensures var r1 := r.(logs := r.logs[j := Delivered(r.logs[j])]);
            && Flush(r, r.logs[j].app.name, None) == Step(r1, Deliveries(r.current.value, Owed(r.logs[j])))
            && Names(r1.logs) == Names(r.logs)
            && AllValid(r1.logs)
  {
    assert IndexOf(r.logs, r.logs[j].app.name) == Some(j);
    var r1 := r.(logs := r.logs[j := Delivered(r.logs[j])]);
    assert Names(r1.logs) == Names(r.logs);
  }

  /** The backlog of a suffix starts with the owed lines of its first buffer. */
  lemma BacklogFrom(logs: seq<Logs>, j: nat)
    requires AllValid(logs) && j < |logs|
    ensures Backlog(logs[j..]) == Owed(logs[j]) + Backlog(logs[j + 1..])
  {
    assert logs[j..][0] == logs[j] && logs[j..][1..] == logs[j + 1..];
  }

  /** Delivering a suffix delivers its first buffer, then the rest. */
  lemma DeliveredFrom(logs: seq<Logs>, j: nat)
    requires j < |logs|
    ensures DeliveredAll(logs[j..]) == [Delivered(logs[j])] + DeliveredAll(logs[j + 1..])
  {
    var d := DeliveredAll(logs[j..]);
    var e := [Delivered(logs[j])] + DeliveredAll(logs[j + 1..]);
    forall i | 0 <= i < |d|
      ensures d[i] == e[i]
    {
      if i > 0 {
        assert logs[j..][i] == logs[j + 1..][i - 1];
      }
    }
  }

  /** The bookkeeping of one turn of `flushAll`, on plain sequences. */
  lemma DeliveredPrefix(logs: seq<Logs>, j: nat)
    requires j < |logs|
    ensures var logs1 := logs[j := Delivered(logs[j])];
            logs1[..j + 1] + DeliveredAll(logs1[j + 1..]) == logs[..j] + DeliveredAll(logs[j..])
  {
    var logs1 := logs[j := Delivered(logs[j])];
    var d, rest := Delivered(logs[j]), DeliveredAll(logs[j + 1..]);
    assert logs1[..j + 1] == logs[..j] + [d];
    assert logs1[j + 1..] == logs[j + 1..];
    DeliveredFrom(logs, j);
    assert (logs[..j] + [d]) + rest == logs[..j] + ([d] + rest);
  }

  lemma {:induction false} FlushEachDelivers(r: Router, j: nat)
    requires r.current.Some? && Distinct(Names(r.logs)) && AllValid(r.logs) && j <= |r.logs|
    ensures FlushEach(r, Names(r.logs)[j..])
            == Step(r.(logs := r.logs[..j] + DeliveredAll(r.logs[j..])), Deliveries(r.current.value, Backlog(r.logs[j..])))
    decreases |r.logs| - j
  {
    var names := Names(r.logs)[j..];
    var c := r.current.value;
    if j == |r.logs| {
      assert names == [];
      assert r.logs[..j] == r.logs && r.logs[j..] == [];
      assert Deliveries(c, []) == [];
      assert r.(logs := r.logs) == r;
    } else {
      assert names[0] == r.logs[j].app.name;
      FlushOneDelivers(r, j);
      var r1 := r.(logs := r.logs[j := Delivered(r.logs[j])]);
      assert names[1..] == Names(r1.logs)[j + 1..];
      FlushEachDelivers(r1, j + 1);
      DeliveredPrefix(r.logs, j);
      BacklogFrom(r.logs, j);
      DeliveriesAppend(c, Owed(r.logs[j]), Backlog(r.logs[j + 1..]));
    }
  }

  /** With a current logging process, `flushAll` delivers every owed line of
      every buffer to it, buffer by buffer, and marks every buffer delivered
      without dropping any line; processes and the current one are kept. */
  lemma FlushAllDelivers(r: Router)
    requires Inv(r) && r.current.Some?
    ensures FlushAll(r) == Step(r.(logs := DeliveredAll(r.logs)), Deliveries(r.current.value, Backlog(r.logs)))
  {
    FlushEachDelivers(r, 0);
    assert r.logs[..0] == [] && r.logs[0..] == r.logs;
    assert Names(r.logs)[0..] == Names(r.logs);
    assert [] + DeliveredAll(r.logs) == DeliveredAll(r.logs);
  }

  /** A logging process moving into `running` receives the whole backlog. */
  lemma RunningLoggerReceivesBacklog(r: Router, process: nat, gen: Generation)
    requires Inv(r) && process in r.processes && gen.name == "running"
    ensures OnLoggerMove(r, process, gen)
            == Step(r.(current := Some(process), logs := DeliveredAll(r.logs)), Deliveries(process, Backlog(r.logs)))
  {
    FlushAllDelivers(r.(current := Some(process)));
  }
}
