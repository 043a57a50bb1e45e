/** The routing half of lib/daemon/logger.js: one logger per logging target
    owns the logging processes it spawned, the one among them that is
    currently receiving lines, and a buffer per application.

    Each handler becomes a pure function from the router to the next router
    and the list of actions the source performs in order: asking the daemon
    to spawn a logging process, delivering a line to the current one,
    stopping logging processes, and emitting logger events. The daemon's
    answer to a spawn request is a parameter: the id of the new process, or
    `None` when it could not spawn one. */
module LogRouter {
  import opened Common
  import opened Application
  import opened LogBuffer
  import Supervision
  import Decimal

  /** The logger: the target's name, cwd and arguments read from its key;
      the logging processes it spawned, in spawn order; the current one; and
      the buffers, in creation order, each named by its application. */
  datatype Router = Router(
    name: KeyPart,
    cwd: KeyPart,
    args: seq<KeyPart>,
    processes: seq<nat>,
    current: Option<nat>,
    logs: seq<Logs>)

  datatype Action =
    | RequestSpawn(name: KeyPart, cwd: KeyPart, args: seq<KeyPart>)
    | SpawnFailed(name: KeyPart)
    | Deliver(to: nat, data: LineData)
    | StopLogger(process: nat)
    | Announce(notice: Notice)

  datatype Step = Step(router: Router, actions: seq<Action>)

  predicate Distinct<T(==)>(s: seq<T>) {
    forall i, j :: 0 <= i < j < |s| ==> s[i] != s[j]
  }

  function Names(logs: seq<Logs>): (names: seq<string>)
    ensures |names| == |logs|
    ensures forall i :: 0 <= i < |logs| ==> names[i] == logs[i].app.name
  {
    seq(|logs|, i requires 0 <= i < |logs| => logs[i].app.name)
  }

  predicate AllValid(logs: seq<Logs>) {
    forall i :: 0 <= i < |logs| ==> Valid(logs[i])
  }

  /** The logger's invariant: processes are owned once, the current process
      is an owned one, there is one buffer per application, and every
      buffer keeps its byte sum and cursor. */
  predicate Inv(r: Router) {
    && Distinct(r.processes)
    && (r.current.Some? ==> r.current.value in r.processes)
    && Distinct(Names(r.logs))
    && AllValid(r.logs)
  }

  /** The key of a logging target, read back from the logger. */
  function Key(r: Router): seq<KeyPart> {
    [r.name, r.cwd] + r.args
  }

  /** A logger for `key`: its first two elements are the name and cwd of
      the logging application, the rest its arguments. */
  function NewRouter(key: seq<KeyPart>): (r: Router)
    requires |key| >= 2
    ensures Key(r) == key
    ensures Inv(r) && r.processes == [] && r.current == None && r.logs == []
  {
    Router(key[0], key[1], key[2..], [], None, [])
  }

  /** Every key a process builds can be read by a logger, and for a normal
      application the logger spawns its configured logging application in
      the application's cwd, with the logger arguments as one element. */
  lemma ProcessKeysAreReadable(app: App, cwd: string, args: seq<string>)
    ensures |Supervision.LoggerKey(app, cwd, args)| >= 2
    ensures app.kind == NormalApp ==>
              var r := NewRouter(Supervision.LoggerKey(app, cwd, args));
              r.name == Text(app.logger) && r.cwd == Text(app.cwd) && r.args == [Texts(app.loggerArgs)]
  {
  }

  /** The position of the buffer of application `name`, if there is one. */
  function IndexOf(logs: seq<Logs>, name: string): (o: Option<nat>)
    ensures o.Some? ==> o.value < |logs| && logs[o.value].app.name == name
    ensures o.Some? ==> forall i :: 0 <= i < o.value ==> logs[i].app.name != name
    ensures o.None? <==> forall i :: 0 <= i < |logs| ==> logs[i].app.name != name
  {
    if |logs| == 0 then None
    else if logs[0].app.name == name then Some(0)
    else match IndexOf(logs[1..], name)
      case None => None
      case Some(i) => Some(i + 1)
  }

  /** `Set.add`: a process already owned is not added twice. */
  function Add(s: seq<nat>, x: nat): (t: seq<nat>)
    ensures forall y :: y in t <==> y in s || y == x
    ensures Distinct(s) ==> Distinct(t)
    ensures |s| <= |t| <= |s| + 1
  {
    if x in s then s else s + [x]
  }

  /** `Set.delete`. */
  function Remove(s: seq<nat>, x: nat): (t: seq<nat>)
    ensures forall y :: y in t <==> y in s && y != x
    ensures |t| <= |s|
  {
    if |s| == 0 then []
    else (if s[0] == x then [] else [s[0]]) + Remove(s[1..], x)
  }

  lemma {:induction false} RemoveKeepsDistinct(s: seq<nat>, x: nat)
    requires Distinct(s)
    ensures Distinct(Remove(s, x))
  {
    if |s| > 0 {
      var rest := Remove(s[1..], x);
      assert Distinct(s[1..]) by {
        forall i, j | 0 <= i < j < |s| - 1 ensures s[1..][i] != s[1..][j] {
          assert s[i + 1] != s[j + 1];
        }
      }
      RemoveKeepsDistinct(s[1..], x);
      assert s[0] !in s[1..];
      assert s[0] !in rest;
    }
  }

  /** `process.stop()` for every owned process, in order. */
  function StopAll(processes: seq<nat>): (a: seq<Action>)
    ensures |a| == |processes|
    ensures forall i :: 0 <= i < |a| ==> a[i] == StopLogger(processes[i])
  {
    seq(|processes|, i requires 0 <= i < |processes| => StopLogger(processes[i]))
  }

  /** `_checkInactive`: nothing while any buffer exists; otherwise stop every
      owned logging process, or announce inactivity when there is none. */
  function CheckInactive(r: Router): (a: seq<Action>)
    ensures Announce(Inactive) in a <==> |r.logs| == 0 && |r.processes| == 0
    ensures forall p :: StopLogger(p) in a <==> |r.logs| == 0 && p in r.processes
    ensures forall x :: x in a ==> x.StopLogger? || x == Announce(Inactive)
  {
    if |r.logs| > 0 then []
    else if |r.processes| > 0 then StopAll(r.processes)
    else [Announce(Inactive)]
  }

  /** `spawnLoggingProcess`: ask the daemon for a logging process; own it if
      one was spawned, report the failure otherwise. */
  function SpawnLoggingProcess(r: Router, spawned: Option<nat>): (s: Step)
    ensures |s.actions| >= 1 && s.actions[0] == RequestSpawn(r.name, r.cwd, r.args)
    ensures SpawnFailed(r.name) in s.actions <==> spawned.None?
    ensures spawned.Some? ==> s.router == r.(processes := Add(r.processes, spawned.value))
    ensures spawned.None? ==> s.router == r
  {
    var request := [RequestSpawn(r.name, r.cwd, r.args)];
    match spawned
    case None => Step(r, request + [SpawnFailed(r.name)])
    case Some(id) => Step(r.(processes := Add(r.processes, id)), request)
  }

  /** The exit handler of a spawned logging process: disown it, drop it as
      current, then check for inactivity. */
  function OnLoggerExit(r: Router, process: nat): (s: Step)
    ensures process !in s.router.processes
    ensures forall p :: p != process ==> (p in s.router.processes <==> p in r.processes)
    ensures s.router.current == (if r.current == Some(process) then None else r.current)
    ensures s.router.logs == r.logs
    ensures s.actions == CheckInactive(s.router)
  {
    var next := r.(processes := Remove(r.processes, process),
                   current := if r.current == Some(process) then None else r.current);
    Step(next, CheckInactive(next))
  }

  /** The data of `lines`, each delivered to `to`, in order. */
  function Deliveries(to: nat, data: seq<LineData>): (a: seq<Action>)
    ensures |a| == |data|
    ensures forall i :: 0 <= i < |data| ==> a[i] == Deliver(to, data[i])
  {
    seq(|data|, i requires 0 <= i < |data| => Deliver(to, data[i]))
  }

  /** `flush(appName)`. Without a buffer for the application nothing
      happens. Without a current logging process nothing is delivered, and a
      logging process is requested only when lines are owed and none is
      owned. With one, every owed line is delivered in order and the cursor
      moves to the end; the lines stay buffered. */
  function Flush(r: Router, appName: string, spawned: Option<nat>): (s: Step)
    requires AllValid(r.logs)
    ensures IndexOf(r.logs, appName).None? ==> s == Step(r, [])
    ensures r.current.None? ==> s.router.logs == r.logs && s.router.current == None
    ensures r.current.None? ==>
              (RequestSpawn(r.name, r.cwd, r.args) in s.actions <==>
                && IndexOf(r.logs, appName).Some?
                && r.logs[IndexOf(r.logs, appName).value].writeIndex < |r.logs[IndexOf(r.logs, appName).value].lines|
                && |r.processes| == 0)
    ensures r.current.Some? && IndexOf(r.logs, appName).Some? ==>
              var i := IndexOf(r.logs, appName).value;
              s == Step(r.(logs := r.logs[i := Delivered(r.logs[i])]), Deliveries(r.current.value, Owed(r.logs[i])))
  {
    match IndexOf(r.logs, appName)
    case None => Step(r, [])
    case Some(i) =>
      var logs := r.logs[i];
      match r.current
      case None =>
        var s := if logs.writeIndex < |logs.lines| && |r.processes| == 0
                 then SpawnLoggingProcess(r, spawned) else Step(r, []);
        assert CheckInactive(s.router) == [];
        assert s.actions != [] ==> s.actions[0] in s.actions;
        Step(s.router, s.actions + CheckInactive(s.router))
      case Some(c) =>
        var next := r.(logs := r.logs[i := Delivered(logs)]);
        Step(next, Deliveries(c, Owed(logs)) + CheckInactive(next))
  }

  /** `flush` for each of `names` in turn. */
  function FlushEach(r: Router, names: seq<string>): (s: Step)
    requires AllValid(r.logs)
    ensures AllValid(s.router.logs)
    decreases |names|
  {
    if |names| == 0 then Step(r, [])
    else
      var first := Flush(r, names[0], None);
      FlushKeepsValid(r, names[0], None);
      var rest := FlushEach(first.router, names[1..]);
      Step(rest.router, first.actions + rest.actions)
  }

  /** `flushAll`: with a current logging process, flush every buffer in
      creation order; without one, nothing. */
  function FlushAll(r: Router): (s: Step)
    requires AllValid(r.logs)
    ensures r.current.None? ==> s == Step(r, [])
    ensures AllValid(s.router.logs)
  {
    if r.current.None? then Step(r, []) else FlushEach(r, Names(r.logs))
  }

  lemma FlushKeepsValid(r: Router, appName: string, spawned: Option<nat>)
    requires AllValid(r.logs)
    ensures AllValid(Flush(r, appName, spawned).router.logs)
    ensures |Flush(r, appName, spawned).router.logs| == |r.logs|
    ensures Names(Flush(r, appName, spawned).router.logs) == Names(r.logs)
  {
  }

  /** The move handler of a spawned logging process: moving into the
      `running` generation makes it current and flushes everything; moving
      into `marked` or `old` drops it as current. */
  function OnLoggerMove(r: Router, process: nat, gen: Generation): (s: Step)
    requires AllValid(r.logs)
    ensures gen.name == "running" ==> s == FlushAll(r.(current := Some(process)))
    ensures gen.name != "running" ==> s.actions == [] && s.router.logs == r.logs && s.router.processes == r.processes
    ensures (gen.name == "marked" || gen.name == "old") && r.current == Some(process) ==> s.router.current == None
    ensures gen.name != "running" && r.current != Some(process) ==> s.router == r
  {
    if gen.name == "running" then FlushAll(r.(current := Some(process)))
    else if gen.name == "marked" || gen.name == "old" then
      Step(r.(current := if r.current == Some(process) then None else r.current), [])
    else Step(r, [])
  }

  /** `_createLogsForApp`: a new empty buffer at the end for an unseen
      application; for a known one, only a strictly newer configuration is
      taken over. No other buffer changes. */
  function CreateLogsForApp(r: Router, app: App): (next: Router)
    ensures next.processes == r.processes && next.current == r.current
    ensures IndexOf(r.logs, app.name).None? ==> next.logs == r.logs + [NewLogs(app)]
    ensures IndexOf(r.logs, app.name).Some? ==>
              var i := IndexOf(r.logs, app.name).value;
              next.logs == r.logs[i := Refresh(r.logs[i], app)]
  {
    match IndexOf(r.logs, app.name)
    case None => r.(logs := r.logs + [NewLogs(app)])
    case Some(i) => r.(logs := r.logs[i := Refresh(r.logs[i], app)])
  }

  /** `addProcess` without the listener registration. */
  function AddProcess(r: Router, p: Supervision.Process): (next: Router)
    ensures next == CreateLogsForApp(r, p.app)
    ensures next.processes == r.processes && next.current == r.current
    ensures IndexOf(next.logs, p.app.name).Some?
  {
    var next := CreateLogsForApp(r, p.app);
    var at := if IndexOf(r.logs, p.app.name).Some? then IndexOf(r.logs, p.app.name).value else |r.logs|;
    assert next.logs[at].app.name == p.app.name;
    next
  }

  /** `removeProcess` without the listener removal: flush the process's
      application if it has a buffer. */
  function RemoveProcess(r: Router, p: Supervision.Process, spawned: Option<nat>): (s: Step)
    requires AllValid(r.logs)
    ensures IndexOf(r.logs, p.app.name).None? ==> s == Step(r, [])
    ensures IndexOf(r.logs, p.app.name).Some? ==> s == Flush(r, p.app.name, spawned)
  {
    if IndexOf(r.logs, p.app.name).None? then Step(r, []) else Flush(r, p.app.name, spawned)
  }

  function Announcements(notices: seq<Notice>): (a: seq<Action>)
    ensures |a| == |notices|
    ensures forall i :: 0 <= i < |notices| ==> a[i] == Announce(notices[i])
  {
    seq(|notices|, i requires 0 <= i < |notices| => Announce(notices[i]))
  }

  /** `_pushLogEvent` on the router: append to the buffer of the process's
      application, if there is one; nothing else changes. */
  function Push(r: Router, p: Supervision.Process, kind: string, text: string, now: int, extra: Extra): (s: Step)
    requires AllValid(r.logs)
    ensures AllValid(s.router.logs) && Names(s.router.logs) == Names(r.logs)
    ensures s.router.processes == r.processes && s.router.current == r.current
    ensures IndexOf(r.logs, p.app.name).None? ==> s == Step(r, [])
    ensures IndexOf(r.logs, p.app.name).Some? ==>
              var i := IndexOf(r.logs, p.app.name).value;
              var pushed := PushLogEvent(r.logs[i], p, kind, text, now, extra);
              s == Step(r.(logs := r.logs[i := pushed.logs]), Announcements(pushed.notices))
  {
    match IndexOf(r.logs, p.app.name)
    case None => Step(r, [])
    case Some(i) =>
      var pushed := PushLogEvent(r.logs[i], p, kind, text, now, extra);
      Step(r.(logs := r.logs[i := pushed.logs]), Announcements(pushed.notices))
  }

  /** `log`: push, then flush the process's application. */
  function Log(r: Router, p: Supervision.Process, kind: string, text: string, now: int, extra: Extra, spawned: Option<nat>): (s: Step)
    requires AllValid(r.logs)
    ensures AllValid(s.router.logs) && Names(s.router.logs) == Names(r.logs)
    ensures IndexOf(r.logs, p.app.name).None? ==> s == Step(r, [])
  {
    var pushed := Push(r, p, kind, text, now, extra);
    var flushed := Flush(pushed.router, p.app.name, spawned);
    FlushKeepsValid(pushed.router, p.app.name, spawned);
    Step(flushed.router, pushed.actions + flushed.actions)
  }

  /** `pushLine`: push an output chunk with its `truncated` count, announce
      a non-zero count, then flush. */
  function PushLine(r: Router, p: Supervision.Process, stream: string, chunk: string, truncatedBytes: Option<nat>,
                    now: int, spawned: Option<nat>): (s: Step)
    requires AllValid(r.logs)
    ensures AllValid(s.router.logs) && Names(s.router.logs) == Names(r.logs)
    ensures Supervision.TruthyNat(truncatedBytes) ==> Announce(TruncatedOutput(truncatedBytes.value)) in s.actions
    ensures IndexOf(r.logs, p.app.name).None? ==>
              s == Step(r, if Supervision.TruthyNat(truncatedBytes) then [Announce(TruncatedOutput(truncatedBytes.value))] else [])
  {
    var pushed := Push(r, p, stream, chunk, now, TruncatedField(truncatedBytes));
    var notice := if Supervision.TruthyNat(truncatedBytes) then [Announce(TruncatedOutput(truncatedBytes.value))] else [];
    var flushed := Flush(pushed.router, p.app.name, spawned);
    FlushKeepsValid(pushed.router, p.app.name, spawned);
    Step(flushed.router, pushed.actions + notice + flushed.actions)
  }

  // ---------------------------------------------------------------------
  // Events of the processes whose output is logged
  // ---------------------------------------------------------------------

  function PhaseName(phase: Supervision.Phase): string {
    match phase
    case StartPhase => "start"
    case StopPhase => "stop"
    case KillPhase => "kill"
  }

  /** `${signal}` for an exit signal that may be `null`. */
  function SignalText(signal: Option<Signal>): string {
    if signal.Some? then signal.value else "null"
  }

  /** The text logged for an exit. */
  function ExitText(code: int, signal: Option<Signal>): (t: string)
    ensures |t| > 5 && t[..5] == "code="
  {
    "code=" + Decimal.IntText(code) + " signal=" + SignalText(signal)
  }

  /** The kind and text of the line logged for a process event, or `None`
      for the events the logger does not listen to (`ready`, `stop`, `kill`)
      and for `output`, which is pushed as is rather than described. */
  function EventLog(e: Supervision.Event): (o: Option<(string, string)>)
    ensures o.None? <==> e.BecameReady? || e.StopRequested? || e.KillRequested? || e.Output? || (e.Moved? && e.to.None?)
    ensures o.Some? && o.value.0 == "exit" <==> e.Exited?
    ensures o.Some? && o.value.0 == "moved" <==> e.Moved? && e.to.Some?
  {
    match e
    case Started => Some(("start", "starting"))
    case TimedOut(phase) => Some((PhaseName(phase) + "-timeout", PhaseName(phase) + " timeout"))
    case Signalled(signal, phase) => Some((PhaseName(phase), "signal=" + signal))
    case Moved(to, _) => if to.Some? then Some(("moved", "moved to " + to.value.name + " generation")) else None
    case Exited(code, signal) => Some(("exit", ExitText(code, signal)))
    case _ => None
  }

  /** The listeners `addProcess` attaches to a process whose output is
      logged: output is pushed with its truncation count, an exit is logged
      and then the process's application is flushed, and every other
      described event is logged. */
  function OnProcessEvent(r: Router, p: Supervision.Process, e: Supervision.Event, now: int, spawned: Option<nat>): (s: Step)
    requires AllValid(r.logs)
    ensures AllValid(s.router.logs)
    ensures EventLog(e).None? && !e.Output? ==> s == Step(r, [])
  {
    if e.Output? then PushLine(r, p, e.stream, e.chunk, None, now, spawned)
    else if e.Exited? then
      var logged := Log(r, p, "exit", ExitText(e.code, e.exitSignal), now, NoExtra, spawned);
      var removed := RemoveProcess(logged.router, p, spawned);
      FlushKeepsValid(logged.router, p.app.name, spawned);
      Step(removed.router, logged.actions + removed.actions)
    else if EventLog(e).Some? then Log(r, p, EventLog(e).value.0, EventLog(e).value.1, now, NoExtra, spawned)
    else Step(r, [])
  }
}
