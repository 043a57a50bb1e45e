/** The supervised-process state machine of lib/daemon/process.js.

    A process is an immutable record; every handler of the source becomes a
    pure step function returning the next record and the list of effects the
    source performs, in the order it performs them: callbacks into the owning
    generation, emitted events, timers armed or cancelled, work deferred with
    `setImmediate`, and commands sent to the OS child. Timers firing, the
    child reporting readiness and the child exiting are explicit steps. */
module Supervision {
  import opened Common
  import opened Application

  /** A timer field of the process. `held` says the field is non-null;
      `pending` says a timer is armed and may still fire. The two differ in
      the source: a cancelled timer may stay referenced, and a field may be
      nulled while its timer is still armed. */
  datatype Timer = Timer(held: bool, pending: bool)

  const Unset := Timer(false, false)
  const Armed := Timer(true, true)

  /** The `startDelayTimeout`, `startTimeout` and `stopTimeout` fields. */
  datatype Timers = Timers(startDelay: Timer, start: Timer, stop: Timer)

  datatype Process = Process(
    app: App,
    id: nat,
    number: int,
    crashCounter: nat,
    pid: int,
    /** An OS child has been spawned for this process. */
    child: bool,
    /** The readiness listener on the child is still attached. */
    readyListener: bool,
    ready: bool,
    killing: bool,
    stopping: bool,
    terminated: bool,
    timeout: bool,
    cwd: string,
    args: seq<string>,
    generation: Option<Generation>,
    timers: Timers,
    startTime: int,
    loggerKey: seq<KeyPart>)

  datatype TimerKind = StartDelayTimer | StartTimer | StopTimer

  /** The tag carried by `timeout` ("start"/"stop") and `signal` ("stop"/"kill") events. */
  datatype Phase = StartPhase | StopPhase | KillPhase

  /** Events the process emits. */
  datatype Event =
    | Started
    | BecameReady
    | TimedOut(phase: Phase)
    | Signalled(signal: Signal, phase: Phase)
    | Moved(to: Option<Generation>, from: Option<Generation>)
    | Exited(code: int, exitSignal: Option<Signal>)
    | StopRequested
    | KillRequested(requested: Option<Signal>, force: bool)
    | Output(stream: string, chunk: string)

  /** Calls the process makes into its generation. */
  datatype GenCall =
    | GenAdd
    | GenRemove
    | GenReady
    | GenStartTimeout
    | GenStopTimeout
    | GenExit(code: int, exitSignal: Option<Signal>)
    | GenStop
    | GenKill(requested: Option<Signal>, force: bool)

  datatype Effect =
    | Callback(gen: Generation, call: GenCall)
    | Emit(event: Event)
    | ArmTimer(timer: TimerKind, ms: nat)
    | CancelTimer(timer: TimerKind)
    /** `setImmediate(() => this._createProcess())` */
    | ScheduleSpawn
    /** `setImmediate(() => this._onExit(0, signal))` */
    | ScheduleExit(code: int, signal: Signal)
    /** `cluster.fork` with the process's cwd, args and environment. */
    | ForkChild
    | KillChild(signal: Signal)
    | DisconnectChild
    | SendToChild(message: string)

  datatype Transition = Transition(next: Process, effects: seq<Effect>)

  /** The generation callbacks among a list of effects, in order. */
  function Callbacks(effects: seq<Effect>): (calls: seq<GenCall>)
    ensures |calls| <= |effects|
  {
    if |effects| == 0 then []
    else (if effects[0].Callback? then [effects[0].call] else []) + Callbacks(effects[1..])
  }

  /** The events among a list of effects, in order. */
  function Events(effects: seq<Effect>): (events: seq<Event>)
    ensures |events| <= |effects|
  {
    if |effects| == 0 then []
    else (if effects[0].Emit? then [effects[0].event] else []) + Events(effects[1..])
  }

  /** The exits deferred with `setImmediate` among a list of effects. */
  function ScheduledExits(effects: seq<Effect>): (n: nat)
    ensures n <= |effects|
  {
    if |effects| == 0 then 0
    else (if effects[0].ScheduleExit? then 1 else 0) + ScheduledExits(effects[1..])
  }

  /** A callback to the current generation, or nothing when there is none. */
  function Notify(g: Option<Generation>, call: GenCall): (fx: seq<Effect>)
    ensures Callbacks(fx) == (if g.Some? then [call] else [])
    ensures Events(fx) == []
  {
    match g
    case Some(gen) => [Callback(gen, call)]
    case None => []
  }

  // ---------------------------------------------------------------------
  // Construction
  // ---------------------------------------------------------------------

  /** The `number` option: absent, a number, or the string "id". */
  datatype NumberOption = NumberAbsent | NumberGiven(n: int) | NumberById

  datatype Options = Options(
    id: Option<nat>,
    number: NumberOption,
    crashCounter: Option<nat>,
    cwd: Option<string>,
    args: Option<seq<string>>,
    startDelay: Option<nat>)

  datatype Constructed = Constructed(process: Process, nextId: nat, effects: seq<Effect>)

  /** The logging-target key: for a logger application its own name, cwd and
      spread arguments; for any other application its logger's name, the
      application's configured cwd and the logger arguments as one nested element. */
  function LoggerKey(app: App, cwd: string, args: seq<string>): (key: seq<KeyPart>)
    ensures app.kind == LoggerApp ==>
              && |key| == 2 + |args|
              && key[0] == Text(app.name) && key[1] == Text(cwd)
              && forall i :: 0 <= i < |args| ==> key[2 + i] == Text(args[i])
    ensures app.kind == NormalApp ==> key == [Text(app.logger), Text(app.cwd), Texts(app.loggerArgs)]
    ensures |key| >= 2
  {
    match app.kind
    case LoggerApp => [Text(app.name), Text(cwd)] + Spread(args)
    case NormalApp => [Text(app.logger), Text(app.cwd), Texts(app.loggerArgs)]
  }

  /** Each argument as its own key element. */
  function Spread(args: seq<string>): (parts: seq<KeyPart>)
    ensures |parts| == |args|
    ensures forall i :: 0 <= i < |args| ==> parts[i] == Text(args[i])
  {
    if |args| == 0 then [] else [Text(args[0])] + Spread(args[1..])
  }

  /** JavaScript truthiness of an optional number: present and non-zero. */
  predicate TruthyNat(o: Option<nat>) {
    o.Some? && o.value != 0
  }

  /** `options.id || idCounter++`: a non-zero given id, otherwise the
      counter, which then advances. */
  function AssignId(given: Option<nat>, counter: nat): (r: (nat, nat))
    ensures TruthyNat(given) ==> r == (given.value, counter)
    ensures !TruthyNat(given) ==> r == (counter, counter + 1)
  {
    if TruthyNat(given) then (given.value, counter) else (counter, counter + 1)
  }

  /** `options.number || 0`, with the string "id" meaning the process id. */
  function InstanceNumber(number: NumberOption, id: nat): (n: int)
    ensures number == NumberById ==> n == id
    ensures number == NumberAbsent ==> n == 0
    ensures number.NumberGiven? ==> n == number.n
  {
    match number
    case NumberAbsent => 0
    case NumberGiven(n) => n
    case NumberById => id
  }

  /** The fresh process record, before any timer or deferred work. */
  function Fresh(app: App, options: Options, id: nat, startTime: int, delayed: bool): (p: Process)
    ensures p.id == id && p.number == InstanceNumber(options.number, id) && p.startTime == startTime
    ensures !p.child && !p.readyListener && !p.ready && !p.killing && !p.stopping
    ensures !p.terminated && !p.timeout && p.generation.None? && p.pid == -1
    ensures p.timers == Timers(if delayed then Armed else Unset, Unset, Unset)
    ensures p.app == app && p.loggerKey == LoggerKey(app, p.cwd, p.args)
  {
    var cwd := if options.cwd.Some? && options.cwd.value != "" then options.cwd.value else app.cwd;
    var args := if options.args.Some? then options.args.value
                else if app.args.Some? then app.args.value else [];
    Process(
      app, id, InstanceNumber(options.number, id),
      if options.crashCounter.Some? then options.crashCounter.value else 0, -1,
      false, false, false, false, false, false, false,
      cwd, args, None,
      Timers(if delayed then Armed else Unset, Unset, Unset),
      startTime,
      LoggerKey(app, cwd, args))
  }

  /** `new Process(app, options)` with the global id counter `counter` and
      the clock reading `now` made explicit. A start delay arms the delay
      timer and shifts the start time; otherwise the spawn is deferred to the
      next turn of the event loop. */
  function Construct(app: App, options: Options, counter: nat, now: int): (c: Constructed)
    ensures TruthyNat(options.id) ==> c.process.id == options.id.value && c.nextId == counter
    ensures !TruthyNat(options.id) ==> c.process.id == counter && c.nextId == counter + 1
    ensures options.number == NumberById ==> c.process.number == c.process.id
    ensures options.number == NumberAbsent ==> c.process.number == 0
    ensures options.number.NumberGiven? ==> c.process.number == options.number.n
    ensures c.process.crashCounter == (if options.crashCounter.Some? then options.crashCounter.value else 0)
    ensures c.process.cwd == (if options.cwd.Some? && options.cwd.value != "" then options.cwd.value else app.cwd)
    ensures c.process.args == (if options.args.Some? then options.args.value
                               else if app.args.Some? then app.args.value else [])
    ensures c.process.loggerKey == LoggerKey(app, c.process.cwd, c.process.args)
    ensures c.process.app == app && c.process.pid == -1 && !c.process.readyListener
    ensures !c.process.child && !c.process.ready && !c.process.killing && !c.process.stopping
    ensures !c.process.terminated && !c.process.timeout && c.process.generation.None?
    ensures c.process.timers.start == Unset && c.process.timers.stop == Unset
    ensures TruthyNat(options.startDelay) ==>
              c.process.timers.startDelay == Armed
              && c.effects == [ArmTimer(StartDelayTimer, options.startDelay.value)]
              && c.process.startTime == now + options.startDelay.value
    ensures !TruthyNat(options.startDelay) ==>
              c.process.timers.startDelay == Unset && c.effects == [ScheduleSpawn]
              && c.process.startTime == now
  {
    var (id, nextId) := AssignId(options.id, counter);
    if TruthyNat(options.startDelay) then
      var delay := options.startDelay.value;
      Constructed(Fresh(app, options, id, now + delay, true), nextId, [ArmTimer(StartDelayTimer, delay)])
    else
      Constructed(Fresh(app, options, id, now, false), nextId, [ScheduleSpawn])
  }

  // ---------------------------------------------------------------------
  // Spawning and timers
  // ---------------------------------------------------------------------

  /** `_createProcess`: spawn once, attach the readiness listener, emit
      `start`, and arm the start timer unless it is disabled. `pid` is the
      OS process id the fork returns. */
  function CreateProcess(p: Process, pid: int): (t: Transition)
    ensures p.child ==> t == Transition(p, [])
    ensures !p.child ==>
              t.next.child && t.next.readyListener && t.next.pid == pid
              && t.next.timers.start == (if p.app.startTimeout.Some? then Armed else p.timers.start)
              && t.next == p.(child := true, pid := pid, readyListener := true, timers := t.next.timers)
              && t.next.timers == p.timers.(start := t.next.timers.start)
  {
    if p.child then Transition(p, [])
    else
      var q := p.(child := true, pid := pid, readyListener := true);
      match p.app.startTimeout
      case None => Transition(q, [ForkChild, Emit(Started)])
      case Some(ms) =>
        Transition(q.(timers := p.timers.(start := Armed)), [ForkChild, Emit(Started), ArmTimer(StartTimer, ms)])
  }

  /** The start-delay timer firing. Like the source, it nulls the
      `startTimeout` field rather than `startDelayTimeout`, which stays
      referenced although its timer has fired. */
  function FireStartDelay(p: Process, pid: int): (t: Transition)
    ensures !p.timers.startDelay.pending ==> t == Transition(p, [])
    ensures p.timers.startDelay.pending ==>
              t == CreateProcess(p.(timers := p.timers.(startDelay := p.timers.startDelay.(pending := false),
                                                      start := p.timers.start.(held := false))), pid)
    ensures p.timers.startDelay.pending ==>
              !t.next.timers.startDelay.pending
              && t.next.timers.startDelay.held == p.timers.startDelay.held
              && t.next.child
    ensures p.timers.startDelay.pending && !p.child ==>
              t.next.pid == pid && t.next.readyListener
              && t.next.timers.start == (if p.app.startTimeout.Some? then Armed else p.timers.start.(held := false))
              && t.next.timers.stop == p.timers.stop
  {
    if !p.timers.startDelay.pending then Transition(p, [])
    else
      CreateProcess(p.(timers := p.timers.(startDelay := p.timers.startDelay.(pending := false),
                                           start := p.timers.start.(held := false))), pid)
  }

  /** `_onStartTimeout`: the start timer fires. */
  function FireStartTimeout(p: Process): (t: Transition)
    ensures !p.timers.start.pending ==> t == Transition(p, [])
    ensures p.timers.start.pending ==>
              t.next == p.(timeout := true, timers := p.timers.(start := Unset))
  {
    if !p.timers.start.pending then Transition(p, [])
    else
      Transition(p.(timeout := true, timers := p.timers.(start := Unset)),
                 Notify(p.generation, GenStartTimeout) + [Emit(TimedOut(StartPhase))])
  }

  /** `_onStopTimeout`: the stop timer fires (also when its field was nulled). */
  function FireStopTimeout(p: Process): (t: Transition)
    ensures !p.timers.stop.pending ==> t == Transition(p, [])
    ensures p.timers.stop.pending ==>
              t.next == p.(timeout := true, timers := p.timers.(stop := Unset))
  {
    if !p.timers.stop.pending then Transition(p, [])
    else
      Transition(p.(timeout := true, timers := p.timers.(stop := Unset)),
                 Notify(p.generation, GenStopTimeout) + [Emit(TimedOut(StopPhase))])
  }

  // ---------------------------------------------------------------------
  // Readiness and exit
  // ---------------------------------------------------------------------

  /** `if (this.startTimeout) { clearTimeout(this.startTimeout); this.startTimeout = null; }`,
      shared by the ready and exit handlers. */
  function CancelStartTimer(ts: Timers): (r: (Timers, seq<Effect>))
    ensures !r.0.start.held
    ensures ts.start.held ==> !r.0.start.pending
    ensures !ts.start.held ==> r.0 == ts && r.1 == []
    ensures r.0.startDelay == ts.startDelay && r.0.stop == ts.stop
  {
    if ts.start.held then (ts.(start := Unset), [CancelTimer(StartTimer)]) else (ts, [])
  }

  /** `_onReady`: ignored once stopping, killing or timed out; otherwise
      cancel the start timer, become ready, tell the generation, emit `ready`. */
  function OnReady(p: Process): (t: Transition)
    ensures (p.stopping || p.killing || p.timeout) ==> t == Transition(p, [])
    ensures !(p.stopping || p.killing || p.timeout) ==>
              t.next.ready
              && !t.next.timers.start.held
              && (p.timers.start.held ==> !t.next.timers.start.pending)
              && t.next == p.(ready := true, timers := t.next.timers)
              && t.next.timers == p.timers.(start := t.next.timers.start)
  {
    if p.stopping || p.killing || p.timeout then Transition(p, [])
    else
      var (ts, cancel) := CancelStartTimer(p.timers);
      Transition(p.(ready := true, timers := ts), cancel + Notify(p.generation, GenReady) + [Emit(BecameReady)])
  }

  /** What the child reports that may signal readiness. */
  datatype Readiness = Message(text: string) | Listening

  /** The report the readiness listener waits for: a `ready` message in
      message mode, the child listening otherwise. */
  predicate Triggers(readyOn: ReadyOn, report: Readiness) {
    match readyOn
    case OnMessage => report == Message("ready")
    case OnListening => report == Listening
  }

  /** The readiness listener attached in `_createProcess`, as written. The
      `listening` listener is registered with `once` and detaches when it
      fires. The message listener means to remove itself, but what is
      registered is a bound copy of the function handed to `removeListener`,
      so nothing is removed and every later `ready` message runs `_onReady`
      again. */
  function ChildReports(p: Process, report: Readiness): (t: Transition)
    ensures !(p.readyListener && Triggers(p.app.readyOn, report)) ==> t == Transition(p, [])
    ensures p.readyListener && Triggers(p.app.readyOn, report) ==>
              t == OnReady(p.(readyListener := p.app.readyOn == OnMessage))
    ensures p.app.readyOn == OnMessage ==> t.next.readyListener == p.readyListener
    ensures p.app.readyOn == OnListening ==> (t.next.readyListener ==> t.next == p)
  {
    if !(p.readyListener && Triggers(p.app.readyOn, report)) then Transition(p, [])
    else OnReady(p.(readyListener := p.app.readyOn == OnMessage))
  }

  /** The readiness listener as evidently intended: whichever report it
      waits for, it detaches the first time that report arrives, before
      `_onReady` runs. */
  function ChildReportsOnce(p: Process, report: Readiness): (t: Transition)
    ensures !(p.readyListener && Triggers(p.app.readyOn, report)) ==> t == Transition(p, [])
    ensures p.readyListener && Triggers(p.app.readyOn, report) ==>
              !t.next.readyListener && t == OnReady(p.(readyListener := false))
  {
    if !(p.readyListener && Triggers(p.app.readyOn, report)) then Transition(p, [])
    else OnReady(p.(readyListener := false))
  }

  /** `_onExit(code, signal)`: the child closed, or a deferred synthetic exit ran.
      The source does not guard against running twice. */
  function OnExit(p: Process, code: int, signal: Option<Signal>): (t: Transition)
    ensures t.next.terminated
    ensures t.next.generation.None?
    ensures !t.next.timers.start.held && (p.timers.start.held ==> !t.next.timers.start.pending)
    ensures t.next == p.(terminated := true, generation := None, timers := t.next.timers)
    ensures t.next.timers == p.timers.(start := t.next.timers.start)
  {
    var (ts, cancel) := CancelStartTimer(p.timers);
    Transition(p.(terminated := true, generation := None, timers := ts),
               cancel + Notify(p.generation, GenExit(code, signal)) + [Emit(Exited(code, signal))])
  }

  /** `_clearTimeouts`, including its slip: when the start timer is
      referenced, it is cancelled but stays referenced, while the stop-timer
      field is nulled without cancelling it, so a live stop timer survives. */
  function ClearTimeouts(ts: Timers): (r: (Timers, seq<Effect>))
    ensures !r.0.startDelay.held
    ensures ts.startDelay.held ==> !r.0.startDelay.pending
    ensures r.0.start == ts.start.(pending := ts.start.pending && !ts.start.held)
    ensures !r.0.stop.held
    ensures r.0.stop.pending == (ts.stop.pending && (ts.start.held || !ts.stop.held))
  {
    var delay := if ts.startDelay.held then Unset else ts.startDelay;
    var start := if ts.start.held then ts.start.(pending := false) else ts.start;
    // The second branch nulls the stop field, so the third never sees it.
    var stop := if ts.start.held then ts.stop.(held := false)
                else if ts.stop.held then Unset
                else ts.stop;
    var fx := (if ts.startDelay.held then [CancelTimer(StartDelayTimer)] else [])
              + (if ts.start.held then [CancelTimer(StartTimer)] else [])
              + (if !ts.start.held && ts.stop.held then [CancelTimer(StopTimer)] else []);
    (Timers(delay, start, stop), fx)
  }

  // ---------------------------------------------------------------------
  // Commands
  // ---------------------------------------------------------------------

  /** `move(generation)`: leave the old generation, then join the new one. */
  function Move(p: Process, g: Option<Generation>): (t: Transition)
    ensures t.next == p.(generation := g)
  {
    Transition(p.(generation := g), Notify(p.generation, GenRemove) + Notify(g, GenAdd) + [Emit(Moved(g, p.generation))])
  }

  /** `stop()`: clear the timed-out flag and ask the generation to stop the process. */
  function Stop(p: Process): (t: Transition)
    ensures t.next == p.(timeout := false)
  {
    Transition(p.(timeout := false), Notify(p.generation, GenStop) + [Emit(StopRequested)])
  }

  /** `kill(signal, force)`: clear the timed-out flag and ask the generation to kill. */
  function Kill(p: Process, signal: Option<Signal>, force: bool): (t: Transition)
    ensures t.next == p.(timeout := false)
  {
    Transition(p.(timeout := false), Notify(p.generation, GenKill(signal, force)) + [Emit(KillRequested(signal, force))])
  }

  /** What `send` returns: `undefined` once terminated, the channel's own
      answer when a child exists, `false` otherwise. */
  datatype SendResult = Undefined | ChannelAnswer | NotSent

  /** `send(message)`; it never changes the process. */
  function Send(p: Process, message: string): (r: (SendResult, seq<Effect>))
    ensures p.terminated ==> r == (Undefined, [])
    ensures !p.terminated && !p.child ==> r == (NotSent, [])
    ensures r.1 != [] <==> !p.terminated && p.child
  {
    if p.terminated then (Undefined, [])
    else if p.child then (ChannelAnswer, [SendToChild(message)])
    else (NotSent, [])
  }

  /** How a graceful stop reaches the child: `disconnect` closes the IPC
      channel, any other signal is sent to the OS process. */
  function StopDelivery(signal: Signal): (e: Effect)
    ensures e == DisconnectChild <==> signal == "disconnect"
    ensures e != DisconnectChild ==> e == KillChild(signal)
  {
    if signal == "disconnect" then DisconnectChild else KillChild(signal)
  }

  /** `sendStop()`: graceful stop. */
  function SendStop(p: Process): (t: Transition)
    ensures (p.terminated || p.stopping || p.killing) ==> t == Transition(p, [])
    ensures !(p.terminated || p.stopping || p.killing) ==>
              t.next == p.(stopping := true, timers := t.next.timers)
    ensures !(p.terminated || p.stopping || p.killing) && p.child && !p.ready ==> t.effects == []
    ensures !(p.terminated || p.stopping || p.killing) && p.child && p.ready ==>
              |t.effects| >= 2 && t.effects[0] == StopDelivery(p.app.stopSignal)
              && t.next.timers.stop == (if p.app.stopTimeout.Some? then Armed else p.timers.stop)
              && (p.app.stopTimeout.Some? ==> t.effects[1] == ArmTimer(StopTimer, p.app.stopTimeout.value))
    ensures !(p.terminated || p.stopping || p.killing) && !p.child && p.timers.startDelay.held ==>
              t.next.timers == p.timers.(startDelay := Unset)
    ensures p.child ==> t.next.timers == p.timers.(stop := t.next.timers.stop)
    ensures t.next.timers.stop.pending ==> p.timers.stop.pending || (p.child && p.ready)
  {
    if p.terminated || p.stopping || p.killing then Transition(p, [])
    else
      var signal := p.app.stopSignal;
      var q := p.(stopping := true);
      if p.child then
        if !p.ready then Transition(q, [])
        else
          var deliver := StopDelivery(signal);
          match p.app.stopTimeout
          case None => Transition(q, [deliver, Emit(Signalled(signal, StopPhase))])
          case Some(ms) =>
            Transition(q.(timers := p.timers.(stop := Armed)),
                       [deliver, ArmTimer(StopTimer, ms), Emit(Signalled(signal, StopPhase))])
      else if p.timers.startDelay.held then
        Transition(q.(timers := p.timers.(startDelay := Unset)),
                   [CancelTimer(StartDelayTimer), ScheduleExit(0, signal), Emit(Signalled(signal, StopPhase))])
      else Transition(q, [])
  }

  /** The signal `sendKill` uses: the argument when it is a non-empty
      string, the application's `kill-signal` otherwise. */
  function KillSignal(p: Process, signal: Option<Signal>): (s: Signal)
    ensures signal.Some? && signal.value != "" ==> s == signal.value
    ensures signal.None? || signal.value == "" ==> s == p.app.killSignal
  {
    if signal.Some? && signal.value != "" then signal.value else p.app.killSignal
  }

  /** `sendKill(signal, force)`: forced termination. */
  function SendKill(p: Process, signal: Option<Signal>, force: bool): (t: Transition)
    ensures (p.terminated || (p.killing && !force)) ==> t == Transition(p, [])
    ensures !(p.terminated || (p.killing && !force)) ==>
              t.next == p.(killing := true, timers := ClearTimeouts(p.timers).0)
              && !t.next.timers.startDelay.held
  {
    if p.terminated || (p.killing && !force) then Transition(p, [])
    else
      var (ts, cleared) := ClearTimeouts(p.timers);
      var sig := KillSignal(p, signal);
      var act := if p.child then [KillChild(sig)]
                 else if !p.killing then [ScheduleExit(0, sig)]
                 else [];
      Transition(p.(killing := true, timers := ts), cleared + act + [Emit(Signalled(sig, KillPhase))])
  }

  lemma {:induction false} CallbacksDistribute(a: seq<Effect>, b: seq<Effect>)
    ensures Callbacks(a + b) == Callbacks(a) + Callbacks(b)
  {
    if |a| == 0 {
      assert a + b == b;
    } else {
      var head := if a[0].Callback? then [a[0].call] else [];
      assert (a + b)[0] == a[0];
      assert (a + b)[1..] == a[1..] + b;
      assert Callbacks(a + b) == head + Callbacks(a[1..] + b);
      CallbacksDistribute(a[1..], b);
      assert Callbacks(a) == head + Callbacks(a[1..]);
    }
  }

  lemma {:induction false} EventsDistribute(a: seq<Effect>, b: seq<Effect>)
    ensures Events(a + b) == Events(a) + Events(b)
  {
    if |a| == 0 {
      assert a + b == b;
    } else {
      var head := if a[0].Emit? then [a[0].event] else [];
      assert (a + b)[0] == a[0];
      assert (a + b)[1..] == a[1..] + b;
      assert Events(a + b) == head + Events(a[1..] + b);
      EventsDistribute(a[1..], b);
      assert Events(a) == head + Events(a[1..]);
    }
  }

  lemma {:induction false} ExitsDistribute(a: seq<Effect>, b: seq<Effect>)
    ensures ScheduledExits(a + b) == ScheduledExits(a) + ScheduledExits(b)
  {
    if |a| == 0 {
      assert a + b == b;
    } else {
      assert (a + b)[1..] == a[1..] + b;
      ExitsDistribute(a[1..], b);
    }
  }

  /** The filters over effect lists distribute over concatenation. */
  lemma FiltersDistribute(a: seq<Effect>, b: seq<Effect>)
    ensures Callbacks(a + b) == Callbacks(a) + Callbacks(b)
    ensures Events(a + b) == Events(a) + Events(b)
    ensures ScheduledExits(a + b) == ScheduledExits(a) + ScheduledExits(b)
  {
    CallbacksDistribute(a, b);
    EventsDistribute(a, b);
    ExitsDistribute(a, b);
  }

  /** The filters of a one-effect list. */
  lemma FiltersOfOne(e: Effect)
    ensures Callbacks([e]) == (if e.Callback? then [e.call] else [])
    ensures Events([e]) == (if e.Emit? then [e.event] else [])
    ensures ScheduledExits([e]) == (if e.ScheduleExit? then 1 else 0)
  {
    assert [e][1..] == [];
  }

  /** The filters of a literal list of two or three effects. */
  lemma FiltersOfLiteral(a: Effect, b: Effect, c: Effect)
    ensures Callbacks([a, b]) == Callbacks([a]) + Callbacks([b])
    ensures Events([a, b]) == Events([a]) + Events([b])
    ensures ScheduledExits([a, b]) == ScheduledExits([a]) + ScheduledExits([b])
    ensures Callbacks([a, b, c]) == Callbacks([a]) + Callbacks([b]) + Callbacks([c])
    ensures Events([a, b, c]) == Events([a]) + Events([b]) + Events([c])
    ensures ScheduledExits([a, b, c]) == ScheduledExits([a]) + ScheduledExits([b]) + ScheduledExits([c])
  {
    assert [a, b] == [a] + [b];
    assert [a, b, c] == [a] + [b] + [c];
    FiltersDistribute([a], [b]);
    EffectListFacts([a], [b], [c]);
  }

  lemma EffectListFacts(a: seq<Effect>, b: seq<Effect>, c: seq<Effect>)
    ensures Callbacks(a + b + c) == Callbacks(a) + Callbacks(b) + Callbacks(c)
    ensures Events(a + b + c) == Events(a) + Events(b) + Events(c)
    ensures ScheduledExits(a + b + c) == ScheduledExits(a) + ScheduledExits(b) + ScheduledExits(c)
  {
    FiltersDistribute(a, b);
    FiltersDistribute(a + b, c);
  }

  // ---------------------------------------------------------------------
  // Ordering
  // ---------------------------------------------------------------------

  /** `compare(other)`: by application revision, then start time, then id. */
  function Compare(a: Process, b: Process): (c: int)
    ensures c == 0 <==> a.app.revision == b.app.revision && a.startTime == b.startTime && a.id == b.id
    ensures c < 0 <==> a.app.revision < b.app.revision
                       || (a.app.revision == b.app.revision && a.startTime < b.startTime)
                       || (a.app.revision == b.app.revision && a.startTime == b.startTime && a.id < b.id)
  {
    if a.app.revision != b.app.revision then a.app.revision - b.app.revision
    else if a.startTime != b.startTime then a.startTime - b.startTime
    else a.id - b.id
  }
}
