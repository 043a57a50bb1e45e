/** Properties of the supervised-process state machine: what each handler
    does to the generation and to the event stream, an invariant every
    admissible step preserves, and facts about whole runs. */
module SupervisionProofs {
  import opened Common
  import opened Application
  import opened Supervision

  // ---------------------------------------------------------------------
  // What single handlers report
  // ---------------------------------------------------------------------

  /** A late readiness signal is ignored; otherwise the generation hears
      about readiness exactly once (when there is one) and `ready` is emitted. */
  lemma OnReadyReports(p: Process)
    ensures (p.stopping || p.killing || p.timeout) ==> OnReady(p).effects == []
    ensures !(p.stopping || p.killing || p.timeout) ==>
              Callbacks(OnReady(p).effects) == (if p.generation.Some? then [GenReady] else [])
              && Events(OnReady(p).effects) == [BecameReady]
    ensures ScheduledExits(OnReady(p).effects) == 0
  {
    if !(p.stopping || p.killing || p.timeout) {
      var cancel := CancelStartTimer(p.timers).1;
      var fx := cancel + Notify(p.generation, GenReady) + [Emit(BecameReady)];
      assert OnReady(p).effects == fx;
      CancelIsSilent(p.timers);
      FiltersOfOne(Emit(BecameReady));
      EffectListFacts(cancel, Notify(p.generation, GenReady), [Emit(BecameReady)]);
    }
  }

  /** Cancelling the start timer calls nothing, emits nothing and defers nothing. */
  lemma CancelIsSilent(ts: Timers)
    ensures Callbacks(CancelStartTimer(ts).1) == []
    ensures Events(CancelStartTimer(ts).1) == []
    ensures ScheduledExits(CancelStartTimer(ts).1) == 0
  {
    FiltersOfOne(CancelTimer(StartTimer));
  }

  /** The exit handler reports the exit to the generation it is leaving and emits `exit`. */
  lemma OnExitReports(p: Process, code: int, signal: Option<Signal>)
    ensures Callbacks(OnExit(p, code, signal).effects) ==
              (if p.generation.Some? then [GenExit(code, signal)] else [])
    ensures Events(OnExit(p, code, signal).effects) == [Exited(code, signal)]
    ensures ScheduledExits(OnExit(p, code, signal).effects) == 0
  {
    var cancel := CancelStartTimer(p.timers).1;
    var emit := [Emit(Exited(code, signal))];
    assert OnExit(p, code, signal).effects == cancel + Notify(p.generation, GenExit(code, signal)) + emit;
    CancelIsSilent(p.timers);
    FiltersOfOne(Emit(Exited(code, signal)));
    EffectListFacts(cancel, Notify(p.generation, GenExit(code, signal)), emit);
  }

  /** Moving detaches from the old generation strictly before attaching to the new one. */
  lemma MoveDetachesFirst(p: Process, g: Option<Generation>)
    ensures Callbacks(Move(p, g).effects) ==
              (if p.generation.Some? then [GenRemove] else []) + (if g.Some? then [GenAdd] else [])
    ensures p.generation.Some? && g.Some? ==>
              Move(p, g).effects[0] == Callback(p.generation.value, GenRemove)
              && Move(p, g).effects[1] == Callback(g.value, GenAdd)
    ensures Events(Move(p, g).effects) == [Moved(g, p.generation)]
    ensures ScheduledExits(Move(p, g).effects) == 0
  {
    FiltersOfOne(Emit(Moved(g, p.generation)));
    EffectListFacts(Notify(p.generation, GenRemove), Notify(g, GenAdd), [Emit(Moved(g, p.generation))]);
  }

  /** `stop()` only forwards the request to the generation. */
  lemma StopForwards(p: Process)
    ensures Callbacks(Stop(p).effects) == (if p.generation.Some? then [GenStop] else [])
    ensures Events(Stop(p).effects) == [StopRequested]
    ensures ScheduledExits(Stop(p).effects) == 0
  {
    FiltersOfOne(Emit(StopRequested));
    FiltersDistribute(Notify(p.generation, GenStop), [Emit(StopRequested)]);
  }

  /** `kill()` only forwards the request to the generation. */
  lemma KillForwards(p: Process, signal: Option<Signal>, force: bool)
    ensures Callbacks(Kill(p, signal, force).effects) ==
              (if p.generation.Some? then [GenKill(signal, force)] else [])
    ensures Events(Kill(p, signal, force).effects) == [KillRequested(signal, force)]
    ensures ScheduledExits(Kill(p, signal, force).effects) == 0
  {
    FiltersOfOne(Emit(KillRequested(signal, force)));
    FiltersDistribute(Notify(p.generation, GenKill(signal, force)), [Emit(KillRequested(signal, force))]);
  }

  /** The start timer firing tells the generation and emits `timeout` tagged "start". */
  lemma StartTimeoutReports(p: Process)
    ensures p.timers.start.pending ==>
              Callbacks(FireStartTimeout(p).effects) == (if p.generation.Some? then [GenStartTimeout] else [])
              && Events(FireStartTimeout(p).effects) == [TimedOut(StartPhase)]
    ensures ScheduledExits(FireStartTimeout(p).effects) == 0
  {
    FiltersOfOne(Emit(TimedOut(StartPhase)));
    FiltersDistribute(Notify(p.generation, GenStartTimeout), [Emit(TimedOut(StartPhase))]);
  }

  /** The stop timer firing tells the generation and emits `timeout` tagged "stop". */
  lemma StopTimeoutReports(p: Process)
    ensures p.timers.stop.pending ==>
              Callbacks(FireStopTimeout(p).effects) == (if p.generation.Some? then [GenStopTimeout] else [])
              && Events(FireStopTimeout(p).effects) == [TimedOut(StopPhase)]
    ensures ScheduledExits(FireStopTimeout(p).effects) == 0
  {
    FiltersOfOne(Emit(TimedOut(StopPhase)));
    FiltersDistribute(Notify(p.generation, GenStopTimeout), [Emit(TimedOut(StopPhase))]);
  }

  /** Spawning calls no generation and defers no exit. */
  lemma CreateProcessSilent(p: Process, pid: int)
    ensures Callbacks(CreateProcess(p, pid).effects) == []
    ensures ScheduledExits(CreateProcess(p, pid).effects) == 0
    ensures !p.child ==> Events(CreateProcess(p, pid).effects) == [Started]
  {
    FiltersOfOne(ForkChild);
    FiltersOfOne(Emit(Started));
    if p.app.startTimeout.Some? {
      FiltersOfOne(ArmTimer(StartTimer, p.app.startTimeout.value));
    }
    FiltersOfLiteral(ForkChild, Emit(Started), ArmTimer(StartTimer, if p.app.startTimeout.Some? then p.app.startTimeout.value else 0));
  }

  /** Clearing the timers calls no generation, emits nothing and defers nothing. */
  lemma ClearTimeoutsSilent(ts: Timers)
    ensures Callbacks(ClearTimeouts(ts).1) == []
    ensures Events(ClearTimeouts(ts).1) == []
    ensures ScheduledExits(ClearTimeouts(ts).1) == 0
  {
    FiltersOfOne(CancelTimer(StartDelayTimer));
    FiltersOfOne(CancelTimer(StartTimer));
    FiltersOfOne(CancelTimer(StopTimer));
    var a := if ts.startDelay.held then [CancelTimer(StartDelayTimer)] else [];
    var b := if ts.start.held then [CancelTimer(StartTimer)] else [];
    var c := if !ts.start.held && ts.stop.held then [CancelTimer(StopTimer)] else [];
    EffectListFacts(a, b, c);
  }

  /** Whether `sendStop` acts at all. */
  predicate StopApplies(p: Process) {
    !(p.terminated || p.stopping || p.killing)
  }

  /** `sendStop` emits `signal` only on the ready-child path and the
      pending-delay path; only the latter defers a synthetic exit, with code 0
      and the stop signal. It never calls the generation. */
  lemma SendStopReports(p: Process)
    ensures Events(SendStop(p).effects) ==
              (if StopApplies(p) && ((p.child && p.ready) || (!p.child && p.timers.startDelay.held))
               then [Signalled(p.app.stopSignal, StopPhase)] else [])
    ensures ScheduledExits(SendStop(p).effects) ==
              (if StopApplies(p) && !p.child && p.timers.startDelay.held then 1 else 0)
    ensures StopApplies(p) && !p.child && p.timers.startDelay.held ==>
              ScheduleExit(0, p.app.stopSignal) in SendStop(p).effects
    ensures Callbacks(SendStop(p).effects) == []
  {
    var signal := p.app.stopSignal;
    var emit := Emit(Signalled(signal, StopPhase));
    FiltersOfOne(emit);
    if StopApplies(p) && p.child && p.ready {
      var deliver := StopDelivery(signal);
      FiltersOfOne(deliver);
      match p.app.stopTimeout
      case None =>
        FiltersOfLiteral(deliver, emit, emit);
      case Some(ms) =>
        FiltersOfOne(ArmTimer(StopTimer, ms));
        FiltersOfLiteral(deliver, ArmTimer(StopTimer, ms), emit);
    } else if StopApplies(p) && !p.child && p.timers.startDelay.held {
      FiltersOfOne(CancelTimer(StartDelayTimer));
      FiltersOfOne(ScheduleExit(0, signal));
      FiltersOfLiteral(CancelTimer(StartDelayTimer), ScheduleExit(0, signal), emit);
    }
  }

  /** `sendKill` signals the child when there is one, defers a synthetic exit
      only when there is no child and no kill was under way, and always emits
      `signal` tagged "kill" with the signal actually used. */
  lemma SendKillReports(p: Process, signal: Option<Signal>, force: bool)
    ensures !(p.terminated || (p.killing && !force)) ==>
              Events(SendKill(p, signal, force).effects) == [Signalled(KillSignal(p, signal), KillPhase)]
              && (p.child ==> KillChild(KillSignal(p, signal)) in SendKill(p, signal, force).effects)
    ensures ScheduledExits(SendKill(p, signal, force).effects) ==
              (if !p.terminated && !p.killing && !p.child then 1 else 0)
    ensures Callbacks(SendKill(p, signal, force).effects) == []
  {
    if !(p.terminated || (p.killing && !force)) {
      var sig := KillSignal(p, signal);
      var act := if p.child then [KillChild(sig)]
                 else if !p.killing then [ScheduleExit(0, sig)]
                 else [];
      KillEffects(p, signal, force);
      KillFilters(ClearTimeouts(p.timers).1, act, sig);
      KillActionIsSilent(p, sig);
      ClearTimeoutsSilent(p.timers);
    }
  }

  /** The effects of a `sendKill` that acts: clearing, acting, then the event. */
  lemma KillEffects(p: Process, signal: Option<Signal>, force: bool)
    requires !(p.terminated || (p.killing && !force))
    ensures var sig := KillSignal(p, signal);
            SendKill(p, signal, force).effects
            == ClearTimeouts(p.timers).1
               + (if p.child then [KillChild(sig)] else if !p.killing then [ScheduleExit(0, sig)] else [])
               + [Emit(Signalled(sig, KillPhase))]
  {
  }

  /** The filters of a clearing, an action and a `signal` event in a row. */
  lemma KillFilters(cleared: seq<Effect>, act: seq<Effect>, sig: Signal)
    requires Callbacks(cleared) == [] && Events(cleared) == [] && ScheduledExits(cleared) == 0
    requires Callbacks(act) == [] && Events(act) == []
    ensures var fx := cleared + act + [Emit(Signalled(sig, KillPhase))];
            && Callbacks(fx) == [] && Events(fx) == [Signalled(sig, KillPhase)]
            && ScheduledExits(fx) == ScheduledExits(act)
            && (act == [KillChild(sig)] ==> KillChild(sig) in fx)
  {
    var fx := cleared + act + [Emit(Signalled(sig, KillPhase))];
    FiltersOfOne(Emit(Signalled(sig, KillPhase)));
    EffectListFacts(cleared, act, [Emit(Signalled(sig, KillPhase))]);
    if act == [KillChild(sig)] {
      assert fx[|cleared|] == KillChild(sig);
    }
  }

  /** What `sendKill` does to the child, or instead of it, calls nothing and
      emits nothing; it defers an exit exactly without a child and without a
      kill under way. */
  lemma KillActionIsSilent(p: Process, sig: Signal)
    ensures var act := if p.child then [KillChild(sig)]
                       else if !p.killing then [ScheduleExit(0, sig)]
                       else [];
            && Callbacks(act) == [] && Events(act) == []
            && ScheduledExits(act) == (if !p.killing && !p.child then 1 else 0)
  {
    FiltersOfOne(KillChild(sig));
    FiltersOfOne(ScheduleExit(0, sig));
  }

  /** A forced kill of a process that is already being killed and has no
      child defers no second exit. */
  lemma RepeatedKillSchedulesNoSecondExit(p: Process, s1: Option<Signal>, f1: bool, s2: Option<Signal>)
    requires !p.child
    ensures ScheduledExits(SendKill(SendKill(p, s1, f1).next, s2, true).effects) == 0
  {
    SendKillReports(SendKill(p, s1, f1).next, s2, true);
  }

  // ---------------------------------------------------------------------
  // Steps and an invariant
  // ---------------------------------------------------------------------

  /** Everything that can happen to a process: deferred work running,
      timers firing, the child reporting, and commands from outside. */
  datatype Input =
    | RunSpawn(pid: int)
    | DelayFires(pid: int)
    | StartTimerFires
    | StopTimerFires
    | Report(report: Readiness)
    | ExitRuns(code: int, exitSignal: Option<Signal>)
    | MoveTo(g: Option<Generation>)
    | StopCommand
    | KillCommand(requested: Option<Signal>, force: bool)
    | SendStopCommand
    | SendKillCommand(requested: Option<Signal>, force: bool)
    | SendCommand(message: string)

  function Apply(p: Process, i: Input): Transition {
    match i
    case RunSpawn(pid) => CreateProcess(p, pid)
    case DelayFires(pid) => FireStartDelay(p, pid)
    case StartTimerFires => FireStartTimeout(p)
    case StopTimerFires => FireStopTimeout(p)
    case Report(r) => ChildReports(p, r)
    case ExitRuns(code, signal) => OnExit(p, code, signal)
    case MoveTo(g) => Move(p, g)
    case StopCommand => Stop(p)
    case KillCommand(s, f) => Kill(p, s, f)
    case SendStopCommand => SendStop(p)
    case SendKillCommand(s, f) => SendKill(p, s, f)
    case SendCommand(m) => Transition(p, Send(p, m).1)
  }

  /** Which readiness listener a process runs: the source's, whose message
      listener is never removed, or the evidently intended one, which
      detaches after its first report. */
  datatype Listener = AsWritten | Intended

  /** One step under listener `l`; only a readiness report tells them apart. */
  function Step(p: Process, i: Input, l: Listener): Transition {
    if l == Intended && i.Report? then ChildReportsOnce(p, i.report) else Apply(p, i)
  }

  /** The deferred spawn exists only for a process constructed without a
      start delay, whose delay field is never set. */
  predicate Enabled(p: Process, i: Input) {
    i.RunSpawn? ==> !p.timers.startDelay.held
  }

  /** Relations between the flags and timers that every reachable state keeps. */
  predicate Inv(p: Process) {
    && (p.timers.start.pending ==> p.timers.start.held && p.child && !p.ready)
    && (p.timers.stop.pending ==> p.timers.stop.held && p.ready)
    && (p.ready ==> p.child)
    && (p.readyListener ==> p.child && (!p.ready || p.app.readyOn == OnMessage))
    && (p.timers.startDelay.pending ==> p.timers.startDelay.held && !p.child)
    && (p.timers.start.held ==> !p.ready)
  }

  lemma ConstructEstablishesInv(app: App, options: Options, counter: nat, now: int)
    ensures Inv(Construct(app, options, counter, now).process)
  {
  }

  /** The invariant survives every admissible step. */
  lemma StepPreservesInv(p: Process, i: Input)
    requires Inv(p) && Enabled(p, i)
    ensures Inv(Apply(p, i).next)
  {
    if i.RunSpawn? || i.DelayFires? || i.Report? || i.ExitRuns? || i.StartTimerFires? || i.StopTimerFires? {
      LifecycleKeepsInv(p, i);
    } else {
      CommandKeepsInv(p, i);
    }
  }

  /** The invariant survives every admissible step under either listener. */
  lemma ListenerStepPreservesInv(p: Process, i: Input, l: Listener)
    requires Inv(p) && Enabled(p, i)
    ensures Inv(Step(p, i, l).next)
  {
    if l == Intended && i.Report? {
      OnceReportKeepsInv(p, i.report);
    } else {
      StepPreservesInv(p, i);
    }
  }

  lemma LifecycleKeepsInv(p: Process, i: Input)
    requires Inv(p) && Enabled(p, i)
    requires i.RunSpawn? || i.DelayFires? || i.Report? || i.ExitRuns? || i.StartTimerFires? || i.StopTimerFires?
    ensures Inv(Apply(p, i).next)
  {
    match i
    case RunSpawn(pid) => SpawnKeepsInv(p, pid);
    case DelayFires(pid) => DelayKeepsInv(p, pid);
    case Report(r) => ReportKeepsInv(p, r);
    case ExitRuns(code, signal) => ExitKeepsInv(p, code, signal);
    case StartTimerFires => TimeoutKeepsInv(p);
    case StopTimerFires => TimeoutKeepsInv(p);
  }

  lemma CommandKeepsInv(p: Process, i: Input)
    requires Inv(p)
    requires !(i.RunSpawn? || i.DelayFires? || i.Report? || i.ExitRuns? || i.StartTimerFires? || i.StopTimerFires?)
    ensures Inv(Apply(p, i).next)
  {
    match i
    case MoveTo(g) => ForwardsKeepInv(p, g, None, false);
    case StopCommand => ForwardsKeepInv(p, None, None, false);
    case KillCommand(s, f) => ForwardsKeepInv(p, None, s, f);
    case SendCommand(m) =>
    case SendStopCommand => SendStopKeepsInv(p);
    case SendKillCommand(s, f) => SendKillKeepsInv(p, s, f);
  }

  lemma SpawnKeepsInv(p: Process, pid: int)
    requires Inv(p) && !p.timers.startDelay.held
    ensures Inv(CreateProcess(p, pid).next)
  {
  }

  lemma DelayKeepsInv(p: Process, pid: int)
    requires Inv(p)
    ensures Inv(FireStartDelay(p, pid).next)
  {
    if p.timers.startDelay.pending {
      var q := p.(timers := p.timers.(startDelay := p.timers.startDelay.(pending := false),
                                      start := p.timers.start.(held := false)));
      assert !q.child && !q.timers.start.pending && !q.timers.stop.pending;
    }
  }

  lemma ReportKeepsInv(p: Process, r: Readiness)
    requires Inv(p)
    ensures Inv(ChildReports(p, r).next)
  {
    if p.readyListener {
      assert p.child;
    }
  }

  lemma OnceReportKeepsInv(p: Process, r: Readiness)
    requires Inv(p)
    ensures Inv(ChildReportsOnce(p, r).next)
  {
    if p.readyListener {
      assert p.child;
    }
  }

  lemma ExitKeepsInv(p: Process, code: int, signal: Option<Signal>)
    requires Inv(p)
    ensures Inv(OnExit(p, code, signal).next)
  {
  }

  lemma TimeoutKeepsInv(p: Process)
    requires Inv(p)
    ensures Inv(FireStartTimeout(p).next)
    ensures Inv(FireStopTimeout(p).next)
  {
  }

  /** `move`, `stop` and `kill` touch neither the timers nor the
      lifecycle flags the invariant is about. */
  lemma ForwardsKeepInv(p: Process, g: Option<Generation>, s: Option<Signal>, f: bool)
    requires Inv(p)
    ensures Inv(Move(p, g).next) && Inv(Stop(p).next) && Inv(Kill(p, s, f).next)
  {
    SameLifecycleKeepsInv(p, Move(p, g).next);
    SameLifecycleKeepsInv(p, Stop(p).next);
    SameLifecycleKeepsInv(p, Kill(p, s, f).next);
  }

  lemma SameLifecycleKeepsInv(p: Process, q: Process)
    requires Inv(p)
    requires q.timers == p.timers && q.child == p.child && q.ready == p.ready && q.readyListener == p.readyListener
    requires q.app == p.app
    ensures Inv(q)
  {
  }

  lemma SendStopKeepsInv(p: Process)
    requires Inv(p)
    ensures Inv(SendStop(p).next)
  {
  }

  lemma SendKillKeepsInv(p: Process, s: Option<Signal>, f: bool)
    requires Inv(p)
    ensures Inv(SendKill(p, s, f).next)
  {
  }

  /** The start and stop timers are never armed together. */
  lemma AtMostOneLifecycleTimer(p: Process)
    requires Inv(p)
    ensures !(p.timers.start.pending && p.timers.stop.pending)
  {
  }

  /** The slip in `_clearTimeouts` never shows: the stop timer is armed only
      once the process is ready, and by then the start-timer field is null,
      so a kill that acts always cancels the stop timer and nothing of the
      lifecycle timers stays armed. */
  lemma KillDisarmsLifecycleTimers(p: Process, signal: Option<Signal>, force: bool)
    requires Inv(p)
    ensures !(p.terminated || (p.killing && !force)) ==>
              var ts := SendKill(p, signal, force).next.timers;
              !ts.start.pending && !ts.stop.pending && !ts.startDelay.pending
  {
  }

  /** Flags that, once set, stay set: spawned, ready, stopping, killing, terminated. */
  predicate FlagsKept(p: Process, q: Process) {
    && (p.child ==> q.child)
    && (p.ready ==> q.ready)
    && (p.stopping ==> q.stopping)
    && (p.killing ==> q.killing)
    && (p.terminated ==> q.terminated)
  }

  lemma FlagsAreMonotone(p: Process, i: Input)
    ensures FlagsKept(p, Apply(p, i).next)
  {
    match i
    case RunSpawn(pid) => FlagsKeptBySpawn(p, pid);
    case DelayFires(pid) => FlagsKeptBySpawn(p, pid);
    case Report(r) => FlagsKeptByReport(p, r);
    case SendStopCommand => FlagsKeptByStops(p, None, false);
    case SendKillCommand(s, f) => FlagsKeptByStops(p, s, f);
    case _ => FlagsKeptByOthers(p, i);
  }

  lemma FlagsKeptBySpawn(p: Process, pid: int)
    ensures FlagsKept(p, CreateProcess(p, pid).next)
    ensures FlagsKept(p, FireStartDelay(p, pid).next)
  {
  }

  lemma FlagsKeptByReport(p: Process, r: Readiness)
    ensures FlagsKept(p, ChildReports(p, r).next)
  {
  }

  lemma FlagsKeptByStops(p: Process, s: Option<Signal>, f: bool)
    ensures FlagsKept(p, SendStop(p).next)
    ensures FlagsKept(p, SendKill(p, s, f).next)
  {
  }

  lemma FlagsKeptByOthers(p: Process, i: Input)
    requires i.StartTimerFires? || i.StopTimerFires? || i.ExitRuns? || i.MoveTo?
             || i.StopCommand? || i.KillCommand? || i.SendCommand?
    ensures FlagsKept(p, Apply(p, i).next)
  {
  }

  /** The lifecycle stage: 0 pending spawn, 1 spawned, 2 ready,
      3 stopping or killing, 4 terminated. */
  function Stage(p: Process): nat {
    if p.terminated then 4
    else if p.stopping || p.killing then 3
    else if p.ready then 2
    else if p.child then 1
    else 0
  }

  lemma StageNeverDecreases(p: Process, i: Input)
    ensures Stage(Apply(p, i).next) >= Stage(p)
  {
    FlagsAreMonotone(p, i);
  }

  // ---------------------------------------------------------------------
  // Runs
  // ---------------------------------------------------------------------

  /** Apply a sequence of inputs under listener `l`, collecting all effects in order. */
  function Run(p: Process, inputs: seq<Input>, l: Listener): Transition
    decreases |inputs|
  {
    if |inputs| == 0 then Transition(p, [])
    else
      var first := Step(p, inputs[0], l);
      var rest := Run(first.next, inputs[1..], l);
      Transition(rest.next, first.effects + rest.effects)
  }

  predicate Admissible(p: Process, inputs: seq<Input>, l: Listener)
    decreases |inputs|
  {
    |inputs| == 0 || (Enabled(p, inputs[0]) && Admissible(Step(p, inputs[0], l).next, inputs[1..], l))
  }

  lemma {:induction false} RunPreservesInv(p: Process, inputs: seq<Input>, l: Listener)
    requires Inv(p) && Admissible(p, inputs, l)
    ensures Inv(Run(p, inputs, l).next)
    decreases |inputs|
  {
    if |inputs| > 0 {
      ListenerStepPreservesInv(p, inputs[0], l);
      RunPreservesInv(Step(p, inputs[0], l).next, inputs[1..], l);
    }
  }

  /** No step changes the application a process was created for. */
  lemma StepKeepsApp(p: Process, i: Input, l: Listener)
    ensures Step(p, i, l).next.app == p.app
  {
    match i
    case Report(r) =>
    case DelayFires(pid) =>
    case _ =>
  }

  /** How many `ready` callbacks a list of generation calls holds. */
  function ReadyCalls(calls: seq<GenCall>): nat {
    if |calls| == 0 then 0 else (if calls[0] == GenReady then 1 else 0) + ReadyCalls(calls[1..])
  }

  lemma {:induction false} ReadyCallsDistribute(a: seq<GenCall>, b: seq<GenCall>)
    ensures ReadyCalls(a + b) == ReadyCalls(a) + ReadyCalls(b)
  {
    if |a| == 0 {
      assert a + b == b;
    } else {
      assert (a + b)[1..] == a[1..] + b;
      ReadyCallsDistribute(a[1..], b);
    }
  }

  /** Readiness can still be reported to the generation: either no child
      exists yet or the child's readiness listener is still attached. */
  function ReadyBudget(p: Process): nat {
    if p.readyListener || !p.child then 1 else 0
  }

  /** One step spends at most the readiness it had: the callbacks it makes
      plus what is left afterwards never exceed what was there before. */
  predicate ReadySpent(p: Process, t: Transition) {
    ReadyCalls(Callbacks(t.effects)) + ReadyBudget(t.next) <= ReadyBudget(p)
  }

  /** The listener detaches after firing: the intended one always, the
      source's in listening mode. */
  predicate Detaches(p: Process, l: Listener) {
    l == Intended || p.app.readyOn == OnListening
  }

  lemma StepReadyCalls(p: Process, i: Input, l: Listener)
    requires Inv(p) && Detaches(p, l)
    ensures ReadySpent(p, Step(p, i, l))
  {
    if i.Report? {
      if l == Intended {
        OnceReportSpendsReadiness(p, i.report);
      } else {
        ReportSpendsReadiness(p, i.report);
      }
    } else {
      ApplySpendsReadiness(p, i);
    }
  }

  lemma ApplySpendsReadiness(p: Process, i: Input)
    requires !i.Report?
    ensures ReadySpent(p, Apply(p, i))
  {
    match i
    case RunSpawn(pid) => SpawnSpendsReadiness(p, pid);
    case DelayFires(pid) => SpawnSpendsReadiness(p, pid);
    case MoveTo(g) => MoveSpendsNoReadiness(p, g);
    case SendCommand(m) => SendSpendsNoReadiness(p, m);
    case ExitRuns(code, signal) => ExitSpendsNoReadiness(p, code, signal);
    case StopCommand => StopSpendsNoReadiness(p);
    case KillCommand(s, f) => KillSpendsNoReadiness(p, s, f);
    case StartTimerFires => TimeoutSpendsNoReadiness(p);
    case StopTimerFires => TimeoutSpendsNoReadiness(p);
    case SendStopCommand => SendStopSpendsNoReadiness(p);
    case SendKillCommand(s, f) => SendKillSpendsNoReadiness(p, s, f);
  }

  lemma MoveSpendsNoReadiness(p: Process, g: Option<Generation>)
    ensures ReadySpent(p, Move(p, g))
  {
    MoveDetachesFirst(p, g);
    ReadyCallsDistribute(if p.generation.Some? then [GenRemove] else [], if g.Some? then [GenAdd] else []);
  }

  lemma SendSpendsNoReadiness(p: Process, m: string)
    ensures ReadySpent(p, Transition(p, Send(p, m).1))
  {
    FiltersOfOne(SendToChild(m));
  }

  lemma ReportSpendsReadiness(p: Process, r: Readiness)
    requires Inv(p) && p.app.readyOn == OnListening
    ensures ReadySpent(p, ChildReports(p, r))
  {
    if p.readyListener {
      OnReadyReports(p.(readyListener := false));
    }
  }

  lemma OnceReportSpendsReadiness(p: Process, r: Readiness)
    requires Inv(p)
    ensures ReadySpent(p, ChildReportsOnce(p, r))
  {
    if p.readyListener {
      OnReadyReports(p.(readyListener := false));
    }
  }

  lemma SpawnSpendsReadiness(p: Process, pid: int)
    ensures ReadySpent(p, CreateProcess(p, pid))
    ensures ReadySpent(p, FireStartDelay(p, pid))
  {
    CreateProcessSilent(p, pid);
    if p.timers.startDelay.pending {
      CreateProcessSilent(p.(timers := p.timers.(startDelay := p.timers.startDelay.(pending := false),
                                                 start := p.timers.start.(held := false))), pid);
    }
  }

  lemma ExitSpendsNoReadiness(p: Process, code: int, signal: Option<Signal>)
    ensures ReadySpent(p, OnExit(p, code, signal))
  {
    OnExitReports(p, code, signal);
  }

  lemma StopSpendsNoReadiness(p: Process)
    ensures ReadySpent(p, Stop(p))
  {
    StopForwards(p);
  }

  lemma KillSpendsNoReadiness(p: Process, s: Option<Signal>, f: bool)
    ensures ReadySpent(p, Kill(p, s, f))
  {
    KillForwards(p, s, f);
  }

  lemma TimeoutSpendsNoReadiness(p: Process)
    ensures ReadySpent(p, FireStartTimeout(p))
    ensures ReadySpent(p, FireStopTimeout(p))
  {
    StartTimeoutReports(p);
    StopTimeoutReports(p);
  }

  lemma SendStopSpendsNoReadiness(p: Process)
    ensures ReadySpent(p, SendStop(p))
  {
    SendStopReports(p);
  }

  lemma SendKillSpendsNoReadiness(p: Process, s: Option<Signal>, f: bool)
    ensures ReadySpent(p, SendKill(p, s, f))
  {
    SendKillReports(p, s, f);
  }

  /** Over any run with a detaching listener, the generation is told at
      most once that the process is ready. */
  lemma {:induction false} ReadyNotifiedAtMostOnce(p: Process, inputs: seq<Input>, l: Listener)
    requires Inv(p) && Admissible(p, inputs, l) && Detaches(p, l)
    ensures ReadyCalls(Callbacks(Run(p, inputs, l).effects)) <= ReadyBudget(p)
    ensures ReadyCalls(Callbacks(Run(p, inputs, l).effects)) <= 1
    decreases |inputs|
  {
    if |inputs| > 0 {
      var first := Step(p, inputs[0], l);
      var rest := Run(first.next, inputs[1..], l);
      StepReadyCalls(p, inputs[0], l);
      ListenerStepPreservesInv(p, inputs[0], l);
      StepKeepsApp(p, inputs[0], l);
      ReadyNotifiedAtMostOnce(first.next, inputs[1..], l);
      FiltersDistribute(first.effects, rest.effects);
      ReadyCallsDistribute(Callbacks(first.effects), Callbacks(rest.effects));
    }
  }

  /** Synthetic exits a process may still defer: one from `sendStop` while
      the start delay is pending, one from the first `sendKill` without a child. */
  function ExitBudget(p: Process): nat {
    (if !p.terminated && !p.stopping && !p.killing && !p.child && p.timers.startDelay.held then 1 else 0)
    + (if !p.terminated && !p.killing && !p.child then 1 else 0)
  }

  /** One step defers no more exits than the budget it gives up. */
  predicate ExitsSpent(p: Process, t: Transition) {
    ScheduledExits(t.effects) + ExitBudget(t.next) <= ExitBudget(p)
  }

  lemma ListenerStepScheduledExits(p: Process, i: Input, l: Listener)
    ensures ExitsSpent(p, Step(p, i, l))
  {
    if l == Intended && i.Report? {
      OnceReportSpendsNoExit(p, i.report);
    } else {
      StepScheduledExits(p, i);
    }
  }

  lemma StepScheduledExits(p: Process, i: Input)
    ensures ExitsSpent(p, Apply(p, i))
  {
    if i.SendStopCommand? || i.SendKillCommand? || i.ExitRuns? || i.Report? || i.RunSpawn? || i.DelayFires? {
      LifecycleSpendsExits(p, i);
    } else {
      ForwardSpendsNoExit(p, i);
    }
  }

  lemma LifecycleSpendsExits(p: Process, i: Input)
    requires i.SendStopCommand? || i.SendKillCommand? || i.ExitRuns? || i.Report? || i.RunSpawn? || i.DelayFires?
    ensures ExitsSpent(p, Apply(p, i))
  {
    match i
    case SendStopCommand => SendStopSpendsExits(p);
    case SendKillCommand(s, f) => SendKillSpendsExits(p, s, f);
    case ExitRuns(code, signal) => OnExitReports(p, code, signal);
    case Report(r) => ReportSpendsNoExit(p, r);
    case RunSpawn(pid) => SpawnSpendsNoExit(p, pid);
    case DelayFires(pid) => SpawnSpendsNoExit(p, pid);
  }

  lemma ForwardSpendsNoExit(p: Process, i: Input)
    requires !(i.SendStopCommand? || i.SendKillCommand? || i.ExitRuns? || i.Report? || i.RunSpawn? || i.DelayFires?)
    ensures ExitsSpent(p, Apply(p, i))
  {
    match i
    case MoveTo(g) => MoveDetachesFirst(p, g);
    case StopCommand => StopForwards(p);
    case KillCommand(s, f) => KillForwards(p, s, f);
    case StartTimerFires => StartTimeoutReports(p);
    case StopTimerFires => StopTimeoutReports(p);
    case SendCommand(m) => FiltersOfOne(SendToChild(m));
  }

  lemma SendStopSpendsExits(p: Process)
    ensures ExitsSpent(p, SendStop(p))
  {
    SendStopReports(p);
  }

  lemma SendKillSpendsExits(p: Process, s: Option<Signal>, f: bool)
    ensures ExitsSpent(p, SendKill(p, s, f))
  {
    SendKillReports(p, s, f);
  }

  lemma ReportSpendsNoExit(p: Process, r: Readiness)
    ensures ExitsSpent(p, ChildReports(p, r))
  {
    OnReadyReports(p.(readyListener := p.app.readyOn == OnMessage));
  }

  lemma OnceReportSpendsNoExit(p: Process, r: Readiness)
    ensures ExitsSpent(p, ChildReportsOnce(p, r))
  {
    OnReadyReports(p.(readyListener := false));
  }

  lemma SpawnSpendsNoExit(p: Process, pid: int)
    ensures ExitsSpent(p, CreateProcess(p, pid))
    ensures ExitsSpent(p, FireStartDelay(p, pid))
  {
    CreateProcessSilent(p, pid);
    CreateProcessSilent(p.(timers := p.timers.(startDelay := p.timers.startDelay.(pending := false),
                                               start := p.timers.start.(held := false))), pid);
  }

  /** Over any run at most two exits are synthesized, and only one of them by
      `sendKill`, however often a kill is forced. */
  lemma {:induction false} SynthesizedExitsBounded(p: Process, inputs: seq<Input>, l: Listener)
    ensures ScheduledExits(Run(p, inputs, l).effects) <= ExitBudget(p)
    ensures ScheduledExits(Run(p, inputs, l).effects) <= 2
    decreases |inputs|
  {
    if |inputs| > 0 {
      var first := Step(p, inputs[0], l);
      ListenerStepScheduledExits(p, inputs[0], l);
      SynthesizedExitsBounded(first.next, inputs[1..], l);
      FiltersDistribute(first.effects, Run(first.next, inputs[1..], l).effects);
    }
  }

  /** The bound is reached: on a process whose spawn is delayed, `sendStop`
      followed by `sendKill` defers two exits, because `_onExit` is not
      guarded against running twice. */
  lemma StopThenKillSynthesizesTwoExits(p: Process, s: Option<Signal>, f: bool)
    requires !p.child && !p.terminated && !p.stopping && !p.killing && p.timers.startDelay.held
    ensures ScheduledExits(Run(p, [SendStopCommand, SendKillCommand(s, f)], AsWritten).effects) == 2
  {
    RunOfTwo(p, SendStopCommand, SendKillCommand(s, f), AsWritten);
    var stopped := SendStop(p);
    SendStopReports(p);
    SendKillReports(stopped.next, s, f);
    FiltersDistribute(stopped.effects, SendKill(stopped.next, s, f).effects);
  }

  /** A run of two inputs collects the effects of both steps in order. */
  lemma RunOfTwo(p: Process, a: Input, b: Input, l: Listener)
    ensures Run(p, [a, b], l).effects == Step(p, a, l).effects + Step(Step(p, a, l).next, b, l).effects
  {
    var q := Step(p, a, l).next;
    assert [a, b][1..] == [b];
    assert [b][1..] == [];
    assert Run(q, [b], l).effects == Step(q, b, l).effects + [];
  }

  /** As written, a message-mode process that has joined a generation tells
      it twice that it is ready when the child sends `ready` twice: the
      message listener is never removed. */
  lemma RepeatedReadyMessageNotifiesTwice(p: Process)
    requires p.app.readyOn == OnMessage && p.readyListener && p.generation.Some?
    requires !p.stopping && !p.killing && !p.timeout
    ensures var ready := Report(Message("ready"));
            ReadyCalls(Callbacks(Run(p, [ready, ready], AsWritten).effects)) == 2
  {
    var ready := Report(Message("ready"));
    RunOfTwo(p, ready, ready, AsWritten);
    var first := ChildReports(p, Message("ready"));
    assert first == OnReady(p);
    OnReadyReports(p);
    var q := first.next;
    assert ChildReports(q, Message("ready")) == OnReady(q);
    OnReadyReports(q);
    FiltersDistribute(first.effects, OnReady(q).effects);
    ReadyCallsDistribute([GenReady], [GenReady]);
    assert [GenReady][1..] == [];
  }

  /** The state above is reached right after construction: spawn the child
      and move the process into a generation. */
  lemma MessageModeProcessReachesRepeatedReady(app: App, options: Options, counter: nat, now: int, pid: int, g: Generation)
    requires app.readyOn == OnMessage && !TruthyNat(options.startDelay)
    ensures var p0 := Construct(app, options, counter, now).process;
            var p := Move(CreateProcess(p0, pid).next, Some(g)).next;
            && Inv(p) && Admissible(p0, [RunSpawn(pid), MoveTo(Some(g))], AsWritten)
            && p.readyListener && p.generation == Some(g) && p.app.readyOn == OnMessage
            && !p.stopping && !p.killing && !p.timeout
  {
    var p0 := Construct(app, options, counter, now).process;
    var p1 := CreateProcess(p0, pid).next;
    assert [RunSpawn(pid), MoveTo(Some(g))][1..] == [MoveTo(Some(g))];
    assert [MoveTo(Some(g))][1..] == [];
    ConstructEstablishesInv(app, options, counter, now);
    SpawnKeepsInv(p0, pid);
    ForwardsKeepInv(p1, Some(g), None, false);
  }

  /** A process whose spawn is delayed and that is stopped before the delay
      elapses is never spawned: the delay is cancelled, an exit with code 0
      and the stop signal is deferred, and a late delay firing does nothing. */
  lemma DelayedStopNeverSpawns(app: App, options: Options, counter: nat, now: int, pid: int)
    requires TruthyNat(options.startDelay)
    ensures var p := Construct(app, options, counter, now).process;
            var q := SendStop(p).next;
            ScheduleExit(0, app.stopSignal) in SendStop(p).effects
            && !q.child && !q.timers.startDelay.pending
            && FireStartDelay(q, pid) == Transition(q, [])
            && OnExit(q, 0, Some(app.stopSignal)).next.terminated
  {
    SendStopReports(Construct(app, options, counter, now).process);
  }

  // ---------------------------------------------------------------------
  // Ordering
  // ---------------------------------------------------------------------

  lemma CompareReflexive(a: Process)
    ensures Compare(a, a) == 0
  {
  }

  lemma CompareAntisymmetric(a: Process, b: Process)
    ensures Sign(Compare(a, b)) == -Sign(Compare(b, a))
  {
  }

  lemma CompareTransitive(a: Process, b: Process, c: Process)
    requires Compare(a, b) < 0 && Compare(b, c) < 0
    ensures Compare(a, c) < 0
  {
  }
}
