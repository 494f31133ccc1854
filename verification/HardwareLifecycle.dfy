/** Start, stop and recovery of the hardware service under arbitrary device failures
    (rust/driver/src/hardware_host.rs:2276-2429, 2690-2806, 3299-3501), for a service without an external remote engine.
    One step is one call of the controlling thread or one turn of the worker's loop. */
module HardwareLifecycle {
  import opened Wrappers
  import opened HardwareSite
  import opened OutputState
  import opened OutputRuns

  // ----- the physical side -----

  /** What a bank was driven to: its byte and, on the CM119, the separate PTT line. */
  datatype Drive = Drive(byte: Mask, ptt: bool)

  /** The open handle of a bank, and the last drive it accepted. */
  datatype Port = Port(handle: Option<nat>, accepted: Option<Drive>)

  /** `misused` is set by a call through a handle that is not open, by closing one twice, and by opening devices while
      any handle is open or any bank was not left safe. */
  datatype Adapter = Adapter(cm119: Port, parallel: Port, nextHandle: nat, misused: bool)

  datatype Devices = Devices(cm119: Option<nat>, parallel: Option<nat>)

  function PortOf(a: Adapter, place: Place): Port {
    if place.Cm119? then a.cm119 else a.parallel
  }

  function WithPort(a: Adapter, place: Place, port: Port): Adapter {
    if place.Cm119? then a.(cm119 := port) else a.(parallel := port)
  }

  function Misuse(a: Adapter): Adapter {
    a.(misused := true)
  }

  function Accept(a: Adapter, place: Place, handle: nat, drive: Drive): Adapter {
    if PortOf(a, place).handle != Some(handle) then Misuse(a)
    else WithPort(a, place, PortOf(a, place).(accepted := Some(drive)))
  }

  function Release(a: Adapter, place: Place, handle: Option<nat>): Adapter {
    if handle.None? then a
    else if PortOf(a, place).handle != handle then Misuse(a)
    else WithPort(a, place, PortOf(a, place).(handle := None))
  }

  function Drop(a: Adapter, devices: Devices): Adapter {
    Release(Release(a, Cm119, devices.cm119), Parallel, devices.parallel)
  }

  function Open(a: Adapter, place: Place, drive: Drive): (Adapter, nat) {
    if PortOf(a, place).handle.Some? then (Misuse(a), a.nextHandle)
    else (WithPort(a, place, Port(Some(a.nextHandle), Some(drive))).(nextHandle := a.nextHandle + 1), a.nextHandle)
  }

  function OpenIf(a: Adapter, place: Place, present: bool, drive: Drive): (Adapter, Option<nat>) {
    if !present then (a, None)
    else
      var (found, handle) := Open(a, place, drive);
      (found, Some(handle))
  }

  // ----- what is safe -----

  function PttPins(plan: Plan): Mask {
    match plan.parallel case None => {} case Some(p) => p.ptt
  }

  /** The persistent byte with the PTT pins driven by polarity (hardware_host.rs:3850-3861). */
  function ParallelOutput(plan: Plan, persistent: Mask, ptt: bool): Mask {
    (persistent - PttPins(plan)) + (if ptt != plan.pttInverted then PttPins(plan) else {})
  }

  /** PTT is deasserted, every retained safe level is high and every pin a site claims is at its safe level. */
  predicate Safe(plan: Plan, lines: Lines, place: Place, drive: Drive) {
    && (if place.Cm119? then !drive.ptt
        else drive.byte * PttPins(plan) == (if plan.pttInverted then PttPins(plan) else {}))
    && drive.byte * SideOf(lines, place).bank.claimed
         == SideOf(lines, place).bank.safeHigh * SideOf(lines, place).bank.claimed
    && SideOf(lines, place).bank.safeHigh <= drive.byte
  }

  /** A bank without an open handle was left safe, if it ever accepted anything. */
  predicate LeftSafe(a: Adapter, plan: Plan, lines: Lines, place: Place) {
    PortOf(a, place).handle.None? && PortOf(a, place).accepted.Some? ==>
      Safe(plan, lines, place, PortOf(a, place).accepted.value)
  }

  predicate AllSafe(a: Adapter, plan: Plan, lines: Lines) {
    a.cm119.handle.None? && a.parallel.handle.None? && LeftSafe(a, plan, lines, Cm119) && LeftSafe(a, plan, lines, Parallel)
  }

  // ----- closing and opening -----

  /** The device answers of one attempt to close; `false` is a failure. */
  datatype CloseAnswers = CloseAnswers(pulse: bool, publish: bool, service: bool, port: bool)

  function CloseCm119(devices: Devices, lines: Lines, a: Adapter, answers: CloseAnswers): (Lines, Adapter, bool) {
    match devices.cm119
    case None => (lines, a, true)
    case Some(handle) =>
      var accepted := if answers.pulse && answers.publish then Accept(a, Cm119, handle, Drive(lines.cm119.byte, false)) else a;
      if answers.pulse && answers.publish && answers.service then (lines, accepted, true)
      else (WithBank(lines, Cm119, Rejected(lines.cm119.bank)), accepted, false)
  }

  /** The byte a closing parallel port is left with: safe levels, the idle encoder and PTT deasserted. */
  function ClosingByte(plan: Plan, lines: Lines): Mask {
    var safe := SafeHigh(lines.parallel.bank);
    var persistent := match lines.encoder
                      case Some(Encoder(Parallel, mask, inverted)) => (safe - mask) + (if inverted then mask else {})
                      case _ => safe;
    ParallelOutput(plan, persistent, false)
  }

  function CloseParallel(plan: Plan, devices: Devices, lines: Lines, a: Adapter, ok: bool): (Devices, Lines, Adapter, bool) {
    match devices.parallel
    case None => (devices, lines, a, true)
    case Some(handle) =>
      if ok then
        (devices.(parallel := None), lines,
         Release(Accept(a, Parallel, handle, Drive(ClosingByte(plan, lines), false)), Parallel, devices.parallel), true)
      else (devices, WithBank(lines, Parallel, Rejected(lines.parallel.bank)), a, false)
  }

  /** Both banks are attempted even when one fails; a parallel port that closed is given up, a failed one is kept. */
  function CloseOutputs(plan: Plan, devices: Devices, lines: Lines, a: Adapter, answers: CloseAnswers)
    : (Devices, Lines, Adapter, bool)
  {
    var idle := SetEncoder(lines, false);
    var (first, one, ok) := CloseCm119(devices, idle, a, answers);
    var (left, second, two, closed) := CloseParallel(plan, devices, first, one, answers.port);
    (left, second, two, ok && closed)
  }

  datatype OpenAnswers = OpenAnswers(
    cm119: bool, parallel: bool, cm119Caps: Option<Mask>, parallelCaps: Option<Mask>, encoder: Answer)

  /** Opens at the safe baseline; a port that cannot be found drops the handle found before it. `left` are the lines
      the devices were last closed with. */
  function OpenAtOutputs(plan: Plan, lines: Lines, left: Lines, a: Adapter, answers: OpenAnswers)
    : (Adapter, Option<Devices>)
  {
    var checked := if AllSafe(a, plan, left) then a else Misuse(a);
    if plan.cm119.Some? && !answers.cm119 then (checked, None)
    else
      var (one, cm119) := OpenIf(checked, Cm119, plan.cm119.Some?, Drive(lines.cm119.byte, false));
      if plan.parallel.Some? && !answers.parallel then (Release(one, Cm119, cm119), None)
      else
        var (two, parallel) :=
          OpenIf(one, Parallel, plan.parallel.Some?, Drive(ParallelOutput(plan, lines.parallel.byte, false), false));
        (two, Some(Devices(cm119, parallel)))
  }

  /** The lines each bank was left with after an attempt that failed: only a CM119 that was found has been driven anew. */
  function LeftAfterFailure(plan: Plan, lines: Lines, left: Lines, answers: OpenAnswers): Lines {
    lines.(cm119 := if plan.cm119.Some? && answers.cm119 then lines.cm119 else left.cm119, parallel := left.parallel)
  }

  // ----- the service -----

  datatype Setup = Setup(plan: Plan, native: bool, radio: Option<Radio>)

  /** Devices that could not be closed yet, with the lines they are to be closed with. */
  datatype Owner = Owner(devices: Devices, lines: Lines)

  datatype Worker =
    | Running(devices: Option<Devices>, lines: Lines, retiring: bool)
    | Finished(left: Option<Owner>, lines: Lines)

  /** `last` are the lines that each bank was left with by its latest owner, once there is none. */
  datatype Service = Service(
    worker: Option<Worker>, retiring: Option<Owner>, stopping: bool, pending: Option<Transient>, adapter: Adapter, last: Lines)

  datatype ServeAnswers = ServeAnswers(commands: seq<Event>, cm119: Option<Drive>, parallel: Option<Drive>, ok: bool)

  datatype Turn = Turn(close: CloseAnswers, open: OpenAnswers, serve: ServeAnswers)

  function RunCommands(lines: Lines, plan: Plan, events: seq<Event>): Lines
    decreases |events|
  {
    if events == [] then lines else RunCommands(Commands(lines, plan, events[0]), plan, events[1..])
  }

  function AcceptIf(a: Adapter, place: Place, handle: Option<nat>, drive: Option<Drive>): Adapter {
    if handle.Some? && drive.Some? then Accept(a, place, handle.value, drive.value) else a
  }

  /** A service cycle: any commands, and any drive each device accepted last. */
  function Serve(plan: Plan, devices: Devices, lines: Lines, a: Adapter, serve: ServeAnswers): (Lines, Adapter) {
    (RunCommands(lines, plan, serve.commands),
     AcceptIf(AcceptIf(a, Cm119, devices.cm119, serve.cm119), Parallel, devices.parallel, serve.parallel))
  }

  function ServeTurn(setup: Setup, devices: Devices, lines: Lines, a: Adapter, serve: ServeAnswers): (Worker, Adapter) {
    var (served, after) := Serve(setup.plan, devices, lines, a, serve);
    if serve.ok || setup.native then (Running(Some(devices), served, false), after)
    else (Running(Some(devices), RetireSite(served), true), after)
  }

  /** One turn of the worker's loop while it is not asked to stop. */
  function LoopTurn(setup: Setup, w: Worker, a: Adapter, turn: Turn): (Worker, Adapter)
    requires w.Running?
  {
    var plan := setup.plan;
    match w.devices
    case Some(devices) =>
      if w.retiring then
        var (left, lines, after, ok) := CloseOutputs(plan, devices, w.lines, a, turn.close);
        if ok then (Running(None, lines, false), Drop(after, left)) else (Running(Some(left), lines, true), after)
      else ServeTurn(setup, devices, w.lines, a, turn.serve)
    case None =>
      var (after, found) := OpenAtOutputs(plan, w.lines, w.lines, a, turn.open);
      match found
      case None => (w, after)
      case Some(devices) =>
        var (lines, ok) := Prepare(w.lines, plan, turn.open.cm119Caps, turn.open.parallelCaps, turn.open.encoder);
        if !ok then (Running(found, RetireSite(lines), true), after)
        else ServeTurn(setup, devices, lines, after, turn.serve)
  }

  /** How the worker ends: outputs are retired, and devices that cannot be closed are handed back. */
  function Finish(setup: Setup, w: Worker, a: Adapter, close: CloseAnswers): (Worker, Adapter)
  {
    match w
    case Finished(_, _) => (w, a)
    case Running(devices, lines, _) =>
      var retired := RetireSite(lines);
      match devices
      case None => (Finished(None, retired), a)
      case Some(d) =>
        var (left, closed, after, ok) := CloseOutputs(setup.plan, d, retired, a, close);
        if ok then (Finished(None, closed), Drop(after, left)) else (Finished(Some(Owner(left, closed)), closed), after)
  }

  /** `stop`: joins the worker, and retries the retirement of devices that are left. */
  function Stop(setup: Setup, s: Service, finish: CloseAnswers, close: CloseAnswers): (Service, bool) {
    match s.worker
    case Some(w) =>
      var (finished, after) := Finish(setup, w, s.adapter, finish);
      (s.(worker := None, retiring := finished.left, stopping := true, adapter := after, last := finished.lines),
       finished.left.None?)
    case None =>
      match s.retiring
      case None => (s, true)
      case Some(owner) =>
        var (left, lines, after, ok) := CloseOutputs(setup.plan, owner.devices, owner.lines, s.adapter, close);
        if ok then (s.(retiring := None, adapter := Drop(after, left), last := lines), true)
        else (s.(retiring := Some(Owner(left, lines)), adapter := after, last := lines), false)
  }

  /** `poll_stop` only asks a worker that has not finished. */
  function PollStop(setup: Setup, s: Service, close: CloseAnswers): (Service, bool) {
    if s.worker.Some? && s.worker.value.Running? then (s.(stopping := true), false)
    else Stop(setup, s, close, close)
  }

  function InitialLines(setup: Setup, s: Service): Lines {
    var lines := NewLines(setup.plan, setup.radio, s.last.counter);
    match s.pending case None => lines case Some(state) => Restore(lines, state, setup.plan)
  }

  /** Devices open, but the first cycle failed: retired and closed like any others. */
  function AbandonStart(setup: Setup, s: Service, devices: Devices, lines: Lines, a: Adapter, close: CloseAnswers)
    : Service
  {
    var retired := RetireSite(lines);
    Stop(setup, s.(stopping := false, retiring := Some(Owner(devices, retired)), adapter := a, last := retired), close, close).0
  }

  function StartFresh(setup: Setup, s: Service, turn: Turn): (Service, bool) {
    var lines := InitialLines(setup, s);
    var (after, found) := OpenAtOutputs(setup.plan, lines, s.last, s.adapter, turn.open);
    match found
    case None => (s.(adapter := after, last := LeftAfterFailure(setup.plan, lines, s.last, turn.open)), false)
    case Some(devices) =>
      var (prepared, ok) := Prepare(lines, setup.plan, turn.open.cm119Caps, turn.open.parallelCaps, turn.open.encoder);
      if !ok then (AbandonStart(setup, s, devices, prepared, after, turn.close), false)
      else if setup.native then
        (s.(worker := Some(Running(found, prepared, false)), stopping := false, pending := None, adapter := after), true)
      else
        var (served, driven) := Serve(setup.plan, devices, prepared, after, turn.serve);
        if !turn.serve.ok then (AbandonStart(setup, s, devices, served, driven, turn.close), false)
        else (s.(worker := Some(Running(found, served, false)), stopping := false, pending := None, adapter := driven), true)
  }

  /** `start`: devices left over are closed first, and a running service is left alone. */
  function Start(setup: Setup, s: Service, turn: Turn): (Service, bool) {
    var (s1, stopped) := if s.retiring.Some? then Stop(setup, s, turn.close, turn.close) else (s, true);
    if !stopped then (s1, false)
    else if s1.worker.Some? then (s1, true)
    else StartFresh(setup, s1, turn)
  }

  datatype Action =
    | Starts(turn: Turn)
    | Stops(finish: CloseAnswers, close: CloseAnswers)
    | Polls(close: CloseAnswers)
    | WorkerTurns(turn: Turn)
    | Restores(state: Transient)

  function Act(setup: Setup, s: Service, action: Action): Service {
    match action
    case Starts(turn) => Start(setup, s, turn).0
    case Stops(finish, close) => Stop(setup, s, finish, close).0
    case Polls(close) => PollStop(setup, s, close).0
    case WorkerTurns(turn) =>
      if s.worker.Some? && s.worker.value.Running? then
        var (w, after) := if s.stopping then Finish(setup, s.worker.value, s.adapter, turn.close)
                          else LoopTurn(setup, s.worker.value, s.adapter, turn);
        s.(worker := Some(w), adapter := after)
      else s
    case Restores(state) => if s.worker.None? then s.(pending := Some(state)) else s
  }
}
