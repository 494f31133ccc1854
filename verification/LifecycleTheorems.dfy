/** Over every run of start, stop, polling and worker turns, with any device failing at any time: at most one owner of
    each device, nothing reopened before everything was left safe, and a stop that succeeds leaves PTT deasserted and
    site pins at their safe levels. */
module LifecycleTheorems {
  import opened Wrappers
  import opened HardwareSite
  import opened OutputState
  import opened OutputTheorems
  import opened OutputRuns
  import opened HardwareLifecycle

  // ----- invariants -----

  /** The handles are exactly the ones the adapter has open, and a bank without one was left safe. */
  ghost predicate Held(a: Adapter, plan: Plan, devices: Devices, lines: Lines) {
    && !a.misused
    && a.cm119.handle == devices.cm119 && a.parallel.handle == devices.parallel
    && (a.cm119.handle.Some? ==> a.cm119.accepted.Some?) && (a.parallel.handle.Some? ==> a.parallel.accepted.Some?)
    && (plan.cm119.None? ==> devices.cm119.None? && a.cm119.accepted.None?)
    && (plan.parallel.None? ==> devices.parallel.None? && a.parallel.accepted.None?)
    && LeftSafe(a, plan, lines, Cm119) && LeftSafe(a, plan, lines, Parallel)
  }

  const NO_DEVICES := Devices(None, None)

  /** Lines whose owner may be waiting to close. */
  ghost predicate Closing(plan: Plan, lines: Lines) {
    Inv(lines, plan) && Resting(lines) && lines.counter > 0
  }

  ghost predicate OwnerInv(setup: Setup, owner: Owner, a: Adapter) {
    Closing(setup.plan, owner.lines) && Held(a, setup.plan, owner.devices, owner.lines)
  }

  ghost predicate Complete(plan: Plan, devices: Devices) {
    (plan.cm119.Some? <==> devices.cm119.Some?) && (plan.parallel.Some? <==> devices.parallel.Some?)
  }

  ghost predicate RunningInv(setup: Setup, w: Worker, a: Adapter)
    requires w.Running?
  {
    match w.devices
    case None => Closing(setup.plan, w.lines) && Held(a, setup.plan, NO_DEVICES, w.lines) && !w.retiring
    case Some(devices) =>
      if w.retiring then OwnerInv(setup, Owner(devices, w.lines), a)
      else Prepared(w.lines, setup.plan) && w.lines.counter > 0 && Complete(setup.plan, devices)
           && Held(a, setup.plan, devices, w.lines)
  }

  ghost predicate WorkerInv(setup: Setup, w: Worker, a: Adapter) {
    match w
    case Running(_, _, _) => RunningInv(setup, w, a)
    case Finished(Some(owner), lines) => OwnerInv(setup, owner, a) && owner.lines == lines
    case Finished(None, lines) => Closing(setup.plan, lines) && Held(a, setup.plan, NO_DEVICES, lines)
  }

  ghost predicate ServiceInv(setup: Setup, s: Service) {
    && PlanFits(setup.plan)
    && (s.pending.Some? ==> TransientSafe(s.pending.value))
    && (s.worker.Some? ==> s.retiring.None? && WorkerInv(setup, s.worker.value, s.adapter) && s.last.counter > 0)
    && (s.worker.None? && s.retiring.Some? ==>
          OwnerInv(setup, s.retiring.value, s.adapter) && s.last.counter > 0)
    && (s.worker.None? && s.retiring.None? ==>
          Closing(setup.plan, s.last) && Held(s.adapter, setup.plan, NO_DEVICES, s.last))
  }

  // ----- closing -----

  /** Two lines that claim the same pins with the same safe levels. */
  ghost predicate SameClaims(a: Lines, b: Lines) {
    && a.cm119.bank.claimed == b.cm119.bank.claimed && a.cm119.bank.safeHigh == b.cm119.bank.safeHigh
    && a.parallel.bank.claimed == b.parallel.bank.claimed && a.parallel.bank.safeHigh == b.parallel.bank.safeHigh
  }

  lemma ClosingByteIsSafe(plan: Plan, lines: Lines)
    requires Inv(lines, plan)
    ensures Safe(plan, lines, Parallel, Drive(ClosingByte(plan, lines), false))
    ensures forall pin | pin in BYTE && pin !in PttPins(plan) ::
              pin in ClosingByte(plan, lines) <==>
                if pin in EncoderPins(lines, Parallel) then lines.encoder.value.inverted
                else pin in lines.parallel.bank.safeHigh
  {
    assert PttPins(plan) !! lines.parallel.bank.safeHigh by {
      assert PttPins(plan) <= lines.parallel.bank.reserved;
    }
    assert EncoderPins(lines, Parallel) !! lines.parallel.bank.safeHigh;
  }

  lemma RestingByteIsSafe(plan: Plan, lines: Lines)
    requires Closing(plan, lines)
    ensures Safe(plan, lines, Cm119, Drive(lines.cm119.byte, false))
  {
  }

  lemma CloseCm119Closes(plan: Plan, devices: Devices, lines: Lines, a: Adapter, answers: CloseAnswers)
    requires Closing(plan, lines) && Held(a, plan, devices, lines)
    ensures var (after, b, ok) := CloseCm119(devices, lines, a, answers);
            && Closing(plan, after) && SameClaims(after, lines) && Held(b, plan, devices, after)
            && (ok && devices.cm119.Some? ==> b.cm119.accepted == Some(Drive(lines.cm119.byte, false)))
            && after.cm119.byte == lines.cm119.byte
  {
  }

  lemma CloseParallelCloses(plan: Plan, devices: Devices, lines: Lines, a: Adapter, answer: bool)
    requires Closing(plan, lines) && Held(a, plan, devices, lines)
    ensures var (left, after, b, ok) := CloseParallel(plan, devices, lines, a, answer);
            && Closing(plan, after) && SameClaims(after, lines) && Held(b, plan, left, after)
            && left.cm119 == devices.cm119 && b.cm119 == a.cm119
            && (ok ==> left.parallel.None?)
  {
  }

  ghost predicate CloseAnswered(devices: Devices, answers: CloseAnswers) {
    && (devices.cm119.Some? ==> answers.pulse && answers.publish && answers.service)
    && (devices.parallel.Some? ==> answers.port)
  }

  /** Whatever fails, the devices left over are exactly those still open; success leaves only the CM119 handle, driven
      safe. */
  lemma CloseOutputsCloses(plan: Plan, devices: Devices, lines: Lines, a: Adapter, answers: CloseAnswers)
    requires Closing(plan, lines) && Held(a, plan, devices, lines)
    ensures var (left, after, b, ok) := CloseOutputs(plan, devices, lines, a, answers);
            && Closing(plan, after) && Held(b, plan, left, after) && SameClaims(after, lines)
            && (ok <==> CloseAnswered(devices, answers))
            && (ok ==> Held(Drop(b, left), plan, NO_DEVICES, after))
  {
    var idle := SetEncoder(lines, false);
    SetEncoderRests(lines, plan);
    assert SameClaims(idle, lines) && idle.counter == lines.counter;
    assert Held(a, plan, devices, idle);
    CloseCm119Closes(plan, devices, idle, a, answers);
    var (first, one, ok) := CloseCm119(devices, idle, a, answers);
    CloseParallelCloses(plan, devices, first, one, answers.port);
    var (left, second, two, closed) := CloseParallel(plan, devices, first, one, answers.port);
    RestingByteIsSafe(plan, idle);
    if ok && closed {
      DroppedIsSafe(plan, left, second, two);
    }
  }

  /** Giving up the last handle of a bank that was driven safe. */
  lemma DroppedIsSafe(plan: Plan, left: Devices, lines: Lines, a: Adapter)
    requires Held(a, plan, left, lines) && left.parallel.None?
    requires left.cm119.Some? ==> a.cm119.accepted.Some? && Safe(plan, lines, Cm119, a.cm119.accepted.value)
    ensures Held(Drop(a, left), plan, NO_DEVICES, lines)
  {
  }

  lemma HeldCarriesOver(a: Adapter, plan: Plan, devices: Devices, before: Lines, after: Lines)
    requires Held(a, plan, devices, before)
    requires SameClaims(before, after) || Complete(plan, devices)
    ensures Held(a, plan, devices, after)
  {
  }

  lemma RetiredIsClosing(plan: Plan, lines: Lines)
    requires Inv(lines, plan) && lines.counter > 0
    ensures Closing(plan, RetireSite(lines)) && SameClaims(lines, RetireSite(lines))
  {
  }

  // ----- opening -----

  ghost predicate OpenAnswered(plan: Plan, answers: OpenAnswers) {
    (plan.cm119.Some? ==> answers.cm119) && (plan.parallel.Some? ==> answers.parallel)
  }

  /** Each bank was driven to the levels of its lines when it was opened, with PTT deasserted. */
  ghost predicate OpenedAtBaseline(a: Adapter, plan: Plan, lines: Lines) {
    && (plan.cm119.Some? ==> a.cm119.accepted == Some(Drive(lines.cm119.byte, false)))
    && (plan.parallel.Some? ==>
          && a.parallel.accepted.Some?
          && a.parallel.accepted.value.byte - PttPins(plan) == lines.parallel.byte - PttPins(plan)
          && a.parallel.accepted.value.byte * PttPins(plan) == (if plan.pttInverted then PttPins(plan) else {}))
  }

  /** All devices are opened, or none stays open; either way each bank without a handle is still safe. */
  lemma OpenAtOutputsOpens(plan: Plan, lines: Lines, left: Lines, a: Adapter, answers: OpenAnswers)
    requires Closing(plan, lines) && Held(a, plan, NO_DEVICES, left)
    ensures var (b, devices) := OpenAtOutputs(plan, lines, left, a, answers);
            && (devices.Some? <==> OpenAnswered(plan, answers))
            && match devices
               case None => Held(b, plan, NO_DEVICES, LeftAfterFailure(plan, lines, left, answers))
               case Some(d) => Complete(plan, d) && Held(b, plan, d, lines) && OpenedAtBaseline(b, plan, lines)
  {
  }

  // ----- serving -----

  lemma {:induction false} RunCommandsKeepPrepared(lines: Lines, plan: Plan, events: seq<Event>)
    requires Prepared(lines, plan) && lines.counter > 0
    ensures Prepared(RunCommands(lines, plan, events), plan) && RunCommands(lines, plan, events).counter > 0
    decreases |events|
  {
    if events != [] {
      CommandsKeepPrepared(lines, plan, events[0]);
      CommandsKeepTokens(lines, plan, events[0], Cm119);
      RunCommandsKeepPrepared(Commands(lines, plan, events[0]), plan, events[1..]);
    }
  }

  lemma ServeKeeps(plan: Plan, devices: Devices, lines: Lines, a: Adapter, serve: ServeAnswers)
    requires Prepared(lines, plan) && lines.counter > 0 && Complete(plan, devices) && Held(a, plan, devices, lines)
    ensures var (served, b) := Serve(plan, devices, lines, a, serve);
            Prepared(served, plan) && served.counter > 0 && Held(b, plan, devices, served)
  {
    RunCommandsKeepPrepared(lines, plan, serve.commands);
  }

  lemma ServeTurnKeeps(setup: Setup, devices: Devices, lines: Lines, a: Adapter, serve: ServeAnswers)
    requires Prepared(lines, setup.plan) && lines.counter > 0 && Complete(setup.plan, devices)
    requires Held(a, setup.plan, devices, lines)
    ensures var (w, b) := ServeTurn(setup, devices, lines, a, serve);
            WorkerInv(setup, w, b)
  {
    ServeKeeps(setup.plan, devices, lines, a, serve);
    var (served, b) := Serve(setup.plan, devices, lines, a, serve);
    RetiredIsClosing(setup.plan, served);
    HeldCarriesOver(b, setup.plan, devices, served, RetireSite(served));
  }

  // ----- the worker -----

  lemma RetiringTurnKeeps(setup: Setup, w: Worker, a: Adapter, turn: Turn)
    requires w.Running? && w.devices.Some? && w.retiring && RunningInv(setup, w, a)
    ensures var (next, b) := LoopTurn(setup, w, a, turn);
            WorkerInv(setup, next, b)
  {
    CloseOutputsCloses(setup.plan, w.devices.value, w.lines, a, turn.close);
  }

  lemma ReopeningTurnKeeps(setup: Setup, w: Worker, a: Adapter, turn: Turn)
    requires w.Running? && w.devices.None? && RunningInv(setup, w, a)
    ensures var (next, b) := LoopTurn(setup, w, a, turn);
            WorkerInv(setup, next, b)
  {
    var plan := setup.plan;
    OpenAtOutputsOpens(plan, w.lines, w.lines, a, turn.open);
    var (b, found) := OpenAtOutputs(plan, w.lines, w.lines, a, turn.open);
    if found.Some? {
      PreparePrepares(w.lines, plan, turn.open.cm119Caps, turn.open.parallelCaps, turn.open.encoder);
      var (lines, ok) := Prepare(w.lines, plan, turn.open.cm119Caps, turn.open.parallelCaps, turn.open.encoder);
      HeldCarriesOver(b, plan, found.value, w.lines, lines);
      if ok {
        ServeTurnKeeps(setup, found.value, lines, b, turn.serve);
      } else {
        RetiredIsClosing(plan, lines);
        HeldCarriesOver(b, plan, found.value, lines, RetireSite(lines));
      }
    }
  }

  lemma LoopTurnKeeps(setup: Setup, w: Worker, a: Adapter, turn: Turn)
    requires w.Running? && RunningInv(setup, w, a)
    ensures var (next, b) := LoopTurn(setup, w, a, turn);
            WorkerInv(setup, next, b)
  {
    match w.devices {
      case None => ReopeningTurnKeeps(setup, w, a, turn);
      case Some(devices) =>
        if w.retiring {
          RetiringTurnKeeps(setup, w, a, turn);
        } else {
          ServeTurnKeeps(setup, devices, w.lines, a, turn.serve);
        }
    }
  }

  /** A worker that ends either gave every device up safely or hands back exactly those it could not close. */
  lemma FinishKeeps(setup: Setup, w: Worker, a: Adapter, close: CloseAnswers)
    requires WorkerInv(setup, w, a)
    ensures var (next, b) := Finish(setup, w, a, close);
            WorkerInv(setup, next, b) && next.Finished?
  {
    match w {
      case Finished(_, _) =>
      case Running(devices, lines, retiring) =>
        RetiredIsClosing(setup.plan, lines);
        match devices {
          case None => HeldCarriesOver(a, setup.plan, NO_DEVICES, lines, RetireSite(lines));
          case Some(d) =>
            HeldCarriesOver(a, setup.plan, d, lines, RetireSite(lines));
            CloseOutputsCloses(setup.plan, d, RetireSite(lines), a, close);
        }
    }
  }

  // ----- the controlling thread -----

  lemma StopKeeps(setup: Setup, s: Service, finish: CloseAnswers, close: CloseAnswers)
    requires ServiceInv(setup, s)
    ensures var (after, ok) := Stop(setup, s, finish, close);
            && ServiceInv(setup, after) && after.worker.None? && (ok <==> after.retiring.None?)
            && after.pending == s.pending && after.stopping == (s.stopping || s.worker.Some?)
  {
    match s.worker {
      case Some(w) =>
        FinishKeeps(setup, w, s.adapter, finish);
      case None =>
        match s.retiring {
          case None =>
          case Some(owner) =>
            CloseOutputsCloses(setup.plan, owner.devices, owner.lines, s.adapter, close);
        }
    }
  }

  lemma InitialLinesAreClosing(setup: Setup, s: Service)
    requires ServiceInv(setup, s) && s.worker.None? && s.retiring.None?
    ensures var lines := InitialLines(setup, s);
            Closing(setup.plan, lines) && lines.encoder == None && s.last.counter <= lines.counter
            && lines.pulses == Pulses({}, {})
  {
  }

  lemma LeftLinesAreClosing(plan: Plan, lines: Lines, left: Lines, answers: OpenAnswers)
    requires Closing(plan, lines) && Closing(plan, left) && lines.encoder == None && left.counter <= lines.counter
    requires lines.pulses == Pulses({}, {})
    ensures Closing(plan, LeftAfterFailure(plan, lines, left, answers))
  {
  }

  lemma AbandonStartKeeps(setup: Setup, s: Service, devices: Devices, lines: Lines, a: Adapter, close: CloseAnswers)
    requires ServiceInv(setup, s) && s.worker.None? && Inv(lines, setup.plan) && lines.counter > 0
    requires Held(a, setup.plan, devices, lines)
    ensures ServiceInv(setup, AbandonStart(setup, s, devices, lines, a, close))
  {
    RetiredIsClosing(setup.plan, lines);
    HeldCarriesOver(a, setup.plan, devices, lines, RetireSite(lines));
    var retired := RetireSite(lines);
    StopKeeps(setup, s.(stopping := false, retiring := Some(Owner(devices, retired)), adapter := a, last := retired),
              close, close);
  }

  lemma StartFreshKeeps(setup: Setup, s: Service, turn: Turn)
    requires ServiceInv(setup, s) && s.worker.None? && s.retiring.None?
    ensures ServiceInv(setup, StartFresh(setup, s, turn).0)
  {
    var plan := setup.plan;
    var lines := InitialLines(setup, s);
    InitialLinesAreClosing(setup, s);
    LeftLinesAreClosing(plan, lines, s.last, turn.open);
    OpenAtOutputsOpens(plan, lines, s.last, s.adapter, turn.open);
    var (b, found) := OpenAtOutputs(plan, lines, s.last, s.adapter, turn.open);
    if found.Some? {
      var devices := found.value;
      PreparePrepares(lines, plan, turn.open.cm119Caps, turn.open.parallelCaps, turn.open.encoder);
      var (prepared, ok) := Prepare(lines, plan, turn.open.cm119Caps, turn.open.parallelCaps, turn.open.encoder);
      HeldCarriesOver(b, plan, devices, lines, prepared);
      if !ok {
        AbandonStartKeeps(setup, s, devices, prepared, b, turn.close);
      } else if !setup.native {
        ServeKeeps(plan, devices, prepared, b, turn.serve);
        var (served, driven) := Serve(plan, devices, prepared, b, turn.serve);
        if !turn.serve.ok {
          AbandonStartKeeps(setup, s, devices, served, driven, turn.close);
        }
      }
    }
  }

  lemma StartKeeps(setup: Setup, s: Service, turn: Turn)
    requires ServiceInv(setup, s)
    ensures ServiceInv(setup, Start(setup, s, turn).0)
  {
    if s.retiring.Some? {
      StopKeeps(setup, s, turn.close, turn.close);
      var (s1, stopped) := Stop(setup, s, turn.close, turn.close);
      if stopped {
        StartFreshKeeps(setup, s1, turn);
      }
    } else if s.worker.None? {
      StartFreshKeeps(setup, s, turn);
    }
  }

  // ----- runs -----

  ghost predicate Sensible(action: Action) {
    action.Restores? ==> TransientSafe(action.state)
  }

  lemma ActKeeps(setup: Setup, s: Service, action: Action)
    requires ServiceInv(setup, s) && Sensible(action)
    ensures ServiceInv(setup, Act(setup, s, action))
  {
    match action {
      case Starts(turn) => StartKeeps(setup, s, turn);
      case Stops(finish, close) => StopKeeps(setup, s, finish, close);
      case Polls(close) =>
        if !(s.worker.Some? && s.worker.value.Running?) {
          StopKeeps(setup, s, close, close);
        }
      case WorkerTurns(turn) =>
        if s.worker.Some? && s.worker.value.Running? {
          if s.stopping {
            FinishKeeps(setup, s.worker.value, s.adapter, turn.close);
          } else {
            LoopTurnKeeps(setup, s.worker.value, s.adapter, turn);
          }
        }
      case Restores(state) =>
    }
  }

  ghost predicate AllSensible(actions: seq<Action>) {
    forall k | 0 <= k < |actions| :: Sensible(actions[k])
  }

  ghost function RunActions(setup: Setup, s: Service, actions: seq<Action>): Service
    decreases |actions|
  {
    if actions == [] then s else RunActions(setup, Act(setup, s, actions[0]), actions[1..])
  }

  lemma {:induction false} RunActionsKeep(setup: Setup, s: Service, actions: seq<Action>)
    requires ServiceInv(setup, s) && AllSensible(actions)
    ensures ServiceInv(setup, RunActions(setup, s, actions))
    decreases |actions|
  {
    if actions != [] {
      ActKeeps(setup, s, actions[0]);
      RunActionsKeep(setup, Act(setup, s, actions[0]), actions[1..]);
    }
  }

  /** A service that has never been started. */
  ghost function Fresh(setup: Setup): (s: Service)
    requires PlanFits(setup.plan)
    ensures ServiceInv(setup, s)
  {
    NewLinesKeepInv(setup.plan, setup.radio, 1);
    Service(None, None, false, None, Adapter(Port(None, None), Port(None, None), 0, false),
            NewLines(setup.plan, setup.radio, 1))
  }

  /** In every run no call goes through a handle that is not open, no handle is closed twice, and devices are opened
      only when no handle is open and every bank was left safe; and never more than one owner holds devices. */
  lemma DevicesAreNeverMisused(setup: Setup, actions: seq<Action>)
    requires PlanFits(setup.plan) && AllSensible(actions)
    ensures var s := RunActions(setup, Fresh(setup), actions);
            && !s.adapter.misused
            && !(s.worker.Some? && s.retiring.Some?)
            && (s.worker.None? && s.retiring.None? ==> s.adapter.cm119.handle.None? && s.adapter.parallel.handle.None?)
  {
    RunActionsKeep(setup, Fresh(setup), actions);
  }

  /** After any run, a stop that reports success leaves no handle open, and the last drive each bank accepted has PTT
      deasserted, every retained safe level high, whether a site claims the pin or not, and every claimed pin at its safe
      level. A bank whose handle was open has accepted one. */
  lemma SuccessfulStopIsSafe(setup: Setup, actions: seq<Action>, finish: CloseAnswers, close: CloseAnswers)
    requires PlanFits(setup.plan) && AllSensible(actions)
    requires Stop(setup, RunActions(setup, Fresh(setup), actions), finish, close).1
    ensures var after := Stop(setup, RunActions(setup, Fresh(setup), actions), finish, close).0;
            && after.worker.None? && after.retiring.None?
            && AllSafe(after.adapter, setup.plan, after.last)
            && (forall place :: PortOf(RunActions(setup, Fresh(setup), actions).adapter, place).handle.Some?
                                ==> PortOf(after.adapter, place).accepted.Some?)
  {
    var s := RunActions(setup, Fresh(setup), actions);
    RunActionsKeep(setup, Fresh(setup), actions);
    StopKeeps(setup, s, finish, close);
    forall place | PortOf(s.adapter, place).handle.Some?
      ensures PortOf(Stop(setup, s, finish, close).0.adapter, place).accepted.Some?
    {
      StopKeepsAccepted(setup, s, finish, close, place);
    }
  }

  lemma CloseKeepsAccepted(
      plan: Plan, devices: Devices, lines: Lines, a: Adapter, answers: CloseAnswers, place: Place)
    requires PortOf(a, place).accepted.Some?
    ensures var (left, _, b, _) := CloseOutputs(plan, devices, lines, a, answers);
            PortOf(b, place).accepted.Some? && PortOf(Drop(b, left), place).accepted.Some?
  {
  }

  lemma StopKeepsAccepted(setup: Setup, s: Service, finish: CloseAnswers, close: CloseAnswers, place: Place)
    requires ServiceInv(setup, s) && PortOf(s.adapter, place).handle.Some?
    ensures PortOf(Stop(setup, s, finish, close).0.adapter, place).accepted.Some?
  {
    match s.worker {
      case Some(Running(Some(devices), lines, _)) =>
        CloseKeepsAccepted(setup.plan, devices, RetireSite(lines), s.adapter, finish, place);
      case Some(_) =>
      case None =>
        CloseKeepsAccepted(setup.plan, s.retiring.value.devices, s.retiring.value.lines, s.adapter, close, place);
    }
  }

  /** A stop that fails keeps every open device with its owner, so that it can be tried again. */
  lemma FailedStopKeepsOwner(setup: Setup, actions: seq<Action>, finish: CloseAnswers, close: CloseAnswers)
    requires PlanFits(setup.plan) && AllSensible(actions)
    requires !Stop(setup, RunActions(setup, Fresh(setup), actions), finish, close).1
    ensures var after := Stop(setup, RunActions(setup, Fresh(setup), actions), finish, close).0;
            && after.retiring.Some?
            && after.retiring.value.devices == Devices(after.adapter.cm119.handle, after.adapter.parallel.handle)
            && Resting(after.retiring.value.lines)
  {
    RunActionsKeep(setup, Fresh(setup), actions);
    StopKeeps(setup, RunActions(setup, Fresh(setup), actions), finish, close);
  }

  /** As soon as the devices answer again, one more stop succeeds. */
  lemma StopSucceedsWhenDevicesAnswer(setup: Setup, s: Service, finish: CloseAnswers)
    requires ServiceInv(setup, s)
    ensures var answering := CloseAnswers(true, true, true, true);
            Stop(setup, Stop(setup, s, finish, answering).0, answering, answering).1
  {
  }

  /** A stopped service starts when every device answers, and then owns all of its devices. */
  lemma StartSucceedsWhenDevicesAnswer(setup: Setup, s: Service, turn: Turn)
    requires ServiceInv(setup, s) && s.worker.None? && s.retiring.None?
    requires turn.open.cm119 && turn.open.parallel && turn.open.cm119Caps.Some? && turn.open.parallelCaps.Some?
    requires turn.serve.ok
    ensures var (after, ok) := Start(setup, s, turn);
            && ok && ServiceInv(setup, after) && after.worker.Some? && after.worker.value.Running?
            && after.worker.value.devices.Some? && Complete(setup.plan, after.worker.value.devices.value)
            && !after.stopping && after.pending.None?
  {
    InitialLinesAreClosing(setup, s);
    StartKeeps(setup, s, turn);
    assert InitialLines(setup, s).encoder == None;
  }

  // ----- what the worker does next -----

  /** A worker that serves its devices goes on serving exactly if the cycle succeeds, or its failures are the business of a
      native engine; else it retires its outputs and is to close. Its commands have been carried out either way. */
  lemma ServingTurn(setup: Setup, w: Worker, a: Adapter, turn: Turn)
    requires w.Running? && w.devices.Some? && !w.retiring && RunningInv(setup, w, a)
    ensures var next := LoopTurn(setup, w, a, turn).0;
            var commanded := RunCommands(w.lines, setup.plan, turn.serve.commands);
            && next.Running? && next.devices == w.devices
            && (next.retiring <==> !turn.serve.ok && !setup.native)
            && next.lines == (if next.retiring then RetireSite(commanded) else commanded)
            && (next.retiring ==> Resting(next.lines))
  {
    LoopTurnKeeps(setup, w, a, turn);
  }

  /** A worker that is to close its devices tries again until all of them are closed. */
  lemma RetiringTurn(setup: Setup, w: Worker, a: Adapter, turn: Turn)
    requires w.Running? && w.devices.Some? && w.retiring && RunningInv(setup, w, a)
    ensures var next := LoopTurn(setup, w, a, turn).0;
            && next.Running?
            && (next.devices.None? <==> CloseAnswered(w.devices.value, turn.close))
            && (next.retiring <==> next.devices.Some?)
            && SameClaims(next.lines, w.lines)
  {
    CloseOutputsCloses(setup.plan, w.devices.value, w.lines, a, turn.close);
  }

  ghost predicate PrepareAnswered(plan: Plan, lines: Lines, answers: OpenAnswers) {
    && (plan.cm119.Some? ==> answers.cm119Caps.Some?) && (plan.parallel.Some? ==> answers.parallelCaps.Some?)
    && (lines.encoder.Some? ==> HasDevice(plan, lines.encoder.value.place) && answers.encoder.Done?)
  }

  /** A worker without devices opens them as soon as all are found, and serves them once its outputs are prepared. */
  lemma ReopeningTurn(setup: Setup, w: Worker, a: Adapter, turn: Turn)
    requires w.Running? && w.devices.None? && RunningInv(setup, w, a)
    ensures var next := LoopTurn(setup, w, a, turn).0;
            && next.Running?
            && (next.devices.Some? <==> OpenAnswered(setup.plan, turn.open))
            && (next.devices.None? ==> next == w)
            && (next.devices.Some? ==>
                  && Complete(setup.plan, next.devices.value)
                  && (next.retiring <==> !PrepareAnswered(setup.plan, w.lines, turn.open)
                                         || (!turn.serve.ok && !setup.native)))
  {
    var plan := setup.plan;
    hide ServeTurn;
    OpenAtOutputsOpens(plan, w.lines, w.lines, a, turn.open);
    var (b, found) := OpenAtOutputs(plan, w.lines, w.lines, a, turn.open);
    PreparePrepares(w.lines, plan, turn.open.cm119Caps, turn.open.parallelCaps, turn.open.encoder);
    if found.Some? {
      var lines := Prepare(w.lines, plan, turn.open.cm119Caps, turn.open.parallelCaps, turn.open.encoder).0;
      ServeTurnAnswers(setup, found.value, lines, b, turn.serve);
    }
  }

  lemma ServeTurnAnswers(setup: Setup, devices: Devices, lines: Lines, a: Adapter, serve: ServeAnswers)
    ensures var next := ServeTurn(setup, devices, lines, a, serve).0;
            next.Running? && next.devices == Some(devices) && (next.retiring <==> !serve.ok && !setup.native)
  {
  }

  ghost predicate Serving(s: Service) {
    s.worker.Some? && s.worker.value.Running? && s.worker.value.devices.Some? && !s.worker.value.retiring && !s.stopping
  }

  /** After a failed cycle and as soon as the devices answer, the worker leaves every bank safe, opens all devices again and
      serves them. */
  lemma FailedCycleRecovers(setup: Setup, s: Service, failing: Turn, closing: Turn, opening: Turn)
    requires ServiceInv(setup, s) && Serving(s) && !setup.native && !failing.serve.ok
    requires closing.close == CloseAnswers(true, true, true, true)
    requires OpenAnswered(setup.plan, opening.open) && opening.serve.ok
    ensures var closed := Act(setup, Act(setup, s, WorkerTurns(failing)), WorkerTurns(closing));
            var reopened := Act(setup, closed, WorkerTurns(opening));
            && closed.worker.Some? && closed.worker.value.Running? && closed.worker.value.devices.None?
            && AllSafe(closed.adapter, setup.plan, closed.worker.value.lines)
            && (PrepareAnswered(setup.plan, closed.worker.value.lines, opening.open) ==>
                  Serving(reopened) && Complete(setup.plan, reopened.worker.value.devices.value))
  {
    hide LoopTurn;
    ServingTurn(setup, s.worker.value, s.adapter, failing);
    LoopTurnKeeps(setup, s.worker.value, s.adapter, failing);
    var (w1, a1) := LoopTurn(setup, s.worker.value, s.adapter, failing);
    RetiringTurn(setup, w1, a1, closing);
    LoopTurnKeeps(setup, w1, a1, closing);
    var (w2, a2) := LoopTurn(setup, w1, a1, closing);
    ReopeningTurn(setup, w2, a2, opening);
  }

  /** The commands of a cycle are carried out one after the other. */
  lemma {:induction false} CommandsInTurn(lines: Lines, plan: Plan, first: seq<Event>, second: seq<Event>)
    ensures RunCommands(lines, plan, first + second) == RunCommands(RunCommands(lines, plan, first), plan, second)
    decreases |first|
  {
    if first == [] {
      assert first + second == second;
    } else {
      assert (first + second)[1..] == first[1..] + second;
      CommandsInTurn(Commands(lines, plan, first[0]), plan, first[1..], second);
    }
  }

  // ----- what the controlling thread does -----

  /** A start leaves a running service alone. */
  lemma StartLeavesWorkerAlone(setup: Setup, s: Service, turn: Turn)
    requires ServiceInv(setup, s) && s.worker.Some?
    ensures Start(setup, s, turn) == (s, true)
  {
  }

  /** A start first closes what an earlier attempt left open, and goes on as from a stopped service once that succeeds; until
      then it fails. */
  lemma StartClosesLeftovers(setup: Setup, s: Service, turn: Turn)
    requires ServiceInv(setup, s) && s.retiring.Some?
    ensures var (stopped, closed) := Stop(setup, s, turn.close, turn.close);
            && (closed <==> CloseAnswered(s.retiring.value.devices, turn.close))
            && (closed ==> stopped.retiring.None? && Start(setup, s, turn) == Start(setup, stopped, turn))
            && (!closed ==> Start(setup, s, turn) == (stopped, false))
  {
    hide StartFresh, CloseOutputs;
    StopKeeps(setup, s, turn.close, turn.close);
    CloseOutputsCloses(setup.plan, s.retiring.value.devices, s.retiring.value.lines, s.adapter, turn.close);
  }

  /** Without restored state a start drives the configured initial levels and programs the configured radio. */
  lemma InitialLinesAreConfigured(setup: Setup, s: Service)
    requires s.pending.None?
    ensures var plan, lines := setup.plan, InitialLines(setup, s);
            && lines.cm119.byte == (if plan.cm119.Some? then plan.cm119.value.initial else {})
            && lines.parallel.byte == (if plan.parallel.Some? then plan.parallel.value.initial else {})
            && lines.cm119.bank.safeHigh == lines.parallel.bank.safeHigh == {}
            && lines.radio == RadioState(setup.radio, setup.radio.Some?, None) && lines.encoder == None
  {
  }

  /** Polled stopping of a running service: the first poll only asks; once the worker has had a turn with answering devices
      the next one succeeds, with every bank left safe. */
  lemma PolledStopCompletes(setup: Setup, s: Service, close: CloseAnswers, last: Turn)
    requires ServiceInv(setup, s) && s.worker.Some? && s.worker.value.Running?
    requires last.close == CloseAnswers(true, true, true, true)
    ensures PollStop(setup, s, close) == (s.(stopping := true), false)
    ensures var ended := Act(setup, s.(stopping := true), WorkerTurns(last));
            var (after, ok) := PollStop(setup, ended, close);
            && ended.worker.Some? && ended.worker.value.Finished?
            && ok && after.worker.None? && after.retiring.None? && AllSafe(after.adapter, setup.plan, after.last)
  {
    var asked := s.(stopping := true);
    ActKeeps(setup, asked, WorkerTurns(last));
    FinishesWhenAnswered(setup, s.worker.value, s.adapter, last.close);
    var ended := Act(setup, asked, WorkerTurns(last));
    StopKeeps(setup, ended, close, close);
  }

  lemma FinishesWhenAnswered(setup: Setup, w: Worker, a: Adapter, close: CloseAnswers)
    requires WorkerInv(setup, w, a) && w.Running? && close == CloseAnswers(true, true, true, true)
    ensures var (finished, _) := Finish(setup, w, a, close);
            finished.Finished? && finished.left.None?
  {
  }

  /** Restored state waits for the next start that succeeds, however many fail before. */
  lemma PendingWaitsForStart(setup: Setup, s: Service, turn: Turn, state: Transient)
    requires ServiceInv(setup, s)
    ensures var (after, ok) := Start(setup, s, turn);
            after.pending == if ok && s.worker.None? then None else s.pending
    ensures s.worker.None? ==> Act(setup, s, Restores(state)) == s.(pending := Some(state))
  {
    hide StartFresh, Stop;
    if s.retiring.Some? {
      StopKeeps(setup, s, turn.close, turn.close);
      StartFreshPending(setup, Stop(setup, s, turn.close, turn.close).0, turn);
    }
    StartFreshPending(setup, s, turn);
  }

  lemma StartFreshPending(setup: Setup, s: Service, turn: Turn)
    ensures var (after, ok) := StartFresh(setup, s, turn);
            after.pending == if ok then None else s.pending
  {
    hide InitialLines, OpenAtOutputs, Prepare, CloseOutputs, Serve, RetireSite, LeftAfterFailure;
  }

  /** A start after a restoration drives what was restored: on each bank with a device the enabled pins have their former
      levels, and exactly the former safe levels that still apply are kept. */
  lemma StartUsesRestoredState(setup: Setup, s: Service, turn: Turn, state: Transient, place: Place)
    requires ServiceInv(setup, s) && s.worker.None? && s.retiring.None? && TransientSafe(state)
    requires turn.open.cm119 && turn.open.parallel && turn.open.cm119Caps.Some? && turn.open.parallelCaps.Some?
    requires turn.serve.ok && turn.serve.commands == [] && HasDevice(setup.plan, place)
    ensures var (after, ok) := Start(setup, Act(setup, s, Restores(state)), turn);
            && ok && after.worker.Some? && after.worker.value.Running?
            && Restored(setup.plan, state, after.worker.value.lines, place)
  {
    hide Prepare, OpenAtOutputs, Restore, NewLines;
    var r := Act(setup, s, Restores(state));
    StartServesPrepared(setup, r, turn);
    InitialLinesAreRestored(setup, r, state);
    InitialLinesAreClosing(setup, r);
    var lines, caps := InitialLines(setup, r), turn.open;
    PreparePrepares(lines, setup.plan, caps.cm119Caps, caps.parallelCaps, caps.encoder);
    PrepareKeepsSafeLevels(lines, setup.plan, caps.cm119Caps.value, caps.parallelCaps.value, caps.encoder, place);
  }

  lemma StartServesPrepared(setup: Setup, s: Service, turn: Turn)
    requires ServiceInv(setup, s) && s.worker.None? && s.retiring.None?
    requires turn.open.cm119 && turn.open.parallel && turn.open.cm119Caps.Some? && turn.open.parallelCaps.Some?
    requires turn.serve.ok && turn.serve.commands == []
    ensures var (after, ok) := Start(setup, s, turn);
            && ok && after.worker.Some? && after.worker.value.Running?
            && after.worker.value.lines
                 == Prepare(InitialLines(setup, s), setup.plan, turn.open.cm119Caps, turn.open.parallelCaps, turn.open.encoder).0
  {
    hide Prepare, InitialLines, OpenAtOutputs;
    InitialLinesAreClosing(setup, s);
    var lines := InitialLines(setup, s);
    OpenAtOutputsOpens(setup.plan, lines, s.last, s.adapter, turn.open);
    PreparePrepares(lines, setup.plan, turn.open.cm119Caps, turn.open.parallelCaps, turn.open.encoder);
  }

  lemma InitialLinesAreRestored(setup: Setup, s: Service, state: Transient)
    requires PlanFits(setup.plan) && s.pending == Some(state) && TransientSafe(state)
    ensures var plan, lines := setup.plan, InitialLines(setup, s);
            && (plan.cm119.Some? ==>
                  && lines.cm119.byte * plan.cm119.value.outputs == state.cm119 * plan.cm119.value.outputs
                  && lines.cm119.bank.safeHigh == state.cm119SafeHigh * plan.cm119.value.outputs)
            && (plan.parallel.Some? ==>
                  && lines.parallel.byte == state.parallel - plan.parallel.value.ptt
                  && lines.parallel.bank.safeHigh
                       == state.parallelSafeHigh * plan.parallel.value.outputs - plan.parallel.value.ptt
                  && lines.radio.settings == state.radio && lines.radio.dirty == state.radio.Some?)
  {
  }

  ghost predicate Restored(plan: Plan, state: Transient, lines: Lines, place: Place)
    requires HasDevice(plan, place)
  {
    match place
    case Cm119 =>
      && lines.cm119.byte * plan.cm119.value.outputs == state.cm119 * plan.cm119.value.outputs
      && lines.cm119.bank.safeHigh == state.cm119SafeHigh * lines.cm119.bank.outputs - lines.cm119.bank.reserved
    case Parallel =>
      && lines.parallel.byte == state.parallel - plan.parallel.value.ptt
      && lines.parallel.bank.safeHigh == state.parallelSafeHigh * lines.parallel.bank.outputs - lines.parallel.bank.reserved
      && lines.radio.settings == state.radio && lines.radio.dirty == state.radio.Some?
  }

  // ----- the last binding decides -----

  lemma {:induction false} CommandsKeepLastBinding(lines: Lines, plan: Plan, events: seq<Event>, place: Place)
    requires Prepared(lines, plan) && lines.counter > 0
    requires forall k | 0 <= k < |events| :: !(events[k].Bound? && events[k].place == place)
    ensures var before, after := SideOf(lines, place).bank, SideOf(RunCommands(lines, plan, events), place).bank;
            && after.claimed == before.claimed
            && after.safeHigh * after.claimed == before.safeHigh * before.claimed
    decreases |events|
  {
    if events != [] {
      CommandsKeepBinding(lines, plan, events[0], place);
      CommandsKeepPrepared(lines, plan, events[0]);
      CommandsKeepTokens(lines, plan, events[0], place);
      CommandsKeepLastBinding(Commands(lines, plan, events[0]), plan, events[1..], place);
    }
  }

  /** A successful stop leaves each bank of a serving worker with its claimed pins at the safe levels kept for them. */
  lemma StopDrivesClaims(setup: Setup, s: Service, finish: CloseAnswers, close: CloseAnswers, place: Place)
    requires ServiceInv(setup, s) && Serving(s) && HasDevice(setup.plan, place)
    requires Stop(setup, s, finish, close).1
    ensures var bank := SideOf(s.worker.value.lines, place).bank;
            var drive := PortOf(Stop(setup, s, finish, close).0.adapter, place).accepted;
            drive.Some? && drive.value.byte * bank.claimed == bank.safeHigh * bank.claimed
  {
    var w := s.worker.value;
    var retired := RetireSite(w.lines);
    RetiredIsClosing(setup.plan, w.lines);
    HeldCarriesOver(s.adapter, setup.plan, w.devices.value, w.lines, retired);
    CloseOutputsCloses(setup.plan, w.devices.value, retired, s.adapter, finish);
    StopKeepsAccepted(setup, s, finish, close, place);
    StopKeeps(setup, s, finish, close);
  }

  /** The safe levels of the last binding are what a bank is left with: whatever else happens between an accepted binding
      and a successful stop, each bound pin then stands at the level that the binding gave for it. */
  lemma BindingDecidesTheStop(
      setup: Setup, s: Service, before: Lines, binding: Binding, answer: Answer, later: seq<Event>,
      finish: CloseAnswers, close: CloseAnswers, place: Place)
    requires ServiceInv(setup, s) && Serving(s) && HasDevice(setup.plan, place)
    requires Prepared(before, setup.plan) && before.counter > 0
    requires s.worker.value.lines == RunCommands(before, setup.plan, [Bound(place, binding, answer)] + later)
    requires Bind(SideOf(before, place), binding, before.counter).1.None? && answer.Done?
    requires forall k | 0 <= k < |later| :: !(later[k].Bound? && later[k].place == place)
    requires Stop(setup, s, finish, close).1
    ensures var drive := PortOf(Stop(setup, s, finish, close).0.adapter, place).accepted;
            drive.Some? && drive.value.byte * binding.outputMask == binding.safeHigh
  {
    var bound := Commands(before, setup.plan, Bound(place, binding, answer));
    assert ([Bound(place, binding, answer)] + later)[1..] == later;
    CommandsKeepPrepared(before, setup.plan, Bound(place, binding, answer));
    CommandsKeepTokens(before, setup.plan, Bound(place, binding, answer), place);
    SiteBindTakesEffect(before, setup.plan, place, binding, answer);
    BindKeepsOwned(SideOf(before, place), binding, before.counter);
    CommandsKeepLastBinding(bound, setup.plan, later, place);
    StopDrivesClaims(setup, s, finish, close, place);
  }
}
