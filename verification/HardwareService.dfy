/** The hardware service as an object: the handle of its worker, devices waiting to be closed, and the stop flag
    (rust/driver/src/hardware_host.rs:2276-2429, 3299-3501). */
module HardwareService {
  import opened Wrappers
  import opened HardwareSite
  import opened OutputState
  import opened OutputTheorems
  import opened OutputRuns
  import opened HardwareLifecycle
  import opened LifecycleTheorems

  /** What a successful stop means for the physical banks. */
  lemma StoppedIsSafe(service: HardwareService)
    requires service.Valid() && service.worker.None? && service.retiring.None?
    ensures AllSafe(service.adapter, service.setup.plan, service.last)
  {
  }

  class HardwareService {
    const setup: Setup
    var worker: Option<Worker>
    var retiring: Option<Owner>
    var stopping: bool
    var pending: Option<Transient>
    /** The physical banks. */
    var adapter: Adapter
    var last: Lines

    ghost function View(): Service
      reads this
    {
      Service(worker, retiring, stopping, pending, adapter, last)
    }

    ghost predicate Valid()
      reads this
    {
      ServiceInv(setup, View())
    }

    constructor (setup: Setup)
      requires PlanFits(setup.plan)
      ensures Valid() && this.setup == setup && View() == LifecycleTheorems.Fresh(setup)
    {
      this.setup := setup;
      worker, retiring, stopping, pending := None, None, false, None;
      adapter := Adapter(Port(None, None), Port(None, None), 0, false);
      last := NewLines(setup.plan, setup.radio, 1);
    }

    /** Both banks are attempted even when one fails; a parallel port that closed is given up, a failed one is kept. */
    method CloseDevices(devices: Devices, lines: Lines, answers: CloseAnswers)
      returns (left: Devices, after: Lines, ok: bool)
      modifies `adapter
      ensures (left, after, adapter, ok) == CloseOutputs(setup.plan, devices, lines, old(adapter), answers)
    {
      left, after, ok := devices, SetEncoder(lines, false), true;
      if devices.cm119.Some? {
        ok := answers.pulse && answers.publish;
        if ok {
          adapter := Accept(adapter, Cm119, devices.cm119.value, Drive(after.cm119.byte, false));
          ok := answers.service;
        }
        if !ok {
          after := WithBank(after, Cm119, Rejected(after.cm119.bank));
        }
      }
      if devices.parallel.Some? {
        if answers.port {
          adapter := Accept(adapter, Parallel, devices.parallel.value, Drive(ClosingByte(setup.plan, after), false));
          adapter := Release(adapter, Parallel, devices.parallel);
          left := left.(parallel := None);
        } else {
          after := WithBank(after, Parallel, Rejected(after.parallel.bank));
          ok := false;
        }
      }
    }

    /** Opens every device of the plan at the safe baseline; a port that is not found drops the handle found before it. */
    method OpenDevices(lines: Lines, left: Lines, answers: OpenAnswers) returns (devices: Option<Devices>)
      modifies `adapter
      ensures (adapter, devices) == OpenAtOutputs(setup.plan, lines, left, old(adapter), answers)
    {
      var cm119: Option<nat>, parallel: Option<nat> := None, None;
      if !AllSafe(adapter, setup.plan, left) {
        adapter := Misuse(adapter);
      }
      if setup.plan.cm119.Some? {
        if !answers.cm119 {
          return None;
        }
        var found := Open(adapter, Cm119, Drive(lines.cm119.byte, false));
        adapter, cm119 := found.0, Some(found.1);
      }
      if setup.plan.parallel.Some? {
        if !answers.parallel {
          adapter := Release(adapter, Cm119, cm119);
          return None;
        }
        var found := Open(adapter, Parallel, Drive(ParallelOutput(setup.plan, lines.parallel.byte, false), false));
        adapter, parallel := found.0, Some(found.1);
      }
      return Some(Devices(cm119, parallel));
    }

    /** A service cycle: the commands waiting, then what each device accepts. */
    method ServeDevices(devices: Devices, lines: Lines, serve: ServeAnswers) returns (after: Lines)
      modifies `adapter
      ensures (after, adapter) == Serve(setup.plan, devices, lines, old(adapter), serve)
    {
      after := lines;
      for i := 0 to |serve.commands|
        invariant RunCommands(after, setup.plan, serve.commands[i..]) == RunCommands(lines, setup.plan, serve.commands)
        invariant adapter == old(adapter)
      {
        assert serve.commands[i..][1..] == serve.commands[i + 1..];
        after := Commands(after, setup.plan, serve.commands[i]);
      }
      if devices.cm119.Some? && serve.cm119.Some? {
        adapter := Accept(adapter, Cm119, devices.cm119.value, serve.cm119.value);
      }
      if devices.parallel.Some? && serve.parallel.Some? {
        adapter := Accept(adapter, Parallel, devices.parallel.value, serve.parallel.value);
      }
    }

    /** One turn of the loop of a worker that is not asked to stop: retry the retirement of its devices, serve them, or
      open new ones. */
    method Loop(w: Worker, turn: Turn) returns (next: Worker)
      requires w.Running?
      modifies `adapter
      ensures (next, adapter) == LoopTurn(setup, w, old(adapter), turn)
    {
      var lines, devices := w.lines, w.devices;
      if devices.Some? && w.retiring {
        var left, closed, ok := CloseDevices(devices.value, lines, turn.close);
        if !ok {
          return Running(Some(left), closed, true);
        }
        adapter := Drop(adapter, left);
        return Running(None, closed, false);
      }
      if devices.None? {
        devices := OpenDevices(lines, lines, turn.open);
        if devices.None? {
          return w;
        }
        var prepared := Prepare(lines, setup.plan, turn.open.cm119Caps, turn.open.parallelCaps, turn.open.encoder);
        lines := prepared.0;
        if !prepared.1 {
          return Running(devices, RetireSite(lines), true);
        }
      }
      lines := ServeDevices(devices.value, lines, turn.serve);
      var failed := !turn.serve.ok && !setup.native;
      return Running(devices, if failed then RetireSite(lines) else lines, failed);
    }

    /** How a worker ends: its outputs are retired, and devices that cannot be closed are handed back. */
    method End(w: Worker, close: CloseAnswers) returns (finished: Worker)
      modifies `adapter
      ensures (finished, adapter) == Finish(setup, w, old(adapter), close) && finished.Finished?
    {
      if w.Finished? {
        return w;
      }
      var retired := RetireSite(w.lines);
      if w.devices.None? {
        return Finished(None, retired);
      }
      var left, closed, ok := CloseDevices(w.devices.value, retired, close);
      if !ok {
        return Finished(Some(Owner(left, closed)), closed);
      }
      adapter := Drop(adapter, left);
      return Finished(None, closed);
    }

    /** Joins the worker and retries the retirement of devices that are left. */
    method Stop(finish: CloseAnswers, close: CloseAnswers) returns (ok: bool)
      requires Valid()
      modifies this
      ensures Valid() && (View(), ok) == HardwareLifecycle.Stop(setup, old(View()), finish, close)
      ensures worker.None? && (ok <==> retiring.None?)
    {
      hide CloseOutputs, Finish, Drop, Held, Closing, WorkerInv, OwnerInv;
      StopKeeps(setup, View(), finish, close);
      match worker {
        case Some(w) =>
          var finished := End(w, finish);
          stopping := true;
          worker := None;
          retiring := finished.left;
          last := finished.lines;
          if retiring.Some? {
            return false;
          }
        case None =>
          match retiring {
            case None =>
            case Some(owner) =>
              var left, closed, closes := CloseDevices(owner.devices, owner.lines, close);
              last := closed;
              if !closes {
                retiring := Some(Owner(left, closed));
                return false;
              }
              adapter := Drop(adapter, left);
              retiring := None;
          }
      }
      return true;
    }

    /** Asks a running worker to end; the service is kept until a later poll answers true. */
    method PollStop(close: CloseAnswers) returns (ok: bool)
      requires Valid()
      modifies this
      ensures Valid() && (View(), ok) == HardwareLifecycle.PollStop(setup, old(View()), close)
      ensures ok ==> worker.None? && retiring.None?
    {
      if worker.Some? && worker.value.Running? {
        stopping := true;
        return false;
      }
      ok := Stop(close, close);
    }

    /** Devices whose first cycle failed are retired and closed before the start reports its failure. */
    method Abandon(devices: Devices, lines: Lines, close: CloseAnswers)
      requires PlanFits(setup.plan) && (pending.Some? ==> TransientSafe(pending.value))
      requires worker.None? && Inv(lines, setup.plan) && lines.counter > 0 && Held(adapter, setup.plan, devices, lines)
      modifies this
      ensures Valid() && View() == AbandonStart(setup, old(View()), devices, lines, old(adapter), close)
    {
      var retired := RetireSite(lines);
      RetiredIsClosing(setup.plan, lines);
      HeldCarriesOver(adapter, setup.plan, devices, lines, retired);
      stopping := false;
      retiring := Some(Owner(devices, retired));
      last := retired;
      var stopped := Stop(close, close);
    }

    /** Opens the devices and starts the worker, after closing what an earlier attempt left over. */
    method Start(turn: Turn) returns (ok: bool)
      requires Valid()
      modifies this
      ensures Valid() && (View(), ok) == HardwareLifecycle.Start(setup, old(View()), turn)
    {
      StartKeeps(setup, View(), turn);
      if retiring.Some? {
        var stopped := Stop(turn.close, turn.close);
        if !stopped {
          return false;
        }
      }
      if worker.Some? {
        return true;
      }
      ok := StartFresh(turn);
    }

    method StartFresh(turn: Turn) returns (ok: bool)
      requires Valid() && worker.None? && retiring.None?
      modifies this
      ensures Valid() && (View(), ok) == HardwareLifecycle.StartFresh(setup, old(View()), turn)
    {
      hide OpenAtOutputs, Prepare, Serve, HardwareLifecycle.Stop, RetireSite, Held, Closing, WorkerInv, OwnerInv;
      StartFreshKeeps(setup, View(), turn);
      var plan := setup.plan;
      var outputs := NewLines(plan, setup.radio, last.counter);
      if pending.Some? {
        outputs := OutputState.Restore(outputs, pending.value, plan);
      }
      StartOpens(setup, View(), turn);
      var found := OpenDevices(outputs, last, turn.open);
      if found.None? {
        last := LeftAfterFailure(plan, outputs, last, turn.open);
        return false;
      }
      var prepared := Prepare(outputs, plan, turn.open.cm119Caps, turn.open.parallelCaps, turn.open.encoder);
      if !prepared.1 {
        Abandon(found.value, prepared.0, turn.close);
        return false;
      }
      var served := prepared.0;
      if !setup.native {
        served := ServeDevices(found.value, served, turn.serve);
        if !turn.serve.ok {
          Abandon(found.value, served, turn.close);
          return false;
        }
      }
      worker := Some(Running(found, served, false));
      stopping, pending := false, None;
      return true;
    }

    method Restore(state: Transient)
      requires Valid() && TransientSafe(state)
      modifies this
      ensures Valid() && View() == Act(setup, old(View()), Restores(state))
    {
      if worker.None? {
        pending := Some(state);
      }
    }

    /** One turn of the worker's thread: a turn of its loop, or its end once it has been asked to stop. */
    method WorkerTurn(turn: Turn)
      requires Valid()
      modifies this
      ensures Valid() && View() == Act(setup, old(View()), WorkerTurns(turn))
    {
      ActKeeps(setup, View(), WorkerTurns(turn));
      if worker.Some? && worker.value.Running? {
        var next;
        if stopping {
          next := End(worker.value, turn.close);
        } else {
          next := Loop(worker.value, turn);
        }
        worker := Some(next);
      }
    }
  }

  /** What a start that got its devices open may hand on. */
  lemma StartOpens(setup: Setup, s: Service, turn: Turn)
    requires ServiceInv(setup, s) && s.worker.None? && s.retiring.None?
    ensures var lines := InitialLines(setup, s);
            var (b, found) := OpenAtOutputs(setup.plan, lines, s.last, s.adapter, turn.open);
            found.Some? ==>
              var (prepared, ok) :=
                Prepare(lines, setup.plan, turn.open.cm119Caps, turn.open.parallelCaps, turn.open.encoder);
              && Inv(prepared, setup.plan) && prepared.counter > 0 && Held(b, setup.plan, found.value, prepared)
              && (ok ==>
                    var (served, driven) := Serve(setup.plan, found.value, prepared, b, turn.serve);
                    Inv(served, setup.plan) && served.counter > 0 && Held(driven, setup.plan, found.value, served))
  {
    var plan := setup.plan;
    var lines := InitialLines(setup, s);
    InitialLinesAreClosing(setup, s);
    OpenAtOutputsOpens(plan, lines, s.last, s.adapter, turn.open);
    var (b, found) := OpenAtOutputs(plan, lines, s.last, s.adapter, turn.open);
    if found.Some? {
      PreparePrepares(lines, plan, turn.open.cm119Caps, turn.open.parallelCaps, turn.open.encoder);
      var (prepared, ok) := Prepare(lines, plan, turn.open.cm119Caps, turn.open.parallelCaps, turn.open.encoder);
      HeldCarriesOver(b, plan, found.value, lines, prepared);
      if ok {
        ServeKeeps(plan, found.value, prepared, b, turn.serve);
      }
    }
  }
}
