/** Whole runs of one hardware service over its output lines: any commands in any order while devices are ready,
    retirement at any time, and rebuilding any number of times (rust/driver/src/hardware_host.rs:3299-3546). */
module OutputRuns {
  import opened Wrappers
  import opened HardwareSite
  import opened OutputState
  import opened OutputTheorems

  datatype Event =
    | Bound(place: Place, binding: Binding, answer: Answer)
    | Published(place: Place, request: Request)
    | Commanded(place: Place, bit: Mask, output: OutputRequest, answer: Answer)
    | ChannelSelected(channel: Mask, answer: Answer)
    | RadioConfigured(settings: Radio)
    | RadioServiced(ptt: bool, answer: Answer)
    | ClipPulsed(answer: Answer)
    | EncoderSet(active: bool)
    | EncoderBound(encoder: Option<Encoder>, answer: Answer)
    | PulsesEnded(place: Place, mask: Mask)
    | Retired
    | Rebuilt(cm119Caps: Option<Mask>, parallelCaps: Option<Mask>, answer: Answer)

  /** `ready`: devices are open and prepared, so commands are serviced. */
  datatype Machine = Machine(lines: Lines, ready: bool)

  predicate EncoderFits(lines: Lines, encoder: Option<Encoder>) {
    encoder.Some? ==>
      encoder.value.mask <= BYTE && encoder.value.mask !! SideOf(lines, encoder.value.place).bank.claimed
  }

  /** One command to ready lines. Taking over an encoder pin that a site owns would stop the program. */
  function Commands(lines: Lines, plan: Plan, event: Event): Lines {
    match event
    case Bound(place, binding, answer) => SiteBind(lines, plan, place, binding, answer).0
    case Published(place, request) => SitePublish(lines, place, request)
    case Commanded(place, bit, output, answer) => Ordinary(lines, plan, place, bit, output, answer).0
    case ChannelSelected(channel, answer) => SelectChannel(lines, plan, channel, answer).0
    case RadioConfigured(settings) => ConfigureRadio(lines, settings).0
    case RadioServiced(ptt, answer) => ServiceRadio(lines, plan, ptt, answer).0
    case ClipPulsed(answer) => ClipPulse(lines, plan, answer).0
    case EncoderSet(active) => SetEncoder(lines, active)
    case EncoderBound(encoder, answer) =>
      if EncoderFits(lines, encoder) then BindEncoder(lines, plan, encoder, answer).0 else lines
    case PulsesEnded(place, mask) => WithPulses(lines, place, PulsesOn(lines, place) - mask)
    case _ => lines
  }

  /** Retirement may come at any time; devices are rebuilt only after it, and a failed rebuild retires again. */
  ghost function Step(m: Machine, plan: Plan, event: Event): Machine {
    match event
    case Retired => Machine(RetireSite(m.lines), false)
    case Rebuilt(cm119Caps, parallelCaps, answer) =>
      if m.ready then m
      else
        var (after, ok) := Prepare(m.lines, plan, cm119Caps, parallelCaps, answer);
        Machine(if ok then after else RetireSite(after), ok)
    case _ => if m.ready then m.(lines := Commands(m.lines, plan, event)) else m
  }

  ghost predicate MachineInv(m: Machine, plan: Plan) {
    && Inv(m.lines, plan) && m.lines.counter > 0
    && (m.ready ==> Prepared(m.lines, plan))
    && (!m.ready ==> Resting(m.lines))
  }

  lemma EncoderBoundKeepsPrepared(lines: Lines, plan: Plan, encoder: Option<Encoder>, answer: Answer)
    requires Prepared(lines, plan) && EncoderFits(lines, encoder)
    ensures Prepared(BindEncoder(lines, plan, encoder, answer).0, plan)
  {
    BindEncoderPrepares(lines, plan, encoder, answer);
  }

  lemma CommandsKeepPrepared(lines: Lines, plan: Plan, event: Event)
    requires Prepared(lines, plan)
    ensures Prepared(Commands(lines, plan, event), plan)
  {
    match event {
      case Bound(place, binding, answer) => SiteBindKeepsPrepared(lines, plan, place, binding, answer);
      case Published(place, request) => SitePublishKeepsPrepared(lines, plan, place, request);
      case Commanded(place, bit, output, answer) => OrdinaryKeepsPrepared(lines, plan, place, bit, output, answer);
      case ChannelSelected(channel, answer) => SelectChannelKeepsPrepared(lines, plan, channel, answer);
      case RadioConfigured(settings) => ConfigureRadioKeepsPrepared(lines, plan, settings);
      case RadioServiced(ptt, answer) => ServiceRadioKeepsPrepared(lines, plan, ptt, answer);
      case ClipPulsed(answer) => ClipPulseKeepsPrepared(lines, plan, answer);
      case EncoderSet(active) => SetEncoderKeepsInv(lines, plan, active);
      case EncoderBound(encoder, answer) =>
        if EncoderFits(lines, encoder) {
          EncoderBoundKeepsPrepared(lines, plan, encoder, answer);
        }
      case PulsesEnded(place, mask) =>
      case _ =>
    }
  }

  /** Claims and the safe levels of claimed pins are the matter of bindings alone. */
  lemma CommandsKeepBinding(lines: Lines, plan: Plan, event: Event, place: Place)
    requires Prepared(lines, plan) && !(event.Bound? && event.place == place)
    ensures var before, after := SideOf(lines, place).bank, SideOf(Commands(lines, plan, event), place).bank;
            && after.claimed == before.claimed
            && after.safeHigh * after.claimed == before.safeHigh * before.claimed
  {
  }

  /** No operation hands a token out twice. */
  lemma CommandsKeepTokens(lines: Lines, plan: Plan, event: Event, place: Place)
    ensures var after := Commands(lines, plan, event);
            && lines.counter <= after.counter
            && (SideOf(after, place).bank.generation == SideOf(lines, place).bank.generation
                || SideOf(after, place).bank.generation == Token(lines.counter))
  {
  }

  lemma StepKeepsMachineInv(m: Machine, plan: Plan, event: Event)
    requires MachineInv(m, plan)
    ensures MachineInv(Step(m, plan, event), plan)
  {
    match event {
      case Retired =>
        RetireSiteMakesSafe(m.lines, plan, Cm119);
      case Rebuilt(cm119Caps, parallelCaps, answer) =>
        if !m.ready {
          PreparePrepares(m.lines, plan, cm119Caps, parallelCaps, answer);
          RetireSiteMakesSafe(Prepare(m.lines, plan, cm119Caps, parallelCaps, answer).0, plan, Cm119);
        }
      case _ =>
        if m.ready {
          CommandsKeepPrepared(m.lines, plan, event);
          CommandsKeepTokens(m.lines, plan, event, Cm119);
        }
    }
  }

  ghost function Run(m: Machine, plan: Plan, events: seq<Event>): Machine
    decreases |events|
  {
    if events == [] then m else Run(Step(m, plan, events[0]), plan, events[1..])
  }

  lemma {:induction false} RunKeepsMachineInv(m: Machine, plan: Plan, events: seq<Event>)
    requires MachineInv(m, plan)
    ensures MachineInv(Run(m, plan, events), plan)
    decreases |events|
  {
    if events != [] {
      StepKeepsMachineInv(m, plan, events[0]);
      RunKeepsMachineInv(Step(m, plan, events[0]), plan, events[1..]);
    }
  }

  /** A stopped service about to start, with or without restored state. */
  ghost function Stopped(plan: Plan, radio: Option<Radio>, counter: nat, state: Option<Transient>): (m: Machine)
    requires PlanFits(plan) && counter > 0 && (state.Some? ==> TransientSafe(state.value))
    ensures MachineInv(m, plan)
  {
    NewLinesKeepInv(plan, radio, counter);
    match state
    case None => Machine(NewLines(plan, radio, counter), false)
    case Some(s) =>
      RestoreKeepsInv(plan, radio, counter, s);
      Machine(Restore(NewLines(plan, radio, counter), s, plan), false)
  }

  /** After any run from a stopped service, restored or not: claims are available pins that nobody else reserves, no
      pulse runs on a claimed pin, safe levels are kept only for such pins, and each one that is unclaimed is high in
      the output byte. While devices are ready, radio signalling has its pins. */
  lemma OwnershipOverRuns(
      plan: Plan, radio: Option<Radio>, counter: nat, state: Option<Transient>, events: seq<Event>, place: Place)
    requires PlanFits(plan) && counter > 0 && (state.Some? ==> TransientSafe(state.value))
    ensures var m := Run(Stopped(plan, radio, counter, state), plan, events);
            var side := SideOf(m.lines, place);
            && side.bank.claimed <= side.bank.outputs <= BYTE && side.bank.claimed !! side.bank.reserved
            && side.bank.safeHigh <= side.bank.outputs - side.bank.reserved
            && side.bank.safeHigh - side.bank.claimed <= side.byte
            && PulsesOn(m.lines, place) !! side.bank.claimed
            && EncoderPins(m.lines, place) !! side.bank.claimed
            && (m.ready && m.lines.radio.settings.Some? && plan.parallel.Some? ==>
                  RTX_PINS !! m.lines.parallel.bank.claimed)
            && TransientSafe(Snapshot(m.lines))
  {
    var m := Run(Stopped(plan, radio, counter, state), plan, events);
    RunKeepsMachineInv(Stopped(plan, radio, counter, state), plan, events);
    SnapshotIsSafe(m.lines, plan);
  }

  /** Which pins a step may move: a site request only claimed ones, a bind only pins that the old or the new owner
      claims, retirement claimed ones and the encoder pin, and everything else never a claimed one. */
  lemma StepMovesOnly(m: Machine, plan: Plan, event: Event, place: Place)
    requires MachineInv(m, plan)
    ensures var before := SideOf(m.lines, place);
            var after := SideOf(Step(m, plan, event).lines, place);
            var moved := Changed(before.byte, after.byte);
            match event
            case Published(p, request) => moved <= (if p == place then before.bank.claimed else {})
            case Bound(p, binding, _) => moved <= (if p == place then before.bank.claimed + after.bank.claimed else {})
            case Retired => moved <= before.bank.claimed + EncoderPins(m.lines, place)
            case Rebuilt(_, _, _) => moved <= EncoderPins(m.lines, place)
            case _ => moved !! before.bank.claimed && after.bank.claimed == before.bank.claimed
  {
    match event {
      case Published(p, request) => ApplyKeepsOwned(SideOf(m.lines, p), request);
      case Bound(p, binding, answer) => BindMovesOnly(m.lines, plan, p, binding, answer, place);
      case Retired => RetireSiteMakesSafe(m.lines, plan, place);
      case Rebuilt(cm119Caps, parallelCaps, answer) =>
        if !m.ready {
          RebuildMovesOnlyEncoder(m.lines, plan, cm119Caps, parallelCaps, answer, place);
        }
      case _ =>
        if m.ready {
          CommandMovesNoClaimedPin(m.lines, plan, event, place);
        }
    }
  }

  lemma BindMovesOnly(lines: Lines, plan: Plan, p: Place, binding: Binding, answer: Answer, place: Place)
    requires Inv(lines, plan)
    ensures var after := SideOf(SiteBind(lines, plan, p, binding, answer).0, place);
            Changed(SideOf(lines, place).byte, after.byte)
              <= (if p == place then SideOf(lines, place).bank.claimed + after.bank.claimed else {})
  {
  }

  lemma CommandMovesNoClaimedPin(lines: Lines, plan: Plan, event: Event, place: Place)
    requires Prepared(lines, plan) && !event.Published? && !event.Bound?
    ensures var before := SideOf(lines, place);
            var after := SideOf(Commands(lines, plan, event), place);
            Changed(before.byte, after.byte) !! before.bank.claimed && after.bank.claimed == before.bank.claimed
  {
    match event {
      case Commanded(p, bit, output, answer) =>
      case ChannelSelected(channel, answer) => ReserveKeepsOwned(lines.parallel, BINARY_PINS);
      case RadioConfigured(settings) => ReserveKeepsOwned(lines.parallel, RTX_PINS);
      case RadioServiced(ptt, answer) =>
      case ClipPulsed(answer) =>
      case EncoderSet(active) => SetEncoderKeepsInv(lines, plan, active);
      case EncoderBound(encoder, answer) => EncoderMovesNoClaimedPin(lines, plan, encoder, answer, place);
      case PulsesEnded(p, mask) =>
      case _ =>
    }
  }

  lemma EncoderMovesNoClaimedPin(lines: Lines, plan: Plan, encoder: Option<Encoder>, answer: Answer, place: Place)
    requires Inv(lines, plan)
    ensures var after := if EncoderFits(lines, encoder) then BindEncoder(lines, plan, encoder, answer).0 else lines;
            && Changed(SideOf(lines, place).byte, SideOf(after, place).byte) !! SideOf(lines, place).bank.claimed
            && SideOf(after, place).bank.claimed == SideOf(lines, place).bank.claimed
  {
  }

  lemma RebuildMovesOnlyEncoder(
      lines: Lines, plan: Plan, cm119Caps: Option<Mask>, parallelCaps: Option<Mask>, answer: Answer, place: Place)
    requires Inv(lines, plan) && Resting(lines)
    ensures var (after, ok) := Prepare(lines, plan, cm119Caps, parallelCaps, answer);
            Changed(SideOf(lines, place).byte, SideOf(if ok then after else RetireSite(after), place).byte)
              <= EncoderPins(lines, place)
  {
    PrepareStaysAtRest(lines, plan, cm119Caps, parallelCaps, answer, place);
    var (after, ok) := Prepare(lines, plan, cm119Caps, parallelCaps, answer);
    RetireAtRest(after, plan, place);
  }

  lemma SetEncoderRests(lines: Lines, plan: Plan)
    requires Inv(lines, plan) && Resting(lines)
    ensures Inv(SetEncoder(lines, false), plan) && Resting(SetEncoder(lines, false))
  {
  }

  lemma ReserveRests(lines: Lines, plan: Plan, place: Place, mask: Mask)
    requires Inv(lines, plan) && Resting(lines) && mask !! SideOf(lines, place).bank.claimed
    ensures var reserved := WithBank(lines, place, Reserve(SideOf(lines, place).bank, mask).0);
            Inv(reserved, plan) && Resting(reserved) && mask !! SideOf(reserved, place).bank.safeHigh
  {
  }

  /** Rebinding the encoder that is already bound drives its pin idle and nothing else. */
  lemma RebindRests(lines: Lines, plan: Plan, answer: Answer, place: Place)
    requires Inv(lines, plan) && Resting(lines)
    ensures var after := BindEncoder(lines, plan, lines.encoder, answer).0;
            && Inv(after, plan) && Resting(after) && after.encoder == lines.encoder
            && Changed(SideOf(lines, place).byte, SideOf(after, place).byte) <= EncoderPins(lines, place)
  {
    match lines.encoder {
      case None =>
      case Some(e) =>
        var reserved := WithBank(lines, e.place, Reserve(SideOf(lines, e.place).bank, e.mask).0);
        ReserveRests(lines, plan, e.place, e.mask);
        SetEncoderRests(reserved, plan);
        SetEncoderTwice(reserved);
        SetEncoderMovesEncoder(reserved, false, place);
        ScheduleRests(SetEncoder(reserved, false), plan, e.place, e.mask, answer);
    }
  }

  lemma SetEncoderTwice(lines: Lines)
    ensures SetEncoder(SetEncoder(lines, false).(encoder := lines.encoder), false) == SetEncoder(lines, false)
  {
  }

  lemma ScheduleRests(lines: Lines, plan: Plan, place: Place, cancel: Mask, answer: Answer)
    requires Inv(lines, plan) && Resting(lines)
    ensures var after := Schedule(lines, plan, place, cancel, {}, answer).0;
            && Inv(after, plan) && Resting(after) && after.encoder == lines.encoder
            && after.cm119 == lines.cm119 && after.parallel == lines.parallel
  {
  }

  /** Rebuilding drives the encoder pin idle and nothing else, and leaves the lines at rest. */
  lemma PrepareStaysAtRest(
      lines: Lines, plan: Plan, cm119Caps: Option<Mask>, parallelCaps: Option<Mask>, answer: Answer, place: Place)
    requires Inv(lines, plan) && Resting(lines)
    ensures var (after, ok) := Prepare(lines, plan, cm119Caps, parallelCaps, answer);
            && Inv(after, plan) && Resting(after) && after.encoder == lines.encoder
            && Changed(SideOf(lines, place).byte, SideOf(after, place).byte) <= EncoderPins(lines, place)
  {
    if plan.cm119.Some? && cm119Caps.None? {
      return;
    }
    var first := PrepareFirst(lines, plan, cm119Caps);
    PrepareFirstKeepsInv(lines, plan, cm119Caps);
    match plan.parallel {
      case None => RebindRests(first, plan, answer, place);
      case Some(p) =>
        if parallelCaps.Some? {
          PrepareSecondKeepsInv(first, plan, p, parallelCaps.value);
          RebindRests(PrepareSecond(first, p, parallelCaps.value), plan, answer, place);
        }
    }
  }

  lemma RestingSideRetiresAsItIs(side: Side)
    requires Owned(side) && side.bank.safeHigh <= side.byte && AtSafeLevels(side)
    ensures RetiredOutput(side) == side.byte
  {
    assert forall p | p in side.byte && p in side.bank.claimed :: p in side.byte * side.bank.claimed;
    assert forall p | p in RetiredOutput(side) :: p in side.byte;
    assert forall p | p in side.byte :: p in RetiredOutput(side);
  }

  lemma RetireAtRest(lines: Lines, plan: Plan, place: Place)
    requires Inv(lines, plan) && Resting(lines)
    ensures Changed(SideOf(lines, place).byte, SideOf(RetireSite(lines), place).byte) <= EncoderPins(lines, place)
  {
    SetEncoderRests(lines, plan);
    SetEncoderMovesEncoder(lines, false, place);
    RestingSideRetiresAsItIs(SideOf(SetEncoder(lines, false), place));
    assert SideOf(RetireSite(lines), place).byte == SideOf(SetEncoder(lines, false), place).byte;
  }

  // ----- stale tokens -----

  /** The token was handed out, and the bank has moved on from it. */
  ghost predicate Spent(lines: Lines, place: Place, token: nat) {
    0 < token < lines.counter && SideOf(lines, place).bank.generation != token
  }

  lemma StepKeepsSpent(m: Machine, plan: Plan, event: Event, place: Place, token: nat)
    requires MachineInv(m, plan) && Spent(m.lines, place, token)
    ensures Spent(Step(m, plan, event).lines, place, token)
  {
    match event {
      case Retired =>
      case Rebuilt(cm119Caps, parallelCaps, answer) =>
      case _ =>
        if m.ready {
          CommandsKeepTokens(m.lines, plan, event, place);
        }
    }
  }

  lemma {:induction false} RunKeepsSpent(m: Machine, plan: Plan, events: seq<Event>, place: Place, token: nat)
    requires MachineInv(m, plan) && Spent(m.lines, place, token)
    ensures Spent(Run(m, plan, events).lines, place, token)
    decreases |events|
  {
    if events != [] {
      StepKeepsMachineInv(m, plan, events[0]);
      StepKeepsSpent(m, plan, events[0], place, token);
      RunKeepsSpent(Step(m, plan, events[0]), plan, events[1..], place, token);
    }
  }

  /** The outputs, claims and pulses of one bank, without its count of rejections. */
  ghost predicate SameOutputs(a: Lines, b: Lines) {
    && a.cm119.byte == b.cm119.byte && a.parallel.byte == b.parallel.byte
    && a.cm119.bank.(rejected := 0) == b.cm119.bank.(rejected := 0)
    && a.parallel.bank.(rejected := 0) == b.parallel.bank.(rejected := 0)
    && a.pulses == b.pulses && a.encoder == b.encoder && a.radio == b.radio
  }

  /** Once a bank has moved on from a token, by a bind, a retirement or a rebuild, every later request or binding that
      carries it is rejected without effect, however the run goes on. */
  lemma StaleTokenIsRejectedForever(
      m: Machine, plan: Plan, event: Event, later: seq<Event>, place: Place, token: nat,
      binding: Binding, request: Request, answer: Answer)
    requires MachineInv(m, plan)
    requires token == SideOf(m.lines, place).bank.generation != 0
    requires SideOf(Step(m, plan, event).lines, place).bank.generation != token
    requires binding.generation == token && request.generation == token
    ensures MachineInv(Step(m, plan, event), plan)
    ensures var after := Run(Step(m, plan, event), plan, later).lines;
            && SameOutputs(SiteBind(after, plan, place, binding, answer).0, after)
            && SameOutputs(SitePublish(after, place, request), after)
  {
    StepKeepsMachineInv(m, plan, event);
    var next := Step(m, plan, event);
    assert next.lines.counter >= m.lines.counter by {
      CounterGrows(m, plan, event);
    }
    RunKeepsSpent(next, plan, later, place, token);
    RunKeepsMachineInv(next, plan, later);
  }

  lemma CounterGrows(m: Machine, plan: Plan, event: Event)
    requires MachineInv(m, plan)
    ensures m.lines.counter <= Step(m, plan, event).lines.counter
  {
    match event {
      case Retired =>
      case Rebuilt(cm119Caps, parallelCaps, answer) =>
      case _ => CommandsKeepTokens(m.lines, plan, event, Cm119);
    }
  }
}
