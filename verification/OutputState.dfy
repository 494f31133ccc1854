/** The output lines of one hardware worker and every operation on them (rust/driver/src/hardware_host.rs:2808-3250).
    Device calls answer with success or failure, and a failed call may or may not have had its effect. */
module OutputState {
  import opened Wrappers
  import opened HardwareSite

  const BINARY_PINS: Mask := {4, 5, 6, 7}
  const RTX_PINS: Mask := {0, 1, 2, 3, 4}
  const RTX_TRANSMIT: Mask := {3}
  const RTX_POWER: Mask := {4}

  datatype Place = Cm119 | Parallel

  datatype Encoder = Encoder(place: Place, mask: Mask, inverted: bool)

  datatype Radio = Radio(receiveHz: nat, transmitHz: nat, highPower: bool)

  datatype RadioState = RadioState(settings: Option<Radio>, dirty: bool, ptt: Option<bool>)

  datatype Pulses = Pulses(cm119: Mask, parallel: Mask)

  datatype Lines = Lines(
    cm119: Side, parallel: Side, encoder: Option<Encoder>, radio: RadioState, pulses: Pulses, counter: nat)

  datatype Cm119Plan = Cm119Plan(outputs: Mask, initial: Mask, clip: Mask)

  datatype ParallelPlan = ParallelPlan(outputs: Mask, initial: Mask, ptt: Mask)

  datatype Plan = Plan(cm119: Option<Cm119Plan>, parallel: Option<ParallelPlan>, pttInverted: bool)

  datatype Answer = Done | Failed(applied: bool)

  datatype OutputRequest = Inactive | Active | Pulse

  /** What survives a reload of the service. */
  datatype Transient = Transient(cm119: Mask, parallel: Mask, radio: Option<Radio>, cm119SafeHigh: Mask, parallelSafeHigh: Mask)

  predicate PlanFits(plan: Plan) {
    && (plan.cm119.Some? ==> plan.cm119.value.outputs + plan.cm119.value.initial + plan.cm119.value.clip <= BYTE)
    && (plan.parallel.Some? ==> plan.parallel.value.outputs + plan.parallel.value.initial + plan.parallel.value.ptt <= BYTE)
  }

  // ----- parts of the lines -----

  function SideOf(lines: Lines, place: Place): Side {
    if place.Cm119? then lines.cm119 else lines.parallel
  }

  function WithSide(lines: Lines, place: Place, side: Side): Lines {
    if place.Cm119? then lines.(cm119 := side) else lines.(parallel := side)
  }

  function WithBank(lines: Lines, place: Place, bank: Bank): Lines {
    WithSide(lines, place, Side(bank, SideOf(lines, place).byte))
  }

  function PulsesOn(lines: Lines, place: Place): Mask {
    if place.Cm119? then lines.pulses.cm119 else lines.pulses.parallel
  }

  function WithPulses(lines: Lines, place: Place, mask: Mask): Lines {
    if place.Cm119? then lines.(pulses := lines.pulses.(cm119 := mask)) else lines.(pulses := lines.pulses.(parallel := mask))
  }

  predicate HasDevice(plan: Plan, place: Place) {
    if place.Cm119? then plan.cm119.Some? else plan.parallel.Some?
  }

  // ----- device calls -----

  function Schedule(lines: Lines, plan: Plan, place: Place, cancel: Mask, start: Mask, answer: Answer): (Lines, bool) {
    if !HasDevice(plan, place) then (lines, false)
    else
      var changed := WithPulses(lines, place, (PulsesOn(lines, place) - cancel) + start);
      match answer
      case Done => (changed, true)
      case Failed(applied) => (if applied then changed else lines, false)
  }

  // ----- operations; the second result is false for a service failure -----

  function SetEncoder(lines: Lines, active: bool): Lines {
    match lines.encoder
    case None => lines
    case Some(encoder) =>
      var side := SideOf(lines, encoder.place);
      WithSide(lines, encoder.place,
        side.(byte := if active != encoder.inverted then side.byte + encoder.mask else side.byte - encoder.mask))
  }

  /** Taking over the encoder pin. The caller has made sure that no site owns it. */
  function BindEncoder(lines: Lines, plan: Plan, encoder: Option<Encoder>, answer: Answer): (Lines, bool) {
    match encoder
    case None => (SetEncoder(lines, false).(encoder := None), true)
    case Some(e) =>
      var reserved := WithBank(lines, e.place, Reserve(SideOf(lines, e.place).bank, e.mask).0);
      var bound := SetEncoder(SetEncoder(reserved, false).(encoder := encoder), false);
      Schedule(bound, plan, e.place, e.mask, {}, answer)
  }

  function SiteBind(lines: Lines, plan: Plan, place: Place, binding: Binding, answer: Answer): (Lines, bool) {
    var side := SideOf(lines, place);
    if ValidateBinding(side.bank, binding).Some? then (WithBank(lines, place, Rejected(side.bank)), true)
    else
      var mask := side.bank.claimed + binding.outputMask;
      var (quiet, cancelled) := if mask != {} then Schedule(lines, plan, place, mask, {}, answer) else (lines, true);
      if !cancelled then (WithBank(quiet, place, Rejected(side.bank)), false)
      else
        var (after, error) := Bind(side, binding, lines.counter);
        var bound := WithSide(quiet, place, if error.Some? then Side(Rejected(side.bank), side.byte) else after);
        (bound.(counter := Advanced(lines.counter)), true)
  }

  function SitePublish(lines: Lines, place: Place, request: Request): Lines {
    var side := SideOf(lines, place);
    var (after, error) := Apply(side, request);
    WithSide(lines, place, if error.Some? then Side(Rejected(side.bank), side.byte) else after)
  }

  function ApplyPersistent(byte: Mask, bit: Mask, request: OutputRequest): Mask {
    match request
    case Inactive => byte - bit
    case Active => byte + bit
    case Pulse => byte
  }

  /** An ordinary output command. The encoder pin is refused with a failure, a claimed pin with a rejection. */
  function Ordinary(lines: Lines, plan: Plan, place: Place, bit: Mask, request: OutputRequest, answer: Answer)
    : (Lines, bool)
  {
    var side := SideOf(lines, place);
    if lines.encoder.Some? && lines.encoder.value.place == place && !(lines.encoder.value.mask !! bit) then (lines, false)
    else if !PermitsOrdinary(side.bank, bit) then (WithBank(lines, place, Rejected(side.bank)), true)
    else
      var (scheduled, ok) := Schedule(lines, plan, place, if request.Pulse? then {} else bit,
                                      if request.Pulse? then bit else {}, answer);
      if !ok then (scheduled, false)
      else
        (WithSide(scheduled, place, Side(ReleaseSafeHigh(side.bank, bit), ApplyPersistent(side.byte, bit, request))), true)
  }

  function ShiftedChannel(channel: Mask): (pins: Mask)
    ensures pins <= BINARY_PINS
  {
    set p | p in channel && p < 4 :: p + 4
  }

  function SelectChannel(lines: Lines, plan: Plan, channel: Mask, answer: Answer): (Lines, bool) {
    var (bank, taken) := Reserve(lines.parallel.bank, BINARY_PINS);
    var reserved := WithBank(lines, Parallel, bank);
    if !taken || plan.parallel.None? || answer.Failed? then (reserved, false)
    else
      (WithSide(reserved, Parallel, Side(bank, (lines.parallel.byte + BINARY_PINS) - ShiftedChannel(channel))), true)
  }

  function ConfigureRadio(lines: Lines, settings: Radio): (Lines, bool) {
    var (bank, taken) := Reserve(lines.parallel.bank, RTX_PINS);
    var reserved := WithBank(lines, Parallel, bank);
    if !taken then (reserved, false)
    else (reserved.(radio := reserved.radio.(settings := Some(settings), dirty := true)), true)
  }

  function ServiceRadio(lines: Lines, plan: Plan, ptt: bool, answer: Answer): (Lines, bool) {
    match lines.radio.settings
    case None => (lines, true)
    case Some(settings) =>
      if !lines.radio.dirty && lines.radio.ptt == Some(ptt) then (lines, true)
      else if plan.parallel.None? then (lines, false)
      else
        var clears := settings.receiveHz == 0 && lines.radio.ptt == Some(true) && !ptt;
        if (settings.receiveHz != 0 || clears) && answer.Failed? then (lines, false)
        else
          var byte := lines.parallel.byte;
          var next := if settings.receiveHz != 0 then (byte - RTX_PINS) + (if ptt then RTX_TRANSMIT else {})
                      else if clears then byte - (RTX_TRANSMIT + RTX_POWER) else byte;
          (WithSide(lines, Parallel, Side(lines.parallel.bank, next))
             .(radio := lines.radio.(dirty := false, ptt := Some(ptt))),
           true)
  }

  function ClipPulse(lines: Lines, plan: Plan, answer: Answer): (Lines, bool) {
    if plan.cm119.None? then (lines, false) else Schedule(lines, plan, Cm119, {}, plan.cm119.value.clip, answer)
  }

  /** The end of an ownership epoch, before any output is made safe or a device is replaced. */
  function RetireSite(lines: Lines): Lines {
    var quiet := SetEncoder(lines, false);
    quiet.(cm119 := Retire(quiet.cm119), parallel := Retire(quiet.parallel))
  }

  // ----- start and recovery -----

  function NewLines(plan: Plan, radio: Option<Radio>, counter: nat): Lines {
    var c := match plan.cm119 case None => Cm119Plan({}, {}, {}) case Some(p) => p;
    var p := match plan.parallel case None => ParallelPlan({}, {}, {}) case Some(p) => p;
    Lines(Side(NewBank(counter, c.outputs, {}, c.initial), c.initial),
          Side(NewBank(Advanced(counter), p.outputs, p.ptt, p.initial), p.initial),
          None, RadioState(radio, radio.Some?, None), Pulses({}, {}), Advanced(Advanced(counter)))
  }

  function Snapshot(lines: Lines): Transient {
    Transient(RetiredOutput(lines.cm119), RetiredOutput(lines.parallel), lines.radio.settings,
              SafeHigh(lines.cm119.bank), SafeHigh(lines.parallel.bank))
  }

  /** The restoration of a stopped service: nothing is claimed yet. */
  function Restore(lines: Lines, state: Transient, plan: Plan): Lines
    requires lines.cm119.bank.claimed == {} && lines.parallel.bank.claimed == {}
  {
    var enabled := match plan.cm119 case None => {} case Some(p) => p.outputs;
    var cm119 := Side(RestoreSafeHigh(lines.cm119.bank, state.cm119SafeHigh),
                      (lines.cm119.byte - enabled) + (state.cm119 * enabled));
    var bank := RestoreSafeHigh(lines.parallel.bank, state.parallelSafeHigh);
    match plan.parallel
    case None => lines.(cm119 := cm119, parallel := Side(bank, lines.parallel.byte))
    case Some(p) =>
      lines.(cm119 := cm119, parallel := Side(bank, state.parallel - p.ptt),
             radio := RadioState(state.radio, state.radio.Some?, None))
  }

  /** Fresh banks for the devices just opened: claims start empty, safe levels that still apply are kept, and radio
      signalling gets its pins back. `caps` are the pins each device reports, if it answers. */
  function Prepare(lines: Lines, plan: Plan, cm119Caps: Option<Mask>, parallelCaps: Option<Mask>, answer: Answer)
    : (Lines, bool)
  {
    if plan.cm119.Some? && cm119Caps.None? then (lines, false)
    else
      var c := match plan.cm119
               case None => NewBank(lines.counter, {}, {}, {})
               case Some(p) => NewBank(lines.counter, cm119Caps.value * p.outputs, p.clip, lines.cm119.byte);
      var first := lines.(
        cm119 := Side(RestoreSafeHigh(c, SafeHigh(lines.cm119.bank)), lines.cm119.byte),
        pulses := lines.pulses.(cm119 := {}),
        counter := Advanced(lines.counter));
      match plan.parallel
      case None => BindEncoder(first, plan, lines.encoder, answer)
      case Some(p) =>
        if parallelCaps.None? then (first, false)
        else
          var reserved := p.ptt + (if lines.radio.settings.Some? then RTX_PINS else {});
          var bank := NewBank(first.counter, parallelCaps.value * p.outputs, reserved, lines.parallel.byte);
          var second := first.(
            parallel := Side(RestoreSafeHigh(bank, SafeHigh(lines.parallel.bank)), lines.parallel.byte),
            pulses := first.pulses.(parallel := {}),
            counter := Advanced(first.counter));
          BindEncoder(second, plan, lines.encoder, answer)
  }

  // ----- invariants -----

  ghost predicate EncoderFree(lines: Lines) {
    lines.encoder.Some? ==>
      var e := lines.encoder.value;
      var bank := SideOf(lines, e.place).bank;
      e.mask <= BYTE && e.mask !! bank.claimed && e.mask !! bank.safeHigh
  }

  /** What holds at all times, also while a device is being replaced. */
  ghost predicate Inv(lines: Lines, plan: Plan) {
    && PlanFits(plan)
    && Owned(lines.cm119) && Owned(lines.parallel)
    && lines.pulses.cm119 !! lines.cm119.bank.claimed && lines.pulses.parallel !! lines.parallel.bank.claimed
    && EncoderFree(lines)
    && (plan.parallel.Some? ==> plan.parallel.value.ptt <= lines.parallel.bank.reserved)
    && lines.cm119.bank.generation < lines.counter && lines.parallel.bank.generation < lines.counter
  }

  /** What commands can rely on: the pins of radio signalling are reserved. */
  ghost predicate Prepared(lines: Lines, plan: Plan) {
    && Inv(lines, plan)
    && (lines.encoder.Some? ==> lines.encoder.value.mask <= SideOf(lines, lines.encoder.value.place).bank.reserved)
    && (lines.radio.settings.Some? && plan.parallel.Some? ==> RTX_PINS <= lines.parallel.bank.reserved)
    && (plan.cm119.Some? ==> plan.cm119.value.clip <= lines.cm119.bank.reserved)
  }

  ghost predicate TransientSafe(state: Transient) {
    && state.cm119 <= BYTE && state.parallel <= BYTE
    && state.cm119SafeHigh <= state.cm119 && state.parallelSafeHigh <= state.parallel
  }

  /** A snapshot of prepared lines carries each safe-high pin high. */
  lemma SnapshotIsSafe(lines: Lines, plan: Plan)
    requires Inv(lines, plan)
    ensures TransientSafe(Snapshot(lines))
  {
  }

  lemma NewLinesKeepInv(plan: Plan, radio: Option<Radio>, counter: nat)
    requires PlanFits(plan) && counter > 0
    ensures Inv(NewLines(plan, radio, counter), plan)
  {
  }
}
