/** What every operation on the output lines keeps, and what follows for whole runs of one hardware service
    (rust/driver/src/hardware_host.rs:2808-3250, 3299-3460). */
module OutputTheorems {
  import opened Wrappers
  import opened HardwareSite
  import opened OutputState

  // ----- one operation at a time -----

  lemma SetEncoderKeepsInv(lines: Lines, plan: Plan, active: bool)
    requires Inv(lines, plan)
    ensures Inv(SetEncoder(lines, active), plan)
    ensures Prepared(lines, plan) ==> Prepared(SetEncoder(lines, active), plan)
  {
  }

  function EncoderPins(lines: Lines, place: Place): Mask {
    if lines.encoder.Some? && lines.encoder.value.place == place then lines.encoder.value.mask else {}
  }

  lemma SetEncoderMovesEncoder(lines: Lines, active: bool, place: Place)
    ensures Changed(SideOf(lines, place).byte, SideOf(SetEncoder(lines, active), place).byte) <= EncoderPins(lines, place)
  {
  }

  /** The encoder pin stands high while active, or, inverted, while idle. */
  ghost predicate EncoderStands(lines: Lines, active: bool) {
    match lines.encoder
    case None => true
    case Some(e) =>
      if active != e.inverted then e.mask <= SideOf(lines, e.place).byte else e.mask !! SideOf(lines, e.place).byte
  }

  lemma SetEncoderTakesEffect(lines: Lines, active: bool)
    ensures EncoderStands(SetEncoder(lines, active), active)
    ensures SetEncoder(lines, active).encoder == lines.encoder
  {
  }

  lemma BindEncoderPrepares(lines: Lines, plan: Plan, encoder: Option<Encoder>, answer: Answer)
    requires Inv(lines, plan)
    requires encoder.Some? ==>
               encoder.value.mask <= BYTE && encoder.value.mask !! SideOf(lines, encoder.value.place).bank.claimed
    ensures var (after, ok) := BindEncoder(lines, plan, encoder, answer);
            && Inv(after, plan)
            && (after.encoder.Some? ==>
                  after.encoder.value.mask <= SideOf(after, after.encoder.value.place).bank.reserved)
            && after.encoder == encoder && EncoderStands(after, false)
            && (ok <==> encoder.None? || (HasDevice(plan, encoder.value.place) && answer.Done?))
            && (ok && encoder.Some? ==> PulsesOn(after, encoder.value.place) !! encoder.value.mask)
            && after.radio == lines.radio && after.counter == lines.counter
            && lines.cm119.bank.reserved <= after.cm119.bank.reserved
            && lines.parallel.bank.reserved <= after.parallel.bank.reserved
            && after.cm119.bank.claimed == lines.cm119.bank.claimed
            && after.parallel.bank.claimed == lines.parallel.bank.claimed
  {
    match encoder {
      case None => SetEncoderKeepsInv(lines, plan, false);
      case Some(e) =>
        var side := SideOf(lines, e.place);
        SetEncoderReserved(lines, plan, e);
    }
  }

  lemma ReserveKeepsInv(lines: Lines, plan: Plan, place: Place, mask: Mask)
    requires Inv(lines, plan)
    ensures Inv(WithBank(lines, place, Reserve(SideOf(lines, place).bank, mask).0), plan)
  {
  }

  /** The encoder taken over is released from any safe level and driven to its idle level. */
  lemma SetEncoderReserved(lines: Lines, plan: Plan, e: Encoder)
    requires Inv(lines, plan) && e.mask <= BYTE && e.mask !! SideOf(lines, e.place).bank.claimed
    ensures var reserved := WithBank(lines, e.place, Reserve(SideOf(lines, e.place).bank, e.mask).0);
            var bound := SetEncoder(SetEncoder(reserved, false).(encoder := Some(e)), false);
            && Inv(bound, plan) && bound.encoder == Some(e)
            && e.mask <= SideOf(bound, e.place).bank.reserved
            && bound.radio == lines.radio && bound.counter == lines.counter
            && lines.cm119.bank.reserved <= bound.cm119.bank.reserved
            && lines.parallel.bank.reserved <= bound.parallel.bank.reserved
            && bound.cm119.bank.claimed == lines.cm119.bank.claimed
            && bound.parallel.bank.claimed == lines.parallel.bank.claimed
  {
    ReserveKeepsInv(lines, plan, e.place, e.mask);
    var reserved := WithBank(lines, e.place, Reserve(SideOf(lines, e.place).bank, e.mask).0);
    SetEncoderKeepsInv(reserved, plan, false);
    SetEncoderKeepsInv(SetEncoder(reserved, false).(encoder := Some(e)), plan, false);
  }

  /** A bank replaced by one that is owned, with fewer claims on reserved or pulsing pins, leaves the lines prepared. */
  lemma ReplacedKeepsPrepared(lines: Lines, plan: Plan, place: Place, side: Side, counter: nat)
    requires Prepared(lines, plan) && Owned(side) && PulsesOn(lines, place) !! side.bank.claimed
    requires side.bank.reserved == SideOf(lines, place).bank.reserved
    requires side.bank.generation < counter && lines.counter <= counter
    ensures Prepared(WithSide(lines, place, side).(counter := counter), plan)
  {
  }

  lemma QuietKeepsPrepared(lines: Lines, plan: Plan, place: Place, mask: Mask, answer: Answer)
    requires Prepared(lines, plan)
    ensures var (quiet, ok) := Schedule(lines, plan, place, mask, {}, answer);
            && Prepared(quiet, plan) && quiet.counter == lines.counter && SideOf(quiet, place) == SideOf(lines, place)
            && PulsesOn(quiet, place) <= PulsesOn(lines, place)
            && (ok ==> PulsesOn(quiet, place) !! mask)
  {
  }

  /** Pulses of the former owner are cancelled before the pins change hands. */
  lemma SiteBindKeepsPrepared(lines: Lines, plan: Plan, place: Place, binding: Binding, answer: Answer)
    requires Prepared(lines, plan)
    ensures Prepared(SiteBind(lines, plan, place, binding, answer).0, plan)
  {
    var side := SideOf(lines, place);
    var rejected := Side(Rejected(side.bank), side.byte);
    var mask := side.bank.claimed + binding.outputMask;
    if ValidateBinding(side.bank, binding).Some? {
      ReplacedKeepsPrepared(lines, plan, place, rejected, lines.counter);
    } else {
      QuietKeepsPrepared(lines, plan, place, mask, answer);
      var (quiet, cancelled) := if mask != {} then Schedule(lines, plan, place, mask, {}, answer) else (lines, true);
      if cancelled {
        BindKeepsOwned(side, binding, lines.counter);
        var (after, error) := Bind(side, binding, lines.counter);
        ReplacedKeepsPrepared(quiet, plan, place, if error.Some? then rejected else after, Advanced(lines.counter));
      } else {
        ReplacedKeepsPrepared(quiet, plan, place, rejected, lines.counter);
      }
    }
  }

  lemma SitePublishKeepsPrepared(lines: Lines, plan: Plan, place: Place, request: Request)
    requires Prepared(lines, plan)
    ensures Prepared(SitePublish(lines, place, request), plan)
  {
  }

  lemma OrdinaryKeepsPrepared(
      lines: Lines, plan: Plan, place: Place, bit: Mask, request: OutputRequest, answer: Answer)
    requires Prepared(lines, plan)
    ensures Prepared(Ordinary(lines, plan, place, bit, request, answer).0, plan)
  {
    var side := SideOf(lines, place);
    if PermitsOrdinary(side.bank, bit) {
      OrdinaryKeepsOwned(side, bit, ApplyPersistent(side.byte, bit, request));
    }
  }

  lemma SelectChannelKeepsPrepared(lines: Lines, plan: Plan, channel: Mask, answer: Answer)
    requires Prepared(lines, plan)
    ensures Prepared(SelectChannel(lines, plan, channel, answer).0, plan)
  {
  }

  lemma ConfigureRadioKeepsPrepared(lines: Lines, plan: Plan, settings: Radio)
    requires Prepared(lines, plan)
    ensures Prepared(ConfigureRadio(lines, settings).0, plan)
  {
  }

  lemma ServiceRadioKeepsPrepared(lines: Lines, plan: Plan, ptt: bool, answer: Answer)
    requires Prepared(lines, plan)
    ensures Prepared(ServiceRadio(lines, plan, ptt, answer).0, plan)
  {
  }

  lemma ClipPulseKeepsPrepared(lines: Lines, plan: Plan, answer: Answer)
    requires Prepared(lines, plan)
    ensures Prepared(ClipPulse(lines, plan, answer).0, plan)
  {
  }

  /** Every claimed pin stands at its safe level. */
  ghost predicate AtSafeLevels(side: Side) {
    side.byte * side.bank.claimed == side.bank.safeHigh * side.bank.claimed
  }

  /** Every retained safe level is driven and every claimed pin stands at its safe level, as it is after retirement and
      before the first claim. */
  ghost predicate Resting(lines: Lines) {
    && lines.cm119.bank.safeHigh <= lines.cm119.byte && AtSafeLevels(lines.cm119)
    && lines.parallel.bank.safeHigh <= lines.parallel.byte && AtSafeLevels(lines.parallel)
  }

  /** Retirement changes only claimed pins and the encoder pin, and leaves the lines at rest. */
  lemma RetireSiteMakesSafe(lines: Lines, plan: Plan, place: Place)
    requires Inv(lines, plan)
    ensures var after := RetireSite(lines);
            && Inv(after, plan) && Resting(after) && EncoderStands(after, false)
            && (Prepared(lines, plan) ==> Prepared(after, plan))
            && after.encoder == lines.encoder && after.counter == lines.counter
            && Changed(SideOf(lines, place).byte, SideOf(after, place).byte)
                 <= SideOf(lines, place).bank.claimed + EncoderPins(lines, place)
            && SideOf(after, place).bank.generation == 0
  {
  }

  lemma RestoreKeepsInv(plan: Plan, radio: Option<Radio>, counter: nat, state: Transient)
    requires PlanFits(plan) && counter > 0 && TransientSafe(state)
    ensures Inv(Restore(NewLines(plan, radio, counter), state, plan), plan)
    ensures Restore(NewLines(plan, radio, counter), state, plan).encoder == None
  {
  }

  /** The banks of freshly opened devices: no claims, every safe level that is kept is driven high. Success leaves the
      lines prepared, whatever was reserved before; failure leaves them sound. */
  lemma PreparePrepares(lines: Lines, plan: Plan, cm119Caps: Option<Mask>, parallelCaps: Option<Mask>, answer: Answer)
    requires Inv(lines, plan) && Resting(lines)
    ensures var (after, ok) := Prepare(lines, plan, cm119Caps, parallelCaps, answer);
            && Inv(after, plan) && lines.counter <= after.counter
            && (ok ==> Prepared(after, plan))
            && after.encoder == lines.encoder && after.radio == lines.radio
            && (ok <==> (plan.cm119.Some? ==> cm119Caps.Some?) && (plan.parallel.Some? ==> parallelCaps.Some?)
                        && (lines.encoder.Some? ==> HasDevice(plan, lines.encoder.value.place) && answer.Done?))
  {
    if plan.cm119.Some? && cm119Caps.None? {
      return;
    }
    var first := PrepareFirst(lines, plan, cm119Caps);
    PrepareFirstKeepsInv(lines, plan, cm119Caps);
    match plan.parallel {
      case None =>
        EncoderStaysFree(first, plan);
        BindEncoderPrepares(first, plan, lines.encoder, answer);
      case Some(p) =>
        if parallelCaps.Some? {
          var second := PrepareSecond(first, p, parallelCaps.value);
          PrepareSecondKeepsInv(first, plan, p, parallelCaps.value);
          EncoderStaysFree(second, plan);
          BindEncoderPrepares(second, plan, lines.encoder, answer);
        }
    }
  }

  lemma EncoderStaysFree(lines: Lines, plan: Plan)
    requires Inv(lines, plan)
    ensures lines.encoder.Some? ==>
              lines.encoder.value.mask <= BYTE && lines.encoder.value.mask !! SideOf(lines, lines.encoder.value.place).bank.claimed
  {
  }

  /** The lines after the first bank was rebuilt. */
  function PrepareFirst(lines: Lines, plan: Plan, caps: Option<Mask>): Lines
    requires plan.cm119.Some? ==> caps.Some?
  {
    var c := match plan.cm119
             case None => NewBank(lines.counter, {}, {}, {})
             case Some(p) => NewBank(lines.counter, caps.value * p.outputs, p.clip, lines.cm119.byte);
    lines.(
      cm119 := Side(RestoreSafeHigh(c, SafeHigh(lines.cm119.bank)), lines.cm119.byte),
      pulses := lines.pulses.(cm119 := {}),
      counter := Advanced(lines.counter))
  }

  lemma PrepareFirstKeepsInv(lines: Lines, plan: Plan, caps: Option<Mask>)
    requires Inv(lines, plan) && Resting(lines) && (plan.cm119.Some? ==> caps.Some?)
    ensures var first := PrepareFirst(lines, plan, caps);
            && Inv(first, plan)
            && (plan.cm119.Some? ==> plan.cm119.value.clip <= first.cm119.bank.reserved)
            && first.cm119.bank.claimed == {} && Resting(first)
  {
  }

  function PrepareSecond(first: Lines, p: ParallelPlan, caps: Mask): Lines {
    var reserved := p.ptt + (if first.radio.settings.Some? then RTX_PINS else {});
    var bank := NewBank(first.counter, caps * p.outputs, reserved, first.parallel.byte);
    first.(
      parallel := Side(RestoreSafeHigh(bank, SafeHigh(first.parallel.bank)), first.parallel.byte),
      pulses := first.pulses.(parallel := {}),
      counter := Advanced(first.counter))
  }

  lemma PrepareSecondKeepsInv(first: Lines, plan: Plan, p: ParallelPlan, caps: Mask)
    requires Inv(first, plan) && Resting(first) && plan.parallel == Some(p)
    ensures var second := PrepareSecond(first, p, caps);
            && Inv(second, plan)
            && (second.radio.settings.Some? ==> RTX_PINS <= second.parallel.bank.reserved)
            && second.cm119 == first.cm119 && Resting(second) && second.encoder == first.encoder
  {
  }

  // ----- what each command does -----

  /** A takeover that the device lets happen is the bind of the bank, with the pulses of its former and new pins ended; any
      other is counted and moves nothing. It fails only where pulses had to be ended and could not. */
  lemma SiteBindTakesEffect(lines: Lines, plan: Plan, place: Place, binding: Binding, answer: Answer)
    ensures var (after, ok) := SiteBind(lines, plan, place, binding, answer);
            var side := SideOf(lines, place);
            var (bound, error) := Bind(side, binding, lines.counter);
            var mask := side.bank.claimed + binding.outputMask;
            && (!ok <==> ValidateBinding(side.bank, binding).None? && mask != {} && !(HasDevice(plan, place) && answer.Done?))
            && SideOf(after, place) == (if ok && error.None? then bound
                                        else side.(bank := side.bank.(rejected := side.bank.rejected + 1)))
            && (ok && error.None? ==> PulsesOn(after, place) == PulsesOn(lines, place) - mask)
            && (forall other | other != place :: SideOf(after, other) == SideOf(lines, other))
            && after.encoder == lines.encoder && after.radio == lines.radio
  {
  }

  /** A request is performed on its bank, or counted. */
  lemma SitePublishTakesEffect(lines: Lines, place: Place, request: Request)
    ensures var side := SideOf(lines, place);
            var (applied, error) := Apply(side, request);
            SitePublish(lines, place, request)
              == WithSide(lines, place,
                          if error.None? then applied else side.(bank := side.bank.(rejected := side.bank.rejected + 1)))
  {
  }

  /** Radio settings are taken over exactly when no site claims an RTX pin; they are then due for programming, and nothing
      is driven yet. */
  lemma ConfigureRadioTakesEffect(lines: Lines, settings: Radio)
    ensures var (after, ok) := ConfigureRadio(lines, settings);
            && (ok <==> RTX_PINS !! lines.parallel.bank.claimed)
            && (ok ==> after.radio == RadioState(Some(settings), true, lines.radio.ptt)
                       && RTX_PINS <= after.parallel.bank.reserved)
            && (!ok ==> after.radio == lines.radio)
            && after.cm119 == lines.cm119 && after.parallel.byte == lines.parallel.byte && after.pulses == lines.pulses
  {
  }

  /** The clip indicator is a pulse on its pins, where the station has any. */
  lemma ClipPulseTakesEffect(lines: Lines, plan: Plan)
    ensures var (after, ok) := ClipPulse(lines, plan, Done);
            && (ok <==> plan.cm119.Some?)
            && after == (if ok then lines.(pulses := lines.pulses.(cm119 := lines.pulses.cm119 + plan.cm119.value.clip))
                         else lines)
  {
  }

  /** An ordinary command is refused with a failure on the encoder pin, counted on a pin that is no output or belongs to a
      site, and fails where the device does; in none of these cases does a level change. */
  lemma OrdinaryRefusedExactly(lines: Lines, plan: Plan, place: Place, bit: Mask, request: OutputRequest, answer: Answer)
    ensures var (after, ok) := Ordinary(lines, plan, place, bit, request, answer);
            var side := SideOf(lines, place);
            var permitted := bit <= side.bank.outputs && bit !! side.bank.claimed;
            && (!ok <==> !(bit !! EncoderPins(lines, place)) || (permitted && !(HasDevice(plan, place) && answer.Done?)))
            && (ok && !permitted ==> SideOf(after, place) == side.(bank := side.bank.(rejected := side.bank.rejected + 1)))
            && (!ok ==> SideOf(after, place) == side)
  {
  }

  /** A channel is refused exactly when a site claims one of its pins, the port is missing or its device fails. */
  lemma SelectChannelRefusedExactly(lines: Lines, plan: Plan, channel: Mask, answer: Answer)
    ensures var (after, ok) := SelectChannel(lines, plan, channel, answer);
            && (ok <==> BINARY_PINS !! lines.parallel.bank.claimed && plan.parallel.Some? && answer.Done?)
            && (!ok ==> after.parallel.byte == lines.parallel.byte)
  {
  }

  /** A steady command sets or clears exactly its pin, ends the pulses on it and supersedes its safe level; a pulse
      changes no steady level. */
  lemma OrdinaryTakesEffect(lines: Lines, plan: Plan, place: Place, bit: Mask, request: OutputRequest)
    requires Prepared(lines, plan) && HasDevice(plan, place)
    requires PermitsOrdinary(SideOf(lines, place).bank, bit) && bit !! EncoderPins(lines, place)
    ensures var (after, ok) := Ordinary(lines, plan, place, bit, request, Done);
            var before, side := SideOf(lines, place), SideOf(after, place);
            && ok && Changed(before.byte, side.byte) <= bit
            && (request == Active ==> bit <= side.byte) && (request == Inactive ==> bit !! side.byte)
            && (request == Pulse ==> side.byte == before.byte && bit <= PulsesOn(after, place))
            && (request != Pulse ==> bit !! PulsesOn(after, place))
            && side.bank.safeHigh == before.bank.safeHigh - bit && side.bank.claimed == before.bank.claimed
  {
  }

  /** The selected channel stands inverted on the four upper pins; no other pin moves. */
  lemma ChannelStandsInverted(lines: Lines, plan: Plan, channel: Mask)
    requires Prepared(lines, plan) && plan.parallel.Some? && channel <= {0, 1, 2, 3}
    requires BINARY_PINS !! lines.parallel.bank.claimed
    ensures var (after, ok) := SelectChannel(lines, plan, channel, Done);
            && ok && Changed(lines.parallel.byte, after.parallel.byte) <= BINARY_PINS <= after.parallel.bank.reserved
            && (forall bit :: bit in {0, 1, 2, 3} ==> (bit in channel <==> bit + 4 !in after.parallel.byte))
  {
    var (after, ok) := SelectChannel(lines, plan, channel, Done);
    forall bit: nat | bit in {0, 1, 2, 3}
      ensures bit in channel <==> bit + 4 !in after.parallel.byte
    {
      assert bit + 4 in BINARY_PINS;
      assert bit in channel ==> bit + 4 in ShiftedChannel(channel);
    }
  }

  /** Programming drives the transmit pin by the transmit state; without a receive frequency it only clears transmit and
      power at the end of a transmission. It moves nothing outside the RTX pins, and is done once: with settings and state
      unchanged the next service asks nothing of the device. */
  lemma RadioIsProgrammedOnce(lines: Lines, plan: Plan, ptt: bool, answer: Answer)
    requires Prepared(lines, plan) && lines.radio.settings.Some? && plan.parallel.Some?
    requires lines.radio.dirty || lines.radio.ptt != Some(ptt)
    ensures var (after, ok) := ServiceRadio(lines, plan, ptt, Done);
            var programs := lines.radio.settings.value.receiveHz != 0;
            var ends := lines.radio.ptt == Some(true) && !ptt;
            && ok
            && (programs ==> after.parallel.byte * RTX_PINS == (if ptt then RTX_TRANSMIT else {}))
            && (!programs && ends ==> (RTX_TRANSMIT + RTX_POWER) !! after.parallel.byte)
            && Changed(lines.parallel.byte, after.parallel.byte)
                 <= (if programs then RTX_PINS else if ends then RTX_TRANSMIT + RTX_POWER else {}) <= RTX_PINS
            && after.radio.settings == lines.radio.settings
            && ServiceRadio(after, plan, ptt, answer) == (after, true)
  {
    assert RTX_TRANSMIT <= RTX_PINS;
  }

  /** The radio is left alone without settings and while nothing has changed; else it takes the parallel port, and an answer
      of its device where there is something to drive. A failure changes nothing, so that it is tried again. */
  lemma ServiceRadioFailsExactly(lines: Lines, plan: Plan, ptt: bool, answer: Answer)
    ensures var (after, ok) := ServiceRadio(lines, plan, ptt, answer);
            var due := lines.radio.settings.Some? && (lines.radio.dirty || lines.radio.ptt != Some(ptt));
            var drives := due && (lines.radio.settings.value.receiveHz != 0 || (lines.radio.ptt == Some(true) && !ptt));
            && (ok <==> (due ==> plan.parallel.Some?) && (drives ==> answer.Done?))
            && (!ok || !due ==> after == lines)
  {
  }

  // ----- what survives a restart -----

  /** State saved from one service and restored into the next: on each bank that the station has, the enabled pins have
      the levels that retirement gave them and the safe levels are kept, and the radio is programmed anew. A bank that it
      does not have drives nothing. */
  lemma RestoredStateIsTheSnapshot(lines: Lines, plan: Plan, radio: Option<Radio>, counter: nat)
    requires Inv(lines, plan) && counter > 0
    requires plan.cm119.Some? ==> lines.cm119.bank.outputs <= plan.cm119.value.outputs
    requires plan.parallel.Some? ==> lines.parallel.bank.outputs <= plan.parallel.value.outputs
    ensures var after := Restore(NewLines(plan, radio, counter), Snapshot(lines), plan);
            && (match plan.cm119
                case None => after.cm119.byte == after.cm119.bank.safeHigh == {}
                case Some(p) =>
                  && after.cm119.byte * p.outputs == RetiredOutput(lines.cm119) * p.outputs
                  && after.cm119.byte - p.outputs == p.initial - p.outputs
                  && after.cm119.bank.safeHigh == lines.cm119.bank.safeHigh)
            && (match plan.parallel
                case None =>
                  && after.parallel.byte == after.parallel.bank.safeHigh == {}
                  && after.radio == RadioState(radio, radio.Some?, None)
                case Some(p) =>
                  && after.parallel.byte == RetiredOutput(lines.parallel) - p.ptt
                  && after.parallel.bank.safeHigh == lines.parallel.bank.safeHigh
                  && after.radio == RadioState(lines.radio.settings, lines.radio.settings.Some?, None))
  {
  }

  /** Taking the bound encoder over again reserves its pin, releases its safe level and moves nothing else. */
  lemma RebindKeepsSafeLevels(lines: Lines, plan: Plan, answer: Answer, place: Place)
    requires Inv(lines, plan)
    ensures var before, after := SideOf(lines, place), SideOf(BindEncoder(lines, plan, lines.encoder, answer).0, place);
            && after.bank.claimed == before.bank.claimed && after.bank.outputs == before.bank.outputs
            && after.bank.generation == before.bank.generation
            && after.bank.reserved == before.bank.reserved + EncoderPins(lines, place)
            && after.bank.safeHigh == before.bank.safeHigh - EncoderPins(lines, place)
            && Changed(before.byte, after.byte) <= EncoderPins(lines, place)
  {
  }

  /** Rebuilding keeps exactly the safe levels of pins that are still available and not reserved, ends every claim and
      hands out new tokens, a different one for each bank. */
  lemma PrepareKeepsSafeLevels(
      lines: Lines, plan: Plan, cm119Caps: Mask, parallelCaps: Mask, answer: Answer, place: Place)
    requires Inv(lines, plan) && Resting(lines) && HasDevice(plan, place)
    ensures var (after, ok) := Prepare(lines, plan, Some(cm119Caps), Some(parallelCaps), answer);
            var bank := SideOf(after, place).bank;
            && bank.claimed == {} && bank.generation == Token(if place.Cm119? then lines.counter else Advanced(lines.counter))
            && bank.safeHigh == SideOf(lines, place).bank.safeHigh * bank.outputs - bank.reserved
            && bank.outputs == (if place.Cm119? then cm119Caps * plan.cm119.value.outputs
                                else parallelCaps * plan.parallel.value.outputs)
            && Changed(SideOf(lines, place).byte, SideOf(after, place).byte) <= EncoderPins(lines, place)
  {
    var first := PrepareFirst(lines, plan, Some(cm119Caps));
    PrepareFirstKeepsInv(lines, plan, Some(cm119Caps));
    match plan.parallel {
      case None => RebindKeepsSafeLevels(first, plan, answer, place);
      case Some(p) =>
        PrepareSecondKeepsInv(first, plan, p, parallelCaps);
        RebindKeepsSafeLevels(PrepareSecond(first, p, parallelCaps), plan, answer, place);
    }
  }
}
