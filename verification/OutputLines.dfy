/** The bank state and the output lines as the objects the hardware worker updates in place
    (rust/driver/src/hardware_site.rs:150-260, rust/driver/src/hardware_host.rs:2811-3205). */
module OutputLines {
  import opened Wrappers
  import opened HardwareSite
  import opened OutputState
  import opened OutputTheorems
  import OutputRuns

  /** The token counter all banks of the process share. */
  class TokenCounter {
    var next: nat

    constructor ()
      ensures next == 1
    {
      next := 1;
    }

    method Take() returns (token: nat)
      modifies this
      ensures token == Token(old(next)) && next == HardwareSite.Advanced(old(next))
      ensures token == 0 || token == old(next) < next
    {
      if next < MAX_TOKEN {
        token := next;
        next := next + 1;
      } else {
        token := 0;
      }
    }
  }

  class SiteBankState {
    var generation: nat
    var outputs: Mask
    var reserved: Mask
    var claimed: Mask
    var safeHigh: Mask
    var requested: Mask
    var rejected: nat

    ghost function View(): Bank
      reads this
    {
      Bank(generation, outputs, reserved, claimed, safeHigh, requested, rejected)
    }

    constructor (token: nat, outputs: Mask, reserved: Mask, initial: Mask)
      ensures View() == Bank(token, outputs, reserved, {}, {}, initial, 0)
    {
      generation, this.outputs, this.reserved, requested := token, outputs, reserved, initial;
      claimed, safeHigh, rejected := {}, {}, 0;
    }

    method Reject()
      modifies this
      ensures View() == Rejected(old(View()))
    {
      rejected := rejected + 1;
    }

    method ValidateBinding(binding: Binding) returns (error: Option<SiteError>)
      ensures error == HardwareSite.ValidateBinding(View(), binding)
    {
      if binding.generation == 0 || binding.generation != generation {
        return Some(StaleGeneration);
      }
      if !(binding.outputMask <= outputs) || !(binding.outputMask !! reserved) {
        return Some(Unavailable);
      }
      if !(binding.initialHigh + binding.safeHigh <= binding.outputMask) {
        return Some(InvalidMask);
      }
      return None;
    }

    /** Replaces the claims of this bank; a token is taken only for a binding that is otherwise acceptable. */
    method Bind(binding: Binding, output: Mask, tokens: TokenCounter) returns (error: Option<SiteError>, after: Mask)
      modifies this, tokens
      ensures (Side(View(), after), error) == HardwareSite.Bind(Side(old(View()), output), binding, old(tokens.next))
      ensures tokens.next == if HardwareSite.ValidateBinding(old(View()), binding).Some? then old(tokens.next)
                             else HardwareSite.Advanced(old(tokens.next))
    {
      error := ValidateBinding(binding);
      if error.Some? {
        return error, output;
      }
      var next := tokens.Take();
      if next == 0 {
        return Some(StaleGeneration), output;
      }
      var removed := claimed - binding.outputMask;
      var added := binding.outputMask - claimed;
      var value := (output - (removed + added)) + (safeHigh * removed) + (binding.initialHigh * added);
      requested := value;
      claimed := binding.outputMask;
      safeHigh := (safeHigh - binding.outputMask) + binding.safeHigh;
      generation := next;
      return None, value * BYTE;
    }

    method Apply(request: Request, output: Mask) returns (error: Option<SiteError>, after: Mask)
      modifies this
      ensures (Side(View(), after), error) == HardwareSite.Apply(Side(old(View()), output), request)
    {
      if request.generation == 0 || request.generation != generation {
        return Some(StaleGeneration), output;
      }
      if !(request.outputMask <= claimed) {
        return Some(Unavailable), output;
      }
      if !(request.highMask <= request.outputMask) {
        return Some(InvalidMask), output;
      }
      var value := (output - request.outputMask) + request.highMask;
      requested := value;
      return None, value * BYTE;
    }

    method Reserve(mask: Mask) returns (taken: bool)
      modifies this
      ensures (View(), taken) == HardwareSite.Reserve(old(View()), mask)
    {
      if !(claimed !! mask) {
        Reject();
        return false;
      }
      reserved := reserved + mask;
      safeHigh := safeHigh - mask;
      return true;
    }

    method Retire(output: Mask) returns (after: Mask)
      modifies this
      ensures Side(View(), after) == HardwareSite.Retire(Side(old(View()), output))
    {
      after := ((output - claimed) + safeHigh) * BYTE;
      requested := after;
      generation := 0;
    }

    method RestoreSafeHigh(high: Mask)
      modifies this
      ensures View() == HardwareSite.RestoreSafeHigh(old(View()), high)
    {
      var retained := high * outputs - reserved;
      safeHigh := (safeHigh * claimed) + (retained - claimed);
    }

    method ReleaseSafeHigh(mask: Mask)
      modifies this
      ensures View() == HardwareSite.ReleaseSafeHigh(old(View()), mask)
    {
      safeHigh := safeHigh - mask;
    }
  }

  /** The output lines of one service. `pulses` stands for the pulses the devices are running. */
  class HardwareOutputs {
    const plan: Plan
    var site0: SiteBankState
    var site1: SiteBankState
    const tokens: TokenCounter
    var cm119: Mask
    var parallel: Mask
    var encoder: Option<Encoder>
    var radio: RadioState
    var pulses: Pulses

    /** Holds at all times, also while a device is being replaced. */
    ghost predicate Valid()
      reads this, site0, site1, tokens
    {
      site0 != site1 && tokens.next > 0 && Inv(View(), plan)
    }

    /** Devices are open and prepared, so commands are serviced. */
    ghost predicate Ready()
      reads this, site0, site1, tokens
    {
      Valid() && Prepared(View(), plan)
    }

    ghost function View(): Lines
      reads this, site0, site1, tokens
    {
      Lines(Side(site0.View(), cm119), Side(site1.View(), parallel), encoder, radio, pulses, tokens.next)
    }

    /** The lines of a service that has not opened its devices yet. */
    constructor (plan: Plan, radio: Option<Radio>, tokens: TokenCounter)
      requires PlanFits(plan) && tokens.next > 0
      modifies tokens
      ensures Valid() && Resting(View()) && fresh(site0) && fresh(site1) && this.plan == plan && this.tokens == tokens
      ensures View() == NewLines(plan, radio, old(tokens.next))
    {
      var c := match plan.cm119 case None => Cm119Plan({}, {}, {}) case Some(p) => p;
      var p := match plan.parallel case None => ParallelPlan({}, {}, {}) case Some(p) => p;
      var first := tokens.Take();
      var second := tokens.Take();
      this.plan, this.tokens := plan, tokens;
      var bank0 := new SiteBankState(first, c.outputs, {}, c.initial);
      var bank1 := new SiteBankState(second, p.outputs, p.ptt, p.initial);
      site0, site1 := bank0, bank1;
      cm119, parallel := c.initial, p.initial;
      encoder, this.radio, pulses := None, RadioState(radio, radio.Some?, None), Pulses({}, {});
      NewLinesKeepInv(plan, radio, old(tokens.next));
    }

    method SetEncoder(active: bool)
      modifies `cm119, `parallel
      ensures View() == OutputState.SetEncoder(old(View()), active)
    {
      match encoder {
        case None =>
        case Some(e) =>
          match e.place {
            case Cm119 => cm119 := if active != e.inverted then cm119 + e.mask else cm119 - e.mask;
            case Parallel => parallel := if active != e.inverted then parallel + e.mask else parallel - e.mask;
          }
      }
    }

    /** One call to the device of a bank, which may fail. */
    method Schedule(place: Place, cancel: Mask, start: Mask, answer: Answer) returns (ok: bool)
      modifies `pulses
      ensures (View(), ok) == OutputState.Schedule(old(View()), plan, place, cancel, start, answer)
    {
      if !HasDevice(plan, place) {
        return false;
      }
      if answer.Done? || answer.applied {
        match place {
          case Cm119 => pulses := pulses.(cm119 := (pulses.cm119 - cancel) + start);
          case Parallel => pulses := pulses.(parallel := (pulses.parallel - cancel) + start);
        }
      }
      return answer.Done?;
    }

    /** No pulse of the old owner may override the new steady owner. */
    method SiteBind(place: Place, binding: Binding, answer: Answer) returns (ok: bool)
      requires Ready()
      modifies `cm119, `parallel, `pulses, site0, site1, tokens
      ensures Ready()
      ensures (View(), ok) == OutputState.SiteBind(old(View()), plan, place, binding, answer)
    {
      hide Inv, Prepared;
      SiteBindKeepsPrepared(View(), plan, place, binding, answer);
      var state := if place.Cm119? then site0 else site1;
      var invalid := state.ValidateBinding(binding);
      if invalid.Some? {
        state.Reject();
        return true;
      }
      var mask := state.claimed + binding.outputMask;
      if mask != {} {
        var cancelled := Schedule(place, mask, {}, answer);
        if !cancelled {
          state.Reject();
          return false;
        }
      }
      var error, output := state.Bind(binding, if place.Cm119? then cm119 else parallel, tokens);
      match place {
        case Cm119 => cm119 := output;
        case Parallel => parallel := output;
      }
      if error.Some? {
        state.Reject();
      }
      return true;
    }

    method SitePublish(place: Place, request: Request)
      requires Ready()
      modifies `cm119, `parallel, site0, site1
      ensures Ready()
      ensures View() == OutputState.SitePublish(old(View()), place, request)
    {
      hide Inv, Prepared;
      SitePublishKeepsPrepared(View(), plan, place, request);
      var state := if place.Cm119? then site0 else site1;
      var error, output := state.Apply(request, if place.Cm119? then cm119 else parallel);
      match place {
        case Cm119 => cm119 := output;
        case Parallel => parallel := output;
      }
      if error.Some? {
        state.Reject();
      }
    }

    /** An ordinary command never reaches the encoder pin or a claimed pin. */
    method Apply(place: Place, bit: Mask, request: OutputRequest, answer: Answer) returns (ok: bool)
      requires Ready()
      modifies `cm119, `parallel, `pulses, site0, site1
      ensures Ready() && (View(), ok) == Ordinary(old(View()), plan, place, bit, request, answer)
    {
      hide Inv, Prepared;
      OrdinaryKeepsPrepared(View(), plan, place, bit, request, answer);
      if encoder.Some? && encoder.value.place == place && !(encoder.value.mask !! bit) {
        return false;
      }
      var state := if place.Cm119? then site0 else site1;
      if !(bit <= state.outputs && bit !! state.claimed) {
        state.Reject();
        return true;
      }
      var scheduled := Schedule(place, if request.Pulse? then {} else bit, if request.Pulse? then bit else {}, answer);
      if !scheduled {
        return false;
      }
      match place {
        case Cm119 => cm119 := ApplyPersistent(cm119, bit, request);
        case Parallel => parallel := ApplyPersistent(parallel, bit, request);
      }
      state.ReleaseSafeHigh(bit);
      return true;
    }

    method SelectChannel(channel: Mask, answer: Answer) returns (ok: bool)
      requires Ready()
      modifies `parallel, site1
      ensures Ready()
      ensures (View(), ok) == OutputState.SelectChannel(old(View()), plan, channel, answer)
    {
      hide Inv, Prepared;
      SelectChannelKeepsPrepared(View(), plan, channel, answer);
      var taken := site1.Reserve(BINARY_PINS);
      if !taken || plan.parallel.None? || answer.Failed? {
        return false;
      }
      parallel := (parallel + BINARY_PINS) - ShiftedChannel(channel);
      return true;
    }

    method ConfigureRemoteRadio(settings: Radio) returns (ok: bool)
      requires Ready()
      modifies `radio, site1
      ensures Ready()
      ensures (View(), ok) == ConfigureRadio(old(View()), settings)
    {
      hide Inv, Prepared;
      ConfigureRadioKeepsPrepared(View(), plan, settings);
      var taken := site1.Reserve(RTX_PINS);
      if !taken {
        return false;
      }
      radio := radio.(settings := Some(settings), dirty := true);
      return true;
    }

    /** Programs the radio when its settings or the transmit state changed. */
    method ServiceRemoteRadio(ptt: bool, answer: Answer) returns (ok: bool)
      requires Ready()
      modifies `parallel, `radio
      ensures Ready()
      ensures (View(), ok) == ServiceRadio(old(View()), plan, ptt, answer)
    {
      hide Inv, Prepared;
      ServiceRadioKeepsPrepared(View(), plan, ptt, answer);
      if radio.settings.None? {
        return true;
      }
      if !radio.dirty && radio.ptt == Some(ptt) {
        return true;
      }
      if plan.parallel.None? {
        return false;
      }
      if radio.settings.value.receiveHz == 0 {
        if radio.ptt == Some(true) && !ptt {
          if answer.Failed? {
            return false;
          }
          parallel := parallel - (RTX_TRANSMIT + RTX_POWER);
        }
      } else {
        if answer.Failed? {
          return false;
        }
        parallel := parallel - RTX_PINS;
        assert parallel + {} == parallel;
        if ptt {
          parallel := parallel + RTX_TRANSMIT;
        }
      }
      radio := radio.(dirty := false, ptt := Some(ptt));
      return true;
    }

    method RetireSite()
      requires Valid()
      modifies `cm119, `parallel, site0, site1
      ensures Valid() && Resting(View()) && (old(Ready()) ==> Ready())
      ensures View() == OutputState.RetireSite(old(View()))
    {
      hide Inv, Prepared;
      RetireSiteMakesSafe(View(), plan, Cm119);
      SetEncoder(false);
      cm119 := site0.Retire(cm119);
      parallel := site1.Retire(parallel);
    }

    /** Takes the encoder pin over. The caller has made sure that no site owns it. */
    method BindEncoder(next: Option<Encoder>, answer: Answer) returns (ok: bool)
      requires Valid() && OutputRuns.EncoderFits(View(), next)
      modifies `cm119, `parallel, `encoder, `pulses, site0, site1
      ensures Valid() && (old(Ready()) ==> Ready())
      ensures (View(), ok) == OutputState.BindEncoder(old(View()), plan, next, answer)
    {
      hide Inv, Prepared;
      BindEncoderPrepares(View(), plan, next, answer);
      if Ready() {
        OutputRuns.EncoderBoundKeepsPrepared(View(), plan, next, answer);
      }
      match next {
        case None =>
          SetEncoder(false);
          encoder := None;
          return true;
        case Some(e) =>
          var state := if e.place.Cm119? then site0 else site1;
          var taken := state.Reserve(e.mask);
          SetEncoder(false);
          encoder := next;
          SetEncoder(false);
          ok := Schedule(e.place, e.mask, {}, answer);
      }
    }

    method RebuildCm119(caps: Option<Mask>)
      requires Valid() && Resting(View()) && (plan.cm119.Some? ==> caps.Some?)
      modifies `site0, `pulses, tokens
      ensures Valid() && Resting(View()) && fresh(site0)
      ensures View() == PrepareFirst(old(View()), plan, caps)
    {
      hide Inv, Resting;
      PrepareFirstKeepsInv(View(), plan, caps);
      var high := site0.safeHigh * BYTE;
      var c := match plan.cm119 case None => Cm119Plan({}, {}, {}) case Some(p) => p.(outputs := caps.value * p.outputs);
      var token := tokens.Take();
      site0 := new SiteBankState(token, c.outputs, c.clip, if plan.cm119.None? then {} else cm119);
      site0.RestoreSafeHigh(high);
      pulses := pulses.(cm119 := {});
    }

    method RebuildParallel(p: ParallelPlan, caps: Mask)
      requires Valid() && Resting(View()) && plan.parallel == Some(p)
      modifies `site1, `pulses, tokens
      ensures Valid() && fresh(site1)
      ensures View() == PrepareSecond(old(View()), p, caps)
    {
      hide Inv, Resting;
      PrepareSecondKeepsInv(View(), plan, p, caps);
      var high := site1.safeHigh * BYTE;
      var token := tokens.Take();
      site1 := new SiteBankState(token, caps * p.outputs, p.ptt + (if radio.settings.Some? then RTX_PINS else {}), parallel);
      site1.RestoreSafeHigh(high);
      pulses := pulses.(parallel := {});
    }

    /** Fresh banks for the devices just opened, given the pins that each device reports if it answers. */
    method PrepareSite(cm119Caps: Option<Mask>, parallelCaps: Option<Mask>, answer: Answer) returns (ok: bool)
      requires Valid() && Resting(View())
      modifies `cm119, `parallel, `encoder, `pulses, `site0, `site1, site0, site1, tokens
      ensures Valid() && (ok ==> Ready())
      ensures (View(), ok) == Prepare(old(View()), plan, cm119Caps, parallelCaps, answer)
    {
      hide Inv, Prepared, Resting;
      PreparePrepares(View(), plan, cm119Caps, parallelCaps, answer);
      if plan.cm119.Some? && cm119Caps.None? {
        return false;
      }
      RebuildCm119(cm119Caps);
      if plan.parallel.None? {
        EncoderStaysFree(View(), plan);
        ok := BindEncoder(encoder, answer);
      } else if parallelCaps.None? {
        ok := false;
      } else {
        RebuildParallel(plan.parallel.value, parallelCaps.value);
        EncoderStaysFree(View(), plan);
        ok := BindEncoder(encoder, answer);
      }
    }
  }
}
