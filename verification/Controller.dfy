/** The serialized owner of controller delivery and program audio (rust/asl3/src/adapter.rs:740-833, 893-936). */
module Controller {
  import opened Wrappers
  import opened Pcm
  import opened StatusJournal
  import opened Delivery
  import Echo
  import DeliveryTheorems

  /** What survives a reload of the station. */
  class ReloadState {
    const mode: Mode
    const keyed: bool
    const latest: Qualification
    const echo: Echo.LegacyEcho

    constructor (mode: Mode, keyed: bool, latest: Qualification, echo: Echo.LegacyEcho)
      ensures this.mode == mode && this.keyed == keyed && this.latest == latest && this.echo == echo
    {
      this.mode, this.keyed, this.latest, this.echo := mode, keyed, latest, echo;
    }
  }

  class ControllerState {
    const mode: Mode
    var pending: Option<Pending>
    var keyed: bool
    var next: nat
    var discarded: nat
    var latest: Qualification
    var echo: Echo.LegacyEcho
    const programF32: array<Float>

    ghost predicate Valid()
      reads this, echo, echo.samples
    {
      && Delivery.Valid(View()) && echo.Valid() && programF32.Length == ADVANCED_FRAME
      && (pending.Some? ==> WellSized(pending.value.packet.frame))
    }

    ghost function View(): Deliverer
      reads this
    {
      Deliverer(pending, keyed, next, discarded, latest)
    }

    constructor (mode: Mode, echoEnabled: bool, maximumFrames: nat)
      ensures Valid() && this.mode == mode && fresh(echo) && fresh(echo.samples) && fresh(programF32)
      ensures View() == Deliverer(None, false, 0, 0, Qualification(false, false, false, None, false))
    {
      this.mode := mode;
      pending, keyed, next, discarded := None, false, 0, 0;
      latest := Qualification(false, false, false, None, false);
      echo := new Echo.LegacyEcho(echoEnabled, maximumFrames);
      programF32 := new Float[ADVANCED_FRAME](_ => NonFinite);
    }

    /** The receiver state comes first: an edge if it differs from the one delivered last. */
    method ReceiverPhase(current: Packet) returns (action: Option<Action>)
      requires Ready(current.journal)
      modifies `pending, `latest, `keyed
      ensures action.Some? ==> (View(), action) == FromReceiver(old(View()), current)
      ensures action.None? ==> FromReceiver(old(View()), current) == FromStatus(View(), current)
      ensures pending == Some(Pending(current, StatusEvents))
    {
      pending := Some(Pending(current, StatusEvents));
      latest := current.qualification;
      if keyed != current.qualification.receiverKeyed {
        keyed := current.qualification.receiverKeyed;
        return Some(if keyed then ReceiverKey(current.ctcss) else ReceiverUnkey);
      }
      return None;
    }

    /** Then the next event that the packet still carries. */
    method StatusPhase(current: Packet) returns (action: Option<Action>)
      requires Ready(current.journal) && pending == Some(Pending(current, StatusEvents))
      modifies `pending, `next, `discarded
      ensures action.Some? ==> (View(), action) == FromStatus(old(View()), current)
      ensures action.Some? ==> pending == Some(Pending(current, StatusEvents)) && !action.value.Voice?
      ensures action.None? ==> FromStatus(old(View()), current) == FromVoice(View(), current)
      ensures action.None? ==> pending == Some(Pending(current, VoiceFrame))
    {
      var oldest := OldestSequence(current.journal);
      if next < oldest {
        discarded := discarded + (oldest - next);
        next := oldest;
      }
      if next < current.journal.produced {
        var status := Get(current.journal, next);
        next := next + 1;
        return Some(Notify(status));
      }
      pending := Some(Pending(current, VoiceFrame));
      return None;
    }

    /** The next operation. `arrival` is what the handoff returns if it is asked, which happens at most once. */
    method Deliver(arrival: Option<Packet>) returns (action: Option<Action>)
      requires Valid() && ReadyArrival(arrival) && (arrival.Some? ==> WellSized(arrival.value.frame))
      modifies `pending, `latest, `keyed, `next, `discarded, echo, echo.samples
      ensures Valid() && (View(), action) == NextAction(old(View()), arrival)
      ensures action.Some? && action.value.Voice? ==>
                var packet := if old(pending).Some? then old(pending).value.packet else arrival.value;
                echo.View() == Echo.Receive(old(echo.View()), action.value.frame, Keyed(packet))
      ensures action.None? || !action.value.Voice? ==> echo.View() == old(echo.View())
    {
      ghost var goal := NextAction(View(), arrival);
      if pending.None? {
        match arrival {
          case None => return None;
          case Some(packet) => pending := Some(Pending(packet, ReceiverState));
        }
      }
      ghost var packet := pending.value.packet;
      while true
        invariant pending.Some? && pending.value.packet == packet && Ready(packet.journal) && WellSized(packet.frame)
        invariant echo.Valid() && echo.View() == old(echo.View())
        invariant NextAction(View(), None) == goal
        decreases match pending.value.phase case ReceiverState => 2 case StatusEvents => 1 case VoiceFrame => 0
      {
        var current := pending.value.packet;
        match pending.value.phase {
          case ReceiverState =>
            action := ReceiverPhase(current);
            if action.Some? {
              return;
            }
          case StatusEvents =>
            action := StatusPhase(current);
            if action.Some? {
              return;
            }
          case VoiceFrame =>
            pending := None;
            echo.Hear(current.frame, current.qualification.receiverKeyed);
            return Some(Voice(current.frame));
        }
      }
    }

    /** Converts the frame to submit: the recording's next one, or the controller's. */
    method FillProgram(frame: Frame, playing: bool, count: nat)
      requires programF32.Length == ADVANCED_FRAME && count <= ADVANCED_FRAME
      requires if playing then echo.playback + count <= echo.samples.Length else count <= |frame.samples|
      modifies programF32
      ensures programF32[..count]
                == Normalised(if playing then old(echo.samples[echo.playback..echo.playback + count])
                              else frame.samples[..count])
    {
      ghost var source := if playing then echo.samples[echo.playback..echo.playback + count] else frame.samples[..count];
      ghost var playback, samples := echo.playback, echo.samples;
      for index := 0 to count
        invariant playing ==> samples[playback..playback + count] == source
        invariant forall i | 0 <= i < index :: programF32[i] == Normalise(source[i])
      {
        var sample := if playing then echo.samples[echo.playback + index] else frame.samples[index];
        assert sample == source[index];
        programF32[index] := Normalise(sample);
      }
    }

    /** One program write. `pushed` is what the program ring was given, with the receiver state that goes with it. */
    method WriteProgram(frame: Frame, answer: Echo.RingAnswer)
      returns (result: Result<Echo.ProgramWrite, Echo.WriteError>, pushed: Option<(seq<Float>, Qualification)>)
      requires Valid() && WellSized(frame)
      modifies programF32, echo, echo.samples
      ensures Valid()
      ensures (echo.View(), result) == Echo.Write(old(echo.View()), mode, frame, answer)
      ensures pushed == if frame.mode != mode then None
                        else Some((Normalised(Echo.Submitted(old(echo.View()), frame)), latest))
    {
      if frame.mode != mode {
        return Err(Echo.WrongInterface), None;
      }
      Echo.WriteKeepsWhole(echo.View(), mode, frame, answer);
      var playing := echo.state == Echo.Playing;
      var count := if playing then APP_RPT_FRAME else |frame.samples|;
      assert playing ==> echo.samples[echo.playback..echo.playback + count] == Echo.Submitted(echo.View(), frame);
      assert !playing ==> frame.samples[..count] == Echo.Submitted(echo.View(), frame);
      FillProgram(frame, playing, count);
      pushed := Some((programF32[..count], latest));
      match answer {
        case Failed => return Err(Echo.ProgramRing), pushed;
        case Accepted(accepted) =>
          if accepted > count {
            return Err(Echo.InvalidProgramRingResult), pushed;
          }
          var completed := playing && echo.playback + count >= echo.length;
          if playing {
            echo.FinishFrame(count);
          }
          return Ok(Echo.ProgramWrite(if playing then Echo.LegacySource else Echo.Controller, count, accepted, completed)),
                 pushed;
      }
    }

    method SetEchoEnabled(enabled: bool)
      requires Valid()
      modifies this, echo, echo.samples
      ensures Valid() && echo == old(echo) && View() == old(View())
      ensures echo.View() == if mode == AppRpt then Echo.SetEnabled(old(echo.View()), enabled) else old(echo.View())
    {
      if mode == AppRpt {
        echo.Enable(enabled);
      }
    }

    /** State is captured only when no packet is pending or waiting in the handoff. */
    method CaptureReload(available: nat) returns (state: Option<ReloadState>)
      requires Valid()
      ensures state.None? <==> pending.Some? || available != 0
      ensures state.Some? ==>
                && state.value.mode == mode && state.value.keyed == keyed && state.value.latest == latest
                && fresh(state.value.echo) && fresh(state.value.echo.samples)
                && state.value.echo.Valid() && state.value.echo.View() == echo.View()
    {
      if pending.Some? || available != 0 {
        return None;
      }
      var copied := new Echo.LegacyEcho.Clone(echo);
      var captured := new ReloadState(mode, keyed, latest, copied);
      return Some(captured);
    }

    /** The captured state replaces this generation's, unless it belongs to the other interface. */
    method RestoreReload(state: ReloadState)
      requires Valid() && state.echo.Valid()
      modifies this
      ensures Valid() && pending == old(pending) && next == old(next) && discarded == old(discarded)
      ensures state.mode != mode ==> View() == old(View()) && echo == old(echo)
      ensures state.mode == mode ==> keyed == state.keyed && latest == state.latest && echo == state.echo
      ensures state.mode == mode && old(View()) == Deliverer(None, old(keyed), 0, 0, old(latest)) ==>
                Some(View()) == DeliveryTheorems.Reloaded(Deliverer(None, state.keyed, 0, 0, state.latest))
    {
      if mode != state.mode {
        return;
      }
      keyed, echo, latest := state.keyed, state.echo, state.latest;
    }
  }

  function Normalised(samples: seq<int>): seq<Float> {
    seq(|samples|, i requires 0 <= i < |samples| => Normalise(samples[i]))
  }
}
