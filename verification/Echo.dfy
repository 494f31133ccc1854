/** The legacy echo recorder (rust/asl3/src/adapter.rs:504-588, 794-833): what it retains, what it plays, and the array
    it does so in. */
module Echo {
  import opened Wrappers
  import opened Pcm

  datatype State = Disabled | Recording | Playing

  /** The recorder without its storage: `recorded` is the used part of the buffer. */
  datatype Echo = Echo(state: State, recorded: seq<int>, playback: nat, capacity: nat)

  function Cleared(e: Echo): Echo {
    e.(recorded := [], playback := 0)
  }

  function SetEnabled(e: Echo, enabled: bool): Echo {
    Cleared(e).(state := if enabled then Recording else Disabled)
  }

  /** How much of a frame still fits. */
  function Room(e: Echo, frame: Frame): (copied: nat)
    requires |e.recorded| <= e.capacity
    ensures copied <= |frame.samples|
  {
    if |frame.samples| <= e.capacity - |e.recorded| then |frame.samples| else e.capacity - |e.recorded|
  }

  function Receive(e: Echo, frame: Frame, keyed: bool): Echo
    requires |e.recorded| <= e.capacity
  {
    if e.state != Recording then e
    else if keyed && frame.mode == AppRpt then e.(recorded := e.recorded + frame.samples[..Room(e, frame)])
    else if e.recorded != [] then e.(state := Playing, playback := 0)
    else e
  }

  function FinishPlaybackFrame(e: Echo, count: nat): Echo {
    if e.playback + count >= |e.recorded| then Cleared(e).(state := Recording)
    else e.(playback := e.playback + count)
  }

  /** The buffer and everything recorded in it are whole frames; a playing recorder is always inside its recording. */
  ghost predicate Whole(e: Echo) {
    && e.capacity % APP_RPT_FRAME == 0 && |e.recorded| % APP_RPT_FRAME == 0 && e.playback % APP_RPT_FRAME == 0
    && |e.recorded| <= e.capacity
    && (e.state == Playing ==> e.playback < |e.recorded|)
    && (e.state != Playing ==> e.playback == 0)
    && (e.state == Disabled ==> e.recorded == [])
  }

  // ----- program writes -----

  datatype ProgramSource = Controller | LegacySource

  /** What the program ring answers. */
  datatype RingAnswer = Failed | Accepted(count: nat)

  datatype WriteError = WrongInterface | ProgramRing | InvalidProgramRingResult

  datatype ProgramWrite = ProgramWrite(source: ProgramSource, submitted: nat, accepted: nat, echoCompleted: bool)

  /** The samples one write submits: one frame of the recording while it is playing, else the controller's frame. */
  function Submitted(e: Echo, frame: Frame): seq<int>
    requires Whole(e)
  {
    if e.state == Playing then e.recorded[e.playback..e.playback + APP_RPT_FRAME] else frame.samples
  }

  /** A write advances the playback only when the ring answered within bounds. */
  function Write(e: Echo, mode: Mode, frame: Frame, answer: RingAnswer): (Echo, Result<ProgramWrite, WriteError>)
    requires Whole(e)
  {
    var count := |Submitted(e, frame)|;
    if frame.mode != mode then (e, Err(WrongInterface))
    else if answer.Failed? then (e, Err(ProgramRing))
    else if answer.count > count then (e, Err(InvalidProgramRingResult))
    else if e.state == Playing then
      (FinishPlaybackFrame(e, count),
       Ok(ProgramWrite(LegacySource, count, answer.count, e.playback + count >= |e.recorded|)))
    else (e, Ok(ProgramWrite(Controller, count, answer.count, false)))
  }

  // ----- what every operation keeps -----

  lemma ReceiveKeepsWhole(e: Echo, frame: Frame, keyed: bool)
    requires Whole(e) && WellSized(frame)
    ensures Whole(Receive(e, frame, keyed))
    ensures e.state == Recording && keyed && frame.mode == AppRpt ==>
              Room(e, frame) == if |e.recorded| < e.capacity then APP_RPT_FRAME else 0
  {
  }

  lemma WriteKeepsWhole(e: Echo, mode: Mode, frame: Frame, answer: RingAnswer)
    requires Whole(e) && WellSized(frame)
    ensures Whole(Write(e, mode, frame, answer).0)
    ensures e.state == Playing ==> |Submitted(e, frame)| == APP_RPT_FRAME
  {
    if e.state == Playing {
      NextFrameFits(e.playback, |e.recorded|);
    }
  }

  /** Between two frame boundaries there is room for a whole frame. */
  lemma NextFrameFits(from: nat, limit: nat)
    requires from % APP_RPT_FRAME == 0 && limit % APP_RPT_FRAME == 0 && from < limit
    ensures from + APP_RPT_FRAME <= limit && (from + APP_RPT_FRAME) % APP_RPT_FRAME == 0
  {
  }

  // ----- what each operation is for -----

  /** Switching on starts an empty recording and switching off ends it; a recorder that is off hears nothing and leaves the
      program to the controller. */
  lemma SwitchTakesEffect(e: Echo, enabled: bool, frame: Frame, keyed: bool)
    requires Whole(e)
    ensures SetEnabled(e, enabled) == Echo(if enabled then Recording else Disabled, [], 0, e.capacity)
    ensures Whole(SetEnabled(e, enabled))
    ensures !enabled ==>
              && Receive(SetEnabled(e, false), frame, keyed) == SetEnabled(e, false)
              && Submitted(SetEnabled(e, false), frame) == frame.samples
  {
  }

  /** A recording recorder adds keyed app_rpt frames while they fit, and starts to play what it has at the first other
      frame; without a recording, or while playing or off, it stays as it is. */
  lemma HearingTakesEffect(e: Echo, frame: Frame, keyed: bool)
    requires Whole(e) && WellSized(frame)
    ensures var records := keyed && frame.mode == AppRpt;
            Receive(e, frame, keyed)
              == if e.state == Recording && records && |e.recorded| < e.capacity then e.(recorded := e.recorded + frame.samples)
                 else if e.state == Recording && !records && e.recorded != [] then e.(state := Playing, playback := 0)
                 else e
  {
    if e.state == Recording && keyed && frame.mode == AppRpt {
      ReceiveKeepsWhole(e, frame, keyed);
      assert frame.samples[..APP_RPT_FRAME] == frame.samples;
      if |e.recorded| == e.capacity {
        assert e.recorded + frame.samples[..0] == e.recorded;
      }
    }
  }

  /** What a write offers to the ring and how it is reported: while the echo plays its next frame, and the end of the
      recording with the last one; else the controller's own samples. A write that is refused or fails plays nothing. */
  lemma WriteTakesEffect(e: Echo, mode: Mode, frame: Frame, answer: RingAnswer)
    requires Whole(e) && WellSized(frame)
    ensures e.state != Playing ==> Submitted(e, frame) == frame.samples
    ensures e.state == Playing ==>
              && |Submitted(e, frame)| == APP_RPT_FRAME
              && forall i | 0 <= i < APP_RPT_FRAME :: Submitted(e, frame)[i] == e.recorded[e.playback + i]
    ensures var (after, result) := Write(e, mode, frame, answer);
            var count := |Submitted(e, frame)|;
            && (result.Ok? <==> frame.mode == mode && answer.Accepted? && answer.count <= count)
            && (result == Err(WrongInterface) <==> frame.mode != mode)
            && (result == Err(ProgramRing) <==> frame.mode == mode && answer.Failed?)
            && (result.Err? || e.state != Playing ==> after == e)
            && (result.Ok? ==>
                  && result.value.source == (if e.state == Playing then LegacySource else Controller)
                  && result.value.submitted == count && result.value.accepted == answer.count
                  && (result.value.echoCompleted <==> e.state == Playing && after.state == Recording))
            && (result.Ok? && e.state == Playing && after.state == Playing ==> after.playback == e.playback + count)
  {
    WriteKeepsWhole(e, mode, frame, answer);
  }

  // ----- conservation over runs -----

  /** A reload makes a controller for the interface `mode`, with an echo of its own that a same-mode reload replaces by the
      one in use; switching acts in app_rpt mode only. */
  datatype Event =
    | Heard(frame: Frame, keyed: bool)
    | Wrote(frame: Frame, answer: RingAnswer)
    | Switched(enabled: bool)
    | Reloaded(mode: Mode, enabled: bool, maximumFrames: nat)

  /** The recorder in use, with what it still had to play when it was last switched, what was recorded since then, and
      what of it got into the program. */
  datatype Ledger = Ledger(mode: Mode, echo: Echo, kept: seq<int>, recorded: seq<int>, played: seq<int>)

  /** The part of the recording that has not been played yet. */
  function Remaining(e: Echo): seq<int>
    requires Whole(e)
  {
    if e.state == Playing then e.recorded[e.playback..] else e.recorded
  }

  ghost predicate Sized(event: Event) {
    event.Heard? || event.Wrote? ==> WellSized(event.frame)
  }

  /** The samples that hearing a frame adds to the recording. */
  function Taken(e: Echo, frame: Frame, keyed: bool): seq<int>
    requires Whole(e)
  {
    if e.state == Recording && keyed && frame.mode == AppRpt then frame.samples[..Room(e, frame)] else []
  }

  /** The echo samples that a write gets into the program: those of a successful one while playing. */
  function Played(e: Echo, mode: Mode, frame: Frame, answer: RingAnswer): seq<int>
    requires Whole(e)
  {
    if e.state == Playing && Write(e, mode, frame, answer).1.Ok? then Submitted(e, frame) else []
  }

  function Created(enabled: bool, maximumFrames: nat): Echo {
    Echo(if enabled then Recording else Disabled, [], 0, maximumFrames * APP_RPT_FRAME)
  }

  /** Whether an event starts the recording anew. */
  predicate Restarts(l: Ledger, event: Event) {
    (event.Switched? && l.mode == AppRpt) || (event.Reloaded? && event.mode != l.mode)
  }

  function Turn(l: Ledger, event: Event): Ledger
    requires Whole(l.echo)
  {
    match event
    case Heard(frame, keyed) =>
      l.(echo := Receive(l.echo, frame, keyed), recorded := l.recorded + Taken(l.echo, frame, keyed))
    case Wrote(frame, answer) =>
      l.(echo := Write(l.echo, l.mode, frame, answer).0, played := l.played + Played(l.echo, l.mode, frame, answer))
    case Switched(enabled) =>
      if l.mode != AppRpt then l else Ledger(l.mode, SetEnabled(l.echo, enabled), [], [], [])
    case Reloaded(mode, enabled, maximumFrames) =>
      if mode == l.mode then l else Ledger(mode, Created(enabled, maximumFrames), [], [], [])
  }

  /** What was played and what is left to play are together exactly what was recorded, in order. */
  ghost predicate Accounted(l: Ledger) {
    Whole(l.echo) && l.played + Remaining(l.echo) == l.kept + l.recorded
  }

  ghost function Run(l: Ledger, events: seq<Event>): (after: Ledger)
    requires Whole(l.echo) && forall k | 0 <= k < |events| :: Sized(events[k])
    ensures Whole(after.echo)
    decreases |events|
  {
    if events == [] then l
    else
      TurnKeepsWhole(l, events[0]);
      Run(Turn(l, events[0]), events[1..])
  }

  lemma TurnKeepsWhole(l: Ledger, event: Event)
    requires Whole(l.echo) && Sized(event)
    ensures Whole(Turn(l, event).echo)
  {
  }

  lemma HeardConserves(e: Echo, frame: Frame, keyed: bool)
    requires Whole(e) && Whole(Receive(e, frame, keyed))
    ensures Remaining(Receive(e, frame, keyed)) == Remaining(e) + Taken(e, frame, keyed)
  {
  }

  lemma WrittenConserves(e: Echo, mode: Mode, frame: Frame, answer: RingAnswer)
    requires Whole(e) && Whole(Write(e, mode, frame, answer).0)
    ensures Played(e, mode, frame, answer) + Remaining(Write(e, mode, frame, answer).0) == Remaining(e)
  {
  }

  lemma RestartAccounts(l: Ledger, event: Event)
    requires Whole(l.echo) && Restarts(l, event)
    ensures Accounted(Turn(l, event)) && Turn(l, event).kept == []
  {
    hide Receive, Write;
    TurnKeepsWhole(l, event);
  }

  lemma TurnConserves(l: Ledger, event: Event)
    requires Accounted(l) && Sized(event)
    ensures Accounted(Turn(l, event))
  {
    hide Receive, Write, Remaining, Whole, Taken, Played, Room;
    TurnKeepsWhole(l, event);
    var after := Turn(l, event);
    match event {
      case Heard(frame, keyed) =>
        HeardConserves(l.echo, frame, keyed);
        assert l.played + Remaining(after.echo) == l.kept + l.recorded + Taken(l.echo, frame, keyed);
      case Wrote(frame, answer) =>
        WrittenConserves(l.echo, l.mode, frame, answer);
        assert after.played + Remaining(after.echo) == l.played + Remaining(l.echo);
      case Switched(_) =>
        if Restarts(l, event) {
          RestartAccounts(l, event);
        }
      case Reloaded(_, _, _) =>
        if Restarts(l, event) {
          RestartAccounts(l, event);
        }
    }
  }

  /** Over any run of receiving, writing, switching and reloading, failed writes included, what was played since the last
      switch and what is left to play are together exactly what was recorded since then, in order: nothing is skipped,
      repeated or made up. */
  lemma {:induction false} PlayedIsRecorded(l: Ledger, events: seq<Event>)
    requires Accounted(l) && forall k | 0 <= k < |events| :: Sized(events[k])
    ensures Accounted(Run(l, events))
    decreases |events|
  {
    if events != [] {
      TurnConserves(l, events[0]);
      PlayedIsRecorded(Turn(l, events[0]), events[1..]);
    }
  }

  lemma {:induction false} RunAppend(l: Ledger, first: seq<Event>, second: seq<Event>)
    requires Whole(l.echo)
    requires (forall k | 0 <= k < |first| :: Sized(first[k])) && (forall k | 0 <= k < |second| :: Sized(second[k]))
    ensures Run(l, first + second) == Run(Run(l, first), second)
    decreases |first|
  {
    if first == [] {
      assert first + second == second;
    } else {
      TurnKeepsWhole(l, first[0]);
      assert (first + second)[1..] == first[1..] + second;
      RunAppend(Turn(l, first[0]), first[1..], second);
    }
  }

  /** After a switch everything that gets into the program was heard after it: neither the recording before it nor what
      was left to play survives. A reload of the same interface hands the recorder over as it is, by definition of `Turn`;
      that `CaptureReload` and `RestoreReload` do so is proved of the controller. */
  lemma SwitchStartsAnew(l: Ledger, before: seq<Event>, event: Event, later: seq<Event>)
    requires Whole(l.echo) && Sized(event)
    requires (forall k | 0 <= k < |before| :: Sized(before[k])) && (forall k | 0 <= k < |later| :: Sized(later[k]))
    ensures Restarts(Run(l, before), event) ==>
              var after := Run(l, before + [event] + later);
              after.kept == [] && after.played + Remaining(after.echo) == after.recorded
    ensures event.Reloaded? && event.mode == Run(l, before).mode ==>
              Run(l, before + [event] + later) == Run(l, before + later)
  {
    hide Receive, Write, Remaining, Whole, Taken, Played, Sized;
    var now := Run(l, before);
    var next := Turn(now, event);
    RunThrough(l, before, event, later);
    if Restarts(now, event) {
      RestartAccounts(now, event);
      PlayedIsRecorded(next, later);
      NothingKept(next, later);
      var after := Run(next, later);
      assert [] + after.recorded == after.recorded;
    }
  }

  lemma RunThrough(l: Ledger, before: seq<Event>, event: Event, later: seq<Event>)
    requires Whole(l.echo) && Sized(event)
    requires (forall k | 0 <= k < |before| :: Sized(before[k])) && (forall k | 0 <= k < |later| :: Sized(later[k]))
    ensures Whole(Turn(Run(l, before), event).echo)
    ensures Run(l, before + [event] + later) == Run(Turn(Run(l, before), event), later)
    ensures Run(l, before + later) == Run(Run(l, before), later)
  {
    hide Turn, Whole, Sized;
    var now := Run(l, before);
    TurnKeepsWhole(now, event);
    RunAppend(l, before, [event] + later);
    RunAppend(l, before, later);
    assert before + [event] + later == before + ([event] + later);
    assert ([event] + later)[0] == event && ([event] + later)[1..] == later;
    assert Run(now, [event] + later) == Run(Turn(now, event), later);
  }

  lemma {:induction false} NothingKept(l: Ledger, events: seq<Event>)
    requires Whole(l.echo) && l.kept == [] && forall k | 0 <= k < |events| :: Sized(events[k])
    ensures Run(l, events).kept == []
    decreases |events|
  {
    if events != [] {
      TurnKeepsWhole(l, events[0]);
      NothingKept(Turn(l, events[0]), events[1..]);
    }
  }

  /** Writes that the ring accepts, in part or in whole. */
  ghost predicate Successful(events: seq<Event>, mode: Mode) {
    forall k | 0 <= k < |events| ::
      && events[k].Wrote? && WellSized(events[k].frame) && events[k].frame.mode == mode
      && events[k].answer.Accepted? && events[k].answer.count <= APP_RPT_FRAME
  }

  /** A recording of n frames is played by n successful writes, and then the recorder is empty and recording. */
  lemma {:induction false} PlaysToTheEnd(l: Ledger, events: seq<Event>)
    requires Whole(l.echo) && Successful(events, l.mode)
    requires l.echo.state == Playing && |l.echo.recorded| - l.echo.playback == |events| * APP_RPT_FRAME
    ensures Run(l, events)
              == l.(echo := Echo(Recording, [], 0, l.echo.capacity),
                    played := l.played + l.echo.recorded[l.echo.playback..])
    decreases |events|
  {
    var e := l.echo;
    TurnKeepsWhole(l, events[0]);
    var end := e.playback + APP_RPT_FRAME;
    assert e.recorded[e.playback..] == e.recorded[e.playback..end] + e.recorded[end..];
    if |events| > 1 {
      PlaysToTheEnd(Turn(l, events[0]), events[1..]);
    }
  }

  // ----- from the receiver to the program -----

  function Samples(frames: seq<Frame>): seq<int> {
    if frames == [] then [] else frames[0].samples + Samples(frames[1..])
  }

  ghost predicate Recordable(frames: seq<Frame>) {
    forall k | 0 <= k < |frames| :: frames[k].mode == AppRpt && WellSized(frames[k])
  }

  function Hearing(frames: seq<Frame>): (events: seq<Event>)
    ensures |events| == |frames| && forall k | 0 <= k < |frames| :: events[k] == Heard(frames[k], true)
  {
    seq(|frames|, k requires 0 <= k < |frames| => Heard(frames[k], true))
  }

  function Fitting(frames: seq<Frame>, room: nat): seq<Frame> {
    if |frames| <= room then frames else frames[..room]
  }

  lemma HearOne(l: Ledger, frame: Frame, used: nat, room: nat)
    requires Whole(l.echo) && l.echo.state == Recording && frame.mode == AppRpt && WellSized(frame)
    requires |l.echo.recorded| == used * APP_RPT_FRAME && l.echo.capacity == (used + room) * APP_RPT_FRAME
    ensures var next := Turn(l, Heard(frame, true));
            && Whole(next.echo)
            && next == (if room == 0 then l
                        else l.(echo := l.echo.(recorded := l.echo.recorded + frame.samples),
                                recorded := l.recorded + frame.samples))
  {
    HearingTakesEffect(l.echo, frame, true);
    ReceiveKeepsWhole(l.echo, frame, true);
    assert frame.samples[..APP_RPT_FRAME] == frame.samples;
    assert l.recorded + frame.samples[..0] == l.recorded;
  }

  /** Keyed frames are recorded one after the other until no more fits. */
  lemma {:induction false} HearingRecords(l: Ledger, frames: seq<Frame>, used: nat, room: nat)
    requires Whole(l.echo) && l.echo.state == Recording && Recordable(frames)
    requires |l.echo.recorded| == used * APP_RPT_FRAME && l.echo.capacity == (used + room) * APP_RPT_FRAME
    ensures var heard := Samples(Fitting(frames, room));
            Run(l, Hearing(frames)) == l.(echo := l.echo.(recorded := l.echo.recorded + heard), recorded := l.recorded + heard)
    decreases |frames|
  {
    hide Whole, Turn, Sized, Samples, Fitting, Hearing, Run;
    if frames == [] {
      NothingHeard(l, room);
    } else {
      HearOne(l, frames[0], used, room);
      HearingFirst(l, frames, room);
      if room > 0 {
        HearingRecords(Turn(l, Heard(frames[0], true)), frames[1..], used + 1, room - 1);
        var first, heard := frames[0].samples, Samples(Fitting(frames[1..], room - 1));
        assert l.echo.recorded + first + heard == l.echo.recorded + (first + heard);
        assert l.recorded + first + heard == l.recorded + (first + heard);
      } else {
        HearingRecords(l, frames[1..], used, 0);
      }
    }
  }

  lemma NothingHeard(l: Ledger, room: nat)
    requires Whole(l.echo)
    ensures Run(l, Hearing([])) == l && Samples(Fitting([], room)) == []
    ensures l.echo.recorded + [] == l.echo.recorded && l.recorded + [] == l.recorded
  {
  }

  lemma HearingFirst(l: Ledger, frames: seq<Frame>, room: nat)
    requires frames != [] && Recordable(frames) && Whole(l.echo) && Whole(Turn(l, Heard(frames[0], true)).echo)
    ensures Recordable(frames[1..])
    ensures Run(l, Hearing(frames)) == Run(Turn(l, Heard(frames[0], true)), Hearing(frames[1..]))
    ensures Samples(Fitting(frames, room))
              == if room == 0 then Samples(Fitting(frames[1..], 0))
                 else frames[0].samples + Samples(Fitting(frames[1..], room - 1))
  {
    hide Turn, Whole;
    assert Hearing(frames)[1..] == Hearing(frames[1..]);
    if room > 0 {
      assert Fitting(frames, room)[0] == frames[0] && Fitting(frames, room)[1..] == Fitting(frames[1..], room - 1);
    }
  }

  lemma {:induction false} SamplesLength(frames: seq<Frame>)
    requires Recordable(frames)
    ensures |Samples(frames)| == |frames| * APP_RPT_FRAME
  {
    if frames != [] {
      SamplesLength(frames[1..]);
    }
  }

  /** The echo as a whole: an enabled recorder that hears keyed frames and then an unkeyed one plays, into as many successful
      writes as it has recorded frames, exactly what it heard as far as it fitted, and is then empty and recording again. */
  lemma HeardIsPlayed(maximumFrames: nat, frames: seq<Frame>, silent: Frame, writes: seq<Event>)
    requires maximumFrames > 0 && frames != [] && Recordable(frames) && WellSized(silent)
    requires Successful(writes, AppRpt) && |writes| == |Fitting(frames, maximumFrames)|
    ensures var l := Ledger(AppRpt, Created(true, maximumFrames), [], [], []);
            var after := Run(l, Hearing(frames) + [Heard(silent, false)] + writes);
            && after.played == Samples(Fitting(frames, maximumFrames))
            && after.echo == Created(true, maximumFrames)
  {
    var l := Ledger(AppRpt, Created(true, maximumFrames), [], [], []);
    var fitting := Fitting(frames, maximumFrames);
    var heard := Samples(fitting);
    HearingRecords(l, frames, 0, maximumFrames);
    SamplesLength(fitting);
    RunThrough(l, Hearing(frames), Heard(silent, false), writes);
    var recorded := Run(l, Hearing(frames));
    assert [] + heard == heard;
    HearingTakesEffect(recorded.echo, silent, false);
    var playing := Turn(recorded, Heard(silent, false));
    PlaysToTheEnd(playing, writes);
    assert heard[0..] == heard;
  }

  // ----- the recorder in its buffer -----

  class LegacyEcho {
    var state: State
    const samples: array<int>
    var length: nat
    var playback: nat

    ghost predicate Valid()
      reads this, samples
    {
      && length <= samples.Length
      && (forall i | length <= i < samples.Length :: samples[i] == 0)
      && Whole(Echo(state, samples[..length], playback, samples.Length))
    }

    ghost function View(): (e: Echo)
      requires Valid()
      reads this, samples
      ensures Whole(e)
    {
      Echo(state, samples[..length], playback, samples.Length)
    }

    constructor (enabled: bool, maximumFrames: nat)
      ensures Valid() && fresh(samples)
      ensures View() == Created(enabled, maximumFrames)
    {
      state := if enabled then Recording else Disabled;
      samples := new int[maximumFrames * APP_RPT_FRAME](_ => 0);
      length, playback := 0, 0;
    }

    constructor Clone(other: LegacyEcho)
      requires other.Valid()
      ensures Valid() && fresh(samples) && View() == other.View()
    {
      var copied := new int[other.samples.Length](_ => 0);
      samples := copied;
      state, length, playback := other.state, other.length, other.playback;
      new;
      forall i | 0 <= i < samples.Length {
        samples[i] := other.samples[i];
      }
      assert samples[..length] == other.samples[..length];
    }

    method Clear()
      requires length <= samples.Length && forall i | length <= i < samples.Length :: samples[i] == 0
      modifies this, samples
      ensures length == 0 && playback == 0 && state == old(state)
      ensures forall i | 0 <= i < samples.Length :: samples[i] == 0
    {
      forall i | 0 <= i < length {
        samples[i] := 0;
      }
      length, playback := 0, 0;
    }

    method Enable(enabled: bool)
      requires Valid()
      modifies this, samples
      ensures Valid() && View() == SetEnabled(old(View()), enabled)
    {
      Clear();
      state := if enabled then Recording else Disabled;
    }

    method Hear(frame: Frame, keyed: bool)
      requires Valid() && WellSized(frame)
      modifies this, samples
      ensures Valid() && View() == Receive(old(View()), frame, keyed)
    {
      ReceiveKeepsWhole(View(), frame, keyed);
      if state != Recording {
        return;
      }
      if keyed && frame.mode == AppRpt {
        var room := samples.Length - length;
        var copied := if |frame.samples| < room then |frame.samples| else room;
        forall i | 0 <= i < copied {
          samples[length + i] := frame.samples[i];
        }
        length := length + copied;
        assert samples[..length] == old(samples[..length]) + frame.samples[..copied];
      } else if length != 0 {
        state, playback := Playing, 0;
      }
    }

    method FinishFrame(count: nat)
      requires Valid() && state == Playing && count == APP_RPT_FRAME
      modifies this, samples
      ensures Valid() && View() == FinishPlaybackFrame(old(View()), count)
    {
      playback := playback + count;
      if playback >= length {
        Clear();
        state := Recording;
      }
    }
  }
}
