/** sequence_engine.py: the settings, the debounced flush, and the step estimate. */
module SequenceEngine {
  // Each operation is a function from the engine state to the next one and the commands it sends; the
  // class below performs them.

  import opened Firmware
  import opened Config
  import opened GpioDriver
  import opened Options

  datatype Engine = Engine(
    settings: Settings, paused: bool,
    stepAtResume: int, resumeTime: real, periodUs: int,
    flushTimer: bool, pendingPeriod: bool, pendingCycle: bool)
  {
    predicate Pending() {
      pendingPeriod || pendingCycle
    }

    predicate Valid() {
      && settings.Valid()
      && (paused ==> !Pending())
      && (!paused ==> periodUs == PeriodUs(settings))
      && (Pending() <==> flushTimer)
    }
  }

  const NEW_ENGINE := Engine(Settings(0, DEFAULT_FREQ, false), true, 0, 0.0, 0, false, false, false)

  /** The step live at Pi time `now`, estimated from the time since the last resume. */
  function Estimate(e: Engine, now: real): int
    requires e.settings.Valid()
  {
    var n := |PackedCycle(e.settings)|;
    if e.periodUs <= 0 then 0
    else
      var elapsedUs := Trunc((now - e.resumeTime) * 1000000.0);
      var ticks := if elapsedUs > 0 then elapsedUs / e.periodUs else 0;
      (e.stepAtResume + ticks) % n
  }

  function ClampFreq(hz: real): (f: real)
    ensures MIN_FREQ <= f <= MAX_FREQ
  {
    if hz < MIN_FREQ then MIN_FREQ else if hz > MAX_FREQ then MAX_FREQ else hz
  }

  function ClampIndex(i: int): (j: int)
    ensures 0 <= j < NUM_SEQUENCES
  {
    if i < 0 then 0 else if i >= NUM_SEQUENCES then NUM_SEQUENCES - 1 else i
  }

  function WithFrequency(e: Engine, hz: real, now: real): Engine
    requires e.settings.Valid()
  {
    var snap := if !e.paused && e.periodUs > 0
                then e.(stepAtResume := Estimate(e, now), resumeTime := now) else e;
    var s := e.settings.(freq := ClampFreq(hz));
    var next := snap.(settings := s, periodUs := PeriodUs(s));
    if e.paused then next else next.(pendingPeriod := true, flushTimer := true)
  }

  function WithSequence(e: Engine, index: int, now: real): Engine {
    var next := e.(settings := e.settings.(seqIndex := ClampIndex(index)), stepAtResume := 0, resumeTime := now);
    if e.paused then next else next.(pendingCycle := true, flushTimer := true)
  }

  function WithPulseMode(e: Engine, on: bool, now: real): Engine
    requires e.settings.Valid()
  {
    var s := e.settings.(pulse := on);
    var next := e.(settings := s, stepAtResume := 0, resumeTime := now, periodUs := PeriodUs(s));
    if e.paused then next else next.(pendingCycle := true, flushTimer := true)
  }

  function WithoutFlush(e: Engine): Engine {
    e.(flushTimer := false, pendingPeriod := false, pendingCycle := false)
  }

  function Paused(e: Engine): Engine {
    WithoutFlush(e.(paused := true))
  }

  function PauseCommands(e: Engine): seq<Command> {
    if e.paused then [] else [H]
  }

  function Anchored(e: Engine, offset: Option<real>, t: Times): Engine {
    var anchor := StartAnchor(offset, t);
    e.(stepAtResume := 0, resumeTime := if anchor.Some? then anchor.value else t.now)
  }

  function Unpaused(e: Engine): Engine
    requires e.settings.Valid()
  {
    WithoutFlush(e.(paused := false, periodUs := PeriodUs(e.settings)))
  }

  /** _program_and_go sends C, F, P and G; the offset used for the anchor is the new one. */
  function GoCommands(e: Engine): seq<Command>
    requires e.settings.Valid()
  {
    [C(PackedCycle(e.settings)), F(if e.periodUs < 50 then 50 else e.periodUs), P, G]
  }

  /** _program_and_go_live sends E, F and G, with the offset already held. */
  function GoLiveCommands(e: Engine): seq<Command>
    requires e.settings.Valid()
  {
    [E(PackedCycle(e.settings)), F(if e.periodUs < 50 then 50 else e.periodUs), G]
  }

  function Flushed(e: Engine, offset: Option<real>, t: Times): Engine {
    var clear := WithoutFlush(e);
    if e.paused || !e.Pending() then clear else Anchored(clear, SyncedOffset(offset, t), t)
  }

  function FlushCommands(e: Engine): seq<Command>
    requires e.settings.Valid()
  {
    if e.paused || !e.Pending() then [] else GoCommands(e)
  }

  // ----- the step across settings -----------------------------------------------------------------

  /** A new frequency does not move the step: at the moment it is set the estimate is what it was. */
  lemma FrequencyKeepsStep(e: Engine, hz: real, now: real)
    requires e.Valid() && !e.paused
    ensures Estimate(WithFrequency(e, hz, now), now) == Estimate(e, now)
  {
    hide PeriodUs;
    var r := WithFrequency(e, hz, now);
    var n := |PackedCycle(e.settings)|;
    assert |PackedCycle(r.settings)| == n;
    PeriodArithmetic(e.settings.seqIndex, e.settings.freq);
    PeriodArithmetic(r.settings.seqIndex, r.settings.freq);
    ModUnique(Estimate(e, now), n, 0, Estimate(e, now));
  }

  /** The estimate counts whole periods from this moment on, from step 0, and is 0 before it. */
  ghost predicate CountsFrom(e: Engine, from: real, later: real)
    requires e.settings.Valid() && e.periodUs > 0
  {
    var n := if e.settings.pulse then 2 else 4;
    Estimate(e, later) == if later <= from then 0 else (((later - from) * 1000000.0).Floor / e.periodUs) % n
  }

  /** A new sequence or pulse mode restarts the count at that moment, and a start at its anchor. */
  lemma RestartsTheCount(e: Engine, index: int, on: bool, now: real, o: Option<real>, t: Times, later: real)
    requires e.Valid() && !e.paused
    ensures var r := WithSequence(e, index, now);
      r.Valid() && r.periodUs > 0 && CountsFrom(r, now, later)
    ensures var r := WithPulseMode(e, on, now);
      r.Valid() && r.periodUs > 0 && CountsFrom(r, now, later)
    ensures var r, a := Anchored(e, o, t), StartAnchor(o, t);
      r.Valid() && r.periodUs > 0 && CountsFrom(r, if a.Some? then a.value else t.now, later)
  {
    hide PeriodUs, PackedCycle, CountsFrom, StartAnchor;
    var r1, r2, r3 := WithSequence(e, index, now), WithPulseMode(e, on, now), Anchored(e, o, t);
    PeriodIgnoresSequence(e.settings, ClampIndex(index));
    CountsFromStep0(r1, now, later);
    CountsFromStep0(r2, now, later);
    CountsFromStep0(r3, r3.resumeTime, later);
  }

  lemma PeriodIgnoresSequence(s: Settings, index: int)
    requires s.Valid() && 0 <= index < NUM_SEQUENCES
    ensures PeriodUs(s.(seqIndex := index)) == PeriodUs(s)
  {
  }

  lemma CountsFromStep0(e: Engine, from: real, later: real)
    requires e.Valid() && !e.paused && e.stepAtResume == 0 && e.resumeTime == from
    ensures e.periodUs > 0 && CountsFrom(e, from, later)
  {
    hide PeriodUs;
    PeriodArithmetic(e.settings.seqIndex, e.settings.freq);
    ElapsedSign(later, from);
    if later > from {
      var us := ((later - from) * 1000000.0).Floor;
      assert us >= 0;
      if us == 0 {
        ModUnique(0, e.periodUs, 0, 0);
      }
    }
  }

  lemma ElapsedSign(later: real, from: real)
    ensures later > from <==> (later - from) * 1000000.0 > 0.0
    ensures later <= from ==> Trunc((later - from) * 1000000.0) <= 0
  {
  }

  /** Settings out of range become the nearest one in range. */
  lemma ClampsAreNearest(hz: real, g: real, index: int, k: int)
    ensures 0.1 <= ClampFreq(hz) <= 2000.0 && 0 <= ClampIndex(index) <= 7
    ensures 0.1 <= g <= 2000.0 && g != ClampFreq(hz) ==> Apart(hz, ClampFreq(hz)) < Apart(hz, g)
    ensures 0 <= k <= 7 && k != ClampIndex(index) ==>
      Apart(index as real, ClampIndex(index) as real) < Apart(index as real, k as real)
  {
  }

  // ----- the debounced burst --------------------------------------------------------------

  datatype Setting = Frequency(hz: real) | SequenceNo(index: int) | PulseMode(on: bool)

  function ApplySetting(e: Engine, s: Setting, now: real): Engine
    requires e.settings.Valid()
  {
    match s
    case Frequency(hz) => WithFrequency(e, hz, now)
    case SequenceNo(i) => WithSequence(e, i, now)
    case PulseMode(on) => WithPulseMode(e, on, now)
  }

  /** What a caller who set everything once, before resuming, would have chosen. */
  function Final(s: Settings, burst: seq<(Setting, real)>): Settings
    decreases |burst|
  {
    if burst == [] then s
    else
      var s' := match burst[0].0
        case Frequency(hz) => s.(freq := ClampFreq(hz))
        case SequenceNo(i) => s.(seqIndex := ClampIndex(i))
        case PulseMode(on) => s.(pulse := on);
      Final(s', burst[1..])
  }

  function Burst(e: Engine, burst: seq<(Setting, real)>): (e': Engine)
    requires e.Valid()
    ensures e'.Valid() && e'.paused == e.paused
    ensures !e.paused && (burst != [] || e.Pending()) ==> e'.Pending()
    ensures e'.settings == Final(e.settings, burst)
    decreases |burst|
  {
    if burst == [] then e else Burst(ApplySetting(e, burst[0].0, burst[0].1), burst[1..])
  }

  /** The firmware right after a fresh start with the given settings. */
  function StartedWith(s: Settings): Fw
    requires s.Valid()
  {
    Fw(PackedCycle(s), 0, PeriodUs(s), true, true, Unpack(PackedCycle(s)[0]))
  }

  lemma GoStartsAfresh(fw: Fw, e: Engine)
    requires e.Valid() && !e.paused
    ensures ExecAll(fw, GoCommands(e)) == StartedWith(e.settings)
  {
    PackedCycleAccepted(e.settings);
    PeriodArithmetic(e.settings.seqIndex, e.settings.freq);
    var c := C(PackedCycle(e.settings));
    var f := F(e.periodUs);
    assert GoCommands(e) == [c, f, P, G];
    var fw1 := Exec(fw, c);
    var fw2 := Exec(fw1, f);
    assert [c, f, P, G][1..] == [f, P, G] && [f, P, G][1..] == [P, G] && [P, G][1..] == [G] && [G][1..] == [];
    assert ExecAll(fw2, [P, G]) == ExecAll(fw2, [G]) == Exec(fw2, G);
  }

  /** Any burst of settings on a running engine, whatever the firmware did meanwhile, and then
      the flush, leave the firmware as one resume with the final settings would. */
  lemma BurstThenFlushIsOneResume(e: Engine, burst: seq<(Setting, real)>, fw: Fw, other: Fw, paused: Engine)
    requires e.Valid() && !e.paused && burst != []
    requires paused.Valid() && paused.settings == Final(e.settings, burst)
    ensures ExecAll(fw, FlushCommands(Burst(e, burst))) == ExecAll(other, GoCommands(Unpaused(paused)))
    ensures ExecAll(fw, FlushCommands(Burst(e, burst))) == StartedWith(Final(e.settings, burst))
  {
    GoStartsAfresh(fw, Burst(e, burst));
    GoStartsAfresh(other, Unpaused(paused));
  }

  /** While paused no setting and no flush sends anything, nothing is left pending, frequencies leave
      the count where it was, and a flush changes nothing. */
  lemma {:induction false} PausedBurstIsSilent(e: Engine, burst: seq<(Setting, real)>, o: Option<real>, t: Times)
    requires e.Valid() && e.paused
    ensures Burst(e, burst).paused && !Burst(e, burst).Pending()
    ensures FlushCommands(Burst(e, burst)) == []
    ensures Flushed(Burst(e, burst), o, t) == Burst(e, burst)
    ensures (forall k :: 0 <= k < |burst| ==> burst[k].0.Frequency?) ==>
      Burst(e, burst).stepAtResume == e.stepAtResume && Burst(e, burst).resumeTime == e.resumeTime
    decreases |burst|
  {
    hide PeriodUs;
    if burst == [] {
    } else {
      PausedBurstIsSilent(ApplySetting(e, burst[0].0, burst[0].1), burst[1..], o, t);
    }
  }

  /** A flush with nothing pending, as after a flush or a resume, changes and sends nothing. */
  lemma NothingToFlush(e: Engine, o: Option<real>, t: Times, o': Option<real>, t': Times)
    requires e.Valid()
    ensures var r := Flushed(e, o, t);
      r.Valid() && Flushed(r, o', t') == r && FlushCommands(r) == []
  {
    hide PeriodUs, PackedCycle, StartAnchor, SyncedOffset;
  }

  // ----- the engine object ------------------------------------------------------------------

  class SequenceEngine {
    const gpio: GPIODriver
    var sequenceIndex: int
    var frequency: real
    var pulseMode: bool
    var paused: bool
    var stepAtResume: int
    var resumeTime: real
    var periodUs: int
    var flushTimer: bool
    var pendingPeriod: bool
    var pendingCycle: bool

    ghost function View(): Engine
      reads this
    {
      Engine(Settings(sequenceIndex, frequency, pulseMode), paused, stepAtResume, resumeTime, periodUs,
             flushTimer, pendingPeriod, pendingCycle)
    }

    constructor (gpio: GPIODriver)
      ensures this.gpio == gpio && View() == NEW_ENGINE
    {
      this.gpio := gpio;
      sequenceIndex, frequency, pulseMode, paused := 0, DEFAULT_FREQ, false, true;
      stepAtResume, resumeTime, periodUs := 0, 0.0, 0;
      flushTimer, pendingPeriod, pendingCycle := false, false, false;
    }

    method CurrentPackedSequence() returns (packed: seq<int>)
      requires View().settings.Valid()
      ensures packed == PackedCycle(View().settings)
    {
      hide Pack;
      var indices := if pulseMode then PULSE_CHARGE_SEQUENCE else Sequence(sequenceIndex);
      packed := [];
      for i := 0 to |indices|
        invariant packed == seq(i, j requires 0 <= j < i => Pack(StateDef(indices[j])))
      {
        packed := packed + [Pack(StateDef(indices[i]))];
      }
    }

    method ComputePeriodUs() returns (us: int)
      requires View().settings.Valid()
      ensures us == PeriodUs(View().settings)
    {
      var stepTimeS := (1.0 / frequency) / 2.0;
      if pulseMode {
        stepTimeS := stepTimeS * 2.0;
      }
      us := Trunc(stepTimeS * 1000000.0);
      if us < 50 { us := 50; }
    }

    method EstimateStep(now: real) returns (step: int)
      requires View().settings.Valid()
      ensures step == Estimate(View(), now)
    {
      var packed := CurrentPackedSequence();
      if |packed| == 0 || periodUs <= 0 {
        return 0;
      }
      var elapsedUs := Trunc((now - resumeTime) * 1000000.0);
      var ticks := if elapsedUs > 0 then elapsedUs / periodUs else 0;
      step := (stepAtResume + ticks) % |packed|;
    }

    /** get_state_at: the step and the FET states reported for a sample taken at Pi time `at`. */
    method GetStateAt(at: real) returns (step: int, fets: Pins)
      requires View().settings.Valid()
      ensures paused ==> step == stepAtResume && fets == gpio.fetStates
      ensures !paused ==> step == Estimate(View(), at)
      ensures !paused && periodUs > 0 ==> fets == Unpack(PackedCycle(View().settings)[step])
    {
      if paused {
        return stepAtResume, gpio.fetStates;
      }
      var packed := CurrentPackedSequence();
      step := EstimateStep(at);
      fets := Unpack(packed[step]);
    }

    method SetFrequency(hz: real, now: real)
      requires View().settings.Valid()
      modifies this
      ensures View() == WithFrequency(old(View()), hz, now)
    {
      if !paused && periodUs > 0 {
        stepAtResume := EstimateStep(now);
        resumeTime := now;
      }
      frequency := ClampFreq(hz);
      periodUs := ComputePeriodUs();
      if !paused {
        pendingPeriod := true;
        flushTimer := true;
      }
    }

    method SetSequence(index: int, now: real)
      modifies this
      ensures View() == WithSequence(old(View()), index, now)
    {
      sequenceIndex := ClampIndex(index);
      stepAtResume := 0;
      resumeTime := now;
      if !paused {
        pendingCycle := true;
        flushTimer := true;
      }
    }

    method SetPulseMode(on: bool, now: real)
      requires View().settings.Valid()
      modifies this
      ensures View() == WithPulseMode(old(View()), on, now)
    {
      pulseMode := on;
      stepAtResume := 0;
      resumeTime := now;
      periodUs := ComputePeriodUs();
      if !paused {
        pendingCycle := true;
        flushTimer := true;
      }
    }

    method CancelFlush()
      modifies this`flushTimer, this`pendingPeriod, this`pendingCycle
      ensures View() == WithoutFlush(old(View()))
    {
      flushTimer, pendingPeriod, pendingCycle := false, false, false;
    }

    method Pause()
      modifies this, gpio`fetStates, gpio.device
      ensures View() == Paused(old(View()))
      ensures gpio.View() == SendAll(old(gpio.View()), PauseCommands(old(View())))
    {
      var wasRunning := !paused;
      paused := true;
      CancelFlush();
      if wasRunning {
        gpio.StopSwitching();
      }
    }

    method PauseSilent()
      modifies this
      ensures View() == Paused(old(View()))
    {
      paused := true;
      CancelFlush();
    }

    method ProgramAndGo(t: Times)
      requires View().settings.Valid()
      modifies this`stepAtResume, this`resumeTime, gpio, gpio.device
      ensures gpio.clockOffset == SyncedOffset(old(gpio.clockOffset), t)
      ensures View() == Anchored(old(View()), gpio.clockOffset, t)
      ensures gpio.View() == SendAll(old(gpio.View()), GoCommands(old(View())))
    {
      hide PackedCycle, PeriodUs, Exec, SendAll;
      var packed := CurrentPackedSequence();
      LowBitsOfStates(packed);
      var _ := gpio.ProgramSequence(packed);
      gpio.SetStepPeriodUs(periodUs);
      gpio.SyncFirmwareClock(t);
      var anchor := gpio.StartSwitching(t);
      stepAtResume := 0;
      resumeTime := if anchor.Some? then anchor.value else t.now;
      SendAllFour(old(gpio.View()), GoCommands(old(View())));
    }

    method ProgramAndGoLive(t: Times)
      requires View().settings.Valid()
      modifies this`stepAtResume, this`resumeTime, gpio`fetStates, gpio.device
      ensures View() == Anchored(old(View()), gpio.clockOffset, t)
      ensures gpio.View() == SendAll(old(gpio.View()), GoLiveCommands(old(View())))
    {
      var packed := CurrentPackedSequence();
      LowBitsOfStates(packed);
      var _ := gpio.ProgramSequenceLive(packed);
      gpio.SetStepPeriodUs(periodUs);
      var anchor := gpio.StartSwitching(t);
      stepAtResume := 0;
      resumeTime := if anchor.Some? then anchor.value else t.now;
      SendAllThree(old(gpio.View()), GoLiveCommands(old(View())));
    }

    method Resume(t: Times)
      requires View().settings.Valid()
      modifies this, gpio, gpio.device
      ensures gpio.clockOffset == SyncedOffset(old(gpio.clockOffset), t)
      ensures View() == Anchored(Unpaused(old(View())), gpio.clockOffset, t)
      ensures gpio.View() == SendAll(old(gpio.View()), GoCommands(Unpaused(old(View()))))
    {
      paused := false;
      periodUs := ComputePeriodUs();
      CancelFlush();
      ProgramAndGo(t);
    }

    method ResumeLive(t: Times)
      requires View().settings.Valid()
      modifies this, gpio`fetStates, gpio.device
      ensures View() == Anchored(Unpaused(old(View())), gpio.clockOffset, t)
      ensures gpio.View() == SendAll(old(gpio.View()), GoLiveCommands(Unpaused(old(View()))))
    {
      paused := false;
      periodUs := ComputePeriodUs();
      CancelFlush();
      ProgramAndGoLive(t);
    }

    method Flush(t: Times)
      requires View().settings.Valid()
      modifies this, gpio, gpio.device
      ensures View() == Flushed(old(View()), old(gpio.clockOffset), t)
      ensures gpio.View() == SendAll(old(gpio.View()), FlushCommands(old(View())))
      ensures gpio.clockOffset == if old(View()).paused || !old(View()).Pending() then old(gpio.clockOffset)
                                  else SyncedOffset(old(gpio.clockOffset), t)
    {
      var pending := !paused && (pendingCycle || pendingPeriod);
      pendingPeriod, pendingCycle, flushTimer := false, false, false;
      if pending {
        ProgramAndGo(t);
      }
    }
  }

  lemma SendAllFour(b: Board, cs: seq<Command>)
    requires |cs| == 4
    ensures SendAll(b, cs) == Send(Send(Send(Send(b, cs[0]), cs[1]), cs[2]), cs[3])
  {
    SendAllThree(Send(b, cs[0]), cs[1..]);
  }

  lemma SendAllThree(b: Board, cs: seq<Command>)
    requires |cs| == 3
    ensures SendAll(b, cs) == Send(Send(Send(b, cs[0]), cs[1]), cs[2])
  {
    var b1, c1 := Send(b, cs[0]), cs[1..];
    assert c1[0] == cs[1] && c1[1..][0] == cs[2] && c1[1..][1..] == [];
    assert SendAll(Send(b1, c1[0]), c1[1..]) == Send(Send(b1, c1[0]), cs[2]);
  }
}
