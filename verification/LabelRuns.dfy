/** Step labels over runs of the mode controller: when they are wrong and when they are exact. */
module LabelRuns {
  import opened Firmware
  import opened Config
  import opened GpioDriver
  import opened Options
  import opened SequenceEngine
  import opened AutoFollow
  import opened ModeController
  import opened StepLabels

  // ----- a run that leaves an index behind ---------------------------------------------------

  /** Choose a sequence, charge while the timer fires k times, go idle, and discharge by hand. */
  function ByHand(index: int, k: nat, t: Times): seq<Event> {
    [ Called(SetSequence(index), t), Called(SetMode(CHARGE), t), Fired(k), Called(SetMode(IDLE), t),
      Called(SetMode(DISCHARGE), t) ]
  }

  function Chosen(index: int): (s: Settings)
    requires 0 <= index < NUM_SEQUENCES
    ensures s.Valid()
  {
    Settings(index, DEFAULT_FREQ, false)
  }

  lemma IntoCharge(s: Sys, index: int, t: Times)
    requires 0 <= index < NUM_SEQUENCES && Agrees(s) && !s.ctl.follow.enabled
    requires s.ctl.mode == IDLE && s.ctl.engine.settings == Chosen(index)
    ensures var r := Next(s, Called(SetMode(CHARGE), t));
      && Agrees(r) && r.ctl.mode == CHARGE && r.ctl.engine.settings == Chosen(index)
      && !r.ctl.follow.enabled && r.board.fw == StartedWith(Chosen(index))
  {
    TransitAgrees(s, CHARGE, t);
    hide WellFormed, FirmwareFits, PackedCycle, PeriodUs, StartedWith, GoCommands, ExecAll, SendAll;
    var e := Entering(Paused(s.ctl.engine), CHARGE, t.now);
    var off := PauseCommands(s.ctl.engine) + [S(ALL_OFF)];
    SendAllIsExecAll(s.board, off + GoCommands(e));
    ExecAllAppend(s.board.fw, off, GoCommands(e));
    EnteringIsValid(s.ctl.engine, CHARGE, t.now);
    GoStartsAfresh(ExecAll(s.board.fw, off), e);
  }

  /** Idle and discharge by the dead-time path switch the timer off and leave the index where it is. */
  lemma OffKeepsIndex(s: Sys, m: Mode, t: Times)
    requires Agrees(s) && !s.ctl.follow.enabled && m != s.ctl.mode && !Seamless(s.ctl.mode, m)
    requires m == IDLE || m == DISCHARGE
    ensures var r, fw := Next(s, Called(SetMode(m), t)), s.board.fw;
      && Agrees(r) && r.ctl.mode == m && r.ctl.engine.settings == s.ctl.engine.settings && !r.ctl.follow.enabled
      && r.board.fw == Halt(fw).(pins := r.board.fw.pins)
  {
    TransitAgrees(s, m, t);
    SwitchedOff(s);
    hide WellFormed, FirmwareFits, PackedCycle, PeriodUs, SendAll, PauseCommands;
    var off := PauseCommands(s.ctl.engine) + [S(ALL_OFF)];
    SendAllAppend(s.board, off, [S(ALL_ON)]);
    SendAllOne(SendAll(s.board, off), S(ALL_ON));
  }

  lemma SequenceChosen(index: int, t: Times)
    requires 0 <= index < NUM_SEQUENCES
    ensures var r := Next(START, Called(SetSequence(index), t));
      && Agrees(r) && r.ctl.mode == IDLE && r.ctl.engine.settings == Chosen(index) && !r.ctl.follow.enabled
  {
  }

  lemma FiredIndex(s: Sys, index: int, k: nat)
    requires 0 <= index < NUM_SEQUENCES && Agrees(s)
    ensures s.board.fw == StartedWith(Chosen(index)) ==>
      Agrees(Next(s, Fired(k))) && Next(s, Fired(k)).board.fw.idx == k % 4
  {
    hide *;
    AgreesIsValid(s);
    if s.board.fw == StartedWith(Chosen(index)) {
      TicksAgree(s, k);
      StartedIs(Chosen(index));
      ChosenIsNotPulse(index);
      TicksAdvance(s.board.fw, k);
      TicksFrame(s.board.fw, k);
      FiredIs(s, k);
    }
  }

  lemma StartedIs(s: Settings)
    requires s.Valid()
    ensures var fw := StartedWith(s);
      fw.armed && fw.idx == 0 && |fw.cycle| == if s.pulse then 2 else 4
  {
  }

  lemma ChosenIsNotPulse(index: int)
    requires 0 <= index < NUM_SEQUENCES
    ensures !Chosen(index).pulse
  {
  }

  lemma FiredIs(s: Sys, k: nat)
    requires s.ctl.engine.settings.Valid()
    ensures Next(s, Fired(k)).board.fw == Ticks(s.board.fw, k) && Next(s, Fired(k)).ctl == s.ctl
  {
  }

  lemma RunOfFive(s: Sys, es: seq<Event>)
    requires s.ctl.engine.settings.Valid() && |es| == 5
    ensures Run(s, es) == Next(Next(Next(Next(Next(s, es[0]), es[1]), es[2]), es[3]), es[4])
  {
    hide Next;
    var s1 := Next(s, es[0]);
    var s2 := Next(s1, es[1]);
    var s3 := Next(s2, es[2]);
    assert es[1..][1..] == es[2..] && es[2..][1..] == es[3..] && es[3..][1..] == es[4..] && es[4..][1..] == [];
    assert Run(s, es) == Run(s1, es[1..]) == Run(s2, es[2..]) == Run(s3, es[3..]);
    assert Run(s3, es[3..]) == Run(Next(s3, es[3]), es[4..]) == Run(Next(Next(s3, es[3]), es[4]), []);
  }

  /** What such a run leaves: a discharge with the timer off and the index at k mod 4. */
  lemma HeldByHand(index: int, k: nat, t: Times)
    requires 0 <= index < NUM_SEQUENCES
    ensures var s := Run(START, ByHand(index, k, t));
      && Agrees(s) && !s.ctl.follow.enabled && s.ctl.mode == DISCHARGE && s.ctl.engine.settings == Chosen(index)
      && !s.board.fw.armed && !s.board.fw.running && s.board.fw.idx == k % 4
  {
    hide Next, Agrees, Chosen, Run, StartedWith;
    SequenceChosen(index, t);
    var s1 := Next(START, Called(SetSequence(index), t));
    IntoCharge(s1, index, t);
    var s2 := Next(s1, Called(SetMode(CHARGE), t));
    FiredIndex(s2, index, k);
    var s3 := Next(s2, Fired(k));
    FiredIs(s2, k);
    OffKeepsIndex(s3, IDLE, t);
    var s4 := Next(s3, Called(SetMode(IDLE), t));
    OffKeepsIndex(s4, DISCHARGE, t);
    RunOfFive(START, ByHand(index, k, t));
  }

  lemma StartIsValid()
    ensures START.ctl.engine.settings.Valid() && 0 <= 1 < NUM_SEQUENCES
  {
  }

  lemma Behind(step: int, held: int)
    ensures 0 < held < 4 ==> (step + held) % 4 != step
  {
  }

  /** Charging again from such a state, whatever is held. */
  lemma FromHandDischarge(s: Sys, index: int, t: Times, next: int, offset: real, atE: int, atF: int, atG: int,
                          stamp: int, rx: real)
    requires 0 <= index < NUM_SEQUENCES && Agrees(s) && s.ctl.mode == DISCHARGE && !s.ctl.follow.enabled
    requires s.ctl.engine.settings == Chosen(index) && !s.board.fw.armed && !s.board.fw.running
    requires 0 <= s.board.fw.idx < 4
    requires t.goAnswered && t.goTicks == Some(atG) && atG <= stamp
    ensures var e := Entering(s.ctl.engine, CHARGE, t.now);
      var live := Live(Timed(s.board.fw, next), e, atE, atF);
      && React(s.ctl, s.board.cache, SetMode(CHARGE), t).1 == GoLiveCommands(e)
      && Until(At(live, G, atG), stamp).fw.idx == (Label(e, offset, t, stamp, rx) + s.board.fw.idx) % 4
      && (s.board.fw.idx != 0 ==> Until(At(live, G, atG), stamp).fw.idx != Label(e, offset, t, stamp, rx))
      && (AllExact(live, e, offset, t, atG, rx) <==> s.board.fw.idx == 0)
  {
    hide *;
    AgreesIsValid(s);
    var e, d := Entering(s.ctl.engine, CHARGE, t.now), Timed(s.board.fw, next);
    ChargeFromHand(s, t);
    EnteringIsValid(s.ctl.engine, CHARGE, t.now);
    var live := Live(d, e, atE, atF);
    TimerOffLabelsExactIff(d, e, offset, t, atE, atF, atG, rx);
    HeldOnTheLivePath(d, e, atE, atF, atG);
    LiveIsReady(d, e, atE, atF);
    LabelAfterGo(live, e, offset, t, atG, stamp, rx);
    OffByMeans(PackedCycle(e.settings), Until(live, atG).fw.idx, Label(e, offset, t, stamp, rx),
               Until(At(live, G, atG), stamp).fw);
    Behind(Label(e, offset, t, stamp, rx), s.board.fw.idx);
  }

  lemma ChargeFromHand(s: Sys, t: Times)
    requires s.ctl.engine.settings.Valid() && s.ctl.mode == DISCHARGE && !s.ctl.follow.enabled
    ensures var e := Entering(s.ctl.engine, CHARGE, t.now);
      && !e.paused && e.settings.Valid() && |PackedCycle(e.settings)| == 4
      && React(s.ctl, s.board.cache, SetMode(CHARGE), t).1 == GoLiveCommands(e)
  {
    hide GoLiveCommands;
  }

  lemma OffByMeans(cycle: seq<int>, held: int, step: int, fw: Fw)
    requires OffBy(cycle, held, step, fw)
    ensures fw.idx == (step + held) % |cycle|
  {
  }

  /** Charging again after such a run takes the live path, and every sample's label is k mod 4 behind the
      firmware's index: after two firings, say, no sample is labelled with the step that was live. */
  lemma ByHandMislabels(index: int, k: nat, t: Times, next: int, offset: real, atE: int, atF: int, atG: int,
                        stamp: int, rx: real)
    requires 0 <= index < NUM_SEQUENCES
    requires t.goAnswered && t.goTicks == Some(atG) && atG <= stamp
    ensures var s := Run(START, ByHand(index, k, t));
      var e := Entering(s.ctl.engine, CHARGE, t.now);
      var live := Live(Timed(s.board.fw, next), e, atE, atF);
      && React(s.ctl, s.board.cache, SetMode(CHARGE), t).1 == GoLiveCommands(e)
      && Until(At(live, G, atG), stamp).fw.idx == (Label(e, offset, t, stamp, rx) + k % 4) % 4
      && (k % 4 != 0 ==> Until(At(live, G, atG), stamp).fw.idx != Label(e, offset, t, stamp, rx))
      && (AllExact(live, e, offset, t, atG, rx) <==> k % 4 == 0)
  {
    hide *;
    StartIsValid();
    HeldByHand(index, k, t);
    FromHandDischarge(Run(START, ByHand(index, k, t)), index, t, next, offset, atE, atF, atG, stamp, rx);
  }

  /** The smallest such run: two firings, and no sample is ever labelled with the step that was live. */
  lemma TwoFiringsMislabelEverything(t: Times, next: int, offset: real, atE: int, atF: int, atG: int,
                                     stamp: int, rx: real)
    requires t.goAnswered && t.goTicks == Some(atG) && atG <= stamp
    ensures var s := Run(START, ByHand(1, 2, t));
      var e := Entering(s.ctl.engine, CHARGE, t.now);
      var fw := Until(At(Live(Timed(s.board.fw, next), e, atE, atF), G, atG), stamp).fw;
      fw.idx == (Label(e, offset, t, stamp, rx) + 2) % 4 && fw.idx != Label(e, offset, t, stamp, rx)
  {
    hide *;
    StartIsValid();
    ByHandMislabels(1, 2, t, next, offset, atE, atF, atG, stamp, rx);
  }

  /** Entering a switching mode from any discharge of any run: the exact condition under which all
      samples are labelled right. A hand-made discharge decides by the index left behind, a silent one by
      the firings between E and G. */
  lemma LabelsOutOfDischarge(s: Sys, m: Mode, t: Times, next: int, offset: real, atE: int, atF: int, atG: int, rx: real)
    requires Agrees(s) && s.ctl.mode == DISCHARGE && IsTarget(m)
    requires t.goAnswered && t.goTicks == Some(atG)
    ensures var e, d := Entering(s.ctl.engine, m, t.now), Timed(s.board.fw, next);
      var n := |PackedCycle(e.settings)|;
      var d1, live := At(d, E(PackedCycle(e.settings)), atE), Live(d, e, atE, atF);
      && Transit(s.ctl, m, t).1 == GoLiveCommands(e)
      && (d.fw.armed ==> d1.fw.periodUs > 0 && live.fw.periodUs > 0)
      && (AllExact(live, e, offset, t, atG, rx) <==>
            if d.fw.armed then (Due(d1, atF) + Due(live, atG)) % n == 0 else d.fw.idx == 0 || d.fw.idx >= n)
  {
    hide *;
    AgreesIsValid(s);
    InDischarge(s, m, t);
    EnteringIsValid(s.ctl.engine, m, t.now);
    var e, d := Entering(s.ctl.engine, m, t.now), Timed(s.board.fw, next);
    if d.fw.armed {
      SilentDischargeLabelsExactIff(d, e, offset, t, atE, atF, atG, rx);
    } else {
      TimerOffLabelsExactIff(d, e, offset, t, atE, atF, atG, rx);
    }
  }

  lemma InDischarge(s: Sys, m: Mode, t: Times)
    requires Agrees(s) && s.ctl.mode == DISCHARGE && IsTarget(m)
    ensures s.board.fw.running == s.board.fw.armed && (s.board.fw.armed ==> s.board.fw.cycle == [15])
    ensures var e := Entering(s.ctl.engine, m, t.now);
      !e.paused && e.settings.Valid() && Transit(s.ctl, m, t).1 == GoLiveCommands(e)
  {
    hide GoLiveCommands;
  }

  // ----- timed runs ---------------------------------------------------------------------------

  /** The Pi and a device in firmware time; `since` is the stamp from which all samples are known to be
      labelled exactly, if any. */
  datatype Bench = Bench(ctl: Ctl, cache: Pins, dev: Timed, since: Option<int>)

  /** A call with the times it reads and the firmware time at which its i-th command arrives. */
  datatype TimedCall = TimedCall(call: Call, t: Times, at: nat -> int)

  /** Commands arriving one after the other, the first being the i-th of its call. */
  function Arrived(d: Timed, cs: seq<Command>, i: nat, at: nat -> int): Timed
    decreases |cs|
  {
    if cs == [] then d else Arrived(At(d, cs[0], at(i)), cs[1..], i + 1, at)
  }

  function CacheAfterAll(cache: Pins, cs: seq<Command>): Pins
    decreases |cs|
  {
    if cs == [] then cache else CacheAfterAll(CacheAfter(cache, cs[0]), cs[1..])
  }

  /** The commands end in a full start: C, F, P, G. */
  predicate FullStart(cs: seq<Command>) {
    |cs| >= 4 && cs[|cs| - 4].C? && cs[|cs| - 3].F? && cs[|cs| - 2].P? && cs[|cs| - 1].G?
  }

  /** G was acknowledged with the stamp of its arrival, and a clock offset is held. */
  predicate Answered(c: TimedCall, offset: Option<real>, atG: int) {
    c.t.goAnswered && c.t.goTicks == Some(atG) && offset.Some?
  }

  function AfterCall(b: Bench, c: TimedCall): (r: Bench)
    requires b.ctl.engine.settings.Valid()
    ensures r.ctl.engine.settings.Valid()
  {
    var (ctl, cs) := React(b.ctl, b.cache, c.call, c.t);
    var since :=
      if FullStart(cs) then (if Answered(c, ctl.offset, c.at(|cs| - 1)) then Some(c.at(|cs| - 1)) else None)
      else if cs == [] && ctl.engine == b.ctl.engine && ctl.offset == b.ctl.offset then b.since
      else None;
    Bench(ctl, CacheAfterAll(b.cache, cs), Arrived(b.dev, cs, 0, c.at), since)
  }

  function AfterCalls(b: Bench, cs: seq<TimedCall>): (r: Bench)
    requires b.ctl.engine.settings.Valid()
    ensures r.ctl.engine.settings.Valid()
    decreases |cs|
  {
    if cs == [] then b else AfterCalls(AfterCall(b, cs[0]), cs[1..])
  }

  /** From the stamp `go` on, the step and the FETs reported for a sample are the firmware's own. */
  ghost predicate LabelledFrom(ctl: Ctl, dev: Timed, go: int)
    requires ctl.engine.settings.Valid()
  {
    !ctl.engine.paused && forall stamp: int, rx: real :: stamp >= go ==>
      var fw, step := Until(dev, stamp).fw, Estimate(ctl.engine, SampleTime(ctl.offset, stamp, rx));
      && 0 <= step < |PackedCycle(ctl.engine.settings)|
      && fw.idx == step && fw.pins == Unpack(PackedCycle(ctl.engine.settings)[step])
  }

  ghost predicate Labelled(b: Bench) {
    b.ctl.engine.Valid() && (b.since.Some? ==> LabelledFrom(b.ctl, b.dev, b.since.value))
  }

  lemma {:induction false} ArrivedAppend(d: Timed, cs: seq<Command>, ds: seq<Command>, i: nat, at: nat -> int)
    ensures Arrived(d, cs + ds, i, at) == Arrived(Arrived(d, cs, i, at), ds, i + |cs|, at)
    decreases |cs|
  {
    hide At;
    if cs == [] {
      assert cs + ds == ds;
    } else {
      assert (cs + ds)[1..] == cs[1..] + ds;
      ArrivedAppend(At(d, cs[0], at(i)), cs[1..], ds, i + 1, at);
    }
  }

  lemma ArrivedFour(d: Timed, cs: seq<Command>, i: nat, at: nat -> int)
    requires |cs| == 4
    ensures Arrived(d, cs, i, at)
         == At(At(At(At(d, cs[0], at(i)), cs[1], at(i + 1)), cs[2], at(i + 2)), cs[3], at(i + 3))
  {
    hide At, Arrived;
    var d1 := At(d, cs[0], at(i));
    var d2 := At(d1, cs[1], at(i + 1));
    var d3 := At(d2, cs[2], at(i + 2));
    ArrivedOne(d, cs, i, at);
    ArrivedOne(d1, cs[1..], i + 1, at);
    ArrivedOne(d2, cs[1..][1..], i + 2, at);
    ArrivedOne(d3, cs[1..][1..][1..], i + 3, at);
    assert cs[1..][1..][1..][1..] == [];
    ArrivedNone(At(d3, cs[3], at(i + 3)), i + 4, at);
  }

  lemma ArrivedOne(d: Timed, cs: seq<Command>, i: nat, at: nat -> int)
    requires cs != []
    ensures Arrived(d, cs, i, at) == Arrived(At(d, cs[0], at(i)), cs[1..], i + 1, at)
  {
  }

  lemma ArrivedNone(d: Timed, i: nat, at: nat -> int)
    ensures Arrived(d, [], i, at) == d
  {
  }

  /** Whatever call it is part of, a full start is _program_and_go of the engine the call leaves. */
  lemma TransitStart(c: Ctl, m: Mode, t: Times) returns (e: Engine, off: seq<Command>)
    requires c.engine.Valid()
    ensures var (r, cs) := Transit(c, m, t);
      && r.engine.Valid()
      && (FullStart(cs) ==> e.Valid() && !e.paused && cs == off + GoCommands(e) && r.engine == Anchored(e, r.offset, t))
  {
    EnteringIsValid(c.engine, m, t.now);
    e := Entering(Paused(c.engine), m, t.now);
    off := PauseCommands(c.engine) + [S(ALL_OFF)];
    hide PackedCycle, PeriodUs, StartAnchor;
  }

  lemma SettingIsValid(e: Engine, s: Setting, now: real)
    requires e.Valid()
    ensures ApplySetting(e, s, now).Valid()
  {
    hide Estimate, PackedCycle;
  }

  lemma ReactStart(c: Ctl, cache: Pins, call: Call, t: Times) returns (e: Engine, off: seq<Command>)
    requires c.engine.Valid()
    ensures var (r, cs) := React(c, cache, call, t);
      && r.engine.Valid()
      && (FullStart(cs) ==> e.Valid() && !e.paused && cs == off + GoCommands(e) && r.engine == Anchored(e, r.offset, t))
  {
    hide Transit, PackedCycle, PeriodUs, StartAnchor, Estimate;
    e, off := c.engine, [];
    match call {
      case SetMode(m) =>
        if c.follow.enabled && IsTarget(m) {
          e, off := TransitStart(c.(follow := Targeting(c.follow, m).0), m, t);
        } else if c.follow.enabled {
          e, off := TransitStart(c.(follow := Enabling(c.follow, false).0), m, t);
        } else {
          e, off := TransitStart(c, m, t);
        }
      case FollowCall(f) =>
        var (g, ask) := Step(c.follow, f);
        if ask.Some? {
          e, off := TransitStart(c.(follow := g), ask.value, t);
        }
      case Flush =>
        e := WithoutFlush(c.engine);
        assert off + GoCommands(e) == GoCommands(e);
      case SetFrequency(hz) => SettingIsValid(c.engine, Frequency(hz), t.now);
      case SetSequence(i) => SettingIsValid(c.engine, SequenceNo(i), t.now);
      case _ =>
    }
  }

  lemma StartIsLabelled(d: Timed, e: Engine, off: seq<Command>, c: TimedCall, ctl: Ctl)
    requires e.Valid() && !e.paused && ctl.engine == Anchored(e, ctl.offset, c.t)
    requires Answered(c, ctl.offset, c.at(|off| + 3))
    ensures ctl.engine.Valid()
    ensures LabelledFrom(ctl, Arrived(d, off + GoCommands(e), 0, c.at), c.at(|off| + 3))
  {
    hide *;
    AnchoredIsValid(e, ctl.offset, c.t);
    var n := |off|;
    var at := c.at;
    var d0 := Arrived(d, off, 0, at);
    ArrivedAppend(d, off, GoCommands(e), 0, at);
    GoIsFour(e);
    ArrivedFour(d0, GoCommands(e), n, at);
    GoneIs(d0, e, at(n), at(n + 1), at(n + 2), at(n + 3));
    AnsweredMeans(c, ctl.offset, at(n + 3));
    var gone := Gone(d0, e, at(n), at(n + 1), at(n + 2), at(n + 3));
    forall stamp: int, rx: real | stamp >= at(n + 3)
      ensures var fw, step := Until(gone, stamp).fw, Estimate(ctl.engine, SampleTime(ctl.offset, stamp, rx));
        && 0 <= step < |PackedCycle(e.settings)|
        && fw.idx == step && fw.pins == Unpack(PackedCycle(e.settings)[step])
    {
      LabelsAreExact(d0, e, ctl.offset.value, c.t, at(n), at(n + 1), at(n + 2), at(n + 3), stamp, rx);
      LabelIs(e, ctl.offset.value, c.t, stamp, rx);
    }
    LabelledMeans(ctl, gone, at(n + 3));
  }

  lemma AnchoredIsValid(e: Engine, offset: Option<real>, t: Times)
    requires e.Valid() && !e.paused
    ensures var a := Anchored(e, offset, t);
      a.Valid() && a.settings.Valid() && e.settings.Valid() && !a.paused && a.settings == e.settings
  {
    hide PackedCycle, PeriodUs, StartAnchor;
  }

  lemma GoIsFour(e: Engine)
    requires e.settings.Valid()
    ensures |GoCommands(e)| == 4
  {
  }

  lemma GoneIs(d: Timed, e: Engine, atC: int, atF: int, atP: int, atG: int)
    requires e.settings.Valid()
    ensures var cs := GoCommands(e);
      |cs| == 4 && Gone(d, e, atC, atF, atP, atG) == At(At(At(At(d, cs[0], atC), cs[1], atF), cs[2], atP), cs[3], atG)
  {
  }

  lemma AnsweredMeans(c: TimedCall, offset: Option<real>, atG: int)
    requires Answered(c, offset, atG)
    ensures c.t.goAnswered && c.t.goTicks == Some(atG) && offset == Some(offset.value)
  {
  }

  lemma LabelIs(e: Engine, offset: real, t: Times, stamp: int, rx: real)
    requires e.settings.Valid()
    ensures Anchored(e, Some(offset), t).settings.Valid()
    ensures Label(e, offset, t, stamp, rx)
         == Estimate(Anchored(e, Some(offset), t), SampleTime(Some(offset), stamp, rx))
  {
  }

  lemma LabelledMeans(ctl: Ctl, dev: Timed, go: int)
    requires ctl.engine.settings.Valid() && !ctl.engine.paused
    requires forall stamp: int, rx: real :: stamp >= go ==>
      var fw, step := Until(dev, stamp).fw, Estimate(ctl.engine, SampleTime(ctl.offset, stamp, rx));
      && 0 <= step < |PackedCycle(ctl.engine.settings)|
      && fw.idx == step && fw.pins == Unpack(PackedCycle(ctl.engine.settings)[step])
    ensures LabelledFrom(ctl, dev, go)
  {
  }

  lemma CallKeepsLabels(b: Bench, c: TimedCall)
    requires Labelled(b)
    ensures Labelled(AfterCall(b, c))
  {
    hide *;
    LabelledIsValid(b);
    var e, off := ReactStart(b.ctl, b.cache, c.call, c.t);
    var (ctl, cs) := React(b.ctl, b.cache, c.call, c.t);
    AfterCallIs(b, c);
    if FullStart(cs) && Answered(c, ctl.offset, c.at(|cs| - 1)) {
      ValidSettings(e);
      GoIsFour(e);
      StartIsLabelled(b.dev, e, off, c, ctl);
    } else if AfterCall(b, c).since.Some? {
      ArrivedNone(b.dev, 0, c.at);
      LabelledSince(b);
      SameLabels(b.ctl, ctl, b.dev, b.since.value);
    }
    IsLabelled(AfterCall(b, c));
  }

  lemma AfterCallIs(b: Bench, c: TimedCall)
    requires b.ctl.engine.settings.Valid()
    ensures var ((ctl, cs), r) := (React(b.ctl, b.cache, c.call, c.t), AfterCall(b, c));
      && r.ctl == ctl && r.dev == Arrived(b.dev, cs, 0, c.at)
      && (FullStart(cs) ==> |cs| >= 4)
      && (FullStart(cs) && Answered(c, ctl.offset, c.at(|cs| - 1)) ==> r.since == Some(c.at(|cs| - 1)))
      && (r.since.Some? && !(FullStart(cs) && Answered(c, ctl.offset, c.at(|cs| - 1))) ==>
            cs == [] && ctl.engine == b.ctl.engine && ctl.offset == b.ctl.offset && r.since == b.since)
  {
    hide React, Arrived, CacheAfterAll, Answered;
  }

  lemma ValidSettings(e: Engine)
    requires e.Valid()
    ensures e.settings.Valid()
  {
  }

  lemma SameLabels(ctl: Ctl, ctl': Ctl, dev: Timed, go: int)
    requires ctl.engine.settings.Valid() && LabelledFrom(ctl, dev, go)
    requires ctl'.engine == ctl.engine && ctl'.offset == ctl.offset
    ensures LabelledFrom(ctl', dev, go)
  {
    hide Until, Estimate, PackedCycle, SampleTime, Unpack;
  }

  lemma IsLabelled(b: Bench)
    requires b.ctl.engine.Valid() && b.ctl.engine.settings.Valid()
    requires b.since.Some? ==> LabelledFrom(b.ctl, b.dev, b.since.value)
    ensures Labelled(b)
  {
    hide LabelledFrom;
  }

  /** Over every timed run of calls, whatever the delays and the clock-offset error: every sample stamped
      at or after an acknowledged full start, until a call next sends a command or changes the engine, is
      labelled with the step and the FET states the firmware had at that stamp. */
  lemma {:induction false} RunsAreLabelled(b: Bench, cs: seq<TimedCall>)
    requires Labelled(b)
    ensures Labelled(AfterCalls(b, cs))
    decreases |cs|
  {
    hide Labelled, AfterCall;
    if cs == [] {
    } else {
      LabelledIsValid(b);
      CallKeepsLabels(b, cs[0]);
      RunsAreLabelled(AfterCall(b, cs[0]), cs[1..]);
    }
  }

  lemma LabelledIsValid(b: Bench)
    requires Labelled(b)
    ensures b.ctl.engine.Valid() && b.ctl.engine.settings.Valid()
  {
  }

  lemma RunsFromStartAreLabelled(next: int, cs: seq<TimedCall>)
    ensures Labelled(AfterCalls(Bench(START.ctl, ALL_OFF, Timed(BOOT, next), None), cs))
  {
    RunsAreLabelled(Bench(START.ctl, ALL_OFF, Timed(BOOT, next), None), cs);
  }

  // ----- what a start gives -------------------------------------------------------------------

  /** In a switching mode m without auto-follow, a call that starts nothing afresh. */
  predicate LeavesAlone(m: Mode, call: Call) {
    match call
    case SetMode(picked) => picked == m
    case SetFrequency(_) => false
    case SetSequence(_) => false
    case FollowCall(f) => !f.Enable? || !f.on
    case _ => true
  }

  /** Charging from idle, from debug or from the other target, or flushing what is pending, labels every
      sample from the stamp of its G on, and goes on doing so through any calls that start nothing afresh. */
  lemma StartStaysLabelled(b: Bench, c: TimedCall, m: Mode, cs: seq<TimedCall>)
    requires Labelled(b) && !b.ctl.follow.enabled && IsTarget(m)
    requires if c.call.Flush? then b.ctl.mode == m && b.ctl.engine.Pending()
             else c.call == SetMode(m) && b.ctl.mode != m && b.ctl.mode != DISCHARGE
    requires var n := |React(b.ctl, b.cache, c.call, c.t).1|;
      n > 0 ==> c.t.syncTicks.Some? && c.t.goAnswered && c.t.goTicks == Some(c.at(n - 1))
    requires forall k :: 0 <= k < |cs| ==> LeavesAlone(m, cs[k].call)
    ensures var r := AfterCalls(AfterCall(b, c), cs);
      c.t.goTicks.Some? && r.ctl.mode == m && LabelledFrom(r.ctl, r.dev, c.t.goTicks.value)
  {
    hide *;
    LabelledIsValid(b);
    StartBegins(b, c, m);
    LabelledIsValid(AfterCall(b, c));
    Undisturbed(AfterCall(b, c), m, cs);
    RunsAreLabelled(AfterCall(b, c), cs);
    LabelledSince(AfterCalls(AfterCall(b, c), cs));
  }

  lemma LabelledSince(b: Bench)
    requires Labelled(b) && b.since.Some?
    ensures b.ctl.engine.settings.Valid() && LabelledFrom(b.ctl, b.dev, b.since.value)
  {
    hide LabelledFrom;
  }

  lemma StartBegins(b: Bench, c: TimedCall, m: Mode)
    requires Labelled(b) && !b.ctl.follow.enabled && IsTarget(m)
    requires if c.call.Flush? then b.ctl.mode == m && b.ctl.engine.Pending()
             else c.call == SetMode(m) && b.ctl.mode != m && b.ctl.mode != DISCHARGE
    requires var n := |React(b.ctl, b.cache, c.call, c.t).1|;
      n > 0 ==> c.t.syncTicks.Some? && c.t.goAnswered && c.t.goTicks == Some(c.at(n - 1))
    ensures var r := AfterCall(b, c);
      && Labelled(r) && r.since == c.t.goTicks && r.since.Some?
      && r.ctl.mode == m && !r.ctl.follow.enabled && !r.ctl.engine.Pending()
  {
    hide LabelledFrom, Arrived, CacheAfterAll, PackedCycle, PeriodUs, StartAnchor, Estimate;
    CallKeepsLabels(b, c);
  }

  lemma {:induction false} Undisturbed(b: Bench, m: Mode, cs: seq<TimedCall>)
    requires b.ctl.engine.Valid() && !b.ctl.engine.Pending()
    requires b.ctl.mode == m && IsTarget(m) && !b.ctl.follow.enabled
    requires forall k :: 0 <= k < |cs| ==> LeavesAlone(m, cs[k].call)
    ensures AfterCalls(b, cs).since == b.since && AfterCalls(b, cs).ctl.mode == m
    decreases |cs|
  {
    hide PackedCycle, PeriodUs, Arrived, CacheAfterAll, StartAnchor;
    if cs == [] {
    } else {
      var r := AfterCall(b, cs[0]);
      assert r.since == b.since && r.ctl.engine == b.ctl.engine && r.ctl.mode == m && !r.ctl.follow.enabled;
      Undisturbed(r, m, cs[1..]);
    }
  }
}
