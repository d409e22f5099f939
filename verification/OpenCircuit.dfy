/** The claim of mode_controller.py that auto-follow never shows the cycler an open circuit. */
module OpenCircuit {
  // The commands of a transition are delivered one by one, and the timer fires between any two.

  import opened Firmware
  import opened Config
  import opened GpioDriver
  import opened Options
  import opened SequenceEngine
  import opened AutoFollow
  import opened ModeController

  // ----- one transition -------------------------------------------------------------------------

  datatype Micro = Deliver | Fire

  /** The firmware after a schedule of deliveries from the outbox and timer firings. */
  function Play(fw: Fw, outbox: seq<Command>, schedule: seq<Micro>): Fw
    decreases |schedule|
  {
    if schedule == [] then fw
    else if schedule[0] == Fire then Play(Tick(fw), outbox, schedule[1..])
    else if outbox == [] then Play(fw, outbox, schedule[1..])
    else Play(Exec(fw, outbox[0]), outbox[1..], schedule[1..])
  }

  /** Current can pass at every moment of every interleaving. */
  ghost predicate StaysClosed(fw: Fw, outbox: seq<Command>) {
    forall schedule: seq<Micro> :: Play(fw, outbox, schedule).pins.Conducting()
  }

  /** All the commands, with no interrupt: one of the interleavings. */
  lemma {:induction false} StraightThrough(fw: Fw, outbox: seq<Command>)
    ensures Play(fw, outbox, seq(|outbox|, _ => Deliver)) == ExecAll(fw, outbox)
    decreases |outbox|
  {
    if outbox == [] {
    } else {
      StraightThrough(Exec(fw, outbox[0]), outbox[1..]);
      assert seq(|outbox|, _ => Deliver)[1..] == seq(|outbox| - 1, _ => Deliver);
    }
  }

  lemma FirstCommandOnly(fw: Fw, outbox: seq<Command>)
    requires outbox != []
    ensures Play(fw, outbox, [Deliver]) == Exec(fw, outbox[0])
  {
    assert [Deliver][1..] == [];
  }

  /** The states a command can leave the circuit in, whatever ticks come before and after it. */
  ghost predicate Harmless(fw: Fw, outbox: seq<Command>)
    decreases |outbox|
  {
    && WellFormed(fw) && fw.running == fw.armed && fw.pins.Conducting()
    && (fw.armed ==> AllConducting(fw.cycle))
    && (outbox != [] ==>
          match outbox[0]
          case E(cs) => ValidCycle(cs) && AllConducting(cs) && Tame(outbox[1..])
          case _ => AllConducting(fw.cycle) && Tame(outbox))
  }

  /** Commands that only restart or widen. */
  ghost predicate Tame(outbox: seq<Command>) {
    forall i :: 0 <= i < |outbox| ==> outbox[i].F? || outbox[i].G? || outbox[i] == Y(ALL_ON)
  }

  lemma HarmlessTick(fw: Fw, outbox: seq<Command>)
    requires Harmless(fw, outbox)
    ensures Harmless(Tick(fw), outbox)
  {
  }

  lemma HarmlessDelivery(fw: Fw, outbox: seq<Command>)
    requires Harmless(fw, outbox) && outbox != []
    ensures Harmless(Exec(fw, outbox[0]), outbox[1..])
  {
    ExecKeepsWellFormed(fw, outbox[0]);
  }

  lemma {:induction false} HarmlessPlay(fw: Fw, outbox: seq<Command>, schedule: seq<Micro>)
    requires Harmless(fw, outbox)
    ensures Play(fw, outbox, schedule).pins.Conducting()
    decreases |schedule|
  {
    if schedule == [] {
    } else if schedule[0] == Fire {
      HarmlessTick(fw, outbox);
      HarmlessPlay(Tick(fw), outbox, schedule[1..]);
    } else if outbox == [] {
      HarmlessPlay(fw, outbox, schedule[1..]);
    } else {
      HarmlessDelivery(fw, outbox);
      HarmlessPlay(Exec(fw, outbox[0]), outbox[1..], schedule[1..]);
    }
  }

  /** A mode entered or left seamlessly, with current passing: then every state the timer can put on
      the pins passes current, even while a setting waits to be flushed. */
  ghost predicate Carrying(s: Sys) {
    Agrees(s) && (s.ctl.mode == DISCHARGE || IsTarget(s.ctl.mode)) && s.board.fw.pins.Conducting()
  }

  lemma CarryingIsHarmless(s: Sys)
    requires Carrying(s)
    ensures Harmless(s.board.fw, [])
  {
    assert Unpack(15) == ALL_ON;
    hide PackedCycle, PeriodUs, Unpack, OneKind;
    var fw := s.board.fw;
    if IsTarget(s.ctl.mode) {
      OneIsEnough(fw.cycle, fw.idx);
    }
  }

  lemma HarmlessStaysClosed(fw: Fw, outbox: seq<Command>)
    requires Harmless(fw, outbox)
    ensures StaysClosed(fw, outbox)
  {
    forall schedule: seq<Micro> {
      HarmlessPlay(fw, outbox, schedule);
    }
  }

  lemma DeadTimeOpens(s: Sys, m: Mode, t: Times)
    requires Agrees(s) && m != s.ctl.mode && !Seamless(s.ctl.mode, m)
    ensures !StaysClosed(s.board.fw, Transit(s.ctl, m, t).1)
  {
    hide WellFormed, FirmwareFits, PackedCycle, PeriodUs;
    var cs := Transit(s.ctl, m, t).1;
    assert cs[0] == if s.ctl.engine.paused then S(ALL_OFF) else H;
    FirstCommandOnly(s.board.fw, cs);
    assert !Play(s.board.fw, cs, [Deliver]).pins.Conducting();
  }

  lemma DropCommands(c: Ctl, t: Times)
    requires c.engine.settings.Valid() && IsTarget(c.mode)
    ensures Transit(c, DISCHARGE, t).1 == [E([15]), Y(ALL_ON)]
  {
    hide PackedCycle, PeriodUs;
  }

  lemma DropIsHarmless(fw: Fw)
    requires Harmless(fw, [])
    ensures Harmless(fw, [E([15]), Y(ALL_ON)])
  {
    assert Unpack(15) == ALL_ON;
    assert [E([15]), Y(ALL_ON)][1..] == [Y(ALL_ON)];
  }

  lemma CarryingIsValid(s: Sys)
    requires Carrying(s)
    ensures s.ctl.engine.settings.Valid()
  {
  }

  lemma DroppingStaysClosed(s: Sys, t: Times)
    requires Carrying(s) && IsTarget(s.ctl.mode)
    ensures StaysClosed(s.board.fw, Transit(s.ctl, DISCHARGE, t).1)
  {
    hide *;
    CarryingIsValid(s);
    CarryingIsHarmless(s);
    DropCommands(s.ctl, t);
    DropIsHarmless(s.board.fw);
    HarmlessStaysClosed(s.board.fw, [E([15]), Y(ALL_ON)]);
  }

  lemma EngagingStaysClosed(fw: Fw, e: Engine)
    requires e.Valid() && !e.paused && Harmless(fw, [])
    ensures StaysClosed(fw, GoLiveCommands(e)) <==> e.settings.pulse || e.settings.seqIndex != 0
  {
    var cs := GoLiveCommands(e);
    PackedCycleAccepted(e.settings);
    ConductsUnlessOff(e.settings);
    if e.settings.pulse || e.settings.seqIndex != 0 {
      HarmlessStaysClosed(fw, cs);
    } else {
      StraightThrough(fw, cs);
      LiveStart(fw, e);
      assert !Play(fw, cs, seq(|cs|, _ => Deliver)).pins.Conducting();
    }
  }

  lemma OpenToBeginWith(fw: Fw, outbox: seq<Command>)
    requires !fw.pins.Conducting()
    ensures !StaysClosed(fw, outbox)
  {
    assert Play(fw, outbox, []) == fw;
  }

  /** When a mode change keeps the circuit closed in every interleaving: exactly when current passes to
      begin with, the change takes the seamless path, and the mode entered does not switch through
      sequence 0, which is all off. Changing between charge and pulse charge therefore always opens the
      circuit. A setting may be waiting to be flushed. */
  lemma ClosedExactlyWhen(s: Sys, m: Mode, t: Times)
    requires Agrees(s) && m != s.ctl.mode
    ensures StaysClosed(s.board.fw, Transit(s.ctl, m, t).1)
       <==> s.board.fw.pins.Conducting() && Seamless(s.ctl.mode, m)
            && (m == CHARGE ==> s.ctl.engine.settings.seqIndex != 0)
  {
    hide StaysClosed, Harmless, WellFormed, FirmwareFits, PackedCycle, PeriodUs;
    if !s.board.fw.pins.Conducting() {
      OpenToBeginWith(s.board.fw, Transit(s.ctl, m, t).1);
    } else if !Seamless(s.ctl.mode, m) {
      DeadTimeOpens(s, m, t);
    } else if m == DISCHARGE {
      DroppingStaysClosed(s, t);
    } else {
      CarryingIsHarmless(s);
      EngagingStaysClosed(s.board.fw, Entering(s.ctl.engine, m, t.now));
    }
  }

  /** With nothing waiting to be flushed, whether current passes in a switching mode is decided by the
      settings. */
  lemma CarryingBySettings(s: Sys)
    requires Agrees(s) && IsTarget(s.ctl.mode) && !s.ctl.engine.Pending()
    ensures s.board.fw.pins.Conducting() <==> s.ctl.engine.settings.pulse || s.ctl.engine.settings.seqIndex != 0
  {
    ConductsUnlessOff(s.ctl.engine.settings);
    hide PackedCycle, PeriodUs, Unpack;
  }

  /** A flush of a pending setting always opens the circuit for a moment, whatever the firmware is doing:
      it goes through C. */
  lemma FlushOpens(fw: Fw, e: Engine)
    requires e.Valid() && e.Pending()
    ensures !StaysClosed(fw, FlushCommands(e))
  {
    var cs := FlushCommands(e);
    PackedCycleAccepted(e.settings);
    FirstCommandOnly(fw, cs);
    assert !Play(fw, cs, [Deliver]).pins.Conducting();
  }

  // ----- runs from start-up in which the circuit opens while carrying current --------------------

  lemma RetargetingTransits(c: Ctl, cache: Pins, m: Mode, t: Times)
    requires c.engine.Valid() && Coupled(c) && c.follow.active && IsTarget(m) && m != c.follow.target
    ensures React(c, cache, FollowCall(Target(m)), t).1 == Transit(c, m, t).1
    ensures m != c.mode && !Seamless(c.mode, m)
  {
    hide GoCommands, GoLiveCommands, Entering, Anchored, PackedCycle, PeriodUs;
  }

  /** A change of target while engaged takes the dead-time path. */
  lemma RetargetingOpens(s: Sys, m: Mode, t: Times)
    requires Agrees(s) && Coupled(s.ctl) && s.ctl.follow.active && IsTarget(m) && m != s.ctl.follow.target
    ensures !StaysClosed(s.board.fw, React(s.ctl, s.board.cache, FollowCall(Target(m)), t).1)
  {
    hide *;
    AgreesIsValid(s);
    RetargetingTransits(s.ctl, s.board.cache, m, t);
    DeadTimeOpens(s, m, t);
  }

  lemma SettingIsPending(c: Ctl, cache: Pins, hz: real, t: Times, u: Times)
    requires c.engine.Valid() && !c.engine.paused
    ensures var e := WithFrequency(c.engine, hz, t.now);
      var (r, cs) := React(c, cache, SetFrequency(hz), t);
      && e.Valid() && e.Pending() && r.engine == e && cs == []
      && forall pins: Pins :: React(r, pins, Flush, u).1 == FlushCommands(e)
  {
    hide GoCommands, Estimate, PackedCycle, Anchored;
  }

  lemma NothingSent(s: Sys, call: Call, t: Times)
    requires s.ctl.engine.settings.Valid() && React(s.ctl, s.board.cache, call, t).1 == []
    ensures Next(s, Called(call, t)) == Sys(React(s.ctl, s.board.cache, call, t).0, s.board)
  {
    hide React;
  }

  lemma SwitchingIsNotPaused(s: Sys)
    requires Agrees(s) && IsTarget(s.ctl.mode)
    ensures s.ctl.engine.Valid() && !s.ctl.engine.paused
  {
  }

  /** A frequency set in a switching mode and then flushed goes through C. */
  lemma SettingOpens(s: Sys, hz: real, t: Times, u: Times)
    requires Agrees(s) && IsTarget(s.ctl.mode)
    ensures var r := Next(s, Called(SetFrequency(hz), t));
      r.board.fw == s.board.fw && !StaysClosed(r.board.fw, React(r.ctl, r.board.cache, Flush, u).1)
  {
    hide *;
    AgreesIsValid(s);
    SwitchingIsNotPaused(s);
    SettingIsPending(s.ctl, s.board.cache, hz, t, u);
    NothingSent(s, SetFrequency(hz), t);
    FlushOpens(s.board.fw, WithFrequency(s.ctl.engine, hz, t.now));
  }

  /** Choose sequence 1, enable auto-follow, and measure a current above the enter threshold. */
  function Engage(i: real, now: real, t: Times): seq<Event> {
    [ Called(SetSequence(1), t), Called(FollowCall(Enable(true)), t), Called(FollowCall(Sense(i, now)), t) ]
  }

  lemma RunOfThree(s: Sys, es: seq<Event>)
    requires s.ctl.engine.settings.Valid() && |es| == 3
    ensures Run(s, es) == Next(Next(Next(s, es[0]), es[1]), es[2])
  {
    hide Next;
    var s1 := Next(s, es[0]);
    var s2 := Next(s1, es[1]);
    assert es[1..][1..] == es[2..] && es[2..][1..] == [];
    assert Run(s, es) == Run(s1, es[1..]) == Run(s2, es[2..]) == Run(Next(s2, es[2]), []);
  }

  lemma EngagedControls(i: real, now: real, t: Times)
    requires i > NEW_FOLLOW.iEnterA
    ensures var c := Run(START, Engage(i, now, t)).ctl;
      && c.mode == CHARGE && c.follow.enabled && c.follow.active && c.follow.target == CHARGE
      && c.engine.settings == Settings(1, DEFAULT_FREQ, false) && !c.engine.Pending()
  {
    hide SendAll, PackedCycle, PeriodUs, GoLiveCommands, StartAnchor;
    RunOfThree(START, Engage(i, now, t));
  }

  /** It is then charging, with current passing. */
  lemma EngagedIsCarrying(i: real, now: real, t: Times)
    requires i > NEW_FOLLOW.iEnterA
    ensures var s := Run(START, Engage(i, now, t));
      && Agrees(s) && Coupled(s.ctl) && s.ctl.mode == CHARGE && s.ctl.follow.active && s.ctl.follow.target == CHARGE
      && s.board.fw.pins.Conducting()
  {
    hide *;
    ChargeIsTarget();
    AgreementFromStart(Engage(i, now, t));
    EngagedControls(i, now, t);
    CarryingBySettings(Run(START, Engage(i, now, t)));
  }

  lemma ChargeIsTarget()
    ensures IsTarget(CHARGE) && IsTarget(PULSE_CHARGE) && START.ctl.engine.settings.Valid()
  {
  }

  /** From there, changing the target to pulse charge opens the circuit. */
  lemma RetargetingRunOpens(i: real, now: real, t: Times, u: Times)
    requires i > NEW_FOLLOW.iEnterA
    ensures var s := Run(START, Engage(i, now, t));
      s.board.fw.pins.Conducting()
      && !StaysClosed(s.board.fw, React(s.ctl, s.board.cache, FollowCall(Target(PULSE_CHARGE)), u).1)
  {
    hide *;
    ChargeIsTarget();
    EngagedIsCarrying(i, now, t);
    RetargetingOpens(Run(START, Engage(i, now, t)), PULSE_CHARGE, u);
  }

  /** So does flushing a new frequency. */
  lemma FlushRunOpens(i: real, now: real, hz: real, t: Times, u: Times)
    requires i > NEW_FOLLOW.iEnterA
    ensures var s := Next(Run(START, Engage(i, now, t)), Called(SetFrequency(hz), t));
      s.board.fw.pins.Conducting() && !StaysClosed(s.board.fw, React(s.ctl, s.board.cache, Flush, u).1)
  {
    hide *;
    ChargeIsTarget();
    EngagedIsCarrying(i, now, t);
    SettingOpens(Run(START, Engage(i, now, t)), hz, t, u);
  }

  // ----- whole runs of auto-follow --------------------------------------------------------------

  /** The Pi, the firmware, and the commands of the current call not yet delivered. */
  datatype Machine = Machine(ctl: Ctl, board: Board, outbox: seq<Command>)

  datatype Move = Do(call: Call, t: Times) | Send | TimerFires

  /** The calls that keep auto-follow engaged as it is: any sensor tick, any threshold change, a
      repeated enable, a target that is not being applied or is the same, settings changed while
      transparent (though not to sequence 0), and calls that are rejected or do nothing. */
  predicate Gentle(c: Ctl, call: Call) {
    match call
    case SetMode(m) => IsTarget(m) && (m == c.follow.target || !c.follow.active)
    case SetFrequency(_) => c.engine.paused
    case SetSequence(i) => c.engine.paused && ClampIndex(i) != 0
    case FollowCall(Enable(on)) => on
    case FollowCall(Target(m)) => !IsTarget(m) || m == c.follow.target || !c.follow.active
    case _ => true
  }

  /** One move. A call waits until the previous one has delivered all its commands. */
  function Advance(m: Machine, move: Move): (m': Machine)
    requires m.ctl.engine.settings.Valid()
    ensures m'.ctl.engine.settings.Valid()
  {
    match move
    case Do(call, t) =>
      if m.outbox == [] && Gentle(m.ctl, call) then
        var (c, cs) := React(m.ctl, m.board.cache, call, t);
        Machine(c, m.board, cs)
      else m
    case Send =>
      if m.outbox == [] then m
      else Machine(m.ctl, GpioDriver.Send(m.board, m.outbox[0]), m.outbox[1..])
    case TimerFires => m.(board := m.board.(fw := Tick(m.board.fw)))
  }

  function AdvanceAll(m: Machine, moves: seq<Move>): Machine
    requires m.ctl.engine.settings.Valid()
    decreases |moves|
  {
    if moves == [] then m else AdvanceAll(Advance(m, moves[0]), moves[1..])
  }

  /** How far the current transition has got. */
  ghost predicate Underway(c: Ctl, b: Board, outbox: seq<Command>)
    requires c.engine.Valid()
  {
    var (e, fw) := (c.engine, b.fw);
    if outbox == [] then Agrees(Sys(c, b))
    else if IsTarget(c.mode) then
      || (outbox == GoLiveCommands(e) && FirmwareFits(DISCHARGE, e, fw))
      || (outbox == GoLiveCommands(e)[1..] && fw.cycle == PackedCycle(e.settings))
      || (outbox == GoLiveCommands(e)[2..] && fw.cycle == PackedCycle(e.settings) && fw.periodUs == e.periodUs)
    else
      || (c.mode == DISCHARGE && outbox == [E([15]), Y(ALL_ON)] && AllConducting(fw.cycle))
      || (c.mode == DISCHARGE && outbox == [Y(ALL_ON)] && fw.cycle == [15])
  }

  /** Auto-follow is enabled, nothing waits to be flushed and sequence 0 is not selected. */
  ghost predicate Steady(c: Ctl) {
    && c.engine.Valid() && !c.engine.Pending() && c.engine.settings.seqIndex != 0
    && Coupled(c) && c.follow.enabled
    && (c.engine.paused <==> !IsTarget(c.mode))
    && (IsTarget(c.mode) ==> c.engine.settings.pulse == (c.mode == PULSE_CHARGE))
  }

  ghost predicate Closed(m: Machine) {
    && Steady(m.ctl)
    && WellFormed(m.board.fw) && m.board.fw.running == m.board.fw.armed
    && m.board.fw.pins.Conducting()
    && Underway(m.ctl, m.board, m.outbox)
  }

  lemma TickConducts(fw: Fw)
    requires WellFormed(fw) && fw.running == fw.armed && fw.pins.Conducting() && (fw.armed ==> AllConducting(fw.cycle))
    ensures WellFormed(Tick(fw)) && Tick(fw).running == Tick(fw).armed && Tick(fw).pins.Conducting()
    ensures Tick(fw).cycle == fw.cycle && Tick(fw).periodUs == fw.periodUs
  {
    hide Unpack;
  }

  lemma UnderwayConducts(m: Machine)
    requires Closed(m) && m.outbox != []
    ensures m.board.fw.armed ==> AllConducting(m.board.fw.cycle)
  {
    ConductsUnlessOff(m.ctl.engine.settings);
    assert Unpack(15) == ALL_ON;
    hide PackedCycle, PeriodUs, Unpack, Agrees;
  }

  /** A tick while the commands of a transition are still on their way. */
  lemma TickUnderway(m: Machine)
    requires Closed(m) && m.outbox != []
    ensures Closed(Advance(m, TimerFires))
  {
    UnderwayConducts(m);
    TickConducts(m.board.fw);
    if IsTarget(m.ctl.mode) && m.outbox == GoLiveCommands(m.ctl.engine) {
      TickFits(DISCHARGE, m.ctl.engine, m.board.fw);
    }
    hide PackedCycle, PeriodUs, Unpack, Agrees, Tick, WellFormed, AllConducting;
  }

  lemma TickBetweenCalls(m: Machine)
    requires Closed(m) && m.outbox == []
    ensures Closed(Advance(m, TimerFires))
  {
    var s := Sys(m.ctl, m.board);
    TicksAgree(s, 1);
    assert Ticks(s.board.fw, 1) == Tick(Ticks(s.board.fw, 0)) == Tick(s.board.fw);
    AgreeingConducts(Next(s, Fired(1)));
  }

  /** Between calls, a steady Pi that agrees with the firmware has current passing. */
  lemma AgreeingConducts(s: Sys)
    requires Agrees(s) && Steady(s.ctl)
    ensures s.board.fw.pins.Conducting() && WellFormed(s.board.fw) && s.board.fw.running == s.board.fw.armed
  {
    if IsTarget(s.ctl.mode) {
      ConductsUnlessOff(s.ctl.engine.settings);
    }
  }

  lemma TickStaysClosed(m: Machine)
    requires Closed(m)
    ensures Closed(Advance(m, TimerFires))
  {
    hide *;
    if m.outbox == [] {
      TickBetweenCalls(m);
    } else {
      TickUnderway(m);
    }
  }

  lemma EngagingDelivery(m: Machine)
    requires Closed(m) && m.outbox != [] && IsTarget(m.ctl.mode)
    ensures Closed(Advance(m, Send))
  {
    var (e, fw) := (m.ctl.engine, m.board.fw);
    PackedCycleAccepted(e.settings);
    ConductsUnlessOff(e.settings);
    PeriodArithmetic(e.settings.seqIndex, e.settings.freq);
    ExecKeepsWellFormed(fw, m.outbox[0]);
    hide PackedCycle, PeriodUs, Unpack;
    var go := GoLiveCommands(e);
    assert go[1..] == [go[1], go[2]] && go[2..] == [go[2]];
    assert go[1..][1..] == go[2..] && go[2..][1..] == [];
  }

  lemma DroppingDelivery(m: Machine)
    requires Closed(m) && m.outbox != [] && !IsTarget(m.ctl.mode)
    ensures Closed(Advance(m, Send))
  {
    assert Unpack(15) == ALL_ON;
    ExecKeepsWellFormed(m.board.fw, m.outbox[0]);
  }

  lemma DeliveryStaysClosed(m: Machine)
    requires Closed(m) && m.outbox != []
    ensures Closed(Advance(m, Send))
  {
    if IsTarget(m.ctl.mode) {
      EngagingDelivery(m);
    } else {
      DroppingDelivery(m);
    }
  }

  /** What auto-follow asks for in a steady state is always a seamless change. */
  lemma GentleAskIsSeamless(c: Ctl, call: FollowCall)
    requires Steady(c) && Gentle(c, Call.FollowCall(call))
    ensures var (f, ask) := Step(c.follow, call);
      && f.Valid() && f.enabled
      && (ask.None? ==> f.Wanted() == c.mode)
      && (ask.Some? ==> f.Wanted() == ask.value && Seamless(c.mode, ask.value))
  {
    StepAsksForTheWantedMode(c.follow, call);
  }

  lemma FollowStaysClosed(m: Machine, call: FollowCall, t: Times)
    requires Closed(m) && m.outbox == [] && Gentle(m.ctl, Call.FollowCall(call))
    ensures var (c, cs) := Follows(m.ctl, Step(m.ctl.follow, call), t);
      Closed(Machine(c, m.board, cs))
  {
    var (f, ask) := Step(m.ctl.follow, call);
    GentleAskIsSeamless(m.ctl, call);
    if ask == Some(DISCHARGE) {
      ConductsUnlessOff(m.ctl.engine.settings);
    }
  }

  lemma CallStaysClosed(m: Machine, call: Call, t: Times)
    requires Closed(m)
    ensures Closed(Advance(m, Do(call, t)))
  {
    if m.outbox == [] && Gentle(m.ctl, call) {
      match call
      case SetMode(mode) => FollowStaysClosed(m, Target(mode), t);
      case FollowCall(f) => FollowStaysClosed(m, f, t);
      case _ =>
    }
  }

  /** No open circuit. From any steady state with auto-follow enabled, in every interleaving of
      gentle calls, single command deliveries and timer interrupts, at least one high-side and one
      low-side FET conduct at every moment. */
  lemma {:induction false} NeverOpen(m: Machine, moves: seq<Move>)
    requires Closed(m)
    ensures Closed(AdvanceAll(m, moves))
    ensures AdvanceAll(m, moves).board.fw.pins.Conducting()
    decreases |moves|
  {
    if moves == [] {
    } else {
      match moves[0] {
        case Do(call, t) => CallStaysClosed(m, call, t);
        case Send => if m.outbox != [] { DeliveryStaysClosed(m); }
        case TimerFires => TickStaysClosed(m);
      }
      NeverOpen(Advance(m, moves[0]), moves[1..]);
    }
  }

  /** Every run that has just enabled auto-follow, with a switching sequence selected, is such a
      state. */
  lemma EnablingIsSteady(s: Sys, t: Times)
    requires Agrees(s) && Coupled(s.ctl)
    ensures !s.ctl.follow.enabled && s.ctl.engine.settings.seqIndex != 0 ==>
      var s' := Next(s, Called(Call.FollowCall(Enable(true)), t));
      Closed(Machine(s'.ctl, s'.board, []))
  {
    hide WellFormed, FirmwareFits, PackedCycle, PeriodUs, Unpack, SendAll;
    if !s.ctl.follow.enabled && s.ctl.engine.settings.seqIndex != 0 {
      var s' := Next(s, Called(Call.FollowCall(Enable(true)), t));
      FollowsAgrees(s, Enable(true), t);
      EnabledInDischarge(s.ctl, t);
      SteadyInDischarge(s');
      hide *;
      AgreeingConducts(s');
      AgreedIsClosed(s');
    }
  }

  lemma EnabledInDischarge(c: Ctl, t: Times)
    requires c.engine.settings.Valid() && Coupled(c) && !c.follow.enabled
    ensures var c' := Follows(c, Step(c.follow, Enable(true)), t).0;
      c'.mode == DISCHARGE && c'.follow.enabled && c'.engine.settings.seqIndex == c.engine.settings.seqIndex
  {
    hide PackedCycle, PeriodUs;
  }

  lemma SteadyInDischarge(s: Sys)
    requires Agrees(s) && Coupled(s.ctl) && s.ctl.mode == DISCHARGE && s.ctl.follow.enabled
    requires s.ctl.engine.settings.seqIndex != 0
    ensures Steady(s.ctl)
  {
  }

  lemma AgreedIsClosed(s: Sys)
    requires Agrees(s) && Steady(s.ctl) && s.board.fw.pins.Conducting()
    ensures Closed(Machine(s.ctl, s.board, []))
  {
  }
}
