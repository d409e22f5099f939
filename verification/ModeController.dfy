/** mode_controller.py: the five modes over the driver, the engine and auto-follow. */
module ModeController {
  // `React` says what each call does to the Pi side and which commands it sends, in order; a run
  // interleaves calls with timer interrupts of the firmware.

  import opened Firmware
  import opened Config
  import opened GpioDriver
  import opened Options
  import opened SequenceEngine
  import opened AutoFollow

  datatype Ctl = Ctl(engine: Engine, offset: Option<real>, mode: Mode, debugStep: int, follow: Follow)

  datatype Sys = Sys(ctl: Ctl, board: Board)

  predicate Seamless(prev: Mode, next: Mode) {
    (prev == DISCHARGE && IsTarget(next)) || (IsTarget(prev) && next == DISCHARGE)
  }

  /** The engine as resume() or resume_live() finds it when `m` is entered. */
  function Entering(e: Engine, m: Mode, now: real): (e': Engine)
    requires e.settings.Valid()
    ensures e'.settings == e.settings.(pulse := m == PULSE_CHARGE) && !e'.paused
  {
    Unpaused(WithPulseMode(e, m == PULSE_CHARGE, now))
  }

  /** _set_mode_internal */
  function Transit(c: Ctl, m: Mode, t: Times): (r: (Ctl, seq<Command>))
    requires c.engine.settings.Valid()
    ensures r.0.engine.settings.Valid()
  {
    if m == c.mode then (c, [])
    else if Seamless(c.mode, m) then
      if m == DISCHARGE then
        (c.(engine := Paused(c.engine), mode := m), [E([15]), Y(ALL_ON)])
      else
        var e := Entering(c.engine, m, t.now);
        (c.(engine := Anchored(e, c.offset, t), mode := m), GoLiveCommands(e))
    else
      var off := PauseCommands(c.engine) + [S(ALL_OFF)];
      var idle := c.(engine := Paused(c.engine), mode := m);
      match m
      case IDLE => (idle, off)
      case DISCHARGE => (idle, off + [S(ALL_ON)])
      case DEBUG => (idle.(debugStep := -1), off)
      case _ =>
        var e := Entering(idle.engine, m, t.now);
        var offset := SyncedOffset(c.offset, t);
        (idle.(engine := Anchored(e, offset, t), offset := offset), off + GoCommands(e))
  }

  /** The set_mode callback of auto-follow. */
  function Follows(c: Ctl, asked: (Follow, Option<Mode>), t: Times): (r: (Ctl, seq<Command>))
    requires c.engine.settings.Valid()
    ensures r.0.engine.settings.Valid()
  {
    var c' := c.(follow := asked.0);
    if asked.1.Some? then Transit(c', asked.1.value, t) else (c', [])
  }

  datatype Call =
    | SetMode(mode: Mode)
    | SetFet(index: int, on: bool)
    | DebugStep
    | SetFrequency(hz: real)
    | SetSequence(index: int)
    | Flush
    | FollowCall(call: FollowCall)

  function WithFet(p: Pins, index: int, on: bool): Pins {
    match index
    case 0 => p.(p1 := on)
    case 1 => p.(p2 := on)
    case 2 => p.(n1 := on)
    case _ => p.(n2 := on)
  }

  /** The single FET that debug step k lights; step 4 is all off. */
  function DebugPins(step: int): Pins {
    if 0 <= step < 4 then WithFet(ALL_OFF, step, true) else ALL_OFF
  }

  /** set_mode: while auto-follow is enabled a switching mode only becomes its target, and any
      other mode disables it first. */
  function Selecting(c: Ctl, m: Mode, t: Times): (r: (Ctl, seq<Command>))
    requires c.engine.settings.Valid()
    ensures r.0.engine.settings.Valid()
  {
    if c.follow.enabled && IsTarget(m) then Follows(c, Targeting(c.follow, m), t)
    else if c.follow.enabled then Transit(c.(follow := Enabling(c.follow, false).0), m, t)
    else Transit(c, m, t)
  }

  /** What a call does. A rejected call (a ValueError) changes and sends nothing. */
  function React(c: Ctl, cache: Pins, call: Call, t: Times): (r: (Ctl, seq<Command>))
    requires c.engine.settings.Valid()
    ensures r.0.engine.settings.Valid()
  {
    match call
    case SetMode(m) => Selecting(c, m, t)
    case SetFet(index, on) =>
      if c.mode == DEBUG && 0 <= index <= 3 then (c, [S(WithFet(cache, index, on))]) else (c, [])
    case DebugStep =>
      if c.mode == DEBUG then
        var step := (c.debugStep + 1) % 5;
        (c.(debugStep := step), [S(DebugPins(step))])
      else (c, [])
    case SetFrequency(hz) => (c.(engine := WithFrequency(c.engine, hz, t.now)), [])
    case SetSequence(i) => (c.(engine := WithSequence(c.engine, i, t.now)), [])
    case Flush =>
      (c.(engine := Flushed(c.engine, c.offset, t),
          offset := if FlushCommands(c.engine) == [] then c.offset else SyncedOffset(c.offset, t)),
       FlushCommands(c.engine))
    case FollowCall(f) => Follows(c, Step(c.follow, f), t)
  }

  datatype Event = Called(call: Call, t: Times) | Fired(k: nat)

  function Next(s: Sys, e: Event): (s': Sys)
    requires s.ctl.engine.settings.Valid()
    ensures s'.ctl.engine.settings.Valid()
  {
    match e
    case Called(call, t) =>
      var (c, cs) := React(s.ctl, s.board.cache, call, t);
      Sys(c, SendAll(s.board, cs))
    case Fired(k) => s.(board := s.board.(fw := Ticks(s.board.fw, k)))
  }

  const START := Sys(Ctl(NEW_ENGINE, None, IDLE, -1, NEW_FOLLOW), Board(BOOT, ALL_OFF, []))

  // ----- mode/firmware agreement ---------------------------------------------------------------

  /** What the firmware is doing in each mode. */
  ghost predicate FirmwareFits(m: Mode, e: Engine, fw: Fw) {
    match m
    case IDLE => !fw.armed && fw.pins == ALL_OFF
    case DEBUG => !fw.armed
    case DISCHARGE => fw.pins == ALL_ON && (fw.armed ==> fw.cycle == [15])
    case _ =>
      && fw.armed && OneKind(fw.cycle)
      && 0 <= fw.idx < |fw.cycle| && fw.pins == Unpack(fw.cycle[fw.idx])
      && (e.settings.Valid() && !e.Pending() ==>
            fw.cycle == PackedCycle(e.settings) && fw.periodUs == PeriodUs(e.settings))
  }

  /** The Pi and the firmware agree. The FET cache is exact whenever the engine is paused. */
  ghost predicate Agrees(s: Sys) {
    var (c, fw) := (s.ctl, s.board.fw);
    && c.engine.Valid()
    && (c.engine.paused <==> !IsTarget(c.mode))
    && (IsTarget(c.mode) ==> c.engine.settings.pulse == (c.mode == PULSE_CHARGE))
    && WellFormed(fw) && fw.running == fw.armed
    && FirmwareFits(c.mode, c.engine, fw)
    && (c.engine.paused ==> s.board.cache == fw.pins)
  }

  /** Auto-follow holds the mode it wants. */
  ghost predicate Coupled(c: Ctl) {
    c.follow.Valid() && (c.follow.enabled ==> c.mode == c.follow.Wanted())
  }

  lemma EnteringIsValid(e: Engine, m: Mode, now: real)
    requires e.Valid()
    ensures Entering(e, m, now).Valid() && !Entering(e, m, now).paused
    ensures Entering(Paused(e), m, now).Valid()
  {
  }

  lemma AgreesIsValid(s: Sys)
    requires Agrees(s)
    ensures s.ctl.engine.Valid() && s.ctl.engine.settings.Valid() && WellFormed(s.board.fw)
  {
  }

  lemma TickFits(m: Mode, e: Engine, fw: Fw)
    requires WellFormed(fw) && FirmwareFits(m, e, fw)
    ensures FirmwareFits(m, e, Tick(fw))
    ensures !IsTarget(m) ==> Tick(fw).pins == fw.pins
  {
    assert Unpack(15) == ALL_ON;
  }

  lemma {:induction false} TicksAgree(s: Sys, k: nat)
    requires Agrees(s)
    ensures Agrees(Next(s, Fired(k)))
  {
    if k == 0 {
    } else {
      TicksAgree(s, k - 1);
      TicksFrame(s.board.fw, k);
      TicksFrame(s.board.fw, k - 1);
      TicksKeepWellFormed(s.board.fw, k);
      TickFits(s.ctl.mode, s.ctl.engine, Ticks(s.board.fw, k - 1));
    }
  }

  /** S with all off, after H when switching, always disarms the timer: pause() sends no H once
      pause_silent() has run, so leaving silent discharge relies on S halting the timer itself. */
  lemma SwitchedOff(s: Sys)
    requires Agrees(s)
    ensures SendAll(s.board, PauseCommands(s.ctl.engine) + [S(ALL_OFF)])
         == Board(Halt(s.board.fw), ALL_OFF, s.board.sent + PauseCommands(s.ctl.engine) + [S(ALL_OFF)])
  {
    var b := s.board;
    if s.ctl.engine.paused {
      assert PauseCommands(s.ctl.engine) + [S(ALL_OFF)] == [S(ALL_OFF)];
      SendAllAppend(b, [], [S(ALL_OFF)]);
      assert SendAll(b, [S(ALL_OFF)]) == Send(b, S(ALL_OFF));
      assert b.sent + [] + [S(ALL_OFF)] == b.sent + [S(ALL_OFF)];
    } else {
      SendAllAppend(b, [H], [S(ALL_OFF)]);
      assert SendAll(b, [H]) == Send(b, H);
      assert SendAll(Send(b, H), [S(ALL_OFF)]) == Send(Send(b, H), S(ALL_OFF));
    }
  }

  lemma DeadTimeTransitAgrees(s: Sys, m: Mode, t: Times)
    requires Agrees(s) && m != s.ctl.mode && !Seamless(s.ctl.mode, m)
    ensures Agrees(Sys(Transit(s.ctl, m, t).0, SendAll(s.board, Transit(s.ctl, m, t).1)))
  {
    SwitchedOff(s);
    if IsTarget(m) {
      DeadTimeGoAgrees(s, m, t);
    } else {
      var off := PauseCommands(s.ctl.engine) + [S(ALL_OFF)];
      SendAllAppend(s.board, off, [S(ALL_ON)]);
      SendAllOne(SendAll(s.board, off), S(ALL_ON));
      hide PackedCycle, PeriodUs, Unpack, SendAll, PauseCommands;
    }
  }

  lemma DeadTimeGoAgrees(s: Sys, m: Mode, t: Times)
    requires Agrees(s) && !Seamless(s.ctl.mode, m) && m != s.ctl.mode && IsTarget(m)
    requires SendAll(s.board, PauseCommands(s.ctl.engine) + [S(ALL_OFF)])
          == Board(Halt(s.board.fw), ALL_OFF, s.board.sent + PauseCommands(s.ctl.engine) + [S(ALL_OFF)])
    ensures Agrees(Sys(Transit(s.ctl, m, t).0, SendAll(s.board, Transit(s.ctl, m, t).1)))
  {
    var off := PauseCommands(s.ctl.engine) + [S(ALL_OFF)];
    var b := SendAll(s.board, off);
    var e := Entering(Paused(s.ctl.engine), m, t.now);
    SendAllAppend(s.board, off, GoCommands(e));
    SendAllIsExecAll(b, GoCommands(e));
    GoStartsAfresh(b.fw, e);
    PackedCycleAccepted(e.settings);
    ProgrammedIsOneKind(e.settings);
    PeriodArithmetic(e.settings.seqIndex, e.settings.freq);
    hide PackedCycle, PeriodUs, Unpack, SendAll, ExecAll, GoCommands, PauseCommands;
  }

  lemma LiveStart(fw: Fw, e: Engine)
    requires e.Valid() && !e.paused && WellFormed(fw)
    ensures var idx := if fw.idx >= |PackedCycle(e.settings)| then 0 else fw.idx;
      ExecAll(fw, GoLiveCommands(e)) ==
        Fw(PackedCycle(e.settings), idx, e.periodUs, true, true, Unpack(PackedCycle(e.settings)[idx]))
  {
    PackedCycleAccepted(e.settings);
    PeriodArithmetic(e.settings.seqIndex, e.settings.freq);
    var c, f := E(PackedCycle(e.settings)), F(e.periodUs);
    assert GoLiveCommands(e) == [c, f, G];
    assert [c, f, G][1..] == [f, G] && [f, G][1..] == [G] && [G][1..] == [];
    assert ExecAll(Exec(Exec(fw, c), f), [G]) == Exec(Exec(Exec(fw, c), f), G);
  }

  lemma DropAgrees(s: Sys, t: Times)
    requires Agrees(s)
    ensures IsTarget(s.ctl.mode) ==>
      Agrees(Sys(Transit(s.ctl, DISCHARGE, t).0, SendAll(s.board, Transit(s.ctl, DISCHARGE, t).1)))
  {
    hide PackedCycle, PeriodUs;
    SendAllTwo(s.board, [E([15]), Y(ALL_ON)]);
  }

  lemma EngageAgrees(s: Sys, m: Mode, t: Times)
    requires Agrees(s) && s.ctl.mode == DISCHARGE && IsTarget(m)
    ensures Agrees(Sys(Transit(s.ctl, m, t).0, SendAll(s.board, Transit(s.ctl, m, t).1)))
  {
    var e := Entering(s.ctl.engine, m, t.now);
    SendAllIsExecAll(s.board, GoLiveCommands(e));
    LiveStart(s.board.fw, e);
    PackedCycleAccepted(e.settings);
    ProgrammedIsOneKind(e.settings);
    PeriodArithmetic(e.settings.seqIndex, e.settings.freq);
    hide PackedCycle, PeriodUs, Unpack, SendAll, ExecAll, GoLiveCommands;
  }

  lemma SeamlessTransitAgrees(s: Sys, m: Mode, t: Times)
    requires Agrees(s) && Seamless(s.ctl.mode, m)
    ensures Agrees(Sys(Transit(s.ctl, m, t).0, SendAll(s.board, Transit(s.ctl, m, t).1)))
  {
    hide Agrees, Transit, SendAll;
    if m == DISCHARGE {
      DropAgrees(s, t);
    } else {
      EngageAgrees(s, m, t);
    }
  }

  lemma TransitAgrees(s: Sys, m: Mode, t: Times)
    requires Agrees(s)
    ensures var (c, cs) := Transit(s.ctl, m, t);
      Agrees(Sys(c, SendAll(s.board, cs))) && c.mode == m && c.follow == s.ctl.follow
  {
    if m != s.ctl.mode {
      if Seamless(s.ctl.mode, m) {
        SeamlessTransitAgrees(s, m, t);
      } else {
        DeadTimeTransitAgrees(s, m, t);
      }
    }
  }

  lemma FollowsAgrees(s: Sys, call: FollowCall, t: Times)
    requires Agrees(s) && Coupled(s.ctl)
    ensures var (c, cs) := Follows(s.ctl, Step(s.ctl.follow, call), t);
      Agrees(Sys(c, SendAll(s.board, cs))) && Coupled(c)
  {
    var (f, ask) := Step(s.ctl.follow, call);
    StepAsksForTheWantedMode(s.ctl.follow, call);
    if ask.Some? {
      TransitAgrees(Sys(s.ctl.(follow := f), s.board), ask.value, t);
    }
  }

  lemma FlushAgrees(s: Sys, t: Times)
    requires Agrees(s)
    ensures Agrees(Next(s, Called(Flush, t)))
  {
    var e := s.ctl.engine;
    if !e.paused && e.Pending() {
      SendAllIsExecAll(s.board, GoCommands(e));
      GoStartsAfresh(s.board.fw, e);
      PackedCycleAccepted(e.settings);
      ProgrammedIsOneKind(e.settings);
      PeriodArithmetic(e.settings.seqIndex, e.settings.freq);
    }
  }

  lemma DebugAgrees(s: Sys, call: Call, t: Times)
    requires Agrees(s) && (call.SetFet? || call.DebugStep?)
    ensures Agrees(Next(s, Called(call, t)))
  {
    var (c, cs) := React(s.ctl, s.board.cache, call, t);
    if cs != [] {
      assert cs[1..] == [];
      assert SendAll(s.board, cs) == Send(s.board, cs[0]);
    }
  }

  lemma SettingAgrees(s: Sys, call: Call, t: Times)
    requires Agrees(s) && Coupled(s.ctl) && (call.SetFrequency? || call.SetSequence?)
    ensures Agrees(Next(s, Called(call, t))) && Coupled(Next(s, Called(call, t)).ctl)
  {
  }

  lemma SelectingAgrees(s: Sys, m: Mode, t: Times)
    requires Agrees(s) && Coupled(s.ctl)
    ensures var (c, cs) := Selecting(s.ctl, m, t);
      Agrees(Sys(c, SendAll(s.board, cs))) && Coupled(c)
  {
    hide PackedCycle, PeriodUs, Transit, SendAll, FirmwareFits, WellFormed;
    if s.ctl.follow.enabled && IsTarget(m) {
      FollowsAgrees(s, Target(m), t);
    } else if s.ctl.follow.enabled {
      TransitAgrees(Sys(s.ctl.(follow := Enabling(s.ctl.follow, false).0), s.board), m, t);
    } else {
      TransitAgrees(s, m, t);
    }
  }

  lemma CallAgrees(s: Sys, call: Call, t: Times)
    requires Agrees(s) && Coupled(s.ctl)
    ensures Agrees(Next(s, Called(call, t))) && Coupled(Next(s, Called(call, t)).ctl)
  {
    hide Agrees, Transit, SendAll, Selecting, Follows, WithFrequency, WithSequence;
    match call
    case SetMode(m) => SelectingAgrees(s, m, t);
    case SetFet(_, _) => DebugAgrees(s, call, t);
    case DebugStep => DebugAgrees(s, call, t);
    case SetFrequency(_) => SettingAgrees(s, call, t);
    case SetSequence(_) => SettingAgrees(s, call, t);
    case Flush => FlushAgrees(s, t);
    case FollowCall(f) => FollowsAgrees(s, f, t);
  }

  lemma EventAgrees(s: Sys, e: Event)
    requires Agrees(s) && Coupled(s.ctl)
    ensures Agrees(Next(s, e)) && Coupled(Next(s, e).ctl)
  {
    match e
    case Called(call, t) => CallAgrees(s, call, t);
    case Fired(k) => TicksAgree(s, k);
  }

  function Run(s: Sys, es: seq<Event>): (s': Sys)
    requires s.ctl.engine.settings.Valid()
    ensures s'.ctl.engine.settings.Valid()
    decreases |es|
  {
    if es == [] then s else Run(Next(s, es[0]), es[1..])
  }

  /** Over every run from start-up, of calls in any order with any interrupts between them, the
      firmware does what the mode says, and auto-follow holds the mode it wants. */
  lemma {:induction false} AgreementOverRuns(s: Sys, es: seq<Event>)
    requires Agrees(s) && Coupled(s.ctl)
    ensures Agrees(Run(s, es)) && Coupled(Run(s, es).ctl)
    decreases |es|
  {
    if es == [] {
    } else {
      EventAgrees(s, es[0]);
      AgreementOverRuns(Next(s, es[0]), es[1..]);
    }
  }

  lemma AgreementFromStart(es: seq<Event>)
    ensures Agrees(Run(START, es)) && Coupled(Run(START, es).ctl)
  {
    AgreementOverRuns(START, es);
  }

  // ----- what a pick of a mode amounts to --------------------------------------------------------

  /** A switching mode picked while auto-follow is on only becomes its target, applied at once if it is
      engaged; every other pick is entered, and auto-follow is then off. */
  lemma PickedMode(s: Sys, m: Mode, t: Times)
    requires Agrees(s) && Coupled(s.ctl)
    ensures var (was, c) := (s.ctl.follow, Next(s, Called(SetMode(m), t)).ctl);
      if was.enabled && (m == CHARGE || m == PULSE_CHARGE) then
        c.follow == was.(target := m) && c.mode == if was.active then m else DISCHARGE
      else
        c.mode == m && !c.follow.enabled && !c.follow.active
  {
    hide PackedCycle, PeriodUs, Transit, SendAll, FirmwareFits, WellFormed;
    var f := s.ctl.follow;
    if f.enabled && IsTarget(m) {
      FollowsAgrees(s, Target(m), t);
      TransitAgrees(Sys(s.ctl.(follow := Targeting(f, m).0), s.board), m, t);
    } else if f.enabled {
      TransitAgrees(Sys(s.ctl.(follow := Enabling(f, false).0), s.board), m, t);
    } else {
      TransitAgrees(s, m, t);
    }
  }

  /** The clock offset is measured afresh by every call that sends P, and kept by every other. */
  lemma OffsetFollowsP(c: Ctl, cache: Pins, call: Call, t: Times)
    requires c.engine.settings.Valid()
    ensures var (r, cs) := React(c, cache, call, t);
      r.offset == if P in cs then SyncedOffset(c.offset, t) else c.offset
  {
    hide SyncedOffset, Transit, PackedCycle, PeriodUs, Estimate;
    match call {
      case SetMode(m) =>
        TransitOffset(c, m, t);
        TransitOffset(c.(follow := Targeting(c.follow, m).0), m, t);
        TransitOffset(c.(follow := Enabling(c.follow, false).0), m, t);
      case FollowCall(f) =>
        var (g, ask) := Step(c.follow, f);
        if ask.Some? {
          TransitOffset(c.(follow := g), ask.value, t);
        }
      case Flush =>
        assert GoCommands(c.engine)[2] == P;
      case _ =>
    }
  }

  lemma TransitOffset(c: Ctl, m: Mode, t: Times)
    requires c.engine.settings.Valid()
    ensures var (r, cs) := Transit(c, m, t);
      r.offset == if P in cs then SyncedOffset(c.offset, t) else c.offset
  {
    hide SyncedOffset, PackedCycle, PeriodUs, Anchored;
    var off := PauseCommands(c.engine) + [S(ALL_OFF)];
    if IsTarget(m) {
      var e := Entering(Paused(c.engine), m, t.now);
      assert (off + GoCommands(e))[|off| + 2] == P;
    }
  }

  lemma {:induction false} RunAppend(s: Sys, es: seq<Event>, e: Event)
    requires s.ctl.engine.settings.Valid()
    ensures Run(s, es + [e]) == Next(Run(s, es), e)
    decreases |es|
  {
    hide Next;
    if es == [] {
      assert [e][1..] == [];
    } else {
      assert (es + [e])[1..] == es[1..] + [e];
      RunAppend(Next(s, es[0]), es[1..], e);
    }
  }

  lemma InitialSettings()
    ensures START.ctl.engine.settings.Valid()
  {
  }

  /** Whatever ran before, picking idle leaves the timer off and all pins off, and picking discharge by hand
      leaves all pins on; further interrupts change neither. */
  lemma PickedRun(es: seq<Event>, t: Times, k: nat)
    ensures var fw := Ticks(Run(START, es + [Called(SetMode(IDLE), t)]).board.fw, k);
      !fw.armed && !fw.running && fw.pins == Pins(false, false, false, false)
    ensures Ticks(Run(START, es + [Called(SetMode(DISCHARGE), t)]).board.fw, k).pins == Pins(true, true, true, true)
  {
    hide *;
    InitialSettings();
    AgreementFromStart(es);
    IdlePicked(es, t, k);
    DischargePicked(es, t, k);
  }

  lemma IdlePicked(es: seq<Event>, t: Times, k: nat)
    requires START.ctl.engine.settings.Valid() && Agrees(Run(START, es)) && Coupled(Run(START, es).ctl)
    ensures var fw := Ticks(Run(START, es + [Called(SetMode(IDLE), t)]).board.fw, k);
      !fw.armed && !fw.running && fw.pins == Pins(false, false, false, false)
  {
    var s := Run(START, es);
    hide Run, Next, WellFormed, Ticks;
    RunAppend(START, es, Called(SetMode(IDLE), t));
    PickedMode(s, IDLE, t);
    EventAgrees(s, Called(SetMode(IDLE), t));
    TicksFrame(Next(s, Called(SetMode(IDLE), t)).board.fw, k);
  }

  lemma DischargePicked(es: seq<Event>, t: Times, k: nat)
    requires START.ctl.engine.settings.Valid() && Agrees(Run(START, es)) && Coupled(Run(START, es).ctl)
    ensures Ticks(Run(START, es + [Called(SetMode(DISCHARGE), t)]).board.fw, k).pins == Pins(true, true, true, true)
  {
    var s := Run(START, es);
    hide Run, Next, WellFormed, Ticks, Agrees;
    RunAppend(START, es, Called(SetMode(DISCHARGE), t));
    PickedMode(s, DISCHARGE, t);
    var r := Next(s, Called(SetMode(DISCHARGE), t));
    EventAgrees(s, Called(SetMode(DISCHARGE), t));
    AgreesIsValid(r);
    TicksAgree(r, k);
    FiredDischarge(r, k);
  }

  lemma FiredDischarge(s: Sys, k: nat)
    requires s.ctl.engine.settings.Valid() && s.ctl.mode == DISCHARGE && Agrees(Next(s, Fired(k)))
    ensures Ticks(s.board.fw, k).pins == Pins(true, true, true, true)
  {
  }

  /** The last frequency and sequence asked for; 10 Hz and sequence 0 before that. */
  function AskedFrequency(es: seq<Event>): real {
    if es == [] then 10.0
    else
      var e := es[|es| - 1];
      if e.Called? && e.call.SetFrequency? then e.call.hz else AskedFrequency(es[..|es| - 1])
  }

  function AskedSequence(es: seq<Event>): int {
    if es == [] then 0
    else
      var e := es[|es| - 1];
      if e.Called? && e.call.SetSequence? then e.call.index else AskedSequence(es[..|es| - 1])
  }

  predicate SameChoice(a: Settings, b: Settings) {
    a.freq == b.freq && a.seqIndex == b.seqIndex
  }

  lemma TransitKeepsChoice(c: Ctl, m: Mode, t: Times)
    requires c.engine.settings.Valid()
    ensures SameChoice(Transit(c, m, t).0.engine.settings, c.engine.settings)
  {
    hide PeriodUs, PackedCycle, SyncedOffset, StartAnchor;
  }

  lemma CallKeepsChoice(c: Ctl, cache: Pins, call: Call, t: Times)
    requires c.engine.settings.Valid()
    ensures var (was, now) := (c.engine.settings, React(c, cache, call, t).0.engine.settings);
      && now.freq == (if call.SetFrequency? then ClampFreq(call.hz) else was.freq)
      && now.seqIndex == (if call.SetSequence? then ClampIndex(call.index) else was.seqIndex)
  {
    hide PeriodUs, PackedCycle, Estimate, SyncedOffset, StartAnchor, Transit;
    match call {
      case SetMode(m) =>
        TransitKeepsChoice(c, m, t);
        TransitKeepsChoice(c.(follow := Targeting(c.follow, m).0), m, t);
        TransitKeepsChoice(c.(follow := Enabling(c.follow, false).0), m, t);
      case FollowCall(f) =>
        var (g, ask) := Step(c.follow, f);
        if ask.Some? {
          TransitKeepsChoice(c.(follow := g), ask.value, t);
        }
      case _ =>
    }
  }

  lemma EventKeepsChoice(s: Sys, e: Event)
    requires s.ctl.engine.settings.Valid()
    ensures var (was, now) := (s.ctl.engine.settings, Next(s, e).ctl.engine.settings);
      && now.freq == (if e.Called? && e.call.SetFrequency? then ClampFreq(e.call.hz) else was.freq)
      && now.seqIndex == (if e.Called? && e.call.SetSequence? then ClampIndex(e.call.index) else was.seqIndex)
  {
    hide React, SendAll;
    if e.Called? {
      CallKeepsChoice(s.ctl, s.board.cache, e.call, e.t);
    }
  }

  /** Over any run, the frequency and the sequence are the last ones asked for, brought into range: no change
      of mode, start or flush loses them. */
  lemma {:induction false} EngineSettingsOfRun(es: seq<Event>)
    ensures var now := Run(START, es).ctl.engine.settings;
      now.freq == ClampFreq(AskedFrequency(es)) && now.seqIndex == ClampIndex(AskedSequence(es))
    decreases |es|
  {
    if es == [] {
    } else {
      hide Next;
      var n := |es| - 1;
      EngineSettingsOfRun(es[..n]);
      assert es == es[..n] + [es[n]];
      RunAppend(START, es[..n], es[n]);
      EventKeepsChoice(Run(START, es[..n]), es[n]);
    }
  }

  // ----- single FETs in debug mode -----------------------------------------------------------

  /** FETs by number: 0 is P1, 1 is P2, 2 is N1, 3 is N2. */
  function FetOf(p: Pins, k: int): bool {
    if k == 0 then p.p1 else if k == 1 then p.p2 else if k == 2 then p.n1 else p.n2
  }

  /** What FET k was last set to, if it was. */
  function LastSet(es: seq<Event>, k: int): Option<bool> {
    if es == [] then None
    else
      var e := es[|es| - 1];
      if e.Called? && e.call.SetFet? && e.call.index == k then Some(e.call.on) else LastSet(es[..|es| - 1], k)
  }

  predicate SetsFets(es: seq<Event>) {
    forall i :: 0 <= i < |es| ==> es[i].Fired? || es[i].call.SetFet?
  }

  lemma SetFetSets(s: Sys, e: Event, k: int)
    requires Agrees(s) && s.ctl.mode == DEBUG && 0 <= k <= 3 && (e.Fired? || e.call.SetFet?)
    ensures var r := Next(s, e);
      && r.ctl == s.ctl && Agrees(r)
      && FetOf(r.board.fw.pins, k)
         == if e.Called? && e.call.index == k then e.call.on else FetOf(s.board.fw.pins, k)
  {
    if e.Fired? {
      TicksAgree(s, e.k);
      TicksFrame(s.board.fw, e.k);
    } else {
      DebugAgrees(s, e.call, e.t);
      if 0 <= e.call.index <= 3 {
        SendAllOne(s.board, S(WithFet(s.board.cache, e.call.index, e.call.on)));
      }
    }
  }

  /** In debug mode every FET is as it was last set, and as it was before if it was not; numbers outside
      0..3 set nothing, and interrupts change nothing. */
  lemma {:induction false} FetsAsSet(s: Sys, es: seq<Event>, k: int)
    requires Agrees(s) && s.ctl.mode == DEBUG && SetsFets(es) && 0 <= k <= 3
    ensures var r := Run(s, es);
      && r.ctl == s.ctl && Agrees(r)
      && FetOf(r.board.fw.pins, k) == (match LastSet(es, k) case Some(on) => on case None => FetOf(s.board.fw.pins, k))
    decreases |es|
  {
    hide Next, Agrees, FetOf;
    if es == [] {
    } else {
      var n := |es| - 1;
      assert es == es[..n] + [es[n]] && forall i :: 0 <= i < n ==> es[..n][i] == es[i];
      FetsAsSet(s, es[..n], k);
      AgreesIsValid(s);
      RunAppend(s, es[..n], es[n]);
      SetFetSets(Run(s, es[..n]), es[n], k);
    }
  }

  function DebugSteps(n: nat, t: Times): seq<Event> {
    seq(n, _ => Called(DebugStep, t))
  }

  lemma DebugStepLights(s: Sys, n: nat, t: Times)
    requires Agrees(s) && s.ctl.mode == DEBUG && s.ctl.debugStep == if n == 0 then -1 else (n - 1) % 5
    ensures var r := Next(s, Called(DebugStep, t));
      && Agrees(r) && r.ctl == s.ctl.(debugStep := n % 5)
      && forall k :: 0 <= k <= 3 ==> (FetOf(r.board.fw.pins, k) <==> n % 5 == k)
  {
    DebugAgrees(s, DebugStep, t);
    SendAllOne(s.board, S(DebugPins(n % 5)));
    ModStep(n - 1, 5);
  }

  /** After entering debug mode, the n-th step (counted from 0) lights the single FET n mod 5, and none when
      that is 4. */
  lemma {:induction false} StepsThroughFets(s: Sys, n: nat, t: Times)
    requires Agrees(s) && Coupled(s.ctl) && s.ctl.mode != DEBUG
    ensures var r := Run(s, [Called(SetMode(DEBUG), t)] + DebugSteps(n + 1, t));
      && Agrees(r) && r.ctl.mode == DEBUG && r.ctl.debugStep == n % 5
      && forall k :: 0 <= k <= 3 ==> (FetOf(r.board.fw.pins, k) <==> n % 5 == k)
  {
    hide Next, Agrees, FetOf, Run;
    var enter := [Called(SetMode(DEBUG), t)];
    assert enter + DebugSteps(n + 1, t) == enter + DebugSteps(n, t) + [Called(DebugStep, t)];
    AgreesIsValid(s);
    RunAppend(s, enter + DebugSteps(n, t), Called(DebugStep, t));
    if n == 0 {
      assert enter + DebugSteps(0, t) == [] + enter;
      RunAppend(s, [], Called(SetMode(DEBUG), t));
      NothingRun(s);
      DebugEntered(s, t);
    } else {
      StepsThroughFets(s, n - 1, t);
    }
    DebugStepLights(Run(s, enter + DebugSteps(n, t)), n, t);
  }

  lemma NothingRun(s: Sys)
    requires s.ctl.engine.settings.Valid()
    ensures Run(s, []) == s
  {
  }

  lemma DebugEntered(s: Sys, t: Times)
    requires Agrees(s) && Coupled(s.ctl) && s.ctl.mode != DEBUG
    ensures var r := Next(s, Called(SetMode(DEBUG), t));
      Agrees(r) && r.ctl.mode == DEBUG && r.ctl.debugStep == -1
  {
    EventAgrees(s, Called(SetMode(DEBUG), t));
    PickedMode(s, DEBUG, t);
    hide Agrees, GoCommands, Entering;
  }

  // ----- the controller object --------------------------------------------------------------

  class ModeController {
    const gpio: GPIODriver
    const engine: SequenceEngine
    const autoFollow: AutoFollow
    var mode: Mode
    var debugStep: int

    ghost predicate Valid()
      reads this, engine
    {
      engine.gpio == gpio && engine.View().settings.Valid()
    }

    ghost function View(): Sys
      reads this, gpio, gpio.device, engine, autoFollow
    {
      Sys(Ctl(engine.View(), gpio.clockOffset, mode, debugStep, autoFollow.View()), gpio.View())
    }

    constructor (gpio: GPIODriver, engine: SequenceEngine)
      requires engine.gpio == gpio && engine.View() == NEW_ENGINE
      modifies gpio, gpio.device, engine
      ensures this.gpio == gpio && this.engine == engine && fresh(autoFollow) && Valid()
      ensures View() == Sys(START.ctl.(offset := old(gpio.clockOffset)),
                            Send(old(gpio.View()), S(ALL_OFF)))
    {
      this.gpio, this.engine := gpio, engine;
      mode, debugStep := IDLE, -1;
      autoFollow := new AutoFollow();
      new;
      gpio.AllOff();
      engine.Pause();
    }

    /** _set_mode_internal */
    method SetModeInternal(m: Mode, t: Times)
      requires Valid()
      modifies this, gpio, gpio.device, engine
      ensures Valid()
      ensures var (c, cs) := Transit(old(View().ctl), m, t);
        View() == Sys(c, SendAll(old(View().board), cs))
    {
      if m == mode { return; }
      var prev := mode;
      var skipDead := (prev == DISCHARGE && (m == CHARGE || m == PULSE_CHARGE))
                   || ((prev == CHARGE || prev == PULSE_CHARGE) && m == DISCHARGE);
      if skipDead {
        SeamlessTransition(m, t);
      } else {
        DeadTimeTransition(m, t);
      }
      mode := m;
    }

    method SeamlessTransition(m: Mode, t: Times)
      requires Valid() && Seamless(mode, m)
      modifies gpio`fetStates, gpio.device, engine
      ensures Valid()
      ensures var (c, cs) := Transit(old(View().ctl), m, t);
        View() == Sys(c.(mode := mode), SendAll(old(View().board), cs))
    {
      hide PackedCycle, PeriodUs, Unpack, Exec, SendAll, GoLiveCommands;
      if m == DISCHARGE {
        LowBitsOfStates([15]);
        var _ := gpio.ProgramSequenceLive([15]);
        gpio.AllOnNoHalt();
        engine.PauseSilent();
        SendAllTwo(old(gpio.View()), [E([15]), Y(ALL_ON)]);
      } else if m == CHARGE {
        engine.SetPulseMode(false, t.now);
        engine.ResumeLive(t);
      } else if m == PULSE_CHARGE {
        engine.SetPulseMode(true, t.now);
        engine.ResumeLive(t);
      }
    }

    method DeadTimeTransition(m: Mode, t: Times)
      requires Valid() && m != mode && !Seamless(mode, m)
      modifies this`debugStep, gpio, gpio.device, engine
      ensures Valid()
      ensures var (c, cs) := Transit(old(View().ctl), m, t);
        View() == Sys(c.(mode := mode), SendAll(old(View().board), cs))
    {
      hide PackedCycle, PeriodUs, Unpack, Exec, SendAll, GoCommands, PauseCommands;
      DeadTime();
      ghost var off, b := PauseCommands(old(engine.View())) + [S(ALL_OFF)], old(gpio.View());
      if m == IDLE {
      } else if m == CHARGE {
        engine.SetPulseMode(false, t.now);
        SendAllAppend(b, off, GoCommands(Unpaused(engine.View())));
        engine.Resume(t);
      } else if m == DISCHARGE {
        gpio.AllOn();
        SendAllAppend(b, off, [S(ALL_ON)]);
        SendAllOne(SendAll(b, off), S(ALL_ON));
      } else if m == PULSE_CHARGE {
        engine.SetPulseMode(true, t.now);
        SendAllAppend(b, off, GoCommands(Unpaused(engine.View())));
        engine.Resume(t);
      } else if m == DEBUG {
        debugStep := -1;
      }
    }

    /** The all-off gap before a transition that is not seamless. */
    method DeadTime()
      requires Valid()
      modifies gpio`fetStates, gpio.device, engine
      ensures Valid() && engine.View() == Paused(old(engine.View()))
      ensures gpio.View() == SendAll(old(gpio.View()), PauseCommands(old(engine.View())) + [S(ALL_OFF)])
    {
      ghost var e, b := engine.View(), gpio.View();
      engine.Pause();
      gpio.AllOff();
      SendAllAppend(b, PauseCommands(e), [S(ALL_OFF)]);
      SendAllOne(SendAll(b, PauseCommands(e)), S(ALL_OFF));
    }

    method SetMode(m: Mode, t: Times)
      requires Valid()
      modifies this, gpio, gpio.device, engine, autoFollow
      ensures Valid() && View() == Next(old(View()), Called(Call.SetMode(m), t))
    {
      if autoFollow.enabled && (m == CHARGE || m == PULSE_CHARGE) {
        var ask := autoFollow.SetTargetMode(m);
        if ask.Some? {
          SetModeInternal(ask.value, t);
        }
        return;
      }
      if autoFollow.enabled {
        var _ := autoFollow.SetEnabled(false);
      }
      SetModeInternal(m, t);
    }

    /** The auto-follow entry points, each followed by the mode it asks for. */
    method AutoFollowCall(call: FollowCall, t: Times)
      requires Valid()
      modifies this, gpio, gpio.device, engine, autoFollow
      ensures Valid() && View() == Next(old(View()), Called(Call.FollowCall(call), t))
    {
      hide Transit;
      var ask := None;
      match call {
        case Enable(on) => ask := autoFollow.SetEnabled(on);
        case Target(m) => ask := autoFollow.SetTargetMode(m);
        case Thresholds(enter, exit) => var _ := autoFollow.SetThresholds(enter, exit);
        case Sense(i, now) => ask := autoFollow.Tick(i, now);
      }
      if ask.Some? {
        SetModeInternal(ask.value, t);
      }
    }

    method SetFet(index: int, on: bool, t: Times) returns (ok: bool)
      requires Valid()
      modifies gpio`fetStates, gpio.device
      ensures Valid() && View() == Next(old(View()), Called(Call.SetFet(index, on), t))
      ensures ok == (mode == DEBUG && 0 <= index <= 3)
    {
      if mode != DEBUG { return false; }
      if !(0 <= index <= 3) { return false; }
      gpio.ApplyState(WithFet(gpio.fetStates, index, on));
      SendAllOne(old(gpio.View()), S(WithFet(old(gpio.fetStates), index, on)));
      ok := true;
    }

    method StepDebug(t: Times) returns (step: Option<int>)
      requires Valid()
      modifies this`debugStep, gpio`fetStates, gpio.device
      ensures Valid() && View() == Next(old(View()), Called(DebugStep, t))
      ensures step == if mode == DEBUG then Some(debugStep) else None
    {
      if mode != DEBUG { return None; }
      debugStep := (debugStep + 1) % 5;
      if debugStep < 4 {
        gpio.ApplyState(DebugPins(debugStep));
      } else {
        gpio.AllOff();
      }
      SendAllOne(old(gpio.View()), S(DebugPins(debugStep)));
      step := Some(debugStep);
    }
  }

  lemma SendAllOne(b: Board, c: Command)
    ensures SendAll(b, [c]) == Send(b, c)
  {
    assert [c][1..] == [];
  }

  lemma SendAllTwo(b: Board, cs: seq<Command>)
    requires |cs| == 2
    ensures SendAll(b, cs) == Send(Send(b, cs[0]), cs[1])
  {
    assert cs[1..] == [cs[1]];
    SendAllOne(Send(b, cs[0]), cs[1]);
  }
}
