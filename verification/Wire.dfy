/** The Pi and the firmware joined by the serial line: whatever the mode controller sends in any run
    is what the firmware's line reader and parser hear. */
module Wire {
  import opened Firmware
  import opened Config
  import opened GpioDriver
  import opened SequenceEngine
  import opened AutoFollow
  import opened ModeController
  import opened CmdParser
  import UsbCdc

  ghost predicate AllSendable(cs: seq<Command>) {
    forall k :: 0 <= k < |cs| ==> Sendable(cs[k])
  }

  lemma PeriodSendable(e: Engine)
    requires e.Valid() && !e.paused
    ensures Sendable(F(if e.periodUs < 50 then 50 else e.periodUs))
  {
    PeriodArithmetic(e.settings.seqIndex, e.settings.freq);
  }

  lemma GoSendable(e: Engine)
    requires e.Valid() && !e.paused
    ensures AllSendable(GoCommands(e)) && AllSendable(GoLiveCommands(e))
  {
    PackedCycleAccepted(e.settings);
    PeriodSendable(e);
    hide PackedCycle, PeriodUs, ValidCycle;
  }

  lemma TransitSendable(c: Ctl, m: Mode, t: Times)
    requires c.engine.Valid()
    ensures AllSendable(Transit(c, m, t).1)
  {
    EnteringIsValid(c.engine, m, t.now);
    GoSendable(Entering(c.engine, m, t.now));
    GoSendable(Entering(Paused(c.engine), m, t.now));
    hide GoCommands, GoLiveCommands, Entering, PackedCycle, PeriodUs;
  }

  lemma CallSendable(c: Ctl, cache: Pins, call: Call, t: Times)
    requires c.engine.Valid()
    ensures AllSendable(React(c, cache, call, t).1)
  {
    hide Transit, PackedCycle, PeriodUs, GoCommands;
    match call {
      case SetMode(m) =>
        TransitSendable(c.(follow := Targeting(c.follow, m).0), m, t);
        TransitSendable(c.(follow := Enabling(c.follow, false).0), m, t);
        TransitSendable(c, m, t);
      case FollowCall(f) =>
        var (g, ask) := Step(c.follow, f);
        if ask.Some? {
          TransitSendable(c.(follow := g), ask.value, t);
        }
      case Flush =>
        if !c.engine.paused {
          GoSendable(c.engine);
        }
      case _ =>
    }
  }

  lemma EventSendable(s: Sys, e: Event)
    requires Agrees(s) && AllSendable(s.board.sent)
    ensures AllSendable(Next(s, e).board.sent)
  {
    hide React, Sendable, WellFormed, FirmwareFits;
    if e.Called? {
      CallSendable(s.ctl, s.board.cache, e.call, e.t);
      SendAllIsExecAll(s.board, React(s.ctl, s.board.cache, e.call, e.t).1);
    }
  }

  lemma {:induction false} RunSendable(s: Sys, es: seq<Event>)
    requires Agrees(s) && Coupled(s.ctl) && AllSendable(s.board.sent)
    ensures AllSendable(Run(s, es).board.sent)
    decreases |es|
  {
    hide Agrees, Coupled, Next, AllSendable;
    if es == [] {
    } else {
      AgreesIsValid(s);
      EventAgrees(s, es[0]);
      EventSendable(s, es[0]);
      RunSendable(Next(s, es[0]), es[1..]);
    }
  }

  lemma StartAgrees()
    ensures Agrees(START) && Coupled(START.ctl) && START.board.sent == []
  {
  }

  /** The firmware hears exactly the commands sent in any run from start-up, once each and in order,
      however the bytes are split between its polls. */
  lemma FirmwareHears(es: seq<Event>, port: seq<UsbCdc.Event>)
    ensures START.ctl.engine.settings.Valid()
    ensures var sent := Run(START, es).board.sent;
      && (forall k :: 0 <= k < |sent| ==> Sendable(sent[k]))
      && (UsbCdc.Arrived(port) == Stream(sent) && UsbCdc.AfterAll(UsbCdc.IDLE_PORT, port).fifo == "" ==>
            CommandsOf(UsbCdc.AfterAll(UsbCdc.IDLE_PORT, port).lines) == sent)
  {
    hide Run, Agrees, Coupled, Sendable, Stream, CommandsOf, UsbCdc.AfterAll, UsbCdc.Arrived, UsbCdc.LinesFrom;
    StartAgrees();
    AgreesIsValid(START);
    RunSendable(START, es);
    var sent := Run(START, es).board.sent;
    StreamRoundTrip(sent);
    UsbCdc.ChunkingDoesNotMatter(port);
  }
}
