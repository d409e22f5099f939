/** The step labels of recorded samples against the firmware's own index, in firmware time. */
module StepLabels {
  import opened Firmware
  import opened Config
  import opened GpioDriver
  import opened Options
  import opened SequenceEngine

  /** The firmware with its clock: while armed, the timer fires at `next` and every period after. */
  datatype Timed = Timed(fw: Fw, next: int)

  /** Every firing due up to and including time `now` (microseconds). */
  function Until(d: Timed, now: int): Timed
    decreases now - d.next
  {
    if d.fw.armed && d.fw.periodUs > 0 && d.next <= now then
      Until(Timed(Tick(d.fw), d.next + Tick(d.fw).periodUs), now)
    else d
  }

  /** switching_start runs, in G or inside F, and so re-arms the timer. */
  predicate Restarts(fw: Fw, c: Command) {
    && (c.G? || (c.F? && c.periodUs >= MIN_PERIOD_US && fw.running))
    && |fw.cycle| > 0
    && (c.F? || fw.periodUs != 0)
  }

  /** A command handled at time `now`. */
  function At(d: Timed, c: Command, now: int): Timed {
    var w := Until(d, now);
    var fw := Exec(w.fw, c);
    Timed(fw, if Restarts(w.fw, c) then now + fw.periodUs else w.next)
  }

  /** After an accepted F on a running timer, or a G, the timer does not fire for a full period of its own. */
  lemma QuietAfterRestart(d: Timed, c: Command, at: int, now: int)
    requires var fw := Until(d, at).fw;
      |fw.cycle| > 0 && ((c.G? && fw.periodUs > 0) || (c.F? && c.periodUs >= 50 && fw.running))
    requires now < at + Exec(Until(d, at).fw, c).periodUs
    ensures Until(At(d, c, at), now) == At(d, c, at)
  {
  }

  /** How many firings are due by `now`. */
  function Due(d: Timed, now: int): nat
    requires d.fw.periodUs > 0
  {
    if d.fw.armed && d.next <= now then (now - d.next) / d.fw.periodUs + 1 else 0
  }

  /** Any other command that leaves an armed timer armed leaves its firings where they were. */
  lemma OthersKeepTheAlarm(d: Timed, c: Command, at: int, now: int)
    requires var fw := Until(d, at).fw;
      fw.armed && fw.running && fw.periodUs > 0 && Exec(fw, c).armed && !c.G? && !(c.F? && c.periodUs >= 50)
    ensures At(d, c, at).fw.periodUs > 0 && Due(At(d, c, at), now) == Due(Until(d, at), now)
  {
    hide Until;
  }

  lemma {:induction false} UntilIsTicks(d: Timed, now: int)
    requires d.fw.periodUs > 0
    ensures Until(d, now).fw == Ticks(d.fw, Due(d, now))
    decreases now - d.next
  {
    var p, k := d.fw.periodUs, Due(d, now);
    if !d.fw.armed || d.next > now {
    } else {
      var d1 := Timed(Tick(d.fw), d.next + p);
      UntilIsTicks(d1, now);
      if d.next + p <= now {
        ModUnique(now - d.next, p, (now - d1.next) / p + 1, (now - d1.next) % p);
      } else {
        ModUnique(now - d.next, p, 0, now - d.next);
      }
      assert Ticks(d.fw, 1) == Tick(Ticks(d.fw, 0)) == Tick(d.fw);
      TicksAdd(d.fw, 1, Due(d1, now));
    }
  }

  /** Whole periods in an elapsed time. */
  function Periods(elapsed: int, periodUs: int): int
    requires periodUs > 0
  {
    elapsed / periodUs
  }

  /** A position on a cycle of n states. */
  function Around(position: int, n: int): (i: int)
    requires n > 0
    ensures 0 <= i < n
  {
    position % n
  }

  lemma ModShift(a: int, h: int, n: int)
    requires n > 0
    ensures (a % n + h) % n == (h + a) % n
  {
    var q, r := (a % n + h) / n, (a % n + h) % n;
    assert h + a == n * (a / n) + a % n + h == (a / n + q) * n + r;
    ModUnique(h + a, n, a / n + q, r);
  }

  ghost predicate ShowsIndex(fw: Fw) {
    0 <= fw.idx < |fw.cycle| && fw.pins == Unpack(fw.cycle[fw.idx])
  }

  /** `step` is the firmware's index less the index held at G, and the pins show that index. */
  ghost predicate OffBy(cycle: seq<int>, held: int, step: int, fw: Fw) {
    && fw.cycle == cycle && 0 <= held < |cycle|
    && fw.idx == (step + held) % |fw.cycle|
    && fw.pins == Unpack(fw.cycle[fw.idx])
  }

  lemma HeldAdds(cycle: seq<int>, held: int, k: int, step: int, fw: Fw)
    requires fw.cycle == cycle && 0 <= held < |cycle|
    requires fw.idx == Around(held + k, |cycle|) && step == Around(k, |cycle|)
    requires ShowsIndex(fw)
    ensures OffBy(cycle, held, step, fw)
  {
    ModShift(k, held, |cycle|);
  }

  /** The step reported for a sample stamped `stamp` by the firmware, after a G acknowledged with
      the stamp in `t`. */
  function Label(e: Engine, offset: real, t: Times, stamp: int, rx: real): int
    requires e.settings.Valid()
  {
    Estimate(Anchored(e, Some(offset), t), SampleTime(Some(offset), stamp, rx))
  }

  /** The estimate counts whole periods between the two firmware stamps: the clock offset, however
      wrong, is subtracted from both and cancels. */
  lemma EstimateCountsPeriods(e: Engine, offset: real, t: Times, anchor: int, stamp: int, rx: real)
    requires e.Valid() && e.periodUs > 0 && anchor <= stamp
    requires t.goAnswered && t.goTicks == Some(anchor)
    ensures Label(e, offset, t, stamp, rx)
         == Around(Periods(stamp - anchor, e.periodUs), |PackedCycle(e.settings)|)
  {
    var e' := Anchored(e, Some(offset), t);
    var sample := SampleTime(Some(offset), stamp, rx);
    assert (sample - e'.resumeTime) * 1000000.0 == (stamp - anchor) as real;
    assert Trunc((stamp - anchor) as real) == stamp - anchor;
    ModUnique(0, e.periodUs, 0, 0);
  }

  lemma PeriodsDue(elapsed: int, p: int)
    requires p > 0 && elapsed >= 0
    ensures elapsed / p == if p <= elapsed then (elapsed - p) / p + 1 else 0
  {
    if p <= elapsed {
      ModUnique(elapsed, p, (elapsed - p) / p + 1, (elapsed - p) % p);
    } else {
      ModUnique(elapsed, p, 0, elapsed);
    }
  }

  /** From a start at time `go`, the timer has advanced the index once a whole period. */
  lemma GoesRound(started: Timed, fw: Fw, go: int, stamp: int)
    requires started == Timed(fw, go + fw.periodUs)
    requires WellFormed(fw) && fw.armed && fw.periodUs > 0 && go <= stamp
    requires ShowsIndex(fw)
    ensures var later := Until(started, stamp).fw;
      && later.cycle == fw.cycle
      && later.idx == Around(fw.idx + Periods(stamp - go, fw.periodUs), |fw.cycle|)
      && ShowsIndex(later)
  {
    var k := Due(started, stamp);
    PeriodsDue(stamp - go, fw.periodUs);
    UntilIsTicks(started, stamp);
    TicksAdvance(fw, k);
    TicksFrame(fw, k);
    if k == 0 {
      ModUnique(fw.idx, |fw.cycle|, 0, fw.idx);
    }
  }

  lemma HeldAtGo(d: Timed, go: int)
    requires WellFormed(d.fw) && |d.fw.cycle| > 0 && d.fw.periodUs > 0
    ensures var w := Until(d, go).fw;
      && 0 <= w.idx < |w.cycle| && w.cycle == d.fw.cycle && w.periodUs == d.fw.periodUs
      && At(d, G, go) == Timed(Start(w), go + Start(w).periodUs)
      && Start(w) == w.(pins := Unpack(w.cycle[w.idx]), running := true, armed := true)
      && WellFormed(Start(w))
  {
    UntilIsTicks(d, go);
    TicksKeepWellFormed(d.fw, Due(d, go));
    TicksFrame(d.fw, Due(d, go));
  }

  lemma RoundAfterGo(d: Timed, cycle: seq<int>, p: int, go: int, stamp: int)
    requires WellFormed(d.fw) && d.fw.cycle == cycle && |cycle| > 0 && d.fw.periodUs == p > 0 && go <= stamp
    ensures var held, later := Until(d, go).fw.idx, Until(At(d, G, go), stamp).fw;
      && 0 <= held < |cycle| && later.cycle == cycle
      && later.idx == Around(held + Periods(stamp - go, p), |cycle|)
      && ShowsIndex(later)
  {
    HeldAtGo(d, go);
    var fw := Start(Until(d, go).fw);
    assert fw.periodUs == p && fw.cycle == cycle && fw.idx == Until(d, go).fw.idx && ShowsIndex(fw);
    hide *;
    GoesRound(At(d, G, go), fw, go, stamp);
  }

  lemma PeriodIsPositive(e: Engine)
    requires e.Valid() && !e.paused
    ensures e.periodUs >= 50 && e.settings.Valid() && |PackedCycle(e.settings)| > 0
  {
    PeriodArithmetic(e.settings.seqIndex, e.settings.freq);
  }

  /** The label of a sample stamped at or after G differs from the firmware's index by exactly the
      index held at G, and the pins show the state of that index. */
  lemma LabelAfterGo(d: Timed, e: Engine, offset: real, t: Times, go: int, stamp: int, rx: real)
    requires e.Valid() && !e.paused && WellFormed(d.fw)
    requires d.fw.cycle == PackedCycle(e.settings) && d.fw.periodUs == e.periodUs
    requires t.goAnswered && t.goTicks == Some(go) && go <= stamp
    ensures OffBy(PackedCycle(e.settings), Until(d, go).fw.idx,
                  Label(e, offset, t, stamp, rx), Until(At(d, G, go), stamp).fw)
  {
    hide *;
    PeriodIsPositive(e);
    var cycle, k := PackedCycle(e.settings), Periods(stamp - go, e.periodUs);
    RoundAfterGo(d, cycle, e.periodUs, go, stamp);
    EstimateCountsPeriods(e, offset, t, go, stamp, rx);
    HeldAdds(cycle, Until(d, go).fw.idx, k, Label(e, offset, t, stamp, rx), Until(At(d, G, go), stamp).fw);
  }

  lemma LabelInRange(e: Engine, offset: real, t: Times, go: int, stamp: int, rx: real)
    requires e.Valid() && e.periodUs > 0 && go <= stamp
    requires t.goAnswered && t.goTicks == Some(go)
    ensures 0 <= Label(e, offset, t, stamp, rx) < |PackedCycle(e.settings)|
    ensures stamp == go ==> Label(e, offset, t, stamp, rx) == 0
  {
    EstimateCountsPeriods(e, offset, t, go, stamp, rx);
    ModUnique(0, e.periodUs, 0, 0);
    ModUnique(0, |PackedCycle(e.settings)|, 0, 0);
  }

  lemma ExactWhenNothingHeld(cycle: seq<int>, held: int, step: int, fw: Fw)
    requires OffBy(cycle, held, step, fw) && 0 <= step < |cycle|
    ensures held == 0 ==> fw.idx == step && fw.pins == Unpack(cycle[step])
    ensures step == 0 ==> fw.idx == held
  {
    ModUnique(step, |cycle|, 0, step);
    ModUnique(held, |cycle|, 0, held);
  }

  /** A sample taken as G lands shows the index held; if that is 0, all later samples are labelled
      exactly. */
  lemma HeldDecides(d: Timed, e: Engine, offset: real, t: Times, go: int, stamp: int, rx: real)
    requires e.Valid() && !e.paused && WellFormed(d.fw)
    requires d.fw.cycle == PackedCycle(e.settings) && d.fw.periodUs == e.periodUs
    requires t.goAnswered && t.goTicks == Some(go) && go <= stamp
    ensures var held, fw := Until(d, go).fw.idx, Until(At(d, G, go), stamp).fw;
      var step := Label(e, offset, t, stamp, rx);
      && 0 <= step < |PackedCycle(e.settings)|
      && (held == 0 ==> fw.idx == step && fw.pins == Unpack(PackedCycle(e.settings)[step]))
      && (stamp == go ==> fw.idx == held && step == 0)
  {
    PeriodIsPositive(e);
    hide *;
    LabelAfterGo(d, e, offset, t, go, stamp, rx);
    LabelInRange(e, offset, t, go, stamp, rx);
    ExactWhenNothingHeld(PackedCycle(e.settings), Until(d, go).fw.idx,
                         Label(e, offset, t, stamp, rx), Until(At(d, G, go), stamp).fw);
  }

  /** The device after _program_and_go, whose commands arrive at the given times. */
  function Gone(d: Timed, e: Engine, atC: int, atF: int, atP: int, atG: int): Timed
    requires e.settings.Valid()
  {
    var cs := GoCommands(e);
    At(At(At(At(d, cs[0], atC), cs[1], atF), cs[2], atP), cs[3], atG)
  }

  /** The device when the G of _program_and_go arrives. */
  lemma HaltedUntilGo(d: Timed, e: Engine, atC: int, atF: int, atP: int)
    requires e.Valid() && !e.paused
    ensures var cs := GoCommands(e);
      At(At(At(d, cs[0], atC), cs[1], atF), cs[2], atP).fw
        == Fw(PackedCycle(e.settings), 0, e.periodUs, false, false, ALL_OFF)
  {
    PackedCycleAccepted(e.settings);
    PeriodIsPositive(e);
  }

  /** After C, F and G every sample is labelled with the index the firmware had at its stamp, and
      with the FET states that were on its pins, whatever the device did before, whenever the
      commands arrived, and whatever the error of the clock offset. */
  lemma LabelsAreExact(d: Timed, e: Engine, offset: real, t: Times,
                       atC: int, atF: int, atP: int, atG: int, stamp: int, rx: real)
    requires e.Valid() && !e.paused
    requires t.goAnswered && t.goTicks == Some(atG) && atG <= stamp
    ensures var fw := Until(Gone(d, e, atC, atF, atP, atG), stamp).fw;
      var step := Label(e, offset, t, stamp, rx);
      && 0 <= step < |PackedCycle(e.settings)|
      && fw.idx == step && fw.pins == Unpack(PackedCycle(e.settings)[step])
  {
    var cs := GoCommands(e);
    var ready := At(At(At(d, cs[0], atC), cs[1], atF), cs[2], atP);
    HaltedUntilGo(d, e, atC, atF, atP);
    PackedCycleAccepted(e.settings);
    PeriodIsPositive(e);
    assert Until(ready, atG) == ready && Gone(d, e, atC, atF, atP, atG) == At(ready, G, atG);
    hide *;
    HeldDecides(ready, e, offset, t, atG, stamp, rx);
  }

  /** The device when the G of _program_and_go_live arrives. */
  function Live(d: Timed, e: Engine, atE: int, atF: int): Timed
    requires e.settings.Valid()
  {
    var cs := GoLiveCommands(e);
    At(At(d, cs[0], atE), cs[1], atF)
  }

  /** Ready for G: E and F have been accepted. */
  lemma LiveIsReady(d: Timed, e: Engine, atE: int, atF: int)
    requires e.Valid() && !e.paused && WellFormed(d.fw)
    ensures var fw := Live(d, e, atE, atF).fw;
      WellFormed(fw) && fw.cycle == PackedCycle(e.settings) && fw.periodUs == e.periodUs
  {
    PackedCycleAccepted(e.settings);
    PeriodIsPositive(e);
    var c, f := E(PackedCycle(e.settings)), F(e.periodUs);
    assert GoLiveCommands(e) == [c, f, G];
    UntilKeepsWellFormed(d, atE);
    ExecKeepsWellFormed(Until(d, atE).fw, c);
    UntilKeepsWellFormed(At(d, c, atE), atF);
    ExecKeepsWellFormed(Until(At(d, c, atE), atF).fw, f);
  }

  lemma UntilKeepsWellFormed(d: Timed, now: int)
    requires WellFormed(d.fw)
    ensures var fw := Until(d, now).fw;
      WellFormed(fw) && fw == d.fw.(idx := fw.idx, pins := fw.pins)
  {
    if d.fw.armed {
      UntilIsTicks(d, now);
      TicksKeepWellFormed(d.fw, Due(d, now));
      TicksFrame(d.fw, Due(d, now));
    }
  }

  /** All samples from G on carry the firmware's own index. */
  ghost predicate AllExact(live: Timed, e: Engine, offset: real, t: Times, atG: int, rx: real)
    requires e.settings.Valid()
  {
    forall stamp :: stamp >= atG ==> Until(At(live, G, atG), stamp).fw.idx == Label(e, offset, t, stamp, rx)
  }

  lemma AllExactMeans(live: Timed, e: Engine, offset: real, t: Times, atG: int, rx: real)
    requires e.settings.Valid()
    ensures AllExact(live, e, offset, t, atG, rx) <==> forall stamp :: stamp >= atG ==>
      Until(At(live, G, atG), stamp).fw.idx == Label(e, offset, t, stamp, rx)
  {
  }

  /** On the live path the labels are exact, for all samples from G on, exactly when the firmware
      holds index 0 as G arrives; otherwise they are off by the index held (LabelAfterGo). The
      engine assumes 0, but E keeps the index and the timer may move it before G. */
  lemma LiveLabelsExactIff(d: Timed, e: Engine, offset: real, t: Times, atE: int, atF: int, atG: int, rx: real)
    requires e.Valid() && !e.paused && WellFormed(d.fw)
    requires t.goAnswered && t.goTicks == Some(atG)
    ensures var live := Live(d, e, atE, atF);
      AllExact(live, e, offset, t, atG, rx) <==> Until(live, atG).fw.idx == 0
  {
    var live := Live(d, e, atE, atF);
    var held := Until(live, atG).fw.idx;
    LiveIsReady(d, e, atE, atF);
    AllExactMeans(live, e, offset, t, atG, rx);
    hide *;
    forall stamp | stamp >= atG
      ensures held == 0 ==> Until(At(live, G, atG), stamp).fw.idx == Label(e, offset, t, stamp, rx)
    {
      HeldDecides(live, e, offset, t, atG, stamp, rx);
    }
    HeldDecides(live, e, offset, t, atG, atG, rx);
  }

  lemma UntilAdvances(d: Timed, now: int)
    requires WellFormed(d.fw) && d.fw.armed && d.fw.periodUs > 0
    ensures Until(d, now).fw.idx == (d.fw.idx + Due(d, now)) % |d.fw.cycle|
  {
    UntilIsTicks(d, now);
    TicksAdvance(d.fw, Due(d, now));
  }

  lemma FKeepsIndex(d: Timed, us: int, now: int)
    requires WellFormed(d.fw) && d.fw.armed && d.fw.periodUs > 0 && us >= MIN_PERIOD_US
    ensures At(d, F(us), now).fw.idx == Until(d, now).fw.idx && At(d, F(us), now).fw.armed
  {
    UntilKeepsWellFormed(d, now);
  }

  lemma AfterE(d: Timed, e: Engine, now: int)
    requires e.Valid() && !e.paused && WellFormed(d.fw)
    ensures var w, n := Until(d, now).fw, |PackedCycle(e.settings)|;
      var d1 := At(d, E(PackedCycle(e.settings)), now);
      && WellFormed(d1.fw)
      && d1.fw == w.(cycle := PackedCycle(e.settings), idx := if w.idx >= n then 0 else w.idx)
      && d1.fw.armed == d.fw.armed && d1.fw.running == d.fw.running && d1.fw.periodUs == d.fw.periodUs
  {
    PackedCycleAccepted(e.settings);
    UntilKeepsWellFormed(d, now);
    ExecKeepsWellFormed(Until(d, now).fw, E(PackedCycle(e.settings)));
  }

  lemma MovesBetween(d: Timed, live: Timed, us: int, atF: int, atG: int)
    requires WellFormed(d.fw) && d.fw.armed && d.fw.periodUs > 0 && us >= 50
    requires live == At(d, F(us), atF) && WellFormed(live.fw)
    requires live.fw.cycle == d.fw.cycle && live.fw.periodUs > 0
    ensures Until(live, atG).fw.idx == (d.fw.idx + Due(d, atF) + Due(live, atG)) % |d.fw.cycle|
  {
    assert |d.fw.cycle| > 0;
    hide *;
    FKeepsIndex(d, us, atF);
    UntilAdvances(d, atF);
    UntilAdvances(live, atG);
    ModShift(d.fw.idx + Due(d, atF), Due(live, atG), |d.fw.cycle|);
  }

  lemma LiveIsAtF(d: Timed, e: Engine, atE: int, atF: int)
    requires e.Valid() && !e.paused
    ensures Live(d, e, atE, atF) == At(At(d, E(PackedCycle(e.settings)), atE), F(e.periodUs), atF)
  {
    PeriodIsPositive(e);
  }

  lemma NothingDue(d: Timed, now: int)
    requires !d.fw.armed
    ensures Until(d, now) == d
  {
  }

  lemma StaysOff(d: Timed, us: int, now: int)
    requires !d.fw.armed && !d.fw.running
    ensures At(d, F(us), now).fw.idx == d.fw.idx && !At(d, F(us), now).fw.armed
  {
  }

  /** The index held as G arrives. With the timer off (a discharge entered by hand) it is whatever an
      earlier cycle left, unless E cut it to 0; with the timer running it also moves with every
      firing between E and G. */
  lemma HeldOnTheLivePath(d: Timed, e: Engine, atE: int, atF: int, atG: int)
    requires e.Valid() && !e.paused && WellFormed(d.fw)
    requires d.fw.running == d.fw.armed
    ensures var n, before := |PackedCycle(e.settings)|, Until(d, atE).fw.idx;
      var kept := if before >= n then 0 else before;
      var d1, live := At(d, E(PackedCycle(e.settings)), atE), Live(d, e, atE, atF);
      if d.fw.armed then
        && d1.fw.periodUs > 0 && live.fw.periodUs > 0
        && Until(live, atG).fw.idx == (kept + Due(d1, atF) + Due(live, atG)) % n
      else before == d.fw.idx && Until(live, atG).fw.idx == kept
  {
    hide *;
    PeriodIsPositive(e);
    var d1, live := At(d, E(PackedCycle(e.settings)), atE), Live(d, e, atE, atF);
    AfterE(d, e, atE);
    LiveIsReady(d, e, atE, atF);
    LiveIsAtF(d, e, atE, atF);
    if d.fw.armed {
      MovesBetween(d1, live, e.periodUs, atF, atG);
    } else {
      NothingDue(d, atE);
      StaysOff(d1, e.periodUs, atF);
      NothingDue(live, atG);
    }
  }

  /** With the timer off, which is how a discharge chosen by hand is left, all labels are exact exactly
      when the index the firmware has before the call is 0 or off the end of the new cycle. */
  lemma TimerOffLabelsExactIff(d: Timed, e: Engine, offset: real, t: Times, atE: int, atF: int, atG: int, rx: real)
    requires e.Valid() && !e.paused && WellFormed(d.fw) && !d.fw.armed && !d.fw.running
    requires t.goAnswered && t.goTicks == Some(atG)
    ensures AllExact(Live(d, e, atE, atF), e, offset, t, atG, rx)
       <==> d.fw.idx == 0 || d.fw.idx >= |PackedCycle(e.settings)|
  {
    hide Until, At, Live, PackedCycle, PeriodUs, WellFormed, Label;
    LiveLabelsExactIff(d, e, offset, t, atE, atF, atG, rx);
    HeldOnTheLivePath(d, e, atE, atF, atG);
  }

  /** With the timer running, all labels are exact exactly when the index E keeps and the firings between
      E and G add up to whole rounds of the new cycle. */
  lemma TimerOnLabelsExactIff(d: Timed, e: Engine, offset: real, t: Times, atE: int, atF: int, atG: int, rx: real)
    requires e.Valid() && !e.paused && WellFormed(d.fw) && d.fw.armed && d.fw.running
    requires t.goAnswered && t.goTicks == Some(atG)
    ensures var n, before := |PackedCycle(e.settings)|, Until(d, atE).fw.idx;
      var kept := if before >= n then 0 else before;
      var d1, live := At(d, E(PackedCycle(e.settings)), atE), Live(d, e, atE, atF);
      && d1.fw.periodUs > 0 && live.fw.periodUs > 0
      && (AllExact(live, e, offset, t, atG, rx) <==> (kept + Due(d1, atF) + Due(live, atG)) % n == 0)
  {
    hide Until, At, Live, PackedCycle, PeriodUs, WellFormed, Label, Due;
    LiveLabelsExactIff(d, e, offset, t, atE, atF, atG, rx);
    HeldOnTheLivePath(d, e, atE, atF, atG);
  }

  lemma OneStateHoldsZero(d: Timed, now: int)
    requires WellFormed(d.fw) && |d.fw.cycle| == 1
    ensures Until(d, now).fw.idx == 0
  {
    UntilKeepsWellFormed(d, now);
  }

  /** Out of silent discharge, whose cycle is the one state all-on, they are exact exactly when the timer
      fires a multiple of the new cycle's length between E and G; so always if it does not fire. */
  lemma SilentDischargeLabelsExactIff(d: Timed, e: Engine, offset: real, t: Times, atE: int, atF: int, atG: int,
                                      rx: real)
    requires e.Valid() && !e.paused && WellFormed(d.fw) && d.fw.armed && d.fw.running
    requires d.fw.cycle == [15]
    requires t.goAnswered && t.goTicks == Some(atG)
    ensures var d1, live := At(d, E(PackedCycle(e.settings)), atE), Live(d, e, atE, atF);
      && d1.fw.periodUs > 0 && live.fw.periodUs > 0
      && (AllExact(live, e, offset, t, atG, rx) <==>
            (Due(d1, atF) + Due(live, atG)) % |PackedCycle(e.settings)| == 0)
  {
    hide *;
    PeriodIsPositive(e);
    OneStateHoldsZero(d, atE);
    TimerOnLabelsExactIff(d, e, offset, t, atE, atF, atG, rx);
  }
}
