/** A start whose timer is re-armed some time after its anchor was stamped.

    The old alarm can still fire in between, so the step labels can be off; the lemmas say by how much.
 */
module LateStart {
  import opened Firmware
  import opened Config
  import opened GpioDriver
  import opened Options
  import opened SequenceEngine
  import opened StepLabels

  /** The device once the anchor is stamped at `go`: the held state is on the pins, the old alarm is queued. */
  function Stamped(d: Timed, go: int): Timed {
    var w := Until(d, go);
    Timed(Exec(w.fw, G).(running := w.fw.running, armed := w.fw.armed), w.next)
  }

  /** The old alarm is cancelled at `cancel`, and the new one first fires a period after `arm`. */
  function LateGo(d: Timed, go: int, cancel: int, arm: int): Timed {
    var v := Until(Stamped(d, go), cancel);
    Timed(v.fw.(running := true, armed := true), arm + v.fw.periodUs)
  }

  /** How often the old alarm fires after the stamp. */
  function FiredAfterStamp(d: Timed, go: int, cancel: int): nat {
    var s := Stamped(d, go);
    if s.fw.periodUs > 0 then Due(s, cancel) else 0
  }

  lemma FiredIsDue(d: Timed, go: int, cancel: int)
    requires Stamped(d, go).fw.periodUs > 0
    ensures FiredAfterStamp(d, go, cancel) == Due(Stamped(d, go), cancel)
  {
  }

  /** Without any delay that is G as one step. */
  lemma NoDelayIsGo(d: Timed, go: int)
    requires WellFormed(d.fw) && |d.fw.cycle| > 0 && d.fw.periodUs > 0
    ensures LateGo(d, go, go, go) == At(d, G, go)
  {
    HeldAtGo(d, go);
    UntilPasses(d, go);
  }

  lemma {:induction false} UntilPasses(d: Timed, now: int)
    requires d.fw.periodUs > 0
    ensures var w := Until(d, now);
      w.fw.periodUs == d.fw.periodUs && (w.fw.armed ==> w.next > now) && w.fw.armed == d.fw.armed
    decreases now - d.next
  {
    if d.fw.armed && d.next <= now {
      UntilPasses(Timed(Tick(d.fw), d.next + d.fw.periodUs), now);
    } else {
    }
  }

  lemma StampedShows(d: Timed, go: int)
    requires WellFormed(d.fw) && |d.fw.cycle| > 0 && d.fw.periodUs > 0
    ensures var (w, s) := (Until(d, go), Stamped(d, go));
      && WellFormed(s.fw) && ShowsIndex(s.fw) && s.fw.idx == w.fw.idx && s.next == w.next
      && s.fw.cycle == d.fw.cycle && s.fw.periodUs == d.fw.periodUs && s.fw.armed == d.fw.armed
      && (s.fw.armed ==> s.next > go)
  {
    HeldAtGo(d, go);
    UntilPasses(d, go);
    UntilKeepsWellFormed(d, go);
  }

  /** Firings of the old alarm after the stamp: at most one when it is cancelled within a period. */
  lemma FiredBetween(s: Timed, go: int, cancel: int)
    requires WellFormed(s.fw) && ShowsIndex(s.fw) && s.fw.periodUs > 0 && (s.fw.armed ==> s.next > go)
    ensures var v, k := Until(s, cancel).fw, Due(s, cancel);
      && WellFormed(v) && ShowsIndex(v) && v.cycle == s.fw.cycle && v.periodUs == s.fw.periodUs
      && v.idx == Around(s.fw.idx + k, |s.fw.cycle|)
      && (!s.fw.armed ==> k == 0) && (cancel - go < s.fw.periodUs ==> k <= 1)
  {
    var k := Due(s, cancel);
    UntilIsTicks(s, cancel);
    TicksKeepWellFormed(s.fw, k);
    TicksFrame(s.fw, k);
    if k == 0 {
      ModUnique(s.fw.idx, |s.fw.cycle|, 0, s.fw.idx);
    } else {
      TicksAdvance(s.fw, k);
    }
    if cancel - go < s.fw.periodUs && k > 0 {
      ModUnique(cancel - s.next, s.fw.periodUs, 0, cancel - s.next);
    }
  }

  /** The index after such a start. */
  lemma LateIndex(d: Timed, go: int, cancel: int, arm: int, stamp: int)
    requires WellFormed(d.fw) && |d.fw.cycle| > 0 && d.fw.periodUs > 0 && arm <= stamp
    ensures var held, between := Until(d, go).fw.idx, FiredAfterStamp(d, go, cancel);
      var later := Until(LateGo(d, go, cancel, arm), stamp).fw;
      && later.cycle == d.fw.cycle && ShowsIndex(later)
      && later.idx == Around(held + between + Periods(stamp - arm, d.fw.periodUs), |d.fw.cycle|)
  {
    hide Until, Due, Periods, Around, Ticks;
    StampedShows(d, go);
    var s := Stamped(d, go);
    FiredBetween(s, go, cancel);
    var late := LateGo(d, go, cancel, arm);
    StillWellFormed(Until(s, cancel).fw);
    GoesRound(late, late.fw, arm, stamp);
    AroundTwice(s.fw.idx + Due(s, cancel), Periods(stamp - arm, d.fw.periodUs), |d.fw.cycle|);
  }

  lemma StillWellFormed(fw: Fw)
    requires WellFormed(fw) && ShowsIndex(fw) && fw.periodUs > 0
    ensures WellFormed(fw.(running := true, armed := true)) && ShowsIndex(fw.(running := true, armed := true))
  {
  }

  lemma AroundTwice(a: int, h: int, n: int)
    requires n > 0
    ensures Around(Around(a, n) + h, n) == Around(a + h, n)
  {
    ModShift(a, h, n);
  }

  /** Within `delay` after each multiple of the period since the anchor, the timer is one behind. */
  function Lag(elapsed: int, delay: int, p: int): int
    requires p > 0
  {
    if elapsed % p < delay then 1 else 0
  }

  lemma PeriodsLag(elapsed: int, delay: int, p: int)
    requires 0 <= delay < p
    ensures Periods(elapsed - delay, p) + Lag(elapsed, delay, p) == Periods(elapsed, p)
  {
    var q, r := elapsed / p, elapsed % p;
    assert elapsed == q * p + r;
    if r < delay {
      assert elapsed - delay == (q - 1) * p + (p + r - delay);
      ModUnique(elapsed - delay, p, q - 1, p + r - delay);
    } else {
      assert elapsed - delay == q * p + (r - delay);
      ModUnique(elapsed - delay, p, q, r - delay);
    }
  }

  /** The label of a sample against the firmware's index, whatever the delay within one period: it is off by
      the index held, the firing of the old alarm if there was one, and the lag. */
  lemma LateLabel(d: Timed, e: Engine, offset: real, t: Times, go: int, cancel: int, arm: int, stamp: int, rx: real)
    requires e.Valid() && !e.paused && WellFormed(d.fw)
    requires d.fw.cycle == PackedCycle(e.settings) && d.fw.periodUs == e.periodUs
    requires t.goAnswered && t.goTicks == Some(go) && go <= cancel <= arm <= stamp && arm - go < e.periodUs
    ensures e.periodUs > 0 && FiredAfterStamp(d, go, cancel) <= 1
    ensures var later, n := Until(LateGo(d, go, cancel, arm), stamp).fw, |PackedCycle(e.settings)|;
      && later.cycle == PackedCycle(e.settings) && ShowsIndex(later)
      && Around(later.idx + Lag(stamp - go, arm - go, e.periodUs), n)
         == Around(Label(e, offset, t, stamp, rx) + Until(d, go).fw.idx + FiredAfterStamp(d, go, cancel), n)
  {
    hide *;
    PeriodIsPositive(e);
    LateIndex(d, go, cancel, arm, stamp);
    StampedShows(d, go);
    FiredBetween(Stamped(d, go), go, cancel);
    FiredIsDue(d, go, cancel);
    EstimateCountsPeriods(e, offset, t, go, stamp, rx);
    PeriodsLag(stamp - go, arm - go, e.periodUs);
    var n, lag := |PackedCycle(e.settings)|, Lag(stamp - go, arm - go, e.periodUs);
    var base := Until(d, go).fw.idx + FiredAfterStamp(d, go, cancel);
    var behind, ahead := Periods(stamp - arm, e.periodUs), Periods(stamp - go, e.periodUs);
    assert stamp - go - (arm - go) == stamp - arm;
    AroundTwice(base + behind, lag, n);
    AroundTwice(ahead, base, n);
    assert base + behind + lag == ahead + base;
  }

  lemma OneMoreDiffers(i: int, n: int)
    requires n >= 2 && 0 <= i < n
    ensures Around(i, n) == i && Around(i + 1, n) != i
  {
    ModUnique(i, n, 0, i);
    if i + 1 < n {
      ModUnique(i + 1, n, 0, i + 1);
    } else {
      ModUnique(i + 1, n, 1, 0);
    }
  }

  lemma AtLeastTwo(e: Engine)
    requires e.settings.Valid()
    ensures |PackedCycle(e.settings)| >= 2
  {
  }

  /** The device when the G of C, F, P, G arrives. */
  function BeforeGo(d: Timed, e: Engine, atC: int, atF: int, atP: int): Timed
    requires e.settings.Valid()
  {
    var cs := GoCommands(e);
    At(At(At(d, cs[0], atC), cs[1], atF), cs[2], atP)
  }

  lemma HaltedBeforeGo(d: Timed, e: Engine, atC: int, atF: int, atP: int, go: int, cancel: int)
    requires e.Valid() && !e.paused
    ensures var r := BeforeGo(d, e, atC, atF, atP);
      && WellFormed(r.fw) && r.fw.cycle == PackedCycle(e.settings) && r.fw.periodUs == e.periodUs > 0
      && !r.fw.armed && Until(r, go).fw.idx == 0 && FiredAfterStamp(r, go, cancel) == 0
  {
    HaltedUntilGo(d, e, atC, atF, atP);
    PackedCycleAccepted(e.settings);
    PeriodIsPositive(e);
    var r := BeforeGo(d, e, atC, atF, atP);
    assert Until(r, go) == r;
    StampedShows(r, go);
    FiredBetween(Stamped(r, go), go, cancel);
  }

  /** After C, F, P and a G whose timer is armed a delay after the stamp: a sample is labelled with the
      firmware's index exactly when its stamp is not within that delay after a whole number of periods since
      the anchor, and one step ahead otherwise. */
  lemma LateStartLabelsExactWhen(d: Timed, e: Engine, offset: real, t: Times, atC: int, atF: int, atP: int,
                                 go: int, cancel: int, arm: int, stamp: int, rx: real)
    requires e.Valid() && !e.paused
    requires t.goAnswered && t.goTicks == Some(go) && go <= cancel <= arm <= stamp && arm - go < e.periodUs
    ensures var fw := Until(LateGo(BeforeGo(d, e, atC, atF, atP), go, cancel, arm), stamp).fw;
      var step := Label(e, offset, t, stamp, rx);
      && ShowsIndex(fw) && fw.cycle == PackedCycle(e.settings)
      && step == Around(fw.idx + (if (stamp - go) % e.periodUs < arm - go then 1 else 0), |fw.cycle|)
      && (step == fw.idx <==> (stamp - go) % e.periodUs >= arm - go)
  {
    hide Until, LateGo, BeforeGo, FiredAfterStamp, Label, PackedCycle, PeriodUs, WellFormed, Around, At;
    var r := BeforeGo(d, e, atC, atF, atP);
    HaltedBeforeGo(d, e, atC, atF, atP, go, cancel);
    LateLabel(r, e, offset, t, go, cancel, arm, stamp, rx);
    LabelInRange(e, offset, t, go, stamp, rx);
    AtLeastTwo(e);
    var n := |PackedCycle(e.settings)|;
    var fw := Until(LateGo(r, go, cancel, arm), stamp).fw;
    OneMoreDiffers(Label(e, offset, t, stamp, rx), n);
    OneMoreDiffers(fw.idx, n);
  }

  lemma WholeRounds(i: int, h: int, n: int)
    requires n > 0 && 0 <= i < n
    ensures Around(i + h, n) == i <==> h % n == 0
  {
    ModShift(h, i, n);
    var r := h % n;
    if r + i < n {
      ModUnique(r + i, n, 0, r + i);
    } else {
      ModUnique(r + i, n, 1, r + i - n);
    }
  }

  /** On the live path, outside those delays, the labels are exact exactly when the index held as G arrives
      and the firing of the old alarm after the stamp, if there was one, make whole rounds. */
  lemma LateLiveLabelsExactIff(d: Timed, e: Engine, offset: real, t: Times, atE: int, atF: int,
                               go: int, cancel: int, arm: int, stamp: int, rx: real)
    requires e.Valid() && !e.paused && WellFormed(d.fw)
    requires t.goAnswered && t.goTicks == Some(go) && go <= cancel <= arm <= stamp && arm - go < e.periodUs
    requires (stamp - go) % e.periodUs >= arm - go
    ensures var live := Live(d, e, atE, atF);
      var fw := Until(LateGo(live, go, cancel, arm), stamp).fw;
      && ShowsIndex(fw) && FiredAfterStamp(live, go, cancel) <= 1
      && (fw.idx == Label(e, offset, t, stamp, rx) <==>
            (Until(live, go).fw.idx + FiredAfterStamp(live, go, cancel)) % |PackedCycle(e.settings)| == 0)
  {
    hide Until, LateGo, Live, FiredAfterStamp, Label, PackedCycle, PeriodUs, WellFormed, Around;
    var live := Live(d, e, atE, atF);
    LiveIsReady(d, e, atE, atF);
    LateLabel(live, e, offset, t, go, cancel, arm, stamp, rx);
    LabelInRange(e, offset, t, go, stamp, rx);
    AtLeastTwo(e);
    var n := |PackedCycle(e.settings)|;
    OneMoreDiffers(Until(LateGo(live, go, cancel, arm), stamp).fw.idx, n);
    WholeRounds(Label(e, offset, t, stamp, rx), Until(live, go).fw.idx + FiredAfterStamp(live, go, cancel), n);
  }
}
