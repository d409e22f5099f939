/** schedule_monitor.py: where a schedule should be by its own clock. */
module ScheduleMonitor {
  import opened Options
  import opened Products
  import opened Schedule

  /** Total time of the first k steps. */
  function Prefix(steps: seq<Step>, k: nat): real
    requires k <= |steps|
  {
    if k == 0 then 0.0 else Prefix(steps, k - 1) + steps[k - 1].timeoutS
  }

  function Duration(steps: seq<Step>): real {
    Prefix(steps, |steps|)
  }

  /** Reference: walk the repeated list of steps one at a time until the time is used up. */
  datatype Position = Done | Here(cycle: int, step: nat, offset: real)

  function Walk(s: Schedule, cycle: int, step: nat, rest: real): (p: Position)
    requires step < |s.steps|
    ensures p.Here? ==> p.step < |s.steps|
    decreases s.repeat - cycle, |s.steps| - step
  {
    if cycle >= s.repeat then Done
    else if rest < s.steps[step].timeoutS then Here(cycle, step, rest)
    else if step + 1 < |s.steps| then Walk(s, cycle, step + 1, rest - s.steps[step].timeoutS)
    else Walk(s, cycle + 1, 0, rest - s.steps[step].timeoutS)
  }

  function Whole(cycle: int, d: real): real {
    Times(cycle as real, d)
  }

  /** The time from the start of the schedule to a position. */
  function TimeOf(s: Schedule, cycle: int, step: nat, offset: real): real
    requires step < |s.steps|
  {
    Whole(cycle, Duration(s.steps)) + Prefix(s.steps, step) + offset
  }

  /** A position inside the schedule that is reached at this time. */
  predicate At(s: Schedule, elapsed: real, cycle: int, step: nat, offset: real) {
    && 0 <= cycle < s.repeat && step < |s.steps|
    && 0.0 <= offset < s.steps[step].timeoutS
    && TimeOf(s, cycle, step, offset) == elapsed
  }

  predicate Positive(s: Schedule) {
    s.steps != [] && s.repeat >= 1 && forall k :: 0 <= k < |s.steps| ==> s.steps[k].timeoutS > 0.0
  }

  lemma ValidIsPositive(s: Schedule)
    requires Valid(s)
    ensures Positive(s)
  {
    assert !HasProblem(s, NoSteps) && !HasProblem(s, BadRepeat);
    forall k | 0 <= k < |s.steps| ensures s.steps[k].timeoutS > 0.0 {
      assert !HasProblem(s, StepProblem(k, BadTimeout));
    }
  }

  lemma {:induction false} PrefixGrows(s: Schedule, j: nat, k: nat)
    requires Positive(s) && j <= k <= |s.steps|
    ensures Prefix(s.steps, j) <= Prefix(s.steps, k)
    ensures j < k ==> Prefix(s.steps, j) + s.steps[j].timeoutS <= Prefix(s.steps, k)
    decreases k
  {
    if j == k {
    } else {
      PrefixGrows(s, j, k - 1);
    }
  }

  lemma DurationPositive(s: Schedule)
    requires Positive(s)
    ensures Duration(s.steps) > 0.0
  {
    PrefixGrows(s, 0, |s.steps|);
  }

  lemma WholeNext(cycle: int, d: real)
    ensures Whole(cycle + 1, d) == Whole(cycle, d) + d
    ensures Whole(0, d) == 0.0
  {
  }

  lemma WholeOrdered(a: int, b: int, d: real)
    requires a < b && d > 0.0
    ensures Whole(a, d) + d <= Whole(b, d)
  {
    assert (b - a - 1) as real * d >= 0.0;
    assert Whole(b, d) == Whole(a, d) + d + (b - a - 1) as real * d;
  }

  /** Walking ends either past the last repetition or at a position reached at exactly that time. */
  lemma {:induction false} WalkArrives(s: Schedule, cycle: int, step: nat, rest: real)
    requires Positive(s) && step < |s.steps| && 0 <= cycle && rest >= 0.0
    requires cycle < s.repeat || (cycle == s.repeat && step == 0)
    ensures var elapsed := TimeOf(s, cycle, step, rest);
      match Walk(s, cycle, step, rest)
      case Here(c, k, o) => At(s, elapsed, c, k, o)
      case Done => elapsed >= Whole(s.repeat, Duration(s.steps))
    decreases s.repeat - cycle, |s.steps| - step
  {
    hide Whole;
    if cycle == s.repeat || rest < s.steps[step].timeoutS {
    } else {
      var next := rest - s.steps[step].timeoutS;
      if step + 1 < |s.steps| {
        WalkArrives(s, cycle, step + 1, next);
      } else {
        WholeNext(cycle, Duration(s.steps));
        WalkArrives(s, cycle + 1, 0, next);
      }
    }
  }

  /** Later times are at lexicographically later positions; so a time has at most one position. */
  lemma PositionsAreOrdered(s: Schedule, e1: real, c1: int, k1: nat, o1: real, e2: real, c2: int, k2: nat, o2: real)
    requires Positive(s) && At(s, e1, c1, k1, o1) && At(s, e2, c2, k2, o2)
    ensures e1 < e2 <==> c1 < c2 || (c1 == c2 && (k1 < k2 || (k1 == k2 && o1 < o2)))
    ensures e1 == e2 <==> c1 == c2 && k1 == k2 && o1 == o2
  {
    DurationPositive(s);
    InsideCycle(s, e1, c1, k1, o1);
    InsideCycle(s, e2, c2, k2, o2);
    var d := Duration(s.steps);
    if c1 < c2 {
      WholeOrdered(c1, c2, d);
    } else if c2 < c1 {
      WholeOrdered(c2, c1, d);
    } else if k1 < k2 {
      PrefixGrows(s, k1, k2);
    } else if k2 < k1 {
      PrefixGrows(s, k2, k1);
    }
    hide Whole, Prefix;
  }

  lemma InsideCycle(s: Schedule, elapsed: real, cycle: int, step: nat, offset: real)
    requires Positive(s) && At(s, elapsed, cycle, step, offset)
    ensures Whole(cycle, Duration(s.steps)) <= elapsed < Whole(cycle, Duration(s.steps)) + Duration(s.steps)
    ensures elapsed < Whole(s.repeat, Duration(s.steps))
  {
    hide Whole;
    PrefixGrows(s, 0, step);
    PrefixGrows(s, step, |s.steps|);
    DurationPositive(s);
    WholeOrdered(cycle, s.repeat, Duration(s.steps));
  }

  /** The walk is over exactly from the total duration on, and before that stands at the one position
      reached at that time. */
  lemma WalkIsExact(s: Schedule, elapsed: real)
    requires Positive(s) && elapsed >= 0.0
    ensures var w := Walk(s, 0, 0, elapsed);
      && (w == Done <==> elapsed >= Whole(s.repeat, Duration(s.steps)))
      && forall c: int, k: nat, o: real :: At(s, elapsed, c, k, o) <==> w == Here(c, k, o)
  {
    hide *;
    PositiveMeans(s);
    WalkFromStart(s, elapsed);
    var w := Walk(s, 0, 0, elapsed);
    if w.Here? {
      InsideCycle(s, elapsed, w.cycle, w.step, w.offset);
    }
    forall c: int, k: nat, o: real | At(s, elapsed, c, k, o)
      ensures w == Here(c, k, o)
    {
      InsideCycle(s, elapsed, c, k, o);
      PositionsAreOrdered(s, elapsed, c, k, o, elapsed, w.cycle, w.step, w.offset);
    }
  }

  lemma WalkFromStart(s: Schedule, elapsed: real)
    requires Positive(s) && elapsed >= 0.0
    ensures match Walk(s, 0, 0, elapsed)
      case Here(c, k, o) => At(s, elapsed, c, k, o)
      case Done => elapsed >= Whole(s.repeat, Duration(s.steps))
  {
    WholeNext(0, Duration(s.steps));
    WalkArrives(s, 0, 0, elapsed);
    hide Walk, Whole, Duration;
    assert TimeOf(s, 0, 0, elapsed) == elapsed;
  }

  /** The clock never goes back: later means the same position or a later one, or over. */
  lemma WalkIsMonotone(s: Schedule, e1: real, e2: real)
    requires Positive(s) && 0.0 <= e1 <= e2
    ensures var p, q := Walk(s, 0, 0, e1), Walk(s, 0, 0, e2);
      && (p.Done? ==> q.Done?)
      && (p.Here? && q.Here? ==>
            || p.cycle < q.cycle
            || (p.cycle == q.cycle && (p.step < q.step || (p.step == q.step && p.offset <= q.offset))))
  {
    hide Walk, Whole, At;
    WalkIsExact(s, e1);
    WalkIsExact(s, e2);
    var p, q := Walk(s, 0, 0, e1), Walk(s, 0, 0, e2);
    if p.Here? && q.Here? {
      PositionsAreOrdered(s, e1, p.cycle, p.step, p.offset, e2, q.cycle, q.step, q.offset);
    }
  }

  // ----- the plan clock ---------------------------------------------------------------------

  datatype Plan = Plan(cycle: int, stepIndex: nat, stepName: string, expectedState: string, circuitAction: string,
                       stepElapsedS: real, stepTimeoutS: real, complete: bool)

  const EMPTY_PLAN := Plan(0, 0, "", "", "", 0.0, 0.0, false)

  /** The plan shown at a position. */
  function Shown(s: Schedule, p: Position): Plan
    requires s.steps != [] && (p.Here? ==> p.step < |s.steps|)
  {
    match p
    case Here(c, k, o) =>
      var step := s.steps[k];
      Plan(c, k, step.name, step.expectedState, step.circuitAction, o, step.timeoutS, false)
    case Done =>
      var last := s.steps[|s.steps| - 1];
      Plan(s.repeat - 1, |s.steps| - 1, last.name, last.expectedState, last.circuitAction, last.timeoutS,
           last.timeoutS, true)
  }

  /** The plan shown at a time: whole repetitions, the steps before the one shown and the time in it add up to
      the time elapsed, with less than the step's own time in it; from the end on, the last step complete. */
  lemma PlanAddsUp(s: Schedule, elapsed: real)
    requires Positive(s) && elapsed >= 0.0
    ensures var p, d := Shown(s, Walk(s, 0, 0, elapsed)), Prefix(s.steps, |s.steps|);
      && p.stepIndex < |s.steps| && 0 <= p.cycle < s.repeat
      && (var step := s.steps[p.stepIndex];
          && p.stepName == step.name && p.expectedState == step.expectedState
          && p.circuitAction == step.circuitAction && p.stepTimeoutS == step.timeoutS)
      && (p.complete <==> elapsed >= Times(s.repeat as real, d))
      && (if p.complete then
            p.cycle == s.repeat - 1 && p.stepIndex == |s.steps| - 1 && p.stepElapsedS == p.stepTimeoutS
          else
            && 0.0 <= p.stepElapsedS < p.stepTimeoutS
            && Times(p.cycle as real, d) + Prefix(s.steps, p.stepIndex) + p.stepElapsedS == elapsed)
  {
    hide Walk, Prefix, Times;
    PositiveMeans(s);
    WalkIsExact(s, elapsed);
    var w := Walk(s, 0, 0, elapsed);
    if w.Here? {
      assert At(s, elapsed, w.cycle, w.step, w.offset);
    }
  }

  lemma FloorSplits(elapsed: real, d: real)
    requires d > 0.0
    ensures 0.0 <= elapsed - Whole((elapsed / d).Floor, d) < d
  {
    hide Times;
    var q := elapsed / d;
    QuotientBack(elapsed, d);
    Between(q, q.Floor as real, d);
  }

  lemma QuotientBack(elapsed: real, d: real)
    requires d > 0.0
    ensures Times(elapsed / d, d) == elapsed
  {
  }

  lemma Between(q: real, c: real, d: real)
    requires c <= q < c + 1.0 && d > 0.0
    ensures Times(c, d) <= Times(q, d) < Times(c, d) + d
  {
    hide Times;
    TimesOfDifference(q, c, d);
    TimesOfDifference(c + 1.0, q, d);
    TimesOfDifference(c + 1.0, c, d);
    TimesSign(q - c, d);
    TimesSign(c + 1.0 - q, d);
    TimesOne(d);
    assert c + 1.0 - c == 1.0;
  }

  lemma TimesOfDifference(b: real, a: real, d: real)
    ensures Times(b - a, d) == Times(b, d) - Times(a, d)
  {
  }

  lemma TimesOne(d: real)
    ensures Times(1.0, d) == d
  {
  }

  lemma FloorIsNatural(elapsed: real, d: real)
    requires d > 0.0 && elapsed >= 0.0
    ensures (elapsed / d).Floor >= 0
  {
    QuotientIsNatural(elapsed, d);
    var q := elapsed / d;
    assert q.Floor as real > q - 1.0;
  }

  lemma QuotientIsNatural(elapsed: real, d: real)
    requires d > 0.0 && elapsed >= 0.0
    ensures elapsed / d >= 0.0
  {
  }

  lemma BeforeTheEnd(cycle: int, repeat: int, d: real, elapsed: real)
    requires d > 0.0 && Whole(cycle, d) <= elapsed < Whole(repeat, d)
    ensures cycle < repeat
  {
    if cycle > repeat {
      WholeOrdered(repeat, cycle, d);
    }
  }

  lemma ShowsTheWalk(s: Schedule, elapsed: real, cycle: int, k: nat, cum: real)
    requires Positive(s) && elapsed >= 0.0 && k < |s.steps| && cum == Prefix(s.steps, k)
    requires var d := Duration(s.steps);
      && d > 0.0 && elapsed < Whole(s.repeat, d) && cycle == (elapsed / d).Floor
      && 0.0 <= elapsed - Whole(cycle, d) - cum < s.steps[k].timeoutS
    ensures Walk(s, 0, 0, elapsed) == Here(cycle, k, elapsed - Whole(cycle, Duration(s.steps)) - cum)
  {
    hide Walk, Whole, Duration, Prefix;
    var d := Duration(s.steps);
    FloorSplits(elapsed, d);
    FloorIsNatural(elapsed, d);
    BeforeTheEnd(cycle, s.repeat, d, elapsed);
    WalkIsExact(s, elapsed);
    assert At(s, elapsed, cycle, k, elapsed - Whole(cycle, d) - cum);
  }

  class ScheduleMonitor {
    var schedule: Option<Schedule>
    var running: bool
    var startTime: Option<real>

    constructor ()
      ensures schedule.None? && !running && startTime.None?
    {
      schedule, running, startTime := None, false, None;
    }

    method LoadSchedule(s: Schedule, now: real)
      modifies this
      ensures schedule == Some(s) && running && startTime == Some(now)
    {
      schedule, running, startTime := Some(s), true, Some(now);
    }

    /** Refused, without effect, while no schedule is loaded. */
    method Restart(now: real) returns (ok: bool)
      modifies this
      ensures schedule == old(schedule) && ok == schedule.Some?
      ensures if ok then running && startTime == Some(now) else running == old(running) && startTime == old(startTime)
    {
      if schedule.None? {
        return false;
      }
      running, startTime := true, Some(now);
      return true;
    }

    method Stop()
      modifies this`running
      ensures !running
    {
      running := false;
    }

    /** For a valid schedule: the first step while halted, else what the walk over the repeated steps
        shows. */
    method ComputePlan(s: Schedule, now: real) returns (plan: Plan)
      requires schedule == Some(s)
      ensures Valid(s) && running && startTime.Some? && now >= startTime.value
        ==> plan == Shown(s, Walk(s, 0, 0, now - startTime.value))
      ensures Valid(s) && !(running && startTime.Some?) ==> plan == Shown(s, Here(0, 0, 0.0))
      ensures Valid(s) ==> plan.stepTimeoutS > 0.0
    {
      hide Walk, Whole, Valid, Positive;
      var steps := s.steps;
      if steps == [] {
        return EMPTY_PLAN;
      }
      if Valid(s) {
        ValidIsPositive(s);
        PositiveMeans(s);
      }
      if !running || startTime.None? {
        var first := steps[0];
        return Plan(0, 0, first.name, first.expectedState, first.circuitAction, 0.0, first.timeoutS, false);
      }
      var elapsed := now - startTime.value;
      var cycleDuration := SumOfTimeouts(steps);
      if Valid(s) {
        DurationPositive(s);
        if elapsed >= 0.0 {
          WalkIsExact(s, elapsed);
        }
      }
      if cycleDuration <= 0.0 {
        return EMPTY_PLAN;
      }
      var totalDuration := Whole(s.repeat, cycleDuration);
      if elapsed >= totalDuration {
        var last := steps[|steps| - 1];
        return Plan(s.repeat - 1, |steps| - 1, last.name, last.expectedState, last.circuitAction, last.timeoutS,
                    last.timeoutS, true);
      }
      var cycle := (elapsed / cycleDuration).Floor;
      FloorSplits(elapsed, cycleDuration);
      var cycleElapsed := elapsed - Whole(cycle, cycleDuration);
      var cum := 0.0;
      for k := 0 to |steps|
        invariant cum == Prefix(steps, k) && cum <= cycleElapsed
      {
        var step := steps[k];
        if cycleElapsed < cum + step.timeoutS {
          if Valid(s) && elapsed >= 0.0 {
            ShowsTheWalk(s, elapsed, cycle, k, cum);
          }
          return Plan(cycle, k, step.name, step.expectedState, step.circuitAction, cycleElapsed - cum, step.timeoutS,
                      false);
        }
        cum := cum + step.timeoutS;
      }
      assert false;
    }

    static method SumOfTimeouts(steps: seq<Step>) returns (total: real)
      ensures total == Duration(steps)
    {
      total := 0.0;
      for k := 0 to |steps|
        invariant total == Prefix(steps, k)
      {
        total := total + steps[k].timeoutS;
      }
    }
  }

  lemma PositiveMeans(s: Schedule)
    requires Positive(s)
    ensures s.steps != [] && s.repeat >= 1
    ensures forall k :: 0 <= k < |s.steps| ==> s.steps[k].timeoutS > 0.0
  {
  }
}
