/** auto_follow.py: the hysteresis that drives the modes from the measured current. */
module AutoFollow {
  // The set_mode callback becomes a result: each operation returns the mode it asks for, if any, and the
  // mode controller applies it.

  import opened GpioDriver
  import opened Options

  datatype Mode = IDLE | CHARGE | DISCHARGE | PULSE_CHARGE | DEBUG

  /** ALLOWED_TARGET_MODES */
  predicate IsTarget(m: Mode) {
    m == CHARGE || m == PULSE_CHARGE
  }

  const HOLDOFF_S: real := 2.0

  datatype Follow = Follow(
    enabled: bool, active: bool, target: Mode,
    iEnterA: real, iExitA: real, holdoffUntil: real)
  {
    predicate Valid() {
      (active ==> enabled) && IsTarget(target) && iEnterA > iExitA
    }

    /** The mode that an enabled controller holds the circuit in. */
    function Wanted(): Mode {
      if active then target else DISCHARGE
    }
  }

  const NEW_FOLLOW := Follow(false, false, CHARGE, 0.050, 0.020, 0.0)

  function Enabling(f: Follow, on: bool): (Follow, Option<Mode>) {
    if f.enabled == on then (f, None)
    else (f.(enabled := on, active := false), if on then Some(DISCHARGE) else None)
  }

  function Targeting(f: Follow, m: Mode): (Follow, Option<Mode>) {
    if !IsTarget(m) || f.target == m then (f, None)
    else (f.(target := m), if f.enabled && f.active then Some(m) else None)
  }

  predicate AcceptableThresholds(enter: real, exit: real) {
    enter > exit && enter > 0.0 && exit >= 0.0
  }

  function Thresholding(f: Follow, enter: real, exit: real): Follow {
    if AcceptableThresholds(enter, exit) then f.(iEnterA := enter, iExitA := exit) else f
  }

  /** One pass of the loop with measured current `i` at time `now`. */
  function Ticking(f: Follow, i: real, now: real): (Follow, Option<Mode>) {
    if !f.enabled then (f, None)
    else if !f.active && i > f.iEnterA then
      (f.(active := true, holdoffUntil := now + HOLDOFF_S), Some(f.target))
    else if f.active && i < f.iExitA && now >= f.holdoffUntil then
      (f.(active := false), Some(DISCHARGE))
    else (f, None)
  }

  datatype FollowCall =
    | Enable(on: bool)
    | Target(m: Mode)
    | Thresholds(enter: real, exit: real)
    | Sense(i: real, now: real)

  function Step(f: Follow, c: FollowCall): (Follow, Option<Mode>) {
    match c
    case Enable(on) => Enabling(f, on)
    case Target(m) => Targeting(f, m)
    case Thresholds(enter, exit) => (Thresholding(f, enter, exit), None)
    case Sense(i, now) => Ticking(f, i, now)
  }

  /** Each call keeps the state valid, and asks for a mode exactly when the call enables the controller or
      changes the mode an enabled one wants: a caller that applies every request is always in the wanted
      mode, and a controller that stays disabled asks for nothing. */
  lemma StepAsksForTheWantedMode(f: Follow, c: FollowCall)
    requires f.Valid()
    ensures var (g, ask) := Step(f, c);
      && g.Valid()
      && (ask.Some? <==> g.enabled && (!f.enabled || g.Wanted() != f.Wanted()))
      && (ask.Some? ==> ask.value == g.Wanted())
  {
  }

  function RunCalls(f: Follow, calls: seq<FollowCall>): Follow
    decreases |calls|
  {
    if calls == [] then f else RunCalls(Step(f, calls[0]).0, calls[1..])
  }

  /** Sensor ticks before `until` and threshold changes: the calls that may follow an engagement. */
  predicate QuietUntil(calls: seq<FollowCall>, until: real) {
    forall i :: 0 <= i < |calls| ==>
      calls[i].Thresholds? || calls[i].Target? || calls[i] == Enable(true) || (calls[i].Sense? && calls[i].now < until)
  }

  /** Once a tick at `now` has engaged, no tick in the next two seconds disengages, whatever it
      measures and however the thresholds and the target are changed meanwhile. */
  lemma HoldoffHolds(f: Follow, i: real, now: real, calls: seq<FollowCall>)
    requires f.Valid() && !f.active && Ticking(f, i, now).0.active
    requires QuietUntil(calls, now + HOLDOFF_S)
    ensures RunCalls(Ticking(f, i, now).0, calls).active
  {
    ActiveStays(Ticking(f, i, now).0, now + HOLDOFF_S, calls);
  }

  lemma {:induction false} ActiveStays(f: Follow, until: real, calls: seq<FollowCall>)
    requires f.Valid() && f.active && f.holdoffUntil == until && QuietUntil(calls, until)
    ensures RunCalls(f, calls).active
    decreases |calls|
  {
    if calls == [] {
    } else {
      ActiveStays(Step(f, calls[0]).0, until, calls[1..]);
    }
  }

  // ----- what a run of calls amounts to -----------------------------------------------------------

  /** What the last Enable said. */
  function EnabledBy(calls: seq<FollowCall>): bool {
    if calls == [] then false
    else
      var last := calls[|calls| - 1];
      if last.Enable? then last.on else EnabledBy(calls[..|calls| - 1])
  }

  /** The last switching mode asked for. */
  function TargetBy(calls: seq<FollowCall>): Mode {
    if calls == [] then CHARGE
    else
      var last := calls[|calls| - 1];
      if last.Target? && (last.m == CHARGE || last.m == PULSE_CHARGE) then last.m else TargetBy(calls[..|calls| - 1])
  }

  /** The enter and exit thresholds of the last acceptable setting: enter above exit, enter positive, exit
      not negative. */
  function LimitsBy(calls: seq<FollowCall>): (real, real) {
    if calls == [] then (0.050, 0.020)
    else
      var last := calls[|calls| - 1];
      if last.Thresholds? && last.enter > last.exit && last.enter > 0.0 && last.exit >= 0.0 then (last.enter, last.exit)
      else LimitsBy(calls[..|calls| - 1])
  }

  /** A tick above the enter threshold, while enabled. */
  predicate Above(calls: seq<FollowCall>, j: int) {
    0 <= j < |calls| && calls[j].Sense? && EnabledBy(calls[..j]) && calls[j].i > LimitsBy(calls[..j]).0
  }

  /** What undoes an engagement by tick j: a tick below the exit threshold once two seconds have passed, or
      being disabled. */
  predicate Undoes(calls: seq<FollowCall>, j: int, k: int)
    requires 0 <= j < |calls| && calls[j].Sense?
  {
    j < k < |calls| &&
    (calls[k] == Enable(false)
     || (calls[k].Sense? && calls[k].i < LimitsBy(calls[..k]).1 && calls[k].now >= calls[j].now + 2.0))
  }

  /** Tick j engaged the controller, and nothing has undone it. */
  ghost predicate EngagedSince(calls: seq<FollowCall>, j: int) {
    && Above(calls, j) && !RunCalls(NEW_FOLLOW, calls[..j]).active
    && forall k :: j < k < |calls| ==> !Undoes(calls, j, k)
  }

  lemma {:induction false} RunCallsAppend(f: Follow, calls: seq<FollowCall>, c: FollowCall)
    ensures RunCalls(f, calls + [c]) == Step(RunCalls(f, calls), c).0
    decreases |calls|
  {
    hide Step;
    if calls == [] {
      assert [c][1..] == [];
    } else {
      assert (calls + [c])[1..] == calls[1..] + [c];
      RunCallsAppend(Step(f, calls[0]).0, calls[1..], c);
    }
  }

  /** After any run of calls the controller is enabled, aims and measures as the last such call said. */
  lemma {:induction false} SettingsOfRun(calls: seq<FollowCall>)
    ensures var f := RunCalls(NEW_FOLLOW, calls);
      && f.Valid() && f.enabled == EnabledBy(calls) && f.target == TargetBy(calls)
      && (f.iEnterA, f.iExitA) == LimitsBy(calls)
    decreases |calls|
  {
    if calls == [] {
    } else {
      var n := |calls| - 1;
      SettingsOfRun(calls[..n]);
      assert calls == calls[..n] + [calls[n]];
      RunCallsAppend(NEW_FOLLOW, calls[..n], calls[n]);
    }
  }

  lemma EngagedBefore(calls: seq<FollowCall>, j: int)
    requires 0 <= j < |calls| - 1
    ensures var n := |calls| - 1;
      EngagedSince(calls, j) <==> EngagedSince(calls[..n], j) && !(calls[j].Sense? && Undoes(calls, j, n))
  {
    hide RunCalls, EnabledBy, LimitsBy;
    var n := |calls| - 1;
    assert forall k :: 0 <= k <= n ==> calls[..n][..k] == calls[..k];
    if Above(calls, j) {
      assert forall k :: j < k < n ==> (Undoes(calls, j, k) <==> Undoes(calls[..n], j, k));
    }
  }

  /** Which ticks engage and release the controller, over any run of calls: it is active exactly when some
      tick above the enter threshold found it enabled and inactive, and since then it has not been disabled
      and no tick two seconds or more after that one was below the exit threshold. So a current at or above
      the exit threshold never releases it, and none up to the enter threshold engages it. */
  lemma {:induction false} ActiveExactlyWhen(calls: seq<FollowCall>) returns (j: int)
    ensures var f := RunCalls(NEW_FOLLOW, calls);
      && (f.active <==> exists i :: EngagedSince(calls, i))
      && (f.active ==> EngagedSince(calls, j) && f.holdoffUntil == calls[j].now + 2.0)
      && forall i :: EngagedSince(calls, i) ==> i == j
    decreases |calls|
  {
    if calls == [] {
      j := 0;
    } else {
      var n := |calls| - 1;
      var before, c := calls[..n], calls[n];
      var j0 := ActiveExactlyWhen(before);
      assert calls == before + [c];
      RunCallsAppend(NEW_FOLLOW, before, c);
      SettingsOfRun(before);
      var f := RunCalls(NEW_FOLLOW, before);
      hide RunCalls, EnabledBy, LimitsBy, TargetBy;
      forall i | 0 <= i < n
        ensures EngagedSince(calls, i) <==> EngagedSince(before, i) && !(calls[i].Sense? && Undoes(calls, i, n))
      {
        EngagedBefore(calls, i);
      }
      j := if f.active then j0 else n;
      assert f.active ==> 0 <= j0 < n && before[j0] == calls[j0];
      assert EngagedSince(calls, n) <==> Above(calls, n) && !f.active;
    }
  }

  /** A current in the band between the thresholds changes nothing. */
  lemma {:induction false} BandHolds(f: Follow, calls: seq<FollowCall>)
    requires forall k :: 0 <= k < |calls| ==> calls[k].Sense? && f.iExitA <= calls[k].i <= f.iEnterA
    ensures RunCalls(f, calls) == f
    decreases |calls|
  {
    if calls == [] {
    } else {
      BandHolds(f, calls[1..]);
    }
  }

  class AutoFollow {
    var enabled: bool
    var isActive: bool
    var targetMode: Mode
    var iEnterA: real
    var iExitA: real
    var holdoffUntil: real

    ghost function View(): Follow
      reads this
    {
      Follow(enabled, isActive, targetMode, iEnterA, iExitA, holdoffUntil)
    }

    constructor ()
      ensures View() == NEW_FOLLOW
    {
      enabled, isActive, targetMode := false, false, CHARGE;
      iEnterA, iExitA, holdoffUntil := 0.050, 0.020, 0.0;
    }

    method SetEnabled(on: bool) returns (ask: Option<Mode>)
      modifies this
      ensures (View(), ask) == Enabling(old(View()), on)
    {
      ask := None;
      var wasEnabled := enabled;
      enabled := on;
      if !wasEnabled && enabled {
        ask := Some(DISCHARGE);
        isActive := false;
      } else if wasEnabled && !enabled {
        isActive := false;
      }
    }

    method SetThresholds(enter: real, exit: real) returns (accepted: bool)
      modifies this
      ensures accepted == AcceptableThresholds(enter, exit)
      ensures View() == Thresholding(old(View()), enter, exit)
    {
      if enter <= exit { return false; }
      if enter <= 0.0 { return false; }
      if exit < 0.0 { return false; }
      iEnterA, iExitA := enter, exit;
      accepted := true;
    }

    method SetTargetMode(m: Mode) returns (ask: Option<Mode>)
      modifies this
      ensures (View(), ask) == Targeting(old(View()), m)
    {
      ask := None;
      if !IsTarget(m) { return; }
      if targetMode != m {
        targetMode := m;
        if enabled && isActive {
          ask := Some(m);
        }
      }
    }

    method Tick(avgI: real, now: real) returns (ask: Option<Mode>)
      modifies this
      ensures (View(), ask) == Ticking(old(View()), avgI, now)
    {
      ask := None;
      if !enabled { return; }
      if !isActive && avgI > iEnterA {
        ask := Some(targetMode);
        isActive := true;
        holdoffUntil := now + HOLDOFF_S;
      } else if isActive && avgI < iExitA {
        if now >= holdoffUntil {
          ask := Some(DISCHARGE);
          isActive := false;
        }
      }
    }
  }
}
