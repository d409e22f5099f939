/** switching.c at statement granularity.

    Every method calls `Interrupts()` at the points where the timer interrupt may run: any
    number of complete interrupt runs, as long as the alarm is queued. The critical
    sections (save_and_disable_interrupts) contain no such call. Each contract says how the
    interleaved execution relates to the one-step command of Firmware.dfy.
 */
module Switching {
  import opened Firmware

  newtype uint8 = x: int | 0 <= x < 0x100
  newtype uint32 = x: int | 0 <= x < 0x1_0000_0000

  datatype Fet = P1 | P2 | N1 | N2

  function WithPin(p: Pins, fet: Fet, on: bool): Pins {
    match fet
    case P1 => p.(p1 := on)
    case P2 => p.(p2 := on)
    case N1 => p.(n1 := on)
    case N2 => p.(n2 := on)
  }

  function PinOf(p: Pins, fet: Fet): bool {
    match fet
    case P1 => p.p1
    case P2 => p.p2
    case N1 => p.n1
    case N2 => p.n2
  }

  /** Some state of the cycle has the FET like this. */
  ghost predicate InCycle(cycle: seq<int>, fet: Fet, on: bool) {
    exists i :: 0 <= i < |cycle| && PinOf(Unpack(cycle[i]), fet) == on
  }

  /** Each pin is as in some state of the cycle. */
  ghost predicate FromCycle(cycle: seq<int>, shown: Pins) {
    InCycle(cycle, P1, shown.p1) && InCycle(cycle, P2, shown.p2)
    && InCycle(cycle, N1, shown.n1) && InCycle(cycle, N2, shown.n2)
  }

  /** Each pin is as in `p` or as in some state of the cycle. */
  ghost predicate Mixture(cycle: seq<int>, p: Pins, shown: Pins) {
    && (shown.p1 == p.p1 || InCycle(cycle, P1, shown.p1))
    && (shown.p2 == p.p2 || InCycle(cycle, P2, shown.p2))
    && (shown.n1 == p.n1 || InCycle(cycle, N1, shown.n1))
    && (shown.n2 == p.n2 || InCycle(cycle, N2, shown.n2))
  }

  lemma StateInCycle(cycle: seq<int>, idx: int)
    requires 0 <= idx < |cycle|
    ensures FromCycle(cycle, Unpack(cycle[idx]))
  {
    var p := Unpack(cycle[idx]);
    assert PinOf(p, P1) == p.p1 && PinOf(p, P2) == p.p2 && PinOf(p, N1) == p.n1 && PinOf(p, N2) == p.n2;
  }

  /** The held state is itself a state of the cycle. */
  lemma HeldMixture(cycle: seq<int>, idx: int, shown: Pins)
    requires 0 <= idx < |cycle| && Mixture(cycle, Unpack(cycle[idx]), shown)
    ensures FromCycle(cycle, shown)
  {
    hide InCycle, Unpack;
    StateInCycle(cycle, idx);
  }

  function AsInts(s: seq<uint8>): seq<int> {
    seq(|s|, i requires 0 <= i < |s| => s[i] as int)
  }

  /** The period is not read by a tick. */
  lemma {:induction false} TicksIgnorePeriod(fw: Fw, us: int, k: nat)
    ensures Ticks(fw.(periodUs := us), k) == Ticks(fw, k).(periodUs := us)
  {
    if k == 0 {
    } else {
      TicksIgnorePeriod(fw, us, k - 1);
      TicksFrame(fw, k - 1);
    }
  }

  /** A tick's index does not depend on the pins before it. */
  lemma {:induction false} PinsDoNotSteer(fw: Fw, p: Pins, k: nat)
    ensures Ticks(fw.(pins := p), k).idx == Ticks(fw, k).idx
  {
    if k == 0 {
    } else {
      PinsDoNotSteer(fw, p, k - 1);
      TicksFrame(fw, k - 1);
      TicksFrame(fw.(pins := p), k - 1);
    }
  }

  lemma TicksAfterWrite(start: Fw, done: nat, p: Pins, j: nat)
    ensures Ticks(Ticks(start, done).(pins := p), j)
         == Ticks(start, done + j).(pins := Ticks(Ticks(start, done).(pins := p), j).pins)
  {
    PinsDoNotSteer(Ticks(start, done), p, j);
    TicksFrame(Ticks(start, done).(pins := p), j);
    TicksFrame(Ticks(start, done), j);
    TicksAdd(start, done, j);
  }

  /** One tick is enough for the pins to show the current state again. */
  lemma {:induction false} TicksForgetPins(fw: Fw, p: Pins, k: nat)
    requires fw.armed && 0 <= fw.idx < |fw.cycle| && k > 0
    ensures Ticks(fw.(pins := p), k) == Ticks(fw, k)
    ensures 0 <= Ticks(fw, k).idx < |fw.cycle| && Ticks(fw, k).pins == Unpack(fw.cycle[Ticks(fw, k).idx])
  {
    TicksFrame(fw, k);
    if k == 1 {
    } else {
      TicksForgetPins(fw, p, k - 1);
      TicksFrame(fw, k - 1);
    }
  }

  /** Ticks that fire before the running flag is set. */
  lemma {:induction false} RunningIgnored(fw: Fw, l: nat)
    ensures Ticks(fw, l).(running := true) == Ticks(fw.(running := true), l)
  {
    if l == 0 {
    } else {
      RunningIgnored(fw, l - 1);
    }
  }

  /** A start that leaves `shown` on the pins, and l ticks later. */
  lemma StartedExactly(fw: Fw, shown: Pins, torn: bool, l: nat)
    requires 0 <= fw.idx < |fw.cycle| && fw.periodUs != 0
    requires !torn ==> shown == Unpack(fw.cycle[fw.idx])
    ensures var after := Ticks(fw.(pins := shown, running := true, armed := true), l);
      after == if torn && l == 0 then Ticks(Exec(fw, G), l).(pins := shown) else Ticks(Exec(fw, G), l)
  {
    if l > 0 {
      TicksForgetPins(Exec(fw, G), shown, l);
    }
  }

  lemma AcceptableIsValid(states: seq<uint8>)
    ensures SwitchingModule.Acceptable(states) <==> ValidCycle(AsInts(states))
  {
    if ValidCycle(AsInts(states)) {
      assert forall i :: 0 <= i < |states| ==> AsInts(states)[i] == states[i] as int;
    }
  }

  class SwitchingModule {
    const sSeq: array<uint8>
    var sSeqLen: uint8
    var sSeqIdx: uint8
    var sPeriodUs: uint32
    var sRunning: bool
    var sTimerArmed: bool
    var alarmQueued: bool    // the SDK will run tick_isr; s_timer_armed is the module's own flag
    var pins: Pins
    ghost var cycle: seq<int>  // the programmed part of sSeq
    ghost var dips: nat        // pin writes since boot that turned a conducting FET off

    ghost predicate BufferOk()
      reads `sSeqLen, `cycle, sSeq
    {
      && sSeq.Length == CYCLE_MAX_STATES
      && |cycle| == sSeqLen as int <= CYCLE_MAX_STATES
      && forall i :: 0 <= i < |cycle| ==> cycle[i] == sSeq[i] as int && IsState(cycle[i])
    }

    /** Holds between any two statements. */
    ghost predicate Safe()
      reads `sSeqLen, `cycle, `sSeqIdx, `alarmQueued, sSeq
    {
      && BufferOk()
      && (sSeqIdx == 0 || sSeqIdx < sSeqLen)
      && (alarmQueued ==> sSeqLen > 0)
    }

    /** Holds between commands: the flag tells the truth and an armed timer is running. */
    ghost predicate Settled()
      reads `sSeqLen, `cycle, `sSeqIdx, `alarmQueued, `sTimerArmed, `sRunning, sSeq
    {
      Safe() && sTimerArmed == alarmQueued && (sTimerArmed ==> sRunning)
    }

    ghost function View(): Fw
      reads `cycle, `sSeqIdx, `sPeriodUs, `sRunning, `alarmQueued, `pins
    {
      Fw(cycle, sSeqIdx as int, sPeriodUs as int, sRunning, alarmQueued, pins)
    }

    ghost predicate AllOnCycle()
      reads `cycle
    {
      forall i :: 0 <= i < |cycle| ==> cycle[i] == 15
    }

    constructor ()
      ensures Settled() && View() == BOOT && fresh(sSeq)
    {
      sSeq := new uint8[64](_ => 0);
      sSeqLen, sSeqIdx, sPeriodUs := 0, 0, 0;
      sRunning, sTimerArmed, alarmQueued := false, false, false;
      pins := ALL_OFF;
      cycle, dips := [], 0;
    }

    method GpioPut(fet: Fet, on: bool)
      modifies `pins, `dips
      ensures pins == WithPin(old(pins), fet, on)
      ensures dips == if old(pins).Below(pins) then old(dips) else old(dips) + 1
    {
      ghost var before := pins;
      pins := WithPin(pins, fet, on);
      dips := if before.Below(pins) then dips else dips + 1;
    }

    /** tick_isr. The index arithmetic is done in a byte, so not overflowing it is an obligation
        of this body. */
    method TickIsr()
      requires Safe() && alarmQueued
      modifies `sSeqIdx, `pins, `dips
      ensures Safe() && View() == Tick(old(View()))
      ensures dips <= old(dips) + 4
      ensures AllOnCycle() ==> pins == ALL_ON && dips == old(dips)
    {
      var n := sSeqLen;
      if n == 0 { return; }
      var idx: uint8 := sSeqIdx + 1;
      if idx >= n { idx := 0; }
      sSeqIdx := idx;
      ApplyPackedInline(sSeq[idx as int]);
    }

    /** apply_packed_inline in interrupt context: the four writes are not preempted. */
    method ApplyPackedInline(b: uint8)
      modifies `pins, `dips
      ensures pins == Unpack(b as int)
      ensures dips <= old(dips) + 4
      ensures pins == ALL_ON ==> dips == old(dips)
    {
      var p := Unpack(b as int);
      GpioPut(P1, p.p1);
      GpioPut(P2, p.p2);
      GpioPut(N1, p.n1);
      GpioPut(N2, p.n2);
    }

    /** Any number of complete interrupt runs, between two statements of the main thread. */
    method Interrupts() returns (ghost k: nat)
      requires Safe()
      modifies `sSeqIdx, `pins, `dips
      ensures Safe() && View() == Ticks(old(View()), k)
      ensures !alarmQueued ==> k == 0
      ensures k == 0 ==> View() == old(View())
      ensures k > 0 ==> sSeqIdx < sSeqLen && pins == Unpack(cycle[sSeqIdx as int])
      ensures dips <= old(dips) + 4 * k
      ensures AllOnCycle() ==> old(pins).Below(pins) && dips == old(dips)
    {
      k := 0;
      var runs: nat := *;
      while alarmQueued && runs > 0
        invariant Safe() && View() == Ticks(old(View()), k)
        invariant !alarmQueued ==> k == 0
        invariant k > 0 ==> sSeqIdx < sSeqLen && pins == Unpack(cycle[sSeqIdx as int])
        invariant dips <= old(dips) + 4 * k
        invariant AllOnCycle() ==> old(pins).Below(pins) && dips == old(dips)
        decreases runs
      {
        TickIsr();
        k, runs := k + 1, runs - 1;
      }
    }

    /** One pin write of a group of four, then interrupt runs. `start` is the state before the
        group and `done` the number of ticks since, so only the pins may differ from theirs. */
    method PutInterruptible(fet: Fet, on: bool, ghost start: Fw, ghost done: nat) returns (ghost k: nat)
      requires Safe() && View() == Ticks(start, done).(pins := pins)
      modifies `sSeqIdx, `pins, `dips
      ensures Safe() && View() == Ticks(start, k).(pins := pins) && k >= done
      ensures k == done ==> pins == WithPin(old(pins), fet, on)
      ensures k > done ==> FromCycle(cycle, pins)
      ensures !alarmQueued ==> k == done
      ensures AllOnCycle() && on ==> WithPin(old(pins), fet, true).Below(pins) && dips == old(dips)
    {
      hide Ticks, FromCycle;
      GpioPut(fet, on);
      ghost var before := pins;
      var j := Interrupts();
      k := done + j;
      TicksAfterWrite(start, done, before, j);
      if j > 0 {
        StateInCycle(cycle, sSeqIdx as int);
      }
    }

    /** Four pin writes by the main thread. An interrupt between two of them leaves a mixture of `p`
        and states of the cycle on the pins; an undisturbed write shows `p`. */
    method WritePins(p: Pins) returns (ghost k: nat)
      requires Safe()
      modifies `sSeqIdx, `pins, `dips
      ensures Safe() && View() == Ticks(old(View()), k).(pins := pins)
      ensures k == 0 ==> View() == old(View()).(pins := p)
      ensures Mixture(cycle, p, pins)
      ensures !alarmQueued ==> k == 0
      ensures p == ALL_ON && AllOnCycle() ==> pins == ALL_ON && dips == old(dips)
    {
      hide Ticks, InCycle;
      ghost var start := View();
      TicksFrame(start, 0);
      k := PutInterruptible(P1, p.p1, start, 0);
      k := PutInterruptible(P2, p.p2, start, k);
      k := PutInterruptible(N1, p.n1, start, k);
      GpioPut(N2, p.n2);
    }

    method SwitchingHalt() returns (ghost k: nat)
      requires Settled()
      modifies `sSeqIdx, `pins, `dips, `sTimerArmed, `sRunning, `alarmQueued
      ensures Settled() && View() == Halt(Ticks(old(View()), k))
    {
      hide Ticks;
      k := Interrupts();
      if sTimerArmed {
        alarmQueued := false;  // cancel_repeating_timer
        sTimerArmed := false;
      }
      sRunning := false;
      var _ := WritePins(ALL_OFF);
    }

    /** The S command. */
    method SetDirect(p: Pins) returns (ghost k: nat)
      requires Settled()
      modifies `sSeqIdx, `pins, `dips, `sTimerArmed, `sRunning, `alarmQueued
      ensures Settled() && !alarmQueued && View() == Exec(Ticks(old(View()), k), S(p))
    {
      hide Ticks;
      k := Interrupts();
      TicksFrame(old(View()), k);
      if sRunning {
        var j := SwitchingHalt();
        TicksAdd(old(View()), k, j);
        k := k + j;
        TicksFrame(old(View()), k);
      }
      var _ := WritePins(p);
    }

    /** The Y command. With an all-on cycle no pin write of the command, nor of any interrupt
        inside it, turns a FET off. */
    method SetDirectNoHalt(p: Pins) returns (ghost k: nat)
      requires Safe()
      modifies `sSeqIdx, `pins, `dips
      ensures Safe() && View() == Ticks(old(View()), k).(pins := pins)
      ensures k == 0 ==> pins == p
      ensures Mixture(cycle, p, pins)
      ensures !alarmQueued ==> k == 0
      ensures p == ALL_ON && AllOnCycle() ==>
        dips == old(dips) && View() == Exec(Ticks(old(View()), k), Y(ALL_ON))
    {
      k := WritePins(p);
    }

    static predicate Acceptable(states: seq<uint8>) {
      1 <= |states| <= CYCLE_MAX_STATES && forall i :: 0 <= i < |states| ==> states[i] <= 15
    }

    /** The argument check shared by C and E, with interrupts running during it. */
    method CheckStates(states: seq<uint8>) returns (ok: bool, ghost k: nat)
      requires Safe()
      modifies `sSeqIdx, `pins, `dips
      ensures Safe() && View() == Ticks(old(View()), k)
      ensures dips <= old(dips) + 4 * k && (!alarmQueued ==> k == 0)
      ensures ok == Acceptable(states) == ValidCycle(AsInts(states))
    {
      hide Ticks;
      AcceptableIsValid(states);
      k := Interrupts();
      if |states| < 1 || |states| > CYCLE_MAX_STATES {
        return false, k;
      }
      for i := 0 to |states|
        invariant Safe() && View() == Ticks(old(View()), k)
        invariant dips <= old(dips) + 4 * k && (!alarmQueued ==> k == 0)
        invariant forall j :: 0 <= j < i ==> states[j] <= 15
      {
        if states[i] > 15 {
          return false, k;
        }
        var l := Interrupts();
        TicksAdd(old(View()), k, l);
        k := k + l;
      }
      ok := true;
    }

    /** The buffer copy inside the critical section; the length is set after it. */
    method CopyStates(states: seq<uint8>)
      requires BufferOk() && Acceptable(states)
      modifies sSeq, `sSeqLen, `cycle
      ensures BufferOk() && cycle == AsInts(states)
    {
      for i := 0 to |states|
        invariant forall j :: 0 <= j < i ==> sSeq[j] == states[j]
      {
        sSeq[i] := states[i];
      }
      sSeqLen := |states| as uint8;
      cycle := AsInts(states);
    }

    /** The C command. */
    method ProgramCycle(states: seq<uint8>) returns (ok: bool, ghost k: nat)
      requires Settled()
      modifies this, sSeq
      ensures Settled() && ok == ValidCycle(AsInts(states))
      ensures View() == Exec(Ticks(old(View()), k), C(AsInts(states)))
    {
      hide Ticks;
      ok, k := CheckStates(states);
      if ok {
        var j := SwitchingHalt();
        TicksAdd(old(View()), k, j);
        k := k + j;
        CopyStates(states);
        sSeqIdx := 0;
      }
    }

    /** The E command: k ticks on the old cycle, then l on the new one. */
    method ProgramCycleLive(states: seq<uint8>) returns (ok: bool, ghost k: nat, ghost l: nat)
      requires Settled()
      modifies this, sSeq
      ensures Settled() && ok == ValidCycle(AsInts(states))
      ensures View() == Ticks(Exec(Ticks(old(View()), k), E(AsInts(states))), l)
      ensures !old(alarmQueued) ==> k == 0
      ensures ok && AllOnCycle() ==> dips <= old(dips) + 4 * k
    {
      hide Ticks;
      l := 0;
      ok, k := CheckStates(states);
      if ok {
        CopyStates(states);
        if sSeqIdx as int >= |states| { sSeqIdx := 0; }
        l := Interrupts();
      }
      TicksFrame(View(), 0);
    }

    /** The drop to discharge, E [15] and then Y all on, with interrupts anywhere: only the k ticks that fall
        before the new cycle is in place turn FETs off, no pin write after that does, and all end on. */
    method DropToDischarge() returns (ghost k: nat, ghost l: nat)
      requires Settled()
      modifies this, sSeq
      ensures Settled() && cycle == [15] && pins == ALL_ON
      ensures dips <= old(dips) + 4 * k && (!old(alarmQueued) ==> k == 0)
      ensures View() == Exec(Ticks(Exec(Ticks(old(View()), k), E([15])), l), Y(ALL_ON))
    {
      hide Ticks;
      assert AsInts([15]) == [15];
      var ok;
      ok, k, l := ProgramCycleLive([15]);
      ghost var start := Exec(Ticks(old(View()), k), E([15]));
      TicksFrame(start, l);
      var m := Interrupts();
      TicksAdd(start, l, m);
      l := l + m;
      TicksFrame(start, l);
      m := SetDirectNoHalt(ALL_ON);
      TicksAdd(start, l, m);
      l := l + m;
    }

    /** The K command. It reads the index k ticks in and writes the next one l ticks in, so the ticks
        in between are lost; m more follow. With the timer disarmed this is one exact step. */
    method StepOnceCmd() returns (idx: int, ghost k: nat, ghost l: nat, ghost m: nat)
      requires Safe()
      modifies `sSeqIdx, `pins, `dips
      ensures Safe() && k <= l
      ensures cycle == [] ==> idx == -1 && View() == old(View())
      ensures cycle != [] ==> idx == NextIdx(Ticks(old(View()), k)) && 0 <= idx < |cycle|
      ensures cycle != [] ==>
        && View() == Ticks(Ticks(old(View()), l).(idx := idx), m).(pins := pins)
        && Mixture(cycle, Unpack(cycle[idx]), pins)
      ensures !alarmQueued ==> k == l == m == 0 && View() == Exec(old(View()), K)
    {
      hide Ticks;
      ghost var start := View();
      TicksFrame(start, 0);
      l, m := 0, 0;
      k := Interrupts();
      if sSeqLen == 0 { return -1, k, k, m; }
      TicksFrame(start, k);
      var next: uint8 := sSeqIdx + 1;
      ghost var j := Interrupts();
      l := k + j;
      TicksAdd(start, k, j);
      if next >= sSeqLen { next := 0; }
      sSeqIdx := next;
      idx := next as int;
      TicksFrame(View(), 0);
      m := ShowState(idx);
    }

    /** Further ticks, then a state of the cycle written to the pins. */
    method ShowState(i: int) returns (ghost k: nat)
      requires Safe() && 0 <= i < |cycle|
      modifies `sSeqIdx, `pins, `dips
      ensures Safe() && View() == Ticks(old(View()), k).(pins := pins)
      ensures Mixture(cycle, Unpack(cycle[i]), pins)
      ensures k == 0 ==> pins == Unpack(cycle[i])
      ensures !alarmQueued ==> k == 0
    {
      hide Ticks;
      ghost var start := View();
      ghost var j := Interrupts();
      k := WritePins(Unpack(sSeq[i] as int));
      TicksAdd(start, j, k);
      k := j + k;
    }

    /** The G command. `alarmFree` says whether the SDK has a free alarm slot. A start is torn when
        an interrupt fell between its pin writes and no later tick has rewritten the pins. */
    method SwitchingStart(alarmFree: bool) returns (ok: bool, ghost k: nat, ghost l: nat, ghost torn: bool)
      requires Settled()
      modifies `sSeqIdx, `pins, `dips, `sTimerArmed, `sRunning, `alarmQueued
      ensures Settled()
      ensures ok == (cycle != [] && sPeriodUs != 0 && alarmFree)
      ensures ok ==> var exact := Ticks(Exec(Ticks(old(View()), k), G), l);
        View() == (if torn then exact.(pins := pins) else exact)
      ensures torn ==> k > 0 && l == 0 && FromCycle(cycle, pins)
      ensures !ok ==> l == 0
      ensures cycle == [] || sPeriodUs == 0 ==> !torn && View() == Ticks(old(View()), k)
      ensures !ok && cycle != [] && sPeriodUs != 0 ==> DisarmedAfter(Ticks(old(View()), k), torn)
    {
      hide Ticks, FromCycle;
      l, torn := 0, false;
      k := Interrupts();
      if sSeqLen == 0 || sPeriodUs == 0 {
        return false, k, l, torn;
      }
      ghost var start, j := old(View()), 0;
      j, torn := ShowCurrentState();
      TicksAdd(start, k, j);
      k := k + j;
      ghost var shown := pins;
      ok, l := Rearm(alarmFree);
      StartedExactly(Ticks(start, k), shown, torn, l);
      torn := torn && l == 0;
    }

    /** A start that found no free alarm: the timer is off, the running flag is not touched, and the
        pins show the held state or, if torn, a mixture. */
    ghost predicate DisarmedAfter(before: Fw, torn: bool)
      reads `cycle, `sSeqIdx, `sPeriodUs, `sRunning, `alarmQueued, `pins
    {
      && View() == before.(armed := false, pins := pins)
      && (!torn ==> 0 <= before.idx < |cycle| && pins == Unpack(cycle[before.idx]))
    }

    /** The F command. While running it restarts the timer, with the same possible tear. */
    method SetPeriodUs(us: uint32, alarmFree: bool)
      returns (ok: bool, ghost k: nat, ghost l: nat, ghost torn: bool)
      requires Settled()
      modifies `sSeqIdx, `pins, `dips, `sPeriodUs, `sTimerArmed, `sRunning, `alarmQueued
      ensures Settled() && ok == (us as int >= MIN_PERIOD_US)
      ensures alarmFree || !old(sRunning) || !ok || cycle == [] ==>
        var exact := Ticks(Exec(Ticks(old(View()), k), F(us as int)), l);
        View() == (if torn then exact.(pins := pins) else exact)
      ensures torn ==> k > 0 && l == 0 && FromCycle(cycle, pins)
      ensures !alarmFree && old(sRunning) && ok && cycle != [] ==>
        DisarmedAfter(Ticks(old(View()), k).(periodUs := us as int), torn)
    {
      hide Ticks, FromCycle;
      ghost var start := View();
      l, torn := 0, false;
      k := Interrupts();
      TicksFrame(start, k);
      if us as int < MIN_PERIOD_US {
        TicksFrame(View(), 0);
        return false, k, l, torn;
      }
      sPeriodUs := us;
      ok := true;
      if sRunning {
        ghost var j;
        var started;
        started, j, l, torn := SwitchingStart(alarmFree);
        TicksIgnorePeriod(Ticks(start, k), us as int, j);
        TicksAdd(start, k, j);
        k := k + j;
        TicksFrame(start, k);
      }
      TicksFrame(View(), 0);
    }

    /** The first half of switching_start: put the held state on the pins. */
    method ShowCurrentState() returns (ghost k: nat, ghost torn: bool)
      requires Safe() && cycle != []
      modifies `sSeqIdx, `pins, `dips
      ensures Safe() && View() == Ticks(old(View()), k).(pins := pins)
      ensures if torn then k > 0 else pins == Unpack(cycle[sSeqIdx as int])
      ensures torn ==> FromCycle(cycle, pins)
      ensures !alarmQueued ==> k == 0
    {
      hide Ticks, FromCycle, InCycle, Mixture;
      ghost var start, held := View(), sSeqIdx as int;
      TicksFrame(start, 0);
      var b := sSeq[sSeqIdx as int];
      ghost var j := Interrupts();
      k := WritePins(Unpack(b as int));
      TicksAdd(start, j, k);
      k := j + k;
      HeldMixture(cycle, held, pins);
      ghost var written := pins;
      var m := Interrupts();
      torn := k > 0 && m == 0;
      TicksAfterWrite(start, k, written, m);
      if m > 0 {
        TicksFrame(start, k);
        TicksForgetPins(Ticks(start, k).(pins := written), written, m);
      }
      k := k + m;
    }

    /** The flags are set with the alarm already queued. */
    method TickThenFlag() returns (ghost l: nat)
      requires Safe() && alarmQueued
      modifies `sSeqIdx, `pins, `dips, `sTimerArmed, `sRunning
      ensures Safe() && sTimerArmed && sRunning
      ensures View() == Ticks(old(View()).(running := true), l)
    {
      hide Ticks;
      ghost var start := View();
      l := Interrupts();
      sTimerArmed := true;
      sRunning := true;
      var m := Interrupts();
      RunningIgnored(start, l);
      TicksAdd(start.(running := true), l, m);
      l := l + m;
    }

    /** The second half of switching_start: replace the alarm. */
    method Rearm(alarmFree: bool) returns (ok: bool, ghost l: nat)
      requires Safe() && cycle != [] && sTimerArmed == alarmQueued
      modifies `sSeqIdx, `pins, `dips, `sTimerArmed, `sRunning, `alarmQueued
      ensures Safe() && ok == alarmFree && sTimerArmed == alarmQueued == ok
      ensures if ok then sRunning else sRunning == old(sRunning)
      ensures ok ==> View() == Ticks(old(View()).(running := true, armed := true), l)
      ensures !ok ==> View() == old(View()).(armed := false) && l == 0
    {
      l := 0;
      if sTimerArmed {
        alarmQueued := false;
        sTimerArmed := false;
      }
      if !alarmFree {
        return false, l;
      }
      alarmQueued := true;  // add_repeating_timer_us
      l := TickThenFlag();
      ok := true;
    }
  }
}
