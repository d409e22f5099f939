/** The RP2040 switching firmware seen one command and one timer tick at a time. */
module Firmware {
  // A command (S, Y, C, E, F, G, H, K) and a run of the timer interrupt are each one step here;
  // Switching.dfy proves that the statement-level code, with interrupts anywhere, behaves like these
  // steps.

  const CYCLE_MAX_STATES := 64
  const MIN_PERIOD_US := 50

  /** The four FET outputs; true is conducting. */
  datatype Pins = Pins(p1: bool, p2: bool, n1: bool, n2: bool)
  {
    /** Current can pass from the high side to the low side. */
    predicate Conducting() {
      (p1 || p2) && (n1 || n2)
    }

    /** Every FET that is on here is on in `other`. */
    predicate Below(other: Pins) {
      && (p1 ==> other.p1) && (p2 ==> other.p2)
      && (n1 ==> other.n1) && (n2 ==> other.n2)
    }
  }

  const ALL_OFF := Pins(false, false, false, false)
  const ALL_ON := Pins(true, true, true, true)

  function Bit(on: bool): (b: int)
    ensures b == 0 || b == 1
  {
    if on then 1 else 0
  }

  /** The packed form of a FET state: P1 is bit 3 and N2 is bit 0. */
  function Pack(p: Pins): (b: int)
    ensures 0 <= b <= 15
  {
    8 * Bit(p.p1) + 4 * Bit(p.p2) + 2 * Bit(p.n1) + Bit(p.n2)
  }

  function Unpack(b: int): Pins {
    Pins((b / 8) % 2 == 1, (b / 4) % 2 == 1, (b / 2) % 2 == 1, b % 2 == 1)
  }

  predicate IsState(b: int) {
    0 <= b <= 15
  }

  predicate ValidCycle(states: seq<int>) {
    && 1 <= |states| <= CYCLE_MAX_STATES
    && forall i :: 0 <= i < |states| ==> IsState(states[i])
  }

  /** Every state of the cycle lets current through. */
  predicate AllConducting(cycle: seq<int>) {
    forall i :: 0 <= i < |cycle| ==> Unpack(cycle[i]).Conducting()
  }

  /** Firmware state between commands. `armed` means the timer interrupt can fire. */
  datatype Fw = Fw(cycle: seq<int>, idx: int, periodUs: int, running: bool, armed: bool, pins: Pins)

  const BOOT := Fw([], 0, 0, false, false, ALL_OFF)

  datatype Command =
    | S(pins: Pins)
    | Y(pins: Pins)
    | C(states: seq<int>)
    | E(states: seq<int>)
    | F(periodUs: int)
    | G
    | H
    | K
    | P

  ghost predicate WellFormed(fw: Fw) {
    && |fw.cycle| <= CYCLE_MAX_STATES
    && (forall i :: 0 <= i < |fw.cycle| ==> IsState(fw.cycle[i]))
    && (fw.idx == 0 || 0 < fw.idx < |fw.cycle|)
    && (fw.periodUs == 0 || fw.periodUs >= MIN_PERIOD_US)
    && (fw.armed ==> fw.running)
    && (fw.armed ==> |fw.cycle| > 0 && fw.periodUs > 0)
  }

  function NextIdx(fw: Fw): int {
    if fw.idx + 1 >= |fw.cycle| then 0 else fw.idx + 1
  }

  function StepOnce(fw: Fw): Fw {
    if 0 <= NextIdx(fw) < |fw.cycle| then
      fw.(idx := NextIdx(fw), pins := Unpack(fw.cycle[NextIdx(fw)]))
    else fw
  }

  /** One firing of the timer; nothing happens while the timer is disarmed. */
  function Tick(fw: Fw): Fw {
    if fw.armed then StepOnce(fw) else fw
  }

  function Ticks(fw: Fw, k: nat): Fw {
    if k == 0 then fw else Tick(Ticks(fw, k - 1))
  }

  function Start(fw: Fw): Fw {
    if |fw.cycle| == 0 || fw.periodUs == 0 || !(0 <= fw.idx < |fw.cycle|) then fw
    else fw.(pins := Unpack(fw.cycle[fw.idx]), running := true, armed := true)
  }

  function Halt(fw: Fw): Fw {
    fw.(running := false, armed := false, pins := ALL_OFF)
  }

  /** The effect of one command line. An ill-formed C, E or F changes nothing (an ERR reply). */
  function Exec(fw: Fw, c: Command): Fw {
    match c
    case S(p) => (if fw.running then Halt(fw) else fw).(pins := p)
    case Y(p) => fw.(pins := p)
    case C(states) => if ValidCycle(states) then Halt(fw).(cycle := states, idx := 0) else fw
    case E(states) =>
      if ValidCycle(states) then
        fw.(cycle := states, idx := if fw.idx >= |states| then 0 else fw.idx)
      else fw
    case F(us) =>
      if us < MIN_PERIOD_US then fw
      else if fw.running then Start(fw.(periodUs := us))
      else fw.(periodUs := us)
    case G => Start(fw)
    case H => Halt(fw)
    case K => StepOnce(fw)
    case P => fw
  }

  function ExecAll(fw: Fw, cs: seq<Command>): Fw
    decreases |cs|
  {
    if cs == [] then fw else ExecAll(Exec(fw, cs[0]), cs[1..])
  }

  // ----- packing ---------------------------------------------------------------------------

  lemma PackRoundTrip(p: Pins)
    ensures Unpack(Pack(p)) == p
  {
  }

  lemma UnpackRoundTrip(b: int)
    requires IsState(b)
    ensures Pack(Unpack(b)) == b
  {
    assert b == 8 * (b / 8) + 4 * ((b / 4) % 2) + 2 * ((b / 2) % 2) + b % 2;
  }

  // ----- what every step keeps ----------------------------------------------------------------

  lemma ExecKeepsWellFormed(fw: Fw, c: Command)
    requires WellFormed(fw)
    ensures WellFormed(Exec(fw, c))
  {
  }

  lemma {:induction false} TicksKeepWellFormed(fw: Fw, k: nat)
    requires WellFormed(fw)
    ensures WellFormed(Ticks(fw, k))
  {
    if k == 0 {
    } else {
      TicksKeepWellFormed(fw, k - 1);
    }
  }

  lemma {:induction false} TicksAdd(fw: Fw, j: nat, k: nat)
    ensures Ticks(Ticks(fw, j), k) == Ticks(fw, j + k)
  {
    if k == 0 {
    } else {
      TicksAdd(fw, j, k - 1);
    }
  }

  /** A tick moves only the index and the pins. */
  lemma {:induction false} TicksFrame(fw: Fw, k: nat)
    ensures Ticks(fw, k) == fw.(idx := Ticks(fw, k).idx, pins := Ticks(fw, k).pins)
    ensures !fw.armed || k == 0 ==> Ticks(fw, k) == fw
  {
    if k == 0 {
    } else {
      TicksFrame(fw, k - 1);
    }
  }

  lemma ModStep(a: int, n: int)
    requires n > 0
    ensures (a + 1) % n == if a % n + 1 >= n then 0 else a % n + 1
  {
    var q, r := a / n, a % n;
    assert a == q * n + r;
    if r + 1 >= n {
      assert a + 1 == (q + 1) * n + 0;
      ModUnique(a + 1, n, q + 1, 0);
    } else {
      assert a + 1 == q * n + (r + 1);
      ModUnique(a + 1, n, q, r + 1);
    }
  }

  lemma NonzeroMultiple(x: int, n: int)
    requires n > 0
    ensures x >= 1 ==> x * n >= n
    ensures x <= -1 ==> x * n <= -n
  {
    if x >= 1 {
      assert (x - 1) * n >= 0;
    } else if x <= -1 {
      assert (-x - 1) * n >= 0;
    }
  }

  lemma ModUnique(a: int, n: int, q: int, r: int)
    requires n > 0 && 0 <= r < n && a == q * n + r
    ensures a / n == q && a % n == r
  {
    var q', r' := a / n, a % n;
    assert a == q' * n + r';
    assert (q' - q) * n == r - r';
    NonzeroMultiple(q' - q, n);
  }

  /** Where an armed timer is after k ticks: k places further round the cycle, with the pins
      showing that state. */
  lemma {:induction false} TicksAdvance(fw: Fw, k: nat)
    requires WellFormed(fw) && fw.armed
    ensures Ticks(fw, k).idx == (fw.idx + k) % |fw.cycle|
    ensures k > 0 ==> Ticks(fw, k).pins == Unpack(fw.cycle[(fw.idx + k) % |fw.cycle|])
  {
    if k == 0 {
      ModUnique(fw.idx, |fw.cycle|, 0, fw.idx);
    } else {
      TicksAdvance(fw, k - 1);
      TicksFrame(fw, k - 1);
      ModStep(fw.idx + k - 1, |fw.cycle|);
    }
  }

  /** An accepted F on a running timer changes its period and nothing else: the state held goes back on the pins
      over a Y sent before, a timer that found no alarm runs again, and ticks show what they would have shown. */
  lemma NewPeriodGoesOn(fw: Fw, p: Pins, us: int, k: nat)
    requires WellFormed(fw) && fw.armed && fw.pins == Unpack(fw.cycle[fw.idx])
    ensures us >= 50 ==> Exec(Exec(fw, Y(p)), F(us)) == Exec(fw.(armed := false), F(us)) == fw.(periodUs := us)
    ensures us >= 50 ==> Ticks(Exec(Exec(fw, Y(p)), F(us)), k).pins == Ticks(fw, k).pins
    ensures us < 50 ==> Exec(Exec(fw, Y(p)), F(us)) == fw.(pins := p)
  {
    hide Ticks, Unpack;
    if us >= 50 && k > 0 {
      TicksAdvance(fw, k);
      TicksAdvance(fw.(periodUs := us), k);
    } else {
      TicksFrame(fw, 0);
      TicksFrame(fw.(periodUs := us), 0);
    }
  }

  lemma {:induction false} ExecAllAppend(fw: Fw, cs: seq<Command>, ds: seq<Command>)
    ensures ExecAll(fw, cs + ds) == ExecAll(ExecAll(fw, cs), ds)
    decreases |cs|
  {
    if cs == [] {
      assert cs + ds == ds;
    } else {
      assert (cs + ds)[1..] == cs[1..] + ds;
      ExecAllAppend(Exec(fw, cs[0]), cs[1..], ds);
    }
  }
}
