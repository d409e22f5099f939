/** The tables and limits of server/config.py.

    With the step-period arithmetic of sequence_engine.py.
 */
module Config {
  import opened Firmware

  const MIN_FREQ: real := 0.1
  const MAX_FREQ: real := 2000.0
  const DEFAULT_FREQ: real := 10.0
  const NUM_SEQUENCES := 8

  function StateDef(i: int): Pins
    requires 0 <= i <= 5
  {
    [ Pins(true, false, true, false), Pins(true, false, false, true),
      Pins(false, true, true, false), Pins(false, true, false, true),
      ALL_ON, ALL_OFF ][i]
  }

  function Sequence(index: int): (s: seq<int>)
    requires 0 <= index < NUM_SEQUENCES
    ensures |s| == 4 && forall i :: 0 <= i < 4 ==> 0 <= s[i] <= 5
  {
    [ [5, 5, 5, 5], [0, 1, 2, 3], [0, 1, 3, 2], [0, 2, 1, 3],
      [0, 2, 3, 1], [0, 3, 1, 2], [0, 3, 2, 1], [4, 4, 4, 4] ][index]
  }

  const PULSE_CHARGE_SEQUENCE: seq<int> := [0, 3]

  datatype Settings = Settings(seqIndex: int, freq: real, pulse: bool)
  {
    predicate Valid() {
      0 <= seqIndex < NUM_SEQUENCES && MIN_FREQ <= freq <= MAX_FREQ
    }
  }

  /** int(x): toward zero. */
  function Trunc(x: real): int {
    if x >= 0.0 then x.Floor else -((-x).Floor)
  }

  function PackedCycle(s: Settings): (c: seq<int>)
    requires s.Valid()
    ensures |c| == if s.pulse then 2 else 4
    ensures forall i :: 0 <= i < |c| ==> IsState(c[i])
  {
    if s.pulse then [Pack(StateDef(0)), Pack(StateDef(3))]
    else
      var ids := Sequence(s.seqIndex);
      [Pack(StateDef(ids[0])), Pack(StateDef(ids[1])), Pack(StateDef(ids[2])), Pack(StateDef(ids[3]))]
  }

  function PeriodUs(s: Settings): int
    requires s.Valid()
  {
    var stepTimeS := (1.0 / s.freq) / 2.0;
    var t := if s.pulse then stepTimeS * 2.0 else stepTimeS;
    var us := Trunc(t * 1000000.0);
    if us < 50 then 50 else us
  }

  /** States 0 to 3 each join one battery terminal on the high side, P1 in 0 and 1, to one on the low side, N1
      in 0 and 2; state 4 is all on and state 5 all off. */
  lemma StatesAreBridges(i: int)
    requires 0 <= i <= 5
    ensures var p := StateDef(i);
      && (i < 4 ==> (p.p1 <==> i < 2) && p.p2 == !p.p1 && (p.n1 <==> i % 2 == 0) && p.n2 == !p.n1)
      && (i == 4 ==> p.p1 && p.p2 && p.n1 && p.n2)
      && (i == 5 ==> !p.p1 && !p.p2 && !p.n1 && !p.n2)
  {
  }

  /** A bridge conducts, and with either of its two FETs turned off it does not. */
  lemma BridgesNeedBoth(i: int, q: Pins)
    requires 0 <= i <= 3 && q.Below(StateDef(i))
    ensures q.Conducting() <==> q == StateDef(i)
  {
  }

  /** Sequences 1 to 6 are the six orders of the four bridge states that begin with state 0, in lexicographic
      order; sequence 0 is all off throughout and sequence 7 all on. */
  lemma SequencesAreOrders(index: int)
    requires 0 <= index < NUM_SEQUENCES
    ensures var s := Sequence(index);
      && (1 <= index <= 6 ==>
            s[0] == 0 && (forall j, k :: 0 <= j < k < 4 ==> s[j] != s[k]) && forall k :: 0 <= k < 4 ==> s[k] < 4)
      && (1 <= index <= 5 ==>
            var next := Sequence(index + 1); s[1] < next[1] || (s[1] == next[1] && s[2] < next[2]))
      && (index == 0 ==> forall k :: 0 <= k < 4 ==> s[k] == 5)
      && (index == 7 ==> forall k :: 0 <= k < 4 ==> s[k] == 4)
  {
  }

  /** P1 is bit 3 of a packed state, P2 bit 2, N1 bit 1 and N2 bit 0. */
  lemma BitOfEachFet()
    ensures Pack(Pins(true, false, false, false)) == 8 && Pack(Pins(false, true, false, false)) == 4
    ensures Pack(Pins(false, false, true, false)) == 2 && Pack(Pins(false, false, false, true)) == 1
  {
  }

  /** The k-th state of the programmed cycle is the k-th of the selected sequence; in pulse mode they are P1
      with N1 and P2 with N2. */
  lemma CycleShowsSequence(s: Settings, k: nat)
    requires s.Valid() && k < |PackedCycle(s)|
    ensures Unpack(PackedCycle(s)[k]) ==
      if !s.pulse then StateDef(Sequence(s.seqIndex)[k])
      else if k == 0 then Pins(true, false, true, false) else Pins(false, true, false, true)
  {
    hide Pack, Unpack;
    var i := if !s.pulse then Sequence(s.seqIndex)[k] else if k == 0 then 0 else 3;
    PackRoundTrip(StateDef(i));
    hide Sequence;
  }

  /** Over one round of sequences 1 to 6 each high-side FET is joined to each low-side FET exactly once. */
  lemma EachBridgeOncePerRound(s: Settings, i: int) returns (k: nat)
    requires s.Valid() && !s.pulse && 1 <= s.seqIndex <= 6 && 0 <= i < 4
    ensures k < 4 && Unpack(PackedCycle(s)[k]) == StateDef(i)
    ensures forall j: nat :: j < 4 && Unpack(PackedCycle(s)[j]) == StateDef(i) ==> j == k
  {
    hide PackedCycle, Unpack, Sequence, StateDef;
    var ids := Sequence(s.seqIndex);
    SequencesAreOrders(s.seqIndex);
    k := PlaceOf(ids, i);
    forall j: nat | j < 4
      ensures Unpack(PackedCycle(s)[j]) == StateDef(ids[j])
      ensures StateDef(ids[j]) == StateDef(i) ==> j == k
    {
      CycleShowsSequence(s, j);
      if StateDef(ids[j]) == StateDef(i) {
        DifferentBridges(ids[j], i);
      }
    }
  }

  lemma PlaceOf(ids: seq<int>, i: int) returns (k: nat)
    requires |ids| == 4 && 0 <= i < 4 && forall k :: 0 <= k < 4 ==> 0 <= ids[k] < 4
    requires forall j, k :: 0 <= j < k < 4 ==> ids[j] != ids[k]
    ensures k < 4 && ids[k] == i
  {
    k := if ids[0] == i then 0 else if ids[1] == i then 1 else if ids[2] == i then 2 else 3;
  }

  lemma DifferentBridges(i: int, j: int)
    requires 0 <= i < 4 && 0 <= j < 4 && StateDef(i) == StateDef(j)
    ensures i == j
  {
  }

  /** The cycle the Pi programs is always one the firmware accepts, and the engine's unpacked
      labels are the states that were packed. */
  lemma PackedCycleAccepted(s: Settings)
    requires s.Valid()
    ensures ValidCycle(PackedCycle(s))
  {
  }

  lemma StateConducts(i: int)
    requires 0 <= i <= 5
    ensures Unpack(Pack(StateDef(i))).Conducting() <==> i != 5
  {
    PackRoundTrip(StateDef(i));
  }

  /** Every state of the cycle conducts, except when sequence 0 (all off) is the one selected. */
  lemma ConductsUnlessOff(s: Settings)
    requires s.Valid()
    ensures AllConducting(PackedCycle(s)) <==> s.pulse || s.seqIndex != 0
    ensures !AllConducting(PackedCycle(s)) ==>
      forall i :: 0 <= i < |PackedCycle(s)| ==> !Unpack(PackedCycle(s)[i]).Conducting()
  {
    hide Pack, Unpack;
    forall i | 0 <= i <= 5
      ensures Unpack(Pack(StateDef(i))).Conducting() <==> i != 5
    {
      StateConducts(i);
    }
    hide StateDef;
    var c := PackedCycle(s);
    if s.pulse {
      assert c[0] == Pack(StateDef(0)) && c[1] == Pack(StateDef(3));
    } else {
      assert forall i :: 0 <= i < 4 ==> c[i] == Pack(StateDef(Sequence(s.seqIndex)[i]));
    }
  }

  /** All states of the cycle conduct, or none does. */
  predicate OneKind(cycle: seq<int>) {
    forall i :: 0 <= i < |cycle| ==> (Unpack(cycle[i]).Conducting() <==> Unpack(cycle[0]).Conducting())
  }

  lemma OneIsEnough(cycle: seq<int>, k: nat)
    requires OneKind(cycle) && k < |cycle| && Unpack(cycle[k]).Conducting()
    ensures AllConducting(cycle)
  {
    hide Unpack;
  }

  /** The cycle of any settings is of one kind: one conducting state is enough to know the rest. */
  lemma ProgrammedIsOneKind(s: Settings)
    requires s.Valid()
    ensures OneKind(PackedCycle(s))
  {
    hide PackedCycle, Unpack;
    ConductsUnlessOff(s);
  }

  /** In the allowed frequency range the 50 us floor never binds, the firmware accepts the period
      and the pulse cycle lasts as long as the four-step cycle, up to 2 us of truncation. */
  lemma PeriodArithmetic(index: int, freq: real)
    requires Settings(index, freq, false).Valid()
    ensures var four, two := PeriodUs(Settings(index, freq, false)), PeriodUs(Settings(index, freq, true));
      && 250 <= four <= 5_000_000 && 500 <= two <= 10_000_000
      && (2 * two == 4 * four || 2 * two == 4 * four + 2)
      && (2 * two) as real <= 1000000.0 / freq * 2.0 < (2 * two + 2) as real
  {
    var x := (1.0 / freq) / 2.0 * 1000000.0;
    var y := (1.0 / freq) / 2.0 * 2.0 * 1000000.0;
    assert y == 2.0 * x;
    assert 1.0 / freq >= 1.0 / 2000.0 by { Reciprocal(freq, 2000.0); }
    assert 1.0 / freq <= 10.0 by { Reciprocal(0.1, freq); }
  }

  lemma Reciprocal(a: real, b: real)
    requires 0.0 < a <= b
    ensures 1.0 / b <= 1.0 / a
  {
    var p, q := 1.0 / a, 1.0 / b;
    assert p * a == 1.0 && q * b == 1.0 && p > 0.0;
    assert p * (b - a) >= 0.0;
    assert (p - q) * b >= 0.0;
    Sign(p - q, b);
  }

  lemma Sign(x: real, b: real)
    requires b > 0.0
    ensures x * b >= 0.0 <==> x >= 0.0
  {
    if x < 0.0 {
      assert (-x) * b > 0.0;
    }
  }
}
