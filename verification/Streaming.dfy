/** streaming.c and the T, A, V and Z commands of cmd_parser.c.

    The rate of the sensor stream under its cap, and the decimation of bus-voltage reads.
 */
module Streaming {
  import Firmware

  const CONVERSION_US := 332 + 332
  const AVERAGES := [1, 4, 16, 64, 128, 256, 512, 1024]

  /** A tick-driven line: when it was sent and the period in force. */
  datatype Emit = Emit(t: int, periodUs: nat, capUs: nat)

  /** The module's variables, with the sensors' averaging count. The last three record history: sweeps and
      bus reads since bus decimation was last set, and the tick-driven lines sent. */
  datatype Stream = Stream(hz: real, periodUs: nat, lastEmit: int, busEvery: nat, busCounter: nat,
                           measuredUs: nat, avg: nat, sweeps: nat, busReads: nat, log: seq<Emit>)

  const BOOTED := Stream(0.0, 0, 0, 1, 0, 0, 4, 0, 0, [])

  // ----- one sweep --------------------------------------------------------------------------

  predicate ReadsBus(s: Stream) {
    s.busEvery > 0 && s.busCounter + 1 >= s.busEvery
  }

  function Swept(s: Stream): Stream {
    s.(busCounter := if s.busEvery == 0 then s.busCounter else if ReadsBus(s) then 0 else s.busCounter + 1,
       sweeps := s.sweeps + 1,
       busReads := if ReadsBus(s) then s.busReads + 1 else s.busReads)
  }

  function SweptTimes(s: Stream, k: nat): Stream {
    if k == 0 then s else Swept(SweptTimes(s, k - 1))
  }

  // ----- rate -------------------------------------------------------------------------------

  function Larger(a: nat, b: nat): nat {
    if a > b then a else b
  }

  /** The shortest period allowed, in microseconds: what an emit was measured to cost, or an estimate. */
  function CapUs(s: Stream): (us: nat)
    ensures us >= 1
  {
    if s.measuredUs > 0 then s.measuredUs
    else
      var i2c := 240 + if s.busEvery > 0 then 240 / s.busEvery else 0;
      Larger(s.avg * CONVERSION_US, i2c) + 200
  }

  function MaxHz(s: Stream): real {
    1000000.0 / CapUs(s) as real
  }

  function PeriodFor(hz: real): nat
    requires hz > 0.0
  {
    var us := (1000000.0 / hz).Floor;
    if us <= 0 then 1 else us
  }

  function Rated(s: Stream, hz: real, now: int): Stream {
    if hz <= 0.0 then s.(hz := 0.0, periodUs := 0)
    else
      var actual := if hz > MaxHz(s) then MaxHz(s) else hz;
      MaxHzPositive(s);
      s.(hz := actual, periodUs := PeriodFor(actual), lastEmit := now)
  }

  lemma MaxHzPositive(s: Stream)
    ensures MaxHz(s) > 0.0
  {
    var d := CapUs(s) as real;
    assert d > 0.0;
    PositiveQuotient(d);
  }

  lemma PositiveQuotient(d: real)
    requires d > 0.0
    ensures 1000000.0 / d > 0.0
  {
  }

  function Reclamped(s: Stream, now: int): Stream {
    if s.hz > MaxHz(s) then Rated(s, MaxHz(s), now) else s
  }

  // ----- commands and ticks -----------------------------------------------------------------

  function Averaged(s: Stream, avg: int, now: int): Stream {
    var a := avg % 0x1_0000;
    if a in AVERAGES then Reclamped(s.(avg := a, measuredUs := 0), now) else s
  }

  function Decimated(s: Stream, every: int, now: int): Stream {
    if every < 0 || every > 1000 then s
    else Reclamped(s.(busEvery := every, busCounter := 0, sweeps := 0, busReads := 0, measuredUs := 0), now)
  }

  /** How many rounds Z makes: its argument as an unsigned number, kept within 10..500. */
  function Rounds(n: int): (r: nat)
    ensures 10 <= r <= 500
  {
    var u := n % 0x1_0000_0000;
    if u < 10 then 10 else if u > 500 then 500 else u
  }

  /** A 64-bit difference of times divided by the number of rounds, in 32 bits. */
  function Average(tookUs: nat, rounds: nat): nat
    requires rounds > 0
  {
    (tookUs / rounds) % 0x1_0000_0000
  }

  /** Z: two rounds of sweeps, the average cost of a line in the first, which took `tookUs`, and the
      former rate again, kept below the new cap. */
  function Profiled(s: Stream, n: int, tookUs: nat, now: int): Stream {
    var t := SweptTimes(s.(hz := 0.0, periodUs := 0), 2 * Rounds(n)).(measuredUs := Average(tookUs, Rounds(n)));
    if s.hz > 0.0 then Rated(t, s.hz, now) else t
  }

  predicate Due(s: Stream, now: int) {
    s.periodUs > 0 && now - s.lastEmit >= s.periodUs
  }

  function Ticked(s: Stream, now: int): Stream {
    if Due(s, now) then
      Swept(s.(lastEmit := now, log := s.log + [Emit(now, s.periodUs, CapUs(s))]))
    else s
  }

  datatype Event = T(hz: real) | A(avg: int) | V(every: int) | Z(n: int, tookUs: nat) | Tick

  function After(s: Stream, e: Event, now: int): Stream {
    match e
    case T(hz) => Rated(s, hz, now)
    case A(avg) => Averaged(s, avg, now)
    case V(every) => Decimated(s, every, now)
    case Z(n, took) => Profiled(s, n, took, now)
    case Tick => Ticked(s, now)
  }

  /** Events in order, each with its time. */
  function Run(s: Stream, es: seq<(Event, int)>): Stream
    decreases |es|
  {
    if es == [] then s else Run(After(s, es[0].0, es[0].1), es[1..])
  }

  ghost predicate InOrder(es: seq<(Event, int)>, from: int) {
    (forall k :: 0 <= k < |es| ==> from <= es[k].1) && forall j, k :: 0 <= j < k < |es| ==> es[j].1 <= es[k].1
  }

  // ----- invariants -------------------------------------------------------------------------

  /** The stream is off, or its period is that of its rate. */
  ghost predicate RateMatches(s: Stream) {
    s.hz >= 0.0 && (s.hz == 0.0 <==> s.periodUs == 0) && (s.hz > 0.0 ==> s.periodUs == PeriodFor(s.hz))
  }

  /** The rate is within the cap, and the period at least the shortest one allowed. */
  ghost predicate WithinCap(s: Stream) {
    RateMatches(s) && s.hz <= MaxHz(s) && (s.hz > 0.0 ==> s.periodUs >= CapUs(s))
  }

  /** Every k sweeps after the decimation was set to n make exactly k / n bus reads; none when it is 0. */
  ghost predicate Decimates(s: Stream) {
    if s.busEvery == 0 then s.busReads == 0
    else s.busCounter < s.busEvery && s.sweeps == s.busReads * s.busEvery + s.busCounter
  }

  /** Each tick-driven line comes at least its period, and that at least the cap's, after the one before. */
  ghost predicate Spaced(s: Stream) {
    && (forall k :: 0 <= k < |s.log| ==> s.log[k].periodUs >= s.log[k].capUs >= 1)
    && (forall k :: 0 < k < |s.log| ==> s.log[k].t - s.log[k - 1].t >= s.log[k].periodUs)
    && (s.log != [] ==> s.log[|s.log| - 1].t <= s.lastEmit)
  }

  lemma PeriodWithinCap(hz: real, capUs: nat)
    requires capUs >= 1 && 0.0 < hz <= 1000000.0 / capUs as real
    ensures PeriodFor(hz) >= capUs
  {
    var c := capUs as real;
    QuotientFlip(hz, c);
    FloorAtLeast(1000000.0 / hz, capUs);
  }

  lemma QuotientFlip(hz: real, c: real)
    requires c >= 1.0 && 0.0 < hz <= 1000000.0 / c
    ensures 1000000.0 / hz >= c
  {
    var q := 1000000.0 / c;
    assert q * c == 1000000.0;
    Scaled(hz, q, c);
    DivideBoth(c, hz);
  }

  lemma Scaled(a: real, b: real, c: real)
    requires a <= b && c >= 0.0
    ensures a * c <= b * c
  {
  }

  lemma DivideBoth(c: real, hz: real)
    requires hz > 0.0 && hz * c <= 1000000.0
    ensures c <= 1000000.0 / hz
  {
    var q := 1000000.0 / hz;
    assert q * hz == 1000000.0;
    if c > q {
      assert (c - q) * hz > 0.0;
    }
  }

  lemma FloorAtLeast(q: real, n: nat)
    requires q >= n as real
    ensures q.Floor >= n
  {
  }

  lemma RatedIsWithinCap(s: Stream, hz: real, now: int)
    ensures WithinCap(Rated(s, hz, now))
    ensures Rated(s, hz, now) == s.(hz := Rated(s, hz, now).hz, periodUs := Rated(s, hz, now).periodUs,
                                    lastEmit := Rated(s, hz, now).lastEmit)
    ensures Rated(s, hz, now).lastEmit in {now, s.lastEmit}
    ensures hz > 0.0 ==> Rated(s, hz, now).lastEmit == now
  {
    MaxHzPositive(s);
    var r := Rated(s, hz, now);
    if hz > 0.0 {
      PeriodWithinCap(r.hz, CapUs(s));
    }
  }

  /** The cap does not depend on the rate or on the history. */
  lemma SweepKeeps(s: Stream)
    ensures Decimates(s) ==> Decimates(Swept(s))
    ensures WithinCap(s) ==> WithinCap(Swept(s))
    ensures CapUs(Swept(s)) == CapUs(s)
  {
    hide PeriodFor;
    if s.busEvery > 0 && ReadsBus(s) && Decimates(s) {
      assert (s.busReads + 1) * s.busEvery == s.busReads * s.busEvery + s.busEvery;
    }
  }

  lemma {:induction false} SweepsKeep(s: Stream, k: nat)
    ensures Decimates(s) ==> Decimates(SweptTimes(s, k))
    ensures SweptTimes(s, k) == s.(busCounter := SweptTimes(s, k).busCounter, sweeps := s.sweeps + k,
                                   busReads := SweptTimes(s, k).busReads)
  {
    hide Decimates;
    if k == 0 {
    } else {
      SweepsKeep(s, k - 1);
      SweepKeeps(SweptTimes(s, k - 1));
    }
  }

  ghost predicate Good(s: Stream) {
    WithinCap(s) && Decimates(s) && Spaced(s)
  }

  lemma RatedKeeps(s: Stream, hz: real, now: int)
    requires Decimates(s) && Spaced(s) && now >= s.lastEmit
    ensures Good(Rated(s, hz, now)) && Rated(s, hz, now).lastEmit <= now
  {
    hide PeriodFor, WithinCap, Rated, CapUs;
    RatedIsWithinCap(s, hz, now);
  }

  lemma ReclampedKeeps(s: Stream, now: int)
    requires Decimates(s) && Spaced(s) && now >= s.lastEmit
    ensures RateMatches(s) ==> Good(Reclamped(s, now)) && Reclamped(s, now).lastEmit <= now
  {
    hide Spaced, Decimates;
    if s.hz > MaxHz(s) {
      RatedKeeps(s, MaxHz(s), now);
    } else if s.hz > 0.0 {
      PeriodWithinCap(s.hz, CapUs(s));
    }
  }

  lemma ProfiledKeeps(s: Stream, n: int, tookUs: nat, now: int)
    requires Good(s) && now >= s.lastEmit
    ensures Good(Profiled(s, n, tookUs, now)) && Profiled(s, n, tookUs, now).lastEmit <= now
  {
    hide PeriodFor, Rated, CapUs, Swept, MaxHz;
    var off := s.(hz := 0.0, periodUs := 0);
    SweepsKeep(off, 2 * Rounds(n));
    var t := SweptTimes(off, 2 * Rounds(n)).(measuredUs := Average(tookUs, Rounds(n)));
    if s.hz > 0.0 {
      RatedKeeps(t, s.hz, now);
    } else {
      MaxHzPositive(t);
    }
  }

  lemma TickedKeeps(s: Stream, now: int)
    requires Good(s) && now >= s.lastEmit
    ensures Good(Ticked(s, now)) && Ticked(s, now).lastEmit <= now
  {
    hide PeriodFor, MaxHz;
    if Due(s, now) {
      var t := s.(lastEmit := now, log := s.log + [Emit(now, s.periodUs, CapUs(s))]);
      assert CapUs(t) == CapUs(s) && MaxHz(t) == MaxHz(s) by { SameCap(s, t); }
      SweepKeeps(t);
      assert Spaced(t);
      assert Swept(t).log == t.log && Swept(t).lastEmit == now;
    }
  }

  lemma SameCap(s: Stream, t: Stream)
    requires s.measuredUs == t.measuredUs && s.busEvery == t.busEvery && s.avg == t.avg
    ensures CapUs(t) == CapUs(s) && MaxHz(t) == MaxHz(s)
  {
  }

  lemma AfterKeeps(s: Stream, e: Event, now: int)
    requires Good(s) && now >= s.lastEmit
    ensures Good(After(s, e, now)) && After(s, e, now).lastEmit <= now
  {
    hide PeriodFor, Rated, Reclamped, Swept, MaxHz, CapUs, Spaced, Ticked, Profiled;
    match e {
      case T(hz) => RatedKeeps(s, hz, now);
      case A(avg) =>
        var t := s.(avg := avg % 0x1_0000, measuredUs := 0);
        SpacedAlike(s, t);
        ReclampedKeeps(t, now);
      case V(every) =>
        if 0 <= every <= 1000 {
          var t := s.(busEvery := every, busCounter := 0, sweeps := 0, busReads := 0, measuredUs := 0);
          SpacedAlike(s, t);
          ReclampedKeeps(t, now);
        }
      case Z(n, took) => ProfiledKeeps(s, n, took, now);
      case Tick => TickedKeeps(s, now);
    }
  }

  lemma SpacedAlike(s: Stream, t: Stream)
    requires Spaced(s) && t.log == s.log && t.lastEmit == s.lastEmit
    ensures Spaced(t)
  {
  }

  /** Over any run of commands and ticks in time order: the rate stays within the current cap, bus reads
      stay decimated, and tick-driven lines stay at least their period apart. */
  lemma {:induction false} RunKeeps(s: Stream, es: seq<(Event, int)>, from: int)
    requires Good(s) && s.lastEmit <= from && InOrder(es, from)
    ensures Good(Run(s, es))
    decreases |es|
  {
    hide Good, After;
    if es == [] {
    } else {
      AfterKeeps(s, es[0].0, es[0].1);
      assert forall k :: 0 <= k < |es[1..]| ==> es[1..][k] == es[k + 1];
      RunKeeps(After(s, es[0].0, es[0].1), es[1..], es[0].1);
    }
  }

  lemma BootedIsGood()
    ensures Good(BOOTED) && BOOTED.lastEmit == 0
  {
    MaxHzPositive(BOOTED);
  }

  lemma RunFromBoot(es: seq<(Event, int)>)
    requires InOrder(es, 0)
    ensures Good(Run(BOOTED, es))
  {
    hide *;
    BootedIsGood();
    RunKeeps(BOOTED, es, 0);
  }

  // ----- what is granted, and when ----------------------------------------------------------

  /** The shortest period allowed is what a line was measured to take, and until then 200 us more than the
      longer of the conversions (664 us for each averaged sample) and the bus transfers (240 us, and another
      240 us for each bus read, spread over the sweeps). */
  lemma CapIsTheLongest(s: Stream)
    ensures s.measuredUs > 0 ==> CapUs(s) == s.measuredUs
    ensures s.measuredUs == 0 ==>
      var conversions, transfers := 664 * s.avg, if s.busEvery == 0 then 240 else 240 + 240 / s.busEvery;
      && CapUs(s) >= conversions + 200 && CapUs(s) >= transfers + 200
      && (CapUs(s) == conversions + 200 || CapUs(s) == transfers + 200)
    ensures MaxHz(s) * CapUs(s) as real == 1000000.0
  {
    MaxHzIs(s);
  }

  lemma MaxHzIs(s: Stream)
    ensures MaxHz(s) * CapUs(s) as real == 1000000.0
  {
    var c := CapUs(s) as real;
    var q := 1000000.0 / c;
    assert q * c == 1000000.0;
  }

  /** The rate a command asks for: T names it, the others leave it as it is. */
  function AskedRate(s: Stream, e: Event): real {
    if e.T? then (if e.hz > 0.0 then e.hz else 0.0) else s.hz
  }

  /** Every command grants exactly the rate asked for, or the cap if that is lower. */
  lemma RateIsGranted(s: Stream, e: Event, now: int)
    requires Good(s)
    ensures var (r, asked) := (After(s, e, now), AskedRate(s, e));
      r.hz == if asked <= MaxHz(r) then asked else MaxHz(r)
  {
    hide CapUs, PeriodFor, Swept, SweptTimes;
    MaxHzPositive(s);
    match e {
      case T(hz) => SameCap(s, After(s, e, now));
      case A(avg) =>
        var t := s.(avg := avg % 0x1_0000, measuredUs := 0);
        MaxHzPositive(t);
        SameCap(t, Reclamped(t, now));
      case V(every) =>
        var t := s.(busEvery := if 0 <= every then every else 0,
                    busCounter := 0, sweeps := 0, busReads := 0, measuredUs := 0);
        MaxHzPositive(t);
        SameCap(t, Reclamped(t, now));
      case Z(n, took) =>
        var off := s.(hz := 0.0, periodUs := 0);
        SweepsKeep(off, 2 * Rounds(n));
        var t := SweptTimes(off, 2 * Rounds(n)).(measuredUs := Average(took, Rounds(n)));
        MaxHzPositive(t);
        SameCap(t, Profiled(s, n, took, now));
      case Tick =>
        if Due(s, now) {
          var t := s.(lastEmit := now, log := s.log + [Emit(now, s.periodUs, CapUs(s))]);
          SweptIsIdle(t);
          SameCap(s, Swept(t));
        }
    }
  }

  lemma SweptIsIdle(s: Stream)
    ensures var t := Swept(s);
      t == s.(busCounter := t.busCounter, sweeps := t.sweeps, busReads := t.busReads)
  {
  }

  /** A million times the share of a second's cycles that fits into so many microseconds. */
  function Cycles(us: nat, hz: real): real {
    us as real * hz
  }

  /** A period is the whole microseconds in one cycle of the rate, and at least one. */
  lemma PeriodIsOneCycle(hz: real)
    requires hz > 0.0
    ensures var p := PeriodFor(hz);
      p >= 1 && (Cycles(p, hz) <= 1000000.0 || p == 1) && Cycles(p + 1, hz) > 1000000.0
  {
    hide *;
    var q := PeriodFloor(hz);
    CyclesIn(PeriodFor(hz), q, hz);
    CyclesIn(PeriodFor(hz) + 1, q, hz);
  }

  lemma CyclesIn(us: nat, q: real, hz: real)
    requires hz > 0.0 && q * hz == 1000000.0
    ensures us as real <= q ==> Cycles(us, hz) <= 1000000.0
    ensures us as real > q ==> Cycles(us, hz) > 1000000.0
  {
    if us as real <= q {
      Scaled(us as real, q, hz);
    } else {
      ScaledStrictly(q, us as real, hz);
    }
  }

  lemma PeriodFloor(hz: real) returns (q: real)
    requires hz > 0.0
    ensures var p := PeriodFor(hz);
      p >= 1 && (p as real <= q || p == 1) && q < (p + 1) as real
    ensures q * hz == 1000000.0
  {
    q := 1000000.0 / hz;
  }

  lemma ScaledStrictly(a: real, b: real, c: real)
    requires a < b && c > 0.0
    ensures a * c < b * c
  {
    assert (b - a) * c > 0.0;
  }

  /** A tick sends a line, stamped now, exactly when the stream is on and a period has passed since the last
      line or change of rate; so right after a tick none is overdue. */
  lemma LineExactlyWhenDue(s: Stream, now: int)
    ensures var r := Ticked(s, now);
      && (if s.periodUs > 0 && now - s.lastEmit >= s.periodUs
          then |r.log| == |s.log| + 1 && r.log[..|s.log|] == s.log && r.log[|s.log|].t == now && r.lastEmit == now
          else r == s)
      && r.periodUs == s.periodUs && (r.periodUs > 0 ==> now - r.lastEmit < r.periodUs)
  {
    hide CapUs, Swept;
    if Due(s, now) {
      SweptIsIdle(s.(lastEmit := now, log := s.log + [Emit(now, s.periodUs, CapUs(s))]));
    }
  }

  /** Z makes two rounds of sweeps, 10 to 500 each as asked, and takes for the cost of a line what one of the
      first round took on average. */
  lemma ProfileMeasures(s: Stream, n: int, tookUs: nat, now: int)
    requires tookUs < 10 * 0x1_0000_0000
    ensures var r := Profiled(s, n, tookUs, now);
      var rounds := (r.sweeps - s.sweeps) / 2;
      && r.sweeps == s.sweeps + 2 * rounds && 10 <= rounds <= 500
      && (10 <= n <= 500 ==> rounds == n) && (0 <= n < 10 ==> rounds == 10)
      && (500 < n < 0x1_0000_0000 ==> rounds == 500)
      && r.measuredUs * rounds <= tookUs < (r.measuredUs + 1) * rounds
      && (r.avg, r.busEvery) == (s.avg, s.busEvery)
  {
    hide CapUs, PeriodFor, Swept, SweptTimes, MaxHz;
    var off := s.(hz := 0.0, periodUs := 0);
    var rounds := Rounds(n);
    SweepsKeep(off, 2 * rounds);
    AverageIs(tookUs, rounds);
  }

  lemma AverageIs(tookUs: nat, rounds: nat)
    requires tookUs < 10 * 0x1_0000_0000 && rounds >= 10
    ensures var m := Average(tookUs, rounds);
      m * rounds <= tookUs < (m + 1) * rounds
  {
    var q, r := tookUs / rounds, tookUs % rounds;
    assert tookUs == q * rounds + r;
    assert q * (rounds - 10) >= 0;
    Firmware.ModUnique(q, 0x1_0000_0000, 0, q);
  }

  /** A takes the averaging counts the sensors have and no other, V decimations from 0 to 1000; both forget
      the measured cost. */
  lemma SettingsTaken(s: Stream, avg: int, every: int, now: int)
    requires 0 <= avg < 0x1_0000
    ensures var r := Averaged(s, avg, now);
      if avg in {1, 4, 16, 64, 128, 256, 512, 1024}
      then r.avg == avg && r.measuredUs == 0 && r.busEvery == s.busEvery else r == s
    ensures var r := Decimated(s, every, now);
      if 0 <= every <= 1000
      then r.busEvery == every && r.busCounter == 0 && r.measuredUs == 0 && r.avg == s.avg else r == s
  {
    hide CapUs, PeriodFor, MaxHz;
    Firmware.ModUnique(avg, 0x1_0000, 0, avg);
  }

  /** After V n, any k sweeps make exactly k / n bus reads. */
  lemma ReadsAfterDecimation(s: Stream, n: nat, now: int, k: nat)
    requires 1 <= n <= 1000
    ensures SweptTimes(Decimated(s, n, now), k).busReads == k / n
  {
    hide CapUs, PeriodFor, Swept, SweptTimes, MaxHz;
    var t := Decimated(s, n, now);
    assert t.busEvery == n && t.busCounter == 0 && t.sweeps == 0 && t.busReads == 0;
    SweepsKeep(t, k);
    var u := SweptTimes(t, k);
    Firmware.ModUnique(k, n, u.busReads, u.busCounter);
  }

  // ----- the module's variables --------------------------------------------------------------

  class Streaming {
    var hz: real
    var periodUs: nat
    var lastEmit: int
    var busEvery: nat
    var busCounter: nat
    var measuredUs: nat
    var avg: nat
    ghost var sweeps: nat
    ghost var busReads: nat
    ghost var log: seq<Emit>

    ghost function View(): Stream
      reads this
    {
      Stream(hz, periodUs, lastEmit, busEvery, busCounter, measuredUs, avg, sweeps, busReads, log)
    }

    constructor ()
      ensures View() == BOOTED
    {
      hz, periodUs, lastEmit, busEvery, busCounter, measuredUs, avg := 0.0, 0, 0, 1, 0, 0, 4;
      sweeps, busReads, log := 0, 0, [];
    }

    /** Decides whether the sweep about to start reads the bus voltages. */
    method DecideReadBus() returns (readBus: bool)
      modifies this`busCounter, this`sweeps, this`busReads
      ensures View() == Swept(old(View())) && readBus == ReadsBus(old(View()))
    {
      sweeps := sweeps + 1;
      if busEvery == 0 {
        return false;
      }
      busCounter := busCounter + 1;
      if busCounter >= busEvery {
        busCounter := 0;
        busReads := busReads + 1;
        return true;
      }
      return false;
    }

    method StreamingMaxHz() returns (cap: real)
      ensures cap == MaxHz(View())
    {
      if measuredUs > 0 {
        return 1000000.0 / measuredUs as real;
      }
      var conv := avg * CONVERSION_US;
      var i2c := 240;
      if busEvery > 0 {
        i2c := i2c + 240 / busEvery;
      }
      var period := (if conv > i2c then conv else i2c) + 200;
      return 1000000.0 / period as real;
    }

    method SetRateHz(rate: real, now: int) returns (actual: real)
      modifies this`hz, this`periodUs, this`lastEmit
      ensures View() == Rated(old(View()), rate, now) && actual == hz
    {
      if rate <= 0.0 {
        hz, periodUs := 0.0, 0;
        return 0.0;
      }
      var cap := StreamingMaxHz();
      actual := if rate > cap then cap else rate;
      MaxHzPositive(View());
      hz := actual;
      var us := (1000000.0 / actual).Floor;
      if us <= 0 {
        us := 1;
      }
      periodUs := us;
      lastEmit := now;
    }

    method ClampToCap(now: int)
      modifies this`hz, this`periodUs, this`lastEmit
      ensures View() == Reclamped(old(View()), now)
    {
      hide Rated, MaxHz;
      var cap := StreamingMaxHz();
      if hz > cap {
        var _ := SetRateHz(cap, now);
      }
    }

    /** A: an averaging count the sensors have. */
    method CmdA(count: int, now: int) returns (ok: bool)
      modifies this`avg, this`measuredUs, this`hz, this`periodUs, this`lastEmit
      ensures View() == Averaged(old(View()), count, now) && ok == (count % 0x1_0000 in AVERAGES)
    {
      hide Reclamped;
      var a := count % 0x1_0000;
      if a !in AVERAGES {
        return false;
      }
      avg := a;
      measuredUs := 0;
      ClampToCap(now);
      return true;
    }

    /** V: read the bus voltages on every n-th sweep, or never. */
    method CmdV(every: int, now: int) returns (ok: bool)
      modifies this
      ensures View() == Decimated(old(View()), every, now) && ok == (0 <= every <= 1000)
    {
      hide Reclamped;
      if every < 0 || every > 1000 {
        return false;
      }
      busEvery, busCounter, sweeps, busReads := every, 0, 0, 0;
      measuredUs := 0;
      ClampToCap(now);
      return true;
    }

    /** Z: measure what an emit costs, between the clock readings t0 and t1; streaming is suspended
        meanwhile. */
    method Profile(count: int, t0: nat, t1: nat, now: int)
      requires t0 <= t1
      modifies this
      ensures View() == Profiled(old(View()), count, t1 - t0, now)
    {
      hide Rated, Swept;
      var n := count % 0x1_0000_0000;
      if n < 10 {
        n := 10;
      }
      if n > 500 {
        n := 500;
      }
      var before := hz;
      hz, periodUs := 0.0, 0;
      ghost var quiet := View();
      for i := 0 to n
        invariant View() == SweptTimes(quiet, i)
      {
        var _ := DecideReadBus();
      }
      for i := 0 to n
        invariant View() == SweptTimes(quiet, n + i)
      {
        var _ := DecideReadBus();
      }
      measuredUs := ((t1 - t0) / n) % 0x1_0000_0000;
      if before > 0.0 {
        var _ := SetRateHz(before, now);
      }
    }

    /** One pass of the main loop: a line if one is due, stamped as the new reference. */
    method StreamingTick(now: int) returns (emitted: bool)
      modifies this`lastEmit, this`log, this`busCounter, this`sweeps, this`busReads
      ensures View() == Ticked(old(View()), now) && emitted == Due(old(View()), now)
    {
      hide Swept, CapUs;
      if periodUs == 0 || now - lastEmit < periodUs {
        return false;
      }
      log := log + [Emit(now, periodUs, CapUs(View()))];
      lastEmit := now;
      var _ := DecideReadBus();
      return true;
    }
  }
}
