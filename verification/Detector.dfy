/** cycler_detector.py: a debounced classifier of the cycler, with hysteresis on the constant-voltage phase. */
module CyclerDetector {
  import Slope

  datatype CyclerState = UNKNOWN | CC_CHARGE | CV_CHARGE | REST | DISCHARGE

  datatype Thresholds = Thresholds(
    rest: real, chargeMin: real, dischargeMin: real, declineRate: real, plateau: real,
    dropRatio: real, exitSlope: real, splitWindowS: real, cvWindowS: real, debounce: int)

  datatype Sample = Sample(t: real, i: real, v: real)

  const CV_WINDOW_MAX: nat := 300

  // ----- windows ----------------------------------------------------------------------------

  /** A deque with a maximum length, after one append. */
  function Pushed(w: seq<Sample>, s: Sample, max: nat): (r: seq<Sample>)
    ensures |r| <= max || |r| <= |w|
    ensures max > 0 ==> r != [] && r[|r| - 1] == s
  {
    if |w| < max then w + [s]
    else if max == 0 then w
    else w[|w| + 1 - max..] + [s]
  }

  function Since(w: seq<Sample>, cutoff: real): seq<Sample> {
    if w == [] then []
    else if w[0].t >= cutoff then [w[0]] + Since(w[1..], cutoff)
    else Since(w[1..], cutoff)
  }

  function Times(w: seq<Sample>): (r: seq<real>)
    ensures |r| == |w| && forall k :: 0 <= k < |w| ==> r[k] == w[k].t
  {
    seq(|w|, k requires 0 <= k < |w| => w[k].t)
  }

  function Currents(w: seq<Sample>): (r: seq<real>)
    ensures |r| == |w| && forall k :: 0 <= k < |w| ==> r[k] == w[k].i
  {
    seq(|w|, k requires 0 <= k < |w| => w[k].i)
  }

  function Voltages(w: seq<Sample>): (r: seq<real>)
    ensures |r| == |w| && forall k :: 0 <= k < |w| ==> r[k] == w[k].v
  {
    seq(|w|, k requires 0 <= k < |w| => w[k].v)
  }

  ghost predicate Ordered(w: seq<Sample>) {
    forall j, k :: 0 <= j < k < |w| ==> w[j].t <= w[k].t
  }

  ghost predicate NeverFalls(w: seq<Sample>) {
    forall j, k :: 0 <= j < k < |w| ==> w[j].i <= w[k].i
  }

  ghost predicate NeverRises(w: seq<Sample>) {
    forall j, k :: 0 <= j < k < |w| ==> w[j].i >= w[k].i
  }

  /** On samples in time order the filter keeps a suffix. */
  lemma {:induction false} SinceIsSuffix(w: seq<Sample>, cutoff: real) returns (k: nat)
    requires Ordered(w)
    ensures k <= |w| && Since(w, cutoff) == w[k..]
    ensures forall j :: 0 <= j < |w| ==> (w[j].t >= cutoff <==> j >= k)
  {
    if w == [] {
      k := 0;
    } else if w[0].t >= cutoff {
      var rest := SinceIsSuffix(w[1..], cutoff);
      assert |w| > 1 ==> w[1..][0].t >= cutoff;
      assert rest == 0 && w[1..][0..] == w[1..];
      k := 0;
    } else {
      var rest := SinceIsSuffix(w[1..], cutoff);
      assert forall j :: 0 < j < |w| ==> w[j] == w[1..][j - 1];
      k := rest + 1;
    }
  }

  lemma SinceKeeps(w: seq<Sample>, cutoff: real)
    requires Ordered(w)
    ensures Ordered(Since(w, cutoff)) && |Since(w, cutoff)| <= |w|
    ensures NeverFalls(w) ==> NeverFalls(Since(w, cutoff))
    ensures NeverRises(w) ==> NeverRises(Since(w, cutoff))
  {
    var _ := SinceIsSuffix(w, cutoff);
  }

  // ----- classification ---------------------------------------------------------------------

  function Highest(xs: seq<real>): (m: real)
    requires xs != []
    ensures m in xs && forall k :: 0 <= k < |xs| ==> xs[k] <= m
  {
    if |xs| == 1 then xs[0]
    else
      var rest := Highest(xs[1..]);
      assert forall k :: 0 < k < |xs| ==> xs[k] == xs[1..][k - 1];
      if xs[0] > rest then xs[0] else rest
  }

  function Lowest(xs: seq<real>): (m: real)
    requires xs != []
    ensures m in xs && forall k :: 0 <= k < |xs| ==> m <= xs[k]
  {
    if |xs| == 1 then xs[0]
    else
      var rest := Lowest(xs[1..]);
      assert forall k :: 0 < k < |xs| ==> xs[k] == xs[1..][k - 1];
      if xs[0] < rest then xs[0] else rest
  }

  /** Slope of the current over a stretch of samples, with times counted from its first sample. */
  function CurrentSlope(w: seq<Sample>): real
    requires w != []
  {
    Slope.LinearSlope(Slope.Shifted(Times(w), w[0].t), Currents(w))
  }

  predicate Declining(th: Thresholds, recent: seq<Sample>, now: real) {
    var split := Since(recent, now - th.splitWindowS);
    |split| >= 3 && CurrentSlope(split) < th.declineRate
  }

  predicate Dropped(th: Thresholds, recent: seq<Sample>)
    requires recent != []
  {
    var peak := Highest(Currents(recent));
    peak > 0.0 && 1.0 - recent[|recent| - 1].i / peak >= th.dropRatio
  }

  predicate Plateau(th: Thresholds, recent: seq<Sample>)
    requires recent != []
  {
    Highest(Voltages(recent)) - Lowest(Voltages(recent)) < th.plateau
  }

  function One(b: bool): nat {
    if b then 1 else 0
  }

  predicate IsCvPhase(th: Thresholds, cvWindow: seq<Sample>, now: real) {
    var recent := Since(cvWindow, now - th.cvWindowS);
    |recent| >= 5
    && One(Declining(th, recent, now)) + One(Dropped(th, recent)) + One(Plateau(th, recent)) >= 2
  }

  predicate ShouldExitCv(th: Thresholds, cvWindow: seq<Sample>, now: real) {
    var recent := Since(cvWindow, now - th.splitWindowS);
    |recent| >= 5 && CurrentSlope(recent) > th.exitSlope
  }

  function Abs(x: real): real {
    if x < 0.0 then -x else x
  }

  function Classify(th: Thresholds, inCv: bool, cvWindow: seq<Sample>, i: real, now: real): CyclerState {
    if Abs(i) < th.rest then REST
    else if i < -th.dischargeMin then DISCHARGE
    else if i > th.chargeMin then
      if inCv then (if ShouldExitCv(th, cvWindow, now) then CC_CHARGE else CV_CHARGE)
      else if IsCvPhase(th, cvWindow, now) then CV_CHARGE
      else CC_CHARGE
    else UNKNOWN
  }

  /** The current alone decides whether a sample counts as charging. */
  predicate Charging(th: Thresholds, i: real) {
    Abs(i) >= th.rest && i >= -th.dischargeMin && i > th.chargeMin
  }

  /** The ranges of current that mean rest, discharge, and nothing that is known. */
  predicate InRange(th: Thresholds, i: real, c: CyclerState) {
    match c
    case REST => -th.rest < i < th.rest
    case DISCHARGE => (i <= -th.rest || i >= th.rest) && i < -th.dischargeMin
    case UNKNOWN => (i <= -th.rest || i >= th.rest) && -th.dischargeMin <= i <= th.chargeMin
    case _ => (i <= -th.rest || i >= th.rest) && -th.dischargeMin <= i && i > th.chargeMin
  }

  /** The current alone decides between rest, discharge, charging and unknown. */
  lemma RangesDecide(th: Thresholds, inCv: bool, w: seq<Sample>, i: real, now: real, c: CyclerState)
    requires c == REST || c == DISCHARGE || c == UNKNOWN
    ensures Classify(th, inCv, w, i, now) == c <==> InRange(th, i, c)
  {
    hide ShouldExitCv, IsCvPhase;
  }

  /** Too few samples in a window are no evidence: fewer than five in the CV window do not begin the phase,
      fewer than five in the split window do not end it, and fewer than three there are no decline. */
  lemma FewSamplesDecideNothing(th: Thresholds, w: seq<Sample>, i: real, now: real)
    ensures |Since(w, now - th.cvWindowS)| < 5 ==> Classify(th, false, w, i, now) != CV_CHARGE
    ensures |Since(w, now - th.splitWindowS)| < 5 ==> Classify(th, true, w, i, now) != CC_CHARGE
    ensures |Since(w, now - th.splitWindowS)| < 3 ==> !Declining(th, w, now)
  {
    hide CurrentSlope, Since, Dropped, Plateau;
  }

  lemma SlopeOfMonotone(w: seq<Sample>)
    requires Ordered(w) && w != []
    ensures NeverFalls(w) ==> CurrentSlope(w) >= 0.0
    ensures NeverRises(w) ==> CurrentSlope(w) <= 0.0
  {
    hide Slope.LinearSlope;
    Slope.ShiftInvariant(Times(w), Currents(w), w[0].t);
    Slope.SlopeSign(Times(w), Currents(w));
  }

  lemma NoDropWithoutFall(th: Thresholds, recent: seq<Sample>)
    requires recent != [] && NeverFalls(recent) && th.dropRatio > 0.0
    ensures !Dropped(th, recent)
  {
    var last := recent[|recent| - 1].i;
    assert Currents(recent)[|recent| - 1] == last;
    assert Highest(Currents(recent)) == last;
    if last > 0.0 {
      assert last / last == 1.0;
    }
  }

  /** Outside the phase, a current that never falls over the history looked at is never taken for
      constant-voltage charging, whatever the voltages. */
  lemma NoCvWhileCurrentNeverFalls(th: Thresholds, cvWindow: seq<Sample>, i: real, now: real)
    requires th.declineRate <= 0.0 && th.dropRatio > 0.0
    requires Ordered(cvWindow) && NeverFalls(Since(cvWindow, now - th.cvWindowS))
    ensures Classify(th, false, cvWindow, i, now) != CV_CHARGE
  {
    hide Since, CurrentSlope, Dropped, Plateau, NeverFalls, Ordered;
    var recent := Since(cvWindow, now - th.cvWindowS);
    SinceKeeps(cvWindow, now - th.cvWindowS);
    SinceKeeps(recent, now - th.splitWindowS);
    var split := Since(recent, now - th.splitWindowS);
    if split != [] {
      SlopeOfMonotone(split);
    }
    if recent != [] {
      NoDropWithoutFall(th, recent);
    }
  }

  /** Inside the phase, a current that never rises over the recent stretch is never taken for
      constant-current charging. */
  lemma NoExitWhileCurrentNeverRises(th: Thresholds, cvWindow: seq<Sample>, i: real, now: real)
    requires th.exitSlope >= 0.0
    requires Ordered(cvWindow) && NeverRises(Since(cvWindow, now - th.splitWindowS))
    ensures Classify(th, true, cvWindow, i, now) != CC_CHARGE
  {
    hide Since, CurrentSlope, NeverRises, Ordered;
    var recent := Since(cvWindow, now - th.splitWindowS);
    SinceKeeps(cvWindow, now - th.splitWindowS);
    if recent != [] {
      SlopeOfMonotone(recent);
    }
  }

  /** The current follows one straight line over samples that do not all share one time. */
  ghost predicate Straight(w: seq<Sample>, a: real, b: real) {
    Slope.OnLine(Times(w), Currents(w), a, b) && !Slope.AllEqual(Times(w))
  }

  lemma SlopeOfLine(w: seq<Sample>, a: real, b: real)
    requires w != [] && Straight(w, a, b)
    ensures CurrentSlope(w) == b
  {
    hide Slope.LinearSlope;
    Slope.ShiftInvariant(Times(w), Currents(w), w[0].t);
    Slope.ExactOnALine(Times(w), Currents(w), a, b);
  }

  /** Inside the phase, a charging current on a straight line ends the phase exactly when it climbs
      faster than the exit slope. */
  lemma ExitOnALine(th: Thresholds, cvWindow: seq<Sample>, i: real, now: real, a: real, b: real)
    requires Charging(th, i)
    requires var w := Since(cvWindow, now - th.splitWindowS); |w| >= 5 && Straight(w, a, b)
    ensures Classify(th, true, cvWindow, i, now) == if b > th.exitSlope then CC_CHARGE else CV_CHARGE
  {
    hide Since, CurrentSlope, Straight;
    SlopeOfLine(Since(cvWindow, now - th.splitWindowS), a, b);
  }

  /** Outside the phase, on a flat voltage, a charging current on a straight line that has not
      dropped far is taken for the phase exactly when it declines faster than the threshold. */
  lemma EntryOnALine(th: Thresholds, cvWindow: seq<Sample>, i: real, now: real, a: real, b: real)
    requires Charging(th, i)
    requires var recent := Since(cvWindow, now - th.cvWindowS);
      && |recent| >= 5 && !Dropped(th, recent) && Plateau(th, recent)
      && var split := Since(recent, now - th.splitWindowS);
      |split| >= 3 && Straight(split, a, b)
    ensures Classify(th, false, cvWindow, i, now) == if b < th.declineRate then CV_CHARGE else CC_CHARGE
  {
    hide Since, CurrentSlope, Straight, Dropped, Plateau;
    SlopeOfLine(Since(Since(cvWindow, now - th.cvWindowS), now - th.splitWindowS), a, b);
  }

  // ----- debounce ---------------------------------------------------------------------------

  datatype Debounce = Debounce(counter: nat, candidate: CyclerState, confirmed: CyclerState, inCv: bool)

  const FRESH := Debounce(0, UNKNOWN, UNKNOWN, false)

  function Debounced(s: Debounce, d: int, c: CyclerState): Debounce {
    var counter := if c == s.candidate then s.counter + 1 else 1;
    if counter >= d && c != s.confirmed then Debounce(counter, c, c, c == CV_CHARGE)
    else Debounce(counter, c, s.confirmed, s.inCv)
  }

  function After(cs: seq<CyclerState>, d: int): Debounce {
    if cs == [] then FRESH else Debounced(After(cs[..|cs| - 1], d), d, cs[|cs| - 1])
  }

  /** A count below one behaves as one. */
  function Needed(d: int): nat {
    if d < 1 then 1 else d
  }

  /** The last n of the first k candidates are the same value. */
  ghost predicate Held(cs: seq<CyclerState>, n: nat, k: nat) {
    1 <= n <= k <= |cs| && forall j :: k - n <= j < k ==> cs[j] == cs[k - 1]
  }

  /** The latest point at which a candidate had held long enough; 0 if there was none. */
  ghost function LatestHeld(cs: seq<CyclerState>, d: int): (k: nat)
    ensures k <= |cs|
    ensures k > 0 ==> Held(cs, Needed(d), k)
    ensures forall j: nat :: k < j <= |cs| ==> !Held(cs, Needed(d), j)
  {
    LatestUpTo(cs, d, |cs|)
  }

  ghost function LatestUpTo(cs: seq<CyclerState>, d: int, top: nat): (k: nat)
    requires top <= |cs|
    ensures k <= top
    ensures k > 0 ==> Held(cs, Needed(d), k)
    ensures forall j: nat :: k < j <= top ==> !Held(cs, Needed(d), j)
  {
    if top == 0 || Held(cs, Needed(d), top) then top else LatestUpTo(cs, d, top - 1)
  }

  /** What a detector confirms after a series of candidates. */
  ghost function Confirmed(cs: seq<CyclerState>, d: int): CyclerState {
    var k := LatestHeld(cs, d);
    if k == 0 then UNKNOWN else cs[k - 1]
  }

  /** The counter is the length of the run of equal candidates at the end. */
  lemma {:induction false} CounterIsTheRun(cs: seq<CyclerState>, d: int)
    ensures var s := After(cs, d);
      && s.counter <= |cs|
      && (cs == [] <==> s.counter == 0)
      && (cs != [] ==> s.candidate == cs[|cs| - 1] && forall n: nat :: Held(cs, n, |cs|) <==> 1 <= n <= s.counter)
  {
    if cs == [] {
    } else {
      var before, n0 := cs[..|cs| - 1], |cs| - 1;
      CounterIsTheRun(before, d);
      var s := After(cs, d);
      forall n: nat ensures Held(cs, n, |cs|) <==> 1 <= n <= s.counter {
        if before != [] && cs[n0] == before[n0 - 1] {
          if n >= 2 {
            assert Held(cs, n, |cs|) <==> Held(before, n - 1, n0);
          }
        } else if n >= 2 && n <= |cs| {
          assert cs[n0 - 1] != cs[n0];
        }
      }
    }
  }

  lemma {:induction false} LatestIsStable(cs: seq<CyclerState>, c: CyclerState, d: int, top: nat)
    requires top <= |cs|
    ensures LatestUpTo(cs + [c], d, top) == LatestUpTo(cs, d, top)
  {
    if top == 0 {
    } else {
      assert forall j :: 0 <= j < top ==> (cs + [c])[j] == cs[j];
      assert Held(cs + [c], Needed(d), top) <==> Held(cs, Needed(d), top);
      LatestIsStable(cs, c, d, top - 1);
    }
  }

  /** The confirmed state is the most recent candidate value to have held for the required number
      of consecutive feeds; the phase flag says exactly whether that value is CV_CHARGE. */
  lemma {:induction false} DebounceMeaning(cs: seq<CyclerState>, d: int)
    ensures After(cs, d).confirmed == Confirmed(cs, d)
    ensures After(cs, d).inCv <==> Confirmed(cs, d) == CV_CHARGE
  {
    if cs == [] {
    } else {
      var before, c := cs[..|cs| - 1], cs[|cs| - 1];
      DebounceMeaning(before, d);
      CounterIsTheRun(cs, d);
      assert cs == before + [c];
      LatestIsStable(before, c, d, |before|);
      assert Held(cs, Needed(d), |cs|) <==> After(cs, d).counter >= Needed(d);
    }
  }

  predicate ChangedAt(cs: seq<CyclerState>, d: int, k: nat)
    requires 1 <= k <= |cs|
  {
    After(cs[..k], d).confirmed != After(cs[..k - 1], d).confirmed
  }

  lemma ChangeMeansHeld(cs: seq<CyclerState>, d: int, k: nat)
    requires 1 <= k <= |cs| && ChangedAt(cs, d, k)
    ensures After(cs[..k], d).confirmed == cs[k - 1] && Held(cs, Needed(d), k)
  {
    assert cs[..k][..k - 1] == cs[..k - 1];
    CounterIsTheRun(cs[..k], d);
    assert Held(cs[..k], Needed(d), k);
  }

  lemma {:induction false} NoChangeWhileEqual(cs: seq<CyclerState>, d: int, a: nat, b: nat)
    requires 1 <= a <= b <= |cs| && After(cs[..a], d).confirmed == cs[a - 1]
    requires forall j :: a <= j < b ==> cs[j] == cs[a - 1]
    ensures After(cs[..b], d).confirmed == cs[a - 1]
    decreases b
  {
    if a == b {
    } else {
      NoChangeWhileEqual(cs, d, a, b - 1);
      assert cs[..b][..b - 1] == cs[..b - 1];
    }
  }

  /** Two changes of the confirmed state are at least the debounce count of feeds apart. */
  lemma ChangesAreSpaced(cs: seq<CyclerState>, d: int, a: nat, b: nat)
    requires 1 <= a < b <= |cs| && ChangedAt(cs, d, a) && ChangedAt(cs, d, b)
    ensures b - a >= Needed(d)
  {
    ChangeMeansHeld(cs, d, a);
    ChangeMeansHeld(cs, d, b);
    if b - a < Needed(d) {
      assert cs[a - 1] == cs[b - 1];
      NoChangeWhileEqual(cs, d, a, b - 1);
    }
  }

  // ----- whole runs -------------------------------------------------------------------------

  datatype State = State(cvWindow: seq<Sample>, debounce: Debounce)

  const START := State([], FRESH)

  /** What the sample x is classified as when fed in state s. */
  function CandidateFor(th: Thresholds, s: State, x: Sample): CyclerState {
    Classify(th, s.debounce.inCv, Pushed(s.cvWindow, x, CV_WINDOW_MAX), x.i, x.t)
  }

  function Fed(th: Thresholds, s: State, x: Sample): State {
    State(Pushed(s.cvWindow, x, CV_WINDOW_MAX), Debounced(s.debounce, th.debounce, CandidateFor(th, s, x)))
  }

  function FedAll(th: Thresholds, s: State, xs: seq<Sample>): State
    decreases |xs|
  {
    if xs == [] then s else FedAll(th, Fed(th, s, xs[0]), xs[1..])
  }

  /** What each sample of a run is classified as, given everything fed before it. */
  function Candidates(th: Thresholds, s: State, xs: seq<Sample>): (cs: seq<CyclerState>)
    ensures |cs| == |xs|
    decreases |xs|
  {
    if xs == [] then []
    else
      [CandidateFor(th, s, xs[0])] + Candidates(th, Fed(th, s, xs[0]), xs[1..])
  }

  lemma {:induction false} CandidateAt(th: Thresholds, s: State, xs: seq<Sample>, k: nat)
    requires k < |xs|
    ensures Candidates(th, s, xs)[k] == CandidateFor(th, FedAll(th, s, xs[..k]), xs[k])
    decreases k
  {
    hide CandidateFor, Fed;
    if k == 0 {
      assert xs[..0] == [];
    } else {
      assert xs[..k][1..] == xs[1..][..k - 1] && xs[..k][0] == xs[0];
      CandidateAt(th, Fed(th, s, xs[0]), xs[1..], k - 1);
    }
  }

  lemma {:induction false} RunDebounces(th: Thresholds, s: State, before: seq<CyclerState>, xs: seq<Sample>)
    requires s.debounce == After(before, th.debounce)
    ensures FedAll(th, s, xs).debounce == After(before + Candidates(th, s, xs), th.debounce)
    decreases |xs|
  {
    hide Classify, Pushed, Debounced;
    var cs := Candidates(th, s, xs);
    if xs == [] {
      assert before + cs == before;
    } else {
      assert (before + [cs[0]])[..|before|] == before;
      RunDebounces(th, Fed(th, s, xs[0]), before + [cs[0]], xs[1..]);
      assert before + cs == before + [cs[0]] + cs[1..];
    }
  }

  /** After any run the detector reports the latest classification to have held long enough, and
      looks for the end of the constant-voltage phase exactly when it reports that phase. */
  lemma RunMeaning(th: Thresholds, xs: seq<Sample>)
    ensures var r := FedAll(th, START, xs).debounce;
      && r.confirmed == Confirmed(Candidates(th, START, xs), th.debounce)
      && (r.inCv <==> r.confirmed == CV_CHARGE)
  {
    hide FedAll, Candidates, Confirmed;
    RunDebounces(th, START, [], xs);
    var cs := Candidates(th, START, xs);
    assert [] + cs == cs;
    DebounceMeaning(cs, th.debounce);
  }

  /** Rest or discharge is only ever reported after the debounce count of samples in a row in its range. */
  lemma ReportedWasHeld(th: Thresholds, xs: seq<Sample>) returns (k: nat)
    ensures var c := FedAll(th, START, xs).debounce.confirmed;
      c == REST || c == DISCHARGE ==>
        && Needed(th.debounce) <= k <= |xs|
        && forall j :: k - Needed(th.debounce) <= j < k ==> InRange(th, xs[j].i, c)
  {
    hide FedAll, Classify, Pushed, InRange, LatestUpTo;
    var cs := Candidates(th, START, xs);
    var c := FedAll(th, START, xs).debounce.confirmed;
    RunMeaning(th, xs);
    k := LatestHeld(cs, th.debounce);
    if c == REST || c == DISCHARGE {
      forall j | k - Needed(th.debounce) <= j < k
        ensures InRange(th, xs[j].i, c)
      {
        CandidateAt(th, START, xs, j);
        var s := FedAll(th, START, xs[..j]);
        RangesDecide(th, s.debounce.inCv, Pushed(s.cvWindow, xs[j], CV_WINDOW_MAX), xs[j].i, xs[j].t, c);
      }
    }
  }

  predicate Moves(up: bool, a: real, b: real) {
    if up then a <= b else a >= b
  }

  /** In the `span` seconds up to any sample from index `from` on, the current only moves one way. */
  ghost predicate Within(all: seq<Sample>, span: real, from: nat, up: bool) {
    forall j, m, k :: 0 <= j < m <= k < |all| && from <= k && all[j].t >= all[k].t - span ==>
      Moves(up, all[j].i, all[m].i)
  }

  function PushedOut(w: seq<Sample>): nat {
    if |w| < CV_WINDOW_MAX then 0 else |w| + 1 - CV_WINDOW_MAX
  }

  /** What the history looks like after a push, followed by the samples still to come. */
  lemma PushIsSuffix(w: seq<Sample>, xs: seq<Sample>)
    requires xs != []
    ensures PushedOut(w) <= |w|
    ensures Pushed(w, xs[0], CV_WINDOW_MAX) == (w + [xs[0]])[PushedOut(w)..]
    ensures Pushed(w, xs[0], CV_WINDOW_MAX) + xs[1..] == (w + xs)[PushedOut(w)..]
    ensures w + [xs[0]] == (w + xs)[..|w| + 1]
  {
    assert w + xs == w + [xs[0]] + xs[1..];
  }

  lemma OrderedParts(all: seq<Sample>, a: nat, b: nat)
    requires Ordered(all) && a <= |all| && b <= |all|
    ensures Ordered(all[a..]) && Ordered(all[..b])
  {
  }

  lemma WithinSuffix(all: seq<Sample>, span: real, from: nat, up: bool, a: nat, from': nat)
    requires Within(all, span, from, up) && a <= |all| && from' + a >= from
    ensures Within(all[a..], span, from', up)
  {
    var w := all[a..];
    forall j, m, k | 0 <= j < m <= k < |w| && from' <= k && w[j].t >= w[k].t - span
      ensures Moves(up, w[j].i, w[m].i)
    {
      assert w[j] == all[j + a] && w[m] == all[m + a] && w[k] == all[k + a];
    }
  }

  lemma WithinPrefix(all: seq<Sample>, span: real, from: nat, up: bool, b: nat)
    requires Within(all, span, from, up) && b <= |all|
    ensures Within(all[..b], span, from, up)
  {
  }

  lemma SuffixTimes(all: seq<Sample>, a: nat, k: nat, cutoff: real)
    requires a + k <= |all|
    requires forall j :: k <= j < |all[a..]| ==> all[a..][j].t >= cutoff
    ensures forall j :: a + k <= j < |all| ==> all[j].t >= cutoff
    ensures all[a..][k..] == all[a + k..]
  {
    forall j | a + k <= j < |all|
      ensures all[j].t >= cutoff
    {
      assert all[a..][j - a] == all[j];
    }
  }

  /** What the classifier looks at when the newest sample is fed: the end of the whole history. */
  lemma LookedAt(w: seq<Sample>, x: Sample, span: real) returns (b: nat)
    requires Ordered(w + [x])
    ensures b <= |w| + 1 && Since(Pushed(w, x, CV_WINDOW_MAX), x.t - span) == (w + [x])[b..]
    ensures forall j :: b <= j < |w + [x]| ==> (w + [x])[j].t >= x.t - span
    ensures Ordered(Pushed(w, x, CV_WINDOW_MAX))
  {
    hide Pushed, Since, Ordered;
    var all, a := w + [x], PushedOut(w);
    PushIsSuffix(w, [x]);
    OrderedParts(all, a, 0);
    var k := SinceIsSuffix(all[a..], x.t - span);
    SuffixTimes(all, a, k, x.t - span);
    b := a + k;
  }

  lemma LookedAtMoves(w: seq<Sample>, x: Sample, span: real, up: bool)
    requires Ordered(w + [x]) && Within(w + [x], span, |w|, up)
    ensures var seen := Since(Pushed(w, x, CV_WINDOW_MAX), x.t - span);
      Ordered(Pushed(w, x, CV_WINDOW_MAX)) && if up then NeverFalls(seen) else NeverRises(seen)
  {
    hide *;
    var b := LookedAt(w, x, span);
    assert (w + [x])[|w|] == x && |w + [x]| == |w| + 1;
    TailMoves(w + [x], span, b, up);
  }

  lemma TailMoves(all: seq<Sample>, span: real, b: nat, up: bool)
    requires all != [] && Within(all, span, |all| - 1, up) && b <= |all|
    requires forall j :: b <= j < |all| ==> all[j].t >= all[|all| - 1].t - span
    ensures if up then NeverFalls(all[b..]) else NeverRises(all[b..])
  {
    var seen := all[b..];
    forall j, m | 0 <= j < m < |seen|
      ensures Moves(up, seen[j].i, seen[m].i)
    {
      assert seen[j] == all[b + j] && seen[m] == all[b + m] && all[|all| - 1] == all[|all| - 1];
    }
  }

  lemma NextStretch(w: seq<Sample>, xs: seq<Sample>, span: real, up: bool)
    requires xs != [] && Ordered(w + xs) && Within(w + xs, span, |w|, up)
    ensures Ordered(w + [xs[0]]) && Within(w + [xs[0]], span, |w|, up)
    ensures var p := Pushed(w, xs[0], CV_WINDOW_MAX);
      Ordered(p + xs[1..]) && Within(p + xs[1..], span, |p|, up)
  {
    hide Ordered, Within, Pushed;
    var all, a := w + xs, PushedOut(w);
    PushIsSuffix(w, xs);
    OrderedParts(all, a, |w| + 1);
    WithinPrefix(all, span, |w|, up, |w| + 1);
    WithinSuffix(all, span, |w|, up, a, |w| + 1 - a);
  }

  /** Over any run from outside the phase: while the current does not fall within the window looked at
      for any sample fed, constant-voltage charging is never confirmed. */
  lemma {:induction false} RisingCurrentIsNeverCv(th: Thresholds, s: State, xs: seq<Sample>)
    requires th.declineRate <= 0.0 && th.dropRatio > 0.0
    requires Ordered(s.cvWindow + xs) && Within(s.cvWindow + xs, th.cvWindowS, |s.cvWindow|, true)
    requires !s.debounce.inCv && s.debounce.confirmed != CV_CHARGE
    ensures var r := FedAll(th, s, xs).debounce;
      !r.inCv && r.confirmed != CV_CHARGE
    decreases |xs|
  {
    hide Classify, Pushed, Ordered, Within, NeverFalls, Since;
    if xs == [] {
    } else {
      var w := Pushed(s.cvWindow, xs[0], CV_WINDOW_MAX);
      NextStretch(s.cvWindow, xs, th.cvWindowS, true);
      LookedAtMoves(s.cvWindow, xs[0], th.cvWindowS, true);
      NoCvWhileCurrentNeverFalls(th, w, xs[0].i, xs[0].t);
      RisingCurrentIsNeverCv(th, Fed(th, s, xs[0]), xs[1..]);
    }
  }

  /** The currents that count as charging are all those above some bound: the rest band does not split
      them. */
  predicate OneSided(th: Thresholds) {
    th.rest <= 0.0 || th.chargeMin >= -th.rest || th.dischargeMin < th.rest
  }

  lemma ChargingOnlyBelow(th: Thresholds, high: real, low: real)
    requires OneSided(th) && low <= high && !Charging(th, high)
    ensures !Charging(th, low)
  {
  }

  lemma ChargingDecides(th: Thresholds, inCv: bool, w: seq<Sample>, i: real, now: real)
    ensures Charging(th, i) <==> Classify(th, inCv, w, i, now) in {CC_CHARGE, CV_CHARGE}
  {
    hide ShouldExitCv, IsCvPhase;
  }

  /** The phase is still held, or the last current rules out charging from now on. */
  predicate PhaseHeldOrOver(th: Thresholds, s: State, xs: seq<Sample>) {
    || s.debounce.inCv
    || (s.cvWindow != []
        && var last := s.cvWindow[|s.cvWindow| - 1].i;
        !Charging(th, last) && (xs == [] || xs[0].i <= last))
  }

  lemma CandidateWhileFalling(th: Thresholds, s: State, x: Sample)
    requires th.exitSlope >= 0.0 && OneSided(th) && PhaseHeldOrOver(th, s, [x])
    requires Ordered(s.cvWindow + [x]) && Within(s.cvWindow + [x], th.splitWindowS, |s.cvWindow|, false)
    ensures CandidateFor(th, s, x) != CC_CHARGE
    ensures s.debounce.inCv || !Charging(th, x.i)
  {
    hide Classify, Charging, Since, Ordered, Within, Pushed, NeverRises, OneSided;
    var w, u := Pushed(s.cvWindow, x, CV_WINDOW_MAX), s.cvWindow;
    ChargingDecides(th, s.debounce.inCv, w, x.i, x.t);
    if s.debounce.inCv {
      LookedAtMoves(u, x, th.splitWindowS, false);
      NoExitWhileCurrentNeverRises(th, w, x.i, x.t);
    } else {
      ChargingOnlyBelow(th, u[|u| - 1].i, x.i);
    }
  }

  lemma FeedKeepsPhase(th: Thresholds, s: State, xs: seq<Sample>)
    requires th.exitSlope >= 0.0 && OneSided(th) && xs != [] && NeverRises(xs)
    requires var u := s.cvWindow + [xs[0]];
      Ordered(u) && Within(u, th.splitWindowS, |s.cvWindow|, false)
    requires PhaseHeldOrOver(th, s, xs) && s.debounce.confirmed != CC_CHARGE
    ensures PhaseHeldOrOver(th, Fed(th, s, xs[0]), xs[1..]) && Fed(th, s, xs[0]).debounce.confirmed != CC_CHARGE
  {
    hide Classify, Pushed, Ordered, Within, Charging, OneSided;
    CandidateWhileFalling(th, s, xs[0]);
    ChargingDecides(th, s.debounce.inCv, Pushed(s.cvWindow, xs[0], CV_WINDOW_MAX), xs[0].i, xs[0].t);
  }

  lemma {:induction false} FallingRun(th: Thresholds, s: State, xs: seq<Sample>)
    requires th.exitSlope >= 0.0 && OneSided(th) && NeverRises(xs)
    requires Ordered(s.cvWindow + xs) && Within(s.cvWindow + xs, th.splitWindowS, |s.cvWindow|, false)
    requires PhaseHeldOrOver(th, s, xs) && s.debounce.confirmed != CC_CHARGE
    ensures FedAll(th, s, xs).debounce.confirmed != CC_CHARGE
    decreases |xs|
  {
    hide Fed, Ordered, Within, PhaseHeldOrOver, OneSided, NeverRises;
    if xs == [] {
    } else {
      NextStretch(s.cvWindow, xs, th.splitWindowS, false);
      FeedKeepsPhase(th, s, xs);
      FedWindow(th, s, xs[0]);
      FallsOn(xs);
      FallingRun(th, Fed(th, s, xs[0]), xs[1..]);
    }
  }

  lemma FallsOn(xs: seq<Sample>)
    requires xs != [] && NeverRises(xs)
    ensures NeverRises(xs[1..])
  {
  }

  lemma FedWindow(th: Thresholds, s: State, x: Sample)
    ensures Fed(th, s, x).cvWindow == Pushed(s.cvWindow, x, CV_WINDOW_MAX)
  {
  }

  /** A run from inside the phase in which the current never rises, neither among the samples fed nor
      within the recent stretch looked at for any of them. */
  ghost predicate FallsFromPhase(th: Thresholds, s: State, xs: seq<Sample>) {
    && s.debounce.inCv && s.debounce.confirmed == CV_CHARGE && NeverRises(xs)
    && Ordered(s.cvWindow + xs) && Within(s.cvWindow + xs, th.splitWindowS, |s.cvWindow|, false)
  }

  /** Over any such run constant-current charging is never confirmed, even after the phase has ended. */
  lemma FallingCurrentIsNeverCc(th: Thresholds, s: State, xs: seq<Sample>)
    requires th.exitSlope >= 0.0 && OneSided(th) && FallsFromPhase(th, s, xs)
    ensures FedAll(th, s, xs).debounce.confirmed != CC_CHARGE
  {
    hide FedAll, Ordered, Within, OneSided, NeverRises;
    FallingRun(th, s, xs);
  }

  // ----- the detector object ----------------------------------------------------------------

  datatype SensorName = P1 | P2 | N1 | N2

  /** One sensor's entry in a snapshot; a field that is absent reads as zero. */
  datatype Entry = Empty | Failed | Measured(current: real, voltage: real)

  type Snapshot = map<SensorName, Entry>

  const SENSOR_NAMES := [P1, P2, N1, N2]

  function CurrentOf(data: Snapshot, name: SensorName): real {
    if name in data && data[name].Measured? then data[name].current else 0.0
  }

  /** The voltages that count: those of working sensors that are not floating. */
  function LiveVoltages(data: Snapshot, names: seq<SensorName>): seq<real> {
    if names == [] then []
    else
      var n := names[|names| - 1];
      LiveVoltages(data, names[..|names| - 1])
      + (if n in data && data[n].Measured? && data[n].voltage > 0.01 then [data[n].voltage] else [])
  }

  function AverageVoltage(data: Snapshot): real {
    var live := LiveVoltages(data, SENSOR_NAMES);
    if live == [] then 0.0 else Slope.Mean(live)
  }

  function Agreeing(th: Thresholds, inCv: bool, cvWindow: seq<Sample>, now: real, window: seq<Sample>,
                    c: CyclerState): (n: nat)
    ensures n <= |window|
  {
    if window == [] then 0
    else
      var last := window[|window| - 1];
      Agreeing(th, inCv, cvWindow, now, window[..|window| - 1], c)
      + One(Classify(th, inCv, cvWindow, last.i, now) == c)
  }

  /** The samples of the window that are classified as c. */
  function ClassifiedAs(th: Thresholds, inCv: bool, cvWindow: seq<Sample>, now: real, window: seq<Sample>,
                        c: CyclerState): set<nat> {
    set k: nat | k < |window| && Classify(th, inCv, cvWindow, window[k].i, now) == c
  }

  lemma ClassifiedNext(th: Thresholds, inCv: bool, cvWindow: seq<Sample>, now: real, window: seq<Sample>,
                       c: CyclerState)
    requires window != []
    ensures var n: nat := |window| - 1;
      var before := ClassifiedAs(th, inCv, cvWindow, now, window[..n], c);
      && n !in before
      && ClassifiedAs(th, inCv, cvWindow, now, window, c)
         == if Classify(th, inCv, cvWindow, window[n].i, now) == c then before + {n} else before
  {
    hide Classify;
  }

  /** The share of the window in the confidence counts exactly those. */
  lemma {:induction false} AgreeingCounts(th: Thresholds, inCv: bool, cvWindow: seq<Sample>, now: real,
                                          window: seq<Sample>, c: CyclerState)
    ensures Agreeing(th, inCv, cvWindow, now, window, c) == |ClassifiedAs(th, inCv, cvWindow, now, window, c)|
  {
    hide Classify;
    if window == [] {
    } else {
      ClassifiedNext(th, inCv, cvWindow, now, window, c);
      hide ClassifiedAs;
      AgreeingCounts(th, inCv, cvWindow, now, window[..|window| - 1], c);
    }
  }

  /** A sensor that works and is not floating. */
  predicate Live(data: Snapshot, name: SensorName) {
    name in data && data[name].Measured? && data[name].voltage > 0.01
  }

  function LiveVoltage(data: Snapshot, name: SensorName): real {
    if Live(data, name) then data[name].voltage else 0.0
  }

  /** The reported voltage is the mean over the live sensors, and 0 without any. */
  lemma VoltageIsMeanOfLive(data: Snapshot)
    ensures var n := One(Live(data, P1)) + One(Live(data, P2)) + One(Live(data, N1)) + One(Live(data, N2));
      var sum := LiveVoltage(data, P1) + LiveVoltage(data, P2) + LiveVoltage(data, N1) + LiveVoltage(data, N2);
      if n == 0 then AverageVoltage(data) == 0.0 else AverageVoltage(data) * n as real == sum
  {
    LiveIs(data);
    var live := LiveVoltages(data, SENSOR_NAMES);
    hide LiveVoltages, Live, LiveVoltage;
    if live != [] {
      Slope.SumIsMean(live);
    }
  }

  lemma LiveIs(data: Snapshot)
    ensures var n := One(Live(data, P1)) + One(Live(data, P2)) + One(Live(data, N1)) + One(Live(data, N2));
      var live := LiveVoltages(data, SENSOR_NAMES);
      && |live| == n
      && Slope.Sum(live)
        == LiveVoltage(data, P1) + LiveVoltage(data, P2) + LiveVoltage(data, N1) + LiveVoltage(data, N2)
  {
    hide Live, LiveVoltage;
    LiveNext(data, []);
    LiveNext(data, [P1]);
    LiveNext(data, [P1, P2]);
    LiveNext(data, [P1, P2, N1]);
    LiveNext(data, [P1, P2, N1, N2]);
    assert [P1, P2, N1, N2][..3] == [P1, P2, N1] && [P1, P2, N1][..2] == [P1, P2];
    assert [P1, P2][..1] == [P1] && [P1][..0] == [];
  }

  lemma LiveNext(data: Snapshot, names: seq<SensorName>)
    ensures names == [] ==> LiveVoltages(data, names) == [] && Slope.Sum([]) == 0.0
    ensures names != [] ==>
      var n := |names| - 1;
      var before, live := LiveVoltages(data, names[..n]), LiveVoltages(data, names);
      && |live| == |before| + One(Live(data, names[n]))
      && Slope.Sum(live) == Slope.Sum(before) + LiveVoltage(data, names[n])
  {
    if names != [] {
      var before := LiveVoltages(data, names[..|names| - 1]);
      Slope.SumAppend(before, LiveVoltage(data, names[|names| - 1]));
      assert before + [] == before;
    }
  }

  /** A sensor that is missing or failed counts as carrying nothing. */
  lemma MissingIsNoCurrent(data: Snapshot, name: SensorName)
    ensures name !in data || data[name] == Empty || data[name] == Failed ==> CurrentOf(data, name) == 0.0
  {
  }

  /** With all sensors working, the estimate is the current of the bus: what the high-side FETs carry in and
      the low-side FETs carry out, however it is split between them. */
  lemma CurrentIsThatOfTheBus(data: Snapshot, i: real)
    requires forall name: SensorName :: name in data && data[name].Measured?
    requires data[P1].current + data[P2].current == i && data[N1].current + data[N2].current == i
    ensures (CurrentOf(data, P1) + CurrentOf(data, P2) + CurrentOf(data, N1) + CurrentOf(data, N2)) / 2.0 == i
  {
  }

  datatype Detection = Detection(state: CyclerState, confidence: real, current: real, voltage: real)

  class CyclerDetector {
    const windowMax: nat
    var thresholds: Thresholds
    var window: seq<Sample>
    var cvWindow: seq<Sample>
    var debounceCounter: nat
    var candidateState: CyclerState
    var confirmedState: CyclerState
    var inCvPhase: bool
    var lastResult: Detection

    function View(): State
      reads this
    {
      State(cvWindow, Debounce(debounceCounter, candidateState, confirmedState, inCvPhase))
    }

    /** The length of the averaging window is fixed here; later thresholds do not change it. */
    constructor (th: Thresholds, windowSize: nat)
      ensures View() == START && window == [] && thresholds == th && windowMax == windowSize
      ensures lastResult == Detection(UNKNOWN, 0.0, 0.0, 0.0)
    {
      windowMax, thresholds, window, cvWindow := windowSize, th, [], [];
      debounceCounter, candidateState, confirmedState, inCvPhase := 0, UNKNOWN, UNKNOWN, false;
      lastResult := Detection(UNKNOWN, 0.0, 0.0, 0.0);
    }

    method SetThresholds(th: Thresholds)
      modifies this`thresholds
      ensures thresholds == th
    {
      thresholds := th;
    }

    method Feed(data: Snapshot, now: real) returns (r: Detection)
      modifies this`window, this`cvWindow, this`lastResult
      modifies this`debounceCounter, this`candidateState, this`confirmedState, this`inCvPhase
      ensures View() == Fed(thresholds, old(View()), Sample(now, r.current, r.voltage))
      ensures window == Pushed(old(window), Sample(now, r.current, r.voltage), windowMax)
      ensures r.current == (CurrentOf(data, P1) + CurrentOf(data, P2) + CurrentOf(data, N1) + CurrentOf(data, N2)) / 2.0
      ensures r.state == confirmedState && lastResult == r && 0.0 <= r.confidence <= 1.0
      ensures r.voltage == AverageVoltage(data)
      ensures var n := Agreeing(thresholds, inCvPhase, cvWindow, now, window, confirmedState);
        r.confidence == if window == [] then 0.0 else n as real / |window| as real
    {
      var avgI, avgV := ExtractAverages(data);
      var x := Sample(now, avgI, avgV);
      window := Pushed(window, x, windowMax);
      cvWindow := Pushed(cvWindow, x, CV_WINDOW_MAX);
      var candidate := Classify(thresholds, inCvPhase, cvWindow, avgI, now);
      UpdateDebounce(candidate);
      var confidence := 0.0;
      if window != [] {
        var agreeing := Agreeing(thresholds, inCvPhase, cvWindow, now, window, confirmedState);
        confidence := agreeing as real / |window| as real;
        FractionInRange(agreeing, |window|);
      }
      lastResult := Detection(confirmedState, confidence, avgI, avgV);
      r := lastResult;
    }

    method GetState() returns (r: Detection)
      ensures r == lastResult
    {
      r := lastResult;
    }

    method Reset()
      modifies this`window, this`cvWindow, this`lastResult
      modifies this`debounceCounter, this`candidateState, this`confirmedState, this`inCvPhase
      ensures View() == START && window == [] && lastResult == Detection(UNKNOWN, 0.0, 0.0, 0.0)
    {
      window, cvWindow := [], [];
      debounceCounter := 0;
      candidateState, confirmedState, inCvPhase := UNKNOWN, UNKNOWN, false;
      lastResult := Detection(UNKNOWN, 0.0, 0.0, 0.0);
    }

    method UpdateDebounce(candidate: CyclerState)
      modifies this`debounceCounter, this`candidateState, this`confirmedState, this`inCvPhase
      ensures View() == State(cvWindow, Debounced(old(View()).debounce, thresholds.debounce, candidate))
    {
      if candidate == candidateState {
        debounceCounter := debounceCounter + 1;
      } else {
        candidateState := candidate;
        debounceCounter := 1;
      }
      if debounceCounter >= thresholds.debounce {
        if candidate != confirmedState {
          confirmedState := candidate;
          if candidate == CV_CHARGE {
            inCvPhase := true;
          } else if inCvPhase {
            inCvPhase := false;
          }
        }
      }
    }

    /** Half the sum of all four currents, and the mean of the live voltages (zero without any). */
    static method ExtractAverages(data: Snapshot) returns (avgI: real, avgV: real)
      ensures avgI == (CurrentOf(data, P1) + CurrentOf(data, P2) + CurrentOf(data, N1) + CurrentOf(data, N2)) / 2.0
      ensures avgV == AverageVoltage(data)
    {
      var pSum, nSum := 0.0, 0.0;
      var voltages := [];
      for k := 0 to |SENSOR_NAMES|
        invariant pSum == (if k >= 1 then CurrentOf(data, P1) else 0.0) + (if k >= 2 then CurrentOf(data, P2) else 0.0)
        invariant nSum == (if k >= 3 then CurrentOf(data, N1) else 0.0) + (if k >= 4 then CurrentOf(data, N2) else 0.0)
        invariant voltages == LiveVoltages(data, SENSOR_NAMES[..k])
      {
        var name := SENSOR_NAMES[k];
        assert SENSOR_NAMES[..k + 1][..k] == SENSOR_NAMES[..k];
        if name in data && data[name].Measured? {
          var i, v := data[name].current, data[name].voltage;
          if name == P1 || name == P2 {
            pSum := pSum + i;
          } else {
            nSum := nSum + i;
          }
          if v > 0.01 {
            voltages := voltages + [v];
          }
        }
      }
      assert SENSOR_NAMES[..|SENSOR_NAMES|] == SENSOR_NAMES;
      avgI := (pSum + nSum) / 2.0;
      avgV := if voltages == [] then 0.0 else Slope.Mean(voltages);
    }
  }

  lemma FractionInRange(a: nat, n: nat)
    requires a <= n && n > 0
    ensures 0.0 <= a as real / n as real <= 1.0
  {
    assert a as real / n as real <= n as real / n as real;
  }
}
