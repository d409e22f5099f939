/** When the detector's constant-voltage phase is reached, and when a falling current is misread after it. */
module CyclerPhase {
  import Slope
  import opened CyclerDetector

  // ----- without one-sided thresholds that fails ----------------------------------------------

  /** n samples of one current, a fixed time apart. */
  function Flat(n: nat, i: real, t: real, gap: real): (xs: seq<Sample>)
    ensures |xs| == n && forall k :: 0 <= k < n ==> xs[k].i == i
  {
    if n == 0 then [] else [Sample(t, i, 0.0)] + Flat(n - 1, i, t + gap, gap)
  }

  /** The time of the sample that would follow. */
  function FlatEnd(n: nat, t: real, gap: real): real {
    if n == 0 then t else FlatEnd(n - 1, t + gap, gap)
  }

  lemma {:induction false} FlatTimes(n: nat, i: real, t: real, gap: real)
    requires gap > 0.0
    ensures Ordered(Flat(n, i, t, gap)) && FlatEnd(n, t, gap) >= t
    ensures forall k :: 0 <= k < n ==> t <= Flat(n, i, t, gap)[k].t <= FlatEnd(n, t, gap) - gap
  {
    if n == 0 {
    } else {
      FlatTimes(n - 1, i, t + gap, gap);
      var xs := Flat(n, i, t, gap);
      assert xs[1..] == Flat(n - 1, i, t + gap, gap);
      assert forall k :: 0 < k < n ==> xs[k] == xs[1..][k - 1];
    }
  }

  /** All samples held are at least `gap` before t, in order. */
  ghost predicate Before(w: seq<Sample>, t: real, gap: real) {
    Ordered(w) && forall k :: 0 <= k < |w| ==> w[k].t <= t - gap
  }

  lemma PushedBefore(w: seq<Sample>, x: Sample, gap: real)
    requires gap > 0.0 && Before(w, x.t, gap)
    ensures var p := Pushed(w, x, CV_WINDOW_MAX);
      && Ordered(p) && Before(p, x.t + gap, gap)
      && forall k :: 0 <= k < |p| - 1 ==> p[k].t <= x.t - gap
  {
    var all := w + [x];
    assert Ordered(all);
    PushIsSuffix(w, [x]);
    OrderedParts(all, PushedOut(w), 0);
    var p := Pushed(w, x, CV_WINDOW_MAX);
    assert p == all[PushedOut(w)..];
    forall k | 0 <= k < |p|
      ensures p[k].t <= x.t && (k < |p| - 1 ==> p[k].t <= x.t - gap)
    {
      assert p[k] == all[k + PushedOut(w)];
    }
  }

  /** With samples that far apart the classifier looks at no more than the newest one. */
  lemma SparseIsNeverCv(th: Thresholds, w: seq<Sample>, x: Sample, gap: real)
    requires gap > th.cvWindowS && gap > 0.0 && Before(w, x.t, gap)
    ensures !IsCvPhase(th, Pushed(w, x, CV_WINDOW_MAX), x.t)
    ensures Before(Pushed(w, x, CV_WINDOW_MAX), x.t + gap, gap)
  {
    hide Declining, Dropped, Plateau, Pushed, Ordered, Before, Since;
    PushedBefore(w, x, gap);
    var p := Pushed(w, x, CV_WINDOW_MAX);
    var _ := SinceIsSuffix(p, x.t - th.cvWindowS);
    assert |p| >= 2 ==> p[|p| - 2].t < x.t - th.cvWindowS;
  }

  function Repeated(d: Debounce, need: int, c: CyclerState, n: nat): Debounce
    decreases n
  {
    if n == 0 then d else Repeated(Debounced(d, need, c), need, c, n - 1)
  }

  /** The flag and the confirmed state tell the same thing. */
  predicate Coherent(d: Debounce) {
    d.inCv == (d.confirmed == CV_CHARGE)
  }

  lemma {:induction false} RepeatedSettles(d: Debounce, need: int, c: CyclerState, n: nat)
    requires Coherent(d) && n > 0
    requires n >= need || (d.candidate == c && d.counter + n >= need)
    ensures var r := Repeated(d, need, c, n);
      r.confirmed == c && r.inCv == (c == CV_CHARGE)
    decreases n
  {
    var e := Debounced(d, need, c);
    if n == 1 {
      assert Repeated(e, need, c, 0) == e;
    } else {
      RepeatedSettles(e, need, c, n - 1);
    }
  }

  /** Feeding one current over and over that is always classified the same. */
  lemma {:induction false} FlatRun(th: Thresholds, s: State, n: nat, i: real, t: real, gap: real)
    requires gap > th.cvWindowS && gap > 0.0 && Before(s.cvWindow, t, gap) && Coherent(s.debounce)
    requires Abs(i) < th.rest || (!s.debounce.inCv && Charging(th, i))
    ensures var c := if Abs(i) < th.rest then REST else CC_CHARGE;
      var r := FedAll(th, s, Flat(n, i, t, gap));
      && r.debounce == Repeated(s.debounce, th.debounce, c, n)
      && Before(r.cvWindow, FlatEnd(n, t, gap), gap)
    decreases n
  {
    hide Pushed, IsCvPhase, ShouldExitCv, Before, Ordered;
    if n == 0 {
    } else {
      var x := Sample(t, i, 0.0);
      SparseIsNeverCv(th, s.cvWindow, x, gap);
      var xs := Flat(n, i, t, gap);
      assert xs[0] == x && xs[1..] == Flat(n - 1, i, t + gap, gap);
      FlatRun(th, Fed(th, s, x), n - 1, i, t + gap, gap);
    }
  }

  lemma {:induction false} RangeRun(th: Thresholds, s: State, xs: seq<Sample>, c: CyclerState)
    requires c == REST || c == DISCHARGE || c == UNKNOWN
    requires forall k :: 0 <= k < |xs| ==> InRange(th, xs[k].i, c)
    ensures FedAll(th, s, xs).debounce == Repeated(s.debounce, th.debounce, c, |xs|)
    decreases |xs|
  {
    hide Pushed, Classify, InRange;
    if xs == [] {
    } else {
      var w := Pushed(s.cvWindow, xs[0], CV_WINDOW_MAX);
      RangesDecide(th, s.debounce.inCv, w, xs[0].i, xs[0].t, c);
      RangeRun(th, Fed(th, s, xs[0]), xs[1..], c);
    }
  }

  /** Whatever was fed before: once the debounce count of samples in a row, or more, are in the range of rest,
      of discharge or of neither and not charging, that is what is reported. */
  lemma HeldRangeIsReported(th: Thresholds, before: seq<Sample>, xs: seq<Sample>, c: CyclerState)
    requires c == REST || c == DISCHARGE || c == UNKNOWN
    requires |xs| >= Needed(th.debounce) && forall k :: 0 <= k < |xs| ==> InRange(th, xs[k].i, c)
    ensures FedAll(th, START, before + xs).debounce.confirmed == c
  {
    hide FedAll, InRange, Repeated;
    var s := FedAll(th, START, before);
    RunMeaning(th, before);
    FedAllAppend(th, START, before, xs);
    RangeRun(th, s, xs, c);
    RepeatedSettles(s.debounce, th.debounce, c, |xs|);
  }

  lemma {:induction false} FedAllAppend(th: Thresholds, s: State, xs: seq<Sample>, ys: seq<Sample>)
    ensures FedAll(th, s, xs + ys) == FedAll(th, FedAll(th, s, xs), ys)
    decreases |xs|
  {
    hide Fed;
    if xs == [] {
      assert xs + ys == ys;
    } else {
      assert (xs + ys)[1..] == xs[1..] + ys;
      FedAllAppend(th, Fed(th, s, xs[0]), xs[1..], ys);
    }
  }

  /** Inside the phase, with a history in time order. */
  ghost predicate InPhase(s: State) {
    s.debounce.inCv && s.debounce.confirmed == CV_CHARGE && Ordered(s.cvWindow)
  }

  /** Rest until it is confirmed, then the current just below the rest band until that is. */
  function RestThenBelow(th: Thresholds, t: real, gap: real): seq<Sample> {
    var n := Needed(th.debounce);
    Flat(n, 0.0, t, gap) + Flat(n, -th.rest, FlatEnd(n, t, gap), gap)
  }

  lemma RestThenBelowIs(th: Thresholds, t: real, gap: real)
    ensures var n := Needed(th.debounce);
      RestThenBelow(th, t, gap) == Flat(n, 0.0, t, gap) + Flat(n, -th.rest, FlatEnd(n, t, gap), gap)
  {
  }

  lemma RestThenBelowIsLater(th: Thresholds, t: real, gap: real)
    requires gap > 0.0
    ensures var xs := RestThenBelow(th, t, gap);
      Ordered(xs) && (th.rest > 0.0 ==> NeverRises(xs)) && forall k :: 0 <= k < |xs| ==> xs[k].t >= t
  {
    hide *;
    var n := Needed(th.debounce);
    var mid := FlatEnd(n, t, gap);
    FlatTimes(n, 0.0, t, gap);
    FlatTimes(n, -th.rest, mid, gap);
    OneAfterTheOther(Flat(n, 0.0, t, gap), Flat(n, -th.rest, mid, gap), t, mid, 0.0, -th.rest);
    RestThenBelowIs(th, t, gap);
  }

  lemma OneAfterTheOther(xs: seq<Sample>, ys: seq<Sample>, from: real, t: real, high: real, low: real)
    requires Ordered(xs) && Ordered(ys) && from <= t
    requires forall k :: 0 <= k < |xs| ==> from <= xs[k].t <= t && xs[k].i == high
    requires forall k :: 0 <= k < |ys| ==> ys[k].t >= t && ys[k].i == low
    ensures Ordered(xs + ys) && (low <= high ==> NeverRises(xs + ys))
    ensures forall k :: 0 <= k < |xs + ys| ==> (xs + ys)[k].t >= from
  {
  }

  /** A falling current fed so much later that the recent stretch holds none of the history. */
  lemma LaterFalls(th: Thresholds, s: State, xs: seq<Sample>, t: real, gap: real)
    requires InPhase(s) && Before(s.cvWindow, t, gap) && gap > 0.0 && gap > th.splitWindowS
    requires Ordered(xs) && NeverRises(xs) && forall k :: 0 <= k < |xs| ==> xs[k].t >= t
    ensures FallsFromPhase(th, s, xs)
  {
    var w, all := s.cvWindow, s.cvWindow + xs;
    assert forall k :: 0 <= k < |all| ==> all[k] == if k < |w| then w[k] else xs[k - |w|];
    forall j, m, k | 0 <= j < m <= k < |all| && |w| <= k && all[j].t >= all[k].t - th.splitWindowS
      ensures Moves(false, all[j].i, all[m].i)
    {
      assert j >= |w|;
    }
  }

  lemma RestThenBelowIsCc(th: Thresholds, s: State, t: real, gap: real)
    requires !OneSided(th) && InPhase(s) && Before(s.cvWindow, t, gap) && gap > th.cvWindowS && gap > 0.0
    ensures FedAll(th, s, RestThenBelow(th, t, gap)).debounce.confirmed == CC_CHARGE
  {
    var n := Needed(th.debounce);
    var mid := FlatEnd(n, t, gap);
    var first, second := Flat(n, 0.0, t, gap), Flat(n, -th.rest, mid, gap);
    assert Abs(0.0) < th.rest && Abs(-th.rest) == th.rest && Charging(th, -th.rest);
    hide FedAll, Flat, FlatEnd, Repeated;
    FlatRun(th, s, n, 0.0, t, gap);
    RepeatedSettles(s.debounce, th.debounce, REST, n);
    var r := FedAll(th, s, first);
    FlatRun(th, r, n, -th.rest, mid, gap);
    RepeatedSettles(r.debounce, th.debounce, CC_CHARGE, n);
    FedAllAppend(th, s, first, second);
  }

  /** Such a run from any state inside the phase. */
  function Misread(th: Thresholds, s: State): seq<Sample> {
    var w, gap := s.cvWindow, Abs(th.cvWindowS) + Abs(th.splitWindowS) + 1.0;
    RestThenBelow(th, if w == [] then 0.0 else w[|w| - 1].t + gap, gap)
  }

  lemma MisreadIsCc(th: Thresholds, s: State)
    requires !OneSided(th) && InPhase(s)
    ensures FallsFromPhase(th, s, Misread(th, s))
    ensures FedAll(th, s, Misread(th, s)).debounce.confirmed == CC_CHARGE
  {
    hide OneSided, FallsFromPhase, FedAll, RestThenBelow;
    var w, gap := s.cvWindow, Abs(th.cvWindowS) + Abs(th.splitWindowS) + 1.0;
    var t := if w == [] then 0.0 else w[|w| - 1].t + gap;
    NotOneSidedHasRest(th);
    RestThenBelowIsLater(th, t, gap);
    LaterFalls(th, s, RestThenBelow(th, t, gap), t, gap);
    RestThenBelowIsCc(th, s, t, gap);
  }

  /** From any state inside the phase: a current that never rises keeps constant-current charging from
      being confirmed, in all runs, exactly with one-sided thresholds. */
  lemma FallingIsNeverCcExactlyWhen(th: Thresholds, s: State)
    requires th.exitSlope >= 0.0 && InPhase(s)
    ensures OneSided(th) <==>
      forall xs: seq<Sample> :: FallsFromPhase(th, s, xs) ==> FedAll(th, s, xs).debounce.confirmed != CC_CHARGE
  {
    hide OneSided, FallsFromPhase, FedAll, Misread;
    if OneSided(th) {
      forall xs: seq<Sample> | FallsFromPhase(th, s, xs)
        ensures FedAll(th, s, xs).debounce.confirmed != CC_CHARGE
      {
        FallingCurrentIsNeverCc(th, s, xs);
      }
    } else {
      MisreadIsCc(th, s);
    }
  }

  lemma NotOneSidedHasRest(th: Thresholds)
    requires !OneSided(th)
    ensures th.rest > 0.0
  {
  }

  // ----- what a run from the start has seen -----------------------------------------------------

  /** The samples the detector still holds after being fed these. */
  function Last(ys: seq<Sample>): seq<Sample> {
    if |ys| <= CV_WINDOW_MAX then ys else ys[|ys| - CV_WINDOW_MAX..]
  }

  lemma LastFed(th: Thresholds, ys: seq<Sample>)
    requires ys != []
    ensures var n := |ys| - 1;
      FedAll(th, START, ys) == Fed(th, FedAll(th, START, ys[..n]), ys[n])
  {
    hide Fed;
    var n := |ys| - 1;
    assert ys == ys[..n] + [ys[n]];
    FedAllAppend(th, START, ys[..n], [ys[n]]);
    var s := FedAll(th, START, ys[..n]);
    assert FedAll(th, s, [ys[n]]) == FedAll(th, Fed(th, s, ys[n]), []);
  }

  lemma LastPush(ys: seq<Sample>)
    requires ys != []
    ensures var n := |ys| - 1;
      Pushed(Last(ys[..n]), ys[n], CV_WINDOW_MAX) == Last(ys)
  {
  }

  lemma NothingFed(th: Thresholds)
    ensures Last([]) == [] && FedAll(th, START, []).cvWindow == [] && !FedAll(th, START, []).debounce.inCv
  {
  }

  lemma {:induction false} HistoryIs(th: Thresholds, ys: seq<Sample>)
    ensures FedAll(th, START, ys).cvWindow == Last(ys)
    decreases |ys|
  {
    hide Last, Pushed, FedAll;
    if ys == [] {
      NothingFed(th);
    } else {
      LastFed(th, ys);
      HistoryIs(th, ys[..|ys| - 1]);
      LastPush(ys);
      FedWindow(th, FedAll(th, START, ys[..|ys| - 1]), ys[|ys| - 1]);
    }
  }

  /** The newest sample looks like constant-voltage charging, given those before it. */
  predicate Taken(th: Thresholds, ys: seq<Sample>) {
    ys != [] && Charging(th, ys[|ys| - 1].i) && IsCvPhase(th, Last(ys), ys[|ys| - 1].t)
  }

  /** So did each of the last j. */
  ghost predicate TakenLast(th: Thresholds, ys: seq<Sample>, j: nat) {
    j <= |ys| && forall k :: |ys| - j < k <= |ys| ==> Taken(th, ys[..k])
  }

  lemma TakenIsCandidate(th: Thresholds, ys: seq<Sample>)
    requires ys != [] && !FedAll(th, START, ys[..|ys| - 1]).debounce.inCv
    ensures var s, x := FedAll(th, START, ys[..|ys| - 1]), ys[|ys| - 1];
      && FedAll(th, START, ys).debounce == Debounced(s.debounce, th.debounce, CandidateFor(th, s, x))
      && (CandidateFor(th, s, x) == CV_CHARGE <==> Taken(th, ys))
  {
    hide Last, Pushed, FedAll, IsCvPhase, ShouldExitCv;
    LastFed(th, ys);
    HistoryIs(th, ys[..|ys| - 1]);
    LastPush(ys);
  }

  /** Every earlier state was outside the phase. */
  ghost predicate NotYet(th: Thresholds, ys: seq<Sample>) {
    forall k :: 0 <= k < |ys| ==> !FedAll(th, START, ys[..k]).debounce.inCv
  }

  lemma NotYetBefore(th: Thresholds, ys: seq<Sample>)
    requires ys != [] && NotYet(th, ys)
    ensures NotYet(th, ys[..|ys| - 1]) && !FedAll(th, START, ys[..|ys| - 1]).debounce.inCv
  {
    hide FedAll;
    var n := |ys| - 1;
    assert !FedAll(th, START, ys[..n]).debounce.inCv;
    assert forall k :: 0 <= k < n ==> ys[..n][..k] == ys[..k];
  }

  lemma TakenLastStep(th: Thresholds, ys: seq<Sample>, j: nat)
    requires ys != []
    ensures TakenLast(th, ys, j + 1) <==> Taken(th, ys) && TakenLast(th, ys[..|ys| - 1], j)
  {
    hide Taken;
    var n := |ys| - 1;
    assert ys[..|ys|] == ys;
    assert forall k :: 0 <= k <= n ==> ys[..n][..k] == ys[..k];
    if TakenLast(th, ys, j + 1) {
      forall k | n - j < k <= n
        ensures Taken(th, ys[..n][..k])
      {
        assert ys[..n][..k] == ys[..k];
      }
    }
    if Taken(th, ys) && TakenLast(th, ys[..n], j) {
      forall k | |ys| - (j + 1) < k <= |ys|
        ensures Taken(th, ys[..k])
      {
        if k <= n {
          assert ys[..n][..k] == ys[..k];
        }
      }
    }
  }

  /** Outside the phase the debounce counts how many in a row looked like it. */
  lemma {:induction false} CountsTaken(th: Thresholds, ys: seq<Sample>, j: nat)
    requires NotYet(th, ys)
    ensures var d := FedAll(th, START, ys).debounce;
      && (TakenLast(th, ys, j) && j > 0 ==> d.candidate == CV_CHARGE && d.counter >= j)
      && (d.candidate == CV_CHARGE ==> TakenLast(th, ys, d.counter))
    decreases |ys|
  {
    hide TakenLast, Taken, NotYet, CandidateFor;
    if ys == [] {
      NothingTaken(th, j);
    } else {
      var before := ys[..|ys| - 1];
      NotYetBefore(th, ys);
      TakenIsCandidate(th, ys);
      var d := FedAll(th, START, before).debounce;
      CountsTaken(th, before, if j > 0 then j - 1 else 0);
      TakenLastStep(th, ys, if j > 0 then j - 1 else 0);
      TakenLastStep(th, ys, d.counter);
      TakenLastStep(th, ys, 0);
      NoneTaken(th, before);
    }
  }

  lemma NoneTaken(th: Thresholds, ys: seq<Sample>)
    ensures TakenLast(th, ys, 0)
  {
  }

  lemma NothingTaken(th: Thresholds, j: nat)
    ensures TakenLast(th, [], j) ==> j == 0
  {
  }

  /** Some run from the start, with samples in time order, gets into the phase. */
  ghost predicate Reachable(th: Thresholds) {
    exists ys: seq<Sample> :: Ordered(ys) && InPhase(FedAll(th, START, ys))
  }

  lemma Flagged(th: Thresholds, ys: seq<Sample>)
    requires Ordered(ys) && FedAll(th, START, ys).debounce.inCv
    ensures InPhase(FedAll(th, START, ys))
  {
    hide Ordered, FedAll;
    RunMeaning(th, ys);
    HistoryIs(th, ys);
    OrderedParts(ys, if |ys| <= CV_WINDOW_MAX then 0 else |ys| - CV_WINDOW_MAX, 0);
  }

  lemma HoldingIsInPhase(th: Thresholds, ys: seq<Sample>)
    requires Ordered(ys) && NotYet(th, ys) && TakenLast(th, ys, Needed(th.debounce))
    ensures InPhase(FedAll(th, START, ys))
  {
    hide Ordered, TakenLast, FedAll, InPhase, NotYet;
    CountsTaken(th, ys, Needed(th.debounce));
    NothingTaken(th, Needed(th.debounce));
    SettledCount(th, ys);
    RunMeaning(th, ys);
    Flagged(th, ys);
  }

  /** Looking like it for the debounce count is enough. */
  lemma HoldingGetsThere(th: Thresholds, ys: seq<Sample>)
    requires Ordered(ys) && TakenLast(th, ys, Needed(th.debounce))
    ensures Reachable(th)
  {
    hide Ordered, TakenLast, FedAll, InPhase;
    if NotYet(th, ys) {
      HoldingIsInPhase(th, ys);
    } else {
      var k :| 0 <= k < |ys| && FedAll(th, START, ys[..k]).debounce.inCv;
      OrderedParts(ys, 0, k);
      Flagged(th, ys[..k]);
    }
  }

  lemma SettledCount(th: Thresholds, ys: seq<Sample>)
    requires ys != []
    ensures var d := FedAll(th, START, ys).debounce;
      d.counter >= th.debounce ==> d.confirmed == d.candidate
  {
    LastFed(th, ys);
    hide FedAll, CandidateFor;
  }

  /** And nothing less is. */
  lemma {:induction false} ReachedByHolding(th: Thresholds, ys: seq<Sample>) returns (n: nat)
    requires FedAll(th, START, ys).debounce.inCv
    ensures n <= |ys| && TakenLast(th, ys[..n], Needed(th.debounce))
    decreases |ys|
  {
    hide TakenLast, Taken, CandidateFor, FedAll;
    if NotYet(th, ys) {
      n := |ys|;
      assert ys[..n] == ys;
      NothingFed(th);
      NotYetBefore(th, ys);
      TakenIsCandidate(th, ys);
      CountsTaken(th, ys, 0);
      FewerTaken(th, ys, FedAll(th, START, ys).debounce.counter, Needed(th.debounce));
    } else {
      var k :| 0 <= k < |ys| && FedAll(th, START, ys[..k]).debounce.inCv;
      n := ReachedByHolding(th, ys[..k]);
      assert ys[..k][..n] == ys[..n];
    }
  }

  lemma FewerTaken(th: Thresholds, ys: seq<Sample>, j: nat, i: nat)
    requires TakenLast(th, ys, j) && i <= j
    ensures TakenLast(th, ys, i)
  {
  }

  // ----- which thresholds let it be reached ------------------------------------------------------

  /** Some stretch of samples can decline fast enough: any does when even no decline is fast enough, and
      otherwise samples at different times must be looked at. */
  predicate CanDecline(th: Thresholds) {
    th.splitWindowS >= 0.0 && (th.declineRate > 0.0 || (th.splitWindowS > 0.0 && th.cvWindowS > 0.0))
  }

  /** A current of at most zero that counts as charging and can follow a positive one far enough down. */
  predicate ChargesBelow(th: Thresholds) {
    || (th.dropRatio <= 1.0 && Charging(th, 0.0))
    || (th.chargeMin < 0.0 && th.dischargeMin > 0.0
        && (th.rest > 0.0 ==> th.chargeMin < -th.rest && th.dischargeMin >= th.rest))
  }

  /** For the debounce count the current can stay that far below the peak held in the window: a fading
      positive current can for any ratio below 1, others only until the peak leaves the window. */
  predicate CanDrop(th: Thresholds) {
    th.dropRatio < 1.0 || (Needed(th.debounce) < CV_WINDOW_MAX && ChargesBelow(th))
  }

  /** Two of the three signals can be held. */
  predicate Attainable(th: Thresholds) {
    th.cvWindowS >= 0.0 && One(CanDecline(th)) + One(CanDrop(th)) + One(th.plateau > 0.0) >= 2
  }

  // ----- only those -----------------------------------------------------------------------------

  /** What is looked at when the newest sample is fed. */
  lemma Seen(w: seq<Sample>, now: real, span: real)
    requires Ordered(w) && w != [] && w[|w| - 1].t == now
    ensures var seen := Since(w, now - span);
      && Ordered(seen) && (forall k :: 0 <= k < |seen| ==> now - span <= seen[k].t <= now && seen[k] in w)
      && (span < 0.0 ==> seen == [])
      && (span >= 0.0 ==> seen != [] && seen[|seen| - 1] == w[|w| - 1])
      && ((forall k :: 0 <= k < |w| ==> w[k].t >= now - span) ==> seen == w)
  {
    var k := SinceIsSuffix(w, now - span);
    OrderedParts(w, k, 0);
    hide Since;
    var seen := w[k..];
    forall j | 0 <= j < |seen|
      ensures now - span <= seen[j].t <= now && seen[j] in w
    {
      assert seen[j] == w[k + j] && w[k + j].t <= w[|w| - 1].t;
    }
    assert span >= 0.0 ==> k < |w|;
  }

  lemma SlopeAtOneTime(w: seq<Sample>, now: real)
    requires w != [] && forall k :: 0 <= k < |w| ==> w[k].t == now
    ensures CurrentSlope(w) == 0.0
  {
    hide Slope.LinearSlope;
    Slope.ShiftInvariant(Times(w), Currents(w), w[0].t);
    Slope.NoSpreadNoSlope(Times(w), Currents(w));
  }

  lemma DecliningNeeds(th: Thresholds, w: seq<Sample>, now: real)
    requires Ordered(w) && w != [] && w[|w| - 1].t == now
    requires Declining(th, Since(w, now - th.cvWindowS), now)
    ensures CanDecline(th)
  {
    hide CurrentSlope, Since, Ordered;
    Seen(w, now, th.cvWindowS);
    var recent := Since(w, now - th.cvWindowS);
    if recent != [] {
      Seen(recent, now, th.splitWindowS);
    } else {
      assert Since([], now - th.splitWindowS) == [] by { SinceNothing(now - th.splitWindowS); }
    }
    var split := Since(recent, now - th.splitWindowS);
    if th.splitWindowS <= 0.0 || th.cvWindowS <= 0.0 {
      SlopeAtOneTime(split, now);
    }
  }

  lemma SinceNothing(cutoff: real)
    ensures Since([], cutoff) == []
  {
  }

  lemma DroppedNeeds(th: Thresholds, recent: seq<Sample>)
    requires recent != [] && Dropped(th, recent)
    ensures th.dropRatio >= 1.0 ==>
      recent[|recent| - 1].i <= 0.0 && (recent[|recent| - 1].i < 0.0 || th.dropRatio == 1.0)
    ensures exists j :: 0 <= j < |recent| && recent[j].i > 0.0
  {
    var last, peak := recent[|recent| - 1].i, Highest(Currents(recent));
    Share(last, peak);
    var j :| 0 <= j < |recent| && Currents(recent)[j] == peak;
  }

  lemma Share(last: real, peak: real)
    requires peak > 0.0
    ensures last / peak <= 0.0 <==> last <= 0.0
    ensures last / peak < 0.0 <==> last < 0.0
  {
    var share := last / peak;
    assert share * peak == last;
  }

  lemma PlateauNeeds(th: Thresholds, recent: seq<Sample>)
    requires recent != [] && Plateau(th, recent)
    ensures th.plateau > 0.0
  {
    assert Lowest(Voltages(recent)) <= Voltages(recent)[0] <= Highest(Voltages(recent));
  }

  /** The newest sample is at most zero, and some sample held is positive. */
  ghost predicate BelowAPeak(ys: seq<Sample>) {
    ys != [] && ys[|ys| - 1].i <= 0.0 && exists x :: x in Last(ys) && x.i > 0.0
  }

  lemma TakenNeeds(th: Thresholds, ys: seq<Sample>)
    requires Ordered(ys) && Taken(th, ys)
    ensures th.cvWindowS >= 0.0 && One(CanDecline(th)) + One(th.plateau > 0.0) >= 1
    ensures One(CanDecline(th)) + One(th.plateau > 0.0) < 2 && th.dropRatio >= 1.0 ==>
      ChargesBelow(th) && BelowAPeak(ys)
  {
    hide Declining, Dropped, Plateau, CanDecline, Since, Ordered, Last;
    var w, x := Last(ys), ys[|ys| - 1];
    LastIsEnd(ys);
    Seen(w, x.t, th.cvWindowS);
    var recent := Since(w, x.t - th.cvWindowS);
    if Declining(th, recent, x.t) {
      DecliningNeeds(th, w, x.t);
    }
    if Plateau(th, recent) {
      PlateauNeeds(th, recent);
    }
    if Dropped(th, recent) {
      DroppedNeeds(th, recent);
    }
  }

  lemma LastIsEnd(ys: seq<Sample>)
    requires Ordered(ys) && ys != []
    ensures var w := Last(ys);
      && Ordered(w) && w != [] && w[|w| - 1] == ys[|ys| - 1] && |w| <= CV_WINDOW_MAX
      && forall x :: x in w ==> exists k :: 0 <= k < |ys| && |ys| - CV_WINDOW_MAX <= k && ys[k] == x
  {
    var a := if |ys| <= CV_WINDOW_MAX then 0 else |ys| - CV_WINDOW_MAX;
    OrderedParts(ys, a, 0);
    assert Last(ys) == ys[a..];
  }

  lemma LastAreLow(ys: seq<Sample>, j: nat)
    requires j <= |ys| && forall k :: |ys| - j < k <= |ys| ==> BelowAPeak(ys[..k])
    ensures forall i :: |ys| - j <= i < |ys| ==> ys[i].i <= 0.0
  {
    hide Last;
    forall i | |ys| - j <= i < |ys|
      ensures ys[i].i <= 0.0
    {
      assert BelowAPeak(ys[..i + 1]) && ys[..i + 1][i] == ys[i];
    }
  }

  /** A peak is held for fewer samples than the window is long. */
  lemma PeakLeaves(ys: seq<Sample>, j: nat)
    requires Ordered(ys) && j <= |ys| && forall k :: |ys| - j < k <= |ys| ==> BelowAPeak(ys[..k])
    ensures j < CV_WINDOW_MAX
  {
    hide Last, Ordered;
    if j > 0 {
      LastAreLow(ys, j);
      assert ys[..|ys|] == ys && BelowAPeak(ys);
      LastIsEnd(ys);
      var x :| x in Last(ys) && x.i > 0.0;
      var k :| 0 <= k < |ys| && |ys| - CV_WINDOW_MAX <= k && ys[k] == x;
      assert k < |ys| - j;
    }
  }

  lemma ReachableNeeds(th: Thresholds, ys: seq<Sample>)
    requires Ordered(ys) && InPhase(FedAll(th, START, ys))
    ensures Attainable(th)
  {
    hide Ordered, FedAll, Taken, CanDecline, ChargesBelow, BelowAPeak;
    var n := ReachedByHolding(th, ys);
    var zs, need := ys[..n], Needed(th.debounce);
    OrderedParts(ys, 0, n);
    assert zs[..|zs|] == zs;
    TakenNeeds(th, zs);
    if One(CanDecline(th)) + One(th.plateau > 0.0) < 2 && th.dropRatio >= 1.0 {
      forall k | |zs| - need < k <= |zs|
        ensures BelowAPeak(zs[..k])
      {
        OrderedParts(zs, 0, k);
        TakenNeeds(th, zs[..k]);
      }
      PeakLeaves(zs, need);
    }
  }

  // ----- and all of those -------------------------------------------------------------------------

  function Scaled(a: real, h: real): real {
    a * h
  }

  /** Currents fed at times that put them on one line of slope -1/h, or all at once for h = 0, with a
      steady voltage. */
  function Trace(cs: seq<real>, h: real): (ys: seq<Sample>)
    requires cs != []
    ensures |ys| == |cs|
    ensures forall k :: 0 <= k < |cs| ==> ys[k] == Sample(Scaled(cs[0] - cs[k], h), cs[k], 0.0)
  {
    seq(|cs|, k requires 0 <= k < |cs| => Sample(Scaled(cs[0] - cs[k], h), cs[k], 0.0))
  }

  ghost predicate Falls(cs: seq<real>) {
    forall j, k :: 0 <= j < k < |cs| ==> cs[j] >= cs[k]
  }

  lemma ScaledGrows(a: real, b: real, h: real)
    requires a <= b && h >= 0.0
    ensures Scaled(a, h) <= Scaled(b, h)
    ensures Scaled(0.0, h) == 0.0
    ensures h == 0.0 ==> Scaled(a, h) == 0.0
  {
    assert (b - a) * h >= 0.0;
  }

  /** A sample of such a trace, fed within a time span. */
  predicate Traced(x: Sample, top: real, h: real, span: real) {
    0.0 <= x.t <= span && (h == 0.0 ==> x.t == 0.0) && x.t == Scaled(top - x.i, h) && x.v == 0.0
  }

  lemma TraceIsTraced(cs: seq<real>, h: real, k: nat)
    requires Falls(cs) && h >= 0.0 && k < |cs|
    ensures Traced(Trace(cs, h)[k], cs[0], h, Scaled(cs[0] - cs[|cs| - 1], h))
  {
    hide Scaled;
    ScaledGrows(0.0, cs[0] - cs[k], h);
    ScaledGrows(cs[0] - cs[k], cs[0] - cs[|cs| - 1], h);
  }

  lemma TraceIsOrdered(cs: seq<real>, h: real)
    requires Falls(cs) && h >= 0.0 && cs != []
    ensures Ordered(Trace(cs, h))
  {
    hide Scaled;
    var ys := Trace(cs, h);
    forall i, j | 0 <= i < j < |cs|
      ensures ys[i].t <= ys[j].t
    {
      ScaledGrows(cs[0] - cs[i], cs[0] - cs[j], h);
    }
  }

  lemma LastOfPrefix(ys: seq<Sample>, k: nat)
    requires Ordered(ys) && 4 < k <= |ys|
    ensures var w, a := Last(ys[..k]), if k <= CV_WINDOW_MAX then 0 else k - CV_WINDOW_MAX;
      && Ordered(w) && |w| == k - a >= 5 && forall j :: 0 <= j < |w| ==> w[j] == ys[a + j]
  {
    hide Ordered;
    var a := if k <= CV_WINDOW_MAX then 0 else k - CV_WINDOW_MAX;
    OrderedParts(ys, 0, k);
    OrderedParts(ys[..k], a, 0);
    assert Last(ys[..k]) == ys[..k][a..];
  }

  /** What is held after the first k samples of a trace. */
  lemma TraceHeld(cs: seq<real>, h: real, k: nat)
    requires Falls(cs) && h >= 0.0 && 4 < k <= |cs|
    ensures var ys, span := Trace(cs, h), Scaled(cs[0] - cs[|cs| - 1], h);
      var w := Last(ys[..k]);
      && Ordered(w) && |w| >= 5 && w[|w| - 1] == ys[k - 1]
      && forall j :: 0 <= j < |w| ==> Traced(w[j], cs[0], h, span)
  {
    hide *;
    var ys := Trace(cs, h);
    TraceIsOrdered(cs, h);
    LastOfPrefix(ys, k);
    var w, a := Last(ys[..k]), k - |Last(ys[..k])|;
    forall j | 0 <= j < |w|
      ensures Traced(w[j], cs[0], h, Scaled(cs[0] - cs[|cs| - 1], h))
    {
      TraceIsTraced(cs, h, a + j);
    }
  }

  /** Not all of the same current. */
  ghost predicate Varied(w: seq<Sample>) {
    exists j :: 0 <= j < |w| && w[j].i != w[|w| - 1].i
  }

  lemma SlopeOfTrace(w: seq<Sample>, top: real, h: real, span: real)
    requires w != [] && h > 0.0 && Varied(w)
    requires forall j :: 0 <= j < |w| ==> Traced(w[j], top, h, span)
    ensures CurrentSlope(w) == -1.0 / h
  {
    var b := -1.0 / h;
    forall j | 0 <= j < |w|
      ensures Slope.Residual(Times(w)[j], Currents(w)[j], top, b) == 0.0
    {
      OnTheLine(top, w[j].i, h);
    }
    var j :| 0 <= j < |w| && w[j].i != w[|w| - 1].i;
    ScaledDiffers(top - w[j].i, top - w[|w| - 1].i, h);
    assert Times(w)[j] != Times(w)[|w| - 1];
    hide CurrentSlope, Scaled;
    SlopeOfLine(w, top, b);
  }

  lemma OnTheLine(top: real, i: real, h: real)
    requires h > 0.0
    ensures Slope.Residual(Scaled(top - i, h), i, top, -1.0 / h) == 0.0
  {
    var b := -1.0 / h;
    assert b * h == -1.0;
    assert b * ((top - i) * h) == (b * h) * (top - i);
  }

  lemma ScaledDiffers(a: real, b: real, h: real)
    requires a != b && h > 0.0
    ensures Scaled(a, h) != Scaled(b, h)
  {
    if a < b {
      assert (b - a) * h > 0.0;
    } else {
      assert (a - b) * h > 0.0;
    }
  }

  /** A time scale at which a fall by `range` fits into the windows and, if anything can, declines fast
      enough. */
  function Pace(th: Thresholds, range: real): real
    requires range >= 0.0
  {
    if !CanDecline(th) || th.declineRate > 0.0 then 0.0
    else
      var window := if th.cvWindowS < th.splitWindowS then th.cvWindowS else th.splitWindowS;
      var fit, steep := window / (range + 1.0), 1.0 / (1.0 - th.declineRate);
      if fit < steep then fit else steep
  }

  lemma PaceFits(th: Thresholds, range: real)
    requires th.cvWindowS >= 0.0 && range >= 0.0
    ensures var h := Pace(th, range);
      && h >= 0.0 && Scaled(range, h) <= th.cvWindowS
      && (CanDecline(th) ==> Steep(th, h, Scaled(range, h)))
  {
    if CanDecline(th) && th.declineRate <= 0.0 {
      var h := Pace(th, range);
      var window := if th.cvWindowS < th.splitWindowS then th.cvWindowS else th.splitWindowS;
      FitsWindow(window, range, h);
      SteepEnough(th.declineRate, h);
    }
  }

  lemma FitsWindow(window: real, range: real, h: real)
    requires window > 0.0 && range >= 0.0 && h <= window / (range + 1.0)
    ensures window / (range + 1.0) > 0.0 && (h >= 0.0 ==> Scaled(range, h) <= window)
  {
    var fit := window / (range + 1.0);
    assert fit * (range + 1.0) == window;
    assert fit <= 0.0 ==> (-fit) * (range + 1.0) >= 0.0;
    assert (fit - h) * range >= 0.0;
  }

  lemma SteepEnough(rate: real, h: real)
    requires rate <= 0.0 && h <= 1.0 / (1.0 - rate)
    ensures 1.0 / (1.0 - rate) > 0.0 && (h > 0.0 ==> -1.0 / h < rate)
  {
    var steep := 1.0 / (1.0 - rate);
    assert steep * (1.0 - rate) == 1.0;
    assert steep <= 0.0 ==> (-steep) * (1.0 - rate) >= 0.0;
    if h > 0.0 {
      var b := 1.0 / h;
      assert b * h == 1.0;
      assert (steep - h) * (1.0 - rate) >= 0.0;
      assert h * (1.0 - rate) <= b * h;
      assert b < 1.0 - rate ==> (1.0 - rate - b) * h > 0.0;
    }
  }

  /** Declines fast enough over this span of time. */
  predicate Steep(th: Thresholds, h: real, span: real) {
    span <= th.splitWindowS && if h == 0.0 then th.declineRate > 0.0 else -1.0 / h < th.declineRate
  }

  lemma TracedDeclines(th: Thresholds, w: seq<Sample>, top: real, h: real, span: real)
    requires Ordered(w) && |w| >= 5 && Varied(w) && h >= 0.0 && Steep(th, h, span)
    requires forall j :: 0 <= j < |w| ==> Traced(w[j], top, h, span)
    ensures Declining(th, w, w[|w| - 1].t)
  {
    hide Scaled, Ordered, Varied, CurrentSlope, Since;
    var now := w[|w| - 1].t;
    Seen(w, now, th.splitWindowS);
    if h == 0.0 {
      SlopeAtOneTime(w, now);
    } else {
      SlopeOfTrace(w, top, h, span);
    }
  }

  lemma TracedIsPhase(th: Thresholds, w: seq<Sample>, top: real, h: real, span: real)
    requires Ordered(w) && |w| >= 5 && Varied(w) && h >= 0.0 && span <= th.cvWindowS
    requires forall j :: 0 <= j < |w| ==> Traced(w[j], top, h, span)
    requires CanDecline(th) ==> Steep(th, h, span)
    requires One(CanDecline(th)) + One(Dropped(th, w)) + One(th.plateau > 0.0) >= 2
    ensures IsCvPhase(th, w, w[|w| - 1].t)
  {
    hide Scaled, Ordered, Varied, Dropped, Declining, Plateau, Since, CanDecline, Steep;
    Seen(w, w[|w| - 1].t, th.cvWindowS);
    if CanDecline(th) {
      TracedDeclines(th, w, top, h, span);
    }
    if th.plateau > 0.0 {
      SteadyIsPlateau(th, w);
    }
  }

  lemma TakenMeans(th: Thresholds, ys: seq<Sample>)
    requires ys != [] && Charging(th, ys[|ys| - 1].i) && IsCvPhase(th, Last(ys), ys[|ys| - 1].t)
    ensures Taken(th, ys)
  {
  }

  /** The trace of these currents at the pace that suits the thresholds. */
  function Paced(th: Thresholds, cs: seq<real>): (ys: seq<Sample>)
    requires cs != [] && cs[0] >= cs[|cs| - 1]
    ensures |ys| == |cs| && forall k :: 0 <= k < |cs| ==> ys[k].i == cs[k]
  {
    Trace(cs, Pace(th, cs[0] - cs[|cs| - 1]))
  }

  lemma PacedIs(th: Thresholds, cs: seq<real>)
    requires cs != [] && cs[0] >= cs[|cs| - 1]
    ensures Paced(th, cs) == Trace(cs, Pace(th, cs[0] - cs[|cs| - 1]))
  {
  }

  /** It looks like the phase at each sample after the first four, if the currents charge and two signals
      show. */
  lemma PacedIsTaken(th: Thresholds, cs: seq<real>, k: nat)
    requires th.cvWindowS >= 0.0 && 4 < k <= |cs| && Falls(cs) && cs[0] >= cs[|cs| - 1] && Charging(th, cs[k - 1])
    requires var w := Last(Paced(th, cs)[..k]);
      w != [] && Varied(w) && One(CanDecline(th)) + One(Dropped(th, w)) + One(th.plateau > 0.0) >= 2
    ensures Taken(th, Paced(th, cs)[..k])
  {
    hide *;
    var range := cs[0] - cs[|cs| - 1];
    var h := Pace(th, range);
    var ys := Trace(cs, h);
    PacedIs(th, cs);
    PaceFits(th, range);
    TraceHeld(cs, h, k);
    var w := Last(ys[..k]);
    TracedIsPhase(th, w, cs[0], h, Scaled(range, h));
    assert ys[..k][k - 1] == ys[k - 1];
    TakenMeans(th, ys[..k]);
  }

  lemma SteadyIsPlateau(th: Thresholds, recent: seq<Sample>)
    requires recent != [] && th.plateau > 0.0 && forall k :: 0 <= k < |recent| ==> recent[k].v == recent[0].v
    ensures Plateau(th, recent)
  {
  }

  /** What remains of a fading current from one sample to the next. */
  function Remaining(th: Thresholds): (r: real)
    ensures 0.0 < r < 1.0 && (th.dropRatio < 1.0 ==> 1.0 - r >= th.dropRatio)
  {
    if 0.5 < th.dropRatio < 1.0 then 1.0 - th.dropRatio else 0.5
  }

  /** Its value m samples before the last, where it still charges. */
  function Level(th: Thresholds, m: nat): real {
    if m == 0 then Abs(th.rest) + Abs(th.chargeMin) + Abs(th.dischargeMin) + 1.0
    else Level(th, m - 1) / Remaining(th)
  }

  lemma Quotient(last: real, r: real)
    requires 0.0 < r < 1.0 && last > 0.0
    ensures last / r > last && last / r * r == last
  {
    var q := last / r;
    assert q * r == last;
    assert last * (1.0 - r) > 0.0;
    assert q <= last ==> (last - q) * r >= 0.0;
  }

  lemma HighCharges(th: Thresholds, i: real)
    requires i >= Level(th, 0)
    ensures i > 0.0 && Charging(th, i)
  {
  }

  lemma {:induction false} LevelCharges(th: Thresholds, m: nat)
    ensures Level(th, m) > 0.0 && Charging(th, Level(th, m)) && Level(th, m) >= Level(th, 0)
    ensures m > 0 ==> Level(th, m) * Remaining(th) == Level(th, m - 1) < Level(th, m)
  {
    hide Remaining, Charging, Abs;
    if m == 0 {
    } else {
      LevelCharges(th, m - 1);
      Quotient(Level(th, m - 1), Remaining(th));
    }
    HighCharges(th, Level(th, m));
  }

  lemma {:induction false} LevelsFall(th: Thresholds, m: nat, n: nat)
    requires m <= n
    ensures Level(th, m) <= Level(th, n)
    decreases n
  {
    hide Level;
    if m == n {
    } else {
      LevelsFall(th, m, n - 1);
      LevelCharges(th, n);
    }
  }

  function Fade(th: Thresholds, n: nat): (cs: seq<real>)
    ensures |cs| == n && forall k :: 0 <= k < n ==> cs[k] == Level(th, n - 1 - k)
  {
    seq(n, k requires 0 <= k < n => Level(th, n - 1 - k))
  }

  lemma FadeFalls(th: Thresholds, n: nat)
    ensures Falls(Fade(th, n))
  {
    hide Level;
    var cs := Fade(th, n);
    forall j, k | 0 <= j < k < n
      ensures cs[j] >= cs[k]
    {
      LevelsFall(th, n - 1 - k, n - 1 - j);
    }
  }

  /** A fading current has dropped by the next sample. */
  lemma FadedDrops(th: Thresholds, w: seq<Sample>, m: nat)
    requires |w| >= 2 && w[|w| - 1].i == Level(th, m) && w[|w| - 2].i == Level(th, m + 1)
    ensures Varied(w) && (th.dropRatio < 1.0 ==> Dropped(th, w))
  {
    hide Level, Remaining, Charging;
    var prev, last := w[|w| - 2].i, w[|w| - 1].i;
    LevelCharges(th, m + 1);
    assert Currents(w)[|w| - 2] == prev;
    ShareOfPeak(prev, Highest(Currents(w)), last, Remaining(th));
  }

  lemma ShareOfPeak(prev: real, peak: real, last: real, r: real)
    requires 0.0 < prev <= peak && 0.0 < r && last == prev * r
    ensures last / peak <= r
  {
    var share := last / peak;
    assert share * peak == last;
    assert (peak - prev) * r >= 0.0;
    assert last <= r * peak;
    if share > r {
      assert (share - r) * peak > 0.0;
    }
  }

  /** A current of at most zero that charges. */
  function Bottom(th: Thresholds): (i: real)
    requires th.dropRatio >= 1.0 && ChargesBelow(th)
    ensures Charging(th, i) && (i < 0.0 || (i == 0.0 && th.dropRatio == 1.0))
  {
    if th.dropRatio <= 1.0 && Charging(th, 0.0) then 0.0
    else if th.rest > 0.0 then -th.rest
    else if -th.dischargeMin > th.chargeMin / 2.0 then -th.dischargeMin else th.chargeMin / 2.0
  }

  function Peak(th: Thresholds): real
    requires th.dropRatio >= 1.0 && ChargesBelow(th)
  {
    if Bottom(th) == 0.0 then 1.0 else -Bottom(th) / th.dropRatio
  }

  lemma BottomIsFarDown(th: Thresholds)
    requires th.dropRatio >= 1.0 && ChargesBelow(th)
    ensures Peak(th) > 0.0 && 1.0 - Bottom(th) / Peak(th) >= th.dropRatio
  {
    var b, p := Bottom(th), Peak(th);
    if b < 0.0 {
      hide Bottom, Peak;
      assert p == -b / th.dropRatio by { PeakIs(th); }
      FarDown(b, th.dropRatio);
    }
  }

  lemma PeakIs(th: Thresholds)
    requires th.dropRatio >= 1.0 && ChargesBelow(th) && Bottom(th) < 0.0
    ensures Peak(th) == -Bottom(th) / th.dropRatio
  {
  }

  lemma FarDown(b: real, ratio: real)
    requires b < 0.0 && ratio >= 1.0
    ensures var p := -b / ratio; p > 0.0 && b / p == -ratio
  {
    var p := -b / ratio;
    assert p * ratio == -b;
    assert p <= 0.0 ==> (-p) * ratio >= 0.0;
    var q := b / p;
    assert q * p == b == -ratio * p;
    assert (q + ratio) * p == 0.0;
  }

  /** Four samples at the peak, then the bottom for as long as it takes. */
  function Fall(th: Thresholds, n: nat): (cs: seq<real>)
    requires th.dropRatio >= 1.0 && ChargesBelow(th)
    ensures |cs| == n && forall k :: 0 <= k < n ==> cs[k] == if k < 4 then Peak(th) else Bottom(th)
  {
    seq(n, k => if k < 4 then Peak(th) else Bottom(th))
  }

  lemma FallDrops(th: Thresholds, w: seq<Sample>, j: nat)
    requires th.dropRatio >= 1.0 && ChargesBelow(th)
    requires j < |w| && w[j].i == Peak(th) && w[|w| - 1].i == Bottom(th)
    requires forall k :: 0 <= k < |w| ==> w[k].i == Peak(th) || w[k].i == Bottom(th)
    ensures Varied(w) && Dropped(th, w)
  {
    BottomIsFarDown(th);
    hide Peak, Bottom;
    assert Currents(w)[j] == Peak(th);
    assert Highest(Currents(w)) == Peak(th);
  }

  /** What is held after the first k samples at that pace. */
  lemma PacedHeld(th: Thresholds, cs: seq<real>, k: nat)
    requires Falls(cs) && 4 < k <= |cs| && cs[0] >= cs[|cs| - 1] && th.cvWindowS >= 0.0
    ensures var w, a := Last(Paced(th, cs)[..k]), if k <= CV_WINDOW_MAX then 0 else k - CV_WINDOW_MAX;
      && |w| == k - a && Ordered(Paced(th, cs))
      && forall j :: 0 <= j < |w| ==> w[j].i == cs[a + j]
  {
    hide *;
    PacedIs(th, cs);
    PaceFits(th, cs[0] - cs[|cs| - 1]);
    TraceIsOrdered(cs, Pace(th, cs[0] - cs[|cs| - 1]));
    LastOfPrefix(Paced(th, cs), k);
  }

  lemma PacedGetsThere(th: Thresholds, cs: seq<real>)
    requires Falls(cs) && |cs| == 4 + Needed(th.debounce) && cs[0] >= cs[|cs| - 1] && th.cvWindowS >= 0.0
    requires forall k :: 4 < k <= |cs| ==> Taken(th, Paced(th, cs)[..k])
    ensures Reachable(th)
  {
    hide Falls, Charging, Taken, Paced, Last, Ordered, Reachable;
    PacedHeld(th, cs, |cs|);
    HoldingGetsThere(th, Paced(th, cs));
  }

  /** By a fading current. */
  lemma FadeGetsThere(th: Thresholds)
    requires th.cvWindowS >= 0.0 && One(CanDecline(th)) + One(th.dropRatio < 1.0) + One(th.plateau > 0.0) >= 2
    ensures Reachable(th)
  {
    hide Level, Falls, Charging, Taken, Paced, Last, Ordered, Reachable, CanDecline, Varied, Dropped;
    var n := 4 + Needed(th.debounce);
    var cs := Fade(th, n);
    FadeFalls(th, n);
    LevelsFall(th, 0, n - 1);
    assert cs[0] == Level(th, n - 1) && cs[|cs| - 1] == Level(th, 0);
    forall k | 4 < k <= n
      ensures Taken(th, Paced(th, cs)[..k])
    {
      LevelCharges(th, n - k);
      PacedHeld(th, cs, k);
      FadedDrops(th, Last(Paced(th, cs)[..k]), n - k);
      PacedIsTaken(th, cs, k);
    }
    PacedGetsThere(th, cs);
  }

  /** Or by one that falls once below a peak. */
  lemma FallGetsThere(th: Thresholds)
    requires th.cvWindowS >= 0.0 && th.dropRatio >= 1.0 && CanDrop(th)
    requires CanDecline(th) || th.plateau > 0.0
    ensures Reachable(th)
  {
    hide Peak, Bottom, Falls, Charging, Taken, Paced, Last, Ordered, Reachable, CanDecline, Varied, Dropped;
    hide ChargesBelow;
    var n := 4 + Needed(th.debounce);
    var cs := Fall(th, n);
    BottomIsFarDown(th);
    FallFalls(th, n);
    forall k | 4 < k <= n
      ensures Taken(th, Paced(th, cs)[..k])
    {
      PacedHeld(th, cs, k);
      FallDrops(th, Last(Paced(th, cs)[..k]), if k <= CV_WINDOW_MAX then 3 else 3 - (k - CV_WINDOW_MAX));
      PacedIsTaken(th, cs, k);
    }
    PacedGetsThere(th, cs);
  }

  lemma FallFalls(th: Thresholds, n: nat)
    requires th.dropRatio >= 1.0 && ChargesBelow(th) && Peak(th) > 0.0
    ensures Falls(Fall(th, n))
  {
    hide Peak;
  }

  /** A run from the start, with samples in time order, gets into the phase for exactly the thresholds with
      which two of the three signals can be held. */
  lemma ReachableExactlyWhen(th: Thresholds)
    ensures Reachable(th) <==> Attainable(th)
  {
    hide Ordered, InPhase, FedAll, CanDecline, CanDrop, ChargesBelow;
    forall ys: seq<Sample> | Ordered(ys) && InPhase(FedAll(th, START, ys))
      ensures Attainable(th)
    {
      ReachableNeeds(th, ys);
    }
    if Attainable(th) {
      if th.dropRatio < 1.0 || !CanDrop(th) {
        RatioCanDrop(th);
        FadeGetsThere(th);
      } else {
        FallGetsThere(th);
      }
    }
  }

  lemma RatioCanDrop(th: Thresholds)
    ensures th.dropRatio < 1.0 ==> CanDrop(th)
  {
  }

  // ----- over whole runs ----------------------------------------------------------------------

  lemma OrderedJoin(xs: seq<Sample>, ys: seq<Sample>)
    requires Ordered(xs) && Ordered(ys)
    requires xs != [] ==> forall k :: 0 <= k < |ys| ==> ys[k].t >= xs[|xs| - 1].t
    ensures Ordered(xs + ys)
  {
  }

  lemma PrefixOrdered(ys: seq<Sample>, xs: seq<Sample>)
    requires Ordered(ys + xs)
    ensures Ordered(ys)
  {
    assert forall k :: 0 <= k < |ys| ==> (ys + xs)[k] == ys[k];
  }

  lemma MisreadIsLate(th: Thresholds, s: State)
    ensures var w, xs := s.cvWindow, Misread(th, s);
      Ordered(xs) && (w != [] ==> forall k :: 0 <= k < |xs| ==> xs[k].t >= w[|w| - 1].t)
  {
    hide Ordered, RestThenBelow;
    var w, gap := s.cvWindow, Abs(th.cvWindowS) + Abs(th.splitWindowS) + 1.0;
    RestThenBelowIsLater(th, if w == [] then 0.0 else w[|w| - 1].t + gap, gap);
  }

  /** Every run that gets into the phase can go on to be misread, without one-sided thresholds. */
  lemma PhaseIsMisread(th: Thresholds, ys: seq<Sample>)
    requires !OneSided(th) && Ordered(ys) && InPhase(FedAll(th, START, ys))
    ensures var s := FedAll(th, START, ys);
      var xs := Misread(th, s);
      && Ordered(ys + xs) && FallsFromPhase(th, s, xs)
      && FedAll(th, START, ys + xs).debounce.confirmed == CC_CHARGE
  {
    hide *;
    var s := FedAll(th, START, ys);
    MisreadIsCc(th, s);
    HistoryIs(th, ys);
    if ys != [] {
      LastIsEnd(ys);
    }
    MisreadIsLate(th, s);
    OrderedJoin(ys, Misread(th, s));
    FedAllAppend(th, START, ys, Misread(th, s));
  }

  /** Over the runs of the detector from its start, with samples in time order: a current that never rises
      from within the phase on never gets constant-current charging confirmed. */
  ghost predicate NeverMisread(th: Thresholds) {
    forall ys: seq<Sample>, xs: seq<Sample> :: Ordered(ys + xs) && FallsFromPhase(th, FedAll(th, START, ys), xs) ==>
      FedAll(th, START, ys + xs).debounce.confirmed != CC_CHARGE
  }

  lemma FallsIsInPhase(th: Thresholds, s: State, xs: seq<Sample>)
    requires FallsFromPhase(th, s, xs)
    ensures InPhase(s)
  {
    PrefixOrdered(s.cvWindow, xs);
  }

  lemma OneSidedIsNeverMisread(th: Thresholds, ys: seq<Sample>, xs: seq<Sample>)
    requires th.exitSlope >= 0.0 && OneSided(th) && FallsFromPhase(th, FedAll(th, START, ys), xs)
    ensures FedAll(th, START, ys + xs).debounce.confirmed != CC_CHARGE
  {
    hide *;
    FallingCurrentIsNeverCc(th, FedAll(th, START, ys), xs);
    FedAllAppend(th, START, ys, xs);
  }

  /** That holds exactly for one-sided thresholds and those with which no run gets into the phase. */
  lemma NeverMisreadExactlyWhen(th: Thresholds)
    requires th.exitSlope >= 0.0
    ensures NeverMisread(th) <==> OneSided(th) || !Attainable(th)
  {
    hide Ordered, FallsFromPhase, FedAll, OneSided, Attainable, InPhase, Misread;
    ReachableExactlyWhen(th);
    forall ys: seq<Sample>, xs: seq<Sample> |
        (OneSided(th) || !Attainable(th)) && Ordered(ys + xs) && FallsFromPhase(th, FedAll(th, START, ys), xs)
      ensures FedAll(th, START, ys + xs).debounce.confirmed != CC_CHARGE
    {
      PrefixOrdered(ys, xs);
      FallsIsInPhase(th, FedAll(th, START, ys), xs);
      OneSidedIsNeverMisread(th, ys, xs);
    }
    forall ys: seq<Sample> | !OneSided(th) && Ordered(ys) && InPhase(FedAll(th, START, ys))
      ensures !NeverMisread(th)
    {
      PhaseIsMisread(th, ys);
    }
  }

  const DEFAULTS := Thresholds(0.005, 0.008, 0.008, -0.0005, 0.02, 0.2, 0.002, 2.0, 5.0, 5)

  /** With the default thresholds the phase is reached and never misread in this way. */
  lemma DefaultsReadRight()
    ensures Reachable(DEFAULTS) && NeverMisread(DEFAULTS)
  {
    hide Reachable, NeverMisread;
    ReachableExactlyWhen(DEFAULTS);
    NeverMisreadExactlyWhen(DEFAULTS);
  }

  // ----- one such run ---------------------------------------------------------------------------

  /** Thresholds nothing rejects, under which a small reverse current counts as charging. */
  const SPLIT := Thresholds(0.01, -0.05, 0.05, -0.0005, 0.02, 0.2, 0.002, 2.0, 5.0, 1)

  const DROPPING := [ Sample(0.0, 10.0, 3.0), Sample(1.0, 1.0, 3.0), Sample(2.0, 1.0, 3.0), Sample(3.0, 1.0, 3.0),
                      Sample(4.0, 1.0, 3.0) ]

  lemma DroppingIsTaken()
    ensures Ordered(DROPPING) && Taken(SPLIT, DROPPING)
  {
    hide Declining, Dropped, Plateau, Since;
    var w := DROPPING;
    Seen(w, 4.0, 5.0);
    SteadyIsPlateau(SPLIT, w);
    TenToOneDrops(w);
  }

  lemma TenToOneDrops(w: seq<Sample>)
    requires w != [] && w[0].i == 10.0 && w[|w| - 1].i == 1.0
    ensures Dropped(SPLIT, w)
  {
    assert Currents(w)[0] == 10.0;
    ShareOfPeak(10.0, Highest(Currents(w)), 1.0, 0.1);
  }

  /** With fewer than five samples the phase is never seen. */
  lemma FewAreOutside(th: Thresholds, ys: seq<Sample>)
    requires Ordered(ys) && |ys| < 5
    ensures !FedAll(th, START, ys).debounce.inCv
  {
    hide FedAll, Ordered, Taken;
    if FedAll(th, START, ys).debounce.inCv {
      var n := ReachedByHolding(th, ys);
      OrderedParts(ys, 0, n);
      assert ys[..n][..n] == ys[..n] && Taken(th, ys[..n]);
      TakenNeedsFive(th, ys[..n]);
    }
  }

  lemma TakenNeedsFive(th: Thresholds, ys: seq<Sample>)
    requires Ordered(ys) && Taken(th, ys)
    ensures |ys| >= 5
  {
    hide Ordered, Declining, Dropped, Plateau, Since, NeverFalls, NeverRises;
    OrderedParts(ys, if |ys| <= CV_WINDOW_MAX then 0 else |ys| - CV_WINDOW_MAX, 0);
    SinceKeeps(Last(ys), ys[|ys| - 1].t - th.cvWindowS);
  }

  lemma DroppingGetsThere()
    ensures Ordered(DROPPING) && InPhase(FedAll(SPLIT, START, DROPPING))
  {
    DroppingIsTaken();
    hide FedAll, Ordered, Taken, InPhase;
    forall k | 0 <= k < |DROPPING|
      ensures !FedAll(SPLIT, START, DROPPING[..k]).debounce.inCv
    {
      OrderedParts(DROPPING, 0, k);
      FewAreOutside(SPLIT, DROPPING[..k]);
    }
    assert DROPPING[..5] == DROPPING;
    HoldingIsInPhase(SPLIT, DROPPING);
  }

  /** Five samples of a falling current on a steady voltage lead into the phase; resting and then falling to
      -0.01 A from there, the current is reported as constant-current charging. */
  lemma SplitMisreads()
    ensures var s := FedAll(SPLIT, START, DROPPING);
      var xs := Misread(SPLIT, s);
      && InPhase(s) && Ordered(DROPPING + xs) && FallsFromPhase(SPLIT, s, xs)
      && FedAll(SPLIT, START, DROPPING + xs).debounce.confirmed == CC_CHARGE
  {
    hide Misread, FedAll, InPhase, FallsFromPhase;
    DroppingGetsThere();
    PhaseIsMisread(SPLIT, DROPPING);
  }
}
