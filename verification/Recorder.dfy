/** recorder.py: recording sessions. */
module PiRecorder {
  // Public calls put rows on a queue; a writer per session takes them off. Every interleaving of calls
  // and writer steps is a list of events.

  import opened Options

  /** One status frame: the sequence step it was taken in, the firmware's emit counter if known,
      and the rest of the row. */
  datatype Frame = Frame(step: int, fwSeq: Option<int>, payload: string)

  datatype Item = Row(frame: Frame) | Sentinel

  /** The recorder's fields for one session, with that session's queue. */
  datatype Rec = Rec(active: bool, count: nat, max: int, align: Option<int>, sawNonTarget: bool,
                     lastSeq: Option<int>, warnedSeqGap: bool, queue: seq<Item>)

  function Begun(max: int, align: Option<int>): Rec {
    Rec(true, 0, max, align, false, None, false, [])
  }

  predicate Waiting(r: Rec, f: Frame) {
    r.align.Some? && (f.step != r.align.value || !r.sawNonTarget)
  }

  predicate Gap(last: Option<int>, seq': Option<int>) {
    last.Some? && seq'.Some? && seq'.value != (last.value + 1) % 0x1_0000_0000
  }

  function Latest(last: Option<int>, seq': Option<int>): Option<int> {
    if seq'.Some? then seq' else last
  }

  function Recorded(r: Rec, f: Frame): Rec {
    if !r.active then r
    else if Waiting(r, f) then r.(sawNonTarget := r.sawNonTarget || f.step != r.align.value)
    else
      var full := r.max > 0 && r.count + 1 >= r.max;
      Rec(!full, r.count + 1, r.max, None, r.sawNonTarget, Latest(r.lastSeq, f.fwSeq),
          r.warnedSeqGap || Gap(r.lastSeq, f.fwSeq),
          r.queue + [Row(f)] + if full then [Sentinel] else [])
  }

  function Stopped(r: Rec): Rec {
    if r.active then r.(active := false, queue := r.queue + [Sentinel]) else r
  }

  /** A writer: whether its file opened, the rows in the file, the rows it had to drop, and whether
      it has finished. */
  datatype Writer = Writer(ready: bool, file: seq<Frame>, outcomes: seq<bool>, done: bool)

  function Taken(w: Writer, item: Item, ok: bool): Writer {
    match item
    case Sentinel => w.(done := true)
    case Row(f) =>
      var written := w.ready && ok;
      w.(file := w.file + if written then [f] else [], outcomes := w.outcomes + [written])
  }

  // ----- sessions and runs ------------------------------------------------------------------

  /** A session with what it was asked for and the frames it was offered while active. */
  datatype Session = Session(rec: Rec, writer: Writer, target: Option<int>, offered: seq<Frame>)

  datatype Event =
    | Start(max: int, align: Option<int>, ready: bool)
    | Record(frame: Frame)
    | Stop
    | Write(session: nat, ok: bool)

  function Offered(s: Session, f: Frame): Session {
    s.(rec := Recorded(s.rec, f), offered := if s.rec.active then s.offered + [f] else s.offered)
  }

  function Halted(s: Session): Session {
    s.(rec := Stopped(s.rec))
  }

  function Wrote(s: Session, ok: bool): Session {
    if s.writer.done || s.rec.queue == [] then s
    else s.(rec := s.rec.(queue := s.rec.queue[1..]), writer := Taken(s.writer, s.rec.queue[0], ok))
  }

  function Opened(max: int, align: Option<int>, ready: bool): Session {
    Session(Begun(max, align), Writer(ready, [], [], false), align, [])
  }

  /** The last session is the recorder's own; earlier ones only have their writers left. */
  function Next(ss: seq<Session>, e: Event): seq<Session> {
    var n := |ss| - 1;
    match e
    case Start(max, align, ready) => (if ss == [] then [] else ss[n := Halted(ss[n])]) + [Opened(max, align, ready)]
    case Record(f) => if ss == [] then ss else ss[n := Offered(ss[n], f)]
    case Stop => if ss == [] then ss else ss[n := Halted(ss[n])]
    case Write(k, ok) => if k < |ss| then ss[k := Wrote(ss[k], ok)] else ss
  }

  function Run(ss: seq<Session>, es: seq<Event>): seq<Session>
    decreases |es|
  {
    if es == [] then ss else Run(Next(ss, es[0]), es[1..])
  }

  // ----- what a session should contain ------------------------------------------------------

  /** The frame at k is in step n and directly follows one outside it. */
  predicate Enters(fs: seq<Frame>, n: int, k: int) {
    0 < k < |fs| && fs[k].step == n && fs[k - 1].step != n
  }

  /** The first frame that enters the step. */
  function FirstEntry(fs: seq<Frame>, n: int): (p: nat)
    ensures p <= |fs|
    ensures p < |fs| ==> Enters(fs, n, p)
    ensures forall q :: 0 <= q < p ==> !Enters(fs, n, q)
  {
    if fs == [] then 0
    else
      var m := |fs| - 1;
      var p := FirstEntry(fs[..m], n);
      assert forall q :: 0 <= q < m ==> Enters(fs[..m], n, q) == Enters(fs, n, q);
      if p < m then p
      else if Enters(fs, n, m) then m
      else m + 1
  }

  /** The frames a session should keep out of those it was offered. */
  function Aligned(fs: seq<Frame>, target: Option<int>): seq<Frame> {
    if target.None? then fs else fs[FirstEntry(fs, target.value)..]
  }

  function Rows(q: seq<Item>): seq<Frame> {
    if q == [] then []
    else Rows(q[..|q| - 1]) + (if q[|q| - 1].Row? then [q[|q| - 1].frame] else [])
  }

  function Stamps(fs: seq<Frame>): seq<int> {
    if fs == [] then []
    else Stamps(fs[..|fs| - 1]) + (if fs[|fs| - 1].fwSeq.Some? then [fs[|fs| - 1].fwSeq.value] else [])
  }

  predicate Contiguous(stamps: seq<int>) {
    forall k :: 0 < k < |stamps| ==> stamps[k] == (stamps[k - 1] + 1) % 0x1_0000_0000
  }

  predicate NoSentinel(q: seq<Item>) {
    forall k :: 0 <= k < |q| ==> q[k].Row?
  }

  /** While active no sentinel is queued; afterwards exactly one, behind every row, until the writer
      takes it, which empties the queue. */
  predicate QueueShape(s: Session) {
    var q := s.rec.queue;
    if s.rec.active then NoSentinel(q) && !s.writer.done
    else if s.writer.done then q == []
    else q != [] && q[|q| - 1] == Sentinel && NoSentinel(q[..|q| - 1])
  }

  /** The rows whose write succeeded. */
  function Written(fs: seq<Frame>, outcomes: seq<bool>): seq<Frame>
    requires |fs| == |outcomes|
  {
    if fs == [] then []
    else
      var n := |fs| - 1;
      Written(fs[..n], outcomes[..n]) + if outcomes[n] then [fs[n]] else []
  }

  /** Every row kept has been taken by the writer or is queued, in order; of those taken the file holds
      exactly the ones whose write succeeded. */
  predicate Conserved(s: Session) {
    var kept := Aligned(s.offered, s.target);
    var taken := |s.writer.outcomes|;
    && taken <= |kept| && kept[taken..] == Rows(s.rec.queue)
    && s.writer.file == Written(kept[..taken], s.writer.outcomes)
  }

  predicate Counted(s: Session) {
    && s.rec.count == |Aligned(s.offered, s.target)|
    && (s.rec.max > 0 ==> s.rec.count <= s.rec.max)
    && (s.rec.max > 0 && s.rec.active ==> s.rec.count < s.rec.max)
  }

  /** The gate is still up exactly while nothing has been kept, and remembers any frame outside the
      target step. */
  predicate Gated(s: Session) {
    if s.target.None? then s.rec.align.None?
    else if s.rec.count > 0 then s.rec.align.None?
    else
      && s.rec.align == s.target
      && (s.rec.sawNonTarget <==> exists k :: 0 <= k < |s.offered| && s.offered[k].step != s.target.value)
      && (s.offered != [] && s.rec.sawNonTarget ==> s.offered[|s.offered| - 1].step != s.target.value)
  }

  predicate GapTracked(s: Session) {
    var st := Stamps(Aligned(s.offered, s.target));
    && s.rec.lastSeq == (if st == [] then None else Some(st[|st| - 1]))
    && (s.rec.warnedSeqGap <==> !Contiguous(st))
  }

  predicate Good(s: Session) {
    QueueShape(s) && Conserved(s) && Counted(s) && Gated(s) && GapTracked(s)
  }

  ghost predicate AllGood(ss: seq<Session>) {
    && (forall k :: 0 <= k < |ss| ==> Good(ss[k]))
    && (forall k :: 0 <= k < |ss| - 1 ==> !ss[k].rec.active)
  }

  // ----- every event keeps every session good -----------------------------------------------

  lemma AlignedNext(fs: seq<Frame>, f: Frame, target: Option<int>)
    ensures target.None? ==> Aligned(fs + [f], target) == Aligned(fs, target) + [f]
    ensures target.Some? ==>
      (var enters := fs != [] && f.step == target.value && fs[|fs| - 1].step != target.value;
       Aligned(fs + [f], target) == if Aligned(fs, target) != [] || enters then Aligned(fs, target) + [f] else [])
  {
    assert (fs + [f])[..|fs|] == fs;
  }

  lemma RowsNext(q: seq<Item>, item: Item)
    ensures Rows(q + [item]) == Rows(q) + (if item.Row? then [item.frame] else [])
  {
    assert (q + [item])[..|q|] == q;
  }

  lemma {:induction false} RowsPop(q: seq<Item>)
    requires q != []
    ensures Rows(q) == (if q[0].Row? then [q[0].frame] else []) + Rows(q[1..])
  {
    hide Rows;
    RowsOfNothing();
    var front, last := q[..|q| - 1], q[|q| - 1];
    RowsNext(front, last);
    assert q == front + [last];
    if |q| == 1 {
      assert front == [] && q[1..] == [];
    } else {
      RowsPop(front);
      RowsNext(front[1..], last);
      assert q[1..] == front[1..] + [last] && front[0] == q[0];
    }
  }

  lemma StampsNext(fs: seq<Frame>, f: Frame)
    ensures Stamps(fs + [f]) == Stamps(fs) + (if f.fwSeq.Some? then [f.fwSeq.value] else [])
  {
    assert (fs + [f])[..|fs|] == fs;
  }

  lemma GapNext(st: seq<int>, last: Option<int>, seq': Option<int>)
    requires last == if st == [] then None else Some(st[|st| - 1])
    ensures var next := st + (if seq'.Some? then [seq'.value] else []);
      && (Contiguous(next) <==> Contiguous(st) && !Gap(last, seq'))
      && Latest(last, seq') == (if next == [] then None else Some(next[|next| - 1]))
  {
    if seq'.Some? {
      var next := st + [seq'.value];
      if st != [] && Contiguous(next) {
        assert next[|st|] == (next[|st| - 1] + 1) % 0x1_0000_0000;
        assert next[..|st|] == st;
        assert forall k :: 0 < k < |st| ==> st[k] == next[k];
      }
    } else {
      assert st + [] == st;
    }
  }

  /** What the recorder does with a frame agrees with what a session should keep. */
  lemma KeptNext(s: Session, f: Frame)
    requires s.rec.active && Gated(s) && Counted(s)
    ensures Aligned(s.offered + [f], s.target)
      == if Waiting(s.rec, f) then [] else Aligned(s.offered, s.target) + [f]
    ensures Waiting(s.rec, f) ==> Aligned(s.offered, s.target) == []
  {
    AlignedNext(s.offered, f, s.target);
    if s.target.Some? && s.rec.count == 0 {
      assert Aligned(s.offered, s.target) == [];
    }
  }

  lemma OfferKeepsGate(s: Session, f: Frame)
    requires Good(s) && s.rec.active
    ensures Gated(Offered(s, f)) && Counted(Offered(s, f))
  {
    hide Conserved, GapTracked, QueueShape, Aligned, Gap, Latest;
    KeptNext(s, f);
    var t := Offered(s, f);
    assert t.offered[..|s.offered|] == s.offered;
    assert t.offered[|s.offered|] == f;
    assert forall k :: 0 <= k < |s.offered| ==> t.offered[k] == s.offered[k];
  }

  lemma OfferKeepsRows(s: Session, f: Frame)
    requires Good(s) && s.rec.active
    ensures Conserved(Offered(s, f)) && QueueShape(Offered(s, f))
  {
    hide Aligned, Gated, GapTracked, Rows, Waiting, Written;
    KeptNext(s, f);
    if !Waiting(s.rec, f) {
      var kept, taken := Aligned(s.offered, s.target), |s.writer.outcomes|;
      assert (kept + [f])[..taken] == kept[..taken] && (kept + [f])[taken..] == kept[taken..] + [f];
      var q, r := s.rec.queue, Recorded(s.rec, f);
      RowsNext(q, Row(f));
      RowsNext(q + [Row(f)], Sentinel);
      assert r.queue == if r.active then q + [Row(f)] else q + [Row(f)] + [Sentinel];
      if !r.active {
        assert r.queue[..|r.queue| - 1] == q + [Row(f)];
      }
    }
  }

  lemma OfferKeepsGaps(s: Session, f: Frame)
    requires Good(s) && s.rec.active
    ensures GapTracked(Offered(s, f))
  {
    hide Aligned, Gated, Conserved, QueueShape, Stamps, Contiguous, Gap, Latest, Waiting;
    KeptNext(s, f);
    if !Waiting(s.rec, f) {
      var kept := Aligned(s.offered, s.target);
      StampsNext(kept, f);
      GapNext(Stamps(kept), s.rec.lastSeq, f.fwSeq);
    }
  }

  lemma OfferKeeps(s: Session, f: Frame)
    requires Good(s)
    ensures Good(Offered(s, f))
  {
    hide *;
    if s.rec.active {
      OfferKeepsGate(s, f);
      OfferKeepsRows(s, f);
      OfferKeepsGaps(s, f);
      GoodIs(Offered(s, f));
    } else {
      OfferIdle(s, f);
    }
  }

  lemma OfferIdle(s: Session, f: Frame)
    requires !s.rec.active
    ensures Offered(s, f) == s
  {
  }

  lemma GoodIs(s: Session)
    ensures Good(s) <==> QueueShape(s) && Conserved(s) && Counted(s) && Gated(s) && GapTracked(s)
  {
  }

  lemma HaltKeeps(s: Session)
    requires Good(s)
    ensures Good(Halted(s)) && !Halted(s).rec.active
  {
    hide Aligned, Rows, Stamps, Contiguous;
    if s.rec.active {
      var q := s.rec.queue;
      RowsNext(q, Sentinel);
      assert (q + [Sentinel])[..|q|] == q;
    }
  }

  lemma WrittenNext(fs: seq<Frame>, outcomes: seq<bool>, f: Frame, written: bool)
    requires |fs| == |outcomes|
    ensures Written(fs + [f], outcomes + [written]) == Written(fs, outcomes) + if written then [f] else []
  {
    assert (fs + [f])[..|fs|] == fs && (outcomes + [written])[..|fs|] == outcomes;
  }

  lemma WriteKeepsRows(s: Session, ok: bool)
    requires Conserved(s)
    ensures Conserved(Wrote(s, ok))
  {
    hide Aligned, Rows, FirstEntry, Written;
    var q := s.rec.queue;
    if q != [] && !s.writer.done {
      RowsPop(q);
      if q[0].Row? {
        var kept, taken := Aligned(s.offered, s.target), |s.writer.outcomes|;
        assert kept[taken..][0] == kept[taken] == q[0].frame && kept[taken..][1..] == kept[taken + 1..];
        assert kept[..taken + 1] == kept[..taken] + [kept[taken]];
        WrittenNext(kept[..taken], s.writer.outcomes, kept[taken], s.writer.ready && ok);
      } else {
        assert [] + Rows(q[1..]) == Rows(q[1..]);
      }
    }
  }

  lemma WriteKeepsShape(s: Session, ok: bool)
    requires QueueShape(s)
    ensures QueueShape(Wrote(s, ok))
  {
    var q := s.rec.queue;
    if q != [] && !s.writer.done && !s.rec.active && q[0].Row? {
      assert |q| > 1 && q[1..][..|q| - 2] == q[..|q| - 1][1..];
    }
  }

  lemma WriteChangesNoOther(s: Session, ok: bool)
    ensures var t := Wrote(s, ok);
      && t.rec == s.rec.(queue := t.rec.queue) && t.target == s.target && t.offered == s.offered
  {
  }

  lemma WriteKeeps(s: Session, ok: bool)
    requires Good(s)
    ensures Good(Wrote(s, ok)) && Wrote(s, ok).rec.active == s.rec.active
  {
    hide Aligned, Rows, Stamps, Contiguous, Wrote, QueueShape, Conserved;
    WriteKeepsRows(s, ok);
    WriteKeepsShape(s, ok);
    WriteChangesNoOther(s, ok);
  }

  /** A row goes into the file exactly if the file opened and its write succeeds; the sentinel ends the
      writer. */
  lemma WriteWrites(s: Session, ok: bool)
    requires !s.writer.done && s.rec.queue != []
    ensures var item, w := s.rec.queue[0], Wrote(s, ok).writer;
      && w.ready == s.writer.ready && w.done == item.Sentinel?
      && w.file == if item.Row? && s.writer.ready && ok then s.writer.file + [item.frame] else s.writer.file
  {
  }

  /** A file that could not be opened gets nothing in any run. */
  lemma {:induction false} UnopenedStaysEmpty(ss: seq<Session>, es: seq<Event>, k: nat)
    requires k < |Run(ss, es)| && forall j :: 0 <= j < |ss| ==> ss[j].writer.ready || ss[j].writer.file == []
    ensures Run(ss, es)[k].writer.ready || Run(ss, es)[k].writer.file == []
    decreases |es|
  {
    hide Recorded, Stopped, Begun;
    if es == [] {
    } else {
      UnopenedStaysEmpty(Next(ss, es[0]), es[1..], k);
    }
  }

  lemma BeginShape(max: int, align: Option<int>, ready: bool)
    ensures var s := Opened(max, align, ready);
      QueueShape(s) && Counted(s) && Gated(s) && GapTracked(s)
  {
  }

  lemma BeginConserves(max: int, align: Option<int>, ready: bool)
    ensures Conserved(Opened(max, align, ready))
  {
  }

  lemma NextKeeps(ss: seq<Session>, e: Event)
    requires AllGood(ss)
    ensures AllGood(Next(ss, e))
  {
    hide Good, Offered, Halted, Wrote, Opened, QueueShape, Conserved, Counted, Gated, GapTracked;
    match e {
      case Start(max, align, ready) =>
        BeginShape(max, align, ready);
        BeginConserves(max, align, ready);
        GoodIs(Opened(max, align, ready));
        if ss != [] {
          HaltKeeps(ss[|ss| - 1]);
        }
      case Record(f) =>
        if ss != [] {
          OfferKeeps(ss[|ss| - 1], f);
        }
      case Stop =>
        if ss != [] {
          HaltKeeps(ss[|ss| - 1]);
        }
      case Write(k, ok) =>
        if k < |ss| {
          WriteKeeps(ss[k], ok);
        }
    }
  }

  lemma {:induction false} RunKeeps(ss: seq<Session>, es: seq<Event>)
    requires AllGood(ss)
    ensures AllGood(Run(ss, es))
    decreases |es|
  {
    hide Next, AllGood;
    if es == [] {
    } else {
      NextKeeps(ss, es[0]);
      RunKeeps(Next(ss, es[0]), es[1..]);
    }
  }

  predicate AllTrue(outcomes: seq<bool>) {
    forall k :: 0 <= k < |outcomes| ==> outcomes[k]
  }

  lemma {:induction false} AllWritten(fs: seq<Frame>, outcomes: seq<bool>)
    requires |fs| == |outcomes| && AllTrue(outcomes)
    ensures Written(fs, outcomes) == fs
  {
    if fs == [] {
    } else {
      AllWritten(fs[..|fs| - 1], outcomes[..|fs| - 1]);
    }
  }

  /** In every interleaving, for every session: the rows kept are the offered frames from the first
      transition into the target step on, never more than the maximum; the writer takes them in order, a
      finished one all of them; the file holds, in order, exactly the taken rows whose write succeeded,
      so a prefix of the rows kept while no write fails. */
  lemma EverySession(es: seq<Event>, k: nat)
    requires k < |Run([], es)|
    ensures var s := Run([], es)[k];
      var kept := Aligned(s.offered, s.target);
      && s.rec.count == |kept|
      && (s.rec.max > 0 ==> |kept| <= s.rec.max)
      && |s.writer.outcomes| <= |kept|
      && s.writer.file == Written(kept[..|s.writer.outcomes|], s.writer.outcomes)
      && (AllTrue(s.writer.outcomes) ==> s.writer.file == kept[..|s.writer.outcomes|])
      && (s.writer.done ==> |s.writer.outcomes| == s.rec.count && !s.rec.active)
      && (s.rec.warnedSeqGap <==> !Contiguous(Stamps(kept)))
  {
    hide Run, Aligned, Stamps, Contiguous;
    hide Written;
    RunKeeps([], es);
    var s := Run([], es)[k];
    assert Good(s);
    var taken := |s.writer.outcomes|;
    if AllTrue(s.writer.outcomes) {
      AllWritten(Aligned(s.offered, s.target)[..taken], s.writer.outcomes);
    }
    if s.writer.done {
      RowsOfNothing();
    }
  }

  lemma {:induction false} FirstWritten(fs: seq<Frame>, outcomes: seq<bool>)
    requires |fs| == |outcomes| && fs != [] && outcomes[0]
    ensures Written(fs, outcomes) != [] && Written(fs, outcomes)[0] == fs[0]
  {
    if |fs| == 1 {
      assert fs[..0] == [] && outcomes[..0] == [];
    } else {
      FirstWritten(fs[..|fs| - 1], outcomes[..|fs| - 1]);
    }
  }

  /** In any run, a session aligned to step n that has kept a row: the first row kept is a frame in step n,
      the frame offered just before it was in another step, no earlier frame entered the step, every later
      frame offered is kept; and it is the first row of the file, unless writing it failed. */
  lemma FirstRowIsATransition(es: seq<Event>, k: nat)
    requires k < |Run([], es)|
    ensures var s := Run([], es)[k];
      s.target.Some? && s.rec.count > 0 ==>
      var (n, fs, p) := (s.target.value, s.offered, |s.offered| - s.rec.count);
      && Enters(fs, n, p)
      && (forall q :: 0 <= q < p ==> !Enters(fs, n, q))
      && Aligned(fs, s.target) == fs[p..]
      && (s.writer.outcomes != [] && s.writer.outcomes[0] ==> s.writer.file != [] && s.writer.file[0] == fs[p])
  {
    hide Run, Stamps, Contiguous, Written, FirstEntry;
    EverySession(es, k);
    var s := Run([], es)[k];
    if s.target.Some? && s.rec.count > 0 && s.writer.outcomes != [] && s.writer.outcomes[0] {
      FirstWritten(Aligned(s.offered, s.target)[..|s.writer.outcomes|], s.writer.outcomes);
    }
  }

  /** Writer steps one after the other, each with whether its write would succeed. */
  function Drained(s: Session, oks: seq<bool>): Session
    decreases |oks|
  {
    if oks == [] then s else Drained(Wrote(s, oks[0]), oks[1..])
  }

  /** A stopped session's writer finishes after one step for each item queued, whether or not its file
      could be opened and whichever writes fail, having taken every row kept. */
  lemma {:induction false} WriterFinishes(s: Session, oks: seq<bool>)
    requires Good(s) && !s.rec.active && |oks| == |s.rec.queue|
    ensures var r := Drained(s, oks);
      && Good(r) && r.writer.done && r.rec.queue == []
      && r.offered == s.offered && r.target == s.target && |r.writer.outcomes| == s.rec.count
    decreases |oks|
  {
    hide Aligned, Rows, Gated, GapTracked;
    if oks == [] {
      RowsOfNothing();
    } else {
      var q, t := s.rec.queue, Wrote(s, oks[0]);
      WriteKeeps(s, oks[0]);
      assert |t.rec.queue| == |q| - 1 by {
        assert q[0].Sentinel? ==> |q| == 1;
      }
      WriterFinishes(t, oks[1..]);
    }
  }

  /** If the file opened and no write fails, it then holds every row kept. */
  lemma {:induction false} WriterFinishesWithEverything(s: Session, oks: seq<bool>)
    requires Good(s) && !s.rec.active && |oks| == |s.rec.queue|
    requires s.writer.ready && AllTrue(s.writer.outcomes) && AllTrue(oks)
    ensures Drained(s, oks).writer.file == Aligned(s.offered, s.target)
  {
    hide Aligned, Rows, Gated, GapTracked, Written;
    WriterFinishes(s, oks);
    StaysTrue(s, oks);
    var r := Drained(s, oks);
    var kept := Aligned(s.offered, s.target);
    assert kept[..|kept|] == kept;
    AllWritten(kept, r.writer.outcomes);
  }

  lemma {:induction false} StaysTrue(s: Session, oks: seq<bool>)
    requires s.writer.ready && AllTrue(s.writer.outcomes) && AllTrue(oks)
    ensures AllTrue(Drained(s, oks).writer.outcomes)
    decreases |oks|
  {
    if oks == [] {
    } else {
      StaysTrue(Wrote(s, oks[0]), oks[1..]);
    }
  }

  lemma RowsOfNothing()
    ensures Rows([]) == []
  {
  }

  // ----- what was asked of each session -------------------------------------------------------

  /** What Start asked for, the frames recorded since, and whether neither Stop nor another Start has come. */
  datatype Span = Span(max: int, align: Option<int>, frames: seq<Frame>, open: bool)

  function Closed(asked: seq<Span>): seq<Span> {
    if asked == [] then [] else asked[|asked| - 1 := asked[|asked| - 1].(open := false)]
  }

  function Lengthened(asked: seq<Span>, f: Frame): seq<Span> {
    if asked == [] || !asked[|asked| - 1].open then asked
    else asked[|asked| - 1 := asked[|asked| - 1].(frames := asked[|asked| - 1].frames + [f])]
  }

  /** The sessions a list of calls asks for. */
  function Asked(es: seq<Event>): seq<Span> {
    if es == [] then []
    else
      var asked := Asked(es[..|es| - 1]);
      match es[|es| - 1]
      case Start(max, align, _) => Closed(asked) + [Span(max, align, [], true)]
      case Record(f) => Lengthened(asked, f)
      case Stop => Closed(asked)
      case Write(_, _) => asked
  }

  /** No more than the maximum, if there is one. */
  function Limited(rows: seq<Frame>, max: int): seq<Frame> {
    if 0 < max < |rows| then rows[..max] else rows
  }

  /** The session keeps every frame it was asked to, from the transition on and up to the maximum, and is over
      exactly when it was stopped or the maximum is reached. */
  predicate Honours(s: Session, a: Span) {
    var asked := Aligned(a.frames, a.align);
    && s.target == a.align && s.rec.max == a.max
    && Aligned(s.offered, s.target) == Limited(asked, a.max)
    && (s.rec.active <==> a.open && (a.max <= 0 || |asked| < a.max))
    && (s.rec.active ==> s.offered == a.frames)
  }

  lemma OfferHonours(s: Session, a: Span, f: Frame)
    requires Good(s) && Honours(s, a)
    ensures Honours(Offered(s, f), if a.open then a.(frames := a.frames + [f]) else a)
  {
    hide QueueShape, Conserved, GapTracked, Aligned, Gap, Latest;
    AlignedNext(a.frames, f, a.align);
    if s.rec.active {
      KeptNext(s, f);
    }
  }

  lemma HaltHonours(s: Session, a: Span)
    requires Honours(s, a)
    ensures Honours(Halted(s), a.(open := false))
  {
    hide Aligned;
  }

  lemma OpenHonours(max: int, align: Option<int>, ready: bool)
    ensures Honours(Opened(max, align, ready), Span(max, align, [], true))
  {
  }

  lemma WriteHonours(s: Session, a: Span, ok: bool)
    requires Honours(s, a)
    ensures Honours(Wrote(s, ok), a)
  {
    hide Aligned;
  }

  lemma {:induction false} RunAppend(ss: seq<Session>, es: seq<Event>, e: Event)
    ensures Run(ss, es + [e]) == Next(Run(ss, es), e)
    decreases |es|
  {
    hide Next;
    if es == [] {
      assert [e][1..] == [];
    } else {
      assert (es + [e])[1..] == es[1..] + [e];
      RunAppend(Next(ss, es[0]), es[1..], e);
    }
  }

  ghost predicate AllHonour(ss: seq<Session>, asked: seq<Span>) {
    |ss| == |asked| && forall k :: 0 <= k < |ss| ==> Honours(ss[k], asked[k])
  }

  lemma NextHonours(ss: seq<Session>, before: seq<Event>, e: Event)
    requires AllGood(ss) && AllHonour(ss, Asked(before))
    ensures AllHonour(Next(ss, e), Asked(before + [e]))
  {
    hide Honours, Good, Offered, Halted, Wrote, Opened;
    assert (before + [e])[..|before|] == before;
    var n := |ss| - 1;
    match e {
      case Start(max, align, ready) =>
        OpenHonours(max, align, ready);
        if ss != [] {
          HaltHonours(ss[n], Asked(before)[n]);
        }
      case Record(f) =>
        if ss != [] {
          OfferHonours(ss[n], Asked(before)[n], f);
        }
      case Stop =>
        if ss != [] {
          HaltHonours(ss[n], Asked(before)[n]);
        }
      case Write(k, ok) =>
        if k < |ss| {
          WriteHonours(ss[k], Asked(before)[k], ok);
        }
    }
  }

  /** In every interleaving: one session for each Start, with the maximum and alignment asked for; its rows
      are, of the frames recorded between its Start and the next Stop or Start, those from the transition on
      and no more than the maximum; and it is active exactly until that Stop or Start or the maximum. */
  lemma {:induction false} SessionsAsAsked(es: seq<Event>)
    ensures AllHonour(Run([], es), Asked(es))
    decreases |es|
  {
    hide Next, AllHonour, Asked;
    if es == [] {
      NothingAsked();
    } else {
      var n := |es| - 1;
      SessionsAsAsked(es[..n]);
      assert es == es[..n] + [es[n]];
      RunAppend([], es[..n], es[n]);
      RunKeeps([], es[..n]);
      NextHonours(Run([], es[..n]), es[..n], es[n]);
    }
  }

  lemma NothingAsked()
    ensures AllHonour(Run([], []), Asked([])) && AllGood([])
  {
  }

  // ----- the recorder object ----------------------------------------------------------------

  class Queue {
    var items: seq<Item>

    constructor ()
      ensures items == []
    {
      items := [];
    }
  }

  class PiRecorder {
    var active: bool
    var sampleCount: nat
    var maxSamples: int
    var alignToStep: Option<int>
    var sawNonTarget: bool
    var lastSeq: Option<int>
    var warnedSeqGap: bool
    var queue: Queue

    function View(): Rec
      reads this, queue
    {
      Rec(active, sampleCount, maxSamples, alignToStep, sawNonTarget, lastSeq, warnedSeqGap, queue.items)
    }

    constructor ()
      ensures View() == Rec(false, 0, 0, None, false, None, false, []) && fresh(queue)
    {
      active, sampleCount, maxSamples, alignToStep := false, 0, 0, None;
      sawNonTarget, lastSeq, warnedSeqGap := false, None, false;
      queue := new Queue();
    }

    /** A session that is still active is stopped first; its queue is left to its own writer. */
    method Start(max: int, align: Option<int>)
      modifies this, queue
      ensures View() == Begun(max, align) && fresh(queue)
      ensures old(queue).items == old(Stopped(View()).queue)
    {
      if active {
        Stop();
      }
      sampleCount, maxSamples := 0, max;
      lastSeq, warnedSeqGap := None, false;
      alignToStep, sawNonTarget := align, false;
      queue := new Queue();
      active := true;
    }

    /** The gap check inside Record. */
    method TrackSeq(fwSeq: Option<int>)
      modifies this`lastSeq, this`warnedSeqGap
      ensures lastSeq == Latest(old(lastSeq), fwSeq)
      ensures warnedSeqGap == (old(warnedSeqGap) || Gap(old(lastSeq), fwSeq))
    {
      if fwSeq.Some? && lastSeq.Some? {
        var expected := (lastSeq.value + 1) % 0x1_0000_0000;
        if fwSeq.value != expected && !warnedSeqGap {
          warnedSeqGap := true;
        }
      }
      if fwSeq.Some? {
        lastSeq := fwSeq;
      }
    }

    /** Answers whether the session goes on. */
    method Record(f: Frame) returns (recording: bool)
      modifies this`active, this`sampleCount, this`alignToStep, this`sawNonTarget, this`lastSeq, this`warnedSeqGap
      modifies queue
      ensures View() == Recorded(old(View()), f) && recording == active
    {
      hide Gap, Latest;
      if !active {
        return false;
      }
      if alignToStep.Some? {
        if f.step != alignToStep.value {
          sawNonTarget := true;
          return true;
        }
        if !sawNonTarget {
          return true;
        }
        alignToStep := None;
      }
      TrackSeq(f.fwSeq);
      queue.items := queue.items + [Row(f)];
      sampleCount := sampleCount + 1;
      if maxSamples > 0 && sampleCount >= maxSamples {
        active := false;
        queue.items := queue.items + [Sentinel];
        return false;
      }
      return true;
    }

    method Stop()
      modifies this`active, queue
      ensures View() == Stopped(old(View()))
    {
      var wasActive := active;
      active := false;
      if wasActive {
        queue.items := queue.items + [Sentinel];
      }
    }

    /** The writer: rows in the queue's order until the sentinel; a row that cannot be written is dropped.
        `coming` is what the recorder still puts on the queue, the sentinel last; some of it may arrive
        before any get, and a get on an empty queue waits for the next item. */
    static method WriterLoop(q: Queue, coming: seq<Item>, ready: bool, writable: Frame -> bool)
      returns (file: seq<Frame>, lost: nat)
      requires var all := q.items + coming;
        all != [] && all[|all| - 1] == Sentinel && NoSentinel(all[..|all| - 1])
      modifies q
      ensures q.items == []
      ensures file == if ready then Writable(Rows(old(q.items) + coming), writable) else []
      ensures |file| + lost == |Rows(old(q.items) + coming)|
    {
      hide Rows, Writable, NoSentinel;
      file, lost := [], 0;
      ghost var all := q.items + coming;
      var pending := coming;
      RowsOfNothing();
      WritableOfNothing(writable);
      ghost var n := 0;
      while true
        invariant n < |all| && q.items + pending == all[n..] && all[..0] == []
        invariant file == if ready then Writable(Rows(all[..n]), writable) else []
        invariant |file| + lost == n == |Rows(all[..n])|
        decreases |all| - n
      {
        pending := Arrivals(q, pending);
        FirstOut(q.items, pending, all, n);
        var item := q.items[0];
        q.items := q.items[1..];
        OnlyLastIsSentinel(all, n);
        if item.Sentinel? {
          return;
        }
        WritableNext(Rows(all[..n]), item.frame, writable);
        if ready && writable(item.frame) {
          file := file + [item.frame];
        } else {
          lost := lost + 1;
        }
        n := n + 1;
      }
    }

    /** Any number of items arrive, and at least one if the queue is empty. */
    static method Arrivals(q: Queue, coming: seq<Item>) returns (rest: seq<Item>)
      requires q.items + coming != []
      modifies q
      ensures q.items != [] && q.items + rest == old(q.items) + coming
    {
      assert q.items == [] ==> |coming| >= 1;
      var m :| 0 <= m <= |coming| && (q.items == [] ==> m >= 1);
      q.items := q.items + coming[..m];
      rest := coming[m..];
    }
  }

  lemma FirstOut(items: seq<Item>, pending: seq<Item>, all: seq<Item>, n: nat)
    requires n < |all| && items != [] && items + pending == all[n..]
    ensures items[0] == all[n] && items[1..] + pending == all[n + 1..]
  {
    assert items[0] == (items + pending)[0];
    assert items[1..] + pending == (items + pending)[1..];
  }

  lemma OnlyLastIsSentinel(q: seq<Item>, n: nat)
    requires n < |q| && q[|q| - 1] == Sentinel && NoSentinel(q[..|q| - 1])
    ensures q[n].Sentinel? <==> n == |q| - 1
    ensures q[n].Sentinel? ==> Rows(q) == Rows(q[..n])
    ensures q[n].Row? ==> Rows(q[..n + 1]) == Rows(q[..n]) + [q[n].frame]
    ensures q[n..][1..] == q[n + 1..]
  {
    assert q[..n + 1] == q[..n] + [q[n]];
    RowsNext(q[..n], q[n]);
    if n < |q| - 1 {
      assert q[..|q| - 1][n] == q[n];
    } else {
      assert q[..n + 1] == q;
    }
  }

  lemma WritableOfNothing(writable: Frame -> bool)
    ensures Writable([], writable) == []
  {
  }

  function Writable(fs: seq<Frame>, writable: Frame -> bool): seq<Frame> {
    if fs == [] then []
    else Writable(fs[..|fs| - 1], writable) + if writable(fs[|fs| - 1]) then [fs[|fs| - 1]] else []
  }

  lemma WritableNext(fs: seq<Frame>, f: Frame, writable: Frame -> bool)
    ensures Writable(fs + [f], writable) == Writable(fs, writable) + if writable(f) then [f] else []
  {
    assert (fs + [f])[..|fs|] == fs;
  }
}
