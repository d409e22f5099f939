/** state_store.py and ap_cycler.py: commands queued for Pis that are only reachable now and then. */
module Fleet {
  import opened Options

  datatype CommandStatus = PENDING | SENT | CONFIRMED | FAILED

  datatype QueuedCommand = QueuedCommand(id: nat, pi: int, cmd: string, status: CommandStatus)

  datatype PiStatus = UNKNOWN | ONLINE | OFFLINE

  datatype PiState = PiState(status: PiStatus, state: Option<string>, signal: Option<int>)

  /** The store, the cycler's memory of polled Pis, the ids of drained commands still to be sent in the
      visit under way, and the ids handed to the network so far. */
  datatype Fleet = Fleet(commands: seq<QueuedCommand>, pis: map<int, PiState>, polledOnce: set<int>,
                         batch: seq<nat>, log: seq<nat>)

  const EMPTY_FLEET := Fleet([], map[], {}, [], [])

  // ----- the store --------------------------------------------------------------------------

  function Enqueued(cs: seq<QueuedCommand>, pi: int, cmd: string): seq<QueuedCommand> {
    cs + [QueuedCommand(|cs| + 1, pi, cmd, PENDING)]
  }

  predicate Waiting(c: QueuedCommand, pi: int) {
    c.pi == pi && c.status == PENDING
  }

  /** Ids of a Pi's pending commands, in the order they were queued. */
  function Pending(cs: seq<QueuedCommand>, pi: int): seq<nat> {
    if cs == [] then []
    else
      var last := cs[|cs| - 1];
      Pending(cs[..|cs| - 1], pi) + if Waiting(last, pi) then [last.id] else []
  }

  function Drained(cs: seq<QueuedCommand>, pi: int): (r: seq<QueuedCommand>)
    ensures |r| == |cs|
    ensures forall k :: 0 <= k < |cs| ==> r[k] == if Waiting(cs[k], pi) then cs[k].(status := SENT) else cs[k]
  {
    if cs == [] then []
    else
      var last := cs[|cs| - 1];
      Drained(cs[..|cs| - 1], pi) + [if Waiting(last, pi) then last.(status := SENT) else last]
  }

  /** The first command with this id gets its result. */
  function Marked(cs: seq<QueuedCommand>, id: nat, confirmed: bool): (r: seq<QueuedCommand>)
    ensures |r| == |cs|
  {
    if cs == [] then []
    else if cs[0].id == id then [Settled(cs[0], confirmed)] + cs[1..]
    else [cs[0]] + Marked(cs[1..], id, confirmed)
  }

  /** A command with its result recorded. */
  function Settled(c: QueuedCommand, confirmed: bool): QueuedCommand {
    c.(status := if confirmed then CONFIRMED else FAILED)
  }

  function PiOf(pis: map<int, PiState>, pi: int): PiState {
    if pi in pis then pis[pi] else PiState(UNKNOWN, None, None)
  }

  function SeenOffline(pis: map<int, PiState>, pi: int): map<int, PiState> {
    pis[pi := PiOf(pis, pi).(status := OFFLINE)]
  }

  function SeenOnline(pis: map<int, PiState>, pi: int, state: string, signal: Option<int>): map<int, PiState> {
    pis[pi := PiState(ONLINE, Some(state), if signal.Some? then signal else PiOf(pis, pi).signal)]
  }

  predicate IsId(cs: seq<QueuedCommand>, id: nat) {
    1 <= id <= |cs|
  }

  const NO_COMMAND := QueuedCommand(0, 0, "", PENDING)

  /** The command with this id: ids number the commands from one, in the order queued. */
  function Command(cs: seq<QueuedCommand>, id: nat): QueuedCommand {
    if IsId(cs, id) then cs[id - 1] else NO_COMMAND
  }

  // ----- steps ------------------------------------------------------------------------------

  /** A visit up to and including the drain; without a reply from the Pi nothing is drained. */
  function VisitBegun(f: Fleet, pi: int, reply: Option<string>, signal: Option<int>): Fleet {
    if reply.None? then f.(pis := SeenOffline(f.pis, pi), polledOnce := f.polledOnce - {pi})
    else
      f.(pis := SeenOnline(f.pis, pi, reply.value, signal), polledOnce := f.polledOnce + {pi},
         commands := Drained(f.commands, pi), batch := Pending(f.commands, pi))
  }

  /** Send the next drained command and record how it went; a confirmed one is followed by a poll. */
  function SentNext(f: Fleet, ok: bool, verify: Option<string>, signal: Option<int>): Fleet {
    if f.batch == [] then f
    else
      var id := f.batch[0];
      f.(batch := f.batch[1..], log := f.log + [id], commands := Marked(f.commands, id, ok),
         pis := if ok && verify.Some? then SeenOnline(f.pis, Command(f.commands, id).pi, verify.value, signal)
                else f.pis)
  }

  /** Commands may be queued and polls requested at any moment; visits of the one cycler follow each
      other. */
  datatype Event =
    | Enqueue(pi: int, cmd: string)
    | Repoll(forget: set<int>)
    | Offline(pi: int)
    | Visit(pi: int, reply: Option<string>, signal: Option<int>)
    | SendNext(ok: bool, verify: Option<string>, signal: Option<int>)

  function After(f: Fleet, e: Event): Fleet {
    match e
    case Enqueue(pi, cmd) => f.(commands := Enqueued(f.commands, pi, cmd))
    case Repoll(forget) => f.(polledOnce := f.polledOnce - forget)
    case Offline(pi) => f.(pis := SeenOffline(f.pis, pi), polledOnce := f.polledOnce - {pi})
    case Visit(pi, reply, signal) => if f.batch == [] then VisitBegun(f, pi, reply, signal) else f
    case SendNext(ok, verify, signal) => SentNext(f, ok, verify, signal)
  }

  function Run(f: Fleet, es: seq<Event>): Fleet
    decreases |es|
  {
    if es == [] then f else Run(After(f, es[0]), es[1..])
  }

  // ----- what holds at every point -----------------------------------------------------------

  predicate Final(s: CommandStatus) {
    s == CONFIRMED || s == FAILED
  }

  ghost predicate Numbered(cs: seq<QueuedCommand>) {
    forall k :: 0 <= k < |cs| ==> cs[k].id == k + 1
  }

  ghost predicate Ascending(ids: seq<nat>) {
    forall j, k :: 0 <= j < k < |ids| ==> ids[j] < ids[k]
  }

  /** The commands marked SENT are exactly those the current visit has still to send, oldest first. */
  ghost predicate BatchIsSent(f: Fleet) {
    Ascending(f.batch) && forall id: nat :: id in f.batch <==> Command(f.commands, id).status == SENT
  }

  /** The commands with a final status are exactly those sent, each once. */
  ghost predicate LogIsFinal(f: Fleet) {
    && (forall j, k :: 0 <= j < k < |f.log| ==> f.log[j] != f.log[k])
    && forall id: nat :: id in f.log <==> Final(Command(f.commands, id).status)
  }

  function Stage(s: CommandStatus): nat {
    match s
    case PENDING => 0
    case SENT => 1
    case _ => 2
  }

  /** Of two commands to one Pi, the one queued first is never behind. */
  ghost predicate OlderFirst(cs: seq<QueuedCommand>) {
    forall a: nat, b: nat :: IsId(cs, a) && IsId(cs, b) && a < b && Command(cs, a).pi == Command(cs, b).pi ==>
      Stage(Command(cs, a).status) >= Stage(Command(cs, b).status)
  }

  /** Commands to one Pi were sent in the order they were queued. */
  ghost predicate SentInOrder(f: Fleet) {
    forall j, k :: 0 <= j < k < |f.log| && Command(f.commands, f.log[j]).pi == Command(f.commands, f.log[k]).pi ==>
      f.log[j] < f.log[k]
  }

  ghost predicate Good(f: Fleet) {
    Numbered(f.commands) && BatchIsSent(f) && LogIsFinal(f) && OlderFirst(f.commands) && SentInOrder(f)
  }

  // ----- what each operation does to one command ---------------------------------------------

  lemma EnqueuedIs(cs: seq<QueuedCommand>, pi: int, cmd: string, id: nat)
    ensures Command(Enqueued(cs, pi, cmd), id)
      == if id == |cs| + 1 then QueuedCommand(|cs| + 1, pi, cmd, PENDING) else Command(cs, id)
  {
  }

  lemma DrainedIs(cs: seq<QueuedCommand>, pi: int, id: nat)
    ensures var c := Command(cs, id);
      Command(Drained(cs, pi), id) == if IsId(cs, id) && Waiting(c, pi) then c.(status := SENT) else c
  {
  }

  lemma NothingDrained(pi: int)
    ensures Drained([], pi) == [] && Pending([], pi) == []
  {
  }

  lemma DrainNext(cs: seq<QueuedCommand>, k: nat, pi: int)
    requires k < |cs|
    ensures Drained(cs[..k + 1], pi)
      == Drained(cs[..k], pi) + [if Waiting(cs[k], pi) then cs[k].(status := SENT) else cs[k]]
    ensures Pending(cs[..k + 1], pi) == Pending(cs[..k], pi) + if Waiting(cs[k], pi) then [cs[k].id] else []
  {
    assert cs[..k + 1][..k] == cs[..k];
  }

  lemma {:induction false} PendingIs(cs: seq<QueuedCommand>, pi: int, id: nat)
    requires Numbered(cs)
    ensures id in Pending(cs, pi) <==> IsId(cs, id) && Waiting(Command(cs, id), pi)
  {
    if cs == [] {
    } else {
      PendingIs(cs[..|cs| - 1], pi, id);
    }
  }

  lemma {:induction false} PendingAscends(cs: seq<QueuedCommand>, pi: int)
    requires Numbered(cs)
    ensures Ascending(Pending(cs, pi))
  {
    if cs == [] {
    } else {
      var before := Pending(cs[..|cs| - 1], pi);
      PendingAscends(cs[..|cs| - 1], pi);
      forall k | 0 <= k < |before| ensures before[k] < |cs| {
        PendingIs(cs[..|cs| - 1], pi, before[k]);
      }
    }
  }

  lemma {:induction false} MarkedAt(cs: seq<QueuedCommand>, base: nat, id: nat, ok: bool)
    requires forall k :: 0 <= k < |cs| ==> cs[k].id == base + k + 1
    requires base < id <= base + |cs|
    ensures var k := id - base - 1;
      Marked(cs, id, ok) == cs[k := Settled(cs[k], ok)]
  {
    if cs[0].id == id {
    } else {
      MarkedAt(cs[1..], base + 1, id, ok);
    }
  }

  lemma {:induction false} MarkedNone(cs: seq<QueuedCommand>, id: nat, ok: bool)
    requires forall k :: 0 <= k < |cs| ==> cs[k].id != id
    ensures Marked(cs, id, ok) == cs
  {
    if cs == [] {
    } else {
      MarkedNone(cs[1..], id, ok);
    }
  }

  lemma MarkedIs(cs: seq<QueuedCommand>, id: nat, ok: bool)
    requires Numbered(cs) && IsId(cs, id)
    ensures Numbered(Marked(cs, id, ok))
    ensures forall i: nat ::
      Command(Marked(cs, id, ok), i) == if i == id then Settled(Command(cs, i), ok) else Command(cs, i)
  {
    MarkedAt(cs, 0, id, ok);
  }

  // ----- every step keeps it ----------------------------------------------------------------

  lemma EnqueueKeeps(f: Fleet, pi: int, cmd: string)
    requires Good(f)
    ensures Good(f.(commands := Enqueued(f.commands, pi, cmd)))
  {
    var cs := Enqueued(f.commands, pi, cmd);
    forall id: nat
      ensures Command(cs, id)
        == if id == |f.commands| + 1 then QueuedCommand(|f.commands| + 1, pi, cmd, PENDING) else Command(f.commands, id)
    {
      EnqueuedIs(f.commands, pi, cmd, id);
    }
    assert Command(f.commands, |f.commands| + 1) == NO_COMMAND;
    assert forall id: nat :: IsId(cs, id) <==> IsId(f.commands, id) || id == |f.commands| + 1;
    assert Numbered(cs);
    hide Enqueued, Command, Numbered, IsId;
    var g := f.(commands := cs);
    assert forall id: nat :: Command(cs, id).status == Command(f.commands, id).status;
  }

  lemma DrainKeeps(f: Fleet, pi: int)
    requires Good(f) && f.batch == []
    ensures Good(f.(commands := Drained(f.commands, pi), batch := Pending(f.commands, pi)))
  {
    var cs := Drained(f.commands, pi);
    forall id: nat
      ensures Command(cs, id) == if IsId(f.commands, id) && Waiting(Command(f.commands, id), pi)
        then Command(f.commands, id).(status := SENT) else Command(f.commands, id)
      ensures id in Pending(f.commands, pi) <==> IsId(f.commands, id) && Waiting(Command(f.commands, id), pi)
      ensures IsId(cs, id) <==> IsId(f.commands, id)
    {
      DrainedIs(f.commands, pi, id);
      PendingIs(f.commands, pi, id);
    }
    PendingAscends(f.commands, pi);
    assert Numbered(cs);
    hide Drained, Pending, Command, Numbered, IsId, Ascending;
    assert forall id: nat :: Command(f.commands, id).status != SENT;
  }

  lemma SendKeeps(f: Fleet, ok: bool)
    requires Good(f) && f.batch != []
    ensures Good(f.(batch := f.batch[1..], log := f.log + [f.batch[0]], commands := Marked(f.commands, f.batch[0], ok)))
  {
    hide Marked, Command;
    var id := f.batch[0];
    assert id in f.batch && Command(f.commands, id).status == SENT;
    SentIsId(f.commands, id);
    MarkedIs(f.commands, id, ok);
    var g := f.(batch := f.batch[1..], log := f.log + [id], commands := Marked(f.commands, id, ok));
    assert SentOne(f, g, id);
    hide *;
    SendKeepsBatch(f, g, id);
    SendKeepsLog(f, g, id);
    SendKeepsOrder(f, g, id);
    GoodIs(f);
    GoodIs(g);
  }

  lemma GoodIs(f: Fleet)
    ensures Good(f) <==>
      Numbered(f.commands) && BatchIsSent(f) && LogIsFinal(f) && OlderFirst(f.commands) && SentInOrder(f)
  {
  }

  lemma SentIsId(cs: seq<QueuedCommand>, id: nat)
    requires Command(cs, id).status == SENT
    ensures IsId(cs, id)
  {
  }

  ghost predicate SentOne(f: Fleet, g: Fleet, id: nat) {
    && f.batch != [] && id == f.batch[0] && IsId(f.commands, id) && |g.commands| == |f.commands|
    && g.batch == f.batch[1..] && g.log == f.log + [id]
    && Command(f.commands, id).status == SENT && Final(Command(g.commands, id).status)
    && Command(g.commands, id).pi == Command(f.commands, id).pi
    && forall i: nat :: i != id ==> Command(g.commands, i) == Command(f.commands, i)
  }

  lemma SendKeepsBatch(f: Fleet, g: Fleet, id: nat)
    requires BatchIsSent(f) && SentOne(f, g, id)
    ensures BatchIsSent(g)
  {
    hide Command;
    assert forall j :: 0 <= j < |g.batch| ==> g.batch[j] == f.batch[j + 1];
    assert id !in g.batch;
    assert forall i :: i in f.batch <==> i in g.batch || i == id;
  }

  lemma SendKeepsLog(f: Fleet, g: Fleet, id: nat)
    requires LogIsFinal(f) && SentOne(f, g, id)
    ensures LogIsFinal(g)
  {
    hide Command;
    assert id !in f.log;
    assert forall i :: i in g.log <==> i in f.log || i == id;
  }

  lemma SendKeepsOrder(f: Fleet, g: Fleet, id: nat)
    requires Good(f) && SentOne(f, g, id)
    ensures OlderFirst(g.commands) && SentInOrder(g)
  {
    hide Command, IsId, Numbered;
    forall a: nat | IsId(f.commands, a) && a < id && Command(f.commands, a).pi == Command(f.commands, id).pi
      ensures Final(Command(f.commands, a).status)
    {
      assert Stage(Command(f.commands, a).status) >= 1;
      assert Command(f.commands, a).status == SENT ==> a in f.batch;
    }
    assert forall a: nat :: IsId(g.commands, a) <==> IsId(f.commands, a) by { SameIds(f.commands, g.commands); }
    forall j | 0 <= j < |f.log| && Command(f.commands, f.log[j]).pi == Command(f.commands, id).pi
      ensures f.log[j] < id
    {
      var a := f.log[j];
      assert a in f.log && Final(Command(f.commands, a).status);
      FinalIsId(f.commands, a);
    }
  }

  lemma SameIds(cs: seq<QueuedCommand>, ds: seq<QueuedCommand>)
    requires |cs| == |ds|
    ensures forall a: nat :: IsId(cs, a) <==> IsId(ds, a)
  {
  }

  lemma FinalIsId(cs: seq<QueuedCommand>, id: nat)
    requires Final(Command(cs, id).status)
    ensures IsId(cs, id)
  {
  }

  /** What the fields other than the queue do not matter to. */
  lemma GoodAlike(f: Fleet, g: Fleet)
    requires Good(f) && g.commands == f.commands && g.batch == f.batch && g.log == f.log
    ensures Good(g)
  {
  }

  lemma AfterKeeps(f: Fleet, e: Event)
    requires Good(f)
    ensures Good(After(f, e))
  {
    hide Good, Drained, Pending, Marked, Enqueued, Command, SeenOffline, SeenOnline;
    match e {
      case Enqueue(pi, cmd) => EnqueueKeeps(f, pi, cmd);
      case Repoll(forget) => GoodAlike(f, After(f, e));
      case Offline(pi) => GoodAlike(f, After(f, e));
      case Visit(pi, reply, signal) =>
        if f.batch == [] {
          if reply.Some? {
            DrainKeeps(f, pi);
            GoodAlike(f.(commands := Drained(f.commands, pi), batch := Pending(f.commands, pi)), After(f, e));
          } else {
            GoodAlike(f, After(f, e));
          }
        }
      case SendNext(ok, verify, signal) =>
        if f.batch != [] {
          SendKeeps(f, ok);
          var id := f.batch[0];
          var g := f.(batch := f.batch[1..], log := f.log + [id], commands := Marked(f.commands, id, ok));
          GoodAlike(g, After(f, e));
        }
    }
  }

  lemma {:induction false} RunKeeps(f: Fleet, es: seq<Event>)
    requires Good(f)
    ensures Good(Run(f, es))
    decreases |es|
  {
    hide Good, After;
    if es == [] {
    } else {
      AfterKeeps(f, es[0]);
      RunKeeps(After(f, es[0]), es[1..]);
    }
  }

  /** In any run: each command is sent at most once; commands to one Pi are sent in the order queued; the
      sent ones are those confirmed or failed; and between visits none is left SENT. */
  lemma Delivery(es: seq<Event>)
    ensures var f := Run(EMPTY_FLEET, es);
      && (forall j, k :: 0 <= j < k < |f.log| ==> f.log[j] != f.log[k])
      && SentInOrder(f)
      && (forall id: nat :: id in f.log <==> Final(Command(f.commands, id).status))
      && (f.batch == [] ==> forall k :: 0 <= k < |f.commands| ==> f.commands[k].status != SENT)
  {
    hide Run, SentInOrder;
    EmptyIsGood();
    RunKeeps(EMPTY_FLEET, es);
    var f := Run(EMPTY_FLEET, es);
    assert forall k :: 0 <= k < |f.commands| ==> Command(f.commands, k + 1) == f.commands[k];
  }

  lemma EmptyIsGood()
    ensures Good(EMPTY_FLEET)
  {
  }

  /** The ways a status can move in one step. */
  predicate Advances(a: CommandStatus, b: CommandStatus) {
    a == b || (a == PENDING && b == SENT) || (a == SENT && Final(b))
  }

  /** A step leaves a command itself alone and can only move its status forward. */
  lemma StatusAdvances(f: Fleet, e: Event, id: nat)
    requires Good(f) && IsId(f.commands, id)
    ensures IsId(After(f, e).commands, id)
    ensures var c, d := Command(f.commands, id), Command(After(f, e).commands, id);
      d == c.(status := d.status) && Advances(c.status, d.status)
  {
    hide Drained, Marked, Pending, Numbered, Ascending, SentInOrder, OlderFirst, SeenOffline, SeenOnline;
    if e.Visit? {
      DrainedIs(f.commands, e.pi, id);
    } else if e.SendNext? && f.batch != [] {
      assert f.batch[0] in f.batch;
      MarkedIs(f.commands, f.batch[0], e.ok);
    }
  }

  // ----- a whole visit ----------------------------------------------------------------------

  /** How each command goes, and what the poll after it answers, may differ from command to command. */
  function AllSent(f: Fleet, ok: nat -> bool, verify: nat -> Option<string>, signal: Option<int>): Fleet
    decreases |f.batch|
  {
    if f.batch == [] then f
    else AllSent(SentNext(f, ok(f.batch[0]), verify(f.batch[0]), signal), ok, verify, signal)
  }

  /** A visit that gets through sends every command pending for that Pi, oldest first, and records for each
      whether it was confirmed or failed; other commands are untouched. */
  lemma VisitDelivers(f: Fleet, pi: int, reply: Option<string>, signal: Option<int>, ok: nat -> bool,
                      verify: nat -> Option<string>)
    requires Good(f) && f.batch == [] && reply.Some?
    ensures var g := AllSent(VisitBegun(f, pi, reply, signal), ok, verify, signal);
      && g.batch == [] && g.polledOnce == f.polledOnce + {pi} && |g.commands| == |f.commands|
      && (exists sent: seq<nat> :: g.log == f.log + sent && Ascending(sent)
            && forall id: nat :: id in sent <==> IsPendingFor(f.commands, id, pi))
      && forall k :: 0 <= k < |f.commands| ==> Delivered(f.commands[k], g.commands[k], pi, ok)
  {
    hide Good, Drained, Pending, AllSent, Waiting;
    var h := VisitBegun(f, pi, reply, signal);
    AfterKeeps(f, Visit(pi, reply, signal));
    BatchDelivers(h, ok, verify, signal);
    GoodIs(f);
    var g := AllSent(h, ok, verify, signal);
    forall id: nat
      ensures id in Pending(f.commands, pi) <==> IsPendingFor(f.commands, id, pi)
      ensures var c := Command(f.commands, id);
        Command(h.commands, id) == if IsPendingFor(f.commands, id, pi) then c.(status := SENT) else c
    {
      DrainedIs(f.commands, pi, id);
      PendingIs(f.commands, pi, id);
      WaitingIs(Command(f.commands, id), pi);
    }
    PendingAscends(f.commands, pi);
    forall k | 0 <= k < |f.commands|
      ensures Delivered(f.commands[k], g.commands[k], pi, ok)
    {
      assert Command(f.commands, k + 1) == f.commands[k] && Command(g.commands, k + 1) == g.commands[k];
    }
  }

  /** What becomes of a command when all that is pending for the Pi is sent. */
  predicate Delivered(before: QueuedCommand, now: QueuedCommand, pi: int, ok: nat -> bool) {
    if before.pi != pi || before.status != PENDING then now == before
    else if ok(before.id) then now == before.(status := CONFIRMED) else now == before.(status := FAILED)
  }

  predicate IsPendingFor(cs: seq<QueuedCommand>, id: nat, pi: int) {
    1 <= id <= |cs| && cs[id - 1].pi == pi && cs[id - 1].status == PENDING
  }

  lemma WaitingIs(c: QueuedCommand, pi: int)
    ensures Waiting(c, pi) <==> c.pi == pi && c.status == PENDING
  {
  }

  lemma {:induction false} BatchDelivers(f: Fleet, ok: nat -> bool, verify: nat -> Option<string>, signal: Option<int>)
    requires Good(f)
    ensures var g := AllSent(f, ok, verify, signal);
      && g.batch == [] && g.log == f.log + f.batch && g.polledOnce == f.polledOnce
      && |g.commands| == |f.commands|
      && forall id: nat :: Command(g.commands, id) ==
           var c := Command(f.commands, id);
           if id in f.batch then Settled(c, ok(id)) else c
    decreases |f.batch|
  {
    hide Good, Marked, Command, Settled, SeenOnline;
    if f.batch == [] {
      assert f.log + [] == f.log;
    } else {
      var id0 := f.batch[0];
      var h := SentNext(f, ok(id0), verify(id0), signal);
      AfterKeeps(f, SendNext(ok(id0), verify(id0), signal));
      FirstOfBatch(f);
      MarkedIs(f.commands, id0, ok(id0));
      BatchDelivers(h, ok, verify, signal);
      assert forall id :: id in f.batch <==> id == id0 || id in f.batch[1..];
      assert f.log + [id0] + f.batch[1..] == f.log + f.batch;
    }
  }

  lemma FirstOfBatch(f: Fleet)
    requires Good(f) && f.batch != []
    ensures IsId(f.commands, f.batch[0]) && Numbered(f.commands) && f.batch[0] !in f.batch[1..]
  {
    assert f.batch[0] in f.batch;
  }

  // ----- how a run went for each command and each Pi ------------------------------------------------

  lemma RunSplits(f: Fleet, es: seq<Event>)
    requires es != []
    ensures Run(f, es) == After(Run(f, es[..|es| - 1]), es[|es| - 1])
  {
    RunOne(f, es[..|es| - 1], es[|es| - 1]);
    assert es == es[..|es| - 1] + [es[|es| - 1]];
  }

  /** Whether a send of this command in the run came out like that. */
  ghost predicate CameOut(es: seq<Event>, id: nat, ok: bool) {
    exists k :: 0 <= k < |es| && SendsIt(Run(EMPTY_FLEET, es[..k]), es[k], id) && es[k].ok == ok
  }

  /** The event sends this command. */
  predicate SendsIt(f: Fleet, e: Event, id: nat) {
    e.SendNext? && f.batch != [] && f.batch[0] == id
  }

  lemma CameOutNext(es: seq<Event>, id: nat, ok: bool)
    requires es != []
    ensures var n := |es| - 1;
      CameOut(es, id, ok) <==>
        CameOut(es[..n], id, ok) || (SendsIt(Run(EMPTY_FLEET, es[..n]), es[n], id) && es[n].ok == ok)
  {
    hide Run, SendsIt;
    var n := |es| - 1;
    assert forall k :: 0 <= k < n ==> es[..n][..k] == es[..k];
  }

  /** What a step does to one command's status. */
  lemma StatusAfter(f: Fleet, e: Event, id: nat)
    requires Good(f)
    ensures var (was, now) := (Command(f.commands, id).status, Command(After(f, e).commands, id).status);
      if SendsIt(f, e, id) then was == SENT && now == if e.ok then CONFIRMED else FAILED
      else (was == CONFIRMED <==> now == CONFIRMED) && (was == FAILED <==> now == FAILED)
  {
    hide Drained, Marked, Pending, Numbered, Ascending, SentInOrder, OlderFirst, SeenOffline, SeenOnline;
    match e {
      case Enqueue(pi, cmd) => EnqueuedIs(f.commands, pi, cmd, id);
      case Visit(pi, _, _) => DrainedIs(f.commands, pi, id);
      case SendNext(ok, _, _) =>
        if f.batch != [] {
          assert f.batch[0] in f.batch;
          MarkedIs(f.commands, f.batch[0], ok);
        }
      case _ =>
    }
  }

  /** In any run, a command is confirmed exactly if a send of it succeeded, and failed exactly if one did not;
      by Delivery there is at most one. */
  lemma {:induction false} OutcomesOfRun(es: seq<Event>, id: nat)
    ensures var status := Command(Run(EMPTY_FLEET, es).commands, id).status;
      && (status == CONFIRMED <==> CameOut(es, id, true))
      && (status == FAILED <==> CameOut(es, id, false))
    decreases |es|
  {
    if es == [] {
    } else {
      var n := |es| - 1;
      hide Good, After, CameOut, SendsIt;
      OutcomesOfRun(es[..n], id);
      EmptyIsGood();
      RunKeeps(EMPTY_FLEET, es[..n]);
      RunSplits(EMPTY_FLEET, es);
      StatusAfter(Run(EMPTY_FLEET, es[..n]), es[n], id);
      CameOutNext(es, id, true);
      CameOutNext(es, id, false);
      if SendsIt(Run(EMPTY_FLEET, es[..n]), es[n], id) {
        NotYetSent(es[..n], id);
      }
    }
  }

  lemma NotYetSent(es: seq<Event>, id: nat)
    requires Run(EMPTY_FLEET, es).batch != [] && Run(EMPTY_FLEET, es).batch[0] == id
    ensures Command(Run(EMPTY_FLEET, es).commands, id).status == SENT
  {
    hide Run;
    EmptyIsGood();
    RunKeeps(EMPTY_FLEET, es);
    assert id in Run(EMPTY_FLEET, es).batch;
  }

  /** An attempt to reach a Pi: its reply, if it came, and the signal strength, if it was measured. */
  datatype Contact = Contact(pi: int, reply: Option<string>, signal: Option<int>)

  /** The attempt an event makes, if any: a visit that can begin, a Pi found invisible, or the poll after a
      confirmed command. */
  function ContactIn(f: Fleet, e: Event): Option<Contact> {
    match e
    case Visit(pi, reply, signal) => if f.batch == [] then Some(Contact(pi, reply, signal)) else None
    case Offline(pi) => Some(Contact(pi, None, None))
    case SendNext(ok, verify, signal) =>
      if f.batch != [] && ok && verify.Some? then Some(Contact(Command(f.commands, f.batch[0]).pi, verify, signal))
      else None
    case _ => None
  }

  /** The attempts of a run to reach this Pi. */
  function Contacts(es: seq<Event>, pi: int): seq<Contact> {
    if es == [] then []
    else
      var n := |es| - 1;
      var c := ContactIn(Run(EMPTY_FLEET, es[..n]), es[n]);
      Contacts(es[..n], pi) + if c.Some? && c.value.pi == pi then [c.value] else []
  }

  function LastReply(cs: seq<Contact>): Option<string> {
    if cs == [] then None
    else if cs[|cs| - 1].reply.Some? then cs[|cs| - 1].reply else LastReply(cs[..|cs| - 1])
  }

  /** A signal counts only with a reply. */
  function LastSignal(cs: seq<Contact>): Option<int> {
    if cs == [] then None
    else if cs[|cs| - 1].reply.Some? && cs[|cs| - 1].signal.Some? then cs[|cs| - 1].signal
    else LastSignal(cs[..|cs| - 1])
  }

  /** Nothing is known before the first attempt; then the Pi is online exactly if the last attempt got a
      reply, with the last reply and the last signal there were. */
  predicate Knows(pis: map<int, PiState>, cs: seq<Contact>, pi: int) {
    && (pi in pis <==> cs != [])
    && (cs != [] ==>
          && pis[pi].status == (if cs[|cs| - 1].reply.Some? then ONLINE else OFFLINE)
          && pis[pi].state == LastReply(cs) && pis[pi].signal == LastSignal(cs))
  }

  lemma KnowsNext(f: Fleet, e: Event, cs: seq<Contact>, pi: int)
    requires Knows(f.pis, cs, pi)
    ensures var c := ContactIn(f, e);
      Knows(After(f, e).pis, if c.Some? && c.value.pi == pi then cs + [c.value] else cs, pi)
  {
    hide Drained, Pending, Marked, Enqueued, Command;
    var c := ContactIn(f, e);
    if c.Some? && c.value.pi == pi {
      OneMoreContact(cs, c.value);
      hide LastReply, LastSignal;
    }
  }

  lemma OneMoreContact(cs: seq<Contact>, c: Contact)
    ensures LastReply(cs + [c]) == if c.reply.Some? then c.reply else LastReply(cs)
    ensures LastSignal(cs + [c]) == if c.reply.Some? && c.signal.Some? then c.signal else LastSignal(cs)
    ensures cs == [] ==> LastReply(cs) == None && LastSignal(cs) == None
  {
    assert (cs + [c])[..|cs|] == cs;
  }

  /** In any run, that is what the store knows of each Pi. */
  lemma {:induction false} KnownOfPi(es: seq<Event>, pi: int)
    ensures Knows(Run(EMPTY_FLEET, es).pis, Contacts(es, pi), pi)
    decreases |es|
  {
    if es == [] {
    } else {
      var n := |es| - 1;
      hide Run, Knows, ContactIn, After;
      KnownOfPi(es[..n], pi);
      RunSplits(EMPTY_FLEET, es);
      var f, cs := Run(EMPTY_FLEET, es[..n]), Contacts(es[..n], pi);
      KnowsNext(f, es[n], cs, pi);
      assert cs + [] == cs;
      assert Contacts(es, pi)
        == if ContactIn(f, es[n]).Some? && ContactIn(f, es[n]).value.pi == pi then cs + [ContactIn(f, es[n]).value]
           else cs;
    }
  }

  /** A Pi counts as polled after a visit that got a reply, until it is visited in vain, found invisible or
      asked to be polled again. */
  lemma PolledAfter(f: Fleet, e: Event, pi: int)
    ensures pi in After(f, e).polledOnce <==>
      match e
      case Visit(p, reply, _) => if p == pi && f.batch == [] then reply.Some? else pi in f.polledOnce
      case Offline(p) => p != pi && pi in f.polledOnce
      case Repoll(forget) => pi !in forget && pi in f.polledOnce
      case _ => pi in f.polledOnce
  {
  }

  // ----- which Pis to join ------------------------------------------------------------------

  ghost predicate Sorted(keys: seq<int>) {
    forall j, k :: 0 <= j < k < |keys| ==> keys[j] < keys[k]
  }

  /** The visible Pis that have pending commands or have not been polled, each once, those with pending
      commands first, and in order within both groups. The keys are the visible Pis, sorted. */
  method JoinList(keys: seq<int>, pending: set<int>, polledOnce: set<int>) returns (order: seq<int>)
    requires Sorted(keys)
    ensures forall pi :: pi in order <==> pi in keys && (pi in pending || pi !in polledOnce)
    ensures forall j, k :: 0 <= j < k < |order| ==> order[j] != order[k]
    ensures forall j, k :: 0 <= j < k < |order| && order[k] in pending ==> order[j] in pending
    ensures forall j, k :: 0 <= j < k < |order| && (order[j] in pending <==> order[k] in pending) ==>
      order[j] < order[k]
  {
    hide Picked;
    order := [];
    NothingPicked(x => x in pending);
    NothingPicked(x => x !in pending && x !in polledOnce);
    assert keys[..0] == [];
    for n := 0 to |keys|
      invariant order == Picked(keys[..n], x => x in pending)
    {
      PickedNext(keys, n, x => x in pending);
      if keys[n] in pending {
        order := order + [keys[n]];
      }
    }
    assert keys[..|keys|] == keys;
    PickedIs(keys, x => x in pending);
    ghost var first := order;
    for n := 0 to |keys|
      invariant order == first + Picked(keys[..n], x => x !in pending && x !in polledOnce)
    {
      PickedNext(keys, n, x => x !in pending && x !in polledOnce);
      PickedIs(keys[..n], x => x !in pending && x !in polledOnce);
      assert forall k :: 0 <= k < n ==> keys[k] < keys[n];
      assert keys[n] in order <==> keys[n] in pending;
      if keys[n] !in order && keys[n] !in polledOnce {
        order := order + [keys[n]];
      }
    }
    PickedIs(keys, x => x !in pending && x !in polledOnce);
    JoinOrder(first, Picked(keys, x => x !in pending && x !in polledOnce), pending);
  }

  function Picked(keys: seq<int>, p: int -> bool): seq<int> {
    if keys == [] then []
    else Picked(keys[..|keys| - 1], p) + if p(keys[|keys| - 1]) then [keys[|keys| - 1]] else []
  }

  lemma NothingPicked(p: int -> bool)
    ensures Picked([], p) == []
  {
  }

  lemma PickedNext(keys: seq<int>, n: nat, p: int -> bool)
    requires n < |keys|
    ensures Picked(keys[..n + 1], p) == Picked(keys[..n], p) + if p(keys[n]) then [keys[n]] else []
  {
    assert keys[..n + 1][..n] == keys[..n];
  }

  lemma {:induction false} PickedIs(keys: seq<int>, p: int -> bool)
    requires Sorted(keys)
    ensures Sorted(Picked(keys, p))
    ensures forall x :: x in Picked(keys, p) <==> x in keys && p(x)
  {
    if keys == [] {
    } else {
      var n := |keys| - 1;
      PickedIs(keys[..n], p);
      assert keys == keys[..n] + [keys[n]];
      var before := Picked(keys[..n], p);
      assert forall k :: 0 <= k < |before| ==> before[k] in before && before[k] in keys[..n];
    }
  }

  lemma JoinOrder(first: seq<int>, second: seq<int>, pending: set<int>)
    requires Sorted(first) && Sorted(second)
    requires (forall pi :: pi in first ==> pi in pending) && forall pi :: pi in second ==> pi !in pending
    ensures var order := first + second;
      && (forall j, k :: 0 <= j < k < |order| ==> order[j] != order[k])
      && (forall j, k :: 0 <= j < k < |order| && order[k] in pending ==> order[j] in pending)
      && (forall j, k :: 0 <= j < k < |order| && (order[j] in pending <==> order[k] in pending) ==> order[j] < order[k])
  {
    var order := first + second;
    forall k | 0 <= k < |order|
      ensures order[k] == if k < |first| then first[k] else second[k - |first|]
      ensures order[k] in pending <==> k < |first|
    {
      if k < |first| {
        assert order[k] in first;
      } else {
        assert order[k] in second;
      }
    }
  }

  // ----- the objects ------------------------------------------------------------------------

  class FleetStateStore {
    var pis: map<int, PiState>
    var commands: seq<QueuedCommand>
    var counter: nat

    ghost predicate Valid()
      reads this
    {
      counter == |commands| && Numbered(commands)
    }

    constructor ()
      ensures Valid() && pis == map[] && commands == []
    {
      pis, commands, counter := map[], [], 0;
    }

    method EnsurePi(pi: int)
      modifies this`pis
      ensures pis == old(pis)[pi := PiOf(old(pis), pi)]
    {
      if pi !in pis {
        pis := pis[pi := PiState(UNKNOWN, None, None)];
      }
      assert pi in old(pis) ==> old(pis)[pi := old(pis)[pi]] == old(pis);
    }

    method UpdateState(pi: int, state: string, signal: Option<int>)
      modifies this`pis
      ensures pis == SeenOnline(old(pis), pi, state, signal)
    {
      EnsurePi(pi);
      pis := pis[pi := pis[pi].(status := ONLINE, state := Some(state))];
      if signal.Some? {
        pis := pis[pi := pis[pi].(signal := signal)];
      }
    }

    method MarkOffline(pi: int)
      modifies this`pis
      ensures pis == SeenOffline(old(pis), pi)
    {
      EnsurePi(pi);
      pis := pis[pi := pis[pi].(status := OFFLINE)];
    }

    method EnqueueCommand(pi: int, cmd: string) returns (id: nat)
      requires Valid()
      modifies this`commands, this`counter
      ensures Valid() && commands == Enqueued(old(commands), pi, cmd)
      ensures id == |commands| && Command(commands, id) == QueuedCommand(id, pi, cmd, PENDING)
    {
      counter := counter + 1;
      id := counter;
      commands := commands + [QueuedCommand(id, pi, cmd, PENDING)];
    }

    /** The Pi's pending commands, now marked SENT. */
    method DrainCommands(pi: int) returns (pending: seq<nat>)
      requires Valid()
      modifies this`commands
      ensures Valid() && commands == Drained(old(commands), pi) && pending == Pending(old(commands), pi)
    {
      hide Drained, Pending;
      ghost var was := commands;
      pending := [];
      NothingDrained(pi);
      assert was[..0] == [] && commands[..0] == [];
      for k := 0 to |commands|
        invariant |commands| == |was| && commands[k..] == was[k..]
        invariant commands[..k] == Drained(was[..k], pi) && pending == Pending(was[..k], pi)
      {
        DrainNext(was, k, pi);
        assert commands[k] == commands[k..][0] && commands[k + 1..] == commands[k..][1..];
        var c := commands[k];
        if c.pi == pi && c.status == PENDING {
          pending := pending + [c.id];
          commands := commands[k := c.(status := SENT)];
        }
        assert commands[..k + 1] == commands[..k] + [commands[k]];
      }
      assert was[..|was|] == was && commands[..|was|] == commands;
    }

    /** Only the first command with this id is touched; an unknown id changes nothing. */
    method MarkCommandResult(id: nat, confirmed: bool)
      requires Valid()
      modifies this`commands
      ensures Valid() && commands == Marked(old(commands), id, confirmed)
      ensures var was := old(commands);
        commands == if !(1 <= id <= |was|) then was
                    else was[id - 1 := was[id - 1].(status := if confirmed then CONFIRMED else FAILED)]
    {
      for k := 0 to |commands|
        invariant commands == old(commands) && forall j :: 0 <= j < k ==> commands[j].id != id
      {
        if commands[k].id == id {
          MarkedAt(commands, 0, id, confirmed);
          MarkedIs(commands, id, confirmed);
          commands := commands[k := commands[k].(status := if confirmed then CONFIRMED else FAILED)];
          return;
        }
      }
      MarkedNone(commands, id, confirmed);
    }

    method PisWithPendingCommands() returns (r: set<int>)
      ensures forall pi :: pi in r <==>
        exists k :: 0 <= k < |commands| && commands[k].pi == pi && commands[k].status == PENDING
    {
      r := set k | 0 <= k < |commands| && commands[k].status == PENDING :: commands[k].pi;
    }
  }

  class APCycler {
    const store: FleetStateStore
    var polledOnce: set<int>
    /** Ids of the commands handed to the network. */
    ghost var log: seq<nat>

    ghost predicate Valid()
      reads this, store
    {
      store.Valid()
    }

    /** The fleet as this cycler sees it, with part of a batch still to send. */
    ghost function View(batch: seq<nat>): Fleet
      reads this, store
    {
      Fleet(store.commands, store.pis, polledOnce, batch, log)
    }

    constructor (store: FleetStateStore)
      requires store.Valid()
      ensures Valid() && this.store == store && polledOnce == {} && log == []
    {
      this.store := store;
      polledOnce, log := {}, [];
    }

    /** Previously seen Pis that are not visible are marked offline and will be polled again. */
    method ReconcileOffline(known: seq<int>, visible: set<int>)
      requires Valid()
      modifies this`polledOnce, store`pis
      ensures Valid()
      ensures polledOnce == old(polledOnce) - set pi | pi in known && pi !in visible
      ensures forall pi :: pi in known && pi !in visible ==> pi in store.pis && store.pis[pi].status == OFFLINE
      ensures forall pi :: !(pi in known && pi !in visible) ==> PiOf(store.pis, pi) == PiOf(old(store.pis), pi)
    {
      for k := 0 to |known|
        invariant store.Valid()
        invariant polledOnce == old(polledOnce) - set pi | pi in known[..k] && pi !in visible
        invariant forall pi :: pi in known[..k] && pi !in visible ==> pi in store.pis && store.pis[pi].status == OFFLINE
        invariant forall pi :: !(pi in known[..k] && pi !in visible) ==> PiOf(store.pis, pi) == PiOf(old(store.pis), pi)
      {
        assert known[..k + 1] == known[..k] + [known[k]];
        if known[k] !in visible {
          store.MarkOffline(known[k]);
          polledOnce := polledOnce - {known[k]};
        }
      }
      assert known[..|known|] == known;
    }

    /** What other threads may do at any moment: queue commands and ask for a fresh poll. */
    method OtherThreads(ghost batch: seq<nat>) returns (ghost es: seq<Event>)
      requires Valid()
      modifies this`polledOnce, store`commands, store`counter
      ensures Valid() && View(batch) == Run(old(View(batch)), es) && Own(es) == []
      ensures old(store.commands) <= store.commands
    {
      es := [];
      ghost var start := View(batch);
      var n: nat :| n >= 0;
      for k := 0 to n
        invariant Valid() && View(batch) == Run(start, es) && Own(es) == []
        invariant old(store.commands) <= store.commands
      {
        ghost var before := View(batch);
        ghost var e;
        if * {
          var pi: int := *;
          var cmd: string := *;
          e := Enqueue(pi, cmd);
          var _ := store.EnqueueCommand(pi, cmd);
        } else {
          var forget: set<int> := *;
          e := Repoll(forget);
          polledOnce := polledOnce - forget;
        }
        assert View(batch) == After(before, e);
        RunOne(start, es, e);
        OwnAppend(es, [e]);
        es := es + [e];
      }
    }

    /** One command sent and its result recorded; a confirmed one is followed by a poll. */
    method SendOne(pi: int, id: nat, ghost rest: seq<nat>, ok: bool, verify: Option<string>, signal: Option<int>)
      requires Valid() && IsId(store.commands, id) && Command(store.commands, id).pi == pi
      modifies this`log, store
      ensures Valid() && View(rest) == After(old(View([id] + rest)), SendNext(ok, verify, signal))
      ensures |store.commands| == |old(store.commands)| && log == old(log) + [id] && polledOnce == old(polledOnce)
      ensures forall i: nat :: Command(store.commands, i).pi == Command(old(store.commands), i).pi
    {
      hide Marked, Command, SeenOnline;
      assert ([id] + rest)[1..] == rest;
      log := log + [id];
      MarkKeepsPis(store.commands, id, ok);
      store.MarkCommandResult(id, ok);
      if ok && verify.Some? {
        store.UpdateState(pi, verify.value, signal);
      }
    }

    /** One visit, with other threads at work before it and around every send. Whether the access point
        could be joined, what the Pi answered, how each command went and the poll after it come from
        outside. The visit is a run of events: its own are the begin and one send for each command
        drained, oldest first. */
    method VisitPi(pi: int, joined: bool, reply: Option<string>, signal: Option<int>, ok: nat -> bool,
                   verify: nat -> Option<string>) returns (ghost es: seq<Event>, ghost drained: seq<nat>)
      requires Valid()
      modifies this`polledOnce, this`log, store
      ensures Valid() && View([]) == Run(old(View([])), es)
      ensures Own(es) == [Visit(pi, if joined then reply else None, signal)] + Sends(drained, ok, verify, signal)
      ensures log == old(log) + drained && (!joined || reply.None? ==> drained == [])
    {
      hide Drained, Pending, Waiting, SeenOffline, SeenOnline, Command, Run, Own, Sends, SentNext;
      ghost var start := View([]);
      es := OtherThreads([]);
      ghost var visit := Visit(pi, if joined then reply else None, signal);
      ghost var begun := View([]);
      drained := [];
      RunOne(start, es, visit);
      OwnVisit(es, visit, ok, verify, signal);
      es := es + [visit];
      if !joined || reply.None? {
        store.MarkOffline(pi);
        polledOnce := polledOnce - {pi};
        assert View([]) == After(begun, visit);
        return;
      }
      store.UpdateState(pi, reply.value, signal);
      polledOnce := polledOnce + {pi};
      DrainedForPi(store.commands, pi);
      var pending := store.DrainCommands(pi);
      assert pending[0..] == pending && pending[..0] == [] && View(pending) == After(begun, visit);
      for k := 0 to |pending|
        invariant store.Valid() && View(pending[k..]) == Run(start, es)
        invariant Own(es) == [visit] + Sends(pending[..k], ok, verify, signal)
        invariant log == old(log) + pending[..k]
        invariant forall j :: k <= j < |pending| ==>
          IsId(store.commands, pending[j]) && Command(store.commands, pending[j]).pi == pi
      {
        ghost var mine, rest := es, store.commands;
        ghost var others := OtherThreads(pending[k..]);
        RunAppend(start, mine, others);
        OwnAppend(mine, others);
        es := mine + others;
        SameCommands(rest, store.commands);
        var id := pending[k];
        assert pending[k..] == [id] + pending[k + 1..];
        ghost var e := SendNext(ok(id), verify(id), signal);
        RunOne(start, es, e);
        SendOne(pi, id, pending[k + 1..], ok(id), verify(id), signal);
        OwnSend(es, visit, pending, k, ok, verify, signal);
        es := es + [e];
        assert pending[..k + 1] == pending[..k] + [id];
      }
      drained := pending;
      assert pending[|pending|..] == [] && pending[..|pending|] == pending;
    }
  }

  /** The events of the cycler itself. */
  function Own(es: seq<Event>): seq<Event> {
    if es == [] then []
    else (if es[0].Enqueue? || es[0].Repoll? then [] else [es[0]]) + Own(es[1..])
  }

  function Sends(ids: seq<nat>, ok: nat -> bool, verify: nat -> Option<string>, signal: Option<int>): seq<Event> {
    if ids == [] then []
    else
      var id := ids[|ids| - 1];
      Sends(ids[..|ids| - 1], ok, verify, signal) + [SendNext(ok(id), verify(id), signal)]
  }

  lemma {:induction false} RunAppend(f: Fleet, es: seq<Event>, more: seq<Event>)
    ensures Run(f, es + more) == Run(Run(f, es), more)
    decreases |es|
  {
    hide After;
    if es == [] {
      assert es + more == more;
    } else {
      assert (es + more)[1..] == es[1..] + more;
      RunAppend(After(f, es[0]), es[1..], more);
    }
  }

  lemma RunOne(f: Fleet, es: seq<Event>, e: Event)
    ensures Run(f, es + [e]) == After(Run(f, es), e)
  {
    hide After;
    RunAppend(f, es, [e]);
    assert [e][1..] == [];
  }

  lemma {:induction false} OwnAppend(es: seq<Event>, more: seq<Event>)
    ensures Own(es + more) == Own(es) + Own(more)
  {
    if es == [] {
      assert es + more == more;
    } else {
      assert (es + more)[1..] == es[1..] + more;
      OwnAppend(es[1..], more);
    }
  }

  lemma OwnVisit(es: seq<Event>, visit: Event, ok: nat -> bool, verify: nat -> Option<string>, signal: Option<int>)
    requires Own(es) == [] && visit.Visit?
    ensures Own(es + [visit]) == [visit] + Sends([], ok, verify, signal) == [visit]
  {
    OwnAppend(es, [visit]);
    assert [visit][1..] == [];
  }

  lemma OwnSend(es: seq<Event>, visit: Event, ids: seq<nat>, k: nat, ok: nat -> bool,
                verify: nat -> Option<string>, signal: Option<int>)
    requires k < |ids| && Own(es) == [visit] + Sends(ids[..k], ok, verify, signal)
    ensures Own(es + [SendNext(ok(ids[k]), verify(ids[k]), signal)])
         == [visit] + Sends(ids[..k + 1], ok, verify, signal)
  {
    var e := SendNext(ok(ids[k]), verify(ids[k]), signal);
    OwnAppend(es, [e]);
    assert [e][1..] == [] && ids[..k + 1][..k] == ids[..k];
  }

  lemma SameCommands(cs: seq<QueuedCommand>, ds: seq<QueuedCommand>)
    requires cs <= ds
    ensures forall id: nat :: IsId(cs, id) ==> IsId(ds, id) && Command(ds, id) == Command(cs, id)
  {
  }

  lemma DrainedForPi(cs: seq<QueuedCommand>, pi: int)
    requires Numbered(cs)
    ensures var ids := Pending(cs, pi);
      forall j :: 0 <= j < |ids| ==> IsId(Drained(cs, pi), ids[j]) && Command(Drained(cs, pi), ids[j]).pi == pi
  {
    var ids := Pending(cs, pi);
    forall j | 0 <= j < |ids|
      ensures IsId(Drained(cs, pi), ids[j]) && Command(Drained(cs, pi), ids[j]).pi == pi
    {
      PendingIs(cs, pi, ids[j]);
      DrainedIs(cs, pi, ids[j]);
    }
  }

  lemma MarkKeepsPis(cs: seq<QueuedCommand>, id: nat, ok: bool)
    requires Numbered(cs) && IsId(cs, id)
    ensures |Marked(cs, id, ok)| == |cs|
    ensures forall i: nat :: Command(Marked(cs, id, ok), i).pi == Command(cs, i).pi
  {
    MarkedIs(cs, id, ok);
  }
}
