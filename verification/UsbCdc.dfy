/** usb_cdc.c: lines put together from the bytes that trickle in between polls.

    A char stands for one byte.
 */
module UsbCdc {

  const LINE_BUF_CAP: nat := 256

  /** What has been collected of the current line. */
  datatype Pending = Pending(text: string, overflow: bool)

  const NOTHING := Pending("", false)

  function Pushed(p: Pending, ch: char): Pending {
    if |p.text| < LINE_BUF_CAP - 1 then p.(text := p.text + [ch]) else p.(overflow := true)
  }

  datatype Line = NoLine | Line(text: string)

  /** The outcome of one poll: a line if one was completed, and the bytes left unread. */
  datatype Polled = Polled(pending: Pending, rest: string, line: Line, errors: nat)

  function Poll(p: Pending, fifo: string): (r: Polled)
    ensures |r.rest| <= |fifo| && (fifo != [] ==> |r.rest| < |fifo|)
    decreases |fifo|
  {
    if fifo == [] then Polled(p, [], NoLine, 0)
    else if fifo[0] == '\r' then Poll(p, fifo[1..])
    else if fifo[0] != '\n' then Poll(Pushed(p, fifo[0]), fifo[1..])
    else if p.overflow then
      var r := Poll(NOTHING, fifo[1..]);
      r.(errors := r.errors + 1)
    else Polled(NOTHING, fifo[1..], Line(p.text), 0)
  }

  // ----- reference: lines of a whole byte stream --------------------------------------------

  /** The lines worth handling: not empty and not longer than the buffer holds. */
  function Kept(text: string): seq<string> {
    if 0 < |text| <= LINE_BUF_CAP - 1 then [text] else []
  }

  function LinesFrom(partial: string, bytes: string): seq<string>
    decreases |bytes|
  {
    if bytes == [] then []
    else if bytes[0] == '\r' then LinesFrom(partial, bytes[1..])
    else if bytes[0] == '\n' then Kept(partial) + LinesFrom("", bytes[1..])
    else LinesFrom(partial + [bytes[0]], bytes[1..])
  }

  function PartialAfter(partial: string, bytes: string): string
    decreases |bytes|
  {
    if bytes == [] then partial
    else if bytes[0] == '\r' then PartialAfter(partial, bytes[1..])
    else if bytes[0] == '\n' then PartialAfter("", bytes[1..])
    else PartialAfter(partial + [bytes[0]], bytes[1..])
  }

  /** The lines too long for the buffer. */
  function Overlong(partial: string, bytes: string): nat
    decreases |bytes|
  {
    if bytes == [] then 0
    else if bytes[0] == '\r' then Overlong(partial, bytes[1..])
    else if bytes[0] == '\n' then (if |partial| > 255 then 1 else 0) + Overlong("", bytes[1..])
    else Overlong(partial + [bytes[0]], bytes[1..])
  }

  lemma {:induction false} LinesAppend(partial: string, a: string, b: string)
    ensures LinesFrom(partial, a + b) == LinesFrom(partial, a) + LinesFrom(PartialAfter(partial, a), b)
    ensures PartialAfter(partial, a + b) == PartialAfter(PartialAfter(partial, a), b)
    decreases |a|
  {
    if a == [] {
      assert a + b == b;
    } else {
      assert (a + b)[0] == a[0] && (a + b)[1..] == a[1..] + b;
      if a[0] == '\r' {
        LinesAppend(partial, a[1..], b);
      } else if a[0] == '\n' {
        LinesAppend("", a[1..], b);
      } else {
        LinesAppend(partial + [a[0]], a[1..], b);
      }
    }
  }

  predicate Plain(text: string) {
    forall k :: 0 <= k < |text| ==> text[k] != '\n' && text[k] != '\r'
  }

  /** A line in the stream is delivered as it was sent, and what follows it is read on its own. */
  lemma {:induction false} LineThenRest(partial: string, text: string, rest: string)
    requires Plain(text)
    ensures LinesFrom(partial, text + "\n" + rest) == Kept(partial + text) + LinesFrom("", rest)
    decreases |text|
  {
    var bytes := text + "\n" + rest;
    if text == [] {
      assert bytes == "\n" + rest && bytes[1..] == rest && partial + text == partial;
    } else {
      assert bytes[0] == text[0] && bytes[1..] == text[1..] + "\n" + rest;
      assert partial + [text[0]] + text[1..] == partial + text;
      LineThenRest(partial + [text[0]], text[1..], rest);
    }
  }

  // ----- any mixture of arrivals and polls ---------------------------------------------------

  /** The buffer against the whole line so far, however long. */
  predicate Holds(p: Pending, partial: string) {
    && p.overflow == (|partial| > LINE_BUF_CAP - 1)
    && p.text == if |partial| > LINE_BUF_CAP - 1 then partial[..LINE_BUF_CAP - 1] else partial
  }

  function Delivered(l: Line): seq<string> {
    if l.Line? && l.text != "" then [l.text] else []
  }

  lemma PushHolds(p: Pending, partial: string, ch: char)
    requires Holds(p, partial)
    ensures Holds(Pushed(p, ch), partial + [ch])
  {
  }

  /** One poll reads some bytes, delivers exactly the lines that those bytes complete, and reports one error
      for each of them that is too long. */
  lemma {:induction false} PollReads(p: Pending, partial: string, fifo: string) returns (used: string)
    requires Holds(p, partial)
    ensures var r := Poll(p, fifo);
      && fifo == used + r.rest
      && Holds(r.pending, PartialAfter(partial, used))
      && Delivered(r.line) == LinesFrom(partial, used) && r.errors == Overlong(partial, used)
    decreases |fifo|
  {
    if fifo == [] {
      used := [];
    } else if fifo[0] == '\n' && !p.overflow {
      used := [fifo[0]];
      assert used[1..] == [];
      assert LinesFrom("", []) == [] && Overlong("", []) == 0;
    } else {
      var more;
      if fifo[0] == '\r' {
        more := PollReads(p, partial, fifo[1..]);
      } else if fifo[0] == '\n' {
        more := PollReads(NOTHING, "", fifo[1..]);
      } else {
        PushHolds(p, partial, fifo[0]);
        more := PollReads(Pushed(p, fifo[0]), partial + [fifo[0]], fifo[1..]);
      }
      used := [fifo[0]] + more;
      assert used[1..] == more;
    }
  }

  datatype Event = Arrive(bytes: string) | PollOnce

  datatype Port = Port(pending: Pending, fifo: string, lines: seq<string>)

  const IDLE_PORT := Port(NOTHING, "", [])

  function After(s: Port, e: Event): Port {
    match e
    case Arrive(bytes) => s.(fifo := s.fifo + bytes)
    case PollOnce =>
      var r := Poll(s.pending, s.fifo);
      Port(r.pending, r.rest, s.lines + Delivered(r.line))
  }

  function AfterAll(s: Port, es: seq<Event>): Port
    decreases |es|
  {
    if es == [] then s else AfterAll(After(s, es[0]), es[1..])
  }

  function Arrived(es: seq<Event>): string {
    if es == [] then "" else (if es[0].Arrive? then es[0].bytes else "") + Arrived(es[1..])
  }

  /** The bytes read so far account for the lines delivered and for what the buffer holds. */
  ghost predicate Accounted(s: Port, read: string) {
    s.lines == LinesFrom("", read) && Holds(s.pending, PartialAfter("", read))
  }

  lemma StepAccounts(s: Port, read: string, e: Event) returns (now: string)
    requires Accounted(s, read)
    ensures Accounted(After(s, e), now)
    ensures now + After(s, e).fifo == read + s.fifo + (if e.Arrive? then e.bytes else "")
  {
    hide Poll, LinesFrom, PartialAfter, Holds, Delivered;
    now := read;
    if e.PollOnce? {
      var used := PollReads(s.pending, PartialAfter("", read), s.fifo);
      LinesAppend("", read, used);
      now := read + used;
    }
  }

  lemma {:induction false} RunAccounts(s: Port, read: string, es: seq<Event>) returns (all: string)
    requires Accounted(s, read)
    ensures Accounted(AfterAll(s, es), all)
    ensures all + AfterAll(s, es).fifo == read + s.fifo + Arrived(es)
    decreases |es|
  {
    hide Accounted, After;
    if es == [] {
      all := read;
    } else {
      var now := StepAccounts(s, read, es[0]);
      all := RunAccounts(After(s, es[0]), now, es[1..]);
    }
  }

  /** However the bytes are split between polls, the lines delivered are those of the whole stream, in
      order: a prefix of them at any time, and all of them once everything has been read. */
  lemma ChunkingDoesNotMatter(es: seq<Event>)
    ensures var s := AfterAll(IDLE_PORT, es);
      && s.lines <= LinesFrom("", Arrived(es))
      && (s.fifo == [] ==> s.lines == LinesFrom("", Arrived(es)))
  {
    var all := RunAccounts(IDLE_PORT, "", es);
    var s := AfterAll(IDLE_PORT, es);
    assert "" + "" + Arrived(es) == Arrived(es);
    LinesAppend("", all, s.fifo);
    if s.fifo == [] {
      assert all + s.fifo == all;
    }
  }

  // ----- the buffer in place -----------------------------------------------------------------

  class UsbCdc {
    const lineBuf: array<char>
    var lineLen: nat
    var overflow: bool
    /** Bytes the USB stack has received and nobody has read. */
    var fifo: string

    ghost predicate Valid()
      reads this
    {
      lineBuf.Length == LINE_BUF_CAP && lineLen <= LINE_BUF_CAP - 1
    }

    ghost function View(): Pending
      reads this, lineBuf
      requires Valid()
    {
      Pending(lineBuf[..lineLen], overflow)
    }

    constructor ()
      ensures Valid() && View() == NOTHING && fifo == [] && fresh(lineBuf)
    {
      lineBuf := new char[LINE_BUF_CAP];
      lineLen, overflow, fifo := 0, false, [];
    }

    /** Returns the length of the line now in out, or 0. A line longer than out can hold is cut. */
    method ReadLine(out: array<char>) returns (n: nat, errors: nat)
      requires Valid() && out != lineBuf
      modifies this`lineLen, this`overflow, this`fifo, lineBuf, out
      ensures Valid()
      ensures out.Length == 0 ==> n == 0 && errors == 0 && View() == old(View()) && fifo == old(fifo)
      ensures out.Length > 0 ==>
        var r := Poll(old(View()), old(fifo));
        && View() == r.pending && fifo == r.rest && errors == r.errors
        && (r.line.NoLine? ==> n == 0)
        && (r.line.Line? ==>
              && n == (if |r.line.text| < out.Length then |r.line.text| else out.Length - 1)
              && out[..n] == r.line.text[..n] && out[n] == '\0')
    {
      n, errors := 0, 0;
      if out.Length == 0 {
        return;
      }
      ghost var goal := Poll(View(), fifo);
      while true
        invariant Valid() && n == 0
        invariant goal == (var r := Poll(View(), fifo); r.(errors := r.errors + errors))
        decreases |fifo|
      {
        if fifo == [] {
          return;
        }
        var ch := fifo[0];
        ghost var before := View();
        fifo := fifo[1..];
        if ch == '\r' {
          continue;
        }
        if ch == '\n' {
          n := lineLen;
          if overflow {
            errors := errors + 1;
            lineLen := 0;
            overflow := false;
            n := 0;
            assert View() == NOTHING;
            continue;
          }
          if n >= out.Length {
            n := out.Length - 1;
          }
          forall k | 0 <= k < n {
            out[k] := lineBuf[k];
          }
          out[n] := '\0';
          lineLen := 0;
          return;
        }
        if lineLen < LINE_BUF_CAP - 1 {
          lineBuf[lineLen] := ch;
          lineLen := lineLen + 1;
        } else {
          overflow := true;
        }
        assert View() == Pushed(before, ch);
      }
    }
  }
}
