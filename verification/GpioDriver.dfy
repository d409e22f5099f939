/** gpio_driver.py: the command wrappers, the FET cache and the clock offset.

    Every command is taken as received and acknowledged.
 */
module GpioDriver {
  import opened Firmware
  import opened Options

  /** The readings one engine call takes: monotonic() around each round trip, and the firmware
      stamps found in the replies, when there are any. */
  datatype Times = Times(
    now: real,
    syncSend: real, syncReply: real, syncTicks: Option<int>,
    goSend: real, goReply: real, goAnswered: bool, goTicks: Option<int>)

  /** Firmware seconds minus Pi seconds after a P round trip; a bad reply keeps the old one. */
  function SyncedOffset(offset: Option<real>, t: Times): Option<real> {
    match t.syncTicks
    case None => offset
    case Some(ticks) => Some(ticks as real / 1000000.0 - 0.5 * (t.syncSend + t.syncReply))
  }

  /** Pi time at which the firmware applied state 0; None when G was not answered. */
  function StartAnchor(offset: Option<real>, t: Times): Option<real> {
    if !t.goAnswered then None
    else if offset.Some? && t.goTicks.Some? then
      Some(t.goTicks.value as real / 1000000.0 - offset.value)
    else Some(0.5 * (t.goSend + t.goReply))
  }

  /** Pi time of the sample in a D line stamped `fwTsUs`. */
  function SampleTime(offset: Option<real>, fwTsUs: int, now: real): real {
    if offset.Some? then fwTsUs as real / 1000000.0 - offset.value else now
  }

  /** A firmware stamp taken when the Pi's clock showed `at`, with the firmware's clock `skew` ahead. */
  predicate StampedAt(ticks: int, at: real, skew: real) {
    ticks as real / 1000000.0 == at + skew
  }

  /** How far x is from y. */
  function Apart(x: real, y: real): real {
    if x < y then y - x else x - y
  }

  /** Whenever during the round trip the firmware took its stamp, the measured offset is off by at most half
      the round trip, and exact if the stamp was taken half-way; without a stamp the old one is kept. */
  lemma SyncIsWithinHalfTheRoundTrip(offset: Option<real>, t: Times, at: real, skew: real)
    ensures t.syncTicks.None? ==> SyncedOffset(offset, t) == offset
    ensures t.syncTicks.Some? && t.syncSend <= at <= t.syncReply && StampedAt(t.syncTicks.value, at, skew) ==>
      var o := SyncedOffset(offset, t);
      && o.Some? && Apart(o.value, skew) <= (t.syncReply - t.syncSend) / 2.0
      && (o.value == skew <==> at - t.syncSend == t.syncReply - at)
  {
  }

  /** A sample's time on the Pi is off by the error of the offset and nothing else; so is the anchor of a
      start that was answered with a stamp. */
  lemma StampsAreOffByTheOffset(offset: real, t: Times, ticks: int, at: real, skew: real, now: real)
    requires StampedAt(ticks, at, skew)
    ensures Apart(SampleTime(Some(offset), ticks, now), at) == Apart(offset, skew)
    ensures t.goAnswered && t.goTicks == Some(ticks) ==>
      var a := StartAnchor(Some(offset), t);
      a.Some? && Apart(a.value, at) == Apart(offset, skew)
  {
  }

  /** Without an offset or a stamp the anchor is within half the round trip of whenever the firmware started;
      without an answer there is none. */
  lemma AnchorIsWithinHalfTheRoundTrip(offset: Option<real>, t: Times, at: real)
    requires offset.None? || t.goTicks.None?
    ensures StartAnchor(offset, t).Some? <==> t.goAnswered
    ensures t.goAnswered && t.goSend <= at <= t.goReply ==>
      Apart(StartAnchor(offset, t).value, at) <= (t.goReply - t.goSend) / 2.0
  {
  }

  /** The serial link: the firmware, the driver's FET cache, and all commands sent so far. */
  datatype Board = Board(fw: Fw, cache: Pins, sent: seq<Command>)

  function CacheAfter(cache: Pins, c: Command): Pins {
    match c
    case S(p) => p
    case Y(_) => ALL_ON
    case H => ALL_OFF
    case _ => cache
  }

  function Send(b: Board, c: Command): Board {
    Board(Exec(b.fw, c), CacheAfter(b.cache, c), b.sent + [c])
  }

  function SendAll(b: Board, cs: seq<Command>): Board
    decreases |cs|
  {
    if cs == [] then b else SendAll(Send(b, cs[0]), cs[1..])
  }

  /** The cache shows what S, H and Y with all on leave on the pins. */
  lemma DirectCommandsAreCached(b: Board, c: Command)
    requires c.S? || c.H? || c == Y(Pins(true, true, true, true))
    ensures Send(b, c).cache == Send(b, c).fw.pins
  {
  }

  lemma {:induction false} SendAllIsExecAll(b: Board, cs: seq<Command>)
    ensures SendAll(b, cs).fw == ExecAll(b.fw, cs)
    ensures SendAll(b, cs).sent == b.sent + cs
    decreases |cs|
  {
    if cs == [] {
    } else {
      SendAllIsExecAll(Send(b, cs[0]), cs[1..]);
      assert b.sent + cs == b.sent + [cs[0]] + cs[1..];
    }
  }

  lemma {:induction false} SendAllAppend(b: Board, cs: seq<Command>, ds: seq<Command>)
    ensures SendAll(b, cs + ds) == SendAll(SendAll(b, cs), ds)
    decreases |cs|
  {
    if cs == [] {
      assert cs + ds == ds;
    } else {
      assert (cs + ds)[1..] == cs[1..] + ds;
      SendAllAppend(Send(b, cs[0]), cs[1..], ds);
    }
  }

  /** Each number's low four bits. */
  function LowBits(packed: seq<int>): (states: seq<int>)
    ensures |states| == |packed| && forall i :: 0 <= i < |states| ==> IsState(states[i])
  {
    seq(|packed|, i requires 0 <= i < |packed| => packed[i] % 16)
  }

  /** Each FET is on exactly if its bit is set in the number given, however large the number. */
  lemma LowBitsKeepFets(packed: seq<int>, i: nat)
    requires i < |packed|
    ensures Unpack(LowBits(packed)[i]) == Unpack(packed[i])
  {
    var x := packed[i];
    var q, r := x / 16, x % 16;
    assert x == 16 * q + r;
    ModUnique(x / 8, 2, q, r / 8);
    ModUnique(x / 4, 2, 2 * q + r / 8, (r / 4) % 2);
    ModUnique(x / 2, 2, 4 * q + r / 4, (r / 2) % 2);
    ModUnique(x, 2, 8 * q + r / 2, r % 2);
  }

  /** States are their own low bits; so what the engine passes goes out as it is. */
  lemma LowBitsOfStates(packed: seq<int>)
    requires forall i :: 0 <= i < |packed| ==> IsState(packed[i])
    ensures LowBits(packed) == packed
  {
  }

  /** The RP2040 at the other end of the link. */
  class Device {
    var fw: Fw
    ghost var sent: seq<Command>

    constructor ()
      ensures fw == BOOT && sent == []
    {
      fw := BOOT;
      sent := [];
    }

    method Run(c: Command)
      modifies this
      ensures fw == Exec(old(fw), c) && sent == old(sent) + [c]
    {
      fw := Exec(fw, c);
      sent := sent + [c];
    }

    /** The timer interrupt fires k times. */
    method Fire(k: nat)
      modifies this`fw
      ensures fw == Ticks(old(fw), k)
    {
      for i := 0 to k
        invariant fw == Ticks(old(fw), i)
      {
        fw := Tick(fw);
      }
    }
  }

  class GPIODriver {
    const device: Device
    var fetStates: Pins
    var clockOffset: Option<real>

    ghost function View(): Board
      reads this, device
    {
      Board(device.fw, fetStates, device.sent)
    }

    constructor (device: Device)
      modifies device
      ensures this.device == device && View() == Send(Board(old(device.fw), ALL_OFF, old(device.sent)), S(ALL_OFF))
      ensures clockOffset == None
    {
      this.device := device;
      fetStates := ALL_OFF;
      clockOffset := None;
      new;
      AllOff();
    }

    method ApplyState(p: Pins)
      modifies this`fetStates, device
      ensures View() == Send(old(View()), S(p))
    {
      device.Run(S(p));
      fetStates := p;
    }

    method AllOn()
      modifies this`fetStates, device
      ensures View() == Send(old(View()), S(ALL_ON))
    {
      ApplyState(ALL_ON);
    }

    method AllOff()
      modifies this`fetStates, device
      ensures View() == Send(old(View()), S(ALL_OFF))
    {
      ApplyState(ALL_OFF);
    }

    method AllOnNoHalt()
      modifies this`fetStates, device
      ensures View() == Send(old(View()), Y(ALL_ON))
    {
      device.Run(Y(ALL_ON));
      fetStates := ALL_ON;
    }

    method StopSwitching()
      modifies this`fetStates, device
      ensures View() == Send(old(View()), H)
    {
      device.Run(H);
      fetStates := ALL_OFF;
    }

    /** Only the low four bits of each state go out; an empty list is refused and nothing is sent. */
    method ProgramSequence(packed: seq<int>) returns (ok: bool)
      modifies device
      ensures ok == (packed != [])
      ensures View() == if ok then Send(old(View()), C(LowBits(packed))) else old(View())
    {
      if packed == [] {
        return false;
      }
      device.Run(C(LowBits(packed)));
      return true;
    }

    method ProgramSequenceLive(packed: seq<int>) returns (ok: bool)
      modifies device
      ensures ok == (packed != [])
      ensures View() == if ok then Send(old(View()), E(LowBits(packed))) else old(View())
    {
      if packed == [] {
        return false;
      }
      device.Run(E(LowBits(packed)));
      return true;
    }

    method SetStepPeriodUs(periodUs: int)
      modifies device
      ensures View() == Send(old(View()), F(if periodUs < 50 then 50 else periodUs))
    {
      device.Run(F(if periodUs < 50 then 50 else periodUs));
    }

    method SyncFirmwareClock(t: Times)
      modifies this`clockOffset, device
      ensures View() == Send(old(View()), P)
      ensures clockOffset == SyncedOffset(old(clockOffset), t)
    {
      device.Run(P);
      if t.syncTicks.Some? {
        var midpoint := 0.5 * (t.syncSend + t.syncReply);
        clockOffset := Some(t.syncTicks.value as real / 1000000.0 - midpoint);
      }
    }

    method StartSwitching(t: Times) returns (anchor: Option<real>)
      modifies device
      ensures View() == Send(old(View()), G)
      ensures anchor == StartAnchor(clockOffset, t)
    {
      device.Run(G);
      if !t.goAnswered {
        return None;
      }
      if clockOffset.Some? && t.goTicks.Some? {
        anchor := Some(t.goTicks.value as real / 1000000.0 - clockOffset.value);
      } else {
        anchor := Some(0.5 * (t.goSend + t.goReply));
      }
    }
  }
}
