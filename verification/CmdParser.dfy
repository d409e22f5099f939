/** cmd_parser.c: a line is cut into tokens in place and parsed into a command; gpio_driver.py writes
    the lines. */
module CmdParser {
  import opened Firmware
  import opened Options
  import UsbCdc

  const MAX_TOKENS: nat := 70
  const NUL: char := '\0'

  // ----- numbers ----------------------------------------------------------------------------

  function Digit(d: nat): (c: char)
    requires d <= 9
    ensures IsDigit(c) && DigitValue(c) == d
  {
    "0123456789"[d]
  }

  predicate IsDigit(c: char) {
    '0' <= c <= '9'
  }

  function DigitValue(c: char): nat
    requires IsDigit(c)
  {
    (c - '0') as int
  }

  /** Python's str(n). */
  function Decimal(n: nat): (s: string)
    ensures s != "" && forall k :: 0 <= k < |s| ==> IsDigit(s[k])
    ensures n < 100 ==> |s| <= 2
  {
    if n < 10 then [Digit(n)] else Decimal(n / 10) + [Digit(n % 10)]
  }

  predicate AllDigits(s: string) {
    forall k :: 0 <= k < |s| ==> IsDigit(s[k])
  }

  function NumberOf(s: string): nat
    requires AllDigits(s)
  {
    if s == "" then 0 else 10 * NumberOf(s[..|s| - 1]) + DigitValue(s[|s| - 1])
  }

  lemma {:induction false} DecimalRoundTrip(n: nat)
    ensures NumberOf(Decimal(n)) == n
  {
    if n < 10 {
    } else {
      DecimalRoundTrip(n / 10);
      var s := Decimal(n);
      assert s[..|s| - 1] == Decimal(n / 10);
    }
  }

  /** The value of an integer token; strtol stops at the limits of the platform's 32-bit long. */
  function ParseInt(t: string): (r: Option<int>)
    ensures r.Some? ==> -0x8000_0000 <= r.value <= 0x7fff_ffff
  {
    var signed := t != "" && (t[0] == '-' || t[0] == '+');
    var digits := if signed then t[1..] else t;
    if digits == "" || !AllDigits(digits) then None
    else
      var size: int := NumberOf(digits);
      var v := if signed && t[0] == '-' then -size else size;
      Some(if v > 0x7fff_ffff then 0x7fff_ffff else if v < -0x8000_0000 then -0x8000_0000 else v)
  }

  lemma ParseDecimal(n: nat)
    requires n <= 0x7fff_ffff
    ensures ParseInt(Decimal(n)) == Some(n)
  {
    DecimalRoundTrip(n);
    assert IsDigit(Decimal(n)[0]);
  }

  // ----- tokens -----------------------------------------------------------------------------

  predicate IsSpace(c: char) {
    c == ' ' || 9 <= c as int <= 13
  }

  predicate IsWord(t: string) {
    t != "" && forall k :: 0 <= k < |t| ==> !IsSpace(t[k]) && t[k] != NUL
  }

  function WordLength(s: string): (k: nat)
    ensures k <= |s| && (forall j :: 0 <= j < k ==> !IsSpace(s[j])) && (k < |s| ==> IsSpace(s[k]))
  {
    if s == "" || IsSpace(s[0]) then 0 else 1 + WordLength(s[1..])
  }

  /** The maximal runs of non-space characters. */
  function Words(s: string): (ws: seq<string>)
    ensures forall k :: 0 <= k < |ws| ==> ws[k] != "" && forall j :: 0 <= j < |ws[k]| ==> !IsSpace(ws[k][j])
    decreases |s|
  {
    if s == "" then []
    else if IsSpace(s[0]) then Words(s[1..])
    else [s[..WordLength(s)]] + Words(s[WordLength(s)..])
  }

  function Joined(ws: seq<string>): string {
    if ws == [] then "" else if |ws| == 1 then ws[0] else ws[0] + " " + Joined(ws[1..])
  }

  lemma WordLengthOf(w: string, rest: string)
    requires IsWord(w) && (rest == "" || IsSpace(rest[0]))
    ensures WordLength(w + rest) == |w|
  {
    assert forall j :: 0 <= j < |w| ==> (w + rest)[j] == w[j];
    assert rest != "" ==> (w + rest)[|w|] == rest[0];
  }

  lemma {:induction false} WordsOfJoined(ws: seq<string>)
    requires forall k :: 0 <= k < |ws| ==> IsWord(ws[k])
    ensures Words(Joined(ws)) == ws
  {
    if ws == [] {
    } else {
      var rest := if |ws| == 1 then "" else " " + Joined(ws[1..]);
      var s := ws[0] + rest;
      assert Joined(ws) == s && s[0] == ws[0][0];
      WordLengthOf(ws[0], rest);
      assert s[..|ws[0]|] == ws[0] && s[|ws[0]|..] == rest;
      if |ws| > 1 {
        WordsOfJoined(ws[1..]);
        assert rest[1..] == Joined(ws[1..]);
      }
    }
  }

  // ----- commands ---------------------------------------------------------------------------

  function BitWord(on: bool): string {
    if on then "1" else "0"
  }

  function StateWords(states: seq<int>): (ws: seq<string>)
    requires forall k :: 0 <= k < |states| ==> 0 <= states[k] <= 15
    ensures |ws| == |states| && forall k :: 0 <= k < |ws| ==> ws[k] == Decimal(states[k])
  {
    if states == [] then [] else [Decimal(states[0])] + StateWords(states[1..])
  }

  /** What the driver may send: cycles of 1..64 states, periods from 50 us to the largest integer the
      firmware reads exactly. */
  predicate Sendable(c: Command) {
    match c
    case C(states) => ValidCycle(states)
    case E(states) => ValidCycle(states)
    case F(us) => MIN_PERIOD_US <= us <= 0x7fff_ffff
    case _ => true
  }

  /** The words of the line the driver writes. */
  function WordsFor(c: Command): seq<string>
    requires Sendable(c)
  {
    match c
    case S(p) => ["S", BitWord(p.p1), BitWord(p.p2), BitWord(p.n1), BitWord(p.n2)]
    case Y(p) => ["Y", BitWord(p.p1), BitWord(p.p2), BitWord(p.n1), BitWord(p.n2)]
    case C(states) => ["C", Decimal(|states|)] + StateWords(states)
    case E(states) => ["E", Decimal(|states|)] + StateWords(states)
    case F(us) => ["F", Decimal(us)]
    case G => ["G"]
    case H => ["H"]
    case K => ["K"]
    case P => ["P"]
  }

  function LineFor(c: Command): string
    requires Sendable(c)
  {
    Joined(WordsFor(c))
  }

  function Upper(c: char): char {
    if 'a' <= c <= 'z' then (c as int - 32) as char else c
  }

  /** The state list of a C or E line, if it is well-formed. */
  function CycleOf(toks: seq<string>): (r: Option<seq<int>>)
    ensures r.Some? ==> ValidCycle(r.value)
  {
    if |toks| < 2 then None
    else
      var n := ParseInt(toks[1]);
      if n.None? || n.value < 1 || n.value > CYCLE_MAX_STATES || |toks| != 2 + n.value then None
      else StatesOf(toks[2..])
  }

  function StatesOf(ws: seq<string>): (r: Option<seq<int>>)
    ensures r.Some? ==> |r.value| == |ws| && forall k :: 0 <= k < |ws| ==> IsState(r.value[k])
  {
    if ws == [] then Some([])
    else
      var v := ParseInt(ws[0]);
      var rest := StatesOf(ws[1..]);
      if v.None? || !IsState(v.value) || rest.None? then None else Some([v.value] + rest.value)
  }

  function PinsOf(toks: seq<string>, lowBitOnly: bool): Option<Pins> {
    if |toks| != 5 then None
    else
      var a, b, c, d := ParseInt(toks[1]), ParseInt(toks[2]), ParseInt(toks[3]), ParseInt(toks[4]);
      if a.None? || b.None? || c.None? || d.None? then None
      else Some(Pins(On(a.value, lowBitOnly), On(b.value, lowBitOnly),
                     On(c.value, lowBitOnly), On(d.value, lowBitOnly)))
  }

  /** S looks at the lowest bit of its arguments, Y at whether they are zero as a byte. */
  predicate On(v: int, lowBitOnly: bool) {
    if lowBitOnly then v % 2 == 1 else v % 0x100 != 0
  }

  /** What a line of tokens asks for; None for every line answered with ERR and for verbs outside the
      switching commands. */
  function Parsed(toks: seq<string>): Option<Command> {
    if toks == [] || |toks[0]| != 1 then None
    else
      var verb := Upper(toks[0][0]);
      if verb == 'S' then (var p := PinsOf(toks, true); if p.None? then None else Some(S(p.value)))
      else if verb == 'Y' then (var p := PinsOf(toks, false); if p.None? then None else Some(Y(p.value)))
      else if verb == 'C' then (var c := CycleOf(toks); if c.None? then None else Some(C(c.value)))
      else if verb == 'E' then (var c := CycleOf(toks); if c.None? then None else Some(E(c.value)))
      else if verb == 'F' then
        if |toks| != 2 then None
        else
          var us := ParseInt(toks[1]);
          if us.None? || us.value < MIN_PERIOD_US then None else Some(F(us.value))
      else if verb == 'G' then Some(G)
      else if verb == 'H' then Some(H)
      else if verb == 'K' then Some(K)
      else if verb == 'P' then Some(P)
      else None
  }

  function Firsts<T>(s: seq<T>, n: nat): seq<T> {
    if |s| <= n then s else s[..n]
  }

  /** The C string at the start of a buffer. */
  function CString(s: string): (t: string)
    ensures t <= s && NUL !in t && (|t| < |s| ==> s[|t|] == NUL)
  {
    if s == "" || s[0] == NUL then ""
    else
      var rest := CString(s[1..]);
      assert |rest| < |s| - 1 ==> s[1..][|rest|] == s[|rest| + 1];
      [s[0]] + rest
  }

  function CommandOf(line: string): Option<Command> {
    Parsed(Firsts(Words(CString(line)), MAX_TOKENS))
  }

  /** Any of the six white-space characters ends a word. */
  lemma WordsApart(word: string, c: char, rest: string)
    requires IsWord(word) && (c in " \t\n\r" || c as int == 11 || c as int == 12)
    ensures Words(word + [c] + rest) == [word] + Words(rest)
  {
    var s := word + [c] + rest;
    WordLengthOf(word, [c] + rest);
    assert word + ([c] + rest) == s && s[|word|..] == [c] + rest && ([c] + rest)[1..] == rest;
    assert s[..|word|] == word && s[0] == word[0];
  }

  // ----- which lines are accepted -----------------------------------------------------------------

  predicate IsNumber(t: string, low: int, high: int) {
    var v := ParseInt(t);
    v.Some? && low <= v.value <= high
  }

  lemma {:induction false} StatesReadExactly(ws: seq<string>)
    ensures StatesOf(ws).Some? <==> forall k :: 0 <= k < |ws| ==> IsNumber(ws[k], 0, 15)
    ensures StatesOf(ws).Some? ==> forall k :: 0 <= k < |ws| ==> ParseInt(ws[k]) == Some(StatesOf(ws).value[k])
  {
    hide ParseInt;
    if ws == [] {
    } else {
      StatesReadExactly(ws[1..]);
      assert forall k :: 0 < k < |ws| ==> ws[k] == ws[1..][k - 1];
    }
  }

  /** A C or E line is accepted exactly if its count is the number of states that follow, 1 to 64, and each is
      a number from 0 to 15; those are then the states. */
  lemma CycleLineExactly(verb: string, count: string, ws: seq<string>)
    requires verb == "C" || verb == "E"
    ensures var c := Parsed([verb, count] + ws);
      && (c.Some? <==> 1 <= |ws| <= 64 && ParseInt(count) == Some(|ws|)
                       && forall k :: 0 <= k < |ws| ==> IsNumber(ws[k], 0, 15))
      && (c.Some? ==> (if verb == "C" then c.value.C? else c.value.E?) && |c.value.states| == |ws|
                      && forall k :: 0 <= k < |ws| ==> ParseInt(ws[k]) == Some(c.value.states[k]))
  {
    hide ParseInt, StatesOf, PinsOf;
    assert ([verb, count] + ws)[2..] == ws;
    StatesReadExactly(ws);
  }

  /** S and Y lines are accepted exactly with four numbers, for P1, P2, N1 and N2 in that order. S switches a
      FET on for an odd number, Y for one that is not a multiple of 256. */
  lemma PinLineExactly(verb: string, ws: seq<string>)
    requires verb == "S" || verb == "Y"
    ensures Parsed([verb] + ws).Some? <==> |ws| == 4 && forall k :: 0 <= k < |ws| ==> ParseInt(ws[k]).Some?
    ensures Parsed([verb] + ws).Some? ==>
      var c := Parsed([verb] + ws).value;
      && (if verb == "S" then c.S? else c.Y?)
      && forall k :: 0 <= k < 4 ==>
           var v := ParseInt(ws[k]).value;
           [c.pins.p1, c.pins.p2, c.pins.n1, c.pins.n2][k] == if verb == "S" then v % 2 != 0 else v % 256 != 0
  {
    hide ParseInt, CycleOf;
    assert forall k :: 0 <= k < |ws| ==> ([verb] + ws)[k + 1] == ws[k];
  }

  /** F is accepted exactly with one number of at least 50. */
  lemma PeriodLineExactly(ws: seq<string>)
    ensures var c := Parsed(["F"] + ws);
      && (c.Some? <==> |ws| == 1 && IsNumber(ws[0], 50, 0x7fff_ffff))
      && (c.Some? ==> c.value.F? && ParseInt(ws[0]) == Some(c.value.periodUs))
  {
    hide CycleOf, PinsOf;
    assert |ws| == 1 ==> (["F"] + ws)[1] == ws[0];
  }

  /** G, H, K and P take no notice of what follows them. */
  lemma VerbsAlone(ws: seq<string>)
    ensures Parsed(["G"] + ws) == Some(G) && Parsed(["H"] + ws) == Some(H)
    ensures Parsed(["K"] + ws) == Some(K) && Parsed(["P"] + ws) == Some(P)
  {
    hide CycleOf, PinsOf;
  }

  /** A verb in lower case means the same. */
  lemma CaseDoesNotMatter(c: char, ws: seq<string>)
    requires 'A' <= c <= 'Z'
    ensures Parsed([[(c as int + 32) as char]] + ws) == Parsed([[c]] + ws)
  {
    hide CycleOf, PinsOf;
    var low, high := [[(c as int + 32) as char]] + ws, [[c]] + ws;
    assert low[1..] == high[1..];
    SameArguments(low, high);
  }

  lemma SameArguments(xs: seq<string>, ys: seq<string>)
    requires xs != [] && ys != [] && xs[1..] == ys[1..]
    ensures CycleOf(xs) == CycleOf(ys) && PinsOf(xs, true) == PinsOf(ys, true) && PinsOf(xs, false) == PinsOf(ys, false)
    ensures |xs| == |ys| && (|xs| >= 2 ==> xs[1] == ys[1])
  {
    hide ParseInt, StatesOf;
    assert |xs| == |xs[1..]| + 1 && |ys| == |ys[1..]| + 1;
    assert forall k :: 0 < k < |xs| ==> xs[k] == xs[1..][k - 1] && ys[k] == ys[1..][k - 1];
    if |xs| >= 2 {
      assert xs[2..] == xs[1..][1..] && ys[2..] == ys[1..][1..];
    }
  }

  /** The nearest 32-bit integer. */
  function Nearest32(v: int): int {
    if v > 2_147_483_647 then 2_147_483_647 else if v < -2_147_483_648 then -2_147_483_648 else v
  }

  /** Numbers may carry a sign, and ones out of range become the nearest in range. */
  lemma SignedNumbers(n: int)
    requires n >= 0
    ensures ParseInt(Decimal(n)) == ParseInt("+" + Decimal(n)) == Some(Nearest32(n))
    ensures ParseInt("-" + Decimal(n)) == Some(Nearest32(-n))
  {
    hide NumberOf, Decimal;
    DecimalRoundTrip(n);
    var s := Decimal(n);
    assert s[0] != '-' && s[0] != '+' && AllDigits(s);
    assert ("+" + s)[1..] == s && ("-" + s)[1..] == s;
  }

  /** Anything but digits after the sign is not a number. */
  lemma NotNumbers(t: string, k: nat)
    requires k < |t| && !('0' <= t[k] <= '9') && (k == 0 ==> t[0] != '-' && t[0] != '+')
    ensures ParseInt(t).None?
  {
    hide NumberOf;
    assert k > 0 ==> t[1..][k - 1] == t[k];
  }

  // ----- the round trip ---------------------------------------------------------------------

  lemma DecimalIsWord(n: nat)
    ensures IsWord(Decimal(n))
  {
  }

  lemma WordsAreWords(c: Command)
    requires Sendable(c)
    ensures |WordsFor(c)| <= 66 && forall k :: 0 <= k < |WordsFor(c)| ==> IsWord(WordsFor(c)[k])
  {
    hide Decimal;
    var ws := WordsFor(c);
    match c {
      case C(states) =>
        forall k | 0 <= k < |ws| ensures IsWord(ws[k]) {
          DecimalIsWord(if k < 2 then |states| else states[k - 2]);
        }
      case E(states) =>
        forall k | 0 <= k < |ws| ensures IsWord(ws[k]) {
          DecimalIsWord(if k < 2 then |states| else states[k - 2]);
        }
      case F(us) =>
        DecimalIsWord(us);
      case _ =>
    }
  }

  lemma {:induction false} StatesRoundTrip(states: seq<int>)
    requires forall k :: 0 <= k < |states| ==> 0 <= states[k] <= 15
    ensures StatesOf(StateWords(states)) == Some(states)
  {
    hide ParseInt, Decimal;
    if states == [] {
    } else {
      ParseDecimal(states[0]);
      StatesRoundTrip(states[1..]);
      assert StateWords(states)[1..] == StateWords(states[1..]);
      assert [states[0]] + states[1..] == states;
    }
  }

  lemma CycleRoundTrip(verb: string, states: seq<int>)
    requires ValidCycle(states)
    ensures CycleOf([verb, Decimal(|states|)] + StateWords(states)) == Some(states)
  {
    hide Decimal, ParseInt, StatesOf;
    var toks := [verb, Decimal(|states|)] + StateWords(states);
    ParseDecimal(|states|);
    assert toks[2..] == StateWords(states);
    StatesRoundTrip(states);
  }

  lemma BitsRoundTrip(on: bool)
    ensures ParseInt(BitWord(on)).Some? && forall low :: On(ParseInt(BitWord(on)).value, low) == on
  {
    assert NumberOf("1"[..0]) == 0 && NumberOf("0"[..0]) == 0;
    assert BitWord(on) == Decimal(if on then 1 else 0);
    ParseDecimal(if on then 1 else 0);
  }

  lemma ParsesBack(c: Command)
    requires Sendable(c)
    ensures Parsed(WordsFor(c)) == Some(c)
  {
    hide Decimal, ParseInt, CycleOf, On, BitWord;
    match c {
      case S(p) => BitsRoundTrip(p.p1); BitsRoundTrip(p.p2); BitsRoundTrip(p.n1); BitsRoundTrip(p.n2);
      case Y(p) => BitsRoundTrip(p.p1); BitsRoundTrip(p.p2); BitsRoundTrip(p.n1); BitsRoundTrip(p.n2);
      case C(states) => CycleRoundTrip("C", states);
      case E(states) => CycleRoundTrip("E", states);
      case F(us) => ParseDecimal(us);
      case _ =>
    }
  }

  lemma {:induction false} JoinedIsPlain(ws: seq<string>, m: nat)
    requires forall k :: 0 <= k < |ws| ==> IsWord(ws[k]) && |ws[k]| <= m
    ensures UsbCdc.Plain(Joined(ws)) && NUL !in Joined(ws)
    ensures |Joined(ws)| <= (m + 1) * |ws|
    ensures ws != [] ==> Joined(ws) != ""
  {
    if |ws| == 1 {
      assert (m + 1) * |ws| == m + 1;
    } else if |ws| > 1 {
      JoinedIsPlain(ws[1..], m);
      assert (m + 1) * |ws| == (m + 1) * |ws[1..]| + (m + 1);
    }
  }

  function Power10(k: nat): nat {
    if k == 0 then 1 else 10 * Power10(k - 1)
  }

  lemma {:induction false} DecimalLength(n: nat, k: nat)
    requires k > 0 && n < Power10(k)
    ensures |Decimal(n)| <= k
  {
    if k == 1 || n < 10 {
    } else {
      DecimalLength(n / 10, k - 1);
    }
  }

  /** The longest word of a command's line. */
  function Longest(c: Command): nat {
    if c.F? then 10 else 2
  }

  lemma WordsAreShort(c: Command)
    requires Sendable(c)
    ensures forall k :: 0 <= k < |WordsFor(c)| ==> |WordsFor(c)[k]| <= Longest(c)
  {
    if c.F? {
      assert Power10(10) == 10_000_000_000;
      DecimalLength(c.periodUs, 10);
    }
    hide Decimal;
  }

  /** Every line the driver writes fits the firmware's line buffer and token array, and has no byte
      that the framing treats specially. */
  lemma LineFits(c: Command)
    requires Sendable(c)
    ensures 0 < |LineFor(c)| <= UsbCdc.LINE_BUF_CAP - 1 && |WordsFor(c)| <= MAX_TOKENS
    ensures UsbCdc.Plain(LineFor(c)) && NUL !in LineFor(c)
    ensures UsbCdc.Kept(LineFor(c)) == [LineFor(c)]
  {
    hide WordsFor, Joined, IsWord, UsbCdc.Plain;
    WordsAreWords(c);
    WordsAreShort(c);
    JoinedIsPlain(WordsFor(c), Longest(c));
    WordsForSize(c);
    assert |LineFor(c)| <= (Longest(c) + 1) * |WordsFor(c)|;
  }

  lemma WordsForSize(c: Command)
    requires Sendable(c)
    ensures 0 < |WordsFor(c)| <= 66 && (c.F? ==> |WordsFor(c)| == 2)
  {
  }

  lemma {:induction false} WholeCString(s: string)
    requires NUL !in s
    ensures CString(s) == s
  {
    if s == "" {
    } else {
      assert s[0] in s && forall c :: c in s[1..] ==> c in s;
      WholeCString(s[1..]);
    }
  }

  /** Every command the driver can send is read back from its line as that command. */
  lemma CommandRoundTrip(c: Command)
    requires Sendable(c)
    ensures CommandOf(LineFor(c)) == Some(c)
  {
    hide Parsed, WordsFor, Words, Joined, UsbCdc.Plain, CString, UsbCdc.Kept;
    LineFits(c);
    WholeCString(LineFor(c));
    WordsAreWords(c);
    WordsOfJoined(WordsFor(c));
    ParsesBack(c);
  }

  // ----- end to end -------------------------------------------------------------------------

  /** The bytes the driver writes for a list of commands. */
  function Stream(cs: seq<Command>): string
    requires forall k :: 0 <= k < |cs| ==> Sendable(cs[k])
  {
    if cs == [] then "" else LineFor(cs[0]) + "\n" + Stream(cs[1..])
  }

  function CommandsOf(lines: seq<string>): seq<Command> {
    if lines == [] then [] else Heard(lines[0]) + CommandsOf(lines[1..])
  }

  function Heard(line: string): seq<Command> {
    var c := CommandOf(line);
    if c.Some? then [c.value] else []
  }

  lemma {:induction false} StreamRoundTrip(cs: seq<Command>)
    requires forall k :: 0 <= k < |cs| ==> Sendable(cs[k])
    ensures CommandsOf(UsbCdc.LinesFrom("", Stream(cs))) == cs
  {
    hide Sendable, CommandOf, LineFor, UsbCdc.Kept, UsbCdc.Plain;
    if cs == [] {
      assert UsbCdc.LinesFrom("", "") == [];
    } else {
      LineFits(cs[0]);
      var line := LineFor(cs[0]);
      UsbCdc.LineThenRest("", line, Stream(cs[1..]));
      assert "" + line == line;
      StreamRoundTrip(cs[1..]);
      CommandRoundTrip(cs[0]);
      var lines := UsbCdc.LinesFrom("", Stream(cs));
      assert lines == [line] + UsbCdc.LinesFrom("", Stream(cs[1..]));
      assert lines[1..] == UsbCdc.LinesFrom("", Stream(cs[1..]));
    }
  }

  lemma {:induction false} CommandsAppend(a: seq<string>, b: seq<string>)
    ensures CommandsOf(a + b) == CommandsOf(a) + CommandsOf(b)
  {
    hide Heard;
    if a == [] {
      assert a + b == b;
    } else {
      assert (a + b)[1..] == a[1..] + b && (a + b)[0] == a[0];
      CommandsAppend(a[1..], b);
    }
  }

  lemma {:induction false} NewlineEndsTheLine(partial: string, junk: string)
    ensures UsbCdc.PartialAfter(partial, junk + "\n") == ""
    decreases |junk|
  {
    if junk == "" {
      assert junk + "\n" == "\n" && "\n"[1..] == "";
    } else {
      assert (junk + "\n")[1..] == junk[1..] + "\n";
      if junk[0] == '\r' {
        NewlineEndsTheLine(partial, junk[1..]);
      } else if junk[0] == '\n' {
        NewlineEndsTheLine("", junk[1..]);
      } else {
        NewlineEndsTheLine(partial + [junk[0]], junk[1..]);
      }
    }
  }

  /** Whatever came before the last newline, even an overlong line, the commands sent after it are all
      received, once and in order, however the bytes are split between polls. */
  lemma CommandsArrive(junk: string, cs: seq<Command>, es: seq<UsbCdc.Event>)
    requires forall k :: 0 <= k < |cs| ==> Sendable(cs[k])
    requires UsbCdc.Arrived(es) == junk + "\n" + Stream(cs)
    requires UsbCdc.AfterAll(UsbCdc.IDLE_PORT, es).fifo == ""
    ensures CommandsOf(UsbCdc.AfterAll(UsbCdc.IDLE_PORT, es).lines)
         == CommandsOf(UsbCdc.LinesFrom("", junk + "\n")) + cs
  {
    hide Sendable, UsbCdc.AfterAll, UsbCdc.Arrived, UsbCdc.LinesFrom, CommandsOf, Stream;
    UsbCdc.ChunkingDoesNotMatter(es);
    UsbCdc.LinesAppend("", junk + "\n", Stream(cs));
    NewlineEndsTheLine("", junk);
    CommandsAppend(UsbCdc.LinesFrom("", junk + "\n"), UsbCdc.LinesFrom("", Stream(cs)));
    StreamRoundTrip(cs);
  }

  // ----- tokenizing in place ----------------------------------------------------------------

  /** A token: where it starts in the buffer, and its length. */
  datatype Token = Token(p: nat, len: nat)

  /** The token still reads, as a C string, as the word. */
  ghost predicate Reads(buf: array<char>, t: Token, word: string)
    reads buf
  {
    && t.len == |word| && t.p + t.len < buf.Length
    && (forall j :: 0 <= j < |word| ==> buf[t.p + j] == word[j])
    && buf[t.p + t.len] == NUL
  }

  lemma SkipSpace(s: string)
    requires s != "" && IsSpace(s[0])
    ensures Words(s) == Words(s[1..])
  {
  }

  lemma NextWord(s: string, k: nat)
    requires s != "" && !IsSpace(s[0]) && k <= |s|
    requires (forall j :: 0 <= j < k ==> !IsSpace(s[j])) && (k < |s| ==> IsSpace(s[k]))
    ensures Words(s) == [s[..k]] + Words(s[k..])
    ensures k < |s| ==> Words(s[k..]) == Words(s[k + 1..])
  {
    var w := WordLength(s);
    assert w == k;
    if k < |s| {
      SkipSpace(s[k..]);
      assert s[k..][1..] == s[k + 1..];
    }
  }

  lemma WordAt(text: string, p: nat, e: nat)
    requires p < |text| && p <= e <= |text| && !IsSpace(text[p])
    requires (forall j :: p <= j < e ==> !IsSpace(text[j])) && (e < |text| ==> IsSpace(text[e]))
    ensures Words(text[p..]) == [text[p..e]] + Words(text[e..])
    ensures e < |text| ==> Words(text[e..]) == Words(text[e + 1..])
  {
    hide Words;
    var s, k := text[p..], e - p;
    NextWord(s, k);
    assert s[..k] == text[p..e] && s[k..] == text[e..];
    if e < |text| {
      assert s[k + 1..] == text[e + 1..];
    }
  }

  /** From position s on the buffer still holds the text and its terminator. */
  ghost predicate Unread(buf: array<char>, text: string, s: nat)
    reads buf
  {
    && s <= |text| < buf.Length && buf[|text|] == NUL
    && forall j :: s <= j < |text| ==> buf[j] == text[j] && text[j] != NUL
  }

  lemma NothingLeft(text: string, s: nat)
    requires s == |text|
    ensures Words(text[s..]) == []
  {
    assert text[s..] == "";
  }

  lemma SpaceAt(text: string, s: nat)
    requires s < |text| && IsSpace(text[s])
    ensures Words(text[s..]) == Words(text[s + 1..])
  {
    assert text[s..][1..] == text[s + 1..];
    SkipSpace(text[s..]);
  }

  /** One word: skip the spaces before it, and write a NUL over the space after it. */
  method NextToken(buf: array<char>, start: nat, ghost text: string) returns (t: Option<Token>, s: nat)
    requires Unread(buf, text, start)
    modifies buf
    ensures Unread(buf, text, s) && start <= s
    ensures forall j :: 0 <= j < start ==> buf[j] == old(buf[j])
    ensures t.None? ==> Words(text[start..]) == [] && s == |text|
    ensures t.Some? ==>
      && var e := t.value.p + t.value.len;
      && t.value.p < e <= |text| && start <= t.value.p && (e < s || (e == s == |text|))
      && Reads(buf, t.value, text[t.value.p..e])
      && Words(text[start..]) == [text[t.value.p..e]] + Words(text[s..])
  {
    hide Words;
    s := start;
    while buf[s] != NUL && IsSpace(buf[s])
      invariant start <= s && Unread(buf, text, s)
      invariant Words(text[s..]) == Words(text[start..])
      modifies {}
      decreases |text| - s
    {
      SpaceAt(text, s);
      s := s + 1;
    }
    if buf[s] == NUL {
      NothingLeft(text, s);
      return None, s;
    }
    var p := s;
    while buf[s] != NUL && !IsSpace(buf[s])
      invariant p <= s && Unread(buf, text, s)
      invariant forall j :: p <= j < s ==> !IsSpace(text[j]) && buf[j] == text[j]
      modifies {}
      decreases |text| - s
    {
      s := s + 1;
    }
    WordAt(text, p, s);
    t := Some(Token(p, s - p));
    if buf[s] != NUL {
      buf[s] := NUL;
      s := s + 1;
    }
  }

  /** The words of the text in place: at most toks.Length of them, each now a C string of its own. */
  method Tokenize(buf: array<char>, toks: array<Token>, ghost text: string) returns (n: nat)
    requires Unread(buf, text, 0)
    modifies buf, toks
    ensures n == |Firsts(Words(text), toks.Length)|
    ensures forall k :: 0 <= k < n ==> Reads(buf, toks[k], Words(text)[k])
  {
    hide Words, IsSpace;
    n := 0;
    var s := 0;
    assert text[0..] == text;
    while buf[s] != NUL && n < toks.Length
      invariant Unread(buf, text, s) && n <= toks.Length
      invariant n <= |Words(text)| && Words(text)[n..] == Words(text[s..])
      invariant forall k :: 0 <= k < n ==> toks[k].p + toks[k].len < s || toks[k].p + toks[k].len == s == |text|
      invariant forall k :: 0 <= k < n ==> Reads(buf, toks[k], Words(text)[k])
      decreases |text| - s
    {
      var t;
      t, s := NextToken(buf, s, text);
      if t.None? {
        break;
      }
      toks[n] := t.value;
      n := n + 1;
    }
    if n < toks.Length {
      NothingLeft(text, s);
    }
  }

  function Prefixed(states: seq<int>, rest: Option<seq<int>>): Option<seq<int>> {
    if rest.None? then None else Some(states + rest.value)
  }

  lemma StatesStep(states: seq<int>, ws: seq<string>, i: nat)
    requires i < |ws|
    ensures var v := ParseInt(ws[i]);
      Prefixed(states, StatesOf(ws[i..]))
      == if v.None? || !IsState(v.value) then None else Prefixed(states + [v.value], StatesOf(ws[i + 1..]))
  {
    assert ws[i..][0] == ws[i] && ws[i..][1..] == ws[i + 1..];
    var v, rest := ParseInt(ws[i]), StatesOf(ws[i + 1..]);
    if v.Some? && rest.Some? {
      assert states + ([v.value] + rest.value) == states + [v.value] + rest.value;
    }
  }

  lemma NoStatesLeft(states: seq<int>)
    ensures Prefixed(states, StatesOf([])) == Some(states)
  {
    assert states + [] == states;
  }

  /** The state list of a C or E line, read one token at a time. */
  method ReadCycle(toks: seq<string>) returns (r: Option<seq<int>>)
    ensures r == CycleOf(toks)
  {
    hide ParseInt, StatesOf;
    if |toks| < 2 {
      return None;
    }
    var n := ParseInt(toks[1]);
    if n.None? || n.value < 1 || n.value > CYCLE_MAX_STATES || |toks| != 2 + n.value {
      return None;
    }
    var states: seq<int> := [];
    ghost var ws := toks[2..];
    assert ws[0..] == ws && forall a: seq<int> :: [] + a == a;
    for i := 0 to n.value
      invariant |states| == i && forall k :: 0 <= k < i ==> IsState(states[k])
      invariant StatesOf(ws) == Prefixed(states, StatesOf(ws[i..]))
    {
      var v := ParseInt(toks[2 + i]);
      StatesStep(states, ws, i);
      if v.None? || v.value < 0 || v.value > 15 {
        return None;
      }
      states := states + [v.value];
    }
    assert ws[n.value..] == [];
    NoStatesLeft(states);
    return Some(states);
  }

  const SCRATCH_CAP: nat := 512

  /** The tokens' texts, which the command functions read. */
  method TextsOf(buf: array<char>, toks: array<Token>, n: nat, ghost words: seq<string>) returns (texts: seq<string>)
    requires n <= toks.Length && n <= |words|
    requires forall k :: 0 <= k < n ==> Reads(buf, toks[k], words[k])
    ensures texts == words[..n]
  {
    texts := [];
    for k := 0 to n
      invariant texts == words[..k]
    {
      var t := toks[k];
      assert Reads(buf, t, words[k]) && buf[t.p..t.p + t.len] == words[k];
      texts := texts + [buf[t.p..t.p + t.len]];
    }
  }

  /** A line that fits, copied to a scratch buffer and cut into its words there. */
  method SplitLine(line: string) returns (words: seq<string>)
    requires |line| < SCRATCH_CAP
    ensures words == Firsts(Words(CString(line)), MAX_TOKENS)
  {
    hide Words, IsSpace;
    var scratch := new char[SCRATCH_CAP];
    forall k | 0 <= k < |line| {
      scratch[k] := line[k];
    }
    scratch[|line|] := NUL;
    ghost var text := CString(line);
    assert Unread(scratch, text, 0) by {
      assert forall j :: 0 <= j < |text| ==> text[j] == line[j] && text[j] in text;
    }
    var toks := new Token[MAX_TOKENS](_ => Token(0, 0));
    var n := Tokenize(scratch, toks, text);
    words := TextsOf(scratch, toks, n, Words(text));
  }

  /** A received line, cut if the scratch buffer cannot hold it, gives the command it spells. */
  method HandleLine(received: string) returns (c: Option<Command>)
    ensures c == CommandOf(Firsts(received, 511))
    ensures c == Parsed(Firsts(Words(CString(Firsts(received, 511))), 70))
  {
    hide Words, CString, Parsed;
    var words := SplitLine(Firsts(received, SCRATCH_CAP - 1));
    c := Parsed(words);
  }
}
