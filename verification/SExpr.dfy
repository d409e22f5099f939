/** gen_schematic.py: finding the end of a parenthesised block in KiCad text. */
module SExpr {
  import opened Options

  const QUOTE: char := '"'
  const BACKSLASH: char := '\\'

  // ----- printed expressions ----------------------------------------------------------------

  /** One element of a quoted string's text: a character as it is, or any character behind a backslash. */
  datatype Piece = Char(c: char) | Escaped(c: char)

  /** An expression as it stands in the text. Layout and bare words are Plain. */
  datatype Expr = Plain(text: string) | Quoted(pieces: seq<Piece>) | List(items: seq<Expr>)

  predicate IsPlain(c: char) {
    c != QUOTE && c != '(' && c != ')'
  }

  predicate WellFormed(e: Expr) {
    match e
    case Plain(text) => forall k :: 0 <= k < |text| ==> IsPlain(text[k])
    case Quoted(ps) => forall k :: 0 <= k < |ps| ==> ps[k].Char? ==> ps[k].c != QUOTE && ps[k].c != BACKSLASH
    case List(items) => forall k :: 0 <= k < |items| ==> WellFormed(items[k])
  }

  function PrintPiece(p: Piece): string {
    if p.Char? then [p.c] else [BACKSLASH, p.c]
  }

  function PrintPieces(ps: seq<Piece>): string {
    if ps == [] then "" else PrintPiece(ps[0]) + PrintPieces(ps[1..])
  }

  function Print(e: Expr): string {
    match e
    case Plain(text) => text
    case Quoted(ps) => [QUOTE] + PrintPieces(ps) + [QUOTE]
    case List(items) => "(" + PrintAll(items) + ")"
  }

  function PrintAll(es: seq<Expr>): string {
    if es == [] then "" else Print(es[0]) + PrintAll(es[1..])
  }

  // ----- the search, from the rest of the text ----------------------------------------------

  function Further(n: nat, r: Option<nat>): Option<nat> {
    if r.None? then None else Some(r.value + n)
  }

  /** How far into the rest of the text the parenthesis that brings the depth to zero is. */
  function Find(rest: string, depth: int, inStr: bool): (r: Option<nat>)
    ensures r.Some? ==> r.value < |rest| && rest[r.value] == ')'
    decreases |rest|
  {
    if rest == "" then None
    else if inStr then
      if rest[0] == BACKSLASH then (if |rest| < 2 then None else Further(2, Find(rest[2..], depth, true)))
      else Further(1, Find(rest[1..], depth, rest[0] != QUOTE))
    else if rest[0] == QUOTE then Further(1, Find(rest[1..], depth, true))
    else if rest[0] == '(' then Further(1, Find(rest[1..], depth + 1, false))
    else if rest[0] == ')' then (if depth == 1 then Some(0) else Further(1, Find(rest[1..], depth - 1, false)))
    else Further(1, Find(rest[1..], depth, false))
  }

  // ----- printed text is found ---------------------------------------------------------------

  lemma {:induction false} FindPlain(text: string, rest: string, depth: int)
    requires forall k :: 0 <= k < |text| ==> IsPlain(text[k])
    ensures Find(text + rest, depth, false) == Further(|text|, Find(rest, depth, false))
  {
    if text == "" {
      assert text + rest == rest;
    } else {
      assert (text + rest)[1..] == text[1..] + rest;
      FindPlain(text[1..], rest, depth);
    }
  }

  lemma QuoteCloses(rest: string, depth: int)
    ensures Find([QUOTE] + rest, depth, true) == Further(1, Find(rest, depth, false))
  {
    assert ([QUOTE] + rest)[1..] == rest;
  }

  lemma PiecePasses(p: Piece, rest: string, depth: int)
    requires p.Char? ==> p.c != QUOTE && p.c != BACKSLASH
    ensures Find(PrintPiece(p) + rest, depth, true) == Further(|PrintPiece(p)|, Find(rest, depth, true))
  {
    assert (PrintPiece(p) + rest)[|PrintPiece(p)|..] == rest;
  }

  lemma {:induction false} FindPieces(ps: seq<Piece>, rest: string, depth: int)
    requires WellFormed(Quoted(ps))
    ensures Find(PrintPieces(ps) + ([QUOTE] + rest), depth, true)
         == Further(|PrintPieces(ps)| + 1, Find(rest, depth, false))
  {
    hide Find, PrintPiece;
    QuoteCloses(rest, depth);
    if ps == [] {
      assert PrintPieces(ps) + ([QUOTE] + rest) == [QUOTE] + rest;
    } else {
      FindPieces(ps[1..], rest, depth);
      var tail := PrintPieces(ps[1..]) + ([QUOTE] + rest);
      assert PrintPieces(ps) + ([QUOTE] + rest) == PrintPiece(ps[0]) + tail;
      PiecePasses(ps[0], tail, depth);
    }
  }

  lemma {:induction false} FindItem(e: Expr, rest: string, depth: nat)
    requires WellFormed(e) && depth >= 1
    ensures Find(Print(e) + rest, depth, false) == Further(|Print(e)|, Find(rest, depth, false))
    decreases e, 1, 0
  {
    match e
    case Plain(text) => FindPlain(text, rest, depth);
    case Quoted(ps) =>
      FindPieces(ps, rest, depth);
      var s := Print(e) + rest;
      assert s[0] == QUOTE && s[1..] == PrintPieces(ps) + ([QUOTE] + rest);
    case List(items) =>
      FindItems(items, ")" + rest, depth + 1, e);
      FindAround(items, rest, depth);
  }

  lemma FindAround(items: seq<Expr>, rest: string, depth: nat)
    requires depth >= 1
    requires Find(PrintAll(items) + (")" + rest), depth + 1, false)
      == Further(|PrintAll(items)|, Find(")" + rest, depth + 1, false))
    ensures Find(Print(List(items)) + rest, depth, false) == Further(|Print(List(items))|, Find(rest, depth, false))
  {
    hide PrintAll;
    var s := Print(List(items)) + rest;
    assert s[0] == '(' && s[1..] == PrintAll(items) + (")" + rest);
    assert (")" + rest)[0] == ')' && (")" + rest)[1..] == rest;
  }

  lemma {:induction false} FindItems(es: seq<Expr>, rest: string, depth: nat, whole: Expr)
    requires (forall k :: 0 <= k < |es| ==> WellFormed(es[k])) && depth >= 1
    requires forall k :: 0 <= k < |es| ==> es[k] < whole
    ensures Find(PrintAll(es) + rest, depth, false) == Further(|PrintAll(es)|, Find(rest, depth, false))
    decreases whole, 0, |es|
  {
    if es == [] {
      assert PrintAll(es) + rest == rest;
    } else {
      assert PrintAll(es) + rest == Print(es[0]) + (PrintAll(es[1..]) + rest);
      FindItem(es[0], PrintAll(es[1..]) + rest, depth);
      FindItems(es[1..], rest, depth, whole);
    }
  }

  /** In any surroundings, the search from a printed list's opening parenthesis ends at its closing one. */
  lemma FindsTheList(prefix: string, e: Expr, suffix: string)
    requires e.List? && WellFormed(e)
    ensures var text := prefix + Print(e) + suffix;
      Find(text[|prefix|..], 0, false) == Some(|Print(e)| - 1)
  {
    var text := prefix + Print(e) + suffix;
    var rest := ")" + suffix;
    FindItems(e.items, rest, 1, e);
    assert text[|prefix|..] == "(" + (PrintAll(e.items) + rest);
    assert ("(" + (PrintAll(e.items) + rest))[1..] == PrintAll(e.items) + rest;
    assert rest[0] == ')';
  }

  // ----- what is found is a printed list ------------------------------------------------------

  /** The rest of some open lists: the items still to come of each, innermost first, each closed. */
  function Closed(stack: seq<seq<Expr>>): string {
    if stack == [] then "" else PrintAll(stack[0]) + ")" + Closed(stack[1..])
  }

  predicate AllWellFormed(es: seq<Expr>) {
    forall k :: 0 <= k < |es| ==> WellFormed(es[k])
  }

  predicate StackWellFormed(stack: seq<seq<Expr>>) {
    forall k :: 0 <= k < |stack| ==> AllWellFormed(stack[k])
  }

  lemma ClosedPush(e: Expr, stack: seq<seq<Expr>>)
    requires stack != []
    ensures Closed([[e] + stack[0]] + stack[1..]) == Print(e) + Closed(stack)
  {
    var items := [e] + stack[0];
    assert items[1..] == stack[0] && ([items] + stack[1..])[1..] == stack[1..];
    assert Print(e) + (PrintAll(stack[0]) + ")" + Closed(stack[1..]))
        == Print(e) + PrintAll(stack[0]) + ")" + Closed(stack[1..]);
  }

  lemma ClosedNow(stack: seq<seq<Expr>>)
    ensures Closed([[]] + stack) == ")" + Closed(stack)
  {
    assert ([[]] + stack)[1..] == stack;
  }

  lemma ClosedIs(stack: seq<seq<Expr>>)
    requires stack != []
    ensures Closed(stack) == PrintAll(stack[0]) + ")" + Closed(stack[1..])
  {
  }

  lemma PrintListThen(items: seq<Expr>, rest: string)
    ensures Print(List(items)) + rest == "(" + (PrintAll(items) + ")" + rest)
  {
    hide PrintAll;
    assert "(" + PrintAll(items) + ")" + rest == "(" + (PrintAll(items) + ")" + rest);
  }

  lemma ClosedList(stack: seq<seq<Expr>>)
    requires |stack| >= 2
    ensures Closed([[List(stack[0])] + stack[1]] + stack[2..]) == "(" + Closed(stack)
  {
    hide Closed, Print, PrintAll;
    ClosedPush(List(stack[0]), stack[1..]);
    assert stack[1..][1..] == stack[2..] && stack[1..][0] == stack[1];
    ClosedIs(stack);
    PrintListThen(stack[0], Closed(stack[1..]));
  }

  lemma ClosedQuoted(ps: seq<Piece>, stack: seq<seq<Expr>>)
    requires stack != []
    ensures Closed([[Quoted(ps)] + stack[0]] + stack[1..]) == [QUOTE] + (PrintPieces(ps) + [QUOTE] + Closed(stack))
  {
    ClosedPush(Quoted(ps), stack);
  }

  lemma ClosedPlain(c: char, stack: seq<seq<Expr>>)
    requires stack != []
    ensures Closed([[Plain([c])] + stack[0]] + stack[1..]) == [c] + Closed(stack)
  {
    ClosedPush(Plain([c]), stack);
  }

  lemma FirstThen(rest: string, k: nat)
    requires k < |rest|
    ensures rest[..k + 1] == [rest[0]] + rest[1..][..k]
  {
  }

  lemma PushWellFormed(e: Expr, stack: seq<seq<Expr>>)
    requires WellFormed(e) && stack != [] && StackWellFormed(stack)
    ensures StackWellFormed([[e] + stack[0]] + stack[1..])
  {
    hide WellFormed;
    assert AllWellFormed(stack[0]);
  }

  lemma ListWellFormed(items: seq<Expr>)
    requires AllWellFormed(items)
    ensures WellFormed(List(items))
  {
  }

  lemma PieceWellFormed(p: Piece, ps: seq<Piece>)
    requires WellFormed(Quoted(ps)) && (p.Char? ==> p.c != QUOTE && p.c != BACKSLASH)
    ensures WellFormed(Quoted([p] + ps))
    ensures PrintPieces([p] + ps) == PrintPiece(p) + PrintPieces(ps)
  {
    assert ([p] + ps)[1..] == ps;
  }

  lemma {:induction false} FoundIsClosed(rest: string, depth: nat) returns (stack: seq<seq<Expr>>)
    requires depth >= 1 && Find(rest, depth, false).Some?
    ensures |stack| == depth && StackWellFormed(stack)
    ensures rest[..Find(rest, depth, false).value + 1] == Closed(stack)
    decreases |rest|
  {
    hide Closed, WellFormed, AllWellFormed;
    var k := Find(rest, depth, false).value;
    FirstThen(rest, k);
    if rest[0] == ')' {
      NothingWellFormed();
      if depth == 1 {
        stack := [[]] + [];
        ClosedNow([]);
        ClosedNothing();
      } else {
        var outer := FoundIsClosed(rest[1..], depth - 1);
        stack := [[]] + outer;
        ClosedNow(outer);
      }
    } else if rest[0] == '(' {
      var inner := FoundIsClosed(rest[1..], depth + 1);
      ListWellFormed(inner[0]);
      PushWellFormed(List(inner[0]), inner[1..]);
      ClosedList(inner);
      stack := [[List(inner[0])] + inner[1]] + inner[2..];
      assert inner[1..][1..] == inner[2..];
    } else if rest[0] == QUOTE {
      var ps, inner := FoundInString(rest[1..], depth);
      PushWellFormed(Quoted(ps), inner);
      ClosedQuoted(ps, inner);
      stack := [[Quoted(ps)] + inner[0]] + inner[1..];
    } else {
      var inner := FoundIsClosed(rest[1..], depth);
      PlainWellFormed(rest[0]);
      PushWellFormed(Plain([rest[0]]), inner);
      ClosedPlain(rest[0], inner);
      stack := [[Plain([rest[0]])] + inner[0]] + inner[1..];
    }
  }

  lemma ClosedNothing()
    ensures Closed([]) == ""
  {
  }

  lemma NothingWellFormed()
    ensures AllWellFormed([]) && WellFormed(Quoted([])) && PrintPieces([]) == ""
  {
  }

  lemma PlainWellFormed(c: char)
    requires IsPlain(c)
    ensures WellFormed(Plain([c]))
  {
  }

  lemma {:induction false} FoundInString(rest: string, depth: nat) returns (ps: seq<Piece>, stack: seq<seq<Expr>>)
    requires depth >= 1 && Find(rest, depth, true).Some?
    ensures |stack| == depth && StackWellFormed(stack) && WellFormed(Quoted(ps))
    ensures rest[..Find(rest, depth, true).value + 1] == PrintPieces(ps) + [QUOTE] + Closed(stack)
    decreases |rest|
  {
    hide Closed, WellFormed, StackWellFormed, PrintPieces;
    var k := Find(rest, depth, true).value;
    FirstThen(rest, k);
    if rest[0] == QUOTE {
      stack := FoundIsClosed(rest[1..], depth);
      ps := [];
      NothingWellFormed();
    } else if rest[0] == BACKSLASH {
      FirstThen(rest[1..], k - 1);
      var more;
      more, stack := FoundInString(rest[2..], depth);
      assert rest[1..][1..] == rest[2..];
      ps := [Escaped(rest[1])] + more;
      PieceWellFormed(Escaped(rest[1]), more);
    } else {
      var more;
      more, stack := FoundInString(rest[1..], depth);
      ps := [Char(rest[0])] + more;
      PieceWellFormed(Char(rest[0]), more);
    }
  }

  /** The text up to k is a printed list. */
  ghost predicate PrintsList(rest: string, k: nat) {
    k < |rest| && exists e: Expr :: e.List? && WellFormed(e) && Print(e) == rest[..k + 1]
  }

  lemma FoundPrints(rest: string, k: nat)
    requires rest != "" && rest[0] == '(' && Find(rest, 0, false) == Some(k)
    ensures PrintsList(rest, k)
  {
    var stack := FoundIsClosed(rest[1..], 1);
    hide Find, WellFormed;
    var e := List(stack[0]);
    FirstThen(rest, k);
    assert AllWellFormed(stack[0]);
    ListWellFormed(stack[0]);
    assert stack[1..] == [] && Closed(stack) == PrintAll(stack[0]) + ")";
    assert Print(e) == rest[..k + 1];
  }

  lemma PrintedIsFound(rest: string, k: nat)
    requires PrintsList(rest, k)
    ensures Find(rest, 0, false) == Some(k)
  {
    hide Find, WellFormed, Print;
    var e: Expr :| e.List? && WellFormed(e) && Print(e) == rest[..k + 1];
    FindsTheList("", e, rest[k + 1..]);
    assert "" + Print(e) + rest[k + 1..] == rest;
    assert rest[|""|..] == rest;
  }

  /** From an opening parenthesis, the search ends at k exactly when the text up to k is a printed list. */
  lemma FoundExactly(rest: string, k: nat)
    requires rest != "" && rest[0] == '('
    ensures Find(rest, 0, false) == Some(k) <==> PrintsList(rest, k)
  {
    hide Find, PrintsList;
    if Find(rest, 0, false) == Some(k) {
      FoundPrints(rest, k);
    }
    if PrintsList(rest, k) {
      PrintedIsFound(rest, k);
    }
  }

  // ----- the search over indices ---------------------------------------------------------------

  /** Where the search from index i ends. */
  function From(text: string, i: nat, depth: int, inStr: bool): Option<nat> {
    if i <= |text| then Further(i, Find(text[i..], depth, inStr)) else None
  }

  lemma FromStep(text: string, i: nat, depth: int, inStr: bool)
    requires i < |text|
    ensures From(text, i, depth, inStr) ==
      if inStr && text[i] == BACKSLASH then From(text, i + 2, depth, true)
      else if inStr then From(text, i + 1, depth, text[i] != QUOTE)
      else if text[i] == QUOTE then From(text, i + 1, depth, true)
      else if text[i] == '(' then From(text, i + 1, depth + 1, false)
      else if text[i] == ')' then (if depth == 1 then Some(i) else From(text, i + 1, depth - 1, false))
      else From(text, i + 1, depth, false)
  {
    var rest := text[i..];
    assert rest[0] == text[i] && rest[1..] == text[i + 1..];
    if i + 2 <= |text| {
      assert rest[2..] == text[i + 2..];
    }
  }

  lemma FromEnd(text: string, i: nat, depth: int, inStr: bool)
    requires i >= |text|
    ensures From(text, i, depth, inStr) == None
  {
  }

  /** None stands for the error on text that ends first. */
  method ParenMatch(text: string, start: nat) returns (r: Option<nat>)
    ensures start <= |text| ==> r == Further(start, Find(text[start..], 0, false))
    ensures start > |text| ==> r.None?
  {
    hide From;
    if start > |text| {
      return None;
    }
    var depth := 0;
    var inStr := false;
    var i := start;
    FromIs(text, start);
    while i < |text|
      invariant start <= i && From(text, i, depth, inStr) == From(text, start, 0, false)
      decreases |text| - i
    {
      FromStep(text, i, depth, inStr);
      var c := text[i];
      if inStr {
        if c == BACKSLASH {
          i := i + 2;
          continue;
        }
        if c == QUOTE {
          inStr := false;
        }
      } else {
        if c == QUOTE {
          inStr := true;
        } else if c == '(' {
          depth := depth + 1;
        } else if c == ')' {
          depth := depth - 1;
          if depth == 0 {
            return Some(i);
          }
        }
      }
      i := i + 1;
    }
    FromEnd(text, i, depth, inStr);
    return None;
  }

  lemma FromIs(text: string, i: nat)
    requires i <= |text|
    ensures From(text, i, 0, false) == Further(i, Find(text[i..], 0, false))
  {
  }

  // ----- extracting a symbol --------------------------------------------------------------------

  /** The needle stands at index i of the text. */
  predicate StandsAt(text: string, needle: string, i: nat) {
    i + |needle| <= |text| && text[i..i + |needle|] == needle
  }

  /** Python's find from index `start`: the first place the needle stands, or None. */
  method FirstPlace(text: string, needle: string, start: nat) returns (r: Option<nat>)
    ensures r.Some? ==> r.value >= start && StandsAt(text, needle, r.value)
    ensures r.Some? ==> forall i: nat :: start <= i < r.value ==> !StandsAt(text, needle, i)
    ensures r.None? ==> forall i: nat :: start <= i ==> !StandsAt(text, needle, i)
  {
    var i := start;
    while i + |needle| <= |text|
      invariant start <= i && forall j: nat :: start <= j < i ==> !StandsAt(text, needle, j)
    {
      if text[i..i + |needle|] == needle {
        return Some(i);
      }
      i := i + 1;
    }
    return None;
  }

  datatype Extracted = Found(block: string) | NotFound | Unmatched

  function Needle(name: string): string {
    "(symbol \"" + name + "\""
  }

  /** The block of the first place that opens the named symbol: a printed list starting there. */
  method ExtractSymbol(text: string, name: string) returns (r: Extracted)
    ensures r.NotFound? <==> forall i: nat :: !StandsAt(text, Needle(name), i)
    ensures !r.NotFound? ==> exists i: nat ::
      && StandsAt(text, Needle(name), i)
      && (forall j: nat :: j < i ==> !StandsAt(text, Needle(name), j))
      && (r.Found? ==> |r.block| > 0 && StandsAt(text, r.block, i) && PrintsList(text[i..], |r.block| - 1))
      && (r.Unmatched? ==> forall k: nat :: !PrintsList(text[i..], k))
  {
    hide Find, PrintsList;
    var place := FirstPlace(text, Needle(name), 0);
    if place.None? {
      return NotFound;
    }
    var i := place.value;
    ghost var rest := text[i..];
    assert rest[0] == text[i..i + |Needle(name)|][0] == '(';
    var close := ParenMatch(text, i);
    forall k: nat ensures Find(rest, 0, false) == Some(k) <==> PrintsList(rest, k) {
      FoundExactly(rest, k);
    }
    if close.None? {
      return Unmatched;
    }
    FoundEndsInside(rest);
    r := Found(text[i..close.value + 1]);
  }

  // ----- the pins of a symbol -------------------------------------------------------------------

  const PIN := "(pin "

  /** A block of the text, both ends included. */
  datatype Block = Block(first: nat, last: nat)

  ghost predicate IsPinBlock(text: string, b: Block) {
    b.first <= b.last < |text| && StandsAt(text, PIN, b.first) && PrintsList(text[b.first..], b.last - b.first)
  }

  ghost predicate Inside(blocks: seq<Block>, i: nat) {
    exists k :: 0 <= k < |blocks| && blocks[k].first <= i <= blocks[k].last
  }

  /** The pin blocks of a symbol, whose positions are read one by one: printed lists, in order and apart,
      with every place that opens a pin inside one of them. None if a pin is never closed. */
  method PinBlocks(text: string) returns (r: Option<seq<Block>>)
    ensures r.Some? ==> forall k :: 0 <= k < |r.value| ==> IsPinBlock(text, r.value[k])
    ensures r.Some? ==> forall j, k :: 0 <= j < k < |r.value| ==> r.value[j].last < r.value[k].first
    ensures r.Some? ==> forall i: nat :: StandsAt(text, PIN, i) ==> Inside(r.value, i)
    ensures r.None? ==> exists i: nat :: StandsAt(text, PIN, i) && forall k: nat :: !PrintsList(text[i..], k)
  {
    hide Find, PrintsList, StandsAt, Inside, IsPinBlock;
    var blocks: seq<Block> := [];
    var i := 0;
    while true
      invariant i <= |text|
      invariant forall k :: 0 <= k < |blocks| ==> IsPinBlock(text, blocks[k]) && blocks[k].last < i
      invariant forall j, k :: 0 <= j < k < |blocks| ==> blocks[j].last < blocks[k].first
      invariant forall n: nat :: n < i && StandsAt(text, PIN, n) ==> Inside(blocks, n)
      decreases |text| - i
    {
      var place := FirstPlace(text, PIN, i);
      if place.None? {
        return Some(blocks);
      }
      var j := place.value;
      var end := ParenMatch(text, j);
      PinOpens(text, j);
      MatchedExactly(text, j);
      if end.None? {
        return None;
      }
      var block := Block(j, end.value);
      IsPin(text, block);
      InsideMore(blocks, block);
      blocks := blocks + [block];
      i := end.value + 1;
    }
  }

  lemma PinOpens(text: string, i: nat)
    requires StandsAt(text, PIN, i)
    ensures i < |text| && text[i] == '('
  {
    assert text[i] == text[i..i + |PIN|][0];
  }

  lemma IsPin(text: string, b: Block)
    requires b.first <= b.last < |text| && StandsAt(text, PIN, b.first)
    requires PrintsList(text[b.first..], b.last - b.first)
    ensures IsPinBlock(text, b)
  {
  }

  lemma InsideMore(blocks: seq<Block>, b: Block)
    ensures forall n: nat :: Inside(blocks, n) || b.first <= n <= b.last ==> Inside(blocks + [b], n)
  {
    var more := blocks + [b];
    forall n: nat | Inside(blocks, n) || b.first <= n <= b.last
      ensures Inside(more, n)
    {
      if Inside(blocks, n) {
        var k :| 0 <= k < |blocks| && blocks[k].first <= n <= blocks[k].last;
        assert more[k] == blocks[k];
      } else {
        assert more[|blocks|] == b;
      }
    }
  }

  /** Where the needle of a block stands, its match is exactly the end of the printed list there. */
  lemma MatchedExactly(text: string, i: nat)
    requires i < |text| && text[i] == '('
    ensures var r := Further(i, Find(text[i..], 0, false));
      && (r.Some? ==> i <= r.value < |text| && PrintsList(text[i..], r.value - i))
      && (r.None? ==> forall k: nat :: !PrintsList(text[i..], k))
  {
    var rest := text[i..];
    forall k: nat ensures Find(rest, 0, false) == Some(k) <==> PrintsList(rest, k) {
      FoundExactly(rest, k);
    }
    hide Find, PrintsList;
    FoundEndsInside(rest);
  }

  lemma FoundEndsInside(rest: string)
    ensures Find(rest, 0, false).Some? ==> Find(rest, 0, false).value < |rest|
  {
  }
}
