/** `rebindPostgres`: the placeholders of a query numbered, its literals and comments untouched. */
module Rebind {
  import opened Text

  // ---------------------------------------------------------------- a lexer for queries

  /** A query is a series of code characters, `?` placeholders in code, and stretches of quoted or
      commented text. */
  datatype Token = Code(c: char) | Placeholder | Verbatim(text: string)

  /** Length of the rest of a line comment, its newline included. */
  function LineEnd(q: string): (n: nat)
    ensures n <= |q|
  {
    if q == "" then 0 else if q[0] == '\n' then 1 else 1 + LineEnd(q[1..])
  }

  function BlockEnd(q: string): (n: nat)
    ensures n <= |q|
  {
    if q == "" then 0
    else if q[0] == '*' && |q| > 1 && q[1] == '/' then 2
    else 1 + BlockEnd(q[1..])
  }

  /** A doubled quote does not end the quoted text. */
  function QuoteEnd(q: string, quote: char): (n: nat)
    ensures n <= |q|
  {
    if q == "" then 0
    else if q[0] != quote then 1 + QuoteEnd(q[1..], quote)
    else if |q| > 1 && q[1] == quote then 2 + QuoteEnd(q[2..], quote)
    else 1
  }

  predicate Opens(q: string, c: char, d: char) {
    |q| > 1 && q[0] == c && q[1] == d
  }

  /** Length of the quoted or commented text that starts here; 0 when none does. */
  function VerbatimLength(q: string): (n: nat)
    ensures n <= |q|
  {
    if Opens(q, '-', '-') then 2 + LineEnd(q[2..])
    else if Opens(q, '/', '*') then 2 + BlockEnd(q[2..])
    else if q != "" && (q[0] == '\'' || q[0] == '"') then 1 + QuoteEnd(q[1..], q[0])
    else 0
  }

  function Lex(q: string): seq<Token>
    decreases |q|
  {
    if q == "" then []
    else
      var n := VerbatimLength(q);
      if n > 0 then [Verbatim(q[..n])] + Lex(q[n..])
      else [if q[0] == '?' then Placeholder else Code(q[0])] + Lex(q[1..])
  }

  function Number(arg: nat): string {
    "$" + NatText(arg)
  }

  /** The tokens printed, placeholders numbered from `arg`. */
  function Print(ts: seq<Token>, arg: nat): string {
    if ts == [] then ""
    else
      match ts[0]
      case Code(c) => [c] + Print(ts[1..], arg)
      case Verbatim(text) => text + Print(ts[1..], arg)
      case Placeholder => Number(arg) + Print(ts[1..], arg + 1)
  }

  function Rebound(query: string): string {
    Print(Lex(query), 1)
  }

  // ---------------------------------------------------------------- the byte loop

  datatype Mode = InCode | InLineComment | InBlockComment | InSingle | InDouble

  function ModeOf(inLineComment: bool, inBlockComment: bool, inSingle: bool, inDouble: bool): Mode {
    if inLineComment then InLineComment
    else if inBlockComment then InBlockComment
    else if inSingle then InSingle
    else if inDouble then InDouble
    else InCode
  }

  predicate AtMostOne(inLineComment: bool, inBlockComment: bool, inSingle: bool, inDouble: bool) {
    && (inLineComment ==> !inBlockComment && !inSingle && !inDouble)
    && (inBlockComment ==> !inSingle && !inDouble)
    && (inSingle ==> !inDouble)
  }

  /** How much of `q` still belongs to the text the mode is in. */
  function Held(mode: Mode, q: string): (n: nat)
    ensures n <= |q|
  {
    match mode
    case InCode => 0
    case InLineComment => LineEnd(q)
    case InBlockComment => BlockEnd(q)
    case InSingle => QuoteEnd(q, '\'')
    case InDouble => QuoteEnd(q, '"')
  }

  /** What the rest of the query becomes when it is met in this mode. */
  function Remaining(mode: Mode, q: string, arg: nat): string {
    var n := Held(mode, q);
    q[..n] + Print(Lex(q[n..]), arg)
  }

  lemma Cut(q: string, n: nat, m: nat, rest: string)
    requires n <= m <= |q|
    ensures q[n..][m - n..] == q[m..]
    ensures q[..m] + rest == q[..n] + (q[n..][..m - n] + rest)
  {
    assert q[..m] == q[..n] + q[n..][..m - n];
  }

  lemma RemainingIs(mode: Mode, q: string, n: nat, arg: nat)
    requires Held(mode, q) == n
    ensures Remaining(mode, q, arg) == q[..n] + Print(Lex(q[n..]), arg)
  {
  }

  lemma HoldsOn(q: string, n: nat, m: nat, mode: Mode, arg: nat)
    requires n <= m <= |q| && Held(mode, q[n..]) == m - n
    ensures q[..m] + Print(Lex(q[m..]), arg) == q[..n] + Remaining(mode, q[n..], arg)
  {
    RemainingIs(mode, q[n..], m - n, arg);
    Cut(q, n, m, Print(Lex(q[n..][m - n..]), arg));
  }

  /** Characters of the held text go out as they are. */
  lemma Copies(mode: Mode, q: string, n: nat, after: Mode, arg: nat)
    requires n <= |q| && Held(mode, q) == n + Held(after, q[n..])
    ensures Remaining(mode, q, arg) == q[..n] + Remaining(after, q[n..], arg)
  {
    HoldsOn(q, n, Held(mode, q), after, arg);
  }

  lemma PrintVerbatim(q: string, arg: nat)
    requires VerbatimLength(q) > 0
    ensures Print(Lex(q), arg) == q[..VerbatimLength(q)] + Print(Lex(q[VerbatimLength(q)..]), arg)
  {
    assert Lex(q)[1..] == Lex(q[VerbatimLength(q)..]);
  }

  lemma OpensText(q: string, n: nat, mode: Mode, arg: nat)
    requires 0 < n <= |q| && VerbatimLength(q) == n + Held(mode, q[n..])
    ensures Remaining(InCode, q, arg) == q[..n] + Remaining(mode, q[n..], arg)
  {
    FromCode(q, arg);
    PrintVerbatim(q, arg);
    HoldsOn(q, n, VerbatimLength(q), mode, arg);
  }

  lemma FromCode(q: string, arg: nat)
    ensures Remaining(InCode, q, arg) == Print(Lex(q), arg)
  {
    assert q[..0] == "" && q[0..] == q;
  }

  lemma CodeStep(q: string, arg: nat)
    requires q != "" && VerbatimLength(q) == 0
    ensures Remaining(InCode, q, arg)
      == if q[0] == '?' then Number(arg) + Remaining(InCode, q[1..], arg + 1)
         else [q[0]] + Remaining(InCode, q[1..], arg)
  {
    assert q[0..] == q && q[1..][0..] == q[1..];
    assert Lex(q)[1..] == Lex(q[1..]);
  }

  /** One turn of the loop, seeing `ch` and the character after it (NUL when there is none): does it
      take both, which mode does it leave, and what does it write? */
  predicate TakesTwo(mode: Mode, ch: char, next: char) {
    match mode
    case InCode => (ch == '-' && next == '-') || (ch == '/' && next == '*')
    case InLineComment => false
    case InBlockComment => ch == '*' && next == '/'
    case InSingle => ch == '\'' && next == '\''
    case InDouble => ch == '"' && next == '"'
  }

  function After(mode: Mode, ch: char, next: char): Mode {
    match mode
    case InCode =>
      if ch == '-' && next == '-' then InLineComment
      else if ch == '/' && next == '*' then InBlockComment
      else if ch == '\'' then InSingle
      else if ch == '"' then InDouble
      else InCode
    case InLineComment => if ch == '\n' then InCode else mode
    case InBlockComment => if ch == '*' && next == '/' then InCode else mode
    case InSingle => if ch == '\'' && next != '\'' then InCode else mode
    case InDouble => if ch == '"' && next != '"' then InCode else mode
  }

  function Piece(mode: Mode, ch: char, next: char, arg: nat): string {
    if mode == InCode && ch == '?' then Number(arg) else if TakesTwo(mode, ch, next) then [ch, next] else [ch]
  }

  function NextArg(mode: Mode, ch: char, arg: nat): nat {
    if mode == InCode && ch == '?' then arg + 1 else arg
  }

  function NextChar(q: string): char
    requires q != ""
  {
    if |q| > 1 then q[1] else '\0'
  }

  /** How many characters a turn of the loop takes. */
  function Taken(mode: Mode, q: string): (n: nat)
    requires q != ""
    ensures n <= |q|
  {
    if TakesTwo(mode, q[0], NextChar(q)) && |q| > 1 then 2 else 1
  }

  lemma HeldGoesOn(mode: Mode, q: string)
    requires q != "" && mode != InCode
    ensures Held(mode, q) == Taken(mode, q) + Held(After(mode, q[0], NextChar(q)), q[Taken(mode, q)..])
  {
    match mode
    case InLineComment =>
    case InBlockComment =>
    case InSingle =>
    case InDouble =>
  }

  lemma VerbatimOpens(q: string)
    requires q != "" && VerbatimLength(q) > 0
    ensures VerbatimLength(q) == Taken(InCode, q) + Held(After(InCode, q[0], NextChar(q)), q[Taken(InCode, q)..])
  {
  }

  lemma PieceTaken(mode: Mode, q: string, arg: nat)
    requires q != "" && !(mode == InCode && q[0] == '?')
    ensures Piece(mode, q[0], NextChar(q), arg) == q[..Taken(mode, q)]
  {
  }

  lemma StepGoesOn(mode: Mode, q: string, arg: nat)
    requires q != ""
    ensures var ch, next := q[0], NextChar(q);
      Remaining(mode, q, arg) == Piece(mode, ch, next, arg)
        + Remaining(After(mode, ch, next), q[Taken(mode, q)..], NextArg(mode, ch, arg))
  {
    var after := After(mode, q[0], NextChar(q));
    if mode != InCode {
      HeldGoesOn(mode, q);
      PieceTaken(mode, q, arg);
      Copies(mode, q, Taken(mode, q), after, arg);
    } else if VerbatimLength(q) > 0 {
      VerbatimOpens(q);
      PieceTaken(mode, q, arg);
      OpensText(q, Taken(mode, q), after, arg);
    } else {
      CodeGoesOn(q, arg);
    }
  }

  lemma CodeGoesOn(q: string, arg: nat)
    requires q != "" && VerbatimLength(q) == 0
    ensures var ch, next := q[0], NextChar(q);
      After(InCode, ch, next) == InCode && Taken(InCode, q) == 1
      && Remaining(InCode, q, arg)
        == Piece(InCode, ch, next, arg) + Remaining(InCode, q[1..], NextArg(InCode, ch, arg))
  {
    CodeStep(q, arg);
  }

  /** The character after `query[i]`, NUL at the end. */
  function NextAt(query: string, i: nat): char {
    if i + 1 < |query| then query[i + 1] else '\0'
  }

  /** What the loop still writes from `query[i]` on. */
  function Scan(mode: Mode, query: string, i: nat, arg: nat): string
    requires i <= |query|
    decreases |query| - i
  {
    if i == |query| then ""
    else
      var ch, next := query[i], NextAt(query, i);
      var j := i + if TakesTwo(mode, ch, next) && i + 1 < |query| then 2 else 1;
      Piece(mode, ch, next, arg) + Scan(After(mode, ch, next), query, j, NextArg(mode, ch, arg))
  }

  lemma {:induction false} ScanIsRemaining(mode: Mode, query: string, i: nat, arg: nat)
    requires i <= |query|
    ensures Scan(mode, query, i, arg) == Remaining(mode, query[i..], arg)
    decreases |query| - i
  {
    if i < |query| {
      var q, ch, next := query[i..], query[i], NextAt(query, i);
      var n := Taken(mode, q);
      assert NextChar(q) == next;
      assert q[n..] == query[i + n..];
      StepGoesOn(mode, q, arg);
      ScanIsRemaining(After(mode, ch, next), query, i + n, NextArg(mode, ch, arg));
    }
  }

  lemma Onward(b: string, mode: Mode, query: string, i: nat, arg: nat, whole: string)
    requires i < |query| && b + Scan(mode, query, i, arg) == whole
    ensures var ch, next := query[i], NextAt(query, i);
      var j := i + if TakesTwo(mode, ch, next) then 2 else 1;
      j <= |query|
      && b + Piece(mode, ch, next, arg) + Scan(After(mode, ch, next), query, j, NextArg(mode, ch, arg)) == whole
  {
    var ch, next := query[i], NextAt(query, i);
    if TakesTwo(mode, ch, next) {
      TwoAreThere(mode, query, i);
    }
    var j := i + if TakesTwo(mode, ch, next) then 2 else 1;
    Associative(b, Piece(mode, ch, next, arg), Scan(After(mode, ch, next), query, j, NextArg(mode, ch, arg)));
  }

  lemma TwoAreThere(mode: Mode, query: string, i: nat)
    requires i < |query| && TakesTwo(mode, query[i], NextAt(query, i))
    ensures i + 1 < |query|
  {
  }

  lemma TwoWritten(b: string, c: char, d: char)
    ensures b + [c] + [d] == b + [c, d]
  {
  }

  method RebindPostgres(query: string) returns (b: string)
    ensures b == Rebound(query)
  {
    b := "";
    var arg := 1;
    var inSingle, inDouble, inLineComment, inBlockComment := false, false, false, false;
    var i := 0;
    ghost var whole := Scan(InCode, query, 0, 1);
    while i < |query|
      invariant 0 <= i <= |query| && arg >= 1
      invariant AtMostOne(inLineComment, inBlockComment, inSingle, inDouble)
      invariant b + Scan(ModeOf(inLineComment, inBlockComment, inSingle, inDouble), query, i, arg) == whole
    {
      var ch := query[i];
      var next := if i + 1 < |query| then query[i + 1] else '\0';
      ghost var start, written, number := i, b, arg;
      ghost var mode := ModeOf(inLineComment, inBlockComment, inSingle, inDouble);
      if inLineComment {
        b := b + [ch];
        if ch == '\n' {
          inLineComment := false;
        }
      } else if inBlockComment {
        b := b + [ch];
        if ch == '*' && next == '/' {
          b := b + [next];
          TwoWritten(written, ch, next);
          i := i + 1;
          inBlockComment := false;
        }
      } else if inSingle {
        b := b + [ch];
        if ch == '\'' {
          if next == '\'' {
            b := b + [next];
            TwoWritten(written, ch, next);
            i := i + 1;
          } else {
            inSingle := false;
          }
        }
      } else if inDouble {
        b := b + [ch];
        if ch == '"' {
          if next == '"' {
            b := b + [next];
            TwoWritten(written, ch, next);
            i := i + 1;
          } else {
            inDouble := false;
          }
        }
      } else if ch == '-' && next == '-' {
        b := b + [ch] + [next];
        TwoWritten(written, ch, next);
        i := i + 1;
        inLineComment := true;
      } else if ch == '/' && next == '*' {
        b := b + [ch] + [next];
        TwoWritten(written, ch, next);
        i := i + 1;
        inBlockComment := true;
      } else if ch == '\'' {
        b := b + [ch];
        inSingle := true;
      } else if ch == '"' {
        b := b + [ch];
        inDouble := true;
      } else if ch == '?' {
        b := b + "$" + NatText(arg);
        Associative(written, "$", NatText(arg));
        arg := arg + 1;
      } else {
        b := b + [ch];
      }
      i := i + 1;
      assert i == start + if TakesTwo(mode, ch, next) then 2 else 1;
      assert ModeOf(inLineComment, inBlockComment, inSingle, inDouble) == After(mode, ch, next);
      assert arg == NextArg(mode, ch, number);
      assert b == written + Piece(mode, ch, next, number);
      Onward(written, mode, query, start, number, whole);
    }
    WithNothing(b);
    assert query[0..] == query;
    ScanIsRemaining(InCode, query, 0, 1);
    FromCode(query, 1);
  }

  // ---------------------------------------------------------------- what the numbering keeps

  function Spelled(t: Token): string {
    match t
    case Code(c) => [c]
    case Verbatim(text) => text
    case Placeholder => "?"
  }

  /** The query the tokens were read from. */
  function Erase(ts: seq<Token>): string {
    if ts == [] then "" else Spelled(ts[0]) + Erase(ts[1..])
  }

  /** The first token of a query, and how much of it that is. */
  function FirstToken(q: string): Token
    requires q != ""
  {
    if VerbatimLength(q) > 0 then Verbatim(q[..VerbatimLength(q)]) else if q[0] == '?' then Placeholder else Code(q[0])
  }

  function FirstLength(q: string): (n: nat)
    requires q != ""
    ensures 1 <= n <= |q|
  {
    if VerbatimLength(q) > 0 then VerbatimLength(q) else 1
  }

  lemma LexFirst(q: string)
    requires q != ""
    ensures Lex(q) == [FirstToken(q)] + Lex(q[FirstLength(q)..])
    ensures Spelled(FirstToken(q)) == q[..FirstLength(q)]
  {
  }

  lemma EraseFirst(t: Token, ts: seq<Token>)
    ensures Erase([t] + ts) == Spelled(t) + Erase(ts)
  {
    assert ([t] + ts)[1..] == ts;
  }

  /** The tokens spell the query. */
  lemma {:induction false} LexSpells(q: string)
    ensures Erase(Lex(q)) == q
    decreases |q|
  {
    if q != "" {
      var rest := q[FirstLength(q)..];
      LexFirst(q);
      LexSpells(rest);
      EraseFirst(FirstToken(q), Lex(rest));
    }
  }

  function Placeholders(ts: seq<Token>): nat {
    if ts == [] then 0 else (if ts[0] == Placeholder then 1 else 0) + Placeholders(ts[1..])
  }

  function Printed(t: Token, arg: nat): string {
    if t == Placeholder then Number(arg) else Spelled(t)
  }

  lemma PrintFirst(ts: seq<Token>, arg: nat)
    requires ts != []
    ensures Print(ts, arg) == Printed(ts[0], arg) + Print(ts[1..], if ts[0] == Placeholder then arg + 1 else arg)
  {
  }

  lemma {:induction false} PrintAppend(a: seq<Token>, b: seq<Token>, arg: nat)
    ensures Print(a + b, arg) == Print(a, arg) + Print(b, arg + Placeholders(a))
    decreases |a|
  {
    if a == [] {
      WithNothing(b);
    } else {
      var next := if a[0] == Placeholder then arg + 1 else arg;
      FirstOfJoin(a, b);
      PrintFirst(a, arg);
      PrintFirst(a + b, arg);
      PrintAppend(a[1..], b, next);
      Associative(Printed(a[0], arg), Print(a[1..], next), Print(b, arg + Placeholders(a)));
    }
  }

  lemma PrintPlaceholder(ts: seq<Token>, arg: nat)
    requires ts != [] && ts[0] == Placeholder
    ensures Print(ts, arg) == Number(arg) + Print(ts[1..], arg + 1)
  {
  }

  /** MAIN RESULT. The k-th `?` in code position becomes `$k`, whatever stands around it. */
  lemma NumberedInOrder(query: string, i: nat)
    requires i < |Lex(query)| && Lex(query)[i] == Placeholder
    ensures var ts := Lex(query); var k := Placeholders(ts[..i]) + 1;
      Rebound(query) == Print(ts[..i], 1) + ("$" + NatText(k)) + Print(ts[i + 1..], k + 1)
  {
    var ts := Lex(query);
    assert ts == ts[..i] + ts[i..] && ts[i..][1..] == ts[i + 1..];
    PrintAppend(ts[..i], ts[i..], 1);
    PrintPlaceholder(ts[i..], Placeholders(ts[..i]) + 1);
    Associative(Print(ts[..i], 1), Number(Placeholders(ts[..i]) + 1), Print(ts[i + 1..], Placeholders(ts[..i]) + 2));
  }

  // ---------------------------------------------------------------- twice is once

  function CodeOf(s: string): seq<Token> {
    if s == "" then [] else [Code(s[0])] + CodeOf(s[1..])
  }

  /** The tokens with every placeholder replaced by the characters of its number. */
  function Numbered(ts: seq<Token>, arg: nat): seq<Token> {
    if ts == [] then []
    else if ts[0] == Placeholder then CodeOf(Number(arg)) + Numbered(ts[1..], arg + 1)
    else [ts[0]] + Numbered(ts[1..], arg)
  }

  /** A plain character is neither a placeholder nor the start of anything else. */
  predicate Plain(c: char) {
    c != '-' && c != '/' && c != '\'' && c != '"' && c != '?'
  }

  lemma PlainHead(c: char, rest: string)
    requires Plain(c)
    ensures Lex([c] + rest) == [Code(c)] + Lex(rest)
  {
    assert ([c] + rest)[1..] == rest;
  }

  lemma HeadTail(s: string, rest: string)
    requires s != ""
    ensures s + rest == [s[0]] + (s[1..] + rest)
  {
  }

  lemma {:induction false} LexPlain(s: string, rest: string)
    requires forall i :: 0 <= i < |s| ==> Plain(s[i])
    ensures Lex(s + rest) == CodeOf(s) + Lex(rest)
    decreases |s|
  {
    if s == "" {
      assert s + rest == rest;
      assert CodeOf(s) == [];
    } else {
      LexPlain(s[1..], rest);
      PlainHead(s[0], s[1..] + rest);
      HeadTail(s, rest);
      Associative([Code(s[0])], CodeOf(s[1..]), Lex(rest));
    }
  }

  /** `rest` may follow in place of `tail`: it starts alike, but for a `?`. */
  predicate Follows(rest: string, tail: string) {
    if tail == "" then rest == "" else rest != "" && rest[0] == if tail[0] == '?' then '$' else tail[0]
  }

  lemma PrintFollows(q: string, arg: nat)
    ensures Follows(Print(Lex(q), arg), q)
  {
  }

  lemma Shift(q: string, k: nat, n: nat, rest: string)
    requires k <= n <= |q|
    ensures q[k..][n - k..] == q[n..] && (q[..n] + rest)[k..] == q[k..][..n - k] + rest
  {
  }

  lemma {:induction false} LineEndKept(q: string, rest: string)
    requires Follows(rest, q[LineEnd(q)..])
    ensures LineEnd(q[..LineEnd(q)] + rest) == LineEnd(q)
    decreases |q|
  {
    if q != "" && q[0] != '\n' {
      var n := LineEnd(q);
      Shift(q, 1, n, rest);
      LineEndKept(q[1..], rest);
    }
  }

  lemma {:induction false} BlockEndKept(q: string, rest: string)
    requires Follows(rest, q[BlockEnd(q)..])
    ensures BlockEnd(q[..BlockEnd(q)] + rest) == BlockEnd(q)
    decreases |q|
  {
    if q != "" && !Opens(q, '*', '/') {
      var n := BlockEnd(q);
      Shift(q, 1, n, rest);
      BlockEndKept(q[1..], rest);
    }
  }

  lemma {:induction false} QuoteEndKept(q: string, quote: char, rest: string)
    requires quote != '$' && quote != '?' && Follows(rest, q[QuoteEnd(q, quote)..])
    ensures QuoteEnd(q[..QuoteEnd(q, quote)] + rest, quote) == QuoteEnd(q, quote)
    decreases |q|
  {
    if q != "" {
      var n := QuoteEnd(q, quote);
      if q[0] != quote {
        Shift(q, 1, n, rest);
        QuoteEndKept(q[1..], quote, rest);
      } else if |q| > 1 && q[1] == quote {
        Shift(q, 2, n, rest);
        QuoteEndKept(q[2..], quote, rest);
      }
    }
  }

  /** A verbatim stretch ends where it did. */
  lemma VerbatimKept(q: string, rest: string)
    requires VerbatimLength(q) > 0 && Follows(rest, q[VerbatimLength(q)..])
    ensures VerbatimLength(q[..VerbatimLength(q)] + rest) == VerbatimLength(q)
  {
    var n := VerbatimLength(q);
    if Opens(q, '-', '-') {
      Shift(q, 2, n, rest);
      LineEndKept(q[2..], rest);
    } else if Opens(q, '/', '*') {
      Shift(q, 2, n, rest);
      BlockEndKept(q[2..], rest);
    } else {
      Shift(q, 1, n, rest);
      QuoteEndKept(q[1..], q[0], rest);
    }
  }

  lemma {:induction false} LexOfPrint(q: string, arg: nat)
    ensures Lex(Print(Lex(q), arg)) == Numbered(Lex(q), arg)
    decreases |q|
  {
    if q != "" {
      var n := VerbatimLength(q);
      if n > 0 {
        var rest := Print(Lex(q[n..]), arg);
        assert Lex(q)[1..] == Lex(q[n..]);
        PrintFollows(q[n..], arg);
        VerbatimKept(q, rest);
        LexOfPrint(q[n..], arg);
        assert (q[..n] + rest)[..n] == q[..n] && (q[..n] + rest)[n..] == rest;
      } else if q[0] == '?' {
        assert Lex(q)[1..] == Lex(q[1..]);
        LexOfPrint(q[1..], arg + 1);
        LexPlain(Number(arg), Print(Lex(q[1..]), arg + 1));
      } else {
        var rest := Print(Lex(q[1..]), arg);
        assert Lex(q)[1..] == Lex(q[1..]);
        PrintFollows(q[1..], arg);
        LexOfPrint(q[1..], arg);
        assert ([q[0]] + rest)[1..] == rest;
        assert VerbatimLength([q[0]] + rest) == 0;
      }
    }
  }

  lemma {:induction false} NoneLeft(ts: seq<Token>, arg: nat)
    ensures Placeholders(Numbered(ts, arg)) == 0
    decreases |ts|
  {
    if ts != [] {
      if ts[0] == Placeholder {
        NoneLeft(ts[1..], arg + 1);
        CodeHasNone(Number(arg), Numbered(ts[1..], arg + 1));
      } else {
        NoneLeft(ts[1..], arg);
      }
    }
  }

  lemma {:induction false} CodeHasNone(s: string, ts: seq<Token>)
    ensures Placeholders(CodeOf(s) + ts) == Placeholders(ts)
    decreases |s|
  {
    if s == "" {
      assert CodeOf(s) + ts == ts;
    } else {
      assert (CodeOf(s) + ts)[1..] == CodeOf(s[1..]) + ts;
      CodeHasNone(s[1..], ts);
    }
  }

  lemma {:induction false} NothingToNumber(ts: seq<Token>, arg: nat)
    requires Placeholders(ts) == 0
    ensures Print(ts, arg) == Erase(ts)
    decreases |ts|
  {
    if ts != [] {
      NothingToNumber(ts[1..], arg);
    }
  }

  /** A query without placeholders in code is left alone. */
  lemma NothingToRebind(query: string)
    requires Placeholders(Lex(query)) == 0
    ensures Rebound(query) == query
  {
    NothingToNumber(Lex(query), 1);
    LexSpells(query);
  }

  /** MAIN RESULT. Rebinding a rebound query changes nothing. */
  lemma RebindTwice(query: string)
    ensures Rebound(Rebound(query)) == Rebound(query)
    ensures Placeholders(Lex(Rebound(query))) == 0
  {
    LexOfPrint(query, 1);
    NoneLeft(Lex(query), 1);
    NothingToRebind(Rebound(query));
  }

  // ---------------------------------------------------------------- undoing the numbers

  /** The numbers taken back: in code, the number that is due becomes `?` again. */
  function Unbound(b: string, arg: nat): string
    decreases |b|
  {
    if b == "" then ""
    else
      var n := VerbatimLength(b);
      if n > 0 then b[..n] + Unbound(b[n..], arg)
      else if Number(arg) <= b then "?" + Unbound(b[|Number(arg)|..], arg + 1)
      else [b[0]] + Unbound(b[1..], arg)
  }

  /** Somewhere in code a `$` of the query itself is followed by the number that is due there. */
  predicate NumberedAlready(q: string, arg: nat)
    decreases |q|
  {
    q != "" &&
    var n := VerbatimLength(q);
    if n > 0 then NumberedAlready(q[n..], arg)
    else if q[0] == '?' then NumberedAlready(q[1..], arg + 1)
    else Number(arg) <= q || NumberedAlready(q[1..], arg)
  }

  lemma UnboundVerbatim(q: string, rest: string, arg: nat)
    requires VerbatimLength(q) > 0 && Follows(rest, q[VerbatimLength(q)..])
    ensures Unbound(q[..VerbatimLength(q)] + rest, arg) == q[..VerbatimLength(q)] + Unbound(rest, arg)
  {
    var n := VerbatimLength(q);
    VerbatimKept(q, rest);
    assert (q[..n] + rest)[..n] == q[..n] && (q[..n] + rest)[n..] == rest;
  }

  lemma UnboundNumber(rest: string, arg: nat)
    ensures Unbound(Number(arg) + rest, arg) == "?" + Unbound(rest, arg + 1)
  {
    var b := Number(arg) + rest;
    assert b[0] == '$' && b[|Number(arg)|..] == rest;
  }

  lemma UnboundCode(q: string, rest: string, arg: nat)
    requires q != "" && VerbatimLength(q) == 0 && q[0] != '?' && Follows(rest, q[1..])
    ensures Unbound([q[0]] + rest, arg)
      == if Number(arg) <= [q[0]] + rest then "?" + Unbound(([q[0]] + rest)[|Number(arg)|..], arg + 1)
         else [q[0]] + Unbound(rest, arg)
  {
    assert ([q[0]] + rest)[1..] == rest;
    assert VerbatimLength([q[0]] + rest) == 0;
  }

  lemma PrefixHead(c: char, d: string, s: string)
    ensures [c] + d <= s <==> s != "" && s[0] == c && d <= s[1..]
  {
    if s != "" {
      assert s == [s[0]] + s[1..];
    }
  }

  lemma PrintCode(q: string, arg: nat)
    requires q != "" && VerbatimLength(q) == 0 && q[0] != '?'
    ensures Print(Lex(q), arg) == [q[0]] + Print(Lex(q[1..]), arg)
  {
    assert Lex(q)[1..] == Lex(q[1..]);
  }

  lemma NoDigitFirst(q: string, arg: nat)
    requires q == "" || VerbatimLength(q) > 0 || q[0] == '?'
    ensures var b := Print(Lex(q), arg);
      (b != "" ==> !('0' <= b[0] <= '9')) && (q != "" ==> !('0' <= q[0] <= '9'))
  {
    PrintFollows(q, arg);
  }

  /** Digits at the start of the rebound text are the query's own: a number begins with `$`, quoted
      text and comments with their openers. */
  lemma {:induction false} DigitsKept(d: string, q: string, arg: nat)
    requires AllDigits(d)
    ensures d <= Print(Lex(q), arg) <==> d <= q
    decreases |d|
  {
    if d != "" {
      assert d == [d[0]] + d[1..];
      PrefixHead(d[0], d[1..], q);
      PrefixHead(d[0], d[1..], Print(Lex(q), arg));
      if q == "" || VerbatimLength(q) > 0 || q[0] == '?' {
        NoDigitFirst(q, arg);
      } else {
        PrintCode(q, arg);
        DigitsKept(d[1..], q[1..], arg);
        assert Print(Lex(q), arg)[1..] == Print(Lex(q[1..]), arg);
      }
    }
  }

  /** So a `$` of the query stands before the number that is due in the rebound text exactly when it
      does in the query. */
  lemma NumberKept(q: string, arg: nat)
    requires q != "" && VerbatimLength(q) == 0 && q[0] != '?'
    ensures Number(arg) <= Print(Lex(q), arg) <==> Number(arg) <= q
  {
    var d := NatText(arg);
    PrintCode(q, arg);
    PrefixHead('$', d, q);
    PrefixHead('$', d, Print(Lex(q), arg));
    DigitsKept(d, q[1..], arg);
    assert Print(Lex(q), arg)[1..] == Print(Lex(q[1..]), arg);
  }

  /** Strings that begin alike are equal exactly when the rest is. */
  lemma SameStart(a: string, x: string, y: string)
    ensures a + x == a + y <==> x == y
  {
    assert (a + x)[|a|..] == x && (a + y)[|a|..] == y;
  }

  /** Undoing the numbers gives `q` back exactly when nothing in it stood in the way. */
  ghost predicate Undone(q: string, arg: nat) {
    Unbound(Print(Lex(q), arg), arg) == q <==> !NumberedAlready(q, arg)
  }

  lemma NumberedAfterVerbatim(q: string, arg: nat)
    requires VerbatimLength(q) > 0
    ensures NumberedAlready(q, arg) <==> NumberedAlready(q[VerbatimLength(q)..], arg)
  {
  }

  lemma VerbatimUndone(q: string, arg: nat)
    requires VerbatimLength(q) > 0 && Undone(q[VerbatimLength(q)..], arg)
    ensures Undone(q, arg)
  {
    var n := VerbatimLength(q);
    var rest := Print(Lex(q[n..]), arg);
    PrintVerbatim(q, arg);
    PrintFollows(q[n..], arg);
    UnboundVerbatim(q, rest, arg);
    NumberedAfterVerbatim(q, arg);
    StartsAlike(q, n, Unbound(rest, arg));
  }

  lemma StartsAlike(q: string, n: nat, rest: string)
    requires n <= |q|
    ensures q[..n] + rest == q <==> rest == q[n..]
  {
    SameStart(q[..n], rest, q[n..]);
    assert q == q[..n] + q[n..];
  }

  lemma PlaceholderUndone(q: string, arg: nat)
    requires q != "" && VerbatimLength(q) == 0 && q[0] == '?' && Undone(q[1..], arg + 1)
    ensures Undone(q, arg)
  {
    var rest := Print(Lex(q[1..]), arg + 1);
    assert Lex(q)[1..] == Lex(q[1..]);
    UnboundNumber(rest, arg);
    SameStart("?", Unbound(rest, arg + 1), q[1..]);
    assert q == "?" + q[1..];
  }

  lemma CodeUndone(q: string, arg: nat)
    requires q != "" && VerbatimLength(q) == 0 && q[0] != '?' && Undone(q[1..], arg)
    ensures Undone(q, arg)
  {
    var rest := Print(Lex(q[1..]), arg);
    assert Lex(q)[1..] == Lex(q[1..]);
    PrintFollows(q[1..], arg);
    NumberKept(q, arg);
    UnboundCode(q, rest, arg);
    SameStart([q[0]], Unbound(rest, arg), q[1..]);
    assert q == [q[0]] + q[1..];
  }

  lemma {:induction false} UnboundPrint(q: string, arg: nat)
    ensures Undone(q, arg)
    decreases |q|
  {
    if q != "" {
      if VerbatimLength(q) > 0 {
        UnboundPrint(q[VerbatimLength(q)..], arg);
        VerbatimUndone(q, arg);
      } else if q[0] == '?' {
        UnboundPrint(q[1..], arg + 1);
        PlaceholderUndone(q, arg);
      } else {
        UnboundPrint(q[1..], arg);
        CodeUndone(q, arg);
      }
    }
  }

  /** MAIN RESULT. The query can be had back from the rebound text: exactly when no `$` in its own
      code stands before the number that is due there. */
  lemma RebindCanBeUndone(query: string)
    ensures Unbound(Rebound(query), 1) == query <==> !NumberedAlready(query, 1)
  {
    UnboundPrint(query, 1);
  }

  lemma {:induction false} NoDollarNoNumber(q: string, arg: nat)
    requires Code('$') !in Lex(q)
    ensures !NumberedAlready(q, arg)
    decreases |q|
  {
    if q != "" {
      var n := VerbatimLength(q);
      if n > 0 {
        assert Lex(q)[1..] == Lex(q[n..]);
        NoDollarNoNumber(q[n..], arg);
      } else {
        assert Lex(q)[1..] == Lex(q[1..]);
        assert Lex(q)[0] in Lex(q);
        NoDollarNoNumber(q[1..], if q[0] == '?' then arg + 1 else arg);
        if q[0] != '?' {
          assert Number(arg)[0] == '$';
        }
      }
    }
  }

  /** So no two queries without `$` in code are rebound to the same text. */
  lemma RebindIsInjective(a: string, b: string)
    requires Code('$') !in Lex(a) && Code('$') !in Lex(b)
    requires Rebound(a) == Rebound(b)
    ensures a == b
  {
    NoDollarNoNumber(a, 1);
    NoDollarNoNumber(b, 1);
    RebindCanBeUndone(a);
    RebindCanBeUndone(b);
  }

  /** With one they can be: a query that numbers its placeholders itself. */
  lemma DollarsCollide()
    ensures Rebound("?") == "$1" == Rebound("$1")
  {
    assert Lex("?") == [Placeholder] + Lex("?"[1..]);
    assert Lex("$1") == [Code('$')] + Lex("$1"[1..]);
    assert Lex("$1"[1..]) == [Code('1')] + Lex("$1"[1..][1..]);
  }
}
