/** String helpers shared by the translators: concatenation, blankness and decimal numerals. */
module Text {

  datatype Option<+T> = None | Some(value: T)

  datatype Result<+T> = Ok(value: T) | Err(message: string)

  /** White space as Go's `strings.TrimSpace` sees it. */
  predicate IsSpace(c: char) {
    c == ' ' || '\t' <= c <= '\r' || c == '\U{85}' || c == '\U{a0}' || c == '\U{1680}'
    || '\U{2000}' <= c <= '\U{200a}' || c == '\U{2028}' || c == '\U{2029}' || c == '\U{202f}'
    || c == '\U{205f}' || c == '\U{3000}'
  }

  /** These are the 25 characters Unicode calls white space. */
  lemma SpacesAre(c: char)
    ensures IsSpace(c) <==> c as int in {
      0x9, 0xa, 0xb, 0xc, 0xd, 0x20, 0x85, 0xa0, 0x1680, 0x2000, 0x2001, 0x2002, 0x2003, 0x2004, 0x2005, 0x2006,
      0x2007, 0x2008, 0x2009, 0x200a, 0x2028, 0x2029, 0x202f, 0x205f, 0x3000}
  {
  }

  /** `strings.TrimSpace(s) == ""` */
  predicate Blank(s: string) {
    forall c :: c in s ==> IsSpace(c)
  }

  function TrimLeft(s: string): string {
    if s != "" && IsSpace(s[0]) then TrimLeft(s[1..]) else s
  }

  function TrimRight(s: string): string {
    if s != "" && IsSpace(s[|s| - 1]) then TrimRight(s[..|s| - 1]) else s
  }

  /** `strings.TrimSpace` */
  function Trim(s: string): string {
    TrimRight(TrimLeft(s))
  }

  lemma {:induction false} TrimLeftIs(s: string) returns (space: string)
    ensures s == space + TrimLeft(s) && Blank(space)
    ensures TrimLeft(s) == "" || !IsSpace(TrimLeft(s)[0])
    decreases |s|
  {
    if s != "" && IsSpace(s[0]) {
      var rest := TrimLeftIs(s[1..]);
      space := [s[0]] + rest;
    } else {
      space := "";
    }
  }

  lemma {:induction false} TrimRightIs(s: string) returns (space: string)
    ensures s == TrimRight(s) + space && Blank(space)
    ensures TrimRight(s) == "" || !IsSpace(TrimRight(s)[|TrimRight(s)| - 1])
    decreases |s|
  {
    if s != "" && IsSpace(s[|s| - 1]) {
      var rest := TrimRightIs(s[..|s| - 1]);
      space := rest + [s[|s| - 1]];
      Associative(TrimRight(s), rest, [s[|s| - 1]]);
    } else {
      space := "";
    }
  }

  /** Trimming takes white space off both ends, all of it and nothing else. */
  lemma TrimExactly(s: string) returns (before: string, after: string)
    ensures s == before + Trim(s) + after && Blank(before) && Blank(after)
    ensures Trim(s) != "" ==> !IsSpace(Trim(s)[0]) && !IsSpace(Trim(s)[|Trim(s)| - 1])
  {
    before := TrimLeftIs(s);
    after := TrimRightIs(TrimLeft(s));
    assert Trim(s) != "" ==> Trim(s)[0] == TrimLeft(s)[0];
    Associative(before, Trim(s), after);
  }

  function LowerChar(c: char): char {
    if 'A' <= c <= 'Z' then c - 'A' + 'a' else c
  }

  /** `strings.ToLower` on ASCII text. */
  function Lower(s: string): string {
    seq(|s|, i requires 0 <= i < |s| => LowerChar(s[i]))
  }

  /** `key` is `name` but for capital letters. */
  predicate Spells(key: string, name: string) {
    |key| == |name| && forall i :: 0 <= i < |key| ==>
      key[i] == name[i] || ('A' <= key[i] <= 'Z' && name[i] as int == key[i] as int + 32)
  }

  /** No capital letters. */
  predicate Small(name: string) {
    forall i :: 0 <= i < |name| ==> !('A' <= name[i] <= 'Z')
  }

  lemma LowerSpells(key: string, name: string)
    requires Small(name)
    ensures Lower(key) == name <==> Spells(key, name)
  {
    if Lower(key) == name {
      forall i | 0 <= i < |key|
        ensures key[i] == name[i] || ('A' <= key[i] <= 'Z' && name[i] as int == key[i] as int + 32)
      {
        assert Lower(key)[i] == LowerChar(key[i]);
      }
    }
    if Spells(key, name) {
      assert forall i :: 0 <= i < |key| ==> Lower(key)[i] == name[i];
    }
  }

  function FallbackString(v: string, fallback: string): string {
    if Blank(v) then fallback else v
  }

  // Sequences taken apart, for the proofs by induction.

  lemma LastOfJoin<T>(a: seq<T>, b: seq<T>)
    requires b != []
    ensures (a + b)[..|a + b| - 1] == a + b[..|b| - 1] && (a + b)[|a + b| - 1] == b[|b| - 1]
    ensures a + b == a + b[..|b| - 1] + [b[|b| - 1]]
  {
  }

  lemma FirstOfJoin<T>(a: seq<T>, b: seq<T>)
    requires a != []
    ensures (a + b)[1..] == a[1..] + b && (a + b)[0] == a[0]
  {
  }

  lemma LastOf<T>(s: seq<T>)
    requires s != []
    ensures s == s[..|s| - 1] + [s[|s| - 1]]
  {
  }

  lemma WithoutLast<T>(s: seq<T>, x: T)
    ensures (s + [x])[..|s|] == s && (s + [x])[|s|] == x
  {
  }

  lemma WithNothing<T>(s: seq<T>)
    ensures [] + s == s == s + []
  {
  }

  lemma TakeOneMore<T>(s: seq<T>, i: nat)
    requires i < |s|
    ensures s[..i + 1] == s[..i] + [s[i]] && s[..i + 1][..i] == s[..i]
  {
  }

  lemma DropOneMore<T>(s: seq<T>, i: nat)
    requires i < |s|
    ensures s[i..][1..] == s[i + 1..] && s[i..][0] == s[i]
  {
  }

  lemma AfterPrefix<T>(a: seq<T>, s: seq<T>)
    requires a <= s
    ensures s == a + s[|a|..]
  {
  }

  lemma Associative<T>(a: seq<T>, b: seq<T>, c: seq<T>)
    ensures a + b + c == a + (b + c)
  {
  }

  /** The elements around the end of `a`. */
  lemma Neighbours<T>(a: seq<T>, x: T, b: seq<T>, c: seq<T>)
    requires b != []
    ensures var s := a + [x] + b + c; |a| + 1 < |s| && s[|a|] == x && s[|a| + 1] == b[0]
  {
  }

  lemma TwoIn<T>(s: seq<T>, k: nat)
    requires k + 1 < |s|
    ensures s == s[..k] + ([s[k]] + [s[k + 1]] + s[k + 2..])
  {
  }

  /** All the strings of `ss`, one after the other. */
  function Concat(ss: seq<string>): string {
    if ss == [] then "" else ss[0] + Concat(ss[1..])
  }

  lemma {:induction false} ConcatAppend(a: seq<string>, b: seq<string>)
    ensures Concat(a + b) == Concat(a) + Concat(b)
  {
    if a == [] {
      assert a + b == b;
    } else {
      assert (a + b)[1..] == a[1..] + b;
      ConcatAppend(a[1..], b);
    }
  }

  /** The non-empty strings of `ss`, in order. */
  function NonEmpty(ss: seq<string>): seq<string> {
    if ss == [] then [] else (if ss[0] == "" then [] else [ss[0]]) + NonEmpty(ss[1..])
  }

  lemma {:induction false} ConcatNonEmpty(ss: seq<string>)
    ensures Concat(NonEmpty(ss)) == Concat(ss)
  {
    if ss != [] {
      ConcatNonEmpty(ss[1..]);
      ConcatAppend(if ss[0] == "" then [] else [ss[0]], NonEmpty(ss[1..]));
      assert Concat([ss[0]]) == ss[0] + Concat([]);
    }
  }

  /** `strings.Join(ss, sep)` */
  function Join(ss: seq<string>, sep: string): string {
    if ss == [] then "" else if |ss| == 1 then ss[0] else ss[0] + sep + Join(ss[1..], sep)
  }

  /** The non-empty texts on lines of their own, when they come one at a time. */
  function Lines(ss: seq<string>, sep: string := "\n"): string {
    if ss == [] then ""
    else
      var before, last := Lines(ss[..|ss| - 1], sep), ss[|ss| - 1];
      if last == "" then before else if before == "" then last else before + sep + last
  }

  lemma {:induction false} JoinSnoc(ss: seq<string>, sep: string, last: string)
    requires ss != []
    ensures Join(ss + [last], sep) == Join(ss, sep) + sep + last
    decreases |ss|
  {
    FirstOfJoin(ss, [last]);
    if |ss| == 1 {
      assert (ss + [last])[1..] == [last];
    } else {
      JoinSnoc(ss[1..], sep, last);
      Associative(ss[0] + sep, Join(ss[1..], sep), sep);
      Associative(ss[0] + sep, Join(ss[1..], sep) + sep, last);
    }
  }

  lemma {:induction false} NonEmptySnoc(ss: seq<string>, last: string)
    ensures NonEmpty(ss + [last]) == NonEmpty(ss) + if last == "" then [] else [last]
    decreases |ss|
  {
    if ss == [] {
      assert [last][1..] == [];
      WithNothing<string>(if last == "" then [] else [last]);
    } else {
      FirstOfJoin(ss, [last]);
      NonEmptySnoc(ss[1..], last);
      Associative(if ss[0] == "" then [] else [ss[0]], NonEmpty(ss[1..]), if last == "" then [] else [last]);
    }
  }

  /** Joining the non-empty texts is writing them on lines of their own. */
  lemma {:induction false} JoinIsLines(ss: seq<string>, sep: string := "\n")
    ensures Join(NonEmpty(ss), sep) == Lines(ss, sep)
    ensures NonEmpty(ss) == [] <==> Lines(ss, sep) == ""
    decreases |ss|
  {
    if ss != [] {
      var front, last := ss[..|ss| - 1], ss[|ss| - 1];
      JoinIsLines(front, sep);
      LastOf(ss);
      NonEmptySnoc(front, last);
      WithNothing(NonEmpty(front));
      if last != "" && NonEmpty(front) != [] {
        JoinSnoc(NonEmpty(front), sep, last);
      }
    }
  }

  lemma {:induction false} AllNonEmpty(ss: seq<string>)
    requires forall i :: 0 <= i < |ss| ==> ss[i] != ""
    ensures NonEmpty(ss) == ss
    decreases |ss|
  {
    if ss != [] {
      AllNonEmpty(ss[1..]);
    }
  }

  lemma JoinTexts(ss: seq<string>, sep: string := "\n")
    requires forall i :: 0 <= i < |ss| ==> ss[i] != ""
    ensures Join(ss, sep) == Lines(ss, sep)
  {
    AllNonEmpty(ss);
    JoinIsLines(ss, sep);
  }

  /** The decimal numeral Go's `%d` prints for a non-negative integer. */
  function NatText(n: nat): (s: string)
    ensures |s| > 0 && AllDigits(s)
    ensures n > 0 ==> s[0] != '0'
  {
    if n < 10 then [Digit(n)] else NatText(n / 10) + [Digit(n % 10)]
  }

  predicate AllDigits(s: string) {
    forall i :: 0 <= i < |s| ==> '0' <= s[i] <= '9'
  }

  function Digit(d: nat): (c: char)
    requires d < 10
    ensures '0' <= c <= '9'
  {
    '0' + d as char
  }

  function IntText(n: int): string {
    if n < 0 then "-" + NatText(-n) else NatText(n)
  }

  /** Different numbers are printed differently. */
  lemma IntTextInjective(m: int, n: int)
    requires IntText(m) == IntText(n)
    ensures m == n
  {
    assert AllDigits(NatText(if m < 0 then -m else m)) && AllDigits(NatText(if n < 0 then -n else n));
    assert m < 0 <==> IntText(m)[0] == '-';
    assert n < 0 <==> IntText(n)[0] == '-';
    if m < 0 {
      assert IntText(m)[1..] == NatText(-m) && IntText(n)[1..] == NatText(-n);
      NatTextInjective(-m, -n);
    } else {
      NatTextInjective(m, n);
    }
  }

  /** The number a decimal numeral stands for. */
  function NumeralValue(s: string): nat
    requires AllDigits(s)
  {
    if s == "" then 0 else NumeralValue(s[..|s| - 1]) * 10 + (s[|s| - 1] - '0') as nat
  }

  lemma {:induction false} NatTextReads(n: nat)
    ensures NumeralValue(NatText(n)) == n
  {
    var s := NatText(n);
    if n < 10 {
      assert s[..|s| - 1] == "";
    } else {
      NatTextReads(n / 10);
      assert s[..|s| - 1] == NatText(n / 10);
    }
  }

  lemma NatTextInjective(m: nat, n: nat)
    requires NatText(m) == NatText(n)
    ensures m == n
  {
    NatTextReads(m);
    NatTextReads(n);
  }
}
