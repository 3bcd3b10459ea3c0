/** What the guardrails make of a JSON value: the rules applied to its texts, and to the whole tree. */
module Redaction {
  import opened Text

  // ---------------------------------------------------------------- one text

  datatype Action = Off | Redact | Block

  /** A detection rule: built-in, or custom with its own action. The pattern is given by what it
      matches and what replacing its matches makes of a text. */
  datatype Rule = Rule(finding: string, custom: bool, blocks: bool, matches: string -> bool, replace: string -> string)

  datatype Guard = Guard(rules: seq<Rule>, action: Action, forceRedactBlocked: bool)

  datatype TextResult = TextResult(text: string, findings: set<string>, redacted: bool, blocked: bool)

  predicate Blocks(g: Guard, r: Rule) {
    g.action == Block || (r.custom && r.blocks)
  }

  predicate Rewrites(g: Guard, r: Rule) {
    !r.custom || !r.blocks || g.forceRedactBlocked
  }

  function Found(rules: seq<Rule>, text: string): set<string> {
    set i | 0 <= i < |rules| && rules[i].matches(text) :: rules[i].finding
  }

  predicate BlockedText(g: Guard, rules: seq<Rule>, text: string) {
    exists i :: 0 <= i < |rules| && rules[i].matches(text) && Blocks(g, rules[i])
  }

  /** The rules replace one after the other, each in what the one before left. */
  function Rewritten(g: Guard, rules: seq<Rule>, text: string): string {
    if rules == [] then text
    else
      var before := Rewritten(g, rules[..|rules| - 1], text);
      if Rewrites(g, rules[|rules| - 1]) then rules[|rules| - 1].replace(before) else before
  }

  function Judge(g: Guard, text: string): TextResult {
    if text == "" || g.action == Off then TextResult(text, {}, false, false)
    else
      var findings := Found(g.rules, text);
      if BlockedText(g, g.rules, text) && !g.forceRedactBlocked then TextResult(text, findings, false, true)
      else if g.action != Redact && !g.forceRedactBlocked then TextResult(text, findings, false, false)
      else
        var redacted := Rewritten(g, g.rules, text);
        TextResult(redacted, findings, redacted != text, false)
  }

  // What that comes to, in the policy's own terms.

  /** Under this action some rule forbids the text: any that matches if the action is to block, and a
      custom one that blocks under every action but off. */
  predicate Forbidden(rules: seq<Rule>, action: Action, text: string) {
    && text != "" && action != Off
    && exists i :: 0 <= i < |rules|
         && rules[i].matches(text) && (action == Block || (rules[i].custom && rules[i].blocks))
  }

  /** The replacements of all the rules, from the first to the last. */
  function Chain(rules: seq<Rule>, text: string): string {
    if rules == [] then text else Chain(rules[1..], rules[0].replace(text))
  }

  /** The built-in rules, and the custom ones that redact. */
  function Redacting(rules: seq<Rule>): seq<Rule> {
    if rules == [] then []
    else (if rules[0].custom && rules[0].blocks then [] else [rules[0]]) + Redacting(rules[1..])
  }

  lemma {:induction false} ChainSnoc(rules: seq<Rule>, last: Rule, text: string)
    ensures Chain(rules + [last], text) == last.replace(Chain(rules, text))
    decreases |rules|
  {
    if rules == [] {
      assert Chain([last], text) == Chain([last][1..], last.replace(text));
    } else {
      FirstOfJoin(rules, [last]);
      ChainSnoc(rules[1..], last, rules[0].replace(text));
    }
  }

  lemma {:induction false} RedactingSnoc(rules: seq<Rule>, last: Rule)
    ensures Redacting(rules + [last]) == Redacting(rules) + if last.custom && last.blocks then [] else [last]
    decreases |rules|
  {
    if rules == [] {
      assert [last][1..] == [];
    } else {
      FirstOfJoin(rules, [last]);
      RedactingSnoc(rules[1..], last);
      Associative(if rules[0].custom && rules[0].blocks then [] else [rules[0]], Redacting(rules[1..]),
                  if last.custom && last.blocks then [] else [last]);
    }
  }

  lemma {:induction false} RewrittenIsChain(g: Guard, rules: seq<Rule>, text: string)
    ensures Rewritten(g, rules, text) == Chain(if g.forceRedactBlocked then rules else Redacting(rules), text)
    decreases |rules|
  {
    if rules != [] {
      var front, last := rules[..|rules| - 1], rules[|rules| - 1];
      RewrittenIsChain(g, front, text);
      LastOf(rules);
      RedactingSnoc(front, last);
      WithNothing(Redacting(front));
      ChainSnoc(if g.forceRedactBlocked then front else Redacting(front), last, text);
    }
  }

  /** MAIN RESULT. A text is blocked exactly when a rule forbids it and blocked text is not forced to be
      redacted, and then it is left as it is; to redact it is to apply the replacements of the rules
      that redact in order, or of all rules if blocked text is forced to be redacted. */
  lemma JudgedExactly(g: Guard, text: string)
    ensures Judge(g, text).blocked <==> !g.forceRedactBlocked && Forbidden(g.rules, g.action, text)
    ensures Judge(g, text).text ==
      if text == "" || g.action == Off then text
      else if g.forceRedactBlocked then Chain(g.rules, text)
      else if g.action == Redact && !Forbidden(g.rules, g.action, text) then Chain(Redacting(g.rules), text)
      else text
    ensures forall f :: f in Judge(g, text).findings <==>
      text != "" && g.action != Off
      && exists i :: 0 <= i < |g.rules| && g.rules[i].matches(text) && g.rules[i].finding == f
  {
    RewrittenIsChain(g, g.rules, text);
    if text != "" && g.action != Off {
      assert BlockedText(g, g.rules, text) <==> Forbidden(g.rules, g.action, text);
    }
  }

  lemma BlockedExactly(g: Guard, text: string)
    ensures Judge(g, text).blocked <==> !g.forceRedactBlocked && Forbidden(g.rules, g.action, text)
    ensures Judge(g, text).blocked ==> Judge(g, text).text == text
  {
    JudgedExactly(g, text);
  }

  method ApplyGuardrailToText(text: string, g: Guard) returns (result: TextResult)
    ensures result == Judge(g, text)
    ensures result.blocked <==> !g.forceRedactBlocked && Forbidden(g.rules, g.action, text)
    ensures result.blocked ==> result.text == text
  {
    BlockedExactly(g, text);
    result := TextResult(text, {}, false, false);
    if text == "" || g.action == Off {
      return;
    }
    var findings: set<string>, blocked := {}, false;
    for i := 0 to |g.rules|
      invariant findings == Found(g.rules[..i], text)
      invariant blocked == BlockedText(g, g.rules[..i], text)
    {
      var rule := g.rules[i];
      assert g.rules[..i + 1] == g.rules[..i] + [rule];
      if rule.matches(text) {
        findings := findings + {rule.finding};
        if Blocks(g, rule) {
          blocked := true;
        }
      }
    }
    assert g.rules[..|g.rules|] == g.rules;
    result := result.(findings := findings);
    if blocked && !g.forceRedactBlocked {
      return result.(blocked := true);
    }
    if g.action != Redact && !g.forceRedactBlocked {
      return;
    }
    var redacted := text;
    for i := 0 to |g.rules|
      invariant redacted == Rewritten(g, g.rules[..i], text)
    {
      assert g.rules[..i + 1][..i] == g.rules[..i];
      if Rewrites(g, g.rules[i]) {
        redacted := g.rules[i].replace(redacted);
      }
    }
    result := result.(text := redacted, redacted := redacted != text);
  }

  // ---------------------------------------------------------------- one tree

  /** A JSON value; `Atom` is a number, a boolean or null. */
  datatype Json = Str(text: string) | Atom(value: int) | Arr(items: seq<Json>) | Obj(fields: map<string, Json>)

  /** Texts under these keys are structure, not content. */
  predicate SkipStringKey(key: string) {
    Lower(key) in {"id", "object", "model", "role", "type", "finish_reason", "stop_reason", "stop_sequence",
                   "provider", "protocol"}
  }

  /** The texts a tree shows the rules, each counted once. */
  function Texts(key: string, j: Json): set<string>
    decreases j
  {
    match j
    case Str(t) => if SkipStringKey(key) then {} else {t}
    case Atom(_) => {}
    case Arr(items) => set i, t | 0 <= i < |items| && t in Texts(key, items[i]) :: t
    case Obj(fields) => set k, t | k in fields && t in Texts(k, fields[k]) :: t
  }

  function Redacted(g: Guard, key: string, j: Json): Json
    decreases j
  {
    match j
    case Str(t) => if SkipStringKey(key) then j else Str(Judge(g, t).text)
    case Atom(_) => j
    case Arr(items) => Arr(seq(|items|, i requires 0 <= i < |items| => Redacted(g, key, items[i])))
    case Obj(fields) => Obj(map k | k in fields :: Redacted(g, k, fields[k]))
  }

  predicate BlockedBy(g: Guard, texts: set<string>) {
    exists t :: t in texts && Judge(g, t).blocked
  }

  function FindingsOf(g: Guard, texts: set<string>): set<string> {
    set t, f | t in texts && f in Judge(g, t).findings :: f
  }

  // ---------------------------------------------------------------- what redaction keeps

  /** The same tree but for the texts that are content. */
  predicate SameShape(key: string, a: Json, b: Json)
    decreases a
  {
    match (a, b)
    case (Str(s), Str(t)) => SkipStringKey(key) ==> s == t
    case (Atom(m), Atom(n)) => m == n
    case (Arr(x), Arr(y)) => |x| == |y| && forall i :: 0 <= i < |x| ==> SameShape(key, x[i], y[i])
    case (Obj(x), Obj(y)) => x.Keys == y.Keys && forall k :: k in x ==> SameShape(k, x[k], y[k])
    case _ => false
  }

  /** MAIN RESULT. Redaction keeps every key, every position, every leaf that is no text and every text
      under a structural key. */
  lemma {:induction false} ShapeKept(g: Guard, key: string, j: Json)
    ensures SameShape(key, j, Redacted(g, key, j))
    decreases j
  {
    match j
    case Str(_) =>
    case Atom(_) =>
    case Arr(items) =>
      forall i | 0 <= i < |items|
        ensures SameShape(key, items[i], Redacted(g, key, items[i]))
      {
        ShapeKept(g, key, items[i]);
      }
    case Obj(fields) =>
      forall k | k in fields
        ensures SameShape(k, fields[k], Redacted(g, k, fields[k]))
      {
        ShapeKept(g, k, fields[k]);
      }
  }

  /** A text is flagged exactly when it comes out different. */
  lemma FlagIsChange(g: Guard, text: string)
    ensures Judge(g, text).redacted <==> Judge(g, text).text != text
    ensures Judge(g, text).blocked ==> !Judge(g, text).redacted
  {
  }

  /** MAIN RESULT. The tree differs exactly when one of its texts does. */
  lemma {:induction false} ChangedExactly(g: Guard, key: string, j: Json)
    ensures Redacted(g, key, j) != j <==> exists t :: t in Texts(key, j) && Judge(g, t).redacted
    decreases j
  {
    match j
    case Str(t) =>
      FlagIsChange(g, t);
      if !SkipStringKey(key) {
        assert t in Texts(key, j);
      }
    case Atom(_) =>
    case Arr(items) =>
      forall i | 0 <= i < |items|
        ensures Redacted(g, key, items[i]) != items[i] <==>
          exists t :: t in Texts(key, items[i]) && Judge(g, t).redacted
      {
        ChangedExactly(g, key, items[i]);
      }
      var r := Redacted(g, key, j).items;
      if r == items {
        assert forall i :: 0 <= i < |items| ==> r[i] == items[i];
      } else {
        var i :| 0 <= i < |items| && r[i] != items[i];
        var t :| t in Texts(key, items[i]) && Judge(g, t).redacted;
        assert t in Texts(key, j);
      }
    case Obj(fields) =>
      forall k | k in fields
        ensures Redacted(g, k, fields[k]) != fields[k] <==>
          exists t :: t in Texts(k, fields[k]) && Judge(g, t).redacted
      {
        ChangedExactly(g, k, fields[k]);
      }
      var r := Redacted(g, key, j).fields;
      if r == fields {
        assert forall k :: k in fields ==> r[k] == fields[k];
      } else {
        var k :| k in fields && r[k] != fields[k];
        var t :| t in Texts(k, fields[k]) && Judge(g, t).redacted;
        assert t in Texts(key, j);
      }
  }

  // ---------------------------------------------------------------- keys, and blocked trees

  /** Ten names in any capitals are structure; every other is content. */
  lemma StructuralKeys(key: string)
    ensures SkipStringKey(key) <==>
      || Spells(key, "id") || Spells(key, "object") || Spells(key, "model") || Spells(key, "role")
      || Spells(key, "type") || Spells(key, "finish_reason") || Spells(key, "stop_reason")
      || Spells(key, "stop_sequence") || Spells(key, "provider") || Spells(key, "protocol")
  {
    LowerSpells(key, "id");
    LowerSpells(key, "object");
    LowerSpells(key, "model");
    LowerSpells(key, "role");
    LowerSpells(key, "type");
    LowerSpells(key, "finish_reason");
    LowerSpells(key, "stop_reason");
    LowerSpells(key, "stop_sequence");
    LowerSpells(key, "provider");
    LowerSpells(key, "protocol");
  }

  /** Somewhere in the tree, under a key that is content, stands a forbidden text. */
  predicate HoldsForbidden(rules: seq<Rule>, action: Action, key: string, j: Json)
    decreases j
  {
    match j
    case Str(t) => !SkipStringKey(key) && Forbidden(rules, action, t)
    case Atom(_) => false
    case Arr(items) => exists i :: 0 <= i < |items| && HoldsForbidden(rules, action, key, items[i])
    case Obj(fields) => exists k :: k in fields && HoldsForbidden(rules, action, k, fields[k])
  }

  /** MAIN RESULT. A tree is blocked exactly when it holds a forbidden text, however deep. */
  lemma {:induction false} BlockedAnywhere(g: Guard, key: string, j: Json)
    requires !g.forceRedactBlocked
    ensures BlockedBy(g, Texts(key, j)) <==> HoldsForbidden(g.rules, g.action, key, j)
    decreases j
  {
    match j
    case Str(t) =>
      JudgedExactly(g, t);
      if !SkipStringKey(key) {
        assert t in Texts(key, j);
      }
    case Atom(_) =>
    case Arr(items) =>
      forall i | 0 <= i < |items|
        ensures BlockedBy(g, Texts(key, items[i])) <==> HoldsForbidden(g.rules, g.action, key, items[i])
      {
        BlockedAnywhere(g, key, items[i]);
      }
      if HoldsForbidden(g.rules, g.action, key, j) {
        var i :| 0 <= i < |items| && HoldsForbidden(g.rules, g.action, key, items[i]);
        var t :| t in Texts(key, items[i]) && Judge(g, t).blocked;
        assert t in Texts(key, j);
      }
    case Obj(fields) =>
      forall k | k in fields
        ensures BlockedBy(g, Texts(k, fields[k])) <==> HoldsForbidden(g.rules, g.action, k, fields[k])
      {
        BlockedAnywhere(g, k, fields[k]);
      }
      if HoldsForbidden(g.rules, g.action, key, j) {
        var k :| k in fields && HoldsForbidden(g.rules, g.action, k, fields[k]);
        var t :| t in Texts(k, fields[k]) && Judge(g, t).blocked;
        assert t in Texts(key, j);
      }
  }

  /** Somewhere in the tree, under a key that is content, a rule with this finding matches. */
  predicate HoldsFinding(rules: seq<Rule>, key: string, j: Json, f: string)
    decreases j
  {
    match j
    case Str(t) =>
      !SkipStringKey(key) && t != "" && exists i :: 0 <= i < |rules| && rules[i].matches(t) && rules[i].finding == f
    case Atom(_) => false
    case Arr(items) => exists i :: 0 <= i < |items| && HoldsFinding(rules, key, items[i], f)
    case Obj(fields) => exists k :: k in fields && HoldsFinding(rules, k, fields[k], f)
  }

  /** What is found in a tree is what is found in its texts. */
  lemma {:induction false} FoundAnywhere(g: Guard, key: string, j: Json, f: string)
    ensures f in FindingsOf(g, Texts(key, j)) <==> g.action != Off && HoldsFinding(g.rules, key, j, f)
    decreases j
  {
    match j
    case Str(t) =>
      JudgedExactly(g, t);
      FoundInOne(g, t);
      if !SkipStringKey(key) {
        assert Texts(key, j) == {t};
      }
    case Atom(_) =>
    case Arr(items) =>
      forall i | 0 <= i < |items|
        ensures f in FindingsOf(g, Texts(key, items[i])) <==> g.action != Off && HoldsFinding(g.rules, key, items[i], f)
      {
        FoundAnywhere(g, key, items[i], f);
      }
      FoundInItems(g, key, items, f);
    case Obj(fields) =>
      forall k | k in fields
        ensures f in FindingsOf(g, Texts(k, fields[k])) <==> g.action != Off && HoldsFinding(g.rules, k, fields[k], f)
      {
        FoundAnywhere(g, k, fields[k], f);
      }
      FoundInFields(g, key, fields, f);
  }

  lemma FoundInOne(g: Guard, text: string)
    ensures FindingsOf(g, {text}) == Judge(g, text).findings
  {
  }

  lemma FoundInItems(g: Guard, key: string, items: seq<Json>, f: string)
    ensures f in FindingsOf(g, Texts(key, Arr(items)))
      <==> exists i :: 0 <= i < |items| && f in FindingsOf(g, Texts(key, items[i]))
  {
    if f in FindingsOf(g, Texts(key, Arr(items))) {
      var t :| t in Texts(key, Arr(items)) && f in Judge(g, t).findings;
      var i :| 0 <= i < |items| && t in Texts(key, items[i]);
      assert f in FindingsOf(g, Texts(key, items[i]));
    }
    if i :| 0 <= i < |items| && f in FindingsOf(g, Texts(key, items[i])) {
      var t :| t in Texts(key, items[i]) && f in Judge(g, t).findings;
      assert t in Texts(key, Arr(items));
    }
  }

  lemma FoundInFields(g: Guard, key: string, fields: map<string, Json>, f: string)
    ensures f in FindingsOf(g, Texts(key, Obj(fields)))
      <==> exists k :: k in fields && f in FindingsOf(g, Texts(k, fields[k]))
  {
    if f in FindingsOf(g, Texts(key, Obj(fields))) {
      var t :| t in Texts(key, Obj(fields)) && f in Judge(g, t).findings;
      var k :| k in fields && t in Texts(k, fields[k]);
      assert f in FindingsOf(g, Texts(k, fields[k]));
    }
    if k :| k in fields && f in FindingsOf(g, Texts(k, fields[k])) {
      var t :| t in Texts(k, fields[k]) && f in Judge(g, t).findings;
      assert t in Texts(key, Obj(fields));
    }
  }
}
