/** The guardrails on a JSON tree in memory: the tree is cloned, then rewritten in place. */
module GuardrailTree {
  import opened Redaction

  /** A JSON value as the decoder builds it: objects and arrays are references to containers. */
  datatype Value = Plain(text: string) | Scalar(value: int) | Ref(node: Node)

  ghost function ReprOf(v: Value): set<object>
    reads if v.Ref? then {v.node} else {}
  {
    if v.Ref? then v.node.repr else {}
  }

  ghost function ContentOf(v: Value): Json
    reads if v.Ref? then {v.node} else {}
  {
    match v
    case Plain(t) => Str(t)
    case Scalar(a) => Atom(a)
    case Ref(n) => n.content
  }

  ghost predicate ValidValue(v: Value)
    reads if v.Ref? then {v.node} + v.node.repr else {}
  {
    v.Ref? ==> v.node.Valid()
  }

  /** An object or an array. `repr` is the container with everything below it, `content` the JSON it
      stands for. */
  class Node {
    const isMap: bool
    var fields: map<string, Value>
    var items: seq<Value>
    ghost var repr: set<object>
    ghost var content: Json

    /** `v` is a valid value below this container. */
    ghost predicate Owns(v: Value)
      requires this in repr
      reads this, repr
      decreases repr, 0
    {
      v.Ref? ==> v.node in repr && v.node.repr <= repr && this !in v.node.repr && v.node.Valid()
    }

    /** The fields are separate trees, and stand for `contents`. */
    ghost predicate HasFields(contents: map<string, Json>)
      requires this in repr
      reads this, repr
      decreases repr, 1
    {
      && contents.Keys == fields.Keys
      && (forall k :: k in fields ==> Owns(fields[k]) && ContentOf(fields[k]) == contents[k])
      && (forall k, l :: k in fields && l in fields && k != l ==> ReprOf(fields[k]) !! ReprOf(fields[l]))
    }

    ghost predicate HasItems(contents: seq<Json>)
      requires this in repr
      reads this, repr
      decreases repr, 1
    {
      && |contents| == |items|
      && (forall i :: 0 <= i < |items| ==> Owns(items[i]) && ContentOf(items[i]) == contents[i])
      && (forall i, j :: 0 <= i < j < |items| ==> ReprOf(items[i]) !! ReprOf(items[j]))
    }

    ghost predicate Valid()
      reads this, repr
      decreases repr, 2
    {
      && this in repr
      && if isMap then content.Obj? && HasFields(content.fields) else content.Arr? && HasItems(content.items)
    }

    constructor (isMap: bool)
      ensures this.isMap == isMap && fields == map[] && items == [] && repr == {this} && Valid()
    {
      this.isMap := isMap;
      fields := map[];
      items := [];
      repr := {this};
      content := if isMap then Obj(map[]) else Arr([]);
    }

    /** A new field whose value is a tree of its own. */
    method AddField(key: string, child: Value)
      requires Valid() && isMap && key !in fields
      requires ValidValue(child) && ReprOf(child) !! repr
      modifies this
      ensures Valid() && fields == old(fields)[key := child]
      ensures repr == old(repr) + ReprOf(child)
      ensures content == Obj(old(content.fields)[key := ContentOf(child)])
    {
      fields := fields[key := child];
      repr := repr + ReprOf(child);
      content := Obj(content.fields[key := ContentOf(child)]);
      forall k | k in old(fields)
        ensures Owns(old(fields)[k]) && ContentOf(old(fields)[k]) == old(content.fields)[k]
        ensures ReprOf(old(fields)[k]) == old(ReprOf(fields[k])) <= old(repr)
      {
        var v := old(fields)[k];
        assert old(Owns(v));
        if v.Ref? {
          assert v.node.Valid();
        }
      }
      assert Owns(child);
      forall k, l | k in fields && l in fields && k != l
        ensures ReprOf(fields[k]) !! ReprOf(fields[l])
      {
      }
      assert HasFields(content.fields);
    }

    /** Another value of the same extent in place of a field's. */
    method PutField(key: string, next: Value, ghost contents: map<string, Json>)
      requires this in repr && HasFields(contents) && key in fields
      requires Owns(next) && ReprOf(next) == ReprOf(fields[key])
      modifies this`fields
      ensures fields == old(fields)[key := next] && HasFields(contents[key := ContentOf(next)])
    {
      fields := fields[key := next];
      forall k | k in old(fields)
        ensures Owns(old(fields)[k]) && ContentOf(old(fields)[k]) == contents[k]
        ensures ReprOf(old(fields)[k]) == old(ReprOf(fields[k])) <= old(repr)
      {
        var v := old(fields)[k];
        assert old(Owns(v));
        if v.Ref? {
          assert v.node.Valid();
        }
      }
      assert Owns(next) by {
        if next.Ref? {
          assert next.node.Valid();
        }
      }
      forall k | k in fields
        ensures Owns(fields[k]) && ContentOf(fields[k]) == contents[key := ContentOf(next)][k]
        ensures ReprOf(fields[k]) == old(ReprOf(fields[k]))
      {
        assert k == key || fields[k] == old(fields)[k];
      }
    }

    method PutItem(i: nat, next: Value, ghost contents: seq<Json>)
      requires this in repr && HasItems(contents) && i < |items|
      requires Owns(next) && ReprOf(next) == ReprOf(items[i])
      modifies this`items
      ensures items == old(items)[i := next] && HasItems(contents[i := ContentOf(next)])
    {
      items := items[i := next];
      forall j | 0 <= j < |old(items)|
        ensures Owns(old(items)[j]) && ContentOf(old(items)[j]) == contents[j]
        ensures ReprOf(old(items)[j]) == old(ReprOf(items[j])) <= old(repr)
      {
        var v := old(items)[j];
        assert old(Owns(v));
        if v.Ref? {
          assert v.node.Valid();
        }
      }
      assert Owns(next) by {
        if next.Ref? {
          assert next.node.Valid();
        }
      }
    }

    /** Everything below is rewritten: the container stands for the new value. */
    ghost method Became(j: Json)
      requires this in repr
      requires if isMap then j.Obj? && HasFields(j.fields) else j.Arr? && HasItems(j.items)
      modifies this`content
      ensures Valid() && content == j
    {
      content := j;
    }

    method AddItem(child: Value)
      requires Valid() && !isMap
      requires ValidValue(child) && ReprOf(child) !! repr
      modifies this
      ensures Valid() && items == old(items) + [child]
      ensures repr == old(repr) + ReprOf(child)
      ensures content == Arr(old(content.items) + [ContentOf(child)])
    {
      items := items + [child];
      repr := repr + ReprOf(child);
      content := Arr(content.items + [ContentOf(child)]);
      forall i | 0 <= i < |old(items)|
        ensures Owns(old(items)[i]) && ContentOf(old(items)[i]) == old(content.items)[i]
        ensures ReprOf(old(items)[i]) == old(ReprOf(items[i])) <= old(repr)
      {
        var v := old(items)[i];
        assert old(Owns(v));
        if v.Ref? {
          assert v.node.Valid();
        }
      }
      assert Owns(child);
    }
  }

  /** `cloneGuardrailJSON`: a new tree that stands for the same JSON. */
  method Clone(value: Value) returns (copy: Value)
    requires ValidValue(value)
    ensures ValidValue(copy) && ContentOf(copy) == ContentOf(value)
    ensures fresh(ReprOf(copy))
    decreases ReprOf(value), 1
  {
    match value
    case Plain(_) => copy := value;
    case Scalar(_) => copy := value;
    case Ref(node) =>
      if node.isMap {
        var out := CloneMap(node);
        copy := Ref(out);
      } else {
        var out := CloneList(node);
        copy := Ref(out);
      }
  }

  lemma CopyOne(all: map<string, Json>, left: set<string>, key: string)
    requires key in left && key in all
    ensures key !in all - left
    ensures (all - left)[key := all[key]] == all - (left - {key})
  {
  }

  method CloneMap(node: Node) returns (out: Node)
    requires node.Valid() && node.isMap
    ensures out.Valid() && out.content == node.content && fresh(out.repr)
    decreases node.repr, 0
  {
    ghost var all := node.content.fields;
    out := new Node(true);
    assert all - all.Keys == map[];
    var left := node.fields.Keys;
    while left != {}
      invariant left <= node.fields.Keys && out.isMap && fresh(out.repr) && out.Valid()
      invariant out.content == Obj(all - left)
      decreases left
    {
      var key :| key in left;
      assert node.Owns(node.fields[key]);
      var child := Clone(node.fields[key]);
      CopyOne(all, left, key);
      out.AddField(key, child);
      left := left - {key};
    }
    assert all - {} == all;
  }

  method CloneList(node: Node) returns (out: Node)
    requires node.Valid() && !node.isMap
    ensures out.Valid() && out.content == node.content && fresh(out.repr)
    decreases node.repr, 0
  {
    ghost var all := node.content.items;
    out := new Node(false);
    for i := 0 to |node.items|
      invariant !out.isMap && fresh(out.repr) && out.Valid()
      invariant out.content == Arr(all[..i])
    {
      assert node.Owns(node.items[i]);
      var child := Clone(node.items[i]);
      out.AddItem(child);
      assert all[..i + 1] == all[..i] + [all[i]];
    }
    assert all[..|all|] == all;
  }

  // ---------------------------------------------------------------- redaction in place

  /** The texts below some fields of an object. */
  ghost function FieldTexts(fields: map<string, Json>, some: set<string>): set<string> {
    set k, t | k in some && k in fields && t in Texts(k, fields[k]) :: t
  }

  ghost function ItemTexts(key: string, items: seq<Json>, n: nat): set<string>
    requires n <= |items|
  {
    set j, t | 0 <= j < n && t in Texts(key, items[j]) :: t
  }

  lemma OneMoreField(g: Guard, fields: map<string, Json>, some: set<string>, k: string)
    requires k in fields
    ensures var seen, more := FieldTexts(fields, some), FieldTexts(fields, some + {k});
      BlockedBy(g, more) == (BlockedBy(g, seen) || BlockedBy(g, Texts(k, fields[k])))
      && FindingsOf(g, more) == FindingsOf(g, seen) + FindingsOf(g, Texts(k, fields[k]))
  {
    assert FieldTexts(fields, some + {k}) == FieldTexts(fields, some) + Texts(k, fields[k]);
  }

  lemma OneMoreItem(g: Guard, key: string, items: seq<Json>, n: nat)
    requires n < |items|
    ensures var seen, more := ItemTexts(key, items, n), ItemTexts(key, items, n + 1);
      BlockedBy(g, more) == (BlockedBy(g, seen) || BlockedBy(g, Texts(key, items[n])))
      && FindingsOf(g, more) == FindingsOf(g, seen) + FindingsOf(g, Texts(key, items[n]))
  {
    assert ItemTexts(key, items, n + 1) == ItemTexts(key, items, n) + Texts(key, items[n]);
  }

  lemma AllFields(key: string, fields: map<string, Json>)
    ensures FieldTexts(fields, fields.Keys) == Texts(key, Obj(fields))
  {
    forall t
      ensures t in FieldTexts(fields, fields.Keys) <==> t in Texts(key, Obj(fields))
    {
    }
  }

  lemma AllItems(key: string, items: seq<Json>)
    ensures ItemTexts(key, items, |items|) == Texts(key, Arr(items))
  {
    forall t
      ensures t in ItemTexts(key, items, |items|) <==> t in Texts(key, Arr(items))
    {
    }
  }

  /** `redactJSONValueInto`: containers are rewritten where they are, a text is given back. */
  method RedactInto(value: Value, g: Guard, key: string)
    returns (next: Value, mutated: bool, blocked: bool, findings: set<string>)
    requires ValidValue(value)
    modifies ReprOf(value)
    ensures ValidValue(next) && ReprOf(next) == old(ReprOf(value)) && (value.Ref? ==> next == value)
    ensures ContentOf(next) == Redacted(g, key, old(ContentOf(value)))
    ensures mutated <==> ContentOf(next) != old(ContentOf(value))
    ensures blocked == BlockedBy(g, Texts(key, old(ContentOf(value))))
    ensures findings == FindingsOf(g, Texts(key, old(ContentOf(value))))
    decreases ReprOf(value), 3
  {
    next := value;
    match value
    case Ref(node) =>
      if node.isMap {
        mutated, blocked, findings := RedactMap(node, g, key);
      } else {
        mutated, blocked, findings := RedactList(node, g, key);
      }
    case Plain(text) =>
      if SkipStringKey(key) {
        return value, false, false, {};
      }
      var result := ApplyGuardrailToText(text, g);
      assert Texts(key, Str(text)) == {text};
      next, mutated, blocked, findings := Plain(result.text), result.redacted, result.blocked, result.findings;
    case Scalar(_) =>
      return value, false, false, {};
  }

  lemma Overwritten(m: map<string, Json>, key: string, first: Json, second: Json)
    ensures m[key := first][key := second] == m[key := second]
  {
  }

  /** The value of one field of an object, whose fields stand for `now`, before it is put back. */
  method RedactChild(node: Node, g: Guard, key: string, ghost now: map<string, Json>)
    returns (next: Value, mutated: bool, blocked: bool, findings: set<string>)
    requires node in node.repr && node.isMap && node.HasFields(now) && key in now
    modifies node.repr
    ensures node.repr == old(node.repr) && node.fields == old(node.fields)
    ensures node.HasFields(now[key := ContentOf(node.fields[key])])
    ensures node.Owns(next) && ReprOf(next) == ReprOf(node.fields[key])
    ensures ContentOf(next) == Redacted(g, key, now[key])
    ensures mutated <==> ContentOf(next) != now[key]
    ensures !mutated ==> ContentOf(node.fields[key]) == now[key]
    ensures blocked == BlockedBy(g, Texts(key, now[key]))
    ensures findings == FindingsOf(g, Texts(key, now[key]))
    decreases node.repr, 0
  {
    var child := node.fields[key];
    assert node.Owns(child);
    next, mutated, blocked, findings := RedactInto(child, g, key);
    forall k | k in node.fields && k != key
      ensures node.Owns(node.fields[k]) && ReprOf(node.fields[k]) == old(ReprOf(node.fields[k]))
      ensures ContentOf(node.fields[k]) == now[k]
    {
      var v := node.fields[k];
      assert old(node.Owns(v)) && old(ReprOf(v)) !! old(ReprOf(child));
      if v.Ref? {
        assert old(v.node.Valid()) && v.node in old(v.node.repr) && v.node !in old(ReprOf(child));
        assert v.node.repr == old(v.node.repr);
        assert v.node.Valid();
      }
    }
    ghost var between := now[key := ContentOf(child)];
    assert node.HasFields(between);
  }

  /** One field of an object, whose fields stand for `now`. */
  method RedactField(node: Node, g: Guard, key: string, ghost now: map<string, Json>)
    returns (mutated: bool, blocked: bool, findings: set<string>)
    requires node in node.repr && node.isMap && node.HasFields(now) && key in now
    modifies node.repr
    ensures node.repr == old(node.repr)
    ensures node.HasFields(now[key := Redacted(g, key, now[key])])
    ensures mutated <==> Redacted(g, key, now[key]) != now[key]
    ensures blocked == BlockedBy(g, Texts(key, now[key]))
    ensures findings == FindingsOf(g, Texts(key, now[key]))
    decreases node.repr, 1
  {
    var next;
    next, mutated, blocked, findings := RedactChild(node, g, key, now);
    ghost var between := now[key := ContentOf(node.fields[key])];
    if mutated {
      node.PutField(key, next, between);
    }
    Overwritten(now, key, ContentOf(old(node.fields)[key]), ContentOf(next));
  }

  /** The fields are met in any order. */
  method RedactMap(node: Node, g: Guard, key: string) returns (mutated: bool, blocked: bool, findings: set<string>)
    requires node.Valid() && node.isMap
    modifies node.repr
    ensures node.Valid() && node.repr == old(node.repr)
    ensures node.content == Redacted(g, key, old(node.content))
    ensures mutated <==> node.content != old(node.content)
    ensures blocked == BlockedBy(g, Texts(key, old(node.content)))
    ensures findings == FindingsOf(g, Texts(key, old(node.content)))
    decreases node.repr, 2
  {
    ghost var before := node.content.fields;
    ghost var now := before;
    mutated, blocked, findings := false, false, {};
    var left := node.fields.Keys;
    ghost var done: set<string> := {};
    while left != {}
      invariant node.repr == old(node.repr) && node in node.repr && node.HasFields(now)
      invariant HalfDone(g, before, now, left, done)
      invariant mutated <==> now != before
      invariant blocked == BlockedBy(g, FieldTexts(before, done))
      invariant findings == FindingsOf(g, FieldTexts(before, done))
      decreases left
    {
      var k :| k in left;
      var childMutated, childBlocked, childFindings := RedactField(node, g, k, now);
      OneMoreField(g, before, done, k);
      OneMoreChange(g, before, now, left, done, k);
      now := now[k := Redacted(g, k, before[k])];
      if childMutated {
        mutated := true;
      }
      if childBlocked {
        blocked := true;
      }
      findings := findings + childFindings;
      left, done := left - {k}, done + {k};
    }
    AllFields(key, before);
    AllDone(g, key, before, now, done);
    node.Became(Obj(now));
  }

  /** The fields in `done` are redacted, those in `left` are as before. */
  ghost predicate HalfDone(g: Guard, before: map<string, Json>, now: map<string, Json>, left: set<string>,
                           done: set<string>)
  {
    && now.Keys == before.Keys == left + done && left !! done
    && (forall k :: k in left ==> now[k] == before[k])
    && (forall k :: k in done ==> now[k] == Redacted(g, k, before[k]))
  }

  lemma OneMoreChange(g: Guard, before: map<string, Json>, now: map<string, Json>, left: set<string>,
                      done: set<string>, k: string)
    requires HalfDone(g, before, now, left, done) && k in left
    ensures var j := Redacted(g, k, before[k]);
      HalfDone(g, before, now[k := j], left - {k}, done + {k})
      && (now[k := j] != before <==> now != before || j != before[k])
  {
    var j := Redacted(g, k, before[k]);
    if now != before {
      var l :| l in before && now[l] != before[l];
      assert now[k := j][l] == now[l];
    } else if j != before[k] {
      assert now[k := j][k] == j;
    }
  }

  lemma AllDone(g: Guard, key: string, before: map<string, Json>, now: map<string, Json>, done: set<string>)
    requires HalfDone(g, before, now, {}, done)
    ensures done == before.Keys && Obj(now) == Redacted(g, key, Obj(before))
  {
    assert now == Redacted(g, key, Obj(before)).fields;
  }

  lemma OneMoreItemChange(before: seq<Json>, now: seq<Json>, i: nat, j: Json)
    requires |now| == |before| && i < |now| && now[i] == before[i]
    ensures now[i := j] != before <==> now != before || j != before[i]
  {
    if now != before {
      var l :| 0 <= l < |before| && now[l] != before[l];
      assert now[i := j][l] == now[l];
    } else if j != before[i] {
      assert now[i := j][i] == j;
    }
  }

  method RedactItem(node: Node, g: Guard, key: string, i: nat, ghost now: seq<Json>)
    returns (mutated: bool, blocked: bool, findings: set<string>)
    requires node in node.repr && !node.isMap && node.HasItems(now) && i < |now|
    modifies node.repr
    ensures node.repr == old(node.repr) && |node.items| == |old(node.items)|
    ensures node.HasItems(now[i := Redacted(g, key, now[i])])
    ensures mutated <==> Redacted(g, key, now[i]) != now[i]
    ensures blocked == BlockedBy(g, Texts(key, now[i]))
    ensures findings == FindingsOf(g, Texts(key, now[i]))
    decreases node.repr, 0
  {
    var child := node.items[i];
    assert node.Owns(child);
    var next;
    next, mutated, blocked, findings := RedactInto(child, g, key);
    forall j | 0 <= j < |node.items| && j != i
      ensures node.Owns(node.items[j]) && ReprOf(node.items[j]) == old(ReprOf(node.items[j]))
      ensures ContentOf(node.items[j]) == now[j]
    {
      var v := node.items[j];
      assert old(node.Owns(v)) && old(ReprOf(v)) !! old(ReprOf(child));
      if v.Ref? {
        assert old(v.node.Valid()) && v.node in old(v.node.repr) && v.node !in old(ReprOf(child));
        assert v.node.repr == old(v.node.repr);
        assert v.node.Valid();
      }
    }
    ghost var between := now[i := ContentOf(child)];
    assert node.HasItems(between);
    if mutated {
      node.PutItem(i, next, between);
    }
    assert between[i := ContentOf(next)] == now[i := Redacted(g, key, now[i])];
  }

  method RedactList(node: Node, g: Guard, key: string) returns (mutated: bool, blocked: bool, findings: set<string>)
    requires node.Valid() && !node.isMap
    modifies node.repr
    ensures node.Valid() && node.repr == old(node.repr)
    ensures node.content == Redacted(g, key, old(node.content))
    ensures mutated <==> node.content != old(node.content)
    ensures blocked == BlockedBy(g, Texts(key, old(node.content)))
    ensures findings == FindingsOf(g, Texts(key, old(node.content)))
    decreases node.repr, 2
  {
    ghost var before := node.content.items;
    ghost var now := before;
    mutated, blocked, findings := false, false, {};
    for i := 0 to |node.items|
      invariant node.repr == old(node.repr) && node in node.repr && node.HasItems(now)
      invariant |node.items| == |before| == |now|
      invariant forall j :: i <= j < |now| ==> now[j] == before[j]
      invariant forall j :: 0 <= j < i ==> now[j] == Redacted(g, key, before[j])
      invariant mutated <==> now != before
      invariant blocked == BlockedBy(g, ItemTexts(key, before, i))
      invariant findings == FindingsOf(g, ItemTexts(key, before, i))
    {
      var childMutated, childBlocked, childFindings := RedactItem(node, g, key, i, now);
      OneMoreItem(g, key, before, i);
      OneMoreItemChange(before, now, i, Redacted(g, key, before[i]));
      now := now[i := Redacted(g, key, before[i])];
      if childMutated {
        mutated := true;
      }
      if childBlocked {
        blocked := true;
      }
      findings := findings + childFindings;
    }
    AllItems(key, before);
    assert now == Redacted(g, key, Arr(before)).items;
    node.Became(Arr(now));
  }

  // ---------------------------------------------------------------- a request or a response

  datatype Policy = Policy(enabled: bool, input: Action, output: Action, rules: seq<Rule>)

  datatype Phase = Input | Output

  /** `guardrailAction` */
  function PhaseAction(policy: Policy, phase: Phase): Action {
    if !policy.enabled then Off else if phase == Input then policy.input else policy.output
  }

  datatype Evaluation = Evaluation(findings: set<string>, redacted: bool, blocked: bool)

  /** What a JSON object is answered with, and what is reported about it. */
  function Evaluate(policy: Policy, phase: Phase, j: Json): (Json, Evaluation) {
    var g := Guard(policy.rules, PhaseAction(policy, phase), false);
    if g.action == Off then (j, Evaluation({}, false, false))
    else
      var texts := Texts("", j);
      var changes := g.action == Redact && !BlockedBy(g, texts) && Redacted(g, "", j) != j;
      (if changes then Redacted(g, "", j) else j, Evaluation(FindingsOf(g, texts), changes, BlockedBy(g, texts)))
  }

  lemma {:induction false} OffForbidsNothing(rules: seq<Rule>, key: string, j: Json)
    ensures !HoldsForbidden(rules, Off, key, j)
    decreases j
  {
    match j
    case Str(_) =>
    case Atom(_) =>
    case Arr(items) =>
      forall i | 0 <= i < |items| ensures !HoldsForbidden(rules, Off, key, items[i]) {
        OffForbidsNothing(rules, key, items[i]);
      }
    case Obj(fields) =>
      forall k | k in fields ensures !HoldsForbidden(rules, Off, k, fields[k]) {
        OffForbidsNothing(rules, k, fields[k]);
      }
  }

  /** Blocked exactly when the policy is on and its action for the phase forbids a text in the tree;
      changed only when that action is to redact, and then every text is. */
  lemma EvaluatedExactly(policy: Policy, phase: Phase, j: Json)
    ensures var action := if phase == Input then policy.input else policy.output;
      var (result, eval) := Evaluate(policy, phase, j);
      && (eval.blocked <==> policy.enabled && HoldsForbidden(policy.rules, action, "", j))
      && (eval.redacted <==> policy.enabled && action == Redact && !eval.blocked && result != j)
      && (forall f :: f in eval.findings <==>
            policy.enabled && action != Off && HoldsFinding(policy.rules, "", j, f))
      && result == if policy.enabled && action == Redact && !eval.blocked
                   then Redacted(Guard(policy.rules, Redact, false), "", j) else j
  {
    var action := if phase == Input then policy.input else policy.output;
    BlockedAnywhere(Guard(policy.rules, action, false), "", j);
    forall f
      ensures f in FindingsOf(Guard(policy.rules, action, false), Texts("", j)) <==>
        action != Off && HoldsFinding(policy.rules, "", j, f)
    {
      FoundAnywhere(Guard(policy.rules, action, false), "", j, f);
    }
    OffForbidsNothing(policy.rules, "", j);
  }

  /** The caller's tree is read, never written; a blocked or unchanged one is handed back itself. */
  method ApplyGuardrailToMap(policy: Policy, phase: Phase, raw: Node) returns (result: Node, eval: Evaluation)
    requires raw.Valid() && raw.isMap
    ensures raw.Valid() && raw.content == old(raw.content)
    ensures (result.content, eval) == Evaluate(policy, phase, raw.content)
    ensures if eval.redacted then result.Valid() && fresh(result.repr) else result == raw
    ensures eval.blocked <==>
      policy.enabled
      && HoldsForbidden(policy.rules, if phase == Input then policy.input else policy.output, "", raw.content)
    ensures eval.redacted <==>
      policy.enabled && (if phase == Input then policy.input else policy.output) == Redact && !eval.blocked
      && result.content != raw.content
  {
    EvaluatedExactly(policy, phase, raw.content);
    var g := Guard(policy.rules, PhaseAction(policy, phase), false);
    if g.action == Off {
      return raw, Evaluation({}, false, false);
    }
    var cloned := Clone(Ref(raw));
    var redacted, mutated, blocked, findings := RedactInto(cloned, g, "");
    if blocked {
      return raw, Evaluation(findings, false, true);
    }
    if g.action == Redact && mutated {
      return redacted.node, Evaluation(findings, true, false);
    }
    return raw, Evaluation(findings, false, false);
  }
}
