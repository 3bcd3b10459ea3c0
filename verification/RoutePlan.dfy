/** `resolveRoutePlan`: a weighted pick among the routes of a model, then its fallbacks. */
module RoutePlan {
  import opened Text

  /** A row of the model table joined with its provider; both enabled. */
  datatype Routed = Routed(id: string, route: string, modelId: string)

  function ByRoute(catalog: seq<Routed>, route: string): (r: Option<Routed>)
    ensures r.Some? ==> r.value in catalog && r.value.route == route
  {
    if catalog == [] then None
    else if catalog[0].route == route then Some(catalog[0])
    else ByRoute(catalog[1..], route)
  }

  function ByModelId(catalog: seq<Routed>, modelId: string): (r: seq<Routed>)
    ensures forall m :: m in r ==> m in catalog && m.modelId == modelId
  {
    if catalog == [] then []
    else (if catalog[0].modelId == modelId then [catalog[0]] else []) + ByModelId(catalog[1..], modelId)
  }

  /** A name with a slash is a route; any other must be the model id of exactly one model. */
  function Resolve(catalog: seq<Routed>, requested: string): (r: Option<Routed>)
    ensures r.Some? ==> r.value in catalog
  {
    var name := Trim(requested);
    if name == "" then None
    else if '/' in name then ByRoute(catalog, name)
    else
      var matches := ByModelId(catalog, name);
      if |matches| == 1 then Some(matches[0]) else None
  }

  /** The `i`-th model is the first with this route. */
  predicate FirstWithRoute(catalog: seq<Routed>, route: string, i: nat) {
    i < |catalog| && catalog[i].route == route && forall j :: 0 <= j < i ==> catalog[j].route != route
  }

  /** The `i`-th model, and no other, has this model id. */
  predicate OnlyWithId(catalog: seq<Routed>, modelId: string, i: nat) {
    i < |catalog| && forall j :: 0 <= j < |catalog| ==> (catalog[j].modelId == modelId <==> j == i)
  }

  lemma {:induction false} ByRouteExactly(catalog: seq<Routed>, route: string)
    ensures ByRoute(catalog, route).Some? ==>
      exists i: nat :: FirstWithRoute(catalog, route, i) && catalog[i] == ByRoute(catalog, route).value
    ensures ByRoute(catalog, route).None? ==> forall i :: 0 <= i < |catalog| ==> catalog[i].route != route
    decreases |catalog|
  {
    if catalog != [] {
      var rest := catalog[1..];
      ByRouteExactly(rest, route);
      if catalog[0].route == route {
        assert FirstWithRoute(catalog, route, 0);
      } else if ByRoute(rest, route).Some? {
        var i: nat :| FirstWithRoute(rest, route, i) && rest[i] == ByRoute(rest, route).value;
        assert forall j :: 1 <= j < i + 1 ==> catalog[j] == rest[j - 1];
        assert FirstWithRoute(catalog, route, i + 1);
      } else {
        assert forall i :: 1 <= i < |catalog| ==> catalog[i] == rest[i - 1];
      }
    }
  }

  /** No model has this model id. */
  predicate NoneWithId(catalog: seq<Routed>, modelId: string) {
    forall i :: 0 <= i < |catalog| ==> catalog[i].modelId != modelId
  }

  lemma OnlyShifts(catalog: seq<Routed>, modelId: string, i: nat)
    requires catalog != [] && catalog[0].modelId != modelId
    ensures OnlyWithId(catalog, modelId, i + 1) <==> OnlyWithId(catalog[1..], modelId, i)
    ensures !OnlyWithId(catalog, modelId, 0)
  {
    var rest := catalog[1..];
    assert forall j :: 0 <= j < |rest| ==> catalog[j + 1] == rest[j];
    if OnlyWithId(rest, modelId, i) {
      forall j | 0 <= j < |catalog| ensures catalog[j].modelId == modelId <==> j == i + 1 {
        assert j > 0 ==> catalog[j] == rest[j - 1];
      }
    }
  }

  lemma NoneShifts(catalog: seq<Routed>, modelId: string)
    requires catalog != []
    ensures NoneWithId(catalog, modelId) <==> catalog[0].modelId != modelId && NoneWithId(catalog[1..], modelId)
    ensures catalog[0].modelId == modelId ==> (OnlyWithId(catalog, modelId, 0) <==> NoneWithId(catalog[1..], modelId))
    ensures forall i: nat :: catalog[0].modelId == modelId && OnlyWithId(catalog, modelId, i) ==> i == 0
  {
    var rest := catalog[1..];
    assert forall j :: 0 <= j < |rest| ==> catalog[j + 1] == rest[j];
    assert forall j :: 1 <= j < |catalog| ==> catalog[j] == rest[j - 1];
  }

  lemma {:induction false} ByModelIdExactly(catalog: seq<Routed>, modelId: string)
    ensures var r := ByModelId(catalog, modelId);
      && (r == [] <==> NoneWithId(catalog, modelId))
      && (|r| == 1 <==> exists i: nat :: OnlyWithId(catalog, modelId, i))
      && (|r| == 1 ==> exists i: nat :: OnlyWithId(catalog, modelId, i) && catalog[i] == r[0])
    decreases |catalog|
  {
    if catalog != [] {
      var rest := catalog[1..];
      ByModelIdExactly(rest, modelId);
      NoneShifts(catalog, modelId);
      if catalog[0].modelId != modelId {
        forall i: nat ensures OnlyWithId(catalog, modelId, i) ==> i > 0 && OnlyWithId(rest, modelId, i - 1) {
          OnlyShifts(catalog, modelId, if i > 0 then i - 1 else 0);
        }
        if |ByModelId(rest, modelId)| == 1 {
          var i: nat :| OnlyWithId(rest, modelId, i) && rest[i] == ByModelId(rest, modelId)[0];
          OnlyShifts(catalog, modelId, i);
          assert catalog[i + 1] == rest[i];
        }
      }
    }
  }

  /** MAIN RESULT. A name, white space around it aside, is that of a model exactly if it contains a slash
      and the model is the first with that route, or contains none and the model is the only one with
      that model id. */
  lemma ResolvesExactly(catalog: seq<Routed>, requested: string, m: Routed)
    ensures var name := Trim(requested);
      Resolve(catalog, requested) == Some(m) <==>
        name != ""
        && if '/' in name then exists i: nat :: FirstWithRoute(catalog, name, i) && catalog[i] == m
           else exists i: nat :: OnlyWithId(catalog, name, i) && catalog[i] == m
  {
    ByRouteExactly(catalog, Trim(requested));
    ByModelIdExactly(catalog, Trim(requested));
  }

  // ---------------------------------------------------------------- the weighted pick

  datatype Weighted = Weighted(route: string, weight: nat)

  datatype Share = Share(model: Routed, weight: nat)

  /** The entries that resolve, in order. */
  function Shares(catalog: seq<Routed>, entries: seq<Weighted>): seq<Share> {
    if entries == [] then []
    else
      var last := entries[|entries| - 1];
      Shares(catalog, entries[..|entries| - 1])
      + match Resolve(catalog, last.route)
        case Some(m) => [Share(m, last.weight)]
        case None => []
  }

  function TotalWeight(shares: seq<Share>): nat {
    if shares == [] then 0 else TotalWeight(shares[..|shares| - 1]) + shares[|shares| - 1].weight
  }

  /** `pick` lies in the stretch of share `i` when the shares are laid end to end. */
  predicate Falls(shares: seq<Share>, pick: nat, i: nat)
    requires i < |shares|
  {
    TotalWeight(shares[..i]) <= pick < TotalWeight(shares[..i + 1])
  }

  lemma {:induction false} WeightsGrow(shares: seq<Share>, i: nat, j: nat)
    requires i <= j <= |shares|
    ensures TotalWeight(shares[..i]) <= TotalWeight(shares[..j])
    decreases j - i
  {
    if i < j {
      assert shares[..j][..j - 1] == shares[..j - 1];
      WeightsGrow(shares, i, j - 1);
    }
  }

  /** A pick falls on one share only. */
  lemma OneShare(shares: seq<Share>, pick: nat, i: nat, j: nat)
    requires i < |shares| && j < |shares| && Falls(shares, pick, i) && Falls(shares, pick, j)
    ensures i == j
  {
    if i < j {
      WeightsGrow(shares, i + 1, j);
    } else if j < i {
      WeightsGrow(shares, j + 1, i);
    }
  }

  /** The walk over the shares; the return after the loop is never reached. */
  method PickShare(shares: seq<Share>, pick: nat) returns (chosen: nat)
    requires pick < TotalWeight(shares)
    ensures chosen < |shares| && Falls(shares, pick, chosen)
  {
    var left: int := pick;
    assert shares[..0] == [] && shares[..|shares|] == shares;
    for i := 0 to |shares|
      invariant left == pick - TotalWeight(shares[..i]) && left >= 0
    {
      assert shares[..i + 1][..i] == shares[..i];
      if left < shares[i].weight {
        return i;
      }
      left := left - shares[i].weight;
    }
    assert false;
  }

  /** The random source: any number below the total. */
  ghost predicate FairSource(random: nat -> nat) {
    forall total: nat :: total > 0 ==> random(total) < total
  }

  /** `pick` falls on a share of model `m`. */
  ghost predicate Picked(shares: seq<Share>, pick: nat, m: Routed) {
    exists i :: 0 <= i < |shares| && shares[i].model == m && Falls(shares, pick, i)
  }

  /** The resolvable shares, and which of them the random source picks. */
  method SelectWeightedCandidate(catalog: seq<Routed>, entries: Option<seq<Weighted>>, random: nat -> nat)
    returns (chosen: Option<Routed>)
    requires FairSource(random)
    ensures chosen.Some? <==> entries.Some? && TotalWeight(Shares(catalog, entries.value)) > 0
    ensures chosen.Some? ==>
      var shares := Shares(catalog, entries.value);
      Picked(shares, random(TotalWeight(shares)), chosen.value)
  {
    if entries.None? || entries.value == [] {
      return None;
    }
    var candidates: seq<Share>, total := [], 0;
    for i := 0 to |entries.value|
      invariant candidates == Shares(catalog, entries.value[..i]) && total == TotalWeight(candidates)
    {
      assert entries.value[..i + 1][..i] == entries.value[..i];
      var route := Resolve(catalog, entries.value[i].route);
      if route.Some? {
        var share := Share(route.value, entries.value[i].weight);
        assert (candidates + [share])[..|candidates|] == candidates;
        candidates := candidates + [share];
        total := total + entries.value[i].weight;
      }
    }
    assert entries.value[..|entries.value|] == entries.value;
    if total <= 0 || candidates == [] {
      return None;
    }
    var i := PickShare(candidates, random(total));
    chosen := Some(candidates[i].model);
  }

  predicate Within(p: nat, lo: nat, hi: nat) {
    lo <= p < hi
  }

  lemma {:induction false} IntervalSize(lo: nat, hi: nat)
    requires lo <= hi
    ensures |set p: nat | p < hi && Within(p, lo, hi)| == hi - lo
    decreases hi - lo
  {
    var all := set p: nat | p < hi && Within(p, lo, hi);
    if lo < hi {
      var top := hi - 1;
      IntervalSize(lo, top);
      assert all == (set p: nat | p < top && Within(p, lo, top)) + {top};
    } else {
      assert all == {};
    }
  }

  /** MAIN RESULT. Of the picks the random source can make, exactly as many choose a share as it has
      weight. */
  lemma SharesAreExact(shares: seq<Share>, i: nat)
    requires i < |shares|
    ensures |set pick: nat | pick < TotalWeight(shares) && Falls(shares, pick, i)| == shares[i].weight
  {
    var lo, hi := TotalWeight(shares[..i]), TotalWeight(shares[..i + 1]);
    assert shares[..i + 1][..i] == shares[..i] && shares[..|shares|] == shares;
    WeightsGrow(shares, i + 1, |shares|);
    assert (set pick: nat | pick < TotalWeight(shares) && Falls(shares, pick, i))
        == (set p: nat | p < hi && Within(p, lo, hi));
    IntervalSize(lo, hi);
  }

  /** The weight the entries give a model. */
  function WeightOf(catalog: seq<Routed>, entries: seq<Weighted>, m: Routed): nat {
    if entries == [] then 0
    else
      var last := entries[|entries| - 1];
      WeightOf(catalog, entries[..|entries| - 1], m)
      + if Resolve(catalog, last.route) == Some(m) then last.weight else 0
  }

  ghost function PicksOf(shares: seq<Share>, m: Routed): set<nat> {
    set pick: nat | pick < TotalWeight(shares) && Picked(shares, pick, m)
  }

  lemma FallsBefore(shares: seq<Share>, s: Share, pick: nat, i: nat)
    requires i < |shares|
    ensures Falls(shares + [s], pick, i) <==> Falls(shares, pick, i)
    ensures Falls(shares, pick, i) ==> pick < TotalWeight(shares)
  {
    var more := shares + [s];
    assert more[..i] == shares[..i] && more[..i + 1] == shares[..i + 1];
    WeightsGrow(shares, i + 1, |shares|);
    assert shares[..|shares|] == shares;
  }

  lemma TotalWeightSnoc(shares: seq<Share>, s: Share)
    ensures TotalWeight(shares + [s]) == TotalWeight(shares) + s.weight
  {
    WithoutLast(shares, s);
  }

  lemma FallsLast(shares: seq<Share>, pick: nat, before: nat, weight: nat)
    requires shares != [] && before == TotalWeight(shares[..|shares| - 1]) && weight == shares[|shares| - 1].weight
    ensures Falls(shares, pick, |shares| - 1) <==> Within(pick, before, before + weight)
  {
    assert shares[..|shares| - 1 + 1] == shares;
  }

  /** The last share takes the picks beyond the others. */
  lemma PickedSnoc(shares: seq<Share>, s: Share, m: Routed, pick: nat)
    ensures Picked(shares + [s], pick, m) <==>
      || Picked(shares, pick, m)
      || (s.model == m && Within(pick, TotalWeight(shares), TotalWeight(shares) + s.weight))
    ensures Picked(shares, pick, m) ==> pick < TotalWeight(shares)
    ensures TotalWeight(shares + [s]) == TotalWeight(shares) + s.weight
  {
    var more := shares + [s];
    TotalWeightSnoc(shares, s);
    WithoutLast(shares, s);
    FallsLast(more, pick, TotalWeight(shares), s.weight);
    assert more[|shares|] == s && forall i :: 0 <= i < |shares| ==> more[i] == shares[i];
    if Picked(shares, pick, m) {
      var i :| 0 <= i < |shares| && shares[i].model == m && Falls(shares, pick, i);
      FallsBefore(shares, s, pick, i);
      assert more[i].model == m && Falls(more, pick, i);
    }
    if Picked(more, pick, m) {
      var i :| 0 <= i < |more| && more[i].model == m && Falls(more, pick, i);
      if i < |shares| {
        FallsBefore(shares, s, pick, i);
        assert shares[i].model == m && Falls(shares, pick, i);
      }
    }
  }

  lemma SizesAdd<T>(a: set<T>, b: set<T>, all: set<T>)
    requires a !! b && forall x :: x in all <==> x in a || x in b
    ensures |all| == |a| + |b|
  {
    assert all == a + b;
  }

  ghost function Stretch(lo: nat, hi: nat): (r: set<nat>)
    requires lo <= hi
    ensures |r| == hi - lo && forall p: nat :: p in r <==> Within(p, lo, hi)
  {
    IntervalSize(lo, hi);
    set p: nat | p < hi && Within(p, lo, hi)
  }

  lemma PicksSnoc(shares: seq<Share>, s: Share, m: Routed)
    ensures |PicksOf(shares + [s], m)| == |PicksOf(shares, m)| + if s.model == m then s.weight else 0
  {
    var lo := TotalWeight(shares);
    var tail := if s.model == m then Stretch(lo, lo + s.weight) else {};
    var before, all := PicksOf(shares, m), PicksOf(shares + [s], m);
    forall pick: nat ensures (pick in all <==> pick in before || pick in tail) && !(pick in before && pick in tail) {
      PickedSnoc(shares, s, m, pick);
    }
    SizesAdd(before, tail, all);
  }

  /** MAIN RESULT. From the setting to the choice: of the picks the random source can make, a model is chosen
      by as many as the entries that resolve to it weigh together. */
  lemma {:induction false} PicksAreWeights(catalog: seq<Routed>, entries: seq<Weighted>, m: Routed)
    ensures |PicksOf(Shares(catalog, entries), m)| == WeightOf(catalog, entries, m)
    decreases |entries|
  {
    if entries != [] {
      var front, last := entries[..|entries| - 1], entries[|entries| - 1];
      PicksAreWeights(catalog, front, m);
      var r := Resolve(catalog, last.route);
      WithNothing(Shares(catalog, front));
      if r.Some? {
        PicksSnoc(Shares(catalog, front), Share(r.value, last.weight), m);
      }
    }
  }

  // ---------------------------------------------------------------- the candidates

  /** The ids and routes of the candidates. */
  function Names(candidates: seq<Routed>): set<string> {
    (set i | 0 <= i < |candidates| :: candidates[i].id) + (set i | 0 <= i < |candidates| :: candidates[i].route)
  }

  /** The candidates after one more fallback. */
  function Consider(catalog: seq<Routed>, candidates: seq<Routed>, fallback: string): seq<Routed> {
    if fallback in Names(candidates) then candidates
    else
      match Resolve(catalog, fallback)
      case None => candidates
      case Some(m) =>
        if m.id in Names(candidates) || m.route in Names(candidates) then candidates else candidates + [m]
  }

  function Candidates(catalog: seq<Routed>, selected: Routed, fallbacks: seq<string>): seq<Routed> {
    if fallbacks == [] then [selected]
    else
      Consider(catalog, Candidates(catalog, selected, fallbacks[..|fallbacks| - 1]), fallbacks[|fallbacks| - 1])
  }

  lemma NamesSnoc(candidates: seq<Routed>, m: Routed)
    ensures Names(candidates + [m]) == Names(candidates) + {m.id, m.route}
  {
    var more := candidates + [m];
    assert more[|candidates|] == m;
    forall x | x in Names(candidates)
      ensures x in Names(more)
    {
      var i :| 0 <= i < |candidates| && (candidates[i].id == x || candidates[i].route == x);
      assert more[i] == candidates[i];
    }
  }

  method WithFallbacks(catalog: seq<Routed>, selected: Routed, list: seq<string>) returns (candidates: seq<Routed>)
    ensures candidates == Candidates(catalog, selected, list)
    ensures candidates != [] && candidates[0] == selected
  {
    candidates := [selected];
    var seen := {selected.id, selected.route};
    for i := 0 to |list|
      invariant candidates == Candidates(catalog, selected, list[..i])
      invariant candidates != [] && candidates[0] == selected && seen == Names(candidates)
    {
      var fallback := list[i];
      assert list[..i + 1][..i] == list[..i];
      if fallback in seen {
        continue;
      }
      var route := Resolve(catalog, fallback);
      if route.None? || route.value.id in seen || route.value.route in seen {
        continue;
      }
      NamesSnoc(candidates, route.value);
      seen := seen + {route.value.id, route.value.route};
      candidates := candidates + [route.value];
    }
    assert list[..|list|] == list;
  }

  method ResolveRoutePlan(catalog: seq<Routed>, requested: string, weights: Routed -> Option<seq<Weighted>>,
                          fallbacks: Routed -> seq<string>, random: nat -> nat)
    returns (plan: Option<seq<Routed>>)
    requires FairSource(random)
    ensures plan.Some? <==> Resolve(catalog, requested).Some?
    ensures plan.Some? ==>
      plan.value != []
      && plan.value == Candidates(catalog, plan.value[0], fallbacks(Resolve(catalog, requested).value))
    ensures plan.Some? ==>
      var primary := Resolve(catalog, requested).value;
      if weights(primary).Some? && TotalWeight(Shares(catalog, weights(primary).value)) > 0 then
        var shares := Shares(catalog, weights(primary).value);
        Picked(shares, random(TotalWeight(shares)), plan.value[0])
      else plan.value[0] == primary
  {
    var primary := Resolve(catalog, requested);
    if primary.None? {
      return None;
    }
    var selected := primary.value;
    var weighted := SelectWeightedCandidate(catalog, weights(primary.value), random);
    if weighted.Some? {
      selected := weighted.value;
    }
    var candidates := WithFallbacks(catalog, selected, fallbacks(primary.value));
    plan := Some(candidates);
  }

  predicate AllApart(candidates: seq<Routed>) {
    forall i, j :: 0 <= i < j < |candidates| ==>
      candidates[i].id != candidates[j].id && candidates[i].route != candidates[j].route
  }

  lemma ApartSnoc(candidates: seq<Routed>, m: Routed)
    requires AllApart(candidates) && m.id !in Names(candidates) && m.route !in Names(candidates)
    ensures AllApart(candidates + [m])
  {
    forall i | 0 <= i < |candidates|
      ensures candidates[i].id != m.id && candidates[i].route != m.route
    {
      assert candidates[i].id in Names(candidates) && candidates[i].route in Names(candidates);
    }
  }

  /** MAIN RESULT. No model is in a plan twice, however the fallback list names it. */
  lemma {:induction false} NoModelTwice(catalog: seq<Routed>, selected: Routed, fallbacks: seq<string>)
    ensures AllApart(Candidates(catalog, selected, fallbacks))
    decreases |fallbacks|
  {
    if fallbacks != [] {
      var front, f := fallbacks[..|fallbacks| - 1], fallbacks[|fallbacks| - 1];
      NoModelTwice(catalog, selected, front);
      var before := Candidates(catalog, selected, front);
      if Candidates(catalog, selected, fallbacks) != before {
        ApartSnoc(before, Resolve(catalog, f).value);
      }
    }
  }

  predicate GoesBy(c: Routed, name: string) {
    c.id == name || c.route == name
  }

  /** A candidate other than `m` takes one of the names `m` is listed or stored under. */
  predicate Shadowed(candidates: seq<Routed>, m: Routed, listed: string) {
    exists i :: 0 <= i < |candidates| && candidates[i] != m
      && (GoesBy(candidates[i], listed) || GoesBy(candidates[i], m.id) || GoesBy(candidates[i], m.route))
  }

  lemma {:induction false} CandidatesGrow(catalog: seq<Routed>, selected: Routed, fallbacks: seq<string>, n: nat)
    requires n <= |fallbacks|
    ensures Candidates(catalog, selected, fallbacks[..n]) <= Candidates(catalog, selected, fallbacks)
    decreases |fallbacks| - n
  {
    if n < |fallbacks| {
      CandidatesGrow(catalog, selected, fallbacks, n + 1);
      assert fallbacks[..n + 1][..n] == fallbacks[..n];
    } else {
      assert fallbacks[..n] == fallbacks;
    }
  }

  /** MAIN RESULT. Every fallback that resolves is in the plan, unless another candidate goes by one
      of its names. */
  lemma FallbacksCovered(catalog: seq<Routed>, selected: Routed, fallbacks: seq<string>, n: nat)
    requires n < |fallbacks| && Resolve(catalog, fallbacks[n]).Some?
    ensures var m := Resolve(catalog, fallbacks[n]).value;
      var plan := Candidates(catalog, selected, fallbacks);
      m in plan || Shadowed(plan, m, fallbacks[n])
  {
    CandidatesGrow(catalog, selected, fallbacks, n);
    CandidatesGrow(catalog, selected, fallbacks, n + 1);
    assert fallbacks[..n + 1][..n] == fallbacks[..n];
    var before := Candidates(catalog, selected, fallbacks[..n]);
    Covers(catalog, before, fallbacks[n], Resolve(catalog, fallbacks[n]).value,
           Candidates(catalog, selected, fallbacks));
  }

  /** `name` is the id or the route of one of them. */
  predicate Taken(candidates: seq<Routed>, name: string) {
    exists i :: 0 <= i < |candidates| && GoesBy(candidates[i], name)
  }

  lemma TakenIsNamed(candidates: seq<Routed>, name: string)
    ensures Taken(candidates, name) <==> name in Names(candidates)
  {
    if name in Names(candidates) {
      var i :| 0 <= i < |candidates| && (candidates[i].id == name || candidates[i].route == name);
      assert GoesBy(candidates[i], name);
    }
  }

  /** MAIN RESULT. A fallback comes last in the plan so far exactly if it resolves and neither the name it is
      listed under nor its id or route is taken; otherwise it adds nothing. */
  lemma FallbackExactly(catalog: seq<Routed>, selected: Routed, fallbacks: seq<string>, n: nat)
    requires n < |fallbacks|
    ensures var before := Candidates(catalog, selected, fallbacks[..n]);
      var m := Resolve(catalog, fallbacks[n]);
      Candidates(catalog, selected, fallbacks[..n + 1]) ==
        if m.Some? && !Taken(before, fallbacks[n]) && !Taken(before, m.value.id) && !Taken(before, m.value.route)
        then before + [m.value] else before
  {
    TakeOneMore(fallbacks, n);
    var before, m := Candidates(catalog, selected, fallbacks[..n]), Resolve(catalog, fallbacks[n]);
    TakenIsNamed(before, fallbacks[n]);
    if m.Some? {
      TakenIsNamed(before, m.value.id);
      TakenIsNamed(before, m.value.route);
    }
  }

  lemma Covers(catalog: seq<Routed>, before: seq<Routed>, fallback: string, m: Routed, plan: seq<Routed>)
    requires Resolve(catalog, fallback) == Some(m)
    requires before <= plan && Consider(catalog, before, fallback) <= plan
    ensures m in plan || Shadowed(plan, m, fallback)
  {
    if fallback in Names(before) || m.id in Names(before) || m.route in Names(before) {
      var x :| x in {fallback, m.id, m.route} && x in Names(before);
      var i :| 0 <= i < |before| && GoesBy(before[i], x);
      assert plan[i] == before[i];
    } else {
      assert (before + [m])[|before|] == m;
    }
  }
}
