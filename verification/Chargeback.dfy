/** `ChargebackReport`: the ledger of one month by department and user. Money is in micro-dollars, so
    rounding each partial sum changes nothing. */
module Chargeback {
  import opened Text
  import opened Calendar
  import opened Ledger

  datatype Counts = Counts(requests: nat, tokens: nat)

  datatype Totals = Totals(counts: Counts, cost: nat)

  function Of(t: Totals, m: Measure): nat {
    match m
    case Requests => t.counts.requests
    case Tokens => t.counts.tokens
    case Spend => t.cost
  }

  function Add(a: Totals, b: Totals): (t: Totals)
    ensures forall m :: Of(t, m) == Of(a, m) + Of(b, m)
  {
    Totals(Counts(a.counts.requests + b.counts.requests, a.counts.tokens + b.counts.tokens), a.cost + b.cost)
  }

  /** Whose rows are added up. */
  datatype Selection = Everyone | Department(name: string) | Member(department: string, user: string)

  predicate Selects(s: Selection, department: string, user: string) {
    match s
    case Everyone => true
    case Department(d) => department == d
    case Member(d, u) => department == d && user == u
  }

  predicate InMonth(r: Row, month: nat) {
    MonthStart(month) <= r.createdAt < MonthStart(month + 1)
  }

  /** The rows of one month. */
  function MonthRows(ledger: seq<Row>, month: nat): seq<Row> {
    if ledger == [] then []
    else
      MonthRows(ledger[..|ledger| - 1], month)
      + if InMonth(ledger[|ledger| - 1], month) then [ledger[|ledger| - 1]] else []
  }

  function WeightIf(m: Measure, r: Row, s: Selection): nat {
    if Selects(s, r.department, r.user) then Weight(m, r) else 0
  }

  function RowSum(rows: seq<Row>, m: Measure, s: Selection): nat {
    if rows == [] then 0 else RowSum(rows[..|rows| - 1], m, s) + WeightIf(m, rows[|rows| - 1], s)
  }

  // ---------------------------------------------------------------- the query

  datatype Group = Group(department: string, user: string, use: Totals)

  predicate IsOf(r: Row, g: Group) {
    r.department == g.department && r.user == g.user
  }

  /** A result of the grouping query on `rows`: one group for each department and user that has
      any, in whatever order the database gives them. */
  ghost predicate IsGrouping(groups: seq<Group>, rows: seq<Row>) {
    && Distinct(groups)
    && (forall i, m :: 0 <= i < |groups| ==>
          Of(groups[i].use, m) == RowSum(rows, m, Member(groups[i].department, groups[i].user)))
    && (forall i :: 0 <= i < |groups| ==> groups[i].use.counts.requests > 0)
    && (forall i :: 0 <= i < |rows| ==> HasGroup(groups, rows[i]))
  }

  predicate Distinct(groups: seq<Group>) {
    forall i, j :: 0 <= i < j < |groups| ==>
      groups[i].department != groups[j].department || groups[i].user != groups[j].user
  }

  predicate HasGroup(groups: seq<Group>, r: Row) {
    exists i :: 0 <= i < |groups| && IsOf(r, groups[i])
  }

  function OfIf(g: Group, m: Measure, s: Selection): nat {
    if Selects(s, g.department, g.user) then Of(g.use, m) else 0
  }

  function GroupSum(groups: seq<Group>, m: Measure, s: Selection): nat {
    if groups == [] then 0 else GroupSum(groups[..|groups| - 1], m, s) + OfIf(groups[|groups| - 1], m, s)
  }

  /** What the groups' sums over some rows add up to. */
  function Spread(groups: seq<Group>, rows: seq<Row>, m: Measure, s: Selection): nat {
    if groups == [] then 0
    else Spread(groups[..|groups| - 1], rows, m, s) + Slice(groups[|groups| - 1], rows, m, s)
  }

  function Slice(g: Group, rows: seq<Row>, m: Measure, s: Selection): nat {
    if Selects(s, g.department, g.user) then RowSum(rows, m, Member(g.department, g.user)) else 0
  }

  lemma {:induction false} SpreadNothing(groups: seq<Group>, m: Measure, s: Selection)
    ensures Spread(groups, [], m, s) == 0
    decreases |groups|
  {
    if groups != [] {
      SpreadNothing(groups[..|groups| - 1], m, s);
    }
  }

  /** What the last row adds to a group: all of it if the row is the group's. */
  lemma SliceLast(g: Group, rows: seq<Row>, m: Measure, s: Selection)
    requires !s.Member? && rows != []
    ensures var r := rows[|rows| - 1];
      Slice(g, rows, m, s) == Slice(g, rows[..|rows| - 1], m, s) + if IsOf(r, g) then WeightIf(m, r, s) else 0
  {
  }

  lemma HasGroupLast(groups: seq<Group>, r: Row)
    requires groups != [] && Distinct(groups)
    ensures HasGroup(groups, r) <==> HasGroup(groups[..|groups| - 1], r) || IsOf(r, groups[|groups| - 1])
    ensures !(HasGroup(groups[..|groups| - 1], r) && IsOf(r, groups[|groups| - 1]))
  {
    var front := groups[..|groups| - 1];
    if HasGroup(front, r) {
      var i :| 0 <= i < |front| && IsOf(r, front[i]);
      assert groups[i] == front[i];
    }
    if HasGroup(groups, r) {
      var i :| 0 <= i < |groups| && IsOf(r, groups[i]);
      assert i < |front| ==> front[i] == groups[i];
    }
  }

  /** The last row adds to exactly one of the groups. */
  lemma {:induction false} SpreadLast(groups: seq<Group>, rows: seq<Row>, m: Measure, s: Selection)
    requires Distinct(groups) && !s.Member? && rows != []
    ensures var r := rows[|rows| - 1];
      Spread(groups, rows, m, s)
        == Spread(groups, rows[..|rows| - 1], m, s) + if HasGroup(groups, r) then WeightIf(m, r, s) else 0
    decreases |groups|
  {
    if groups != [] {
      SpreadLast(groups[..|groups| - 1], rows, m, s);
      SliceLast(groups[|groups| - 1], rows, m, s);
      HasGroupLast(groups, rows[|rows| - 1]);
    }
  }

  lemma {:induction false} SpreadIsRows(groups: seq<Group>, rows: seq<Row>, m: Measure, s: Selection)
    requires Distinct(groups) && !s.Member?
    requires forall i :: 0 <= i < |rows| ==> HasGroup(groups, rows[i])
    ensures Spread(groups, rows, m, s) == RowSum(rows, m, s)
    decreases |rows|
  {
    if rows == [] {
      SpreadNothing(groups, m, s);
    } else {
      SpreadIsRows(groups, rows[..|rows| - 1], m, s);
      SpreadLast(groups, rows, m, s);
    }
  }

  lemma {:induction false} GroupSumIsSpread(groups: seq<Group>, rows: seq<Row>, m: Measure, s: Selection)
    requires forall i :: 0 <= i < |groups| ==>
      Of(groups[i].use, m) == RowSum(rows, m, Member(groups[i].department, groups[i].user))
    ensures GroupSum(groups, m, s) == Spread(groups, rows, m, s)
    decreases |groups|
  {
    if groups != [] {
      GroupSumIsSpread(groups[..|groups| - 1], rows, m, s);
    }
  }

  /** MAIN RESULT. Adding up the groups adds up the rows, for everyone and for each department. */
  lemma GroupsAddUp(groups: seq<Group>, rows: seq<Row>, m: Measure, s: Selection)
    requires IsGrouping(groups, rows) && !s.Member?
    ensures GroupSum(groups, m, s) == RowSum(rows, m, s)
  {
    GroupSumIsSpread(groups, rows, m, s);
    SpreadIsRows(groups, rows, m, s);
  }

  /** What one row adds. */
  function UseOf(r: Row): (t: Totals)
    ensures forall m :: Of(t, m) == Weight(m, r)
  {
    Totals(Counts(1, r.tokens), r.cost)
  }

  lemma RowSumSnoc(rows: seq<Row>, r: Row, m: Measure, s: Selection)
    ensures RowSum(rows + [r], m, s) == RowSum(rows, m, s) + WeightIf(m, r, s)
  {
    WithoutLast(rows, r);
  }

  lemma {:induction false} NoRowsNoSum(rows: seq<Row>, m: Measure, department: string, user: string)
    requires forall i :: 0 <= i < |rows| ==> !(rows[i].department == department && rows[i].user == user)
    ensures RowSum(rows, m, Member(department, user)) == 0
    decreases |rows|
  {
    if rows != [] {
      NoRowsNoSum(rows[..|rows| - 1], m, department, user);
    }
  }

  /** One more row in a group that is there. */
  lemma GroupGrows(groups: seq<Group>, rows: seq<Row>, r: Row, i: nat)
    requires IsGrouping(groups, rows) && i < |groups| && IsOf(r, groups[i])
    ensures IsGrouping(groups[i := groups[i].(use := Add(groups[i].use, UseOf(r)))], rows + [r])
  {
    var more := groups[i := groups[i].(use := Add(groups[i].use, UseOf(r)))];
    forall j, m | 0 <= j < |more|
      ensures Of(more[j].use, m) == RowSum(rows + [r], m, Member(more[j].department, more[j].user))
    {
      RowSumSnoc(rows, r, m, Member(more[j].department, more[j].user));
      assert j != i ==> !IsOf(r, groups[j]);
    }
    forall k | 0 <= k < |rows + [r]| ensures HasGroup(more, (rows + [r])[k]) {
      if k < |rows| {
        assert HasGroup(groups, rows[k]);
        var j :| 0 <= j < |groups| && IsOf(rows[k], groups[j]);
        assert IsOf(rows[k], more[j]);
      } else {
        assert IsOf(r, more[i]);
      }
    }
  }

  /** A row that begins a group. */
  lemma GroupBegins(groups: seq<Group>, rows: seq<Row>, r: Row)
    requires IsGrouping(groups, rows) && !HasGroup(groups, r)
    ensures IsGrouping(groups + [Group(r.department, r.user, UseOf(r))], rows + [r])
  {
    var g := Group(r.department, r.user, UseOf(r));
    var more := groups + [g];
    forall j, m | 0 <= j < |more|
      ensures Of(more[j].use, m) == RowSum(rows + [r], m, Member(more[j].department, more[j].user))
    {
      RowSumSnoc(rows, r, m, Member(more[j].department, more[j].user));
      if j == |groups| {
        forall k | 0 <= k < |rows| ensures !(rows[k].department == r.department && rows[k].user == r.user) {
          assert HasGroup(groups, rows[k]);
        }
        NoRowsNoSum(rows, m, r.department, r.user);
      } else {
        assert !IsOf(r, groups[j]);
      }
    }
    forall k | 0 <= k < |rows + [r]| ensures HasGroup(more, (rows + [r])[k]) {
      if k < |rows| {
        assert HasGroup(groups, rows[k]);
        var j :| 0 <= j < |groups| && IsOf(rows[k], groups[j]);
        assert IsOf(rows[k], more[j]);
      } else {
        assert IsOf(r, more[|groups|]);
      }
    }
  }

  /** Every list of rows can be grouped. */
  lemma {:induction false} GroupingExists(rows: seq<Row>) returns (groups: seq<Group>)
    ensures IsGrouping(groups, rows)
    decreases |rows|
  {
    if rows == [] {
      groups := [];
    } else {
      var before := GroupingExists(rows[..|rows| - 1]);
      var r := rows[|rows| - 1];
      LastOf(rows);
      if HasGroup(before, r) {
        var i: nat :| i < |before| && IsOf(r, before[i]);
        GroupGrows(before, rows[..|rows| - 1], r, i);
        groups := before[i := before[i].(use := Add(before[i].use, UseOf(r)))];
      } else {
        GroupBegins(before, rows[..|rows| - 1], r);
        groups := before + [Group(r.department, r.user, UseOf(r))];
      }
    }
  }

  // ---------------------------------------------------------------- sorting

  predicate Descending<T>(xs: seq<T>, cost: T -> nat) {
    forall i, j :: 0 <= i < j < |xs| ==> cost(xs[i]) >= cost(xs[j])
  }

  /** The elements of one cost, in order. */
  function OfCost<T>(xs: seq<T>, cost: T -> nat, c: nat): seq<T> {
    if xs == [] then []
    else OfCost(xs[..|xs| - 1], cost, c) + if cost(xs[|xs| - 1]) == c then [xs[|xs| - 1]] else []
  }

  function SumOf<T>(xs: seq<T>, f: T -> nat): nat {
    if xs == [] then 0 else SumOf(xs[..|xs| - 1], f) + f(xs[|xs| - 1])
  }

  /** `x` after all elements that cost as much. */
  function Insert<T>(xs: seq<T>, x: T, cost: T -> nat): (r: seq<T>)
    ensures multiset(r) == multiset(xs) + multiset{x}
    ensures |r| == |xs| + 1
  {
    if xs == [] || cost(xs[|xs| - 1]) >= cost(x) then xs + [x]
    else
      assert xs == xs[..|xs| - 1] + [xs[|xs| - 1]];
      Insert(xs[..|xs| - 1], x, cost) + [xs[|xs| - 1]]
  }

  lemma InsertBounded<T>(xs: seq<T>, x: T, cost: T -> nat, c: nat)
    requires cost(x) >= c && forall i :: 0 <= i < |xs| ==> cost(xs[i]) >= c
    ensures forall i :: 0 <= i < |Insert(xs, x, cost)| ==> cost(Insert(xs, x, cost)[i]) >= c
  {
    var r := Insert(xs, x, cost);
    forall i | 0 <= i < |r|
      ensures cost(r[i]) >= c
    {
      assert r[i] in multiset(r);
      assert r[i] in xs || r[i] == x;
    }
  }

  lemma {:induction false} InsertDescends<T>(xs: seq<T>, x: T, cost: T -> nat)
    requires Descending(xs, cost)
    ensures Descending(Insert(xs, x, cost), cost)
    decreases |xs|
  {
    if xs != [] && cost(xs[|xs| - 1]) < cost(x) {
      InsertDescends(xs[..|xs| - 1], x, cost);
      InsertBounded(xs[..|xs| - 1], x, cost, cost(xs[|xs| - 1]));
    }
  }

  lemma OfCostSnoc<T>(xs: seq<T>, x: T, cost: T -> nat, c: nat)
    ensures OfCost(xs + [x], cost, c) == OfCost(xs, cost, c) + if cost(x) == c then [x] else []
  {
    WithoutLast(xs, x);
  }

  /** Elements that cost the same stay in order. */
  lemma {:induction false} InsertStable<T>(xs: seq<T>, x: T, cost: T -> nat, c: nat)
    ensures OfCost(Insert(xs, x, cost), cost, c) == OfCost(xs, cost, c) + if cost(x) == c then [x] else []
    decreases |xs|
  {
    if xs == [] || cost(xs[|xs| - 1]) >= cost(x) {
      OfCostSnoc(xs, x, cost, c);
    } else {
      var front, last := xs[..|xs| - 1], xs[|xs| - 1];
      InsertStable(front, x, cost, c);
      OfCostSnoc(Insert(front, x, cost), last, cost, c);
      WithNothing(OfCost(front, cost, c));
    }
  }

  /** A stable sort, most expensive first, as `sort.SliceStable` makes it. */
  function Sorted<T>(xs: seq<T>, cost: T -> nat): (r: seq<T>)
    ensures multiset(r) == multiset(xs)
  {
    if xs == [] then []
    else
      assert xs == xs[..|xs| - 1] + [xs[|xs| - 1]];
      Insert(Sorted(xs[..|xs| - 1], cost), xs[|xs| - 1], cost)
  }

  /** MAIN RESULT. Sorting gives a descending permutation that keeps equal costs in order. */
  lemma {:induction false} SortedIsSorted<T>(xs: seq<T>, cost: T -> nat, c: nat)
    ensures Descending(Sorted(xs, cost), cost)
    ensures OfCost(Sorted(xs, cost), cost, c) == OfCost(xs, cost, c)
    decreases |xs|
  {
    if xs != [] {
      SortedIsSorted(xs[..|xs| - 1], cost, c);
      InsertDescends(Sorted(xs[..|xs| - 1], cost), xs[|xs| - 1], cost);
      InsertStable(Sorted(xs[..|xs| - 1], cost), xs[|xs| - 1], cost, c);
    }
  }

  lemma {:induction false} InsertSum<T>(xs: seq<T>, x: T, cost: T -> nat, f: T -> nat)
    ensures SumOf(Insert(xs, x, cost), f) == SumOf(xs, f) + f(x)
    decreases |xs|
  {
    if xs == [] || cost(xs[|xs| - 1]) >= cost(x) {
      assert (xs + [x])[..|xs|] == xs;
    } else {
      InsertSum(xs[..|xs| - 1], x, cost, f);
      assert Insert(xs, x, cost)[..|xs|] == Insert(xs[..|xs| - 1], x, cost);
    }
  }

  lemma {:induction false} SortedSum<T>(xs: seq<T>, cost: T -> nat, f: T -> nat)
    ensures SumOf(Sorted(xs, cost), f) == SumOf(xs, f)
    decreases |xs|
  {
    if xs != [] {
      SortedSum(xs[..|xs| - 1], cost, f);
      InsertSum(Sorted(xs[..|xs| - 1], cost), xs[|xs| - 1], cost, f);
    }
  }

  // ---------------------------------------------------------------- the report

  datatype UserLine = UserLine(user: string, use: Totals)

  datatype DepartmentLine = DepartmentLine(name: string, use: Totals, budget: nat, users: seq<UserLine>)

  datatype Report = Report(use: Totals, departments: seq<DepartmentLine>)

  datatype Budget = Budget(forDepartment: bool, name: string, limit: nat, active: bool)

  const NOTHING := Totals(Counts(0, 0), 0)

  /** Departments in the order they first appear. */
  function Names(groups: seq<Group>): seq<string> {
    if groups == [] then []
    else
      var before, last := Names(groups[..|groups| - 1]), groups[|groups| - 1].department;
      if last in before then before else before + [last]
  }

  predicate AllDifferent(names: seq<string>) {
    forall i, j :: 0 <= i < j < |names| ==> names[i] != names[j]
  }

  lemma {:induction false} NamesListed(groups: seq<Group>)
    ensures var names := Names(groups);
      AllDifferent(names)
      && (forall i :: 0 <= i < |groups| ==> groups[i].department in names)
    decreases |groups|
  {
    if groups != [] {
      var front, last := groups[..|groups| - 1], groups[|groups| - 1].department;
      NamesListed(front);
      if last !in Names(front) {
        DifferentSnoc(Names(front), last);
      }
      forall i | 0 <= i < |groups| ensures groups[i].department in Names(groups) {
        if i < |front| {
          assert front[i].department in Names(front);
        }
      }
    }
  }

  lemma DifferentSnoc(names: seq<string>, name: string)
    requires AllDifferent(names) && name !in names
    ensures AllDifferent(names + [name])
    ensures name in names + [name] && forall n :: n in names ==> n in names + [name]
  {
    WithoutLast(names, name);
  }

  function TotalUse(groups: seq<Group>): Totals {
    if groups == [] then NOTHING else Add(TotalUse(groups[..|groups| - 1]), groups[|groups| - 1].use)
  }

  function DepartmentUse(groups: seq<Group>, name: string): Totals {
    if groups == [] then NOTHING
    else
      var before, last := DepartmentUse(groups[..|groups| - 1], name), groups[|groups| - 1];
      if last.department == name then Add(before, last.use) else before
  }

  function UsersOf(groups: seq<Group>, name: string): seq<UserLine> {
    if groups == [] then []
    else
      var before, last := UsersOf(groups[..|groups| - 1], name), groups[|groups| - 1];
      if last.department == name then before + [UserLine(last.user, last.use)] else before
  }

  /** The last active budget of a department. */
  function BudgetOf(budgets: seq<Budget>, name: string): nat {
    if budgets == [] then 0
    else
      var last := budgets[|budgets| - 1];
      if last.forDepartment && last.active && last.name == name then last.limit
      else BudgetOf(budgets[..|budgets| - 1], name)
  }

  function Spent(u: UserLine): nat {
    u.use.cost
  }

  function DepartmentSpent(d: DepartmentLine): nat {
    d.use.cost
  }

  function LineOf(groups: seq<Group>, budgets: seq<Budget>, name: string): DepartmentLine {
    DepartmentLine(name, DepartmentUse(groups, name), BudgetOf(budgets, name), UsersOf(groups, name))
  }

  function SortUsers(d: DepartmentLine): DepartmentLine {
    d.(users := Sorted(d.users, Spent))
  }

  function Lines(groups: seq<Group>): map<string, DepartmentLine> {
    map n | n in Names(groups) :: LineOf(groups, [], n)
  }

  function Extended(d: DepartmentLine, g: Group): DepartmentLine {
    d.(use := Add(d.use, g.use), users := d.users + [UserLine(g.user, g.use)])
  }

  lemma LinesSnoc(groups: seq<Group>, g: Group)
    ensures Names(groups + [g])
      == if g.department in Names(groups) then Names(groups) else Names(groups) + [g.department]
    ensures TotalUse(groups + [g]) == Add(TotalUse(groups), g.use)
    ensures Lines(groups + [g]) == Lines(groups)[g.department := Extended(
      if g.department in Names(groups) then Lines(groups)[g.department]
      else DepartmentLine(g.department, NOTHING, 0, []), g)]
  {
    assert (groups + [g])[..|groups|] == groups;
    if g.department !in Names(groups) {
      NoneYet(groups, g.department);
    }
  }

  method CollectDepartments(rows: seq<Group>)
    returns (use: Totals, byDept: map<string, DepartmentLine>, deptOrder: seq<string>)
    ensures use == TotalUse(rows) && deptOrder == Names(rows)
    ensures byDept == Lines(rows)
  {
    use, byDept, deptOrder := NOTHING, map[], [];
    for i := 0 to |rows|
      invariant use == TotalUse(rows[..i]) && deptOrder == Names(rows[..i])
      invariant byDept == Lines(rows[..i])
    {
      var row := rows[i];
      assert rows[..i + 1] == rows[..i] + [row];
      LinesSnoc(rows[..i], row);
      if row.department !in byDept {
        byDept := byDept[row.department := DepartmentLine(row.department, NOTHING, 0, [])];
        deptOrder := deptOrder + [row.department];
      }
      byDept := byDept[row.department := Extended(byDept[row.department], row)];
      use := Add(use, row.use);
    }
    assert rows[..|rows|] == rows;
  }

  lemma {:induction false} NoneYet(groups: seq<Group>, name: string)
    requires name !in Names(groups)
    ensures DepartmentUse(groups, name) == NOTHING && UsersOf(groups, name) == []
    decreases |groups|
  {
    if groups != [] {
      NoneYet(groups[..|groups| - 1], name);
    }
  }

  function LinesInOrder(groups: seq<Group>, budgets: seq<Budget>, names: seq<string>): seq<DepartmentLine> {
    if names == [] then []
    else
      LinesInOrder(groups, budgets, names[..|names| - 1]) + [SortUsers(LineOf(groups, budgets, names[|names| - 1]))]
  }

  function ReportOf(groups: seq<Group>, budgets: seq<Budget>): Report {
    Report(TotalUse(groups), Sorted(LinesInOrder(groups, budgets, Names(groups)), DepartmentSpent))
  }

  method ApplyBudgets(rows: seq<Group>, budgets: seq<Budget>, lines: map<string, DepartmentLine>)
    returns (byDept: map<string, DepartmentLine>)
    requires lines == Lines(rows)
    ensures byDept == map n | n in Names(rows) :: LineOf(rows, budgets, n)
  {
    byDept := lines;
    for i := 0 to |budgets|
      invariant byDept == map n | n in Names(rows) :: LineOf(rows, budgets[..i], n)
    {
      var budget := budgets[i];
      assert budgets[..i + 1][..i] == budgets[..i];
      if budget.forDepartment && budget.active && budget.name in byDept {
        byDept := byDept[budget.name := byDept[budget.name].(budget := budget.limit)];
      }
    }
    assert budgets[..|budgets|] == budgets;
  }

  method ChargebackReport(rows: seq<Group>, budgets: seq<Budget>) returns (report: Report)
    ensures report == ReportOf(rows, budgets)
  {
    var use, lines, deptOrder := CollectDepartments(rows);
    var byDept := ApplyBudgets(rows, budgets, lines);
    var departments := [];
    for i := 0 to |deptOrder|
      invariant departments == LinesInOrder(rows, budgets, deptOrder[..i])
    {
      TakeOneMore(deptOrder, i);
      departments := departments + [SortUsers(byDept[deptOrder[i]])];
    }
    assert deptOrder[..|deptOrder|] == deptOrder;
    report := Report(use, Sorted(departments, DepartmentSpent));
  }

  // ---------------------------------------------------------------- the report is the ledger

  function LineMeasure(m: Measure): DepartmentLine -> nat {
    (d: DepartmentLine) => Of(d.use, m)
  }

  function UserMeasure(m: Measure): UserLine -> nat {
    (u: UserLine) => Of(u.use, m)
  }

  lemma {:induction false} TotalIsSum(groups: seq<Group>, m: Measure)
    ensures Of(TotalUse(groups), m) == GroupSum(groups, m, Everyone)
    decreases |groups|
  {
    if groups != [] {
      TotalIsSum(groups[..|groups| - 1], m);
    }
  }

  lemma {:induction false} DepartmentIsSum(groups: seq<Group>, m: Measure, name: string)
    ensures Of(DepartmentUse(groups, name), m) == GroupSum(groups, m, Department(name))
    decreases |groups|
  {
    if groups != [] {
      DepartmentIsSum(groups[..|groups| - 1], m, name);
    }
  }

  lemma SumSnoc<T>(xs: seq<T>, x: T, f: T -> nat)
    ensures SumOf(xs + [x], f) == SumOf(xs, f) + f(x)
  {
    assert (xs + [x])[..|xs|] == xs;
  }

  lemma OneMoreUser(users: seq<UserLine>, u: UserLine, m: Measure)
    ensures SumOf(users + [u], UserMeasure(m)) == SumOf(users, UserMeasure(m)) + Of(u.use, m)
  {
    SumSnoc(users, u, UserMeasure(m));
  }

  lemma {:induction false} UsersAddUp(groups: seq<Group>, m: Measure, name: string)
    ensures SumOf(UsersOf(groups, name), UserMeasure(m)) == Of(DepartmentUse(groups, name), m)
    decreases |groups|
  {
    if groups != [] {
      var front, last := groups[..|groups| - 1], groups[|groups| - 1];
      UsersAddUp(front, m, name);
      if last.department == name {
        OneMoreUser(UsersOf(front, name), UserLine(last.user, last.use), m);
      }
    }
  }

  function NamedSum(groups: seq<Group>, m: Measure, names: seq<string>): nat {
    if names == [] then 0
    else NamedSum(groups, m, names[..|names| - 1]) + Of(DepartmentUse(groups, names[|names| - 1]), m)
  }

  /** One more group adds to exactly one of the named departments. */
  lemma {:induction false} NamedSumLast(groups: seq<Group>, m: Measure, names: seq<string>)
    requires groups != [] && AllDifferent(names)
    ensures var last := groups[|groups| - 1];
      NamedSum(groups, m, names)
        == NamedSum(groups[..|groups| - 1], m, names) + if last.department in names then Of(last.use, m) else 0
    decreases |names|
  {
    if names != [] {
      NamedSumLast(groups, m, names[..|names| - 1]);
    }
  }

  lemma KnownDepartment(groups: seq<Group>, m: Measure)
    requires groups != [] && groups[|groups| - 1].department in Names(groups[..|groups| - 1])
    ensures NamedSum(groups, m, Names(groups))
      == NamedSum(groups[..|groups| - 1], m, Names(groups[..|groups| - 1])) + Of(groups[|groups| - 1].use, m)
  {
    NamesListed(groups);
    NamedSumLast(groups, m, Names(groups));
  }

  lemma NewDepartment(groups: seq<Group>, m: Measure)
    requires groups != [] && groups[|groups| - 1].department !in Names(groups[..|groups| - 1])
    ensures NamedSum(groups, m, Names(groups))
      == NamedSum(groups[..|groups| - 1], m, Names(groups[..|groups| - 1])) + Of(groups[|groups| - 1].use, m)
  {
    var front, last := groups[..|groups| - 1], groups[|groups| - 1];
    NamesListed(front);
    NamedSumLast(groups, m, Names(front));
    NoneYet(front, last.department);
    NamedSumSnoc(groups, m, Names(front), last.department);
  }

  lemma NamedSumSnoc(groups: seq<Group>, m: Measure, names: seq<string>, name: string)
    ensures NamedSum(groups, m, names + [name]) == NamedSum(groups, m, names) + Of(DepartmentUse(groups, name), m)
  {
    assert (names + [name])[..|names|] == names;
  }

  lemma {:induction false} DepartmentsAddUp(groups: seq<Group>, m: Measure)
    ensures NamedSum(groups, m, Names(groups)) == Of(TotalUse(groups), m)
    decreases |groups|
  {
    if groups != [] {
      var front := groups[..|groups| - 1];
      DepartmentsAddUp(front, m);
      if groups[|groups| - 1].department in Names(front) {
        KnownDepartment(groups, m);
      } else {
        NewDepartment(groups, m);
      }
    }
  }

  lemma {:induction false} LinesSum(groups: seq<Group>, budgets: seq<Budget>, names: seq<string>, m: Measure)
    ensures SumOf(LinesInOrder(groups, budgets, names), LineMeasure(m)) == NamedSum(groups, m, names)
    decreases |names|
  {
    if names != [] {
      var before := LinesInOrder(groups, budgets, names[..|names| - 1]);
      LinesSum(groups, budgets, names[..|names| - 1], m);
      assert LinesInOrder(groups, budgets, names)[..|before|] == before;
    }
  }

  lemma {:induction false} LinesAre(groups: seq<Group>, budgets: seq<Budget>, names: seq<string>, d: DepartmentLine)
    requires d in LinesInOrder(groups, budgets, names)
    ensures d == SortUsers(LineOf(groups, budgets, d.name)) && d.name in names
    decreases |names|
  {
    var front := names[..|names| - 1];
    if d in LinesInOrder(groups, budgets, front) {
      LinesAre(groups, budgets, front, d);
    }
  }

  lemma {:induction false} UsersAre(groups: seq<Group>, name: string, u: UserLine)
    requires u in UsersOf(groups, name)
    ensures exists i :: 0 <= i < |groups| && groups[i] == Group(name, u.user, u.use)
    decreases |groups|
  {
    var front, last := groups[..|groups| - 1], groups[|groups| - 1];
    if u in UsersOf(front, name) {
      UsersAre(front, name, u);
      var i :| 0 <= i < |front| && front[i] == Group(name, u.user, u.use);
      assert groups[i] == front[i];
    } else {
      assert last == Group(name, u.user, u.use);
    }
  }

  lemma InSorted<T>(xs: seq<T>, cost: T -> nat, x: T)
    ensures x in Sorted(xs, cost) <==> x in xs
  {
    assert x in multiset(Sorted(xs, cost)) <==> x in multiset(xs);
  }

  /** MAIN RESULT. The report's total is the month's total; its departments add up to it and are in
      descending order. */
  lemma ReportTotals(ledger: seq<Row>, month: nat, groups: seq<Group>, budgets: seq<Budget>, m: Measure)
    requires IsGrouping(groups, MonthRows(ledger, month))
    ensures var report := ReportOf(groups, budgets);
      Of(report.use, m) == RowSum(MonthRows(ledger, month), m, Everyone)
      && SumOf(report.departments, LineMeasure(m)) == Of(report.use, m)
      && Descending(report.departments, DepartmentSpent)
  {
    var lines := LinesInOrder(groups, budgets, Names(groups));
    TotalIsSum(groups, m);
    GroupsAddUp(groups, MonthRows(ledger, month), m, Everyone);
    SortedSum(lines, DepartmentSpent, LineMeasure(m));
    LinesSum(groups, budgets, Names(groups), m);
    DepartmentsAddUp(groups, m);
    SortedIsSorted(lines, DepartmentSpent, 0);
  }

  /** MAIN RESULT. Each department's line is the department's total in the ledger; its users add up to
      it, are in descending order, and each stands at their own total. */
  lemma ReportLines(ledger: seq<Row>, month: nat, groups: seq<Group>, budgets: seq<Budget>, m: Measure,
                    d: DepartmentLine)
    requires IsGrouping(groups, MonthRows(ledger, month)) && d in ReportOf(groups, budgets).departments
    ensures Of(d.use, m) == RowSum(MonthRows(ledger, month), m, Department(d.name))
    ensures SumOf(d.users, UserMeasure(m)) == Of(d.use, m) && Descending(d.users, Spent)
    ensures d.budget == BudgetOf(budgets, d.name)
    ensures forall u :: u in d.users ==> Of(u.use, m) == RowSum(MonthRows(ledger, month), m, Member(d.name, u.user))
  {
    InSorted(LinesInOrder(groups, budgets, Names(groups)), DepartmentSpent, d);
    LinesAre(groups, budgets, Names(groups), d);
    DepartmentIsSum(groups, m, d.name);
    GroupsAddUp(groups, MonthRows(ledger, month), m, Department(d.name));
    UsersAddUp(groups, m, d.name);
    SortedSum(UsersOf(groups, d.name), Spent, UserMeasure(m));
    SortedIsSorted(UsersOf(groups, d.name), Spent, 0);
    forall u | u in d.users
      ensures Of(u.use, m) == RowSum(MonthRows(ledger, month), m, Member(d.name, u.user))
    {
      InSorted(UsersOf(groups, d.name), Spent, u);
      UsersAre(groups, d.name, u);
    }
  }

  /** The requests, tokens and cost of the rows of a month that `own` picks, counted in the ledger. */
  function LedgerUse(ledger: seq<Row>, month: nat, own: Row -> bool): Totals {
    Totals(Counts(Sum(ledger, r => own(r) && MonthOf(r.createdAt) == month, _ => 1),
                  Sum(ledger, r => own(r) && MonthOf(r.createdAt) == month, (r: Row) => r.tokens)),
           Sum(ledger, r => own(r) && MonthOf(r.createdAt) == month, (r: Row) => r.cost))
  }

  lemma MonthSumLast(ledger: seq<Row>, month: nat, m: Measure, s: Selection)
    requires ledger != []
    ensures var front, r := ledger[..|ledger| - 1], ledger[|ledger| - 1];
      RowSum(MonthRows(ledger, month), m, s)
        == RowSum(MonthRows(front, month), m, s) + if MonthOf(r.createdAt) == month then WeightIf(m, r, s) else 0
  {
    var front, r := ledger[..|ledger| - 1], ledger[|ledger| - 1];
    OneMonth(r.createdAt, month);
    if InMonth(r, month) {
      RowSumSnoc(MonthRows(front, month), r, m, s);
    } else {
      WithNothing(MonthRows(front, month));
    }
  }

  lemma {:induction false} MonthSumIs(ledger: seq<Row>, month: nat, m: Measure, s: Selection, which: Row -> bool,
                                      what: Row -> nat)
    requires forall r :: which(r) == (Selects(s, r.department, r.user) && MonthOf(r.createdAt) == month)
    requires forall r :: what(r) == Weight(m, r)
    ensures RowSum(MonthRows(ledger, month), m, s) == Sum(ledger, which, what)
    decreases |ledger|
  {
    if ledger != [] {
      MonthSumIs(ledger[..|ledger| - 1], month, m, s, which, what);
      MonthSumLast(ledger, month, m, s);
    }
  }

  /** Totals that agree with the sums over a selection are the ledger's. */
  lemma UseIs(ledger: seq<Row>, month: nat, use: Totals, s: Selection, own: Row -> bool)
    requires forall r :: own(r) == Selects(s, r.department, r.user)
    requires forall m :: Of(use, m) == RowSum(MonthRows(ledger, month), m, s)
    ensures use == LedgerUse(ledger, month, own)
  {
    MonthSumIs(ledger, month, Requests, s, r => own(r) && MonthOf(r.createdAt) == month, _ => 1);
    MonthSumIs(ledger, month, Tokens, s, r => own(r) && MonthOf(r.createdAt) == month, (r: Row) => r.tokens);
    MonthSumIs(ledger, month, Spend, s, r => own(r) && MonthOf(r.createdAt) == month, (r: Row) => r.cost);
    assert use.counts.requests == Of(use, Requests) && use.counts.tokens == Of(use, Tokens);
    assert use.cost == Of(use, Spend);
  }

  /** MAIN RESULT. The report on the ledger itself: its total, each department and each user in it have the
      number, the tokens and the cost of their rows of the month. */
  lemma ReportIsLedger(ledger: seq<Row>, month: nat, groups: seq<Group>, budgets: seq<Budget>)
    requires IsGrouping(groups, MonthRows(ledger, month))
    ensures var report := ReportOf(groups, budgets);
      && report.use == LedgerUse(ledger, month, _ => true)
      && forall d :: d in report.departments ==>
           && d.use == LedgerUse(ledger, month, (r: Row) => r.department == d.name)
           && forall u :: u in d.users ==>
                u.use == LedgerUse(ledger, month, (r: Row) => r.department == d.name && r.user == u.user)
  {
    var report := ReportOf(groups, budgets);
    forall m ensures Of(report.use, m) == RowSum(MonthRows(ledger, month), m, Everyone) {
      ReportTotals(ledger, month, groups, budgets, m);
    }
    UseIs(ledger, month, report.use, Everyone, _ => true);
    forall d | d in report.departments
      ensures d.use == LedgerUse(ledger, month, (r: Row) => r.department == d.name)
      ensures forall u :: u in d.users ==>
        u.use == LedgerUse(ledger, month, (r: Row) => r.department == d.name && r.user == u.user)
    {
      LineIsLedger(ledger, month, groups, budgets, d);
    }
  }

  lemma LineIsLedger(ledger: seq<Row>, month: nat, groups: seq<Group>, budgets: seq<Budget>, d: DepartmentLine)
    requires IsGrouping(groups, MonthRows(ledger, month)) && d in ReportOf(groups, budgets).departments
    ensures d.use == LedgerUse(ledger, month, (r: Row) => r.department == d.name)
    ensures forall u :: u in d.users ==>
      u.use == LedgerUse(ledger, month, (r: Row) => r.department == d.name && r.user == u.user)
  {
    forall m ensures Of(d.use, m) == RowSum(MonthRows(ledger, month), m, Department(d.name)) {
      ReportLines(ledger, month, groups, budgets, m, d);
    }
    UseIs(ledger, month, d.use, Department(d.name), (r: Row) => r.department == d.name);
    forall u | u in d.users
      ensures u.use == LedgerUse(ledger, month, (r: Row) => r.department == d.name && r.user == u.user)
    {
      forall m ensures Of(u.use, m) == RowSum(MonthRows(ledger, month), m, Member(d.name, u.user)) {
        ReportLines(ledger, month, groups, budgets, m, d);
      }
      UseIs(ledger, month, u.use, Member(d.name, u.user), (r: Row) => r.department == d.name && r.user == u.user);
    }
  }

  /** An active budget of the department. */
  predicate InForce(b: Budget, name: string) {
    b.forDepartment && b.active && b.name == name
  }

  /** A department's budget is the limit of the last one in force for it, here the `n`-th, and zero if there
      is none. */
  lemma {:induction false} BudgetExactly(budgets: seq<Budget>, name: string, n: nat)
    requires n <= |budgets| && forall i :: n <= i < |budgets| ==> !InForce(budgets[i], name)
    requires n > 0 ==> InForce(budgets[n - 1], name)
    ensures BudgetOf(budgets, name) == if n == 0 then 0 else budgets[n - 1].limit
    decreases |budgets|
  {
    if n < |budgets| {
      assert !InForce(budgets[|budgets| - 1], name);
      BudgetExactly(budgets[..|budgets| - 1], name, n);
    }
  }

  // ---------------------------------------------------------------- every line once

  predicate DifferentBy<T>(xs: seq<T>, key: T -> string) {
    forall i, j :: 0 <= i < j < |xs| ==> key(xs[i]) != key(xs[j])
  }

  lemma InInsert<T>(xs: seq<T>, x: T, cost: T -> nat, y: T)
    requires y in Insert(xs, x, cost)
    ensures y in xs || y == x
  {
    assert y in multiset(Insert(xs, x, cost));
  }

  lemma {:induction false} InsertDiffers<T>(xs: seq<T>, x: T, cost: T -> nat, key: T -> string)
    requires DifferentBy(xs, key) && forall y :: y in xs ==> key(y) != key(x)
    ensures DifferentBy(Insert(xs, x, cost), key)
    decreases |xs|
  {
    if xs != [] && cost(xs[|xs| - 1]) < cost(x) {
      var front, last := xs[..|xs| - 1], xs[|xs| - 1];
      InsertDiffers(front, x, cost, key);
      var r := Insert(front, x, cost);
      forall i | 0 <= i < |r|
        ensures key(r[i]) != key(last)
      {
        InInsert(front, x, cost, r[i]);
        assert last in xs;
      }
    }
  }

  lemma {:induction false} SortedDiffers<T>(xs: seq<T>, cost: T -> nat, key: T -> string)
    requires DifferentBy(xs, key)
    ensures DifferentBy(Sorted(xs, cost), key)
    decreases |xs|
  {
    if xs != [] {
      var front, last := xs[..|xs| - 1], xs[|xs| - 1];
      SortedDiffers(front, cost, key);
      forall y | y in Sorted(front, cost)
        ensures key(y) != key(last)
      {
        InSorted(front, cost, y);
        var i :| 0 <= i < |front| && front[i] == y;
        assert xs[i] == y;
      }
      InsertDiffers(Sorted(front, cost), last, cost, key);
    }
  }

  function LineName(d: DepartmentLine): string {
    d.name
  }

  function LineUser(u: UserLine): string {
    u.user
  }

  lemma {:induction false} LinesNamed(groups: seq<Group>, budgets: seq<Budget>, names: seq<string>)
    ensures var lines := LinesInOrder(groups, budgets, names);
      |lines| == |names| && (forall i :: 0 <= i < |names| ==> lines[i].name == names[i])
    decreases |names|
  {
    if names != [] {
      LinesNamed(groups, budgets, names[..|names| - 1]);
      assert SortUsers(LineOf(groups, budgets, names[|names| - 1])).name == names[|names| - 1];
    }
  }

  lemma LinesDiffer(groups: seq<Group>, budgets: seq<Budget>, names: seq<string>)
    requires AllDifferent(names)
    ensures DifferentBy(LinesInOrder(groups, budgets, names), LineName)
  {
    LinesNamed(groups, budgets, names);
  }

  lemma {:induction false} UsersDiffer(groups: seq<Group>, name: string)
    requires Distinct(groups)
    ensures DifferentBy(UsersOf(groups, name), LineUser)
    decreases |groups|
  {
    if groups != [] {
      var front, last := groups[..|groups| - 1], groups[|groups| - 1];
      UsersDiffer(front, name);
      if last.department == name {
        forall u | u in UsersOf(front, name)
          ensures u.user != last.user
        {
          UsersAre(front, name, u);
          var i :| 0 <= i < |front| && front[i] == Group(name, u.user, u.use);
          assert groups[i] == front[i];
        }
      }
    }
  }

  lemma {:induction false} UserListed(groups: seq<Group>, i: nat)
    requires i < |groups|
    ensures UserLine(groups[i].user, groups[i].use) in UsersOf(groups, groups[i].department)
    decreases |groups|
  {
    if i < |groups| - 1 {
      UserListed(groups[..|groups| - 1], i);
    }
  }

  lemma {:induction false} NamesAreGroups(groups: seq<Group>, name: string)
    requires name in Names(groups)
    ensures exists i :: 0 <= i < |groups| && groups[i].department == name
    decreases |groups|
  {
    var front := groups[..|groups| - 1];
    if name in Names(front) {
      NamesAreGroups(front, name);
      var i :| 0 <= i < |front| && front[i].department == name;
      assert groups[i].department == name;
    } else {
      assert groups[|groups| - 1].department == name;
    }
  }

  ghost predicate HasRow(rows: seq<Row>, s: Selection) {
    exists r :: r in rows && Selects(s, r.department, r.user)
  }

  lemma {:induction false} RequestsNeedRows(rows: seq<Row>, s: Selection)
    requires RowSum(rows, Requests, s) > 0
    ensures HasRow(rows, s)
    decreases |rows|
  {
    var front, last := rows[..|rows| - 1], rows[|rows| - 1];
    if Selects(s, last.department, last.user) {
      assert last in rows;
    } else {
      RequestsNeedRows(front, s);
      var r :| r in front && Selects(s, r.department, r.user);
      assert r in rows;
    }
  }

  lemma GroupHasRows(rows: seq<Row>, groups: seq<Group>, i: nat)
    requires IsGrouping(groups, rows) && i < |groups|
    ensures HasRow(rows, Member(groups[i].department, groups[i].user))
    ensures HasRow(rows, Department(groups[i].department))
  {
    var g := groups[i];
    assert Of(g.use, Requests) > 0;
    RequestsNeedRows(rows, Member(g.department, g.user));
    var r :| r in rows && Selects(Member(g.department, g.user), r.department, r.user);
    assert Selects(Department(g.department), r.department, r.user);
  }

  /** Which departments have a line, and which users an entry in it. */
  predicate HasLine(report: Report, name: string) {
    exists i :: 0 <= i < |report.departments| && report.departments[i].name == name
  }

  predicate HasEntry(d: DepartmentLine, user: string) {
    exists i :: 0 <= i < |d.users| && d.users[i].user == user
  }

  lemma LineFor(groups: seq<Group>, budgets: seq<Budget>, name: string)
    requires name in Names(groups)
    ensures HasLine(ReportOf(groups, budgets), name)
  {
    var names := Names(groups);
    LinesNamed(groups, budgets, names);
    var i :| 0 <= i < |names| && names[i] == name;
    SortedKeeps(LinesInOrder(groups, budgets, names), DepartmentSpent, i);
  }

  lemma SortedKeeps<T>(xs: seq<T>, cost: T -> nat, i: nat)
    requires i < |xs|
    ensures exists j :: 0 <= j < |Sorted(xs, cost)| && Sorted(xs, cost)[j] == xs[i]
  {
    InSorted(xs, cost, xs[i]);
  }

  lemma EntryFor(groups: seq<Group>, i: nat, d: DepartmentLine)
    requires i < |groups| && d.name == groups[i].department
    requires d.users == Sorted(UsersOf(groups, d.name), Spent)
    ensures HasEntry(d, groups[i].user)
  {
    var u := UserLine(groups[i].user, groups[i].use);
    UserListed(groups, i);
    InSorted(UsersOf(groups, d.name), Spent, u);
    var j :| 0 <= j < |d.users| && d.users[j] == u;
    assert d.users[j].user == groups[i].user;
  }

  /** MAIN RESULT. Each department with rows in the month has one line, and no other has any. */
  lemma DepartmentsOnce(ledger: seq<Row>, month: nat, groups: seq<Group>, budgets: seq<Budget>, name: string)
    requires IsGrouping(groups, MonthRows(ledger, month))
    ensures DifferentBy(ReportOf(groups, budgets).departments, LineName)
    ensures HasLine(ReportOf(groups, budgets), name) <==> HasRow(MonthRows(ledger, month), Department(name))
  {
    var rows, names := MonthRows(ledger, month), Names(groups);
    var lines := LinesInOrder(groups, budgets, names);
    NamesListed(groups);
    LinesDiffer(groups, budgets, names);
    SortedDiffers(lines, DepartmentSpent, LineName);
    if HasLine(ReportOf(groups, budgets), name) {
      var d :| d in ReportOf(groups, budgets).departments && d.name == name;
      InSorted(lines, DepartmentSpent, d);
      LinesAre(groups, budgets, names, d);
      NamesAreGroups(groups, name);
      var i :| 0 <= i < |groups| && groups[i].department == name;
      GroupHasRows(rows, groups, i);
    }
    if HasRow(rows, Department(name)) {
      GroupOfRow(rows, groups, Department(name));
      LineFor(groups, budgets, name);
    }
  }

  /** A row's department is listed, and so is its group. */
  lemma GroupOfRow(rows: seq<Row>, groups: seq<Group>, s: Selection)
    requires IsGrouping(groups, rows) && HasRow(rows, s) && !s.Everyone?
    ensures var name := if s.Member? then s.department else s.name;
      name in Names(groups)
      && (s.Member? ==> exists i :: 0 <= i < |groups| && groups[i].department == name && groups[i].user == s.user)
  {
    var r :| r in rows && Selects(s, r.department, r.user);
    var j :| 0 <= j < |rows| && rows[j] == r;
    assert HasGroup(groups, rows[j]);
    var i :| 0 <= i < |groups| && IsOf(r, groups[i]);
    NamesListed(groups);
    assert groups[i].department in Names(groups);
  }

  lemma LineUsers(groups: seq<Group>, budgets: seq<Budget>, d: DepartmentLine)
    requires d in ReportOf(groups, budgets).departments
    ensures d.users == Sorted(UsersOf(groups, d.name), Spent)
  {
    InSorted(LinesInOrder(groups, budgets, Names(groups)), DepartmentSpent, d);
    LinesAre(groups, budgets, Names(groups), d);
  }

  lemma EntryHasRows(rows: seq<Row>, groups: seq<Group>, d: DepartmentLine, user: string)
    requires IsGrouping(groups, rows) && d.users == Sorted(UsersOf(groups, d.name), Spent) && HasEntry(d, user)
    ensures HasRow(rows, Member(d.name, user))
  {
    var u :| u in d.users && u.user == user;
    InSorted(UsersOf(groups, d.name), Spent, u);
    UsersAre(groups, d.name, u);
    var i :| 0 <= i < |groups| && groups[i] == Group(d.name, user, u.use);
    GroupHasRows(rows, groups, i);
  }

  lemma RowsHaveEntry(rows: seq<Row>, groups: seq<Group>, d: DepartmentLine, user: string)
    requires IsGrouping(groups, rows) && d.users == Sorted(UsersOf(groups, d.name), Spent)
    requires HasRow(rows, Member(d.name, user))
    ensures HasEntry(d, user)
  {
    GroupOfRow(rows, groups, Member(d.name, user));
    var i :| 0 <= i < |groups| && groups[i].department == d.name && groups[i].user == user;
    EntryFor(groups, i, d);
  }

  /** MAIN RESULT. Within a line each user with rows in the month has one entry, and no other has any. */
  lemma UsersOnce(ledger: seq<Row>, month: nat, groups: seq<Group>, budgets: seq<Budget>, d: DepartmentLine,
                  user: string)
    requires IsGrouping(groups, MonthRows(ledger, month)) && d in ReportOf(groups, budgets).departments
    ensures DifferentBy(d.users, LineUser)
    ensures HasEntry(d, user) <==> HasRow(MonthRows(ledger, month), Member(d.name, user))
  {
    var rows := MonthRows(ledger, month);
    LineUsers(groups, budgets, d);
    UsersDiffer(groups, d.name);
    SortedDiffers(UsersOf(groups, d.name), Spent, LineUser);
    if HasEntry(d, user) {
      EntryHasRows(rows, groups, d, user);
    }
    if HasRow(rows, Member(d.name, user)) {
      RowsHaveEntry(rows, groups, d, user);
    }
  }

  // ---------------------------------------------------------------- months

  function MonthSum(ledger: seq<Row>, m: Measure, s: Selection, month: nat): nat {
    RowSum(MonthRows(ledger, month), m, s)
  }

  function MonthsSum(ledger: seq<Row>, m: Measure, s: Selection, months: nat): nat {
    if months == 0 then 0 else MonthsSum(ledger, m, s, months - 1) + MonthSum(ledger, m, s, months - 1)
  }

  /** `own` is the one month the row is in. */
  ghost predicate IsMonthOf(own: nat, r: Row) {
    forall month: nat :: InMonth(r, month) <==> month == own
  }

  lemma ItsMonth(r: Row)
    ensures IsMonthOf(MonthOf(r.createdAt), r)
  {
    forall month: nat
      ensures InMonth(r, month) <==> month == MonthOf(r.createdAt)
    {
      OneMonth(r.createdAt, month);
    }
  }

  lemma MonthSumSnoc(ledger: seq<Row>, r: Row, m: Measure, s: Selection, month: nat, own: nat)
    requires IsMonthOf(own, r)
    ensures MonthSum(ledger + [r], m, s, month)
      == MonthSum(ledger, m, s, month) + if month == own then WeightIf(m, r, s) else 0
  {
    var before := MonthRows(ledger, month);
    assert (ledger + [r])[..|ledger|] == ledger;
    assert InMonth(r, month) <==> month == own;
    if month == own {
      assert (before + [r])[..|before|] == before;
    } else {
      assert MonthRows(ledger + [r], month) == before;
    }
  }

  /** What one month has more, all months together have more. */
  lemma {:induction false} OneMonthMore(ledger: seq<Row>, more: seq<Row>, m: Measure, s: Selection, months: nat,
                                        own: nat, w: nat)
    requires forall k: nat :: k < months ==>
      MonthSum(more, m, s, k) == MonthSum(ledger, m, s, k) + if k == own then w else 0
    ensures MonthsSum(more, m, s, months) == MonthsSum(ledger, m, s, months) + if own < months then w else 0
    decreases months
  {
    if months > 0 {
      OneMonthMore(ledger, more, m, s, months - 1, own, w);
    }
  }

  /** A row counts in one month, its own. */
  lemma MonthsSumSnoc(ledger: seq<Row>, r: Row, m: Measure, s: Selection, months: nat)
    ensures MonthsSum(ledger + [r], m, s, months)
      == MonthsSum(ledger, m, s, months) + if MonthOf(r.createdAt) < months then WeightIf(m, r, s) else 0
  {
    var own := MonthOf(r.createdAt);
    ItsMonth(r);
    forall k: nat | k < months
      ensures MonthSum(ledger + [r], m, s, k) == MonthSum(ledger, m, s, k) + if k == own then WeightIf(m, r, s) else 0
    {
      MonthSumSnoc(ledger, r, m, s, k, own);
    }
    OneMonthMore(ledger, ledger + [r], m, s, months, own, WeightIf(m, r, s));
  }

  lemma {:induction false} NoMonths(m: Measure, s: Selection, months: nat)
    ensures MonthsSum([], m, s, months) == 0
  {
    if months > 0 {
      NoMonths(m, s, months - 1);
    }
  }

  /** MAIN RESULT. Every ledger row is in the report of exactly one month: the months add up to the
      whole ledger. */
  lemma {:induction false} MonthsAddUp(ledger: seq<Row>, m: Measure, s: Selection, months: nat)
    requires forall i :: 0 <= i < |ledger| ==> MonthOf(ledger[i].createdAt) < months
    ensures MonthsSum(ledger, m, s, months) == RowSum(ledger, m, s)
    decreases |ledger|
  {
    if ledger == [] {
      NoMonths(m, s, months);
    } else {
      var front, r := ledger[..|ledger| - 1], ledger[|ledger| - 1];
      MonthsAddUp(front, m, s, months);
      MonthsSumSnoc(front, r, m, s, months);
      assert ledger == front + [r];
    }
  }
}
