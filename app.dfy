/**
 * The tracker's single React component, `App`: the project list and the
 * selection/form state it keeps, the four handlers that change them, the
 * per-project chart rows and overview totals derived from them, and the
 * break-even read-out of the project view.
 *
 * The new list each handler computes (spread-append, `filter` by id, `map`
 * over the selected project) is a pure function over `seq<Project>`; the
 * handlers themselves are methods of `ProjectStore`, a class whose fields
 * are the component's state variables.
 */
module App {
  import opened Wrappers
  import opened Types
  import opened Lists
  import opened Utils

  // ---------------------------------------------------------------------
  // String.prototype.trim, as far as the empty-name check needs it

  /** ECMAScript WhiteSpace and LineTerminator code points, which `trim` strips. */
  predicate IsTrimmable(c: char)
  {
    c in {'\t', '\n', '\U{B}', '\U{C}', '\r', ' ', '\U{A0}', '\U{1680}',
          '\U{2000}', '\U{2001}', '\U{2002}', '\U{2003}', '\U{2004}', '\U{2005}',
          '\U{2006}', '\U{2007}', '\U{2008}', '\U{2009}', '\U{200A}',
          '\U{2028}', '\U{2029}', '\U{202F}', '\U{205F}', '\U{3000}', '\U{FEFF}'}
  }

  function TrimStart(s: string): string
  {
    if s != [] && IsTrimmable(s[0]) then TrimStart(s[1..]) else s
  }

  function TrimEnd(s: string): string
  {
    if s != [] && IsTrimmable(s[|s| - 1]) then TrimEnd(s[..|s| - 1]) else s
  }

  /** `!name.trim()` holds exactly when the name is empty or all ECMAScript white space. */
  function Trim(s: string): (r: string)
    ensures r == [] <==> IsBlank(s)
  {
    TrimStartEmptyIffBlank(s);
    TrimEndEmptyIffBlank(TrimStart(s));
    TrimStartHead(s);
    TrimEnd(TrimStart(s))
  }

  predicate IsBlank(s: string)
  {
    forall i :: 0 <= i < |s| ==> IsTrimmable(s[i])
  }

  lemma {:induction false} TrimStartEmptyIffBlank(s: string)
    ensures TrimStart(s) == [] <==> IsBlank(s)
  {
    if s != [] {
      TrimStartEmptyIffBlank(s[1..]);
      if IsBlank(s) {
        assert IsBlank(s[1..]) by {
          forall i | 0 <= i < |s[1..]| ensures IsTrimmable(s[1..][i]) { assert s[1..][i] == s[i + 1]; }
        }
      }
      if IsTrimmable(s[0]) && IsBlank(s[1..]) {
        forall i | 0 <= i < |s| ensures IsTrimmable(s[i]) { if i > 0 { assert s[i] == s[1..][i - 1]; } }
      }
    }
  }

  lemma {:induction false} TrimEndEmptyIffBlank(s: string)
    ensures TrimEnd(s) == [] <==> IsBlank(s)
  {
    if s != [] {
      var init := s[..|s| - 1];
      TrimEndEmptyIffBlank(init);
      if IsBlank(s) {
        assert IsBlank(init) by {
          forall i | 0 <= i < |init| ensures IsTrimmable(init[i]) { assert init[i] == s[i]; }
        }
      }
      if IsTrimmable(s[|s| - 1]) && IsBlank(init) {
        forall i | 0 <= i < |s| ensures IsTrimmable(s[i]) { if i < |s| - 1 { assert s[i] == init[i]; } }
      }
    }
  }

  /** What `TrimStart` leaves, if anything, starts with a character `trim` keeps. */
  lemma {:induction false} TrimStartHead(s: string)
    ensures TrimStart(s) != [] ==> !IsTrimmable(TrimStart(s)[0])
  {
    if s != [] && IsTrimmable(s[0]) {
      TrimStartHead(s[1..]);
    }
  }

  // ---------------------------------------------------------------------
  // Lookups over the project list

  predicate HasId(ps: seq<Project>, id: string)
  {
    exists i :: 0 <= i < |ps| && ps[i].id == id
  }

  /** `projects.find(p => p.id === selectedProjectId)`: the first project with that id. */
  function Find(ps: seq<Project>, sel: Option<string>): (r: Option<Project>)
    ensures r.Some? <==> sel.Some? && HasId(ps, sel.value)
    ensures r.Some? ==>
              exists i :: 0 <= i < |ps| && ps[i] == r.value && r.value.id == sel.value
                          && forall j :: 0 <= j < i ==> ps[j].id != sel.value
  {
    if sel.None? || ps == [] then None
    else if ps[0].id == sel.value then Some(ps[0])
    else
      var r := Find(ps[1..], sel);
      assert HasId(ps, sel.value) ==> HasId(ps[1..], sel.value) by {
        if HasId(ps, sel.value) {
          var i :| 0 <= i < |ps| && ps[i].id == sel.value;
          assert ps[1..][i - 1].id == sel.value;
        }
      }
      if r.Some? then
        var i :| 0 <= i < |ps[1..]| && ps[1..][i] == r.value && r.value.id == sel.value
                 && forall j :: 0 <= j < i ==> ps[1..][j].id != sel.value;
        assert ps[i + 1] == r.value;
        assert forall j :: 0 <= j < i + 1 ==> ps[j].id != sel.value by {
          forall j | 0 <= j < i + 1 ensures ps[j].id != sel.value {
            if j > 0 { assert ps[j] == ps[1..][j - 1]; }
          }
        }
        r
      else r
  }

  /** Every transaction of every project has a strictly positive amount. */
  predicate AmountsPositive(ps: seq<Project>)
  {
    forall p :: p in ps ==> AllPositive(p.transactions)
  }

  // ---------------------------------------------------------------------
  // The new project lists the handlers compute

  /** The record `handleAddProject` builds: untrimmed name, empty description, no transactions. */
  function NewProject(id: string, name: string, createdAt: string): (p: Project)
    ensures p.id == id && p.name == name && p.transactions == []
    ensures p.description == "" && p.createdAt == createdAt
    ensures CalculateMetrics(p) == ProjectMetrics(0.0, 0.0, 0.0, 0.0, 0.0)
  {
    Project(id, name, "", createdAt, [])
  }

  /** `projects.filter(p => p.id !== id)`. */
  function WithoutProject(ps: seq<Project>, id: string): (r: seq<Project>)
    ensures forall p :: p in r <==> p in ps && p.id != id
    ensures !HasId(r, id)
  {
    var r := Filter(ps, (p: Project) => p.id != id);
    assert forall i :: 0 <= i < |r| ==> r[i] in r;
    r
  }

  /** `p.transactions.filter(t => t.id !== txId)`. */
  function WithoutTransaction(ts: seq<Transaction>, txId: string): (r: seq<Transaction>)
    ensures forall t :: t in r <==> t in ts && t.id != txId
  {
    Filter(ts, (t: Transaction) => t.id != txId)
  }

  /** The description `handleQuickAddTransaction` records: the entered text, or a default when it is empty. */
  function EntryDescription(desc: string, k: TxType): (r: string)
    ensures r != []
    ensures desc != [] ==> r == desc
    ensures desc == [] ==> r == (if k == Income then "日常收入" else "日常支出")
  {
    if desc != [] then desc
    else if k == Income then "日常收入" else "日常支出"
  }

  /** The `map` of `handleQuickAddTransaction`: every project with the id gets `tx` appended. */
  function AddTransactionTo(ps: seq<Project>, id: string, tx: Transaction): (r: seq<Project>)
    ensures |r| == |ps|
    ensures forall i :: 0 <= i < |ps| ==> r[i].id == ps[i].id
    ensures forall i :: 0 <= i < |ps| && ps[i].id != id ==> r[i] == ps[i]
    ensures forall i :: 0 <= i < |ps| && ps[i].id == id ==>
              r[i] == ps[i].(transactions := ps[i].transactions + [tx])
  {
    seq(|ps|, i requires 0 <= i < |ps| =>
      if ps[i].id == id then ps[i].(transactions := ps[i].transactions + [tx]) else ps[i])
  }

  /** The `map` of `removeTransaction`: the selected projects lose every transaction with that id. */
  function RemoveTransactionFrom(ps: seq<Project>, sel: Option<string>, txId: string): (r: seq<Project>)
    ensures |r| == |ps|
    ensures forall i :: 0 <= i < |ps| ==> r[i].id == ps[i].id
    ensures forall i :: 0 <= i < |ps| && (sel.None? || ps[i].id != sel.value) ==> r[i] == ps[i]
    ensures forall i :: 0 <= i < |ps| && sel.Some? && ps[i].id == sel.value ==>
              r[i] == ps[i].(transactions := WithoutTransaction(ps[i].transactions, txId))
  {
    match sel
    case None => ps
    case Some(s) =>
      seq(|ps|, i requires 0 <= i < |ps| =>
        if ps[i].id == s then ps[i].(transactions := WithoutTransaction(ps[i].transactions, txId))
        else ps[i])
  }

  /** A list whose projects keep their ids, position by position, names the same ids. */
  lemma SameIdsSameHasId(ps: seq<Project>, r: seq<Project>, id: string)
    requires |r| == |ps|
    requires forall i :: 0 <= i < |ps| ==> r[i].id == ps[i].id
    ensures HasId(r, id) <==> HasId(ps, id)
  {
    if HasId(ps, id) {
      var i :| 0 <= i < |ps| && ps[i].id == id;
      assert r[i].id == id;
    }
    if HasId(r, id) {
      var i :| 0 <= i < |r| && r[i].id == id;
      assert ps[i].id == id;
    }
  }

  /** Appending a positive amount keeps every recorded amount positive. */
  lemma AddTransactionKeepsPositive(ps: seq<Project>, id: string, tx: Transaction)
    requires AmountsPositive(ps) && tx.amount > 0.0
    ensures AmountsPositive(AddTransactionTo(ps, id, tx))
  {
    var r := AddTransactionTo(ps, id, tx);
    forall p | p in r ensures AllPositive(p.transactions) {
      var i :| 0 <= i < |r| && r[i] == p;
      assert ps[i] in ps;
    }
  }

  lemma WithoutTransactionKeepsPositive(ts: seq<Transaction>, txId: string)
    requires AllPositive(ts)
    ensures AllPositive(WithoutTransaction(ts, txId))
  {
    var r := WithoutTransaction(ts, txId);
    forall k | 0 <= k < |r| ensures r[k].amount > 0.0 {
      assert r[k] in ts;
    }
  }

  /** Removing transactions keeps every remaining amount positive. */
  lemma RemoveTransactionKeepsPositive(ps: seq<Project>, sel: Option<string>, txId: string)
    requires AmountsPositive(ps)
    ensures AmountsPositive(RemoveTransactionFrom(ps, sel, txId))
  {
    var r := RemoveTransactionFrom(ps, sel, txId);
    forall p | p in r ensures AllPositive(p.transactions) {
      var i :| 0 <= i < |r| && r[i] == p;
      assert ps[i] in ps;
      WithoutTransactionKeepsPositive(ps[i].transactions, txId);
    }
  }

  // ---------------------------------------------------------------------
  // Overview totals and chart rows

  /** The three figures the overview cards and the comparison chart show. */
  datatype Column = IncomeColumn | ExpenseColumn | ProfitColumn

  function Pick(m: ProjectMetrics, c: Column): real
  {
    match c
    case IncomeColumn => m.totalIncome
    case ExpenseColumn => m.totalExpense
    case ProfitColumn => m.profit
  }

  /** `projects.reduce((sum, p) => sum + calculateMetrics(p).<figure>, 0)`. */
  function Overall(ps: seq<Project>, c: Column): real
  {
    if ps == [] then 0.0 else Overall(ps[..|ps| - 1], c) + Pick(CalculateMetrics(ps[|ps| - 1]), c)
  }

  /** With non-negative amounts, overall income and overall expense are non-negative. */
  lemma {:induction false} OverallNonNegative(ps: seq<Project>, c: Column)
    requires c != ProfitColumn
    requires forall p :: p in ps ==> AllNonNegative(p.transactions)
    ensures Overall(ps, c) >= 0.0
  {
    if ps != [] {
      var n := |ps| - 1;
      assert forall p :: p in ps[..n] ==> p in ps;
      assert ps[n] in ps;
      OverallNonNegative(ps[..n], c);
      MetricsBounds(ps[n]);
    }
  }

  lemma {:induction false} OverallConcat(a: seq<Project>, b: seq<Project>, c: Column)
    ensures Overall(a + b, c) == Overall(a, c) + Overall(b, c)
  {
    if b != [] {
      assert (a + b)[..|a + b| - 1] == a + b[..|b| - 1];
      OverallConcat(a, b[..|b| - 1], c);
    } else {
      assert a + b == a;
    }
  }

  /** Overall profit is overall income minus overall expense. */
  lemma {:induction false} OverallProfitIsDifference(ps: seq<Project>)
    ensures Overall(ps, ProfitColumn) == Overall(ps, IncomeColumn) - Overall(ps, ExpenseColumn)
  {
    if ps != [] {
      OverallProfitIsDifference(ps[..|ps| - 1]);
    }
  }

  /**
   * Deleting a project whose id no other project shares lowers each overview
   * total by exactly that project's own figure.
   */
  lemma DeleteLowersOverall(ps: seq<Project>, i: nat, c: Column)
    requires i < |ps|
    requires forall j :: 0 <= j < |ps| && j != i ==> ps[j].id != ps[i].id
    ensures Overall(WithoutProject(ps, ps[i].id), c) == Overall(ps, c) - Pick(CalculateMetrics(ps[i]), c)
  {
    var id := ps[i].id;
    FilterDropsOne(ps, i, (p: Project) => p.id != id);
    assert ps == ps[..i] + [ps[i]] + ps[i + 1..];
    OverallConcat(ps[..i] + [ps[i]], ps[i + 1..], c);
    OverallConcat(ps[..i], [ps[i]], c);
    OverallConcat(ps[..i], ps[i + 1..], c);
    assert Overall([ps[i]], c) == Pick(CalculateMetrics(ps[i]), c) by {
      assert [ps[i]][..0] == [];
    }
  }

  /** Replacing one project changes each overview total by the difference of its figures. */
  lemma OverallReplaceOne(ps: seq<Project>, i: nat, q: Project, c: Column)
    requires i < |ps|
    ensures Overall(ps[i := q], c) == Overall(ps, c) - Pick(CalculateMetrics(ps[i]), c) + Pick(CalculateMetrics(q), c)
  {
    var pre, post := ps[..i], ps[i + 1..];
    assert ps[i := q] == pre + [q] + post;
    assert ps == pre + [ps[i]] + post;
    OverallConcat(pre + [q], post, c);
    OverallConcat(pre, [q], c);
    OverallConcat(pre + [ps[i]], post, c);
    OverallConcat(pre, [ps[i]], c);
    assert [q][..0] == [] && [ps[i]][..0] == [];
  }

  /**
   * Adding a transaction to a project whose id no other project shares raises
   * overall income (or expense, by its type) by exactly its amount.
   */
  lemma QuickAddRaisesOverall(ps: seq<Project>, i: nat, tx: Transaction)
    requires i < |ps|
    requires forall j :: 0 <= j < |ps| && j != i ==> ps[j].id != ps[i].id
    ensures var r := AddTransactionTo(ps, ps[i].id, tx);
            && Overall(r, IncomeColumn) == Overall(ps, IncomeColumn) + (if tx.kind == Income then tx.amount else 0.0)
            && Overall(r, ExpenseColumn) == Overall(ps, ExpenseColumn) + (if tx.kind == Expense then tx.amount else 0.0)
  {
    var r := AddTransactionTo(ps, ps[i].id, tx);
    assert r == ps[i := r[i]];
    MetricsAppend(ps[i], tx);
    OverallReplaceOne(ps, i, r[i], IncomeColumn);
    OverallReplaceOne(ps, i, r[i], ExpenseColumn);
  }

  /**
   * Removing the one transaction with a given id lowers its project's total
   * of that transaction's type by exactly its amount.
   */
  lemma RemoveTransactionLowersTotals(p: Project, j: nat)
    requires j < |p.transactions|
    requires forall k :: 0 <= k < |p.transactions| && k != j ==> p.transactions[k].id != p.transactions[j].id
    ensures var t := p.transactions[j];
            var after := CalculateMetrics(p.(transactions := WithoutTransaction(p.transactions, t.id)));
            && after.totalIncome == CalculateMetrics(p).totalIncome - (if t.kind == Income then t.amount else 0.0)
            && after.totalExpense == CalculateMetrics(p).totalExpense - (if t.kind == Expense then t.amount else 0.0)
  {
    var ts, t := p.transactions, p.transactions[j];
    FilterDropsOne(ts, j, (x: Transaction) => x.id != t.id);
    assert ts == ts[..j] + [t] + ts[j + 1..];
    forall k: TxType
      ensures KindSum(ts[..j] + ts[j + 1..], k) == KindSum(ts, k) - (if t.kind == k then t.amount else 0.0)
    {
      KindSumConcat(ts[..j] + [t], ts[j + 1..], k);
      KindSumConcat(ts[..j], [t], k);
      KindSumConcat(ts[..j], ts[j + 1..], k);
    }
  }

  /** One bar group of the comparison chart: `{ name, 收入, 支出, 利潤 }`. */
  datatype ChartRow = ChartRow(name: string, income: real, expense: real, profit: real)

  function RowValue(row: ChartRow, c: Column): real
  {
    match c
    case IncomeColumn => row.income
    case ExpenseColumn => row.expense
    case ProfitColumn => row.profit
  }

  /** `chartData`: one row per project, in project order. */
  function ChartData(ps: seq<Project>): (rows: seq<ChartRow>)
    ensures |rows| == |ps|
    ensures forall i :: 0 <= i < |ps| ==>
              && rows[i].name == ps[i].name
              && rows[i].income == KindSum(ps[i].transactions, Income)
              && rows[i].expense == KindSum(ps[i].transactions, Expense)
              && rows[i].profit == rows[i].income - rows[i].expense
  {
    seq(|ps|, i requires 0 <= i < |ps| =>
      var m := CalculateMetrics(ps[i]);
      ChartRow(ps[i].name, m.totalIncome, m.totalExpense, m.profit))
  }

  function ColumnTotal(rows: seq<ChartRow>, c: Column): real
  {
    if rows == [] then 0.0 else ColumnTotal(rows[..|rows| - 1], c) + RowValue(rows[|rows| - 1], c)
  }

  /** Each column of the chart adds up to the matching overview total. */
  lemma {:induction false} ChartMatchesOverview(ps: seq<Project>, c: Column)
    ensures ColumnTotal(ChartData(ps), c) == Overall(ps, c)
  {
    if ps != [] {
      var n, rows := |ps| - 1, ChartData(ps);
      var init := ps[..n];
      assert rows[..n] == ChartData(init) by {
        forall j | 0 <= j < n ensures rows[..n][j] == ChartData(init)[j] {
          assert init[j] == ps[j];
        }
      }
      ChartMatchesOverview(init, c);
      assert RowValue(rows[n], c) == Pick(CalculateMetrics(ps[n]), c);
    }
  }

  // ---------------------------------------------------------------------
  // Break-even read-out of the project view

  /** `Math.min(metrics?.roi || 0, 100)`: the width of the progress bar, in percent. */
  function ProgressWidth(m: Option<ProjectMetrics>): (r: real)
    ensures r <= 100.0
    ensures m.None? ==> r == 0.0
    ensures m.Some? && m.value.roi >= 0.0 ==> r >= 0.0
    ensures m.Some? ==> (r == 100.0 <==> m.value.roi >= 100.0)
    ensures m.Some? && m.value.roi < 100.0 ==> r == m.value.roi
  {
    var roi := if m.Some? then m.value.roi else 0.0;
    if roi < 100.0 then roi else 100.0
  }

  /** `Math.max(0, totalExpense - totalIncome)`: the amount still to earn. */
  function Shortfall(m: Option<ProjectMetrics>): (r: real)
    ensures r >= 0.0
    ensures r == 0.0 <==> m.None? || m.value.totalIncome >= m.value.totalExpense
    ensures r > 0.0 ==> r == m.value.totalExpense - m.value.totalIncome
  {
    var expense := if m.Some? then m.value.totalExpense else 0.0;
    var income := if m.Some? then m.value.totalIncome else 0.0;
    if expense - income > 0.0 then expense - income else 0.0
  }

  /** `metrics && metrics.roi >= 100`: the banner congratulates instead of showing the shortfall. */
  predicate BreakEvenReached(m: Option<ProjectMetrics>)
  {
    m.Some? && m.value.roi >= 100.0
  }

  lemma PercentAtLeastHundredIff(x: real, y: real)
    requires y > 0.0
    ensures x / y * 100.0 >= 100.0 <==> x >= y
  {
    assert x / y * y == x;
  }

  /**
   * With some expense recorded: the banner says break-even exactly when income
   * covers expense, which is exactly when nothing is left to earn.
   */
  lemma BreakEvenIff(p: Project)
    requires CalculateMetrics(p).totalExpense > 0.0
    ensures var m := CalculateMetrics(p);
            && (BreakEvenReached(Some(m)) <==> m.totalIncome >= m.totalExpense)
            && (m.totalIncome >= m.totalExpense <==> Shortfall(Some(m)) == 0.0)
  {
    var m := CalculateMetrics(p);
    PercentAtLeastHundredIff(m.totalIncome, m.totalExpense);
  }

  /** With non-negative amounts the progress bar is between 0 and 100 percent wide. */
  lemma ProgressWidthBounds(m: Option<ProjectMetrics>, p: Project)
    requires m == None || (m == Some(CalculateMetrics(p)) && AllNonNegative(p.transactions))
    ensures 0.0 <= ProgressWidth(m) <= 100.0
  {
    if m.Some? {
      MetricsBounds(p);
    }
  }

  /**
   * The banner as written misreads a project with income and no expense: ROI
   * is then defined as 0, so the banner says 0 is still to be earned.
   */
  lemma IncomeOnlyBannerMismatch(p: Project)
    requires p.transactions == [Transaction("a", 500.0, "", "", Income)]
    ensures var m := Some(CalculateMetrics(p));
            && m.value.totalIncome > m.value.totalExpense
            && !BreakEvenReached(m)
            && Shortfall(m) == 0.0
            && ProgressWidth(m) == 0.0
  {
    assert p.transactions[1..] == [];
  }

  /**
   * The banner as evidently intended: break-even once something has been
   * earned and income covers expense.
   */
  predicate BreakEvenIntended(m: Option<ProjectMetrics>)
  {
    m.Some? && m.value.totalIncome > 0.0 && m.value.totalIncome >= m.value.totalExpense
  }

  /**
   * Once some income is recorded, the intended banner congratulates exactly
   * when nothing is left to earn; wherever some expense is recorded it agrees
   * with the banner as written.
   */
  lemma BreakEvenIntendedIff(p: Project)
    ensures var m := CalculateMetrics(p);
            && (m.totalIncome > 0.0 ==> (BreakEvenIntended(Some(m)) <==> Shortfall(Some(m)) == 0.0))
            && (m.totalExpense > 0.0 ==> (BreakEvenIntended(Some(m)) <==> BreakEvenReached(Some(m))))
  {
    var m := CalculateMetrics(p);
    if m.totalExpense > 0.0 {
      PercentAtLeastHundredIff(m.totalIncome, m.totalExpense);
    }
  }

  // ---------------------------------------------------------------------
  // The component's state and its handlers

  /** `!selectedProjectId`: no selection, or the (falsy) empty id. */
  predicate NoSelection(sel: Option<string>)
  {
    sel.None? || sel.value == ""
  }

  class ProjectStore {
    var projects: seq<Project>
    var selectedProjectId: Option<string>
    var isNewProjectModalOpen: bool
    var newProjectName: string
    var txAmount: string
    var txDesc: string
    var txType: TxType

    /** A selection, when there is one, names a project in the list. */
    ghost predicate Valid()
      reads this
    {
      selectedProjectId.Some? ==> HasId(projects, selectedProjectId.value)
    }

    /** The initial state; `saved` stands for the list loaded from local storage (or `[]`). */
    constructor (saved: seq<Project>)
      ensures Valid()
      ensures projects == saved && selectedProjectId == None && !isNewProjectModalOpen
      ensures newProjectName == "" && txAmount == "" && txDesc == "" && txType == Expense
    {
      projects := saved;
      selectedProjectId := None;
      isNewProjectModalOpen := false;
      newProjectName := "";
      txAmount := "";
      txDesc := "";
      txType := Expense;
    }

    /** The metrics the project view shows: those of the selected project, if any. */
    function Metrics(): (r: Option<ProjectMetrics>)
      reads this
      requires Valid()
      ensures r.Some? <==> selectedProjectId.Some?
      ensures r.Some? ==>
                exists i :: 0 <= i < |projects| && projects[i].id == selectedProjectId.value
                            && r.value == CalculateMetrics(projects[i])
                            && forall j :: 0 <= j < i ==> projects[j].id != selectedProjectId.value
    {
      match Find(projects, selectedProjectId)
      case None => None
      case Some(p) => Some(CalculateMetrics(p))
    }

    method HandleAddProject(freshId: string, now: string)
      requires Valid()
      modifies this
      ensures Valid()
      ensures AmountsPositive(old(projects)) ==> AmountsPositive(projects)
      ensures Trim(old(newProjectName)) == [] ==> unchanged(this)
      ensures Trim(old(newProjectName)) != [] ==>
                && projects == old(projects) + [NewProject(freshId, old(newProjectName), now)]
                && selectedProjectId == Some(freshId)
                && newProjectName == ""
                && !isNewProjectModalOpen
                && txAmount == old(txAmount) && txDesc == old(txDesc) && txType == old(txType)
    {
      if Trim(newProjectName) == [] {
        return;
      }
      var p := NewProject(freshId, newProjectName, now);
      projects := projects + [p];
      newProjectName := "";
      isNewProjectModalOpen := false;
      selectedProjectId := Some(p.id);
      assert projects[|projects| - 1].id == freshId;
    }

    method HandleDeleteProject(id: string, confirmed: bool)
      requires Valid()
      modifies this
      ensures Valid()
      ensures AmountsPositive(old(projects)) ==> AmountsPositive(projects)
      ensures !confirmed ==> unchanged(this)
      ensures confirmed ==>
                && projects == WithoutProject(old(projects), id)
                && selectedProjectId == (if old(selectedProjectId) == Some(id) then None else old(selectedProjectId))
                && isNewProjectModalOpen == old(isNewProjectModalOpen) && newProjectName == old(newProjectName)
                && txAmount == old(txAmount) && txDesc == old(txDesc) && txType == old(txType)
    {
      if confirmed {
        ghost var before := projects;
        projects := WithoutProject(projects, id);
        if selectedProjectId == Some(id) {
          selectedProjectId := None;
        } else if selectedProjectId.Some? {
          ghost var i :| 0 <= i < |before| && before[i].id == selectedProjectId.value;
          assert before[i] in projects;
          ghost var j :| 0 <= j < |projects| && projects[j] == before[i];
        }
      }
    }

    /** `amount` stands for `parseFloat(txAmount)`, with `None` for NaN. */
    method HandleQuickAddTransaction(amount: Option<real>, txId: string, now: string)
      requires Valid()
      modifies this
      ensures Valid()
      ensures AmountsPositive(old(projects)) ==> AmountsPositive(projects)
      ensures (amount.None? || amount.value <= 0.0 || NoSelection(old(selectedProjectId))) ==> unchanged(this)
      ensures !(amount.None? || amount.value <= 0.0 || NoSelection(old(selectedProjectId))) ==>
                && projects == AddTransactionTo(old(projects), old(selectedProjectId).value,
                     Transaction(txId, amount.value, EntryDescription(old(txDesc), old(txType)), now, old(txType)))
                && txAmount == "" && txDesc == ""
                && selectedProjectId == old(selectedProjectId) && isNewProjectModalOpen == old(isNewProjectModalOpen)
                && newProjectName == old(newProjectName) && txType == old(txType)
    {
      if amount.None? || amount.value <= 0.0 || NoSelection(selectedProjectId) {
        return;
      }
      var tx := Transaction(txId, amount.value, EntryDescription(txDesc, txType), now, txType);
      ghost var before := projects;
      projects := AddTransactionTo(projects, selectedProjectId.value, tx);
      SameIdsSameHasId(before, projects, selectedProjectId.value);
      if AmountsPositive(before) {
        AddTransactionKeepsPositive(before, selectedProjectId.value, tx);
      }
      txAmount := "";
      txDesc := "";
    }

    method RemoveTransaction(txId: string)
      requires Valid()
      modifies this
      ensures Valid()
      ensures AmountsPositive(old(projects)) ==> AmountsPositive(projects)
      ensures projects == RemoveTransactionFrom(old(projects), old(selectedProjectId), txId)
      ensures selectedProjectId == old(selectedProjectId) && isNewProjectModalOpen == old(isNewProjectModalOpen)
      ensures newProjectName == old(newProjectName) && txAmount == old(txAmount)
      ensures txDesc == old(txDesc) && txType == old(txType)
    {
      ghost var before := projects;
      projects := RemoveTransactionFrom(projects, selectedProjectId, txId);
      if selectedProjectId.Some? {
        SameIdsSameHasId(before, projects, selectedProjectId.value);
      }
      if AmountsPositive(before) {
        RemoveTransactionKeepsPositive(before, selectedProjectId, txId);
      }
    }

    /** Clicking a project in the sidebar. */
    method SelectProject(id: string)
      requires Valid()
      requires HasId(projects, id)
      modifies this
      ensures Valid()
      ensures selectedProjectId == Some(id) && projects == old(projects)
      ensures isNewProjectModalOpen == old(isNewProjectModalOpen) && newProjectName == old(newProjectName)
      ensures txAmount == old(txAmount) && txDesc == old(txDesc) && txType == old(txType)
    {
      selectedProjectId := Some(id);
    }

    /** Clicking the overview entry of the sidebar. */
    method ShowOverview()
      requires Valid()
      modifies this
      ensures Valid()
      ensures selectedProjectId == None && projects == old(projects)
      ensures isNewProjectModalOpen == old(isNewProjectModalOpen) && newProjectName == old(newProjectName)
      ensures txAmount == old(txAmount) && txDesc == old(txDesc) && txType == old(txType)
    {
      selectedProjectId := None;
    }
  }
}
