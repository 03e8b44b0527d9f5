/**
 * The dashboard statistics route: an optional `YYYY-MM` month selects the
 * transactions of that month, newest first; from them come the totals per
 * type, the net balance, per-category and per-member sums, and the ten most
 * recent transactions.
 */
module Stats {
  import opened Common
  import Reconciler

  // ---------------------------------------------------------------------------
  // Month range
  // ---------------------------------------------------------------------------

  predicate IsLeapYear(y: int)
  {
    (y % 4 == 0 && y % 100 != 0) || y % 400 == 0
  }

  function DaysInMonth(y: int, m: int): (d: int)
    requires 1 <= m <= 12
    ensures 28 <= d <= 31
  {
    if m == 2 then (if IsLeapYear(y) then 29 else 28)
    else if m == 4 || m == 6 || m == 9 || m == 11 then 30
    else 31
  }

  /** A two-digit year given to the `Date` constructor means 19xx. */
  function FullYear(year: int): int
  {
    if 0 <= year <= 99 then 1900 + year else year
  }

  /** `new Date(year, monthIndex, 1)`: an out-of-range month index rolls over into other years. */
  function FirstOfMonth(year: int, monthIndex: int): (d: DateTime)
    ensures 1 <= d.month <= 12 && d.day == 1 && d.ms == 0
  {
    DateTime(FullYear(year) + monthIndex / 12, monthIndex % 12 + 1, 1, 0)
  }

  /** `new Date(year, monthIndex, 0, ...)`: day zero is the last day of the month before. */
  function DayZero(year: int, monthIndex: int, ms: int): (d: DateTime)
    ensures 1 <= d.month <= 12 && d.day == DaysInMonth(d.year, d.month) && d.ms == ms
  {
    var y := FullYear(year) + monthIndex / 12;
    var m := monthIndex % 12;
    if m == 0 then DateTime(y - 1, 12, 31, ms) else DateTime(y, m, DaysInMonth(y, m), ms)
  }

  /** 23:59:59 in milliseconds since midnight. */
  const END_OF_DAY_MS: int := ((23 * 60 + 59) * 60 + 59) * 1000
  const DAY_MS: int := 24 * 60 * 60 * 1000

  /** The inclusive bounds the route puts on `date` for month `monthNum` (1-based) of `year`. */
  function MonthRange(year: int, monthNum: int): (r: (DateTime, DateTime))
    ensures r.0.year == r.1.year && r.0.month == r.1.month
    ensures r.0.day == 1 && r.0.ms == 0 && 1 <= r.1.month <= 12
    ensures r.1.day == DaysInMonth(r.1.year, r.1.month) && r.1.ms == END_OF_DAY_MS
  {
    (FirstOfMonth(year, monthNum - 1), DayZero(year, monthNum, END_OF_DAY_MS))
  }

  predicate ValidDate(d: DateTime)
  {
    1 <= d.month <= 12 && 1 <= d.day <= DaysInMonth(d.year, d.month) && 0 <= d.ms < DAY_MS
  }

  /**
   * The month filter keeps exactly the dates of one calendar month, from the
   * first day at midnight to the last day at 23:59:59.000; the final
   * sub-second of the month falls outside.
   */
  lemma {:induction false} MonthRangeIsOneMonth(year: int, monthNum: int, d: DateTime)
    requires ValidDate(d)
    ensures var (start, end) := MonthRange(year, monthNum);
      && start.year == end.year && start.month == end.month
      && start.day == 1 && start.ms == 0
      && end.day == DaysInMonth(end.year, end.month) && end.ms == END_OF_DAY_MS
      && (NotAfter(start, d) && NotAfter(d, end)
          <==> d.year == start.year && d.month == start.month && (d.day < end.day || d.ms <= END_OF_DAY_MS))
  {
    var fy := FullYear(year);
    var i := monthNum - 1;
    if monthNum % 12 == 0 {
      assert monthNum / 12 == i / 12 + 1 && i % 12 == 11;
    } else {
      assert monthNum / 12 == i / 12 && monthNum % 12 == i % 12 + 1;
    }
  }

  /** The listing filter of the statistics query: the month's range, or nothing. */
  function MonthFilter(month: Option<(int, int)>): Reconciler.ListFilter
  {
    if month.Some?
    then
      var (start, end) := MonthRange(month.value.0, month.value.1);
      Reconciler.ListFilter(None, None, Some(start), Some(end), None)
    else Reconciler.ListFilter(None, None, None, None, None)
  }

  /** The record lies within the requested month's range; every record does when no month is given. */
  predicate InMonth(month: Option<(int, int)>, t: Transaction)
  {
    month.Some? ==>
      var (start, end) := MonthRange(month.value.0, month.value.1);
      NotAfter(start, t.date) && NotAfter(t.date, end)
  }

  /** The query behind the statistics: all records of the month (or all records), newest first. */
  function FetchMonth(ledger: seq<Transaction>, month: Option<(int, int)>): (r: seq<Transaction>)
    ensures Reconciler.SortedDesc(r)
    ensures forall t :: multiset(r)[t] == if InMonth(month, t) then multiset(ledger)[t] else 0
    ensures forall t :: t in r <==> t in ledger && InMonth(month, t)
  {
    var f := MonthFilter(month);
    Reconciler.ListIsExact(ledger, f);
    assert forall t :: Reconciler.Matches(f, t) == InMonth(month, t);
    Reconciler.ListOf(ledger, f)
  }

  // ---------------------------------------------------------------------------
  // Sums
  // ---------------------------------------------------------------------------

  /** The `filter` predicates of the route. */
  datatype Selector =
    | OfType(txType: string)
    | SavingsIn(categoryId: string)
    | ExpenseIn(categoryId: string)
    | MemberOfType(txType: string, memberId: string)

  predicate Selects(sel: Selector, t: Transaction)
  {
    match sel
    case OfType(ty) => t.txType == ty
    case SavingsIn(c) => t.txType == SAVINGS && t.savingsCategoryId == Some(c)
    case ExpenseIn(c) => t.txType == EXPENSE && t.expenseCategoryId == Some(c)
    case MemberOfType(ty, m) => t.txType == ty && t.familyMemberId == Some(m)
  }

  function Where(ts: seq<Transaction>, sel: Selector): (r: seq<Transaction>)
    ensures |r| <= |ts|
    ensures forall t :: t in r <==> t in ts && Selects(sel, t)
  {
    if ts == [] then []
    else (if Selects(sel, ts[0]) then [ts[0]] else []) + Where(ts[1..], sel)
  }

  /** `filter(sel).reduce((sum, t) => sum + t.amount, 0)`. */
  function SumOf(ts: seq<Transaction>, sel: Selector): int
  {
    SumAmounts(Where(ts, sel))
  }

  predicate AmountsNonNegative(ts: seq<Transaction>)
  {
    forall i :: 0 <= i < |ts| ==> ts[i].amount >= 0
  }

  lemma {:induction false} SumOfCons(t: Transaction, ts: seq<Transaction>, sel: Selector)
    ensures SumOf([t] + ts, sel) == (if Selects(sel, t) then t.amount else 0) + SumOf(ts, sel)
  {
    assert ([t] + ts)[1..] == ts;
    var w := Where(ts, sel);
    if Selects(sel, t) {
      assert Where([t] + ts, sel) == [t] + w;
      assert ([t] + w)[1..] == w;
    } else {
      assert Where([t] + ts, sel) == w;
    }
  }

  lemma {:induction false} SumOfAppend(a: seq<Transaction>, b: seq<Transaction>, sel: Selector)
    ensures SumOf(a + b, sel) == SumOf(a, sel) + SumOf(b, sel)
  {
    if a == [] {
      assert a + b == b;
    } else {
      assert a + b == [a[0]] + (a[1..] + b);
      assert a == [a[0]] + a[1..];
      SumOfCons(a[0], a[1..] + b, sel);
      SumOfCons(a[0], a[1..], sel);
      SumOfAppend(a[1..], b, sel);
    }
  }

  lemma {:induction false} SumOfNonNegative(ts: seq<Transaction>, sel: Selector)
    requires AmountsNonNegative(ts)
    ensures 0 <= SumOf(ts, sel) <= SumAmounts(ts)
  {
    if ts != [] {
      assert ts == [ts[0]] + ts[1..];
      SumOfCons(ts[0], ts[1..], sel);
      SumOfNonNegative(ts[1..], sel);
    }
  }

  // ---------------------------------------------------------------------------
  // Registries and results
  // ---------------------------------------------------------------------------

  /** A savings category (limit = target amount) or an expense category (limit = budget). */
  datatype Category = Category(id: string, name: string, limit: Option<int>)

  datatype Member = Member(id: string, name: string, role: string)

  datatype CategoryAmount = CategoryAmount(category: string, amount: int, limit: Option<int>)

  datatype Contribution = Contribution(name: string, role: string, income: int, savings: int)

  datatype StatsReport = StatsReport(
    totalIncome: int,
    totalExpenses: int,
    totalSavings: int,
    balance: int,
    savingsByCategory: seq<CategoryAmount>,
    expensesByCategory: seq<CategoryAmount>,
    memberContributions: seq<Contribution>,
    recentTransactions: seq<Transaction>,
    transactionCount: nat)

  datatype CategoryKind = SavingsKind | ExpenseKind

  function KindType(kind: CategoryKind): string
  {
    if kind == SavingsKind then SAVINGS else EXPENSE
  }

  function InCategory(kind: CategoryKind, id: string): Selector
  {
    if kind == SavingsKind then SavingsIn(id) else ExpenseIn(id)
  }

  /** `categories.map(cat => ...)`: one entry per category, in registry order. */
  function CategoryTotals(ts: seq<Transaction>, cats: seq<Category>, kind: CategoryKind): (r: seq<CategoryAmount>)
    ensures |r| == |cats|
    ensures forall i :: 0 <= i < |cats| ==>
      r[i] == CategoryAmount(cats[i].name, SumOf(ts, InCategory(kind, cats[i].id)), cats[i].limit)
  {
    if cats == [] then []
    else
      var head := CategoryAmount(cats[0].name, SumOf(ts, InCategory(kind, cats[0].id)), cats[0].limit);
      [head] + CategoryTotals(ts, cats[1..], kind)
  }

  /** `filter(s => s.amount > 0)`. */
  function NonZero(xs: seq<CategoryAmount>): (r: seq<CategoryAmount>)
    ensures forall x :: x in r <==> x in xs && x.amount > 0
  {
    if xs == [] then []
    else (if xs[0].amount > 0 then [xs[0]] else []) + NonZero(xs[1..])
  }

  function SumCategoryAmounts(xs: seq<CategoryAmount>): int
  {
    if xs == [] then 0 else xs[0].amount + SumCategoryAmounts(xs[1..])
  }

  function Contributions(ts: seq<Transaction>, members: seq<Member>): (r: seq<Contribution>)
    ensures |r| == |members|
    ensures forall i :: 0 <= i < |members| ==>
      && r[i].name == members[i].name && r[i].role == members[i].role
      && r[i].income == SumOf(ts, MemberOfType(INCOME, members[i].id))
      && r[i].savings == SumOf(ts, MemberOfType(SAVINGS, members[i].id))
  {
    if members == [] then []
    else
      var m := members[0];
      [Contribution(m.name, m.role, SumOf(ts, MemberOfType(INCOME, m.id)), SumOf(ts, MemberOfType(SAVINGS, m.id)))]
        + Contributions(ts, members[1..])
  }

  /** The report computed from the fetched list `ts` (already newest first). */
  function Compute(ts: seq<Transaction>, savingsCats: seq<Category>, expenseCats: seq<Category>, members: seq<Member>)
    : (r: StatsReport)
    ensures r.balance == r.totalIncome - r.totalExpenses - r.totalSavings
    ensures r.transactionCount == |ts|
    ensures |r.recentTransactions| == Min(10, |ts|) && r.recentTransactions == ts[..|r.recentTransactions|]
    ensures forall c :: c in r.savingsByCategory ==> c.amount > 0
    ensures forall c :: c in r.expensesByCategory ==> c.amount > 0
    ensures |r.memberContributions| == |members|
  {
    var income := SumOf(ts, OfType(INCOME));
    var expenses := SumOf(ts, OfType(EXPENSE));
    var savings := SumOf(ts, OfType(SAVINGS));
    StatsReport(
      income, expenses, savings,
      income - expenses - savings,
      NonZero(CategoryTotals(ts, savingsCats, SavingsKind)),
      NonZero(CategoryTotals(ts, expenseCats, ExpenseKind)),
      Contributions(ts, members),
      ts[..Min(10, |ts|)],
      |ts|)
  }

  /** GET: fetch the month, then compute the report. */
  function GetStats(ledger: seq<Transaction>, month: Option<(int, int)>,
                    savingsCats: seq<Category>, expenseCats: seq<Category>, members: seq<Member>): (r: StatsReport)
    ensures r.transactionCount == |FetchMonth(ledger, month)|
    ensures r.recentTransactions == FetchMonth(ledger, month)[..Min(10, |FetchMonth(ledger, month)|)]
    ensures Reconciler.SortedDesc(r.recentTransactions)
    ensures forall t :: t in r.recentTransactions ==> t in ledger && InMonth(month, t)
    ensures forall i, j :: 0 <= i < |r.recentTransactions| <= j < |FetchMonth(ledger, month)| ==>
      NotAfter(FetchMonth(ledger, month)[j].date, r.recentTransactions[i].date)
  {
    var ts := FetchMonth(ledger, month);
    var r := Compute(ts, savingsCats, expenseCats, members);
    NewestPrefix(ts, Min(10, |ts|));
    assert forall t :: t in r.recentTransactions ==> t in ts;
    r
  }

  /** A prefix of a newest-first list is newest first and no older than anything after it. */
  lemma NewestPrefix(ts: seq<Transaction>, n: nat)
    requires Reconciler.SortedDesc(ts) && n <= |ts|
    ensures Reconciler.SortedDesc(ts[..n])
    ensures forall i, j :: 0 <= i < n <= j < |ts| ==> NotAfter(ts[j].date, ts[..n][i].date)
  {
  }

  // ---------------------------------------------------------------------------
  // Properties
  // ---------------------------------------------------------------------------

  /** Reference: the amounts of the records of type `ty`, added record by record. */
  function TypeTotal(ts: seq<Transaction>, ty: string): int
  {
    if ts == [] then 0 else (if ts[0].txType == ty then ts[0].amount else 0) + TypeTotal(ts[1..], ty)
  }

  lemma {:induction false} SumOfTypeIsTypeTotal(ts: seq<Transaction>, ty: string)
    ensures SumOf(ts, OfType(ty)) == TypeTotal(ts, ty)
  {
    if ts != [] {
      assert ts == [ts[0]] + ts[1..];
      SumOfCons(ts[0], ts[1..], OfType(ty));
      SumOfTypeIsTypeTotal(ts[1..], ty);
    }
  }

  /**
   * Each total of the report is the sum of the amounts of exactly the
   * fetched records of its type, and the balance is built from those sums.
   */
  lemma {:induction false} TotalsAreTypeSums(ts: seq<Transaction>, savingsCats: seq<Category>,
                                             expenseCats: seq<Category>, members: seq<Member>)
    ensures var r := Compute(ts, savingsCats, expenseCats, members);
      && r.totalIncome == TypeTotal(ts, INCOME)
      && r.totalExpenses == TypeTotal(ts, EXPENSE)
      && r.totalSavings == TypeTotal(ts, SAVINGS)
      && r.balance == TypeTotal(ts, INCOME) - TypeTotal(ts, EXPENSE) - TypeTotal(ts, SAVINGS)
  {
    SumOfTypeIsTypeTotal(ts, INCOME);
    SumOfTypeIsTypeTotal(ts, EXPENSE);
    SumOfTypeIsTypeTotal(ts, SAVINGS);
  }


  /** Each total counts exactly its own type: a transfer, or any other type, adds to none of them. */
  lemma {:induction false} TotalsCountOnlyTheirType(ts: seq<Transaction>, t: Transaction,
                                                     savingsCats: seq<Category>, expenseCats: seq<Category>, members: seq<Member>)
    ensures var before := Compute(ts, savingsCats, expenseCats, members);
      var after := Compute(ts + [t], savingsCats, expenseCats, members);
      && after.totalIncome == before.totalIncome + (if t.txType == INCOME then t.amount else 0)
      && after.totalExpenses == before.totalExpenses + (if t.txType == EXPENSE then t.amount else 0)
      && after.totalSavings == before.totalSavings + (if t.txType == SAVINGS then t.amount else 0)
  {
    forall ty | ty in {INCOME, EXPENSE, SAVINGS}
      ensures SumOf(ts + [t], OfType(ty)) == SumOf(ts, OfType(ty)) + (if t.txType == ty then t.amount else 0)
    {
      SumOfAppend(ts, [t], OfType(ty));
      SumOfCons(t, [], OfType(ty));
      assert [t] + [] == [t];
    }
  }

  /** Dropping the zero entries loses nothing when no amount is negative. */
  lemma {:induction false} NonZeroKeepsSum(xs: seq<CategoryAmount>)
    requires forall i :: 0 <= i < |xs| ==> xs[i].amount >= 0
    ensures SumCategoryAmounts(NonZero(xs)) == SumCategoryAmounts(xs)
  {
    if xs != [] {
      NonZeroKeepsSum(xs[1..]);
      if xs[0].amount > 0 {
        assert NonZero(xs) == [xs[0]] + NonZero(xs[1..]);
        assert ([xs[0]] + NonZero(xs[1..]))[1..] == NonZero(xs[1..]);
      } else {
        assert NonZero(xs) == NonZero(xs[1..]);
      }
    }
  }

  function IdsOf(cats: seq<Category>): set<string>
  {
    set i | 0 <= i < |cats| :: cats[i].id
  }

  predicate DistinctIds(cats: seq<Category>)
  {
    forall i, j :: 0 <= i < j < |cats| ==> cats[i].id != cats[j].id
  }

  /** Sum of the transactions of the kind whose category is one of `ids`. */
  function SumInCategories(ts: seq<Transaction>, kind: CategoryKind, ids: set<string>): int
  {
    if ts == [] then 0
    else
      var t := ts[0];
      var c := if kind == SavingsKind then t.savingsCategoryId else t.expenseCategoryId;
      (if t.txType == KindType(kind) && c.Some? && c.value in ids then t.amount else 0)
        + SumInCategories(ts[1..], kind, ids)
  }

  lemma {:induction false} AddCategory(ts: seq<Transaction>, kind: CategoryKind, id: string, ids: set<string>)
    requires id !in ids
    ensures SumOf(ts, InCategory(kind, id)) + SumInCategories(ts, kind, ids) == SumInCategories(ts, kind, ids + {id})
  {
    if ts == [] {
    } else {
      assert ts == [ts[0]] + ts[1..];
      SumOfCons(ts[0], ts[1..], InCategory(kind, id));
      AddCategory(ts[1..], kind, id, ids);
    }
  }

  lemma {:induction false} CategoryTotalsAsOneSum(ts: seq<Transaction>, cats: seq<Category>, kind: CategoryKind)
    requires DistinctIds(cats)
    ensures SumCategoryAmounts(CategoryTotals(ts, cats, kind)) == SumInCategories(ts, kind, IdsOf(cats))
  {
    if cats == [] {
      assert IdsOf(cats) == {};
      EmptyCategories(ts, kind);
    } else {
      var rest := cats[1..];
      IdsOfCons(cats);
      CategoryTotalsAsOneSum(ts, rest, kind);
      AddCategory(ts, kind, cats[0].id, IdsOf(rest));
      var r := CategoryTotals(ts, cats, kind);
      assert r[1..] == CategoryTotals(ts, rest, kind);
    }
  }

  lemma IdsOfCons(cats: seq<Category>)
    requires cats != [] && DistinctIds(cats)
    ensures DistinctIds(cats[1..])
    ensures IdsOf(cats) == IdsOf(cats[1..]) + {cats[0].id}
    ensures cats[0].id !in IdsOf(cats[1..])
  {
    var rest := cats[1..];
    forall x ensures x in IdsOf(cats) <==> x in IdsOf(rest) + {cats[0].id} {
      if x in IdsOf(cats) {
        var i :| 0 <= i < |cats| && cats[i].id == x;
        if i > 0 { assert rest[i - 1].id == x; }
      }
      if x in IdsOf(rest) {
        var i :| 0 <= i < |rest| && rest[i].id == x;
        assert cats[i + 1].id == x;
      }
    }
    forall i | 0 <= i < |rest| ensures rest[i].id != cats[0].id {
      assert rest[i] == cats[i + 1];
    }
  }

  lemma {:induction false} EmptyCategories(ts: seq<Transaction>, kind: CategoryKind)
    ensures SumInCategories(ts, kind, {}) == 0
  {
    if ts != [] {
      EmptyCategories(ts[1..], kind);
    }
  }

  lemma {:induction false} CategoriesWithinTotal(ts: seq<Transaction>, kind: CategoryKind, ids: set<string>)
    requires AmountsNonNegative(ts)
    ensures 0 <= SumInCategories(ts, kind, ids) <= SumOf(ts, OfType(KindType(kind)))
  {
    if ts != [] {
      assert ts == [ts[0]] + ts[1..];
      SumOfCons(ts[0], ts[1..], OfType(KindType(kind)));
      CategoriesWithinTotal(ts[1..], kind, ids);
    }
  }

  /**
   * With distinct category ids and no negative amounts, the per-category
   * amounts the report returns add up to at most the total of that type.
   */
  lemma {:induction false} CategoryBreakdownWithinTotal(ts: seq<Transaction>, savingsCats: seq<Category>,
                                                        expenseCats: seq<Category>, members: seq<Member>)
    requires AmountsNonNegative(ts)
    requires DistinctIds(savingsCats) && DistinctIds(expenseCats)
    ensures var r := Compute(ts, savingsCats, expenseCats, members);
      && SumCategoryAmounts(r.savingsByCategory) <= r.totalSavings
      && SumCategoryAmounts(r.expensesByCategory) <= r.totalExpenses
  {
    forall kind: CategoryKind, cats: seq<Category> | DistinctIds(cats)
      ensures SumCategoryAmounts(NonZero(CategoryTotals(ts, cats, kind))) <= SumOf(ts, OfType(KindType(kind)))
    {
      var xs := CategoryTotals(ts, cats, kind);
      forall i | 0 <= i < |xs| ensures xs[i].amount >= 0 {
        SumOfNonNegative(ts, InCategory(kind, cats[i].id));
      }
      NonZeroKeepsSum(xs);
      CategoryTotalsAsOneSum(ts, cats, kind);
      CategoriesWithinTotal(ts, kind, IdsOf(cats));
    }
  }

  /**
   * A category that appears in the breakdown is there with the sum of its own
   * transactions, and a category with a positive sum always appears.
   */
  lemma {:induction false} BreakdownEntries(ts: seq<Transaction>, cats: seq<Category>, kind: CategoryKind, i: nat)
    requires i < |cats|
    ensures var entry := CategoryAmount(cats[i].name, SumOf(ts, InCategory(kind, cats[i].id)), cats[i].limit);
      entry in NonZero(CategoryTotals(ts, cats, kind)) <==> entry.amount > 0
  {
    var xs := CategoryTotals(ts, cats, kind);
    assert xs[i] in xs;
  }
}
