/**
 * The expense-category dialog: how much of a category's budget is used, the
 * three colour bands of the progress bar, the remaining/excess caption, and
 * the category's transactions, picked out of the expense listing by the
 * category's name.
 */
module BudgetProgress {
  import opened Common
  import Reconciler

  datatype ProgressColour = Success | Warning | Error

  /** `getProgressColor`. */
  function ColourOf(progress: real): ProgressColour
  {
    if progress < 50.0 then Success
    else if progress < 100.0 then Warning
    else Error
  }

  /** `getProgressColorHex`. */
  function HexOf(progress: real): string
  {
    if progress < 50.0 then "#72E128"
    else if progress < 100.0 then "#FDB528"
    else "#FF4D49"
  }

  /** The hex code of each colour of the theme. */
  function ThemeHex(c: ProgressColour): string
  {
    match c
    case Success => "#72E128"
    case Warning => "#FDB528"
    case Error => "#FF4D49"
  }

  /** The bar's hex colour is always the theme colour of its band: the two functions use the same bands. */
  lemma HexFollowsColour(progress: real)
    ensures HexOf(progress) == ThemeHex(ColourOf(progress))
    ensures ColourOf(progress) == Success <==> progress < 50.0
    ensures ColourOf(progress) == Error <==> progress >= 100.0
  {
  }

  /** JavaScript truthiness of an optional budget: set and not zero. */
  predicate HasBudget(budget: Option<int>)
  {
    budget.Some? && budget.value != 0
  }

  function RealMin(a: real, b: real): real
  {
    if a < b then a else b
  }

  /** `progress`: the share of the budget spent, in percent, capped at 100; 0 without a budget. */
  function Progress(amount: int, budget: Option<int>): (p: real)
    ensures p <= 100.0
    ensures !HasBudget(budget) ==> p == 0.0
    ensures HasBudget(budget) && budget.value > 0 && amount < budget.value
      ==> p == amount as real / budget.value as real * 100.0
    ensures HasBudget(budget) && budget.value > 0 && amount >= budget.value ==> p == 100.0
  {
    if !HasBudget(budget) then 0.0
    else if budget.value > 0 then
      ShareBounds(amount, budget.value);
      RealMin(amount as real / budget.value as real * 100.0, 100.0)
    else
      RealMin(amount as real / budget.value as real * 100.0, 100.0)
  }

  /** `isOverBudget`: a budget is set and the amount exceeds it. */
  predicate IsOverBudget(amount: int, budget: Option<int>)
  {
    HasBudget(budget) && amount > budget.value
  }

  /** The "Sisa" (remaining) caption, inside the block shown only with a budget. */
  predicate ShowsRemaining(amount: int, budget: Option<int>)
  {
    HasBudget(budget) && budget.value > amount
  }

  /** The "Lebih" (excess) caption, inside the same block. */
  predicate ShowsExcess(amount: int, budget: Option<int>)
  {
    HasBudget(budget) && IsOverBudget(amount, budget)
  }

  lemma {:induction false} ShareBounds(amount: int, budget: int)
    requires budget > 0
    ensures amount as real / budget as real * 100.0 >= 100.0 <==> amount >= budget
    ensures amount as real / budget as real * 100.0 >= 50.0 <==> 2 * amount >= budget
  {
    var q := amount as real / budget as real;
    assert q * budget as real == amount as real;
    if amount >= budget {
      assert q >= 1.0;
    }
    if q >= 1.0 {
      assert q * budget as real >= budget as real;
    }
    if 2 * amount >= budget {
      assert q >= 0.5;
    }
    if q >= 0.5 {
      assert q * budget as real >= 0.5 * budget as real;
    }
  }

  /** With a positive budget the bar turns red exactly when the budget is used up. */
  lemma ErrorIffBudgetUsed(amount: int, budget: int)
    requires budget > 0
    ensures ColourOf(Progress(amount, Some(budget))) == Error <==> amount >= budget
  {
    ShareBounds(amount, budget);
  }

  /** ... and amber exactly from half the budget until it is used up. */
  lemma WarningIffHalfUsed(amount: int, budget: int)
    requires budget > 0
    ensures ColourOf(Progress(amount, Some(budget))) == Warning <==> 2 * amount >= budget && amount < budget
  {
    ShareBounds(amount, budget);
  }

  /** An over-budget category with a positive budget is always drawn in the error colour with a full bar. */
  lemma OverBudgetIsFull(amount: int, budget: int)
    requires budget > 0 && IsOverBudget(amount, Some(budget))
    ensures Progress(amount, Some(budget)) == 100.0
    ensures ColourOf(Progress(amount, Some(budget))) == Error
  {
    ShareBounds(amount, budget);
  }

  /**
   * The two captions are never shown together; with a budget exactly one is
   * shown unless the amount equals the budget, when neither is.
   */
  lemma CaptionsExclusive(amount: int, budget: Option<int>)
    ensures !(ShowsRemaining(amount, budget) && ShowsExcess(amount, budget))
    ensures HasBudget(budget) ==>
      (ShowsRemaining(amount, budget) || ShowsExcess(amount, budget) <==> amount != budget.value)
  {
  }

  // ---------------------------------------------------------------------------
  // The category's transactions
  // ---------------------------------------------------------------------------

  /** The name of a row's expense category, looked up in the category table; absent when it has none. */
  function CategoryName(t: Transaction, names: map<string, string>): (n: Option<string>)
    ensures n.Some? <==> t.expenseCategoryId.Some? && t.expenseCategoryId.value in names
  {
    if t.expenseCategoryId.Some? && t.expenseCategoryId.value in names then Some(names[t.expenseCategoryId.value])
    else None
  }

  /** The rows whose expense category carries the given name. */
  function NamedCategoryRows(ts: seq<Transaction>, names: map<string, string>, name: string): (r: seq<Transaction>)
    ensures |r| <= |ts|
    ensures forall t :: t in r <==> t in ts && CategoryName(t, names) == Some(name)
  {
    if ts == [] then []
    else (if CategoryName(ts[0], names) == Some(name) then [ts[0]] else []) + NamedCategoryRows(ts[1..], names, name)
  }

  /** The dialog's list: the expense listing for the period, then the rows of the category with this name. */
  function DialogRows(ledger: seq<Transaction>, names: map<string, string>, name: string,
                      startDate: Option<DateTime>, endDate: Option<DateTime>): (r: seq<Transaction>)
    ensures forall t :: t in r ==> t in ledger && t.txType == EXPENSE && CategoryName(t, names) == Some(name)
  {
    NamedCategoryRows(Reconciler.ListOf(ledger, Reconciler.ListFilter(Some(EXPENSE), None, startDate, endDate, None)),
                      names, name)
  }

  /**
   * The dialog shows exactly the expenses of the period whose category has
   * the given name, so a second category with the same name has its rows
   * shown as well.
   */
  lemma DialogRowsExact(ledger: seq<Transaction>, names: map<string, string>, name: string,
                        startDate: Option<DateTime>, endDate: Option<DateTime>)
    ensures forall t :: t in DialogRows(ledger, names, name, startDate, endDate) <==>
      && t in ledger
      && t.txType == EXPENSE
      && (startDate.Some? ==> NotAfter(startDate.value, t.date))
      && (endDate.Some? ==> NotAfter(t.date, endDate.value))
      && t.expenseCategoryId.Some? && t.expenseCategoryId.value in names
      && names[t.expenseCategoryId.value] == name
  {
    Reconciler.ListIsExact(ledger, Reconciler.ListFilter(Some(EXPENSE), None, startDate, endDate, None));
  }
}
