/**
 * The transactions table: the type and category filters over the fetched
 * list, the category choices offered for the selected type, the sign and
 * colour of an amount, and the edit form seeded from a stored transaction.
 */
module TransactionList {
  import opened Common
  import RupiahInput
  import TransactionForm
  import Reconciler
  import Stats

  // ---------------------------------------------------------------------------
  // Filters
  // ---------------------------------------------------------------------------

  /** `Array.prototype.filter`: the elements satisfying `keep`, in their order. */
  function Filter(ts: seq<Transaction>, keep: Transaction -> bool): (r: seq<Transaction>)
    ensures |r| <= |ts|
    ensures forall t :: t in r <==> t in ts && keep(t)
  {
    if ts == [] then []
    else (if keep(ts[0]) then [ts[0]] else []) + Filter(ts[1..], keep)
  }

  /** `a` is `b` with some elements left out and the rest in their original order. */
  predicate SubsequenceOf(a: seq<Transaction>, b: seq<Transaction>)
    decreases |b|
  {
    if a == [] then true
    else if b == [] then false
    else if a[0] == b[0] then SubsequenceOf(a[1..], b[1..])
    else SubsequenceOf(a, b[1..])
  }

  /** The category test: against the savings category under a savings filter, the expense category under an expense filter. */
  predicate CategoryMatch(typeFilter: string, categoryFilter: string, t: Transaction)
  {
    if typeFilter == SAVINGS then t.savingsCategoryId == Some(categoryFilter)
    else if typeFilter == EXPENSE then t.expenseCategoryId == Some(categoryFilter)
    else true
  }

  /** Reference: the single condition a row must meet to be shown. */
  predicate Keep(typeFilter: string, categoryFilter: string, t: Transaction)
  {
    && (typeFilter == "" || t.txType == typeFilter)
    && (categoryFilter == "" || CategoryMatch(typeFilter, categoryFilter, t))
  }

  /** `filteredData`: the type filter when one is chosen, then the category filter when one is chosen. */
  function FilteredData(data: seq<Transaction>, typeFilter: string, categoryFilter: string): (r: seq<Transaction>)
    ensures |r| <= |data|
    ensures forall t :: t in r ==> t in data && (typeFilter != "" ==> t.txType == typeFilter)
  {
    var byType := if typeFilter != "" then Filter(data, (t: Transaction) => t.txType == typeFilter) else data;
    if categoryFilter != "" then Filter(byType, t => CategoryMatch(typeFilter, categoryFilter, t)) else byType
  }

  lemma {:induction false} FilterFilter(ts: seq<Transaction>, p: Transaction -> bool, q: Transaction -> bool)
    ensures Filter(Filter(ts, p), q) == Filter(ts, t => p(t) && q(t))
  {
    if ts != [] {
      FilterFilter(ts[1..], p, q);
      var head := if p(ts[0]) then [ts[0]] else [];
      assert Filter(ts, p) == head + Filter(ts[1..], p);
      FilterAppend(head, Filter(ts[1..], p), q);
    }
  }

  lemma {:induction false} FilterAppend(a: seq<Transaction>, b: seq<Transaction>, q: Transaction -> bool)
    ensures Filter(a + b, q) == Filter(a, q) + Filter(b, q)
  {
    if a != [] {
      assert (a + b)[1..] == a[1..] + b;
      FilterAppend(a[1..], b, q);
    } else {
      assert a + b == b;
    }
  }

  lemma {:induction false} FilterAll(ts: seq<Transaction>, p: Transaction -> bool)
    requires forall t :: t in ts ==> p(t)
    ensures Filter(ts, p) == ts
  {
    if ts != [] {
      FilterAll(ts[1..], p);
    }
  }

  lemma {:induction false} FilterIsSubsequence(ts: seq<Transaction>, p: Transaction -> bool)
    ensures SubsequenceOf(Filter(ts, p), ts)
  {
    if ts != [] {
      var rest := Filter(ts[1..], p);
      FilterIsSubsequence(ts[1..], p);
      if p(ts[0]) {
        assert Filter(ts, p) == [ts[0]] + rest;
        assert ([ts[0]] + rest)[1..] == rest;
      } else {
        assert Filter(ts, p) == rest;
        SkipKeepsSubsequence(rest, ts);
      }
    }
  }

  /** A subsequence of the tail is a subsequence of the whole. */
  lemma {:induction false} SkipKeepsSubsequence(a: seq<Transaction>, b: seq<Transaction>)
    requires b != [] && SubsequenceOf(a, b[1..])
    ensures SubsequenceOf(a, b)
    decreases |b|
  {
    if a != [] && a[0] == b[0] {
      assert b[1..] != [];
      SubsequenceOfTail(a, b[1..]);
      assert b[1..][1..] == b[2..];
      SkipKeepsSubsequence(a[1..], b[1..]);
    }
  }

  /** Dropping the first element keeps a subsequence a subsequence. */
  lemma {:induction false} SubsequenceOfTail(a: seq<Transaction>, b: seq<Transaction>)
    requires a != [] && SubsequenceOf(a, b)
    ensures SubsequenceOf(a[1..], b[1..])
    decreases |b|
  {
    assert b != [];
    if a[0] != b[0] {
      assert SubsequenceOf(a, b[1..]);
      assert b[1..] != [];
      SubsequenceOfTail(a, b[1..]);
      assert b[1..][1..] == b[2..];
      SkipKeepsSubsequence(a[1..], b[1..]);
    }
  }

  /** Filters whose conditions agree on every element select the same elements. */
  lemma {:induction false} FilterCongruent(ts: seq<Transaction>, p: Transaction -> bool, q: Transaction -> bool)
    requires forall t :: p(t) == q(t)
    ensures Filter(ts, p) == Filter(ts, q)
  {
    if ts != [] {
      FilterCongruent(ts[1..], p, q);
    }
  }

  /** The two successive filters keep exactly the rows meeting the single combined condition. */
  lemma FilteredIsKeep(data: seq<Transaction>, typeFilter: string, categoryFilter: string)
    ensures FilteredData(data, typeFilter, categoryFilter) == Filter(data, t => Keep(typeFilter, categoryFilter, t))
  {
    var byType := (t: Transaction) => t.txType == typeFilter;
    var byCategory := (t: Transaction) => CategoryMatch(typeFilter, categoryFilter, t);
    var keep := (t: Transaction) => Keep(typeFilter, categoryFilter, t);
    var both := (t: Transaction) => byType(t) && byCategory(t);
    if typeFilter != "" && categoryFilter != "" {
      FilterFilter(data, byType, byCategory);
      FilterCongruent(data, both, keep);
    } else if typeFilter != "" {
      FilterCongruent(data, byType, keep);
    } else if categoryFilter != "" {
      FilterCongruent(data, byCategory, keep);
    } else {
      FilterAll(data, keep);
    }
  }

  /** The shown rows are an order-preserving selection from the fetched list. */
  lemma FilteredIsSubsequence(data: seq<Transaction>, typeFilter: string, categoryFilter: string)
    ensures SubsequenceOf(FilteredData(data, typeFilter, categoryFilter), data)
  {
    FilteredIsKeep(data, typeFilter, categoryFilter);
    FilterIsSubsequence(data, t => Keep(typeFilter, categoryFilter, t));
  }

  /**
   * Without a type filter every row is shown (the category filter then has
   * nothing to compare against); with one, exactly its rows, narrowed by
   * category only under savings or expense.
   */
  lemma FilterCases(data: seq<Transaction>, typeFilter: string, categoryFilter: string)
    ensures typeFilter == "" ==> FilteredData(data, typeFilter, categoryFilter) == data
    ensures typeFilter != SAVINGS && typeFilter != EXPENSE ==>
      FilteredData(data, typeFilter, categoryFilter) == FilteredData(data, typeFilter, "")
    ensures forall t :: t in FilteredData(data, typeFilter, categoryFilter) <==>
      t in data && Keep(typeFilter, categoryFilter, t)
  {
    FilteredIsKeep(data, typeFilter, categoryFilter);
    FilteredIsKeep(data, typeFilter, "");
    if typeFilter != SAVINGS && typeFilter != EXPENSE {
      FilterCongruent(data, t => Keep(typeFilter, categoryFilter, t), t => Keep(typeFilter, "", t));
    }
    if typeFilter == "" {
      FilterAll(data, t => Keep(typeFilter, categoryFilter, t));
    }
  }

  // ---------------------------------------------------------------------------
  // Category choices, sign and colour
  // ---------------------------------------------------------------------------

  datatype CategoryOption = CategoryOption(id: string, name: string)

  function Options(cats: seq<Stats.Category>): (r: seq<CategoryOption>)
    ensures |r| == |cats|
    ensures forall i :: 0 <= i < |cats| ==> r[i] == CategoryOption(cats[i].id, cats[i].name)
  {
    if cats == [] then [] else [CategoryOption(cats[0].id, cats[0].name)] + Options(cats[1..])
  }

  /** `getCategoryOptions`: the categories matching the type filter, none for other types. */
  function CategoryOptions(typeFilter: string, savings: seq<Stats.Category>, expenses: seq<Stats.Category>)
    : (r: seq<CategoryOption>)
    ensures typeFilter != SAVINGS && typeFilter != EXPENSE ==> r == []
    ensures typeFilter == SAVINGS ==>
      && |r| == |savings|
      && forall i :: 0 <= i < |savings| ==> r[i].id == savings[i].id && r[i].name == savings[i].name
    ensures typeFilter == EXPENSE ==>
      && |r| == |expenses|
      && forall i :: 0 <= i < |expenses| ==> r[i].id == expenses[i].id && r[i].name == expenses[i].name
  {
    if typeFilter == SAVINGS then Options(savings)
    else if typeFilter == EXPENSE then Options(expenses)
    else []
  }

  /**
   * Options are offered only under a savings or expense filter, and choosing
   * one (with a non-empty id) narrows the list to rows of that type and category.
   */
  lemma OptionsMatchFilter(typeFilter: string, savings: seq<Stats.Category>, expenses: seq<Stats.Category>,
                           data: seq<Transaction>, i: nat)
    requires i < |CategoryOptions(typeFilter, savings, expenses)|
    ensures typeFilter == SAVINGS || typeFilter == EXPENSE
    ensures var o := CategoryOptions(typeFilter, savings, expenses)[i];
      && (typeFilter == SAVINGS ==> i < |savings| && o.id == savings[i].id)
      && (typeFilter == EXPENSE ==> i < |expenses| && o.id == expenses[i].id)
      && forall t :: o.id != "" && t in FilteredData(data, typeFilter, o.id) ==>
           t.txType == typeFilter
           && (typeFilter == SAVINGS ==> t.savingsCategoryId == Some(o.id))
           && (typeFilter == EXPENSE ==> t.expenseCategoryId == Some(o.id))
  {
    var o := CategoryOptions(typeFilter, savings, expenses)[i];
    FilterCases(data, typeFilter, o.id);
  }

  datatype Colour = Success | Error | Info

  /** The amount column: `+` for income, `-` for every other type. */
  function AmountSign(txType: string): char
  {
    if txType == INCOME then '+' else '-'
  }

  function AmountColour(txType: string): Colour
  {
    if txType == INCOME then Success else if txType == EXPENSE then Error else Info
  }

  /**
   * The sign and colour agree: `+` exactly in the success colour (income),
   * and a transfer, which moves money between the family's own accounts,
   * is still shown as an outflow.
   */
  lemma SignAndColour(txType: string)
    ensures AmountSign(txType) == '+' <==> AmountColour(txType) == Success
    ensures AmountColour(txType) == Error ==> AmountSign(txType) == '-'
    ensures txType == TRANSFER ==> AmountSign(txType) == '-' && AmountColour(txType) == Info
  {
  }

  // ---------------------------------------------------------------------------
  // Editing
  // ---------------------------------------------------------------------------

  function OrEmpty(o: Option<string>): (s: string)
    ensures o.Some? ==> s == o.value
    ensures o.None? ==> s == ""
  {
    if o.Some? then o.value else ""
  }

  /** The edit form seeded from a row: the amount formatted, absent fields empty; `dateText` is the row's date as text. */
  function EditPrefill(t: Transaction, dateText: string): (f: TransactionForm.FormData)
    ensures TransactionForm.AmountFormatted(f)
    ensures f.txType == t.txType && f.date == dateText
    ensures f.amount == RupiahInput.Format(RupiahInput.IntToString(t.amount))
    ensures f.description == OrEmpty(t.description) && f.familyMemberId == OrEmpty(t.familyMemberId)
    ensures f.savingsCategoryId == OrEmpty(t.savingsCategoryId) && f.expenseCategoryId == OrEmpty(t.expenseCategoryId)
    ensures f.fromStorageTypeId == OrEmpty(t.fromStorageTypeId) && f.toStorageTypeId == OrEmpty(t.toStorageTypeId)
  {
    RupiahInput.FormatIdempotent(RupiahInput.IntToString(t.amount));
    TransactionForm.FormData(
      t.txType, RupiahInput.Format(RupiahInput.IntToString(t.amount)), OrEmpty(t.description), dateText,
      OrEmpty(t.familyMemberId), OrEmpty(t.savingsCategoryId), OrEmpty(t.expenseCategoryId),
      OrEmpty(t.fromStorageTypeId), OrEmpty(t.toStorageTypeId))
  }

  /**
   * Opening a stored record for editing and saving it unchanged writes the
   * same record back, except that its date becomes whatever the date text
   * parses to (the time of day does not survive the text).
   */
  lemma {:induction false} UnchangedEditKeepsRecord(t: Transaction, dateText: string, parsed: DateTime)
    requires Reconciler.Canonical(t)
    requires t.amount >= 0
    ensures var input := TransactionForm.ToInput(TransactionForm.SubmitBody(EditPrefill(t, dateText)), Some(parsed));
      && input.Some?
      && Reconciler.NormalizeUpdate(t, input.value) == t.(date := parsed)
  {
    var f := EditPrefill(t, dateText);
    RupiahInput.AmountRoundTrip(t.amount);
    assert TransactionForm.SubmitBody(f).amount == RupiahInput.Parse(RupiahInput.Format(RupiahInput.IntToString(t.amount)));
  }

  /**
   * ... and, when neither the reversal nor the re-application is clamped, the
   * balances are left exactly as they were.
   */
  lemma {:induction false} UnchangedEditKeepsBalances(b: map<string, int>, t: Transaction, dateText: string, parsed: DateTime)
    requires Reconciler.Canonical(t)
    requires t.amount >= 0
    requires Reconciler.NoClampOnReverse(b, t)
    requires Reconciler.NoClampOnApply(Reconciler.ReverseEffect(b, t), t.txType, t.amount, t.fromStorageTypeId)
    ensures var input := TransactionForm.ToInput(TransactionForm.SubmitBody(EditPrefill(t, dateText)), Some(parsed));
      && input.Some?
      && Reconciler.UpdateEffect(Reconciler.ReverseEffect(b, t), input.value) == b
  {
    UnchangedEditKeepsRecord(t, dateText, parsed);
    var input := TransactionForm.ToInput(TransactionForm.SubmitBody(EditPrefill(t, dateText)), Some(parsed)).value;
    assert input.amount == t.amount;
    assert Reconciler.NullIfEmpty(input.fromStorageTypeId) == t.fromStorageTypeId;
    assert Reconciler.NullIfEmpty(input.toStorageTypeId) == t.toStorageTypeId;
    Reconciler.UpdateNetChange(b, t, input);
    var r := Reconciler.UpdateEffect(Reconciler.ReverseEffect(b, t), input);
    forall k | k in b
      ensures r[k] == b[k]
    {
      assert Reconciler.EffectDelta(t.txType, 0, t.fromStorageTypeId, t.toStorageTypeId, k) == 0;
    }
    Reconciler.MapsEqual(r, b);
  }
}
