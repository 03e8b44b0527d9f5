/**
 * Shared vocabulary of the household-savings ("Tabungan Keluarga") model:
 * optional values, calendar timestamps, and the transaction records that the
 * API routes store and the dialogs display.
 */
module Common {

  datatype Option<+T> = None | Some(value: T)

  /** JavaScript truthiness of an optional id: present and not the empty string. */
  predicate Present(o: Option<string>)
  {
    o.Some? && o.value != ""
  }

  function Max(a: int, b: int): int
  {
    if a < b then b else a
  }

  function Min(a: int, b: int): int
  {
    if a < b then a else b
  }

  // The four transaction types the application knows. The routes compare the
  // type as a string, so any other string is representable and has no effect.
  const INCOME: string := "income"
  const EXPENSE: string := "expense"
  const SAVINGS: string := "savings"
  const TRANSFER: string := "transfer"

  /**
   * A local calendar timestamp: year, month 1..12, day 1..31 and the
   * milliseconds elapsed since midnight. Dates compare field by field.
   */
  datatype DateTime = DateTime(year: int, month: int, day: int, ms: int)

  /** Strict chronological order on timestamps. */
  predicate Before(a: DateTime, b: DateTime)
  {
    || a.year < b.year
    || (a.year == b.year && a.month < b.month)
    || (a.year == b.year && a.month == b.month && a.day < b.day)
    || (a.year == b.year && a.month == b.month && a.day == b.day && a.ms < b.ms)
  }

  /** `a <= b` in time. */
  predicate NotAfter(a: DateTime, b: DateTime)
  {
    !Before(b, a)
  }

  /** A stored transaction row; absent references are `None` (SQL null). */
  datatype Transaction = Transaction(
    id: string,
    txType: string,
    amount: int,
    description: Option<string>,
    date: DateTime,
    familyMemberId: Option<string>,
    savingsCategoryId: Option<string>,
    expenseCategoryId: Option<string>,
    fromStorageTypeId: Option<string>,
    toStorageTypeId: Option<string>)

  /**
   * The JSON body of a create or update request, after `parseFloat` of the
   * amount. Every field the client may omit is optional; an empty string is
   * kept as `Some("")` because the routes test for it explicitly.
   */
  datatype TxInput = TxInput(
    txType: string,
    amount: int,
    description: Option<string>,
    date: Option<DateTime>,
    familyMemberId: Option<string>,
    savingsCategoryId: Option<string>,
    expenseCategoryId: Option<string>,
    fromStorageTypeId: Option<string>,
    toStorageTypeId: Option<string>)

  /** Sum of the amounts of a list of transactions, left to right. */
  function SumAmounts(ts: seq<Transaction>): int
  {
    if ts == [] then 0 else ts[0].amount + SumAmounts(ts[1..])
  }

  /** The sum of two lists one after the other is the sum of each. */
  lemma {:induction false} SumAmountsAppend(a: seq<Transaction>, b: seq<Transaction>)
    ensures SumAmounts(a + b) == SumAmounts(a) + SumAmounts(b)
  {
    if a == [] {
      assert a + b == b;
    } else {
      assert (a + b)[0] == a[0];
      assert (a + b)[1..] == a[1..] + b;
      SumAmountsAppend(a[1..], b);
    }
  }
}
